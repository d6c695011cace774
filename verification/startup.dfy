/**
 * Start-up of the bridge (src/main.rs): the check that Basic and bearer
 * credentials are not both configured, building the sender, dispatching to
 * the configured pipeline, the Kafka client properties, and the websocket URL.
 */
module Startup {
  import opened Wrappers
  import opened Config
  import opened Forwarding

  datatype StartupError = BothBasicAndBearer | SenderFailed(cause: SetupError)

  /** The pipeline the process runs for its whole lifetime. */
  datatype Pipeline =
    | KafkaPipeline(kafka: KafkaConfig, sender: Sender)
    | WebsocketPipeline(websocket: WebsocketConfig, sender: Sender)

  predicate BothAuthConfigured(endpoint: EndpointConfig) {
    endpoint.username.Some? && endpoint.token.Some?
  }

  /**
   * Start-up after the configuration was read: a username together with a
   * token is refused before any sender is built; then the sender is built
   * (whether the sink URL parses is `urlParses`) and the mode picks the pipeline.
   */
  function Start(config: Config, urlParses: bool): (r: Result<Pipeline, StartupError>)
    ensures BothAuthConfigured(config.endpoint) ==> r == Err(BothBasicAndBearer)
    ensures r.Ok? <==> !BothAuthConfigured(config.endpoint) && urlParses
    ensures !BothAuthConfigured(config.endpoint) && !urlParses ==> r == Err(SenderFailed(InvalidUrl(config.kSink)))
    ensures r.Ok? ==> r.value.sender == NewSender(config.kSink, config.endpoint, true).value
    ensures r.Ok? ==> (r.value.KafkaPipeline? <==> config.mode.Kafka?)
    ensures r.Ok? && r.value.KafkaPipeline? ==> r.value.kafka == config.mode.kafka
    ensures r.Ok? && r.value.WebsocketPipeline? ==> r.value.websocket == config.mode.websocket
  {
    if BothAuthConfigured(config.endpoint) then Err(BothBasicAndBearer)
    else
      match NewSender(config.kSink, config.endpoint, urlParses)
      case Err(e) => Err(SenderFailed(e))
      case Ok(sender) =>
        match config.mode
        case Kafka(k) => Ok(KafkaPipeline(k, sender))
        case Websocket(w) => Ok(WebsocketPipeline(w, sender))
  }

  // ---------------------------------------------------------------------------
  // Kafka client properties

  /** A user property name as the Kafka client expects it: every `_` becomes `.`. */
  function TranslateKey(key: string): (r: string)
    ensures |r| == |key|
    ensures forall i :: 0 <= i < |key| ==> r[i] == (if key[i] == '_' then '.' else key[i])
    ensures forall i :: 0 <= i < |r| ==> r[i] != '_'
  {
    if key == [] then [] else [if key[0] == '_' then '.' else key[0]] + TranslateKey(key[1..])
  }

  /** Two different user names can reach the same client property. */
  lemma TranslateKeyNotInjective()
    ensures TranslateKey("foo_bar") == TranslateKey("foo.bar") == "foo.bar"
  {
    assert TranslateKey("foo_bar") == "foo.bar";
    assert TranslateKey("foo.bar") == "foo.bar";
  }

  predicate NoDot(s: string) {
    forall i :: 0 <= i < |s| ==> s[i] != '.'
  }

  /**
   * On names without `.` the translation loses nothing: a `.` in the result
   * can only have been a `_`. Property names taken from the environment never
   * hold a `.`, as the configuration reader cuts names at `.`.
   */
  lemma TranslateKeyInjectiveWithoutDots(a: string, b: string)
    requires NoDot(a) && NoDot(b) && TranslateKey(a) == TranslateKey(b)
    ensures a == b
  {
    var t := TranslateKey(a);
    assert |a| == |t| == |b|;
    forall i | 0 <= i < |a| ensures a[i] == b[i] {
      if a[i] == '_' {
        assert t[i] == '.';
      } else {
        assert t[i] == a[i] != '.';
      }
    }
  }

  /** `m` after setting each pair in turn, later pairs overriding earlier ones. */
  function ExtendWith(m: map<string, string>, pairs: seq<(string, string)>): map<string, string>
    decreases |pairs|
  {
    if pairs == [] then m else ExtendWith(m[pairs[0].0 := pairs[0].1], pairs[1..])
  }

  /**
   * After extending, a key is present when it was or when some pair sets it;
   * its value is that of the last pair setting it, or the old one.
   */
  lemma {:induction false} ExtendWithLookup(m: map<string, string>, pairs: seq<(string, string)>, k: string)
    ensures k in ExtendWith(m, pairs) <==> k in m || exists i :: 0 <= i < |pairs| && pairs[i].0 == k
    ensures (forall i :: 0 <= i < |pairs| ==> pairs[i].0 != k) && k in m ==> ExtendWith(m, pairs)[k] == m[k]
    ensures forall i :: 0 <= i < |pairs| && pairs[i].0 == k && (forall j :: i < j < |pairs| ==> pairs[j].0 != k) ==>
              k in ExtendWith(m, pairs) && ExtendWith(m, pairs)[k] == pairs[i].1
    decreases |pairs|
  {
    if pairs != [] {
      var m' := m[pairs[0].0 := pairs[0].1];
      ExtendWithLookup(m', pairs[1..], k);
      assert forall i :: 1 <= i < |pairs| ==> pairs[1..][i - 1] == pairs[i];
      if k in m' && k !in m {
        assert pairs[0].0 == k;
      }
    }
  }

  /** The user properties, in the order the property map is iterated, with translated names. */
  function TranslatedPairs(properties: map<string, string>, order: seq<string>): (r: seq<(string, string)>)
    requires forall i :: 0 <= i < |order| ==> order[i] in properties
    ensures |r| == |order|
    ensures forall i :: 0 <= i < |order| ==> r[i] == (TranslateKey(order[i]), properties[order[i]])
  {
    if order == [] then []
    else [(TranslateKey(order[0]), properties[order[0]])] + TranslatedPairs(properties, order[1..])
  }

  /** An iteration order of a map: every key exactly once. */
  predicate IsOrderOf(properties: map<string, string>, order: seq<string>) {
    && (forall i :: 0 <= i < |order| ==> order[i] in properties)
    && (forall k :: k in properties ==> k in order)
    && (forall i, j :: 0 <= i < j < |order| ==> order[i] != order[j])
  }

  /** The settings for at-least-once delivery, applied after the user properties. */
  function AtLeastOnce(m: map<string, string>): map<string, string> {
    m["enable.auto.commit" := "true"]["auto.commit.interval.ms" := "5000"]["enable.auto.offset.store" := "false"]
  }

  /** The Kafka client properties, the user properties iterated in `order`. */
  function ClientProperties(config: KafkaConfig, order: seq<string>): map<string, string>
    requires IsOrderOf(config.properties, order)
  {
    AtLeastOnce(ExtendWith(map["bootstrap.servers" := config.bootstrapServers],
                           TranslatedPairs(config.properties, order)))
  }

  /** The client configuration that `kafka` fills in place. */
  class ClientConfig {
    var entries: map<string, string>

    constructor ()
      ensures entries == map[]
    {
      entries := map[];
    }

    method Set(key: string, value: string)
      modifies this
      ensures entries == old(entries)[key := value]
    {
      entries := entries[key := value];
    }

    method Extend(pairs: seq<(string, string)>)
      modifies this
      ensures entries == ExtendWith(old(entries), pairs)
    {
      var i := 0;
      while i < |pairs|
        invariant 0 <= i <= |pairs|
        invariant ExtendWith(old(entries), pairs) == ExtendWith(entries, pairs[i..])
      {
        assert pairs[i..][1..] == pairs[i + 1..];
        Set(pairs[i].0, pairs[i].1);
        i := i + 1;
      }
    }
  }

  /** Builds the Kafka client configuration: bootstrap servers, user properties, then the fixed settings. */
  method KafkaClientConfig(config: KafkaConfig, order: seq<string>) returns (client: ClientConfig)
    requires IsOrderOf(config.properties, order)
    ensures fresh(client)
    ensures client.entries == ClientProperties(config, order)
  {
    client := new ClientConfig();
    client.Set("bootstrap.servers", config.bootstrapServers);
    client.Extend(TranslatedPairs(config.properties, order));
    client.Set("enable.auto.commit", "true");
    client.Set("auto.commit.interval.ms", "5000");
    client.Set("enable.auto.offset.store", "false");
  }

  predicate IsFixedKey(k: string) {
    k == "enable.auto.commit" || k == "auto.commit.interval.ms" || k == "enable.auto.offset.store"
  }

  /** The at-least-once settings are applied last, so no user property overrides them. */
  lemma AtLeastOnceSettingsWin(config: KafkaConfig, order: seq<string>)
    requires IsOrderOf(config.properties, order)
    ensures var p := ClientProperties(config, order);
      && p["enable.auto.commit"] == "true"
      && p["auto.commit.interval.ms"] == "5000"
      && p["enable.auto.offset.store"] == "false"
  {
  }

  /** The names set by the bootstrap servers and the user properties, before the fixed settings. */
  lemma {:induction false} ExtendedNames(config: KafkaConfig, order: seq<string>, k: string)
    requires IsOrderOf(config.properties, order)
    ensures k in ExtendWith(map["bootstrap.servers" := config.bootstrapServers], TranslatedPairs(config.properties, order))
            <==> k == "bootstrap.servers" || exists u :: u in config.properties && TranslateKey(u) == k
  {
    var pairs := TranslatedPairs(config.properties, order);
    ExtendWithLookup(map["bootstrap.servers" := config.bootstrapServers], pairs, k);
    if exists u :: u in config.properties && TranslateKey(u) == k {
      var u :| u in config.properties && TranslateKey(u) == k;
      var i :| 0 <= i < |order| && order[i] == u;
      assert pairs[i].0 == k;
    }
    if exists i :: 0 <= i < |pairs| && pairs[i].0 == k {
      var i :| 0 <= i < |pairs| && pairs[i].0 == k;
      assert order[i] in config.properties && TranslateKey(order[i]) == k;
    }
  }

  /**
   * The client property names are exactly the fixed settings, the bootstrap
   * servers and the translated user property names.
   */
  lemma ClientPropertyNames(config: KafkaConfig, order: seq<string>)
    requires IsOrderOf(config.properties, order)
    ensures forall k :: k in ClientProperties(config, order) <==>
              IsFixedKey(k) || k == "bootstrap.servers" || exists u :: u in config.properties && TranslateKey(u) == k
  {
    forall k ensures k in ClientProperties(config, order) <==>
        IsFixedKey(k) || k == "bootstrap.servers" || exists u :: u in config.properties && TranslateKey(u) == k
    {
      ExtendedNames(config, order, k);
    }
  }

  predicate NoUnderscore(k: string) {
    forall i :: 0 <= i < |k| ==> k[i] != '_'
  }

  /** No client property name contains `_`. */
  lemma ClientPropertyNamesHaveNoUnderscore(config: KafkaConfig, order: seq<string>)
    requires IsOrderOf(config.properties, order)
    ensures forall k :: k in ClientProperties(config, order) ==> NoUnderscore(k)
  {
    ClientPropertyNames(config, order);
    assert NoUnderscore("bootstrap.servers");
    assert NoUnderscore("enable.auto.commit");
    assert NoUnderscore("auto.commit.interval.ms");
    assert NoUnderscore("enable.auto.offset.store");
    forall k | k in ClientProperties(config, order) ensures NoUnderscore(k) {
      if !IsFixedKey(k) && k != "bootstrap.servers" {
        var u :| u in config.properties && TranslateKey(u) == k;
      }
    }
  }

  /** The bootstrap servers survive unless some user property translates to their name. */
  lemma BootstrapServersKept(config: KafkaConfig, order: seq<string>)
    requires IsOrderOf(config.properties, order)
    requires forall u :: u in config.properties ==> TranslateKey(u) != "bootstrap.servers"
    ensures var p := ClientProperties(config, order);
      "bootstrap.servers" in p && p["bootstrap.servers"] == config.bootstrapServers
  {
    var pairs := TranslatedPairs(config.properties, order);
    ExtendWithLookup(map["bootstrap.servers" := config.bootstrapServers], pairs, "bootstrap.servers");
    assert forall i :: 0 <= i < |pairs| ==> pairs[i].0 == TranslateKey(order[i]);
  }

  /**
   * A user property appears under its translated name with its own value,
   * unless a later one in iteration order translates to the same name or the
   * name is one of the fixed settings; a user property named
   * `bootstrap_servers` thus overrides the bootstrap servers.
   */
  lemma UserPropertyValue(config: KafkaConfig, order: seq<string>, i: nat)
    requires IsOrderOf(config.properties, order)
    requires i < |order| && !IsFixedKey(TranslateKey(order[i]))
    requires forall j :: i < j < |order| ==> TranslateKey(order[j]) != TranslateKey(order[i])
    ensures TranslateKey(order[i]) in ClientProperties(config, order)
    ensures ClientProperties(config, order)[TranslateKey(order[i])] == config.properties[order[i]]
  {
    ExtendWithLookup(map["bootstrap.servers" := config.bootstrapServers],
                     TranslatedPairs(config.properties, order), TranslateKey(order[i]));
  }

  // ---------------------------------------------------------------------------
  // Websocket URL

  /** The websocket URL: the endpoint, a `/`, then the application name. */
  function WebsocketUrl(config: WebsocketConfig): (url: string)
    ensures |url| == |config.drogueEndpoint| + 1 + |config.drogueApp|
    ensures url[..|config.drogueEndpoint|] == config.drogueEndpoint
    ensures url[|config.drogueEndpoint|] == '/'
    ensures url[|config.drogueEndpoint| + 1..] == config.drogueApp
  {
    config.drogueEndpoint + "/" + config.drogueApp
  }
}
