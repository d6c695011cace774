/**
 * The configuration data model of the bridge (src/config.rs): the endpoint
 * block with its defaults, the two ingestion modes selected by the `mode` tag,
 * and the rule by which environment variable names become nested paths.
 *
 * Durations are whole milliseconds.  Parsing of typed scalars (HTTP method
 * names, booleans, counts, human-readable durations) is done by libraries
 * outside this model and enters as the `Parsers` oracle.
 */
module Config {
  import opened Wrappers

  /** An HTTP request method; names other than the standard ones are extension methods. */
  datatype Method =
    | Options | Get | Post | Put | Delete | Head | Trace | Connect | Patch
    | Extension(name: string)

  const DefaultMethod: Method := Post
  const DefaultErrorDelayMs: nat := 1000
  const DefaultRetries: nat := 5

  /** How the sink is called and how failed calls are retried. */
  datatype EndpointConfig = EndpointConfig(
    httpMethod: Method,
    username: Option<string>,
    password: Option<string>,
    token: Option<string>,
    tlsInsecure: bool,
    tlsCertificate: Option<string>,
    headers: map<string, string>,
    timeoutMs: Option<nat>,
    errorDelayMs: nat,
    retries: nat)

  datatype KafkaConfig = KafkaConfig(topic: string, bootstrapServers: string, properties: map<string, string>)

  datatype WebsocketConfig = WebsocketConfig(
    drogueEndpoint: string,
    drogueApp: string,
    drogueUser: Option<string>,
    drogueToken: Option<string>)

  /** The ingestion pipeline to run, selected by the `mode` tag. */
  datatype Mode = Kafka(kafka: KafkaConfig) | Websocket(websocket: WebsocketConfig)

  datatype Config = Config(endpoint: EndpointConfig, kSink: string, mode: Mode)

  /** The endpoint block used when none is configured. */
  function DefaultEndpoint(): (e: EndpointConfig)
    ensures e.httpMethod == Post && e.tlsInsecure == false && e.headers == map[]
    ensures e.username.None? && e.password.None? && e.token.None?
    ensures e.tlsCertificate.None? && e.timeoutMs.None?
    ensures e.errorDelayMs == 1000 && e.retries == 5
  {
    EndpointConfig(DefaultMethod, None, None, None, false, None, map[], None,
                   DefaultErrorDelayMs, DefaultRetries)
  }

  // ---------------------------------------------------------------------------
  // The mode tag

  datatype ModeKind = KafkaMode | WebsocketMode

  /** The variant named by a `mode` tag: variant names are lower case, and `ws` is an alias. */
  function ModeTag(tag: string): (k: Option<ModeKind>)
    ensures k == Some(KafkaMode) <==> tag == "kafka"
    ensures k == Some(WebsocketMode) <==> tag == "websocket" || tag == "ws"
    ensures k.None? <==> tag !in {"kafka", "websocket", "ws"}
  {
    if tag == "kafka" then Some(KafkaMode)
    else if tag == "websocket" || tag == "ws" then Some(WebsocketMode)
    else None
  }

  // ---------------------------------------------------------------------------
  // Environment variable names as nested paths

  type Path = seq<string>

  /** The environment after its names were turned into paths. */
  type Env = map<Path, string>

  function LowerChar(c: char): char {
    if 'A' <= c <= 'Z' then (c as int + 32) as char else c
  }

  /** ASCII lower-casing of a whole name. */
  function Lower(s: string): (r: string)
    ensures |r| == |s|
    ensures forall i :: 0 <= i < |s| ==> r[i] == LowerChar(s[i])
  {
    seq(|s|, i requires 0 <= i < |s| => LowerChar(s[i]))
  }

  predicate HasSeparatorAt(s: string, i: int) {
    0 <= i < |s| - 1 && s[i] == '_' && s[i + 1] == '_'
  }

  /** Whether the nesting separator `__` occurs in `s`. */
  predicate HasSeparator(s: string) {
    exists i :: 0 <= i < |s| && HasSeparatorAt(s, i)
  }

  /** `s` cut at every `__`, scanning left to right (as `str::split` does). */
  function Split(s: string): (parts: seq<string>)
    ensures |parts| >= 1
    ensures |parts[0]| <= |s| && parts[0] == s[..|parts[0]|]
    decreases |s|
  {
    if |s| < 2 then [s]
    else if s[0] == '_' && s[1] == '_' then [""] + Split(s[2..])
    else
      var rest := Split(s[1..]);
      [[s[0]] + rest[0]] + rest[1..]
  }

  /** The segments glued back together with `__`. */
  function Join(parts: seq<string>): string
    requires |parts| >= 1
  {
    if |parts| == 1 then parts[0] else parts[0] + "__" + Join(parts[1..])
  }

  /** The path an environment variable name stands for: lower-cased, then split on `__`. */
  function SplitKey(name: string): (path: Path)
    ensures |path| >= 1
  {
    Split(Lower(name))
  }

  lemma ConsTail(s: string)
    requires |s| >= 1
    ensures [s[0]] + s[1..] == s
  {
  }

  lemma SeparatorTail(s: string)
    requires |s| >= 2 && s[0] == '_' && s[1] == '_'
    ensures "__" + s[2..] == s
  {
    assert s[..2] == "__";
    assert s[..2] + s[2..] == s;
  }

  lemma SplitJoinAtSeparator(s: string)
    requires |s| >= 2 && s[0] == '_' && s[1] == '_'
    requires Join(Split(s[2..])) == s[2..]
    ensures Join(Split(s)) == s
  {
    var tail := Split(s[2..]);
    var parts := [""] + tail;
    assert Split(s) == parts;
    assert parts[1..] == tail;
    assert Join(parts) == "" + "__" + s[2..];
    SeparatorTail(s);
  }

  lemma SplitJoinAtChar(s: string)
    requires |s| >= 2 && !(s[0] == '_' && s[1] == '_')
    requires Join(Split(s[1..])) == s[1..]
    ensures Join(Split(s)) == s
  {
    var rest := Split(s[1..]);
    calc {
      Join(Split(s));
      Join([[s[0]] + rest[0]] + rest[1..]);
      { JoinPrepend(s[0], rest); }
      [s[0]] + Join(rest);
      [s[0]] + s[1..];
      { ConsTail(s); }
      s;
    }
  }

  lemma ConcatRegroup(a: string, x: string, y: string, z: string)
    ensures a + x + y + z == a + (x + y + z)
  {
    var lhs, rhs := a + x + y + z, a + (x + y + z);
    assert |lhs| == |rhs|;
    forall i | 0 <= i < |lhs| ensures lhs[i] == rhs[i] {
      if i >= |a| {
        assert rhs[i] == (x + y + z)[i - |a|];
      }
    }
  }

  /** Putting a character in front of the first segment puts it in front of the joined name. */
  lemma JoinPrepend(c: char, rest: seq<string>)
    requires |rest| >= 1
    ensures Join([[c] + rest[0]] + rest[1..]) == [c] + Join(rest)
  {
    var parts := [[c] + rest[0]] + rest[1..];
    if |rest| > 1 {
      var more := Join(rest[1..]);
      assert parts[1..] == rest[1..];
      ConcatRegroup([c], rest[0], "__", more);
    }
  }

  lemma {:induction false} SplitJoin(s: string)
    ensures Join(Split(s)) == s
    decreases |s|
  {
    if |s| < 2 {
    } else if s[0] == '_' && s[1] == '_' {
      SplitJoin(s[2..]);
      SplitJoinAtSeparator(s);
    } else {
      SplitJoin(s[1..]);
      SplitJoinAtChar(s);
    }
  }

  lemma {:induction false} SplitSegmentsHaveNoSeparator(s: string)
    ensures forall k :: 0 <= k < |Split(s)| ==> !HasSeparator(Split(s)[k])
    decreases |s|
  {
    if |s| < 2 {
      assert forall i :: !HasSeparatorAt(s, i);
    } else if s[0] == '_' && s[1] == '_' {
      SplitSegmentsHaveNoSeparator(s[2..]);
      var parts := Split(s);
      forall k | 0 <= k < |parts| ensures !HasSeparator(parts[k]) {
        if k == 0 {
          assert forall i :: !HasSeparatorAt(parts[0], i);
        } else {
          assert parts[k] == Split(s[2..])[k - 1];
        }
      }
    } else {
      var rest := Split(s[1..]);
      SplitSegmentsHaveNoSeparator(s[1..]);
      var first := [s[0]] + rest[0];
      assert !HasSeparator(rest[0]);
      assert |rest[0]| > 0 ==> rest[0][0] == s[1] by {
        assert rest[0] == s[1..][..|rest[0]|];
      }
      forall i | 0 <= i < |first| ensures !HasSeparatorAt(first, i) {
        if i > 0 {
          assert !HasSeparatorAt(rest[0], i - 1);
        }
      }
      var parts := Split(s);
      forall k | 0 <= k < |parts| ensures !HasSeparator(parts[k]) {
        if k > 0 {
          assert parts[k] == rest[k];
        }
      }
    }
  }

  /**
   * Splitting a name on `__` loses nothing: gluing the segments back gives the
   * lower-cased name, and no segment contains the separator.
   */
  lemma SplitKeyFacts(name: string)
    ensures Join(SplitKey(name)) == Lower(name)
    ensures forall k :: 0 <= k < |SplitKey(name)| ==> !HasSeparator(SplitKey(name)[k])
  {
    SplitJoin(Lower(name));
    SplitSegmentsHaveNoSeparator(Lower(name));
  }

  // ---------------------------------------------------------------------------
  // Decoding the configuration from the environment

  datatype ConfigError = MissingField(field: string) | UnknownMode(tag: string) | InvalidValue(field: string)

  /** Parsers of typed scalars, supplied by libraries outside the model. */
  datatype Parsers = Parsers(
    methodName: string -> Option<Method>,
    flag: string -> Option<bool>,
    count: string -> Option<nat>,
    duration: string -> Option<nat>)

  function Lookup(env: Env, path: Path): Option<string> {
    if path in env then Some(env[path]) else None
  }

  lemma SectionKeys(env: Env, path: Path)
    ensures forall k :: k in (set p | p in env && |p| == |path| + 1 && p[..|path|] == path :: p[|path|]) <==> path + [k] in env
  {
    forall k ensures k in (set p | p in env && |p| == |path| + 1 && p[..|path|] == path :: p[|path|]) <==> path + [k] in env {
      var q := path + [k];
      assert |q| == |path| + 1 && q[..|path|] == path && q[|path|] == k;
      if k in (set p | p in env && |p| == |path| + 1 && p[..|path|] == path :: p[|path|]) {
        var p :| p in env && |p| == |path| + 1 && p[..|path|] == path && p[|path|] == k;
        assert p == q;
      }
    }
  }

  /** Every variable one level below `path`, keyed by its last segment. */
  function Section(env: Env, path: Path): (m: map<string, string>)
    ensures forall k :: k in m <==> path + [k] in env
    ensures forall k :: k in m ==> m[k] == env[path + [k]]
  {
    var keys := set p | p in env && |p| == |path| + 1 && p[..|path|] == path :: p[|path|];
    SectionKeys(env, path);
    var m := map k | k in keys :: env[path + [k]];
    m
  }

  /** A field with a default: absent gives the default, present must parse. */
  function WithDefault<T>(raw: Option<string>, parse: string -> Option<T>, default: T, field: string): (r: Result<T, ConfigError>)
    ensures raw.None? ==> r == Ok(default)
    ensures raw.Some? && parse(raw.value).Some? ==> r == Ok(parse(raw.value).value)
    ensures raw.Some? && parse(raw.value).None? ==> r == Err(InvalidValue(field))
  {
    match raw
    case None => Ok(default)
    case Some(s) =>
      match parse(s)
      case Some(v) => Ok(v)
      case None => Err(InvalidValue(field))
  }

  /** An optional field: absent gives `None`, present must parse. */
  function Optional<T>(raw: Option<string>, parse: string -> Option<T>, field: string): (r: Result<Option<T>, ConfigError>)
    ensures raw.None? ==> r == Ok(None)
    ensures raw.Some? && parse(raw.value).Some? ==> r == Ok(Some(parse(raw.value).value))
    ensures raw.Some? && parse(raw.value).None? ==> r == Err(InvalidValue(field))
  {
    match raw
    case None => Ok(None)
    case Some(s) =>
      match parse(s)
      case Some(v) => Ok(Some(v))
      case None => Err(InvalidValue(field))
  }

  function Required(env: Env, field: string): (r: Result<string, ConfigError>)
    ensures r.Ok? <==> [field] in env
    ensures r.Ok? ==> r.value == env[[field]]
    ensures r.Err? ==> r.error == MissingField(field)
  {
    if [field] in env then Ok(env[[field]]) else Err(MissingField(field))
  }

  /** Whether an optional raw value is absent or parses. */
  predicate Parses<T>(raw: Option<string>, parse: string -> Option<T>) {
    raw.None? || parse(raw.value).Some?
  }

  /** A map-valued field: its entries, unless a plain value was given for the field itself. */
  function Block(env: Env, path: Path, field: string): Result<map<string, string>, ConfigError> {
    if path in env then Err(InvalidValue(field)) else Ok(Section(env, path))
  }

  /**
   * The `endpoint` block.  It decodes exactly when no plain value stands for
   * the block or its headers and every present scalar field parses; the
   * present fields then carry their parsed values and the plain string fields
   * are copied as they are.
   */
  function DecodeEndpoint(env: Env, parsers: Parsers): (r: Result<EndpointConfig, ConfigError>)
    ensures r.Ok? <==>
      && ["endpoint"] !in env && ["endpoint", "headers"] !in env
      && Parses(Lookup(env, ["endpoint", "method"]), parsers.methodName)
      && Parses(Lookup(env, ["endpoint", "tls_insecure"]), parsers.flag)
      && Parses(Lookup(env, ["endpoint", "timeout"]), parsers.duration)
      && Parses(Lookup(env, ["endpoint", "error_delay"]), parsers.duration)
      && Parses(Lookup(env, ["endpoint", "retries"]), parsers.count)
    ensures ["endpoint"] in env ==> r == Err(InvalidValue("endpoint"))
    ensures r.Ok? ==>
      var e := r.value;
      && e.username == Lookup(env, ["endpoint", "username"])
      && e.password == Lookup(env, ["endpoint", "password"])
      && e.token == Lookup(env, ["endpoint", "token"])
      && e.tlsCertificate == Lookup(env, ["endpoint", "tls_certificate"])
      && (["endpoint", "method"] in env ==> parsers.methodName(env[["endpoint", "method"]]) == Some(e.httpMethod))
      && (["endpoint", "tls_insecure"] in env ==> parsers.flag(env[["endpoint", "tls_insecure"]]) == Some(e.tlsInsecure))
      && (["endpoint", "timeout"] in env ==> parsers.duration(env[["endpoint", "timeout"]]) == e.timeoutMs)
      && (["endpoint", "error_delay"] in env ==> parsers.duration(env[["endpoint", "error_delay"]]) == Some(e.errorDelayMs))
      && (["endpoint", "retries"] in env ==> parsers.count(env[["endpoint", "retries"]]) == Some(e.retries))
    ensures r.Ok? ==> forall k :: k in r.value.headers <==> ["endpoint", "headers"] + [k] in env
    ensures r.Ok? ==> r.value.headers == Section(env, ["endpoint", "headers"])
  {
    if ["endpoint"] in env then Err(InvalidValue("endpoint"))
    else
      var httpMethod := WithDefault(Lookup(env, ["endpoint", "method"]), parsers.methodName, DefaultMethod, "endpoint.method");
      var tlsInsecure := WithDefault(Lookup(env, ["endpoint", "tls_insecure"]), parsers.flag, false, "endpoint.tls_insecure");
      var timeout := Optional(Lookup(env, ["endpoint", "timeout"]), parsers.duration, "endpoint.timeout");
      var errorDelay := WithDefault(Lookup(env, ["endpoint", "error_delay"]), parsers.duration, DefaultErrorDelayMs, "endpoint.error_delay");
      var retries := WithDefault(Lookup(env, ["endpoint", "retries"]), parsers.count, DefaultRetries, "endpoint.retries");
      var headers := Block(env, ["endpoint", "headers"], "endpoint.headers");
      if httpMethod.Err? then Err(httpMethod.error)
      else if tlsInsecure.Err? then Err(tlsInsecure.error)
      else if headers.Err? then Err(headers.error)
      else if timeout.Err? then Err(timeout.error)
      else if errorDelay.Err? then Err(errorDelay.error)
      else if retries.Err? then Err(retries.error)
      else
        Ok(EndpointConfig(
          httpMethod.value,
          Lookup(env, ["endpoint", "username"]),
          Lookup(env, ["endpoint", "password"]),
          Lookup(env, ["endpoint", "token"]),
          tlsInsecure.value,
          Lookup(env, ["endpoint", "tls_certificate"]),
          headers.value,
          timeout.value,
          errorDelay.value,
          retries.value))
  }

  /**
   * The mode and its own fields, selected by the `mode` tag.  A missing tag,
   * an unknown tag, a missing required field of the selected mode, or a plain
   * value where the Kafka `properties` map belongs is an error; otherwise the
   * fields are copied from the environment.
   */
  function DecodeMode(env: Env): (r: Result<Mode, ConfigError>)
    ensures ["mode"] !in env ==> r == Err(MissingField("mode"))
    ensures ["mode"] in env && ModeTag(env[["mode"]]).None? ==> r == Err(UnknownMode(env[["mode"]]))
    ensures ["mode"] in env && ModeTag(env[["mode"]]) == Some(KafkaMode) ==>
      && (r.Ok? <==> ["topic"] in env && ["bootstrap_servers"] in env && ["properties"] !in env)
      && (["topic"] !in env ==> r == Err(MissingField("topic")))
      && (r.Ok? ==> r.value.Kafka? && r.value.kafka.topic == env[["topic"]]
                    && r.value.kafka.bootstrapServers == env[["bootstrap_servers"]]
                    && (forall k :: k in r.value.kafka.properties <==> ["properties"] + [k] in env)
                    && r.value.kafka.properties == Section(env, ["properties"]))
    ensures ["mode"] in env && ModeTag(env[["mode"]]) == Some(WebsocketMode) ==>
      && (r.Ok? <==> ["drogue_endpoint"] in env && ["drogue_app"] in env)
      && (["drogue_endpoint"] !in env ==> r == Err(MissingField("drogue_endpoint")))
      && (r.Ok? ==> r.value == Websocket(WebsocketConfig(env[["drogue_endpoint"]], env[["drogue_app"]],
                                                         Lookup(env, ["drogue_user"]), Lookup(env, ["drogue_token"]))))
  {
    if ["mode"] !in env then Err(MissingField("mode"))
    else
      match ModeTag(env[["mode"]])
      case None => Err(UnknownMode(env[["mode"]]))
      case Some(KafkaMode) =>
        var topic := Required(env, "topic");
        var servers := Required(env, "bootstrap_servers");
        var properties := Block(env, ["properties"], "properties");
        if topic.Err? then Err(topic.error)
        else if servers.Err? then Err(servers.error)
        else if properties.Err? then Err(properties.error)
        else Ok(Kafka(KafkaConfig(topic.value, servers.value, properties.value)))
      case Some(WebsocketMode) =>
        var endpoint := Required(env, "drogue_endpoint");
        var app := Required(env, "drogue_app");
        if endpoint.Err? then Err(endpoint.error)
        else if app.Err? then Err(app.error)
        else Ok(Websocket(WebsocketConfig(endpoint.value, app.value,
                                          Lookup(env, ["drogue_user"]), Lookup(env, ["drogue_token"]))))
  }

  /**
   * The whole configuration: it decodes exactly when the endpoint block, the
   * required sink URL and the mode all do, and is then made of them.
   */
  function DecodeConfig(env: Env, parsers: Parsers): (r: Result<Config, ConfigError>)
    ensures r.Ok? <==> DecodeEndpoint(env, parsers).Ok? && ["k_sink"] in env && DecodeMode(env).Ok?
    ensures r.Ok? ==> r.value == Config(DecodeEndpoint(env, parsers).value, env[["k_sink"]], DecodeMode(env).value)
  {
    var endpoint := DecodeEndpoint(env, parsers);
    var sink := Required(env, "k_sink");
    var mode := DecodeMode(env);
    if endpoint.Err? then Err(endpoint.error)
    else if sink.Err? then Err(sink.error)
    else if mode.Err? then Err(mode.error)
    else Ok(Config(endpoint.value, sink.value, mode.value))
  }

  // ---------------------------------------------------------------------------
  // Properties of decoding

  /** With no variable under `endpoint`, every endpoint lookup comes back empty. */
  lemma NoEndpointVariables(env: Env)
    requires forall p :: p in env ==> |p| == 0 || p[0] != "endpoint"
    ensures ["endpoint"] !in env && ["endpoint", "headers"] !in env
    ensures Lookup(env, ["endpoint", "method"]).None? && Lookup(env, ["endpoint", "tls_insecure"]).None?
    ensures Lookup(env, ["endpoint", "timeout"]).None? && Lookup(env, ["endpoint", "error_delay"]).None?
    ensures Lookup(env, ["endpoint", "retries"]).None? && Lookup(env, ["endpoint", "username"]).None?
    ensures Lookup(env, ["endpoint", "password"]).None? && Lookup(env, ["endpoint", "token"]).None?
    ensures Lookup(env, ["endpoint", "tls_certificate"]).None?
    ensures Section(env, ["endpoint", "headers"]) == map[]
  {
    forall k ensures ["endpoint", "headers"] + [k] !in env {
      assert (["endpoint", "headers"] + [k])[0] == "endpoint";
    }
  }

  /** No variable under `endpoint` at all: the block is the default one. */
  lemma MissingEndpointIsDefault(env: Env, parsers: Parsers)
    requires forall p :: p in env ==> |p| == 0 || p[0] != "endpoint"
    ensures DecodeEndpoint(env, parsers) == Ok(DefaultEndpoint())
  {
    NoEndpointVariables(env);
  }

  /** Each absent endpoint field falls back to its own default, independently of the others. */
  lemma EndpointFieldDefaults(env: Env, parsers: Parsers)
    requires DecodeEndpoint(env, parsers).Ok?
    ensures var e := DecodeEndpoint(env, parsers).value;
      && (["endpoint", "method"] !in env ==> e.httpMethod == Post)
      && (["endpoint", "tls_insecure"] !in env ==> !e.tlsInsecure)
      && (["endpoint", "timeout"] !in env ==> e.timeoutMs.None?)
      && (["endpoint", "error_delay"] !in env ==> e.errorDelayMs == 1000)
      && (["endpoint", "retries"] !in env ==> e.retries == 5)
      && (["endpoint", "username"] !in env ==> e.username.None?)
      && (["endpoint", "password"] !in env ==> e.password.None?)
      && (["endpoint", "token"] !in env ==> e.token.None?)
      && (["endpoint", "tls_certificate"] !in env ==> e.tlsCertificate.None?)
  {
  }

  /** A present but unparsable retry count is an error, not a silent default. */
  lemma InvalidRetriesRejected(env: Env, parsers: Parsers)
    requires ["endpoint", "retries"] in env && parsers.count(env[["endpoint", "retries"]]).None?
    ensures DecodeEndpoint(env, parsers).Err?
  {
  }

  /** The tag decides the variant; the Kafka properties default to an empty map. */
  lemma DecodeModeFacts(env: Env)
    ensures DecodeMode(env).Ok? && DecodeMode(env).value.Kafka? ==> env[["mode"]] == "kafka"
    ensures DecodeMode(env).Ok? && DecodeMode(env).value.Websocket? ==> env[["mode"]] in {"websocket", "ws"}
    ensures ["mode"] in env && ModeTag(env[["mode"]]).None? ==> DecodeMode(env) == Err(UnknownMode(env[["mode"]]))
    ensures DecodeMode(env).Ok? && DecodeMode(env).value.Kafka? && (forall k :: ["properties", k] !in env)
            ==> DecodeMode(env).value.kafka.properties == map[]
  {
    if DecodeMode(env).Ok? && DecodeMode(env).value.Kafka? && (forall k :: ["properties", k] !in env) {
      assert forall k :: ["properties"] + [k] == ["properties", k];
    }
  }

  /** The user and token of websocket mode are optional; the endpoint and app are not. */
  lemma WebsocketFieldsOptional(env: Env)
    requires ["mode"] in env && env[["mode"]] in {"websocket", "ws"}
    requires ["drogue_endpoint"] in env && ["drogue_app"] in env
    requires ["drogue_user"] !in env && ["drogue_token"] !in env
    ensures DecodeMode(env) == Ok(Websocket(WebsocketConfig(env[["drogue_endpoint"]], env[["drogue_app"]], None, None)))
  {
  }

  /** A plain value where a block belongs is an error, not an empty block. */
  lemma PlainValueForBlockRejected(env: Env, parsers: Parsers)
    ensures ["endpoint"] in env ==> DecodeConfig(env, parsers).Err?
    ensures ["endpoint", "headers"] in env ==> DecodeConfig(env, parsers).Err?
    ensures ["mode"] in env && env[["mode"]] == "kafka" && ["properties"] in env ==> DecodeConfig(env, parsers).Err?
  {
  }

  /** The sink URL is required in every mode. */
  lemma SinkRequired(env: Env, parsers: Parsers)
    requires ["k_sink"] !in env
    ensures DecodeConfig(env, parsers).Err?
  {
  }

  // ---------------------------------------------------------------------------
  // The decoding scenarios of the source's tests

  /** A name without the separator is a single segment. */
  lemma {:induction false} SplitWhole(s: string)
    requires !HasSeparator(s)
    ensures Split(s) == [s]
    decreases |s|
  {
    if |s| >= 2 {
      assert !HasSeparatorAt(s, 0);
      assert !HasSeparator(s[1..]) by {
        forall i | 0 <= i < |s[1..]| ensures !HasSeparatorAt(s[1..], i) {
          assert !HasSeparatorAt(s, i + 1);
        }
      }
      SplitWhole(s[1..]);
      assert s == [s[0]] + s[1..];
    }
  }

  lemma ConcatAssoc(x: string, u: string, v: string)
    ensures x + u + v == x + (u + v)
  {
    var lhs, rhs := x + u + v, x + (u + v);
    forall i | 0 <= i < |lhs| ensures lhs[i] == rhs[i] {
      if i >= |x| {
        assert rhs[i] == (u + v)[i - |x|];
      }
    }
  }

  lemma TailOfConcat(x: string, t: string)
    requires |x| >= 1
    ensures (x + t)[1..] == x[1..] + t
  {
  }

  lemma LowerConcat(u: string, v: string)
    ensures Lower(u + v) == Lower(u) + Lower(v)
  {
    var lhs, rhs := Lower(u + v), Lower(u) + Lower(v);
    forall i | 0 <= i < |lhs| ensures lhs[i] == rhs[i] {
      if i < |u| {
        assert (u + v)[i] == u[i];
      } else {
        assert (u + v)[i] == v[i - |u|];
      }
    }
  }

  /** A leading segment without `__` and not ending in `_` is cut off at the first separator. */
  lemma {:induction false} SplitFirst(x: string, y: string)
    requires !HasSeparator(x) && (|x| == 0 || x[|x| - 1] != '_')
    ensures Split(x + "__" + y) == [x] + Split(y)
    decreases |x|
  {
    var t := "__" + y;
    var s := x + t;
    ConcatAssoc(x, "__", y);
    if |x| == 0 {
      assert s == t && t[2..] == y;
    } else {
      assert !HasSeparatorAt(s, 0) by {
        if |x| >= 2 { assert !HasSeparatorAt(x, 0); }
      }
      var x' := x[1..];
      assert !HasSeparator(x') by {
        forall i | 0 <= i < |x'| ensures !HasSeparatorAt(x', i) {
          assert !HasSeparatorAt(x, i + 1);
        }
      }
      SplitFirst(x', y);
      TailOfConcat(x, t);
      ConcatAssoc(x', "__", y);
      assert s[1..] == x' + "__" + y;
      assert x == [x[0]] + x';
    }
  }

  /**
   * A name made of two parts joined by `__`, neither holding `__` and the
   * first not ending in `_`, names the path of the two lower-cased parts.
   */
  lemma SplitKeyTwoSegments(a: string, b: string)
    requires !HasSeparator(Lower(a)) && (|a| == 0 || Lower(a)[|a| - 1] != '_')
    requires !HasSeparator(Lower(b))
    ensures SplitKey(a + "__" + b) == [Lower(a), Lower(b)]
  {
    LowerConcat(a + "__", b);
    LowerConcat(a, "__");
    assert Lower("__") == "__";
    SplitFirst(Lower(a), Lower(b));
    SplitWhole(Lower(b));
  }

  /** Lower-casing the two halves of `PROPERTIES__FOO_BAR`. */
  lemma PropertiesKeyParts(a: string, b: string)
    requires a == "PROPERTIES" && b == "FOO_BAR"
    ensures Lower(a) == "properties" && Lower(b) == "foo_bar"
  {
    forall i | 0 <= i < |a| ensures Lower(a)[i] == "properties"[i] {
      assert Lower(a)[i] == LowerChar(a[i]);
    }
    forall i | 0 <= i < |b| ensures Lower(b)[i] == "foo_bar"[i] {
      assert Lower(b)[i] == LowerChar(b[i]);
    }
  }

  /** `PROPERTIES__FOO_BAR` names the entry `foo_bar` of the `properties` map. */
  lemma PropertiesKeySplit(a: string, b: string)
    requires a == "PROPERTIES" && b == "FOO_BAR"
    ensures SplitKey(a + "__" + b) == ["properties", "foo_bar"]
  {
    PropertiesKeyParts(a, b);
    var la, lb := Lower(a), Lower(b);
    assert !HasSeparator(la) by {
      forall i | 0 <= i < |la| ensures !HasSeparatorAt(la, i) { }
    }
    assert !HasSeparator(lb) by {
      forall i | 0 <= i < |lb| ensures !HasSeparatorAt(lb, i) { }
    }
    SplitKeyTwoSegments(a, b);
  }

  /** A section with a single variable below it is a one-entry map. */
  lemma SectionSingleton(env: Env, path: Path, k: string, v: string)
    requires path + [k] in env && env[path + [k]] == v
    requires forall k' :: path + [k'] in env ==> k' == k
    ensures Section(env, path) == map[k := v]
  {
  }

  /**
   * Kafka mode with one user property (`MODE=kafka`, `BOOTSTRAP_SERVERS`,
   * `TOPIC`, `PROPERTIES__FOO_BAR=baz`).
   */
  lemma KafkaModeScenario(env: Env)
    requires ["mode"] in env && env[["mode"]] == "kafka"
    requires ["topic"] in env && env[["topic"]] == "topic"
    requires ["bootstrap_servers"] in env && env[["bootstrap_servers"]] == "bootstrap:9091"
    requires ["properties", "foo_bar"] in env && env[["properties", "foo_bar"]] == "baz"
    requires forall k :: ["properties", k] in env ==> k == "foo_bar"
    requires ["properties"] !in env
    ensures DecodeMode(env) == Ok(Kafka(KafkaConfig("topic", "bootstrap:9091", map["foo_bar" := "baz"])))
  {
    assert ["properties"] + ["foo_bar"] == ["properties", "foo_bar"];
    forall k' | ["properties"] + [k'] in env ensures k' == "foo_bar" {
      assert ["properties"] + [k'] == ["properties", k'];
    }
    SectionSingleton(env, ["properties"], "foo_bar", "baz");
  }

  /** Websocket mode through the alias `ws`, with user and token. */
  lemma WebsocketAliasScenario()
    ensures DecodeMode(map[["mode"] := "ws", ["drogue_app"] := "app", ["drogue_endpoint"] := "endpoint",
                           ["drogue_user"] := "user", ["drogue_token"] := "token", ["k_sink"] := "http://localhost"])
            == Ok(Websocket(WebsocketConfig("endpoint", "app", Some("user"), Some("token"))))
  {
  }

  /** The headers of the endpoint scenario: the one variable below `endpoint.headers`. */
  lemma ScenarioHeaders(env: Env)
    requires forall k :: ["endpoint", "headers", k] in env ==> k == "foo"
    requires ["endpoint", "headers", "foo"] in env && env[["endpoint", "headers", "foo"]] == "bar"
    ensures Section(env, ["endpoint", "headers"]) == map["foo" := "bar"]
  {
    var path: Path := ["endpoint", "headers"];
    assert path + ["foo"] == ["endpoint", "headers", "foo"];
    forall k' | path + [k'] in env ensures k' == "foo" {
      assert path + [k'] == ["endpoint", "headers", k'];
    }
    SectionSingleton(env, path, "foo", "bar");
  }

  /**
   * An endpoint block with only a method and one header (`ENDPOINT__METHOD=GET`,
   * `ENDPOINT__HEADERS__foo=bar`): every other field keeps its default.
   */
  lemma EndpointScenario(env: Env, parsers: Parsers)
    requires ["endpoint"] !in env
    requires forall f :: ["endpoint", f] in env ==> f == "method"
    requires forall k :: ["endpoint", "headers", k] in env ==> k == "foo"
    requires ["endpoint", "method"] in env && env[["endpoint", "method"]] == "GET"
    requires ["endpoint", "headers", "foo"] in env && env[["endpoint", "headers", "foo"]] == "bar"
    requires parsers.methodName("GET") == Some(Get)
    ensures DecodeEndpoint(env, parsers) == Ok(DefaultEndpoint().(httpMethod := Get, headers := map["foo" := "bar"]))
  {
    ScenarioHeaders(env);
    assert Lookup(env, ["endpoint", "tls_insecure"]) == None && Lookup(env, ["endpoint", "timeout"]) == None;
    assert Lookup(env, ["endpoint", "error_delay"]) == None && Lookup(env, ["endpoint", "retries"]) == None;
  }
}
