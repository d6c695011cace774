# Drogue event source: forwarding and acknowledgement model

A Dafny model of the core of the Drogue event source bridge. The bridge reads events from one of
two upstream sources: a Kafka topic (at least once, with consumer offsets) or a Drogue websocket
stream (best effort). It forwards each event to one HTTP sink with a bounded, classified retry policy.

The model covers:

- the configuration data model: the endpoint block and its defaults, the `mode` tag that selects
  Kafka or websocket, required, optional and defaulted fields, and the rule that turns environment
  variable names into nested paths (`wrappers.dfy`, `config.dfy`, module `Config`);
- the sender: how one attempt is classified as success, temporary failure or permanent failure by
  HTTP status class (section 15 of RFC 9110), and the fixed-delay retry loop around it
  (`forwarding.dfy`, module `Forwarding`);
- start-up: the check that refuses Basic and bearer credentials together, building the sender,
  dispatch on the mode, the Kafka client properties and the websocket URL (`startup.dfy`, module `Startup`);
- the Kafka loop, which stores an offset only after the event was delivered (`kafka.dfy`,
  module `KafkaPipeline`);
- the websocket loop, which only logs failed sends (`websocket.dfy`, module `WebsocketPipeline`).

Side effects become data. The HTTP exchange is an oracle from the attempt number to a reply. A
send records the requests it puts on the wire and the sleeps between them as a trace of effects.
Durations are whole milliseconds. Libraries whose code is not part of this model enter as
parameters. These are URL parsing, CloudEvents encoding and decoding, typed-scalar parsing, the
Kafka client's offset store, and the websocket connection.

Each loop (`Send`, `Consume`, `ReadLoop`) is an imperative method. Its postcondition ties its
results to a recursive reference function (`SendFrom`, `ConsumeFrom`, `ReadFrom`). Lemmas then
state what that function computes in terms of its inputs: which calls, sleeps, sends and stored
offsets happen, in which order, and how the run ends.

Where one might expect otherwise, the model follows the code:

- The sender never sends the endpoint's extra `headers` or `token`, and it never uses
  `tls_certificate` (src/sender.rs:23-57). The token only takes part in the start-up exclusivity check.
- In websocket mode, a text or binary frame that does not decode as an event ends the loop with an
  error (src/main.rs:148-149). One might expect such a frame to be skipped; the code leaves the loop.
- `kafka` returns success on every exit from its loop (src/main.rs:121-123).

Translating property names (`_` to `.`) is not injective on arbitrary strings: `foo_bar` and
`foo.bar` both become `foo.bar` (`Startup.TranslateKeyNotInjective`). Property names read from the
environment never contain `.`, because the `config` crate turns `__` into `.` and then splits
names at `.` (src/config.rs:27). On names without `.` the translation is injective
(`Startup.TranslateKeyInjectiveWithoutDots`), so two user properties never reach the same client
property.

## Model

| member | source | states |
|---|---|---|
| `Config.DefaultEndpoint` | src/config.rs:102-129 | method POST, no username, password or token, TLS checks on, no certificate, no headers, no timeout, error delay 1 s, 5 retries |
| `Config.ModeTag` | src/config.rs:33-40 | tag `kafka` selects Kafka; `websocket` or its alias `ws` selects websocket; any other tag selects nothing |
| `Config.SplitKeyFacts` | src/config.rs:24-30 | splitting a variable name on `__` loses nothing: joining the segments gives back the lower-cased name, and no segment contains `__` |
| `Config.SplitKeyTwoSegments` | src/config.rs:27 | `A__B`, with neither part containing `__` and `A` not ending in `_`, names the path [lower(A), lower(B)] |
| `Config.PropertiesKeySplit` | src/config.rs:142 | `PROPERTIES__FOO_BAR` names entry `foo_bar` of `properties` |
| `Config.Section` | src/config.rs:46-47 | a map-valued field holds exactly the variables one level below it, keyed by their last segment |
| `Config.DecodeEndpoint` | src/config.rs:69-100 | the endpoint block decodes exactly when it is not a plain value, `headers` is not a plain value, and every present scalar field parses; then each present field holds its parsed value, each string field is copied, and the headers are exactly the variables below `endpoint.headers`, each with its own value; a plain `endpoint` value is an error |
| `Config.DecodeMode` | src/config.rs:33-56 | a missing `mode` and an unknown tag are errors; Kafka mode decodes exactly when `topic` and `bootstrap_servers` are present and `properties` is not a plain value, websocket mode exactly when `drogue_endpoint` and `drogue_app` are present; the decoded fields are the variables' values, and the Kafka properties are exactly the variables below `properties`, each with its own value |
| `Config.DecodeConfig` | src/config.rs:58-67 | the configuration decodes exactly when the endpoint block, `k_sink` and the mode all decode, and then it holds those three values |
| `Config.PlainValueForBlockRejected` | src/config.rs:60-61 | a plain value where the endpoint block, its headers or the Kafka properties are expected makes decoding fail |
| `Config.MissingEndpointIsDefault` | src/config.rs:58-61 | with no variable under `endpoint`, the endpoint block is `EndpointConfig::default()` |
| `Config.EndpointFieldDefaults` | src/config.rs:72-99 | each absent endpoint field falls back to its own default, whatever the other fields hold |
| `Config.InvalidRetriesRejected` | src/config.rs:98-99 | a retry count that does not parse is an error, not the default |
| `Config.DecodeModeFacts` | src/config.rs:33-48 | the decoded variant matches the tag, an unknown tag is an error, and Kafka `properties` default to an empty map |
| `Config.WebsocketFieldsOptional` | src/config.rs:50-56 | `drogue_user` and `drogue_token` may be absent and then are `None` |
| `Config.SinkRequired` | src/config.rs:58-67 | without `k_sink` the configuration does not decode |
| `Config.KafkaModeScenario` | src/config.rs:136-158 | the Kafka test environment decodes to topic, servers and properties `{foo_bar: baz}` |
| `Config.WebsocketAliasScenario` | src/config.rs:160-182 | the `ws` test environment decodes to websocket mode with user and token |
| `Config.EndpointScenario` | src/config.rs:184-216 | method GET plus one header leaves every other endpoint field at its default |
| `Forwarding.NewSender` | src/sender.rs:23-48 | the sender keeps the endpoint config and URL; its timeout is the configured one or 5 s; the TLS mode follows `tls_insecure`; an unparsable URL is an error |
| `Forwarding.Classify` | src/sender.rs:66-86 | 2xx is success; 5xx or a transport error is temporary; every other status is permanent, and 4xx is a client error |
| `Forwarding.SendOnce` | src/sender.rs:50-87 | an event that cannot be encoded is a permanent failure with no request sent; otherwise the request is sent and its reply classified |
| `Forwarding.BasicAuthOnlyFromUsername` | src/sender.rs:55-57 | Basic credentials are attached if and only if a username is set, with the optional password; the token never changes the request |
| `Forwarding.Send` | src/sender.rs:89-115 | the retry loop's result and effects are exactly those of the reference definition `SendFrom` |
| `Forwarding.Decisive` | src/sender.rs:91-108 | the number of attempts: every earlier reply was temporary, and the last one was not, unless the budget ran out |
| `Forwarding.AlternatingShape` | src/sender.rs:106-113 | k calls of the same request alternate with k-1 sleeps of the error delay, and the trace ends with a call |
| `Forwarding.SendFromShape` | src/sender.rs:89-115 | from any attempt, the effects alternate calls and sleeps, and the result is a give-up exactly when the last reply was temporary |
| `Forwarding.SendBehaviour` | src/sender.rs:89-115 | at most retries+1 calls, all of the same request; sleeps = calls-1, and none after the last call; give-up only after retries+1 temporary failures |
| `Forwarding.SuccessAfterTemporaryFailures` | src/sender.rs:90-93 | k-1 temporary failures then success, within budget: success after exactly k calls and k-1 sleeps |
| `Forwarding.PermanentFailureDrops` | src/sender.rs:100-103 | a permanent failure ends the send with success at once: no more calls and no sleep after it |
| `Forwarding.GivesUpWhenAllTemporary` | src/sender.rs:94-110 | if every reply is temporary, the send gives up after exactly retries+1 calls and retries sleeps |
| `Forwarding.UnencodableDropped` | src/sender.rs:59-63 | an event that cannot be encoded is dropped with no call and no sleep |
| `Startup.Start` | src/main.rs:26-44 | username together with token is refused before the sender is built; otherwise the sender is built from `k_sink` and the endpoint, and the mode picks the pipeline |
| `Startup.TranslateKey` | src/main.rs:58-63 | every `_` becomes `.`; every other character and the length are unchanged; no `_` remains |
| `Startup.TranslateKeyNotInjective` | src/main.rs:62 | `foo_bar` and `foo.bar` translate to the same client property name |
| `Startup.TranslateKeyInjectiveWithoutDots` | src/main.rs:62 | two names without `.` that translate to the same client property name are equal |
| `Startup.ExtendWithLookup` | src/main.rs:58-63 | after extending, a name is present when it was or some pair sets it; the last pair setting it wins; otherwise the old value stays |
| `Startup.TranslatedPairs` | src/main.rs:59-62 | the user properties, in iteration order, with translated names and their own values |
| `Startup.ClientConfig.Set` | src/main.rs:57 | setting a property overrides that one name only |
| `Startup.ClientConfig.Extend` | src/main.rs:58-63 | extending sets the pairs in order |
| `Startup.KafkaClientConfig` | src/main.rs:55-69 | the filled client configuration equals the bootstrap servers, then the translated user properties, then the three fixed settings |
| `Startup.AtLeastOnceSettingsWin` | src/main.rs:65-69 | auto-commit is on, the interval is 5000 ms and automatic offset storing is off, whatever the user properties say |
| `Startup.ClientPropertyNames` | src/main.rs:55-69 | the client property names are exactly the three fixed names, `bootstrap.servers` and the translated user names |
| `Startup.ClientPropertyNamesHaveNoUnderscore` | src/main.rs:57-69 | no client property name contains `_` |
| `Startup.BootstrapServersKept` | src/main.rs:57-63 | the configured bootstrap servers survive unless a user property translates to `bootstrap.servers` |
| `Startup.UserPropertyValue` | src/main.rs:57-69 | a user property keeps its value under its translated name unless a later one takes the same name, or the name is a fixed setting |
| `Startup.WebsocketUrl` | src/main.rs:127 | the URL is the endpoint, then `/`, then the application name |
| `KafkaPipeline.Consumer.StoreOffset` | src/main.rs:97-100 | an accepted offset is appended to the stored offsets; a refused one leaves them unchanged and is reported |
| `KafkaPipeline.Consume` | src/main.rs:85-119 | the stored offsets, sent events and exit reason are exactly those of the reference definition `ConsumeFrom` |
| `KafkaPipeline.Kafka` | src/main.rs:54-124 | the client config is built first; a client failure is an error; once the loop has run the result is success whatever the exit |
| `KafkaPipeline.FirstStop` | src/main.rs:94-112 | the first item that ends the loop (a receive error, a send that gives up, a refused store), or the end of the stream |
| `KafkaPipeline.ConsumeFromShape` | src/main.rs:85-119 | the loop stores the offsets and sends the events of the messages before the first stopping item; it does not store the stopping message's offset |
| `KafkaPipeline.StoredOffsetsFollowDelivery` | src/main.rs:94-117 | stored offsets are those of the messages before the stop, in stream order; each was delivered and its store accepted; undecodable items are skipped |
| `KafkaPipeline.UndecodableMessageSkipped` | src/main.rs:113-117 | with three messages where the second does not decode, the offsets of the first and third are stored and the stream runs to its end |
| `KafkaPipeline.ExhaustedMessageNotStored` | src/main.rs:102-106 | when the second message exhausts its retries, only the first offset is stored and the loop ends there |
| `WebsocketPipeline.DecodeFrame` | src/main.rs:146-151 | only text and binary frames carry an event, and it must decode; other frames and read errors carry none |
| `WebsocketPipeline.ReadLoop` | src/main.rs:145-161 | the loop's exit, the events it sent and the send results are exactly those of the reference definition `ReadFrom` |
| `WebsocketPipeline.Websocket` | src/main.rs:126-162 | the URL is endpoint/app; a failed connection is an error; otherwise the read loop runs and its outcome is returned |
| `WebsocketPipeline.FirstMalformed` | src/main.rs:145-151 | the first data frame that does not decode, or the end of the frames |
| `WebsocketPipeline.ReadFromShape` | src/main.rs:145-161 | every event carried before the first malformed frame is sent, in order; the loop ends there with an error and otherwise keeps reading |
| `WebsocketPipeline.EventPositions` | src/main.rs:146-151 | positions, in increasing order, of frames carrying an event |
| `WebsocketPipeline.EventPositionsComplete` | src/main.rs:146-151 | every frame in the range that carries an event has its position listed |
| `WebsocketPipeline.ReadFromResults` | src/main.rs:145-161 | the j-th send is of the j-th frame carrying an event before the first malformed frame; its result is the delivery of that frame's event on that frame's replies |
| `WebsocketPipeline.SendFailuresDoNotStop` | src/main.rs:153-160 | what is sent and how the loop ends do not depend on any send's result |
| `WebsocketPipeline.OnlyMalformedFrameEnds` | src/main.rs:145-161 | the loop ends if and only if some data frame does not decode, and it ends at the first such frame |
| `WebsocketPipeline.MalformedTextEndsLoop` | src/main.rs:148 | a text frame that is not an event ends the loop; the next frame is never read |
| `WebsocketPipeline.SendFailureThenNextFrame` | src/main.rs:150-160 | a control frame is ignored, and a send that gives up does not stop the next event from being sent |

## Left out

- Reading the process environment and `.env` files is not modelled: the `config` and `dotenv` crates are not part of this model. `Config.DecodeConfig` starts from the variables already turned into paths.
- `Config.SplitKey` lower-cases ASCII letters only; the `config` crate lower-cases names with `str::to_lowercase`, which covers all of Unicode. It does not say which value wins when two variable names reach the same path.
- `Config.DecodeConfig`: parsing of HTTP method names, booleans, counts and human-readable durations is done by libraries outside this model, and is supplied as `Parsers`.
- `Config.DecodeConfig` rejects a plain value where a block is expected (`ENDPOINT`, `ENDPOINT__HEADERS`, `PROPERTIES`). When a name has both a plain value and nested variables it always rejects it; the `config` crate's outcome then depends on the order in which it reads the variables.
- `Config.DecodeConfig` ignores variables nested deeper than a field expects, such as `ENDPOINT__METHOD__X`. The `config` crate would reject them as type mismatches.
- `Config.DecodeConfig` does not model which field serde names in its error when several fields are wrong.
- `Config.SplitKey` does not split names at `.`, as the `config` crate does after turning `__` into `.`. A variable name containing `.` is therefore one segment here.
- `Forwarding.NewSender`: building the reqwest client can fail, and that failure is not modelled. The TLS settings are only recorded.
- `Forwarding.Classify`: failure reasons keep the status but not the response body text that the source reads into its messages.
- `Forwarding.Send` uses an unbounded counter. The source's `usize` counter would overflow only when `retries` is `usize::MAX`.
- Durations are whole milliseconds; the source's `Duration` has nanosecond resolution.
- CloudEvents encoding of a request and decoding of Kafka and JSON payloads are oracles (`encodes`, pre-classified stream items, `Decoders`).
- Subscribing to the topic, the stream itself and the background auto-commit are not modelled. `KafkaPipeline.Kafka` reduces consumer creation and subscription to `clientOk`. The consumer model records stored offsets in order, not the per-partition committed position.
- The iteration order of the user property map is the parameter `order`.
- `WebsocketPipeline.Websocket` reduces building the request, the Basic `Authorization` header and connecting to `connected`. The socket's frames are a finite sequence; the source's loop never ends on its own.
- Logging, the async runtime and real time are left out. A sleep is an effect that records its duration.
