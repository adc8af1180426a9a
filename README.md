# microkit core, modelled in Dafny

This project models the core of microkit, a Go toolkit for gRPC micro-services. It covers four parts:

- **Server and client.** Both are configured with functional options. The server (`server/`) collects middleware units, fills in defaults from the configuration, builds the interceptor chains, registers its node with a registry and serves. The client (`client/`) configures itself, picks a resolver and dials a `scheme://author/service` target.
- **Middleware units** (`plugins/middleware/`):
  - `tpl`, a pass-through template;
  - `errorformat`, which turns a `MicroError` into a gRPC status and any other error into a wrapped Unknown status;
  - `logger`, a zap logger with rolling files and a record per call;
  - `opentracing`, which handles spans, the metadata carrier `MDReaderWriter`, and injection into a copy of the outgoing metadata;
  - `hystrixlimitter`, with token-bucket limiters on the server side and a circuit breaker on the client side.
- **Registries** (`plugins/register/`):
  - `noregister`, which does nothing;
  - `etcdv3`. It registers a node under `microkit/services/{name}/{id}` with a lease that a periodic tick renews. Its resolver turns etcd watch events into the address list it publishes.
- **The option records** of every unit, with their defaults.

Every Go option closure is a datatype constructor. `Apply` runs one closure and `ApplyAll` runs a list of them in order. A unit whose `configure` changes its fields in place is a `class` whose `Configure` method holds the loop. Handlers, invokers, streamers and filter functions are Dafny arrow values. Outside systems are parameters or inputs:

- the etcd store and its replies;
- the tracer's writes;
- the breaker's verdict;
- `net.Listen` and `grpc.Dial` errors;
- the configuration package.

Files:

- `base.dfy`: Option, Result, errors and opaque values.
- `middleware.dfy`: `MD`, contexts, the continuation types and `FilteredOut`.
- `register.dfy`: Node, Address and the register options.
- `noregister.dfy`, `etcdv3.dfy`: the two registries.
- `tpl.dfy`, `errorformat.dfy`: those two units.
- `logger_options.dfy`, `logger.dfy`: the logger unit.
- `opentracing.dfy`: the tracing unit.
- `hystrix_options.dfy`, `hystrixlimitter.dfy`: the limiter unit.
- `server_options.dfy`, `server.dfy`: the server.
- `client_options.dfy`, `client.dfy`: the client.

## Model

| member | source | states |
|---|---|---|
| Register.SchemeOf | plugins/register/etcdv3/etcdv3.go:170-176 | The scheme is never empty: the configured schema when it is set, otherwise "default" |
| NoRegister.NoRegister.Register | plugins/register/noregister/noregister.go:21-23 | Registering any node, nil included, returns no error |
| NoRegister.NoRegister.UnRegister | plugins/register/noregister/noregister.go:26-28 | Unregistering any node returns no error |
| NoRegister.NoRegister.GetResolver | plugins/register/noregister/noregister.go:31-33 | The resolver is the registry itself |
| NoRegister.NoRegister.GetBuilder | plugins/register/noregister/noregister.go:36-38 | The builder is the registry itself |
| NoRegister.NoRegister.Build | plugins/register/noregister/noregister.go:49-51 | Build returns the registry itself and a nil error, for any target and ClientConn |
| NoRegister.NoRegister.Scheme | plugins/register/noregister/noregister.go:54-60 | Requires non-nil options, which the method dereferences; returns the schema, or "default" when the schema is empty |
| NoRegister.NewRegistry | plugins/register/noregister/noregister.go:16-18 | The options passed are dropped and the options pointer is nil |
| EtcdV3.WithDefaults | plugins/register/etcdv3/etcdv3.go:44-55 | Address list and TTL are always set: an empty address list becomes the default etcd address, a non-positive TTL becomes the default; set values and the other fields are kept |
| EtcdV3.WithDefaultsIdempotent | plugins/register/etcdv3/etcdv3.go:44-55 | Filling in the defaults twice is filling them in once |
| EtcdV3.KeyPrefix | plugins/register/etcdv3/etcdv3.go:102-107 | A nil node gives the watch prefix `microkit/services/{name}/`; a node gives that prefix followed by the node id |
| EtcdV3.KeyIgnoresSchema | plugins/register/etcdv3/etcdv3.go:102-107 | The key does not depend on the schema option |
| EtcdV3.KeyIdentifiesNode | plugins/register/etcdv3/etcdv3.go:102-107 | Two nodes of one service get the same key if and only if their ids are equal |
| EtcdV3.PrefixAgrees | plugins/register/etcdv3/etcdv3.go:102-107 | A prefix agrees index by index with the string it starts |
| EtcdV3.WatchPrefixSelectsService | plugins/register/etcdv3/etcdv3.go:102-107 | For service names without '/', the watch prefix of service a covers the key of a node of service b if and only if a == b |
| EtcdV3.WatchPrefixCoversNestedService | plugins/register/etcdv3/etcdv3.go:102-107 | Without that restriction the prefix does not separate services: the watch prefix of service a covers every key of service a + "/" + rest |
| EtcdV3.WithAlive | plugins/register/etcdv3/etcdv3.go:110-131 | Sends Grant(ttl), then Put under the granted lease, then KeepAlive, stopping at the first failure. The error is the first failure among grant, marshal, put and keep-alive. The store gains the key only when grant, marshal and put all succeed |
| EtcdV3.RenewTick | plugins/register/etcdv3/etcdv3.go:84-94 | Each tick first Gets the key. A Get error only warns and changes nothing; a present key changes nothing; only a missing key triggers withAlive. No other key is touched |
| EtcdV3.TickRestoresMissingKey | plugins/register/etcdv3/etcdv3.go:84-94 | A tick that finds the key missing, with grant, marshal and put succeeding, leaves the marshalled node under the new lease |
| EtcdV3.ExternalDeletionRepaired | plugins/register/etcdv3/etcdv3.go:84-94 | A registered key deleted from outside comes back, with the same value, after the next successful tick |
| EtcdV3.FirstIndex | plugins/register/etcdv3/etcdv3.go:243-251 | The index of the first address equal to addr; no earlier address is equal to it |
| EtcdV3.SwapRemove | plugins/register/etcdv3/etcdv3.go:243-251 | One element shorter; slot i receives the last element; every other slot is unchanged |
| EtcdV3.SwapRemovePermutes | plugins/register/etcdv3/etcdv3.go:243-251 | The result plus the removed element is a permutation of the input |
| EtcdV3.SwapRemoveKeepsOthers | plugins/register/etcdv3/etcdv3.go:243-251 | An address other than the removed one is present after the removal if and only if it was present before |
| EtcdV3.SwapRemoveNoDuplicates | plugins/register/etcdv3/etcdv3.go:243-251 | On a duplicate-free list the result has no duplicates and no longer holds the removed address |
| EtcdV3.Exist | plugins/register/etcdv3/etcdv3.go:233-240 | The scan returns true if and only if some address in the list equals addr |
| EtcdV3.Remove | plugins/register/etcdv3/etcdv3.go:243-251 | ok holds exactly when the address is present. On a hit, the first length-1 slots of the array, changed in place, are the swap-removal at the first match, and the last slot keeps its old value, so the whole array is the old one with the first match overwritten by the last element. On a miss the result has length 0 and the array is unchanged |
| EtcdV3.Snapshot | plugins/register/etcdv3/etcdv3.go:195-199 | One address per key, in order: the advertise field that json.Unmarshal left, whether or not decoding failed |
| EtcdV3.SnapshotKeepsDuplicates | plugins/register/etcdv3/etcdv3.go:195-199 | Two keys advertising the same address both appear in the initial list |
| EtcdV3.SnapshotKeepsUndecodable | plugins/register/etcdv3/etcdv3.go:195-199 | A value that fails to decode still contributes an address |
| EtcdV3.Step | plugins/register/etcdv3/etcdv3.go:205-224 | An event whose value does not decode leaves the list as it is |
| EtcdV3.StepChangesIffPublishes | plugins/register/etcdv3/etcdv3.go:205-227 | An event changes the list if and only if the loop publishes after it: a PUT of a new address or a DELETE of a present one |
| EtcdV3.StepMembership | plugins/register/etcdv3/etcdv3.go:205-224 | After a PUT its address is present. On a duplicate-free list, after a DELETE its address is absent. Other addresses keep their membership |
| EtcdV3.StepKeepsNoDuplicates | plugins/register/etcdv3/etcdv3.go:205-224 | One event keeps a duplicate-free list duplicate-free |
| EtcdV3.ApplyEventsKeepsNoDuplicates | plugins/register/etcdv3/etcdv3.go:203-228 | Any sequence of events keeps a duplicate-free list duplicate-free |
| EtcdV3.LatestEventDecides | plugins/register/etcdv3/etcdv3.go:203-228 | From a duplicate-free list, an address is present after the events exactly when the last decodable event about it is a PUT, or there is no such event and it was present before |
| EtcdV3.PublicationsHaveNoDuplicates | plugins/register/etcdv3/etcdv3.go:203-228 | Every list published from a duplicate-free start is duplicate-free |
| EtcdV3.ExtendEvents | plugins/register/etcdv3/etcdv3.go:203-228 | One more event applies one more step and appends its publication, if any |
| EtcdV3.PutTwiceIsIdempotent | plugins/register/etcdv3/etcdv3.go:205-227 | A PUT delivered twice leaves its address in the list exactly once and publishes at most once |
| EtcdV3.PutThenDeleteRemoves | plugins/register/etcdv3/etcdv3.go:205-227 | PUT(A) then DELETE(A) leaves A absent; a second DELETE(A) changes and publishes nothing |
| EtcdV3.ReadSnapshot | plugins/register/etcdv3/etcdv3.go:195-199 | The first loop of watch builds exactly the Snapshot list |
| EtcdV3.HandleEvent | plugins/register/etcdv3/etcdv3.go:205-227 | The event loop body computes Step, and reports a change if and only if the loop publishes |
| EtcdV3.ExtendBatches | plugins/register/etcdv3/etcdv3.go:203-228 | The events of one more watch response follow the earlier ones |
| EtcdV3.ApplyEventsConcat | plugins/register/etcdv3/etcdv3.go:203-228 | Applying two event sequences one after the other is applying their concatenation; the publications concatenate too |
| EtcdV3.HandleResponse | plugins/register/etcdv3/etcdv3.go:204-227 | The inner loop over one response's events computes ApplyEvents and Publications |
| EtcdV3.BatchStep | plugins/register/etcdv3/etcdv3.go:203-228 | One more response applies its events to the list the earlier responses left |
| EtcdV3.Watch | plugins/register/etcdv3/etcdv3.go:189-230 | Publishes the snapshot first (empty when the Get fails), then one list per change; the final list is the events of all responses applied in delivery order |
| EtcdV3.EtcdV3.NewRegistry | plugins/register/etcdv3/etcdv3.go:29-41 | Zeroed options, then the options, then the defaults; nothing is registered and no ClientConn is held |
| EtcdV3.EtcdV3.Configure | plugins/register/etcdv3/etcdv3.go:44-55 | The options run in order, then the defaults are filled in; nothing else changes |
| EtcdV3.EtcdV3.Register | plugins/register/etcdv3/etcdv3.go:72-99 | A nil node is refused with an error and nothing changes. Otherwise the node and its key are stored, renewal starts and no error is returned |
| EtcdV3.EtcdV3.RenewalTick | plugins/register/etcdv3/etcdv3.go:84-94 | The tick Gets the key Register stored; when the key is present the store is unchanged |
| EtcdV3.EtcdV3.UnRegister | plugins/register/etcdv3/etcdv3.go:134-140 | Returns the Delete error. The stored key is deleted, whatever node is passed, unless Delete fails |
| EtcdV3.EtcdV3.Scheme | plugins/register/etcdv3/etcdv3.go:170-176 | Never empty: the configured schema, or "default" |
| EtcdV3.EtcdV3.GetResolver | plugins/register/etcdv3/etcdv3.go:143-145 | The resolver is the registry itself |
| EtcdV3.EtcdV3.GetBuilder | plugins/register/etcdv3/etcdv3.go:148-150 | The builder is the registry itself |
| EtcdV3.EtcdV3.Build | plugins/register/etcdv3/etcdv3.go:153-167 | Remembers the ClientConn, returns the registry and no error, and watches the service's prefix |
| Tpl.Tpl.UnaryHandler | plugins/middleware/tpl/tpl.go:36-45 | The handler's result for the original arguments, whatever the filter says |
| Tpl.Tpl.StreamHandler | plugins/middleware/tpl/tpl.go:48-56 | The handler's error for the original arguments |
| Tpl.Tpl.UnaryClient | plugins/middleware/tpl/tpl.go:59-68 | The invoker's error for the original arguments |
| Tpl.Tpl.StreamClient | plugins/middleware/tpl/tpl.go:71-78 | The streamer's result for the original arguments |
| ErrorFormat.ToCode | plugins/middleware/errorformat/errorformat.go:94-105 | `codes.Code(x)` below 2^32, equal to x inside the 32-bit range, and congruent to x modulo 2^32 |
| ErrorFormat.StatusErr | plugins/middleware/errorformat/errorformat.go:94-105 | No error if and only if the code is OK (0); otherwise the status with that code and message |
| ErrorFormat.ServerError | plugins/middleware/errorformat/errorformat.go:94-105 | nil stays nil. A MicroError becomes the status with its wrapped code and message. Any other error becomes an Unknown status of the wrapped message. The result is always nil or a status |
| ErrorFormat.MicroErrorPreserved | plugins/middleware/errorformat/errorformat.go:94-105 | A MicroError with a non-zero code in 32-bit range comes out with the same code and message |
| ErrorFormat.CodeWraps | plugins/middleware/errorformat/errorformat.go:94-105 | Codes that differ by 2^32 give the same status |
| ErrorFormat.ErrorFormat.UnaryHandler | plugins/middleware/errorformat/errorformat.go:39-53 | A filtered-out call returns the handler's result. Otherwise the error is converted by ServerError. The response is always the handler's |
| ErrorFormat.ErrorFormat.StreamHandler | plugins/middleware/errorformat/errorformat.go:56-69 | As the unary handler, for the stream handler's error |
| ErrorFormat.ErrorFormat.UnaryClient | plugins/middleware/errorformat/errorformat.go:72-81 | The invoker's error, unchanged |
| ErrorFormat.ErrorFormat.StreamClient | plugins/middleware/errorformat/errorformat.go:84-91 | The streamer's result, unchanged |
| ErrorFormat.SuccessUntouched | plugins/middleware/errorformat/errorformat.go:39-53 | A handler that succeeds also succeeds through the unit, with the same response |
| LoggerOptions.LevelOf | plugins/middleware/logger/options.go:79-87 | A name in the zapLevel table gives its level; any other name gives DebugLevel; the result is always in [Debug, Error] |
| LoggerOptions.LevelNamesRoundTrip | plugins/middleware/logger/options.go:25-30 | Level and name round-trip both ways through the table |
| LoggerOptions.LevelNamesAreCaseSensitive | plugins/middleware/logger/options.go:79-87 | "INFO", "Error" and "" are not in the table, so they give DebugLevel |
| LoggerOptions.SettersVerbatim | plugins/middleware/logger/options.go:44-94 | Every setter other than Level stores its argument in its own field and nothing else |
| LoggerOptions.LevelStaysNamed | plugins/middleware/logger/options.go:79-87 | From a level in [Debug, Error], any list of options keeps the level in that range |
| LoggerOptions.LastLevelDecides | plugins/middleware/logger/options.go:79-87 | The last Level option decides the level |
| LoggerOptions.NoLevelOptionKeepsLevel | plugins/middleware/logger/options.go:79-87 | Without a Level option the level is unchanged |
| ZapLogger.WithDefaults | plugins/middleware/logger/logger.go:65-73 | An empty file name becomes ./access.log, a non-positive size becomes 100, and a level outside [-1, 5] becomes DefaultLevel. Set values and the other fields are kept |
| ZapLogger.ConfiguredOptionsFacts | plugins/middleware/logger/logger.go:56-74 | File name and size are always set. The level is always in [Debug, Error], so the range reset never decides it. Without options: ./access.log, 100, local time, compressed, InfoLevel |
| ZapLogger.WithDefaultsIdempotent | plugins/middleware/logger/logger.go:65-73 | Filling in the defaults twice is filling them in once |
| ZapLogger.OptionsOverrideFileFlags | plugins/middleware/logger/logger.go:58-63 | LocalTime(false) and Compress(false) override the true values configure sets before the loop |
| ZapLogger.RecordFor | plugins/middleware/logger/logger.go:77-93 | An error record if and only if the call was not filtered and failed. A debug record if and only if it was not filtered, succeeded, and the level is Debug. Otherwise no record |
| ZapLogger.ZapLogger.NewZapLogger | plugins/middleware/logger/logger.go:23-53 | The options are the configured ones. A supplied Logger is used as it is; otherwise a file logger is built from the configured file settings and level |
| ZapLogger.ZapLogger.Configure | plugins/middleware/logger/logger.go:56-74 | Sets LocalTime and Compress to true, runs the options in order, then fills in the defaults |
| ZapLogger.ZapLogger.UnaryHandler | plugins/middleware/logger/logger.go:77-93 | Returns the handler's result for the original arguments, and the record for its error at the configured level |
| ZapLogger.ZapLogger.StreamHandler | plugins/middleware/logger/logger.go:96-110 | The handler's error, and its record, filtered by the stream's context |
| ZapLogger.ZapLogger.UnaryClient | plugins/middleware/logger/logger.go:113-129 | The invoker's error, and its record |
| ZapLogger.ZapLogger.StreamClient | plugins/middleware/logger/logger.go:132-145 | The streamer's result, and the record for its error |
| ZapLogger.NoDebugRecordWithoutLevelOption | plugins/middleware/logger/logger.go:56-74 | Without a Level option the level is Info, so there are never debug records |
| ZapLogger.UnknownLevelNameLogsDebug | plugins/middleware/logger/options.go:79-87 | An unknown level name given last turns on debug records for successful calls |
| Opentracing.LowerChar | plugins/middleware/opentracing/opentracing.go:118-121 | Upper-case ASCII letters shift by 32; other characters are unchanged; the result is never upper case |
| Opentracing.ToLower | plugins/middleware/opentracing/opentracing.go:118-121 | Same length; each character is lower-cased |
| Opentracing.ToLowerIdempotent | plugins/middleware/opentracing/opentracing.go:118-121 | Lower-casing twice is lower-casing once |
| Opentracing.SetPair | plugins/middleware/opentracing/opentracing.go:118-121 | Set adds the lower-cased key and appends the value to its entry; the other entries are unchanged |
| Opentracing.SetFoldsCase | plugins/middleware/opentracing/opentracing.go:118-121 | Keys that differ only in case share one entry, with values in call order |
| Opentracing.Expand | plugins/middleware/opentracing/opentracing.go:106-115 | One key's (key, value) pairs, in slice order |
| Opentracing.AllSucceedByKey | plugins/middleware/opentracing/opentracing.go:106-115 | The handler succeeds on every pair if and only if it succeeds on every value of every key |
| Opentracing.ExpandSucceeds | plugins/middleware/opentracing/opentracing.go:106-115 | Success on one key's pairs is success on each of its values |
| Opentracing.OrderIrrelevantForSuccess | plugins/middleware/opentracing/opentracing.go:106-115 | Whether ForeachKey ends without error does not depend on the map's iteration order |
| Opentracing.MDReaderWriter.Set | plugins/middleware/opentracing/opentracing.go:118-121 | The shared map after the call is SetPair of the map before it |
| Opentracing.MDReaderWriter.ForeachKey | plugins/middleware/opentracing/opentracing.go:106-115 | Visits pairs key by key in iteration order, values in slice order. With no error every pair is visited and all succeed. With an error the last visited pair produced it |
| Opentracing.ForeachStep | plugins/middleware/opentracing/opentracing.go:107-113 | One key's visit extends the visited pairs while they stay a prefix of all pairs, on both ways out of the inner loop |
| Opentracing.NextKeyPairs | plugins/middleware/opentracing/opentracing.go:107-113 | The pairs of one more key follow the earlier keys' pairs |
| Opentracing.ForeachPrefix | plugins/middleware/opentracing/opentracing.go:107-113 | A prefix of the next key's pairs keeps the visit a prefix of all pairs |
| Opentracing.DropLast | plugins/middleware/opentracing/opentracing.go:107-113 | Dropping the last pair of a key's visit drops the last pair of the whole visit |
| Opentracing.VisitValues | plugins/middleware/opentracing/opentracing.go:108-112 | The handler runs on each value of one key in order and stops at the first error, which comes from the last visited pair |
| Opentracing.AllSucceedAppend | plugins/middleware/opentracing/opentracing.go:106-115 | Success on a concatenation is success on both parts |
| Opentracing.PrefixExtends | plugins/middleware/opentracing/opentracing.go:106-115 | The pairs of the first keys of an order are a prefix of the pairs of the whole order |
| Opentracing.Opentracing.UnaryHandler | plugins/middleware/opentracing/opentracing.go:55-77 | A filtered-out call goes straight to the handler, with no span. An unfiltered call requires the tracer to be set. The handler then gets the span's context and its result is returned unchanged. The span is a child of the span context extracted from the incoming metadata, and is tagged as an error if and only if the handler failed |
| Opentracing.Opentracing.StreamHandler | plugins/middleware/opentracing/opentracing.go:80-98 | The handler always gets the original stream. The span exists only when the call is not filtered, which requires the tracer to be set. It is a child of the extracted span context and is tagged as an error if and only if the handler failed |
| Opentracing.NewOpentracing | plugins/middleware/opentracing/opentracing.go:30-42 | Fails if and only if no logger is configured (the Fatal path); otherwise holds the configured options. A missing tracer is not checked |
| Opentracing.TracerNotRequiredToConstruct | plugins/middleware/opentracing/opentracing.go:30-42 | A unit configured with a logger and no Tracer option is built, and holds no tracer |
| Opentracing.NewClientSpanFromContext | plugins/middleware/opentracing/opentracing.go:196-227 | The new context carries a fresh map, which is a copy of the outgoing metadata with the tracer's writes added, and otherwise equals the old context. The caller's map is not touched |
| Opentracing.InjectAll | plugins/middleware/opentracing/opentracing.go:219-223 | The carrier's map is the result of the Set calls in order |
| Opentracing.UnaryClient | plugins/middleware/opentracing/opentracing.go:149-173 | A filtered-out call goes straight to the invoker. An unfiltered call requires the tracer to be set. Otherwise the invoker gets the injected context and its error is returned unchanged. The child span is tagged as an error if and only if the error is neither nil nor io.EOF |
| Opentracing.StreamClient | plugins/middleware/opentracing/opentracing.go:176-193 | As UnaryClient, for the streamer's (cs, err) |
| Opentracing.EofTreatedDifferently | plugins/middleware/opentracing/opentracing.go:159 | io.EOF never tags a client span but does tag a server span |
| HystrixOptions.Clamp | plugins/middleware/hystrixlimitter/hystrixlimitter.go:68-95 | A positive value is kept; otherwise the default is used |
| HystrixOptions.Limiter | plugins/middleware/hystrixlimitter/options.go:75-82 | Stores d, or 3 ms when d <= 0 |
| HystrixOptions.LimiterBurst | plugins/middleware/hystrixlimitter/options.go:85-92 | Stores n, or 100 when n <= 0 |
| HystrixOptions.StreamLimiter | plugins/middleware/hystrixlimitter/options.go:95-102 | Stores d, or 3 ms when d <= 0 |
| HystrixOptions.StreamLimiterBurst | plugins/middleware/hystrixlimitter/options.go:105-112 | Stores n, or 3 when n <= 0 |
| HystrixOptions.ApplyAssignsOneField | plugins/middleware/hystrixlimitter/options.go:52-158 | Each closure stores its value in its own field and leaves the others alone |
| HystrixOptions.BreakerSettersVerbatim | plugins/middleware/hystrixlimitter/options.go:126-158 | The breaker setters store their argument as given, non-positive values included |
| HystrixOptions.UntouchedFieldKept | plugins/middleware/hystrixlimitter/hystrixlimitter.go:63-65 | A field no option touches keeps its value |
| HystrixOptions.LaterOptionWins | plugins/middleware/hystrixlimitter/hystrixlimitter.go:63-65 | The last closure for a field decides its value |
| HystrixOptions.HoldsDependsOnField | plugins/middleware/hystrixlimitter/options.go:52-158 | Whether a record holds a closure's value depends only on that closure's field |
| HystrixOptions.WithDefaults | plugins/middleware/hystrixlimitter/hystrixlimitter.go:68-95 | Every limiter and breaker field ends up positive; type, name, logger and filter are kept |
| HystrixOptions.WithDefaultsKeepsPositive | plugins/middleware/hystrixlimitter/hystrixlimitter.go:68-95 | Each field keeps a positive value and takes its default otherwise |
| HystrixOptions.WithDefaultsIdempotent | plugins/middleware/hystrixlimitter/hystrixlimitter.go:68-95 | Configured options are a fixed point of the defaults |
| HystrixLimitter.RateLimiter.constructor | plugins/middleware/hystrixlimitter/hystrixlimitter.go:37-39 | A limiter with the given interval and burst, starting full |
| HystrixLimitter.RateLimiter.Allow | plugins/middleware/hystrixlimitter/limitter.go:28-30 | Allows a call if and only if a token is left, and then spends exactly one |
| HystrixLimitter.ConfiguredOptions | plugins/middleware/hystrixlimitter/hystrixlimitter.go:61-96 | The configured options have every limiter and breaker field positive |
| HystrixLimitter.Plan | plugins/middleware/hystrixlimitter/hystrixlimitter.go:20-58 | Fails without a logger, without a type, or as a client without a service name (the Fatal paths). A server unit gets two limiters from the configured intervals and bursts. A client unit configures the breaker command named after the service |
| HystrixLimitter.ServerDefaults | plugins/middleware/hystrixlimitter/hystrixlimitter.go:20-58 | A server unit with no limiter options gets 3 ms intervals with bursts 100 and 3 |
| HystrixLimitter.HystrixLimitter.Init | plugins/middleware/hystrixlimitter/hystrixlimitter.go:21-23 | Zeroed options and no limiters |
| HystrixLimitter.HystrixLimitter.Configure | plugins/middleware/hystrixlimitter/hystrixlimitter.go:61-96 | The options run in order, then the defaults; the limiters are untouched |
| HystrixLimitter.HystrixLimitter.UnaryHandler | plugins/middleware/hystrixlimitter/limitter.go:21-35 | A filtered-out call goes to the handler. Otherwise the call runs if and only if the unary limiter has a token, and is refused with ErrLimitExceed otherwise. The stream limiter is not touched |
| HystrixLimitter.HystrixLimitter.StreamHandler | plugins/middleware/hystrixlimitter/limitter.go:38-51 | As the unary handler, with the stream limiter; the unary limiter is not touched |
| HystrixLimitter.HystrixLimitter.UnaryClient | plugins/middleware/hystrixlimitter/hystrix.go:17-37 | A filtered-out call goes to the invoker. Otherwise, under the breaker's verdict, whatever hystrix.Do makes of the invoker's error is returned when the command runs, and the breaker's error, passed through the fallback unchanged, when it is refused |
| HystrixLimitter.HystrixLimitter.StreamClient | plugins/middleware/hystrixlimitter/hystrix.go:40-49 | The streamer's result, unchanged |
| HystrixLimitter.NewHystrixLimitter | plugins/middleware/hystrixlimitter/hystrixlimitter.go:20-58 | Fails exactly when the plan fails. Otherwise the unit holds the planned options and limiters, and the client's breaker configuration is returned |
| ServerOptions.MiddlewaresAccumulate | server/options.go:49-56 | Middleware options accumulate: the units already held come first, then each option's units in order |
| ServerOptions.CollectedAppend | server/options.go:49-56 | The collected units of two option lists concatenate |
| ServerOptions.MiddlewareOnNilStartsEmpty | server/options.go:49-56 | The first Middleware option on zeroed options holds exactly its own units |
| ServerOptions.SettersAssignOneField | server/options.go:35-98 | Every option other than Middleware stores its argument in its own field and changes nothing else |
| Server.WithDefaults | server/server.go:85-106 | Each empty string or non-positive buffer size takes its config value or its 128 KiB default; set values are kept. With no registry set, the etcd server registry is used. Middlewares and metrics address are kept |
| Server.WithDefaultsIdempotent | server/server.go:85-106 | Filling in the defaults twice is filling them in once |
| Server.ErrorFormatIsLast | server/server.go:67-76 | Middlewares are the caller's units in order followed by the error-format unit, which is always last |
| Server.InterceptorLists | server/server.go:123-128 | One stream and one unary interceptor per unit, in unit order |
| Server.Server.NewServer | server/server.go:67-76 | Zeroed options configured by the caller's options plus the error-format unit |
| Server.Server.Configure | server/server.go:79-107 | The options run in order, then the defaults |
| Server.Server.FillDefaults | server/server.go:85-106 | The second half of configure computes WithDefaults in place |
| Server.Server.Register | server/server.go:154-160 | The registry's answer for the node built from id, address and advertise, with empty metadata |
| Server.Server.UnRegister | server/server.go:163-172 | Closes the tracer if one was set, then returns the registry's answer for the same node |
| Server.Server.Stop | server/server.go:175-181 | nil if and only if UnRegister succeeded, otherwise its error; the tracer is closed if one was set |
| Server.Server.Metrics | server/server.go:184-189 | The metrics endpoint listens if and only if a metrics address is set, and on that address |
| Server.Server.Serve | server/server.go:113-151 | No RegisterServer gives the error and nothing happens. Otherwise it listens on the address and stops if listening fails. It then builds the server with the interceptor lists and buffer sizes, runs every callback, registers the node and serves, returning the first error |
| Server.NewDefaultServer | server/server.go:38-64 | A tracer error aborts construction. Otherwise the middlewares are the zap logger, opentracing, prometheus and the server limiter, then the error-format unit. The metrics address is ":19999" and the registry is the etcd server registry |
| ClientOptions.ApplyAssignsOneField | client/options.go:28-53 | Each closure stores its argument in its own field, whatever it held, and leaves the others alone; Middleware replaces the units |
| ClientOptions.TouchedFieldForgetsStart | client/options.go:28-53 | A field some option assigns ends up the same whatever the starting options were |
| ClientOptions.UntouchedFieldKept | client/options.go:28-53 | A field no option assigns keeps its value |
| ClientOptions.LastMiddlewareWins | client/options.go:35-39 | The last Middleware option alone decides the units; they do not accumulate |
| Client.WithDefaults | client/client.go:95-100 | A non-positive timeout becomes 5 s; with no registry set, the etcd client registry for the service is used; the other fields are kept |
| Client.ReconfigureIsStable | client/client.go:89-101 | Configuring again with the same options changes nothing |
| Client.DefaultsOverrideCallerMiddleware | client/client.go:44-68 | The re-configure in NewDefaultClient replaces the caller's middleware units with the default units |
| Client.FirstIndexOf | client/client.go:119 | The first index of c in s, or None when c does not occur |
| Client.FirstIndexAfter | client/client.go:119 | After a prefix without c, the first c is at the prefix's length |
| Client.Reassemble | client/client.go:119 | A string with "://" and a later '/' is the concatenation of its pieces around them |
| Client.ParseTargetSound | client/client.go:119 | Whatever the parse reads out reassembles into the target |
| Client.DialTargetShape | client/client.go:119 | Places the scheme, "://author/" and the service name at fixed positions |
| Client.AuthoritySplit | client/client.go:119 | The authority ends at the first '/' and the service name follows it |
| Client.DialTargetParses | client/client.go:119 | For a scheme without ':', the target parses back to (scheme, "author", service name) |
| Client.Client.Init | client/client.go:75-77 | Zeroed options, no connection and no tracer |
| Client.Client.Configure | client/client.go:89-101 | The options run in order, then the defaults; the connection is untouched |
| Client.Client.Dial | client/client.go:107-129 | The resolver builder is the registry. It dials the target with round-robin, insecure and the timeout, and no interceptors. The dial error is returned; on success the connection is kept and every client callback is run on it |
| Client.NewClient | client/client.go:74-86 | Fails with "Service name must be set" if and only if no service name is configured; otherwise a fresh client with the configured options, no connection and no tracer |
| Client.NewDefaultClient | client/client.go:32-71 | Fails first on a missing service name, then on a tracer error. Otherwise holds the re-configured options with the default units |

Members without a contract of their own have no row. They are the definitions that the rows above state properties of:

- `Middleware.FilteredOut` is the filter test every unit makes (plugins/middleware/middleware.go:24; for example plugins/middleware/tpl/tpl.go:37).
- `Apply` and `ApplyAll` in every options module are the option closures and the `configure` loops: `Register`, `Tpl`, `Opentracing`, `LoggerOptions`, `HystrixOptions`, `ServerOptions` and `ClientOptions`.
- `Tpl.NewTpl` is plugins/middleware/tpl/tpl.go:18-25.
- `EtcdV3.WatchPrefix` is etcdv3.go:104.
- `EtcdV3.FirstFailure` is the early returns of etcdv3.go:110-131.
- `EtcdV3.Publishes`, `EtcdV3.ApplyEvents`, `EtcdV3.Publications` and `EtcdV3.Flatten` are the `cc.NewAddress` calls and the event fold of etcdv3.go:203-228.
- `Opentracing.ServerSpanError` and `Opentracing.ClientSpanError` are the error-tag tests of opentracing.go:63, 89, 159 and 184.
- `Opentracing.SetAll`, `AllPairs`, `ValuesOf`, `IterationOrder` and `AllSucceed` describe the metadata map and its traversal.
- `Server.Server.NodeOf` is the node of server/server.go:155-159 and 164-170.
- `Server.NewServerOptions` is server/server.go:67-76.
- `Client.DialTarget` is the target of client/client.go:119.
- `Client.ParseTarget` is a reading of that target.
- `Client.Configured` is client/client.go:89-101.
- `LoggerOptions.LevelName` is zapcore's level name for the zapLevel table.
- `HystrixOptions.Configured` and `Holds` state what the defaults and each closure leave.

## Left out

- The etcd client itself (connection and the real Get, Put, Grant, KeepAlive and Delete). The store is a value, and etcd's replies to each request are inputs.
- The renewal goroutine and its ticker. Each tick is one call to `RenewTick`; the unbounded loop and its timing are not modelled.
- Concurrency: goroutines, `Serve` running in the background, the watch goroutine.
- JSON encoding and decoding of a Node. These are input functions (`Marshal`, `Decoder`).
- `ResolveNow` of both registries, which does nothing. `Close` of both registries: NoRegister's does nothing, and EtcdV3's writes one Info log record.
- TLS configuration in the register options, and `grpc.WithInsecure` beyond its presence in the dial options.
- EtcdV3.UnRegister: the node argument is ignored, as in the source. The tracer close in Server.UnRegister is a flag, not a call.
- Token refill of `rate.Limiter`. Allow spends tokens, but the passage of time that refills them is not modelled.
- The hystrix-go circuit breaker. Its decision per call is an input (`Verdict`). The breaker defaults come from hystrix-go and appear as constants.
- The prometheus unit and the Metrics HTTP listener. Metrics only states the address it would listen on.
- The chaining of interceptors by go-grpc-middleware. The lists are built in order, but the chained call is not modelled.
- The tracer. Spans are inputs, and Inject writes are a sequence of Set calls. The zap and lumberjack plumbing is described by `Sink`.
- `grpclog.SetLoggerV2` in the logger unit, and the grpclog adapter.
- The `Fatal` calls of NewOpentracing and NewHystrixLimitter become an `Err` result rather than an exit.
- EtcdV3.EtcdV3.NewRegistry: the etcd client created by `initEtcdCli` is not modelled, and neither is the `Fatalw` exit when it cannot be created.
- EtcdV3.EtcdV3.Build: the path where the etcd client does not exist yet and cannot be created is not modelled. That path logs with Fatalw and returns the error. The model's Build always succeeds.
- Opentracing.ToLower: only ASCII letters change case. Go's `strings.ToLower` also folds other Unicode letters.
- Go map iteration order. It is a parameter (`order`) that must list every key once.
- Slice aliasing on `append`. Sequences are values.
- EtcdV3.HandleEvent and EtcdV3.Watch: each published address list is a value. The source hands its own slice to `cc.NewAddress`, and `remove` later overwrites slot i of that backing array in place. A later `append` can also write into the freed last slot. So a list already published can change afterwards: [A,B,C] reads [C,B,C] after DELETE A, and [C,B,D] after a further PUT D. The model does not capture that sharing. Its published lists never change once handed out.
- int64 overflow of durations and TTLs. Integers are unbounded except where the source converts them, as in `codes.Code`.
- internal/common and server/init are not part of this model. Neither is the config package, whose values become the `Config` parameter.
- `net.Listen` and `grpc.Dial`. Their errors and handles are parameters.
- Client.Close, which closes the tracer and the connection.
- Server.Server.NewServer: the error result, which the source always returns as nil, is dropped.
- Opentracing.Opentracing.UnaryHandler, StreamHandler, and the client interceptors Opentracing.UnaryClient and Opentracing.StreamClient: the source panics when an unfiltered call reaches a unit built without the Tracer option. It calls Extract and StartSpan on a nil tracer. The model states this as a precondition and does not model the panic.
- HystrixLimitter.HystrixLimitter.UnaryHandler and StreamHandler: the source panics on `Allow()` of a nil limiter when an unfiltered call reaches a unit whose type is not "server". The model states this as a precondition and does not model the panic.
- HystrixLimitter.HystrixLimitter.UnaryClient: what hystrix.Do returns once the command has run is an input function of the invoker's error (`Verdict.Run`'s `settle`). hystrix-go is not part of this model. It may wrap the error, for example when the fallback fails.
- Opentracing.Opentracing.UnaryHandler: the tracer's Extract is not modelled. The span context it finds in the incoming metadata is the `extracted` input, which is None when there is none.
- Opentracing.NewOpentracing: the global `logger.Logger` that NewDefaultServer and NewDefaultClient pass is assumed non-nil.
- Nil and empty middleware slices are both the empty sequence, since the code never distinguishes them.
