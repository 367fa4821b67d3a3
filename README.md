# Pulsar worker pool, producers and data provider — a Dafny model

This project models the core of AutoStreams' Pulsar implementation. The model is written in Dafny and its properties are proved there. It covers the following parts:

- **The consumer side.** A master creates a pool of consumer workers. Each worker resolves its configuration from three tiers: environment variable, then properties file, then literal default. It subscribes to the broker, starts a thread, and runs a receive / acknowledge / negative-acknowledge loop while its `running` flag is set. A separate batch loader, `ConsumerPropertyLoader`, builds a configuration map all from the environment or all from the properties file. An older generation of the worker and master (`com.klungerbo…`) is modelled beside the newer one.
- **The producer side.** Three producers build the settings map they hand to the Pulsar producer builder, and connect to the broker:
  - the producer without batching, which retries inside `initialize`;
  - the batching producer, whose loader retries `initialize`;
  - the prototype producer, whose `main` retries up to a bound.

  The listen port of the producer application and of its data receiver is resolved from tiers as well.
- **The data provider.** This client connects to the producer's data receiver and writes lines at a fixed rate. Its host and port are taken together from one tier.

Layout: one Dafny module per source class, plus `Java` for the few platform functions the code relies on (`Integer.parseInt`, `Long.parseLong`, `Boolean.parseBoolean`, `Enum.valueOf`, `TimeUnit.MILLISECONDS.toMicros`, `String.valueOf`, `getOrDefault`). `PulsarClient` holds the client, producer and close-call values shared by the producers.

Modelling conventions:
- A Java `null` string is `Option<string>`.
- A thrown exception is an `Outcome`, or a `Result` with the exception's kind.
- The environment and every properties file are immutable maps, passed in as parameters.
- Whatever the Pulsar client library, Netty or the operating system does is a script given as a parameter: connection attempts, broker steps, sleeps.
- A loop that retries without bound is driven by such a script. `Progress` says whether it returned, raised an exception, or is still retrying when the script runs out.
- Objects whose fields the source updates are Dafny classes with `modifies` clauses. The configuration logic is functions, with lemmas about them.

Behaviour of the code worth knowing before reading the model:
- **A failed connection still starts the worker.** `ConsumerWorker.initialize` catches the IOException of creating the consumer, then sets `running` and starts a thread anyway (`Worker.ConsumerWorker.Initialize`).
- **Errors are not contained at the worker boundary.**
  - A configuration that does not parse throws out of `initialize` and out of `generateWorkers`, ending worker creation (`Master.ConsumerMaster.Init`).
  - A worker without a consumer throws NullPointerException out of `stop`, and the workers after it are never stopped (`Master.ConsumerMaster.OnShutdown`).
- **The acknowledgement variable names differ.**
  - The worker reads the acknowledgement timeout from `ACKNOWLEDGEMENTS_TIMEOUT_MILLIS`, while the batch loader registers it under `ACK_TIMEOUT_MILLIS`. A value set under the loader's name never reaches the worker (`Worker.AckTimeoutNamesDisagree`).
  - The batch loader registers the acknowledgement group time under `ACKNOWLEDGEMENTS_GROUP_TIME_MICROS ` with a trailing space, which keeps it from ever using the environment (`PropertyLoader.TrailingSpaceSelectsPropertiesFile`).

## Model

Paths are relative to the repository root.

| member | source | states |
|---|---|---|
| Java.Get | consumer/src/main/java/com/autostreams/pulsar/ConsumerPropertyLoader.java:149-160 | a key's value, and null exactly when the key is absent |
| Java.GetOrDefault | producer/src/main/java/com/autostreams/pulsar/PulsarProducer.java:67-73 | the variable when it is set, else the fallback, which may be null |
| Java.Resolve | consumer/src/main/java/com/autostreams/pulsar/ConsumerWorker.java:98-106 | three tiers: the variable if set, else the property if present, else the literal default; never null |
| Java.StringValueOf | consumer/src/main/java/com/autostreams/pulsar/ConsumerPropertyLoader.java:162-172 | a non-null string is unchanged, and null becomes the four letters "null" |
| Java.ParseDecimal | consumer/src/main/java/com/autostreams/pulsar/ConsumerWorker.java:110-124 | an accepted text is non-null and non-empty, and its value lies within the bounds |
| Java.ParseInt | consumer/src/main/java/com/autostreams/pulsar/ConsumerWorker.java:110-124 | `Integer.parseInt`: a 32-bit value, or NumberFormatException |
| Java.ParseLong | producer/src/main/java/com/autostreams/pulsar/PulsarProducer.java:83-89 | `Long.parseLong`: a 64-bit value, or NumberFormatException |
| Java.ParseIntRoundTrip | consumer/src/main/java/com/autostreams/pulsar/Main.java:57-60 | parsing the decimal text of every 32-bit int gives it back |
| Java.ParseLongRoundTrip | producer/src/main/java/com/autostreams/pulsar/PulsarProducer.java:83-89 | parsing the decimal text of every 64-bit long gives it back |
| Java.ParseDecimalRejects | consumer/src/main/java/com/autostreams/pulsar/ConsumerMaster.java:45 | a character that is neither a digit nor a leading sign makes any text unparsable |
| Java.ParseBoolean | producer/src/main/java/com/autostreams/pulsar/PulsarProducer.java:91-97 | true exactly for the four letters t, r, u, e in any letter case; false for every other text and for null |
| Java.ValueOf | consumer/src/main/java/com/autostreams/pulsar/ConsumerWorker.java:105-108 | an exact constant name succeeds; null throws NullPointerException, anything else IllegalArgumentException |
| Java.MillisToMicros | producer/src/main/java/com/autostreams/pulsar/PulsarProducer.java:139-146 | milliseconds times 1000 when that fits in a long, else the nearer 64-bit bound |
| PropertyLoader.GetHost | consumer/src/main/java/com/autostreams/pulsar/ConsumerPropertyLoader.java:80-91 | `PULSAR_BROKER_URL`, else the property `url`; null exactly when neither is set |
| PropertyLoader.StandardNamesDistinct | consumer/src/main/java/com/autostreams/pulsar/ConsumerPropertyLoader.java:52-62 | the eight registered property names are pairwise distinct |
| PropertyLoader.Entries | consumer/src/main/java/com/autostreams/pulsar/ConsumerPropertyLoader.java:126-160 | the put loop over the pairs in order; its keys and entries are stated by `EntriesKeys` and `EntriesAt` |
| PropertyLoader.EntriesKeys | consumer/src/main/java/com/autostreams/pulsar/ConsumerPropertyLoader.java:126-160 | the put loop's keys are exactly the property names of the pairs |
| PropertyLoader.EntriesAt | consumer/src/main/java/com/autostreams/pulsar/ConsumerPropertyLoader.java:126-160 | with distinct names, each pair's entry survives the later puts |
| PropertyLoader.Configuration | consumer/src/main/java/com/autostreams/pulsar/ConsumerPropertyLoader.java:35-47 | the map one call returns always has exactly the eight property names as keys |
| PropertyLoader.ConfigurationNeverMixes | consumer/src/main/java/com/autostreams/pulsar/ConsumerPropertyLoader.java:39-44 | every non-topic value comes from the same tier: all from the environment when every name is set, else all from the file; an absent value is null |
| PropertyLoader.ConfigurationTopics | consumer/src/main/java/com/autostreams/pulsar/ConsumerPropertyLoader.java:162-172 | "topicNames" maps to the grown topic set, which gains the chosen tier's topic, or "null" when it is absent |
| PropertyLoader.TrailingSpaceSelectsPropertiesFile | consumer/src/main/java/com/autostreams/pulsar/ConsumerPropertyLoader.java:58-59 | without a variable named with the trailing space, the properties file is used |
| PropertyLoader.IntendedNamesAreNotEnough | consumer/src/main/java/com/autostreams/pulsar/ConsumerPropertyLoader.java:58-59 | an environment holding all eight names as intended, without the space, still selects the file |
| PropertyLoader.RepeatedPairsPresent | consumer/src/main/java/com/autostreams/pulsar/ConsumerPropertyLoader.java:103-119 | a key list of repeated copies of the eight pairs is all present iff the eight are |
| PropertyLoader.AppendCopy | consumer/src/main/java/com/autostreams/pulsar/ConsumerPropertyLoader.java:52-62 | appending the eight pairs once more keeps the key list made of whole copies |
| PropertyLoader.EntriesStep | consumer/src/main/java/com/autostreams/pulsar/ConsumerPropertyLoader.java:126-141 | over a key list of copies, each put extends the map of a prefix, and once all eight are in, changes nothing |
| PropertyLoader.ConsumerPropertyLoader.constructor | consumer/src/main/java/com/autostreams/pulsar/ConsumerPropertyLoader.java:19-22 | an empty key list and an empty topic set |
| PropertyLoader.ConsumerPropertyLoader.GetConsumerConfiguration | consumer/src/main/java/com/autostreams/pulsar/ConsumerPropertyLoader.java:35-47 | appends the eight pairs again; returns the single-tier configuration; the topic set gains the chosen tier's topic |
| PropertyLoader.ConsumerPropertyLoader.SetConfigVariableKeys | consumer/src/main/java/com/autostreams/pulsar/ConsumerPropertyLoader.java:52-62 | the key list grows by the eight pairs, in order |
| PropertyLoader.ConsumerPropertyLoader.AddPropertyPair | consumer/src/main/java/com/autostreams/pulsar/ConsumerPropertyLoader.java:70-75 | the key list grows by exactly the one pair |
| PropertyLoader.ConsumerPropertyLoader.CanSetValuesFromEnvironmentVariables | consumer/src/main/java/com/autostreams/pulsar/ConsumerPropertyLoader.java:99-119 | true iff every environment name in the key list is set; stops right after the first missing one |
| PropertyLoader.ConsumerPropertyLoader.GetConfigurationFromEnvironment | consumer/src/main/java/com/autostreams/pulsar/ConsumerPropertyLoader.java:126-141 | one put per pair of the key list: the eight-key environment configuration, or an empty map for an empty list |
| PropertyLoader.ConsumerPropertyLoader.GetConfigurationFromPropertiesFile | consumer/src/main/java/com/autostreams/pulsar/ConsumerPropertyLoader.java:149-160 | the same, reading the properties file under the property names |
| PropertyLoader.ConsumerPropertyLoader.PutVariableToResult | consumer/src/main/java/com/autostreams/pulsar/ConsumerPropertyLoader.java:162-172 | "topicNames" adds `String.valueOf(value)` to the topic set and stores the grown set's contents; other names store the raw value |
| PropertyLoader.TwoCalls | consumer/src/main/java/com/autostreams/pulsar/ConsumerPropertyLoader.java:35-62 | two calls on one loader, with the key list doubled, still return the same eight keys |
| Worker.ConsumerHost | consumer/src/main/java/com/autostreams/pulsar/ConsumerWorker.java:79-80 | `PULSAR_BROKER_URL`, else `pulsar.url`, else `pulsar://localhost:6650` |
| Worker.AsMap | consumer/src/main/java/com/autostreams/pulsar/ConsumerWorker.java:126-132 | seven keys and no `consumerName`; each key holds its field of the configuration, the topic set's contents under `topicNames` |
| Worker.ConsumerProperties | consumer/src/main/java/com/autostreams/pulsar/ConsumerWorker.java:95-135 | succeeds iff the subscription type is a constant and the four integers parse; the first failure's exception otherwise; each field is its resolved, parsed value |
| Worker.ConsumerPropertiesDefaults | consumer/src/main/java/com/autostreams/pulsar/ConsumerWorker.java:98-124 | with nothing set: "subscription", Shared, 1000, 1000, 0, 1000 |
| Worker.IntValue | consumer/src/main/java/com/autostreams/pulsar/ConsumerWorker.java:110-124 | each integer setting: the variable wins over the property, which wins over the default, and the chosen text is parsed |
| Worker.ConsumerConfiguration | consumer/src/main/java/com/autostreams/pulsar/ConsumerWorker.java:95-135 | the given topic set, the resolved subscription name, a subscription type that is a constant, and the four parsed integers |
| Worker.UnknownSubscriptionTypeThrows | consumer/src/main/java/com/autostreams/pulsar/ConsumerWorker.java:105-108 | an unknown subscription type throws IllegalArgumentException, whatever the integers hold |
| Worker.AckTimeoutNamesDisagree | consumer/src/main/java/com/autostreams/pulsar/ConsumerWorker.java:118-120 | the worker ignores the loader's `ACK_TIMEOUT_MILLIS` and falls back to 0 |
| Worker.StopIndex | consumer/src/main/java/com/autostreams/pulsar/ConsumerWorker.java:137-153 | the position of the first stop request, with no stop request before it |
| Worker.LoopCalls | consumer/src/main/java/com/autostreams/pulsar/ConsumerWorker.java:137-153 | two or three calls on the consumer for each pass before the first stop request |
| Worker.CallOrderPrepend | consumer/src/main/java/com/autostreams/pulsar/ConsumerWorker.java:137-153 | one pass's calls put in front of a well-ordered call sequence keep it well ordered |
| Worker.LoopCallsOrder | consumer/src/main/java/com/autostreams/pulsar/ConsumerWorker.java:137-153 | every receive is followed by an acknowledgement or a negative acknowledgement before the next receive; a negative acknowledgement follows the failed acknowledgement of the same message, or the failed receive (null) |
| Worker.LoopCallsAt | consumer/src/main/java/com/autostreams/pulsar/ConsumerWorker.java:137-153 | the calls from a position on are that pass's calls followed by the rest, or none at a stop request |
| Worker.LoopCallsAdvance | consumer/src/main/java/com/autostreams/pulsar/ConsumerWorker.java:137-153 | one pass extends the calls made so far by that pass's calls |
| Worker.ReceivesAppend | consumer/src/main/java/com/autostreams/pulsar/ConsumerWorker.java:137-153 | receives are counted additively over concatenation |
| Worker.StepReceives | consumer/src/main/java/com/autostreams/pulsar/ConsumerWorker.java:140-141 | each pass before a stop request receives exactly once |
| Worker.LoopCallsReceives | consumer/src/main/java/com/autostreams/pulsar/ConsumerWorker.java:137-153 | the loop receives once per pass before the first stop request |
| Worker.LoopCallsIgnoreAfterStop | consumer/src/main/java/com/autostreams/pulsar/ConsumerWorker.java:160-162 | what the broker would do after a stop request changes nothing |
| Worker.ConsumerWorker.constructor | consumer/src/main/java/com/autostreams/pulsar/ConsumerWorker.java:32-34 | no consumer, not running, no topic |
| Worker.ConsumerWorker.Initialize | consumer/src/main/java/com/autostreams/pulsar/ConsumerWorker.java:39-48 | a parse failure escapes with no thread; otherwise running and one thread started, even when the connection failed |
| Worker.ConsumerWorker.Start | consumer/src/main/java/com/autostreams/pulsar/ConsumerWorker.java:53-56 | one more thread started |
| Worker.ConsumerWorker.Stop | consumer/src/main/java/com/autostreams/pulsar/ConsumerWorker.java:61-68 | clears `running`; closes once, or throws NullPointerException without a consumer |
| Worker.ConsumerWorker.CreateConsumer | consumer/src/main/java/com/autostreams/pulsar/ConsumerWorker.java:75-87 | adds the topic; the builder's exception escapes; a failed client is an IOException; otherwise subscribed to the host with the configuration |
| Worker.ConsumerWorker.Run | consumer/src/main/java/com/autostreams/pulsar/ConsumerWorker.java:137-162 | while running, exactly the loop's calls for the script; stops iff a stop request comes; crashes with NullPointerException without a consumer |
| KlungerboWorker.ConsumerProperties | consumer/src/main/java/com/klungerbo/streams/pulsar/ConsumerWorker.java:93-107 | exactly the topic set and the subscription name |
| KlungerboWorker.ConsumerPropertiesDefaults | consumer/src/main/java/com/klungerbo/streams/pulsar/ConsumerWorker.java:96-101 | the defaults "Testtopic" and "subscription" |
| KlungerboWorker.WithoutNegativeAcks | consumer/src/main/java/com/klungerbo/streams/pulsar/ConsumerWorker.java:114-123 | no negative acknowledgement remains, every other call is kept, and nothing is added |
| KlungerboWorker.WithoutNegativeAcksAppend | consumer/src/main/java/com/klungerbo/streams/pulsar/ConsumerWorker.java:114-123 | dropping negative acknowledgements distributes over concatenation |
| KlungerboWorker.LoopCalls | consumer/src/main/java/com/klungerbo/streams/pulsar/ConsumerWorker.java:114-123 | one or two calls per pass before the first stop: the newer loop's calls without its negative acknowledgements |
| KlungerboWorker.LoopCallsBounds | consumer/src/main/java/com/klungerbo/streams/pulsar/ConsumerWorker.java:114-123 | each pass keeps its receive and at most its acknowledgement |
| KlungerboWorker.StepCallsWithoutNegativeAcks | consumer/src/main/java/com/klungerbo/streams/pulsar/ConsumerWorker.java:115-122 | the calls of one pass: receive and acknowledge, or only the receive when it fails |
| KlungerboWorker.LoopCallsAdvance | consumer/src/main/java/com/klungerbo/streams/pulsar/ConsumerWorker.java:114-123 | one pass extends the calls made so far by that pass's calls |
| KlungerboWorker.ReceivesWithoutNegativeAcks | consumer/src/main/java/com/klungerbo/streams/pulsar/ConsumerWorker.java:114-123 | dropping negative acknowledgements keeps every receive |
| KlungerboWorker.LoopCallsReceives | consumer/src/main/java/com/klungerbo/streams/pulsar/ConsumerWorker.java:114-123 | one receive per pass before the stop request, as in the newer worker, and never a negative acknowledgement |
| KlungerboWorker.ConsumerWorker.constructor | consumer/src/main/java/com/klungerbo/streams/pulsar/ConsumerWorker.java:29-33 | no consumer, not running, no topic |
| KlungerboWorker.ConsumerWorker.CreateConsumer | consumer/src/main/java/com/klungerbo/streams/pulsar/ConsumerWorker.java:74-84 | an unloadable file throws IOException before any change; otherwise the topic is added and, unless the client fails, the consumer is subscribed |
| KlungerboWorker.ConsumerWorker.Initialize | consumer/src/main/java/com/klungerbo/streams/pulsar/ConsumerWorker.java:38-46 | at every stack depth ends in StackOverflowError with no thread started |
| KlungerboWorker.ConsumerWorker.Start | consumer/src/main/java/com/klungerbo/streams/pulsar/ConsumerWorker.java:51-55 | calls `initialize` first, so at every depth ends in StackOverflowError with no thread started |
| KlungerboWorker.ConsumerWorker.Stop | consumer/src/main/java/com/klungerbo/streams/pulsar/ConsumerWorker.java:60-67 | clears `running`; closes once, or throws NullPointerException without a consumer |
| KlungerboWorker.ConsumerWorker.Run | consumer/src/main/java/com/klungerbo/streams/pulsar/ConsumerWorker.java:114-124 | while running, exactly the loop's calls for the script, with no negative acknowledgement |
| KlungerboWorker.InitializeThenRun | consumer/src/main/java/com/klungerbo/streams/pulsar/ConsumerWorker.java:30 | since nothing ever sets `running`, a worker the master drives makes no broker call |
| Master.WorkerCount | consumer/src/main/java/com/autostreams/pulsar/ConsumerMaster.java:40-46 | a non-zero request as given; 0 reads `consumers.count`, which throws when missing or not a number |
| Master.AllInitializedAppend | consumer/src/main/java/com/autostreams/pulsar/ConsumerMaster.java:49-54 | appending an initialized worker keeps every created worker initialized |
| Master.ConsumerMaster.constructor | consumer/src/main/java/com/autostreams/pulsar/ConsumerMaster.java:23 | an empty worker list |
| Master.ConsumerMaster.Init | consumer/src/main/java/com/autostreams/pulsar/ConsumerMaster.java:31-55 | a bad count or configuration throws and appends nothing; otherwise exactly `count` new, distinct, initialized workers appended after the old ones |
| Master.ConsumerMaster.CreateWorkers | consumer/src/main/java/com/autostreams/pulsar/ConsumerMaster.java:49-54 | the loop: all workers are created or none; the list only grows at its end |
| Master.ConsumerMaster.AddWorker | consumer/src/main/java/com/autostreams/pulsar/ConsumerMaster.java:50-53 | a new worker is initialized and appended only when that returns |
| Master.ConsumerMaster.StartWorkers | consumer/src/main/java/com/autostreams/pulsar/ConsumerMaster.java:60-64 | each worker gets exactly one more thread; its running flag, consumer, close count and topics are unchanged |
| Master.ConsumerMaster.OnMessage | consumer/src/main/java/com/autostreams/pulsar/ConsumerMaster.java:73-76 | only logs: the empty frame means no field of the master or its workers changes |
| Master.ConsumerMaster.OnShutdown | consumer/src/main/java/com/autostreams/pulsar/ConsumerMaster.java:81-85 | stops workers in order up to the first without a consumer, which has its running flag cleared and throws NullPointerException; later workers are untouched; no consumer, thread count or topic set changes |
| ConsumerMain.ConsumerCount | consumer/src/main/java/com/autostreams/pulsar/Main.java:51-69 | the parsed `-w`; 0 when it is absent, unparsable, or the command line fails to parse |
| ConsumerMain.ConsumerCountRoundTrip | consumer/src/main/java/com/autostreams/pulsar/Main.java:57-60 | every 32-bit count given with `-w` comes back as given |
| ConsumerMain.NonNumericCountIsZero | consumer/src/main/java/com/autostreams/pulsar/Main.java:64-67 | a non-numeric `-w` gives 0 |
| ConsumerMain.Completed | consumer/src/main/java/com/autostreams/pulsar/Main.java:28-36 | the number of completed sleeps is the number of `true` entries of the script |
| ConsumerMain.StartupDelay | consumer/src/main/java/com/autostreams/pulsar/Main.java:26-36 | ends right after the fifth completed sleep; interrupted sleeps do not count |
| ConsumerMain.Launch | consumer/src/main/java/com/autostreams/pulsar/Main.java:38-42 | on success, `count` workers with two thread starts each; a count of zero or less ends normally with none; a bad count or configuration leaves none |
| KlungerboMaster.WorkerCount | consumer/src/main/java/com/klungerbo/streams/pulsar/ConsumerMaster.java:41-50 | a non-zero request as given; with 0, an unloadable file keeps 0, a loaded one is parsed |
| KlungerboMaster.UnloadableFileOrdersNone | consumer/src/main/java/com/klungerbo/streams/pulsar/ConsumerMaster.java:42-50 | no file gives 0 workers; any loaded file without the key throws NumberFormatException |
| KlungerboMaster.ConsumerMaster.constructor | consumer/src/main/java/com/klungerbo/streams/pulsar/ConsumerMaster.java:24 | an empty worker list |
| KlungerboMaster.ConsumerMaster.Init | consumer/src/main/java/com/klungerbo/streams/pulsar/ConsumerMaster.java:32-57 | a positive count ends in StackOverflowError; the list never grows |
| KlungerboMaster.ConsumerMaster.StartWorkers | consumer/src/main/java/com/klungerbo/streams/pulsar/ConsumerMaster.java:62-66 | any worker overflows the stack; no thread is started |
| KlungerboMaster.ConsumerMaster.OnMessage | consumer/src/main/java/com/klungerbo/streams/pulsar/ConsumerMaster.java:74-76 | only logs: the empty frame means no field of the master or its workers changes |
| KlungerboMaster.ConsumerMaster.OnShutdown | consumer/src/main/java/com/klungerbo/streams/pulsar/ConsumerMaster.java:82-86 | stops in order up to the first worker without a consumer, which has its running flag cleared and throws NullPointerException; later workers are untouched; no consumer, thread count or topic set changes |
| KlungerboMaster.Launch | consumer/src/main/java/com/klungerbo/streams/pulsar/Main.java:24-30 | the master never holds a worker; a positive count ends in StackOverflowError |
| ProducerSettings.Lookup | producer/src/main/java/com/autostreams/pulsar/PulsarProducer.java:67-73 | the environment variable, else the producer property, which may be null |
| ProducerSettings.Convert | producer/src/main/java/com/autostreams/pulsar/PulsarProducer.java:83-170 | text and booleans never fail; numbers fail exactly when they do not parse and otherwise are the parsed value; enums succeed exactly for a constant name, which is the value |
| ProducerSettings.Build | producer/src/main/java/com/autostreams/pulsar/PulsarProducer.java:63-173 | a completed run holds exactly the table's keys; a failure is NumberFormatException, NullPointerException or IllegalArgumentException |
| ProducerSettings.KeysMember | producer/src/main/java/com/autostreams/pulsar/PulsarProducer.java:63-173 | every key a table puts belongs to one of its fields |
| ProducerSettings.BuildSucceeds | producer/src/main/java/com/autostreams/pulsar/PulsarProducer.java:63-173 | the puts complete iff no conversion throws, and then hold exactly the table's keys |
| ProducerSettings.BuildFailsAtFirst | producer/src/main/java/com/autostreams/pulsar/PulsarProducer.java:63-173 | a failure is the first throwing field's exception; every field before it converted |
| ProducerSettings.BuildValues | producer/src/main/java/com/autostreams/pulsar/PulsarProducer.java:63-173 | each key holds its own field's converted value |
| ProducerSettings.StreamsKeysDistinct | producer/src/main/java/com/autostreams/pulsar/producer/PulsarProducer.java:142-227 | the ten keys of the transform are distinct |
| ProducerSettings.BatchingKeysDistinct | producer/src/main/java/com/autostreams/pulsar/PulsarProducer.java:63-173 | the thirteen keys of the sanitize are distinct |
| ProducerSettings.TransformProducerPropertiesMap | producer/src/main/java/com/autostreams/pulsar/producer/PulsarProducer.java:142-227 | a completed transform holds ten settings; otherwise one of the three conversion exceptions |
| ProducerSettings.SanitizeProducerPropertiesMap | producer/src/main/java/com/autostreams/pulsar/PulsarProducer.java:63-173 | a completed sanitize holds thirteen settings; otherwise one of the three conversion exceptions |
| ProducerSettings.KeysCount | producer/src/main/java/com/autostreams/pulsar/PulsarProducer.java:63-173 | a table with distinct keys puts as many keys as it has fields |
| ProducerSettings.TransformKeys | producer/src/main/java/com/autostreams/pulsar/producer/PulsarProducer.java:142-227 | a completed transform holds exactly its ten keys |
| ProducerSettings.SanitizeKeys | producer/src/main/java/com/autostreams/pulsar/PulsarProducer.java:63-173 | a completed sanitize holds exactly its thirteen keys |
| ProducerSettings.TransformTextValues | producer/src/main/java/com/autostreams/pulsar/producer/PulsarProducer.java:146-176 | topic and producer names pass through, null included; the queue flag is a case-insensitive "true" |
| ProducerSettings.TransformParsedValues | producer/src/main/java/com/autostreams/pulsar/producer/PulsarProducer.java:162-224 | the send timeout and pending limit are the parsed texts; the compression type is an exact constant |
| ProducerSettings.TransformEnumValues | producer/src/main/java/com/autostreams/pulsar/producer/PulsarProducer.java:186-217 | the partition-wide pending limit is the parsed int; routing mode, hashing scheme and crypto failure action are exact constants |
| ProducerSettings.MissingSendTimeoutThrows | producer/src/main/java/com/autostreams/pulsar/producer/PulsarProducer.java:162-168 | a send timeout set nowhere makes the transform throw NumberFormatException |
| ProducerSettings.SanitizeBatchingValues | producer/src/main/java/com/autostreams/pulsar/PulsarProducer.java:139-162 | the publish delay is the parsed value in microseconds, saturated; the batch limit parsed; the flag never fails |
| ProducerSettings.SanitizeExtendsTransform | producer/src/main/java/com/autostreams/pulsar/PulsarProducer.java:63-173 | when sanitize completes, so does the transform, and they agree on its ten keys |
| ProducerSettings.BrokerUrl | producer/src/main/java/com/autostreams/pulsar/PulsarProducer.java:187-189 | `PULSAR_BROKER_URL`, else `pulsar.broker.url`, else `pulsar://127.0.0.1:6650` |
| ProducerSettings.ListenPort | producer/src/main/java/com/autostreams/pulsar/PulsarProducerLoader.java:26-75 | the port from the environment, else the file, else 8992; only NumberFormatException is thrown |
| ProducerSettings.ListenPortTiers | producer/src/main/java/com/autostreams/pulsar/PulsarProducerLoader.java:26-34 | any port in the environment wins; a port in the file is used when the environment has none; else 8992 |
| ProducerSettings.ListenPortRejects | producer/src/main/java/com/autostreams/pulsar/PulsarProducerLoader.java:39-41 | non-numeric port text throws, in either tier |
| StreamsProducer.PulsarProducer.constructor | producer/src/main/java/com/autostreams/pulsar/producer/PulsarProducer.java:38-39 | no client, no producer, nothing closed |
| StreamsProducer.PulsarProducer.EstablishConnection | producer/src/main/java/com/autostreams/pulsar/producer/PulsarProducer.java:102-119 | true iff the producer is created; a client built before a failed `create` is kept |
| StreamsProducer.PulsarProducer.ConnectToBroker | producer/src/main/java/com/autostreams/pulsar/producer/PulsarProducer.java:83-93 | connects iff some attempt creates the producer, stopping at the first such attempt, with that producer on the last client |
| StreamsProducer.PulsarProducer.Initialize | producer/src/main/java/com/autostreams/pulsar/producer/PulsarProducer.java:44-50 | a settings failure escapes before any attempt; otherwise returns iff some attempt creates the producer, with the URL and the settings |
| StreamsProducer.PulsarProducer.OnShutdown | producer/src/main/java/com/autostreams/pulsar/producer/PulsarProducer.java:260-271 | nothing without a producer; otherwise closes the producer, then the client unless the first close fails |
| BatchingProducer.PulsarProducer.constructor | producer/src/main/java/com/autostreams/pulsar/PulsarProducer.java:38-39 | no client, no producer, nothing closed |
| BatchingProducer.PulsarProducer.Initialize | producer/src/main/java/com/autostreams/pulsar/PulsarProducer.java:180-212 | a settings failure escapes unchanged; otherwise one attempt, answering true iff it creates the producer |
| BatchingProducer.PulsarProducer.OnShutdown | producer/src/main/java/com/autostreams/pulsar/PulsarProducer.java:229-238 | nothing without a producer; otherwise closes the producer, then the client unless the first close fails |
| ProducerLoader.PulsarProducerLoader.constructor | producer/src/main/java/com/autostreams/pulsar/PulsarProducerLoader.java:13 | the port starts at 0 |
| ProducerLoader.PulsarProducerLoader.LoadConfigurationVariables | producer/src/main/java/com/autostreams/pulsar/PulsarProducerLoader.java:26-75 | the port becomes the resolved listen port; bad text throws and leaves it |
| ProducerLoader.PulsarProducerLoader.CreateProducer | producer/src/main/java/com/autostreams/pulsar/PulsarProducerLoader.java:82-98 | a port failure escapes first; otherwise the producer is returned iff an attempt creates it, connected to the URL with the settings |
| ProducerLoader.InitializeUntilTrue | producer/src/main/java/com/autostreams/pulsar/PulsarProducerLoader.java:85-97 | the first settings failure escapes at the first call; otherwise retries until the first attempt that creates the producer |
| PrototypeProducer.InitializeAnswer | producer/src/main/java/com/klungerbo/streams/pulsar/PulsarPrototypeProducer.java:202-237 | false iff a file cannot be loaded; true iff both load and the settings convert, whatever the connection does |
| PrototypeProducer.PulsarPrototypeProducer.constructor | producer/src/main/java/com/klungerbo/streams/pulsar/PulsarPrototypeProducer.java:39-40 | no client, no producer, nothing closed |
| PrototypeProducer.PulsarPrototypeProducer.Initialize | producer/src/main/java/com/klungerbo/streams/pulsar/PulsarPrototypeProducer.java:202-237 | answers as stated; nothing changes unless true; the client and producer follow the single attempt |
| PrototypeProducer.PulsarPrototypeProducer.OnShutdown | producer/src/main/java/com/klungerbo/streams/pulsar/PulsarPrototypeProducer.java:254-263 | nothing without a producer; otherwise closes the producer, then the client unless the first close fails |
| PrototypeMain.CallAt | producer/src/main/java/com/klungerbo/streams/pulsar/Main.java:27 | past the script both loads fail |
| PrototypeMain.CallCount | producer/src/main/java/com/klungerbo/streams/pulsar/Main.java:23-44 | at least one call and at most 101 |
| PrototypeMain.CallCountBounds | producer/src/main/java/com/klungerbo/streams/pulsar/Main.java:27-44 | every call before the last answered false; the last did not, unless it is the 101st |
| PrototypeMain.FirstAnswerWins | producer/src/main/java/com/klungerbo/streams/pulsar/Main.java:27 | the first call within the first 100 that does not answer false is the last |
| PrototypeMain.AllFalseGivesUp | producer/src/main/java/com/klungerbo/streams/pulsar/Main.java:27-44 | when the first 100 answer false, exactly 101 calls are made |
| PrototypeMain.LateSuccessIsFailure | producer/src/main/java/com/klungerbo/streams/pulsar/Main.java:47-54 | a success only on the 101st call still ends without a receiver |
| PrototypeMain.SuccessWithinBound | producer/src/main/java/com/klungerbo/streams/pulsar/Main.java:56-61 | a success on call m ≤ 100 runs the receiver after m calls |
| PrototypeMain.Launch | producer/src/main/java/com/klungerbo/streams/pulsar/Main.java:20-63 | the calls made, one sleep fewer, an escaping exception, and whether the receiver runs |
| ReceiverCreator.DataReceiverCreator.constructor | producer/src/main/java/com/autostreams/pulsar/receiver/DataReceiverCreator.java:15-20 | the port starts at 0 |
| ReceiverCreator.DataReceiverCreator.LoadConfigurationVariables | producer/src/main/java/com/autostreams/pulsar/receiver/DataReceiverCreator.java:46-95 | the port becomes the resolved listen port; bad text throws and leaves it |
| ReceiverCreator.DataReceiverCreator.CreateReceiver | producer/src/main/java/com/autostreams/pulsar/receiver/DataReceiverCreator.java:29-34 | a receiver for the server on the resolved port, or the port's exception |
| Endpoint.TierOf | data-provider/src/main/java/com/autostreams/dataprovider/Main.java:38-81 | the environment iff it names both; the file iff it names both and the environment does not |
| Endpoint.AddressOf | data-provider/src/main/java/com/autostreams/dataprovider/Main.java:38-93 | the chosen tier's host and parsed port, NumberFormatException, or 127.0.0.1:8992 |
| Endpoint.AddressTiers | example/data-provider/src/main/java/com/autostreams/pulsar/dataprovider/DataProvider.java:57-117 | a host and port written in one tier come back together; the environment wins |
| Endpoint.PartialTierIgnored | data-provider/src/main/java/com/autostreams/dataprovider/Main.java:38-81 | a tier naming only one of host and port is ignored as a whole; with neither tier complete the address is 127.0.0.1:8992 |
| Endpoint.PortRejects | example/data-provider/src/main/java/com/autostreams/pulsar/dataprovider/DataProvider.java:85-88 | a non-numeric port throws, in either tier |
| DataProviderMain.DataProviderMain.constructor | data-provider/src/main/java/com/autostreams/dataprovider/Main.java:21-22 | host and port start out null |
| DataProviderMain.DataProviderMain.SetValues | data-provider/src/main/java/com/autostreams/dataprovider/Main.java:38-93 | host and port from one tier or the defaults; a bad port throws after the host was set |
| DataProvider.Interval | example/data-provider/src/main/java/com/autostreams/pulsar/dataprovider/DataProvider.java:194-200 | the largest whole number of milliseconds that `rate` pauses fit in a second |
| DataProvider.Lines | example/data-provider/src/main/java/com/autostreams/pulsar/dataprovider/DataProvider.java:207-211 | every message with its line terminator, in order |
| DataProvider.DataProvider.constructor | example/data-provider/src/main/java/com/autostreams/pulsar/dataprovider/DataProvider.java:35-44 | the field initializers: 127.0.0.1, 8992, running, one message per second |
| DataProvider.DataProvider.SetValues | example/data-provider/src/main/java/com/autostreams/pulsar/dataprovider/DataProvider.java:57-117 | one tier's host and port; with neither, they stay; a bad port throws after the host was set |
| DataProvider.DataProvider.TryToConnect | example/data-provider/src/main/java/com/autostreams/pulsar/dataprovider/DataProvider.java:145-161 | true at the first attempt that connects, storing its channel; false at an interrupt; retrying through failures |
| DataProvider.DataProvider.SendMessageToReceiver | example/data-provider/src/main/java/com/autostreams/pulsar/dataprovider/DataProvider.java:207-211 | appends the line when there is a channel |
| DataProvider.DataProvider.Run | example/data-provider/src/main/java/com/autostreams/pulsar/dataprovider/DataProvider.java:194-200 | a running provider writes every message as a line, in order, and pauses one interval after each |
| DataProvider.DataProvider.SetMessagesPerSecond | example/data-provider/src/main/java/com/autostreams/pulsar/dataprovider/DataProvider.java:219-225 | a non-positive rate throws IllegalArgumentException and keeps the rate |
| DataProvider.DataProvider.Shutdown | example/data-provider/src/main/java/com/autostreams/pulsar/dataprovider/DataProvider.java:230-258 | stops; closes the channel, then the group, each only when present; a second call releases nothing |

## Left out

- The `StreamsServer` interface is not modelled as a Dafny type. Each master and producer has its own `OnMessage` / `OnShutdown`.
- The producers' `onMessage` (`sendAsync`) is not part of this model. It hands a message to the Pulsar library, and the model holds no message queue.
- The Pulsar client library is not modelled, so none of its internal behaviour is either. These are inputs:
  - whether building a client, subscribing, creating a producer or closing one fails;
  - what the broker does in each pass of a receive loop.
- Netty is not modelled. Connection attempts are inputs. `setUpBootstrapGroup`, `DataProducerInitializer`, `initialize` (bootstrap setup followed by `tryToConnect`), `main` and `fromHostAndPort` of the data provider are not part of this model.
- The random lorem-ipsum text is not modelled: `DataProvider.DataProvider.Run` takes the messages as a parameter.
- Files are not modelled as I/O.
  - `FileUtils` is not part of this model. The environment and each properties file are map parameters, and a file that fails to load is `None` where the code catches that.
  - The consumer worker and master, `PulsarProducerLoader` and `DataReceiverCreator` read their file (`config.properties` for the two loaders) anew on every call. The model passes the same contents each time, and one `config` map serves both loaders.
- `convertPropertiesToMap` is not modelled, because it is the identity on string maps.
- Threads, sleeps and logging are not modelled.
  - A thread start is counted; the thread body is `Run`, called separately.
  - A sleep is a step of a script.
  - A log call has no effect.
  - The interrupt flag is not modelled; see the two lines on DataProvider below.
- Apache Commons CLI is not modelled: its parse result is a `CommandLine` input.
- DataProvider.DataProvider.constructor: stops at the field initializers. The public constructor's call to `setValues` is `SetValues`, made separately.
- DataProvider.DataProvider.Run: covers the first `|messages|` passes of the endless loop.
- Worker.ConsumerWorker.Run: a `close` that unblocks a pending `receive` from another thread appears only as a stop request in the script.
- Worker.ConsumerWorker.Run: ends at the end of the script, reported as `ScriptEnded`, where the Java loop would keep receiving.
- Worker.ConsumerWorker.Run and KlungerboWorker.ConsumerWorker.Run: `negativeAcknowledge(null)` after a failed receive is recorded as a call. What the library then does with a null message is not part of this model.
- KlungerboWorker.ConsumerWorker.Initialize: the unbounded mutual recursion with `start` is bounded by a stack-depth parameter. Every depth is proved to end in StackOverflowError.
- ProducerLoader.InitializeUntilTrue, StreamsProducer.PulsarProducer.Initialize and DataProvider.DataProvider.TryToConnect: a retry loop that outlives its script is reported as still retrying, not as running forever.
- PrototypeMain.CallAt: calls past the end of the script are taken to be failed loads.
- Java.ParseBoolean, via `EqualsIgnoreCase`: letter case is folded for ASCII only.
- ParseDecimal (Java.ParseDecimal): only the ASCII digits `0`-`9` are accepted. `Character.digit(c, 10)` also accepts every other Unicode decimal digit (Arabic-Indic, Devanagari, fullwidth and so on); text with such digits is rejected by the model, where Java parses it.
- ParseInt (Java.ParseInt): inherits the ASCII-only digits of `Java.ParseDecimal`, so `Integer.parseInt` of text with other Unicode decimal digits is not modelled.
- ParseLong (Java.ParseLong): inherits the ASCII-only digits of `Java.ParseDecimal`, so `Long.parseLong` of text with other Unicode decimal digits is not modelled.
- PutVariableToResult (PropertyLoader.ConsumerPropertyLoader.PutVariableToResult): the result map holds the contents of the topic set at the time of the call. Java stores the loader's live `HashSet`, so a map returned earlier also sees topics added by later calls; that aliasing is not modelled.
- AsMap (Worker.AsMap): `topicNames` holds the contents of the worker's topic set, not the live `HashSet` the Java map shares with the worker; aliasing is not modelled.
- KlungerboWorker.ConsumerProperties: like `Worker.AsMap`, `topicNames` holds the contents of the worker's topic set, not the live `HashSet`; aliasing is not modelled.
- DataProvider.DataProvider.TryToConnect: the interrupt flag is not modelled. After an interrupted backoff sleep the Java code sets the flag again, so the next connection attempt's `sync()` can throw InterruptedException and end the loop with false. The model instead lets the next attempt follow its script.
- DataProvider.DataProvider.Run: the interrupt flag is not modelled. After one interrupted pause the flag stays set, so every later `TimeUnit.sleep` throws at once and the remaining pauses are skipped. The model counts a pause after every message.
- Master.ConsumerMaster.Init: states each new worker's subscription host, not the configuration it subscribed with (that is stated by Worker.ConsumerWorker.Initialize).
