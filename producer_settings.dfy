/**
 * The settings the producers hand to the Pulsar producer builder
 * (`loadConf`), and the two single-value tiers of the producer side: the
 * broker URL and the listen port.
 *
 * Every producer builds its settings map by a fixed run of `put` calls. The
 * value of each put is the environment variable if set, else the entry of
 * the producer properties file (possibly null), converted by a parser.
 * The first conversion that throws ends the run, and the exception escapes
 * to the caller. The run is modelled once, over a table of fields
 * (`Build`); the three producers differ only in their tables.
 */
module ProducerSettings {
  import opened Java

  /**
   * The constant names of the four Pulsar library enums read by `valueOf`.
   * The library is not part of this model, so the names are an input.
   */
  datatype PulsarEnums = PulsarEnums(routingModes: seq<string>, hashingSchemes: seq<string>,
                                     cryptoFailureActions: seq<string>, compressionTypes: seq<string>)

  /** How the text of a setting becomes the value put in the map. */
  datatype Conversion =
    | AsText                          // the string itself, null included
    | LongValue                       // Long.parseLong
    | IntValue                        // Integer.parseInt
    | BooleanValue                    // Boolean.parseBoolean
    | EnumValue(constants: seq<string>)  // E.valueOf
    | MillisAsMicros                  // TimeUnit.MILLISECONDS.toMicros(Long.parseLong(s))

  /** One `put`: the map key (also the property name), the environment name, the conversion. */
  datatype Field = Field(key: string, envName: string, conversion: Conversion)

  /** A value of the settings map (`Map<String, Object>`). */
  datatype Setting = Text(text: JString) | Number(number: int) | Flag(flag: bool) | Constant(name: string)

  /** `System.getenv().getOrDefault(envName, producerPropertiesMap.get(key))`. */
  function Lookup(env: map<string, string>, props: map<string, string>, field: Field): (s: JString)
    ensures field.envName in env ==> s == Some(env[field.envName])
    ensures field.envName !in env ==> s == Get(props, field.key)
  {
    GetOrDefault(env, field.envName, Get(props, field.key))
  }

  /**
   * Converting the text of one setting. Plain text and booleans never fail;
   * the numbers throw NumberFormatException on null or bad text; an enum
   * throws unless the text names a constant exactly.
   */
  function Convert(conversion: Conversion, s: JString): (r: Result<Setting>)
    ensures conversion.AsText? ==> r == Ok(Text(s))
    ensures conversion.BooleanValue? ==> r == Ok(Flag(ParseBoolean(s)))
    ensures conversion.LongValue? || conversion.MillisAsMicros? ==> (r.Ok? <==> ParseLong(s).Ok?)
    ensures conversion.IntValue? ==> (r.Ok? <==> ParseInt(s).Ok?)
    ensures conversion.LongValue? && r.Ok? ==> r.value == Number(ParseLong(s).value)
    ensures conversion.IntValue? && r.Ok? ==> r.value == Number(ParseInt(s).value)
    ensures conversion.MillisAsMicros? && r.Ok? ==> r.value == Number(MillisToMicros(ParseLong(s).value))
    ensures conversion.EnumValue? && r.Ok? ==> s.Some? && r.value == Constant(s.value)
    ensures !conversion.EnumValue? && r.Throws? ==> r.exception == NumberFormat
    ensures conversion.EnumValue? ==> (r.Ok? <==> s.Some? && s.value in conversion.constants)
    ensures conversion.EnumValue? && s.None? ==> r == Throws(NullPointer)
  {
    match conversion
    case AsText => Ok(Text(s))
    case BooleanValue => Ok(Flag(ParseBoolean(s)))
    case LongValue =>
      var n := ParseLong(s);
      if n.Ok? then Ok(Number(n.value)) else Throws(n.exception)
    case IntValue =>
      var n := ParseInt(s);
      if n.Ok? then Ok(Number(n.value)) else Throws(n.exception)
    case MillisAsMicros =>
      var n := ParseLong(s);
      if n.Ok? then Ok(Number(MillisToMicros(n.value))) else Throws(n.exception)
    case EnumValue(constants) =>
      var e := ValueOf(constants, s);
      if e.Ok? then Ok(Constant(e.value)) else Throws(e.exception)
  }

  /** The value one field contributes, or what its conversion throws. */
  function Resolved(env: map<string, string>, props: map<string, string>, field: Field): Result<Setting>
  {
    Convert(field.conversion, Lookup(env, props, field))
  }

  /**
   * The map built by putting the fields in order; the first field whose
   * conversion throws ends the run with its exception.
   */
  function Build(fields: seq<Field>, env: map<string, string>, props: map<string, string>)
    : (r: Result<map<string, Setting>>)
    ensures r.Ok? ==> r.value.Keys == Keys(fields)
    ensures r.Throws? ==> r.exception in ConversionExceptions
  {
    if fields == [] then Ok(map[])
    else
      var front := Build(fields[..|fields| - 1], env, props);
      var last := fields[|fields| - 1];
      if front.Throws? then front
      else
        var v := Resolved(env, props, last);
        if v.Throws? then Throws(v.exception) else Ok(front.value[last.key := v.value])
  }

  /** The exceptions a conversion can throw. */
  const ConversionExceptions: set<Exception> := {NumberFormat, NullPointer, IllegalArgument}

  /** The keys a table puts. */
  function Keys(fields: seq<Field>): set<string>
  {
    if fields == [] then {} else Keys(fields[..|fields| - 1]) + {fields[|fields| - 1].key}
  }

  /** Every key of a table is the key of one of its fields. */
  lemma {:induction false} KeysMember(fields: seq<Field>, k: string)
    requires k in Keys(fields)
    ensures exists i :: 0 <= i < |fields| && fields[i].key == k
  {
    var front := fields[..|fields| - 1];
    if k in Keys(front) {
      KeysMember(front, k);
      var i :| 0 <= i < |front| && front[i].key == k;
      assert fields[i].key == k;
    } else {
      assert fields[|fields| - 1].key == k;
    }
  }

  predicate DistinctKeys(fields: seq<Field>)
  {
    forall i, j :: 0 <= i < j < |fields| ==> fields[i].key != fields[j].key
  }

  /** The run completes exactly when no field's conversion throws, and then puts exactly the table's keys. */
  lemma {:induction false} BuildSucceeds(fields: seq<Field>, env: map<string, string>, props: map<string, string>)
    ensures Build(fields, env, props).Ok? <==> forall i :: 0 <= i < |fields| ==> Resolved(env, props, fields[i]).Ok?
    ensures Build(fields, env, props).Ok? ==> Build(fields, env, props).value.Keys == Keys(fields)
  {
    if fields != [] {
      var front := fields[..|fields| - 1];
      BuildSucceeds(front, env, props);
      assert forall i :: 0 <= i < |front| ==> front[i] == fields[i];
    }
  }

  /**
   * When the run fails, the exception is that of the first field whose
   * conversion throws; every field before it converted.
   */
  lemma {:induction false} BuildFailsAtFirst(fields: seq<Field>, env: map<string, string>, props: map<string, string>)
    requires Build(fields, env, props).Throws?
    ensures exists i :: 0 <= i < |fields| && Resolved(env, props, fields[i]) == Throws(Build(fields, env, props).exception)
                        && forall j :: 0 <= j < i ==> Resolved(env, props, fields[j]).Ok?
  {
    var front := fields[..|fields| - 1];
    assert forall i :: 0 <= i < |front| ==> front[i] == fields[i];
    if Build(front, env, props).Throws? {
      BuildFailsAtFirst(front, env, props);
      var i :| 0 <= i < |front| && Resolved(env, props, front[i]) == Throws(Build(front, env, props).exception)
                && forall j :: 0 <= j < i ==> Resolved(env, props, front[j]).Ok?;
      assert Resolved(env, props, fields[i]) == Throws(Build(fields, env, props).exception);
    } else {
      BuildSucceeds(front, env, props);
      var i := |fields| - 1;
      assert Resolved(env, props, fields[i]) == Throws(Build(fields, env, props).exception);
    }
  }

  /** With distinct keys, each key of a completed run holds its own field's converted value. */
  lemma {:induction false} BuildValues(fields: seq<Field>, env: map<string, string>, props: map<string, string>)
    requires DistinctKeys(fields)
    requires Build(fields, env, props).Ok?
    ensures forall i :: 0 <= i < |fields| ==>
              fields[i].key in Build(fields, env, props).value
              && Ok(Build(fields, env, props).value[fields[i].key]) == Resolved(env, props, fields[i])
  {
    if fields != [] {
      var front := fields[..|fields| - 1];
      assert forall i :: 0 <= i < |front| ==> front[i] == fields[i];
      assert DistinctKeys(front);
      BuildValues(front, env, props);
    }
  }

  // ---------------------------------------------------------------------
  // The producers' tables

  /*
   * The map keys (which are also the property names) and the environment
   * names of the puts, in table order.
   */
  const TopicName: string := "topicName"
  const TopicNameEnv: string := "TOPIC_NAME"
  const ProducerName: string := "producerName"
  const ProducerNameEnv: string := "PRODUCER_NAME"
  const SendTimeoutMs: string := "sendTimeoutMs"
  const SendTimeoutMsEnv: string := "SEND_TIMEOUT_MS"
  const BlockIfQueueFull: string := "blockIfQueueFull"
  const BlockIfQueueFullEnv: string := "BLOCK_IF_QUEUE_FULL"
  const MaxPendingMessages: string := "maxPendingMessages"
  const MaxPendingMessagesEnv: string := "MAX_PENDING_MESSAGES"
  const MaxPendingMessagesAcrossPartitions: string := "maxPendingMessagesAcrossPartitions"
  const MaxPendingMessagesAcrossPartitionsEnv: string := "MAX_PENDING_MESSAGES_ACROSS_PARTITIONS"
  const MessageRoutingMode: string := "messageRoutingMode"
  const MessageRoutingModeEnv: string := "MESSAGE_ROUTING_MODE"
  const HashingScheme: string := "hashingScheme"
  const HashingSchemeEnv: string := "HASHING_SCHEME"
  const CryptoFailureAction: string := "cryptoFailureAction"
  const CryptoFailureActionEnv: string := "CRYPTO_FAILURE_ACTION"
  const BatchingMaxPublishDelayMicros: string := "batchingMaxPublishDelayMicros"
  const BatchingMaxPublishDelayMicrosEnv: string := "BATCHING_MAX_PUBLISH_DELAY_MICROS"
  const BatchingMaxMessages: string := "batchingMaxMessages"
  const BatchingMaxMessagesEnv: string := "BATCHING_MAX_MESSAGES"
  const BatchingEnabled: string := "batchingEnabled"
  const BatchingEnabledEnv: string := "BATCHING_ENABLED"
  const CompressionType: string := "compressionType"
  const CompressionTypeEnv: string := "COMPRESSION_TYPE"

  /** The nine puts both tables start with, in order. */
  function CommonFields(enums: PulsarEnums): seq<Field>
  {
    [ Field(TopicName, TopicNameEnv, AsText),
      Field(ProducerName, ProducerNameEnv, AsText),
      Field(SendTimeoutMs, SendTimeoutMsEnv, LongValue),
      Field(BlockIfQueueFull, BlockIfQueueFullEnv, BooleanValue),
      Field(MaxPendingMessages, MaxPendingMessagesEnv, IntValue),
      Field(MaxPendingMessagesAcrossPartitions, MaxPendingMessagesAcrossPartitionsEnv, IntValue),
      Field(MessageRoutingMode, MessageRoutingModeEnv, EnumValue(enums.routingModes)),
      Field(HashingScheme, HashingSchemeEnv, EnumValue(enums.hashingSchemes)),
      Field(CryptoFailureAction, CryptoFailureActionEnv, EnumValue(enums.cryptoFailureActions)) ]
  }

  function Compression(enums: PulsarEnums): Field
  {
    Field(CompressionType, CompressionTypeEnv, EnumValue(enums.compressionTypes))
  }

  /** The ten puts of `transformProducerPropertiesMap` (the producer without batching). */
  function StreamsFields(enums: PulsarEnums): seq<Field>
  {
    CommonFields(enums) + [Compression(enums)]
  }

  /** The three batching puts that `sanitizeProducerPropertiesMap` adds before the compression type. */
  const BatchingExtras: seq<Field> :=
    [ Field(BatchingMaxPublishDelayMicros, BatchingMaxPublishDelayMicrosEnv, MillisAsMicros),
      Field(BatchingMaxMessages, BatchingMaxMessagesEnv, IntValue),
      Field(BatchingEnabled, BatchingEnabledEnv, BooleanValue) ]

  /** The thirteen puts of `sanitizeProducerPropertiesMap` (both batching producers). */
  function BatchingFields(enums: PulsarEnums): seq<Field>
  {
    CommonFields(enums) + BatchingExtras + [Compression(enums)]
  }

  lemma StreamsKeysDistinct(enums: PulsarEnums)
    ensures DistinctKeys(StreamsFields(enums))
  {
  }

  lemma BatchingKeysDistinct(enums: PulsarEnums)
    ensures DistinctKeys(BatchingFields(enums))
  {
  }

  /**
   * `transformProducerPropertiesMap`: ten settings, or the exception of
   * the first conversion that throws.
   */
  function TransformProducerPropertiesMap(env: map<string, string>, props: map<string, string>, enums: PulsarEnums)
    : (r: Result<map<string, Setting>>)
    ensures r.Ok? ==> |r.value| == 10
    ensures r.Throws? ==> r.exception in ConversionExceptions
  {
    StreamsKeysDistinct(enums);
    KeysCount(StreamsFields(enums));
    Build(StreamsFields(enums), env, props)
  }

  /**
   * `sanitizeProducerPropertiesMap`: thirteen settings, or the exception of
   * the first conversion that throws.
   */
  function SanitizeProducerPropertiesMap(env: map<string, string>, props: map<string, string>, enums: PulsarEnums)
    : (r: Result<map<string, Setting>>)
    ensures r.Ok? ==> |r.value| == 13
    ensures r.Throws? ==> r.exception in ConversionExceptions
  {
    BatchingKeysDistinct(enums);
    KeysCount(BatchingFields(enums));
    Build(BatchingFields(enums), env, props)
  }

  /** A table with distinct keys puts as many keys as it has fields. */
  lemma {:induction false} KeysCount(fields: seq<Field>)
    requires DistinctKeys(fields)
    ensures |Keys(fields)| == |fields|
  {
    if fields != [] {
      var front := fields[..|fields| - 1];
      var last := fields[|fields| - 1];
      assert DistinctKeys(front);
      KeysCount(front);
      if last.key in Keys(front) {
        KeysMember(front, last.key);
        assert false;
      }
    }
  }

  /** A completed transform holds exactly the ten keys of its table, whatever the inputs. */
  lemma TransformKeys(env: map<string, string>, props: map<string, string>, enums: PulsarEnums)
    ensures TransformProducerPropertiesMap(env, props, enums).Ok? ==>
              TransformProducerPropertiesMap(env, props, enums).value.Keys == Keys(StreamsFields(enums))
              && |TransformProducerPropertiesMap(env, props, enums).value| == 10
  {
    BuildSucceeds(StreamsFields(enums), env, props);
    StreamsKeysDistinct(enums);
    KeysCount(StreamsFields(enums));
  }

  /** A completed sanitize holds exactly the thirteen keys of its table. */
  lemma SanitizeKeys(env: map<string, string>, props: map<string, string>, enums: PulsarEnums)
    ensures SanitizeProducerPropertiesMap(env, props, enums).Ok? ==>
              SanitizeProducerPropertiesMap(env, props, enums).value.Keys == Keys(BatchingFields(enums))
              && |SanitizeProducerPropertiesMap(env, props, enums).value| == 13
  {
    BuildSucceeds(BatchingFields(enums), env, props);
    BatchingKeysDistinct(enums);
    KeysCount(BatchingFields(enums));
  }

  /**
   * The text settings of the transform are passed on as they resolve,
   * null included, and the queue flag is a case-insensitive "true".
   */
  lemma TransformTextValues(env: map<string, string>, props: map<string, string>, enums: PulsarEnums)
    requires TransformProducerPropertiesMap(env, props, enums).Ok?
    ensures var m := TransformProducerPropertiesMap(env, props, enums).value;
            && TopicName in m && m[TopicName] == Text(GetOrDefault(env, TopicNameEnv, Get(props, TopicName)))
            && ProducerName in m && m[ProducerName] == Text(GetOrDefault(env, ProducerNameEnv, Get(props, ProducerName)))
            && BlockIfQueueFull in m
            && m[BlockIfQueueFull] == Flag(ParseBoolean(GetOrDefault(env, BlockIfQueueFullEnv, Get(props, BlockIfQueueFull))))
  {
    var fields := StreamsFields(enums);
    StreamsKeysDistinct(enums);
    BuildValues(fields, env, props);
    assert fields[0].key == TopicName && fields[1].key == ProducerName && fields[3].key == BlockIfQueueFull;
  }

  /**
   * The numbers of the transform are the parsed texts (a long for the send
   * timeout, an int for the pending limit), and the compression type names
   * one of the library's constants exactly.
   */
  lemma TransformParsedValues(env: map<string, string>, props: map<string, string>, enums: PulsarEnums)
    requires TransformProducerPropertiesMap(env, props, enums).Ok?
    ensures var m := TransformProducerPropertiesMap(env, props, enums).value;
            var timeout := ParseLong(GetOrDefault(env, SendTimeoutMsEnv, Get(props, SendTimeoutMs)));
            var pending := ParseInt(GetOrDefault(env, MaxPendingMessagesEnv, Get(props, MaxPendingMessages)));
            var compression := GetOrDefault(env, CompressionTypeEnv, Get(props, CompressionType));
            && SendTimeoutMs in m && timeout.Ok? && m[SendTimeoutMs] == Number(timeout.value)
            && MaxPendingMessages in m && pending.Ok? && m[MaxPendingMessages] == Number(pending.value)
            && CompressionType in m && compression.Some? && compression.value in enums.compressionTypes
            && m[CompressionType] == Constant(compression.value)
  {
    var fields := StreamsFields(enums);
    StreamsKeysDistinct(enums);
    BuildValues(fields, env, props);
    assert fields[2].key == SendTimeoutMs && fields[4].key == MaxPendingMessages && fields[9].key == CompressionType;
  }

  /**
   * The partition-wide pending limit is the parsed int, and the routing
   * mode, hashing scheme and crypto failure action each name one of their
   * enum's constants exactly.
   */
  lemma TransformEnumValues(env: map<string, string>, props: map<string, string>, enums: PulsarEnums)
    requires TransformProducerPropertiesMap(env, props, enums).Ok?
    ensures var m := TransformProducerPropertiesMap(env, props, enums).value;
            var across := ParseInt(GetOrDefault(env, MaxPendingMessagesAcrossPartitionsEnv,
                                                Get(props, MaxPendingMessagesAcrossPartitions)));
            var routing := GetOrDefault(env, MessageRoutingModeEnv, Get(props, MessageRoutingMode));
            var hashing := GetOrDefault(env, HashingSchemeEnv, Get(props, HashingScheme));
            var crypto := GetOrDefault(env, CryptoFailureActionEnv, Get(props, CryptoFailureAction));
            && MaxPendingMessagesAcrossPartitions in m && across.Ok?
            && m[MaxPendingMessagesAcrossPartitions] == Number(across.value)
            && MessageRoutingMode in m && routing.Some? && routing.value in enums.routingModes
            && m[MessageRoutingMode] == Constant(routing.value)
            && HashingScheme in m && hashing.Some? && hashing.value in enums.hashingSchemes
            && m[HashingScheme] == Constant(hashing.value)
            && CryptoFailureAction in m && crypto.Some? && crypto.value in enums.cryptoFailureActions
            && m[CryptoFailureAction] == Constant(crypto.value)
  {
    var fields := StreamsFields(enums);
    StreamsKeysDistinct(enums);
    BuildValues(fields, env, props);
    assert fields[5].key == MaxPendingMessagesAcrossPartitions && fields[6].key == MessageRoutingMode;
    assert fields[7].key == HashingScheme && fields[8].key == CryptoFailureAction;
  }

  /**
   * A send timeout missing from both the environment and the properties
   * file makes the transform throw NumberFormatException: the two text
   * settings before it cannot fail, so it is the first failure.
   */
  lemma MissingSendTimeoutThrows(env: map<string, string>, props: map<string, string>, enums: PulsarEnums)
    requires SendTimeoutMsEnv !in env && SendTimeoutMs !in props
    ensures TransformProducerPropertiesMap(env, props, enums) == Throws(NumberFormat)
  {
    var fields := StreamsFields(enums);
    assert !Resolved(env, props, fields[2]).Ok?;
    BuildSucceeds(fields, env, props);
    BuildFailsAtFirst(fields, env, props);
    var i :| 0 <= i < |fields| && Resolved(env, props, fields[i]) == Throws(Build(fields, env, props).exception)
              && forall j :: 0 <= j < i ==> Resolved(env, props, fields[j]).Ok?;
    assert i == 2;
  }

  /**
   * The publish delay of the batching producers is the parsed value times
   * 1000, saturated at the 64-bit bounds; the batching flag never fails.
   */
  lemma SanitizeBatchingValues(env: map<string, string>, props: map<string, string>, enums: PulsarEnums)
    requires SanitizeProducerPropertiesMap(env, props, enums).Ok?
    ensures var m := SanitizeProducerPropertiesMap(env, props, enums).value;
            var delay := ParseLong(GetOrDefault(env, BatchingMaxPublishDelayMicrosEnv, Get(props, BatchingMaxPublishDelayMicros)));
            var maxMessages := ParseInt(GetOrDefault(env, BatchingMaxMessagesEnv, Get(props, BatchingMaxMessages)));
            && BatchingMaxPublishDelayMicros in m && delay.Ok?
            && m[BatchingMaxPublishDelayMicros] == Number(MillisToMicros(delay.value))
            && BatchingEnabled in m
            && m[BatchingEnabled] == Flag(ParseBoolean(GetOrDefault(env, BatchingEnabledEnv, Get(props, BatchingEnabled))))
            && BatchingMaxMessages in m && maxMessages.Ok? && m[BatchingMaxMessages] == Number(maxMessages.value)
  {
    var fields := BatchingFields(enums);
    BatchingKeysDistinct(enums);
    BuildValues(fields, env, props);
    assert fields[9].key == BatchingMaxPublishDelayMicros && fields[10].key == BatchingMaxMessages;
    assert fields[11].key == BatchingEnabled;
  }

  /**
   * Whenever the batching producers' sanitize completes, the transform of
   * the producer without batching completes on the same inputs, and the
   * sanitized map agrees with it on all ten of its keys.
   */
  lemma SanitizeExtendsTransform(env: map<string, string>, props: map<string, string>, enums: PulsarEnums)
    requires SanitizeProducerPropertiesMap(env, props, enums).Ok?
    ensures TransformProducerPropertiesMap(env, props, enums).Ok?
    ensures forall k :: k in TransformProducerPropertiesMap(env, props, enums).value ==>
              k in SanitizeProducerPropertiesMap(env, props, enums).value
              && SanitizeProducerPropertiesMap(env, props, enums).value[k] == TransformProducerPropertiesMap(env, props, enums).value[k]
  {
    var streams, batching := StreamsFields(enums), BatchingFields(enums);
    assert forall i :: 0 <= i < 9 ==> streams[i] == batching[i];
    assert streams[9] == batching[12];
    BuildSucceeds(batching, env, props);
    BuildSucceeds(streams, env, props);
    StreamsKeysDistinct(enums);
    BatchingKeysDistinct(enums);
    BuildValues(streams, env, props);
    BuildValues(batching, env, props);
    var t := TransformProducerPropertiesMap(env, props, enums).value;
    forall k | k in t
      ensures k in SanitizeProducerPropertiesMap(env, props, enums).value
      ensures SanitizeProducerPropertiesMap(env, props, enums).value[k] == t[k]
    {
      KeysMember(streams, k);
      var i :| 0 <= i < |streams| && streams[i].key == k;
      var j := if i < 9 then i else 12;
      assert batching[j] == streams[i];
    }
  }

  // ---------------------------------------------------------------------
  // Single-value tiers

  const BrokerUrlEnv: string := "PULSAR_BROKER_URL"
  const BrokerUrlProperty: string := "pulsar.broker.url"
  const DefaultBrokerUrl: string := "pulsar://127.0.0.1:6650"

  /**
   * The broker URL: `PULSAR_BROKER_URL` from the environment, else
   * `pulsar.broker.url` from `config.properties`, else the local broker.
   */
  function BrokerUrl(env: map<string, string>, config: map<string, string>): (url: string)
    ensures BrokerUrlEnv in env ==> url == env[BrokerUrlEnv]
    ensures BrokerUrlEnv !in env && BrokerUrlProperty in config ==> url == config[BrokerUrlProperty]
    ensures BrokerUrlEnv !in env && BrokerUrlProperty !in config ==> url == DefaultBrokerUrl
  {
    Resolve(env, BrokerUrlEnv, config, BrokerUrlProperty, DefaultBrokerUrl)
  }

  const ListenPortKey: string := "listen.port"
  const DefaultListenPort: int := 8992

  /**
   * The port the producer's data receiver listens on: `listen.port` from
   * the environment, else from `config.properties`, else 8992. Whichever
   * tier holds the key is parsed as an int, and bad text throws.
   */
  function ListenPort(env: map<string, string>, config: map<string, string>): (r: Result<int>)
    ensures r.Throws? ==> r.exception == NumberFormat
  {
    if ListenPortKey in env then ParseInt(Some(env[ListenPortKey]))
    else if ListenPortKey in config then ParseInt(Some(config[ListenPortKey]))
    else Ok(DefaultListenPort)
  }

  /**
   * Exactly one tier decides the port, the environment first: any port
   * written in the environment wins whatever the file says, any port
   * written in the file is used when the environment has none, and with
   * neither the default applies.
   */
  lemma ListenPortTiers(env: map<string, string>, config: map<string, string>, port: int)
    requires IntMin <= port <= IntMax
    ensures ListenPort(env[ListenPortKey := DecimalString(port)], config) == Ok(port)
    ensures ListenPortKey !in env ==> ListenPort(env, config[ListenPortKey := DecimalString(port)]) == Ok(port)
    ensures ListenPortKey !in env && ListenPortKey !in config ==> ListenPort(env, config) == Ok(DefaultListenPort)
  {
    ParseIntRoundTrip(port);
  }

  /** A port text with a character that is neither a digit nor a leading sign throws, in either tier. */
  lemma ListenPortRejects(env: map<string, string>, config: map<string, string>, text: string, i: nat)
    requires i < |text| && !IsDigit(text[i])
    requires i == 0 ==> text[i] != '-' && text[i] != '+'
    ensures ListenPort(env[ListenPortKey := text], config) == Throws(NumberFormat)
    ensures ListenPortKey !in env ==> ListenPort(env, config[ListenPortKey := text]) == Throws(NumberFormat)
  {
    ParseDecimalRejects(text, i, IntMin, IntMax);
  }
}
