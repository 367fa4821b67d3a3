/**
 * The consumer worker (`com.autostreams.pulsar.ConsumerWorker`): it builds
 * a per-key configuration (environment, else `pulsar.`-prefixed property,
 * else a literal default), subscribes a consumer, starts a thread, and runs
 * a receive / acknowledge / negative-acknowledge loop while `running`.
 *
 * The Pulsar client is not modelled: whether client creation or the
 * subscription fails is a parameter, and what the broker does during the
 * receive loop is a script of `BrokerStep`s. A thread start is counted.
 */
module Worker {
  import opened Java
  import PropertyLoader

  /** The constant names of Pulsar's `SubscriptionType` enum. */
  const SubscriptionTypes: seq<string> := ["Exclusive", "Shared", "Failover", "Key_Shared"]

  /** A value of the consumer configuration map. */
  datatype ConsumerSetting =
    | Topics(topics: set<string>)
    | Text(text: string)
    | Subscription(typeName: string)
    | Number(value: int)

  /** An integer setting: result key, environment name, property name and default. */
  datatype IntSetting = IntSetting(key: string, environmentName: string, propertyName: string, fallback: string)

  /** The four integer settings, in the order they are parsed. */
  const IntSettings: seq<IntSetting> := [
    IntSetting("receiverQueueSize", "RECEIVER_QUEUE_SIZE", "pulsar.receiverQueueSize", "1000"),
    IntSetting("acknowledgementsGroupTimeMicros", "ACKNOWLEDGEMENTS_GROUP_TIME_MICROS",
               "pulsar.acknowledgementsGroupTimeMicros", "1000"),
    IntSetting("ackTimeoutMillis", "ACKNOWLEDGEMENTS_TIMEOUT_MILLIS", "pulsar.acknowledgementsTimeoutMillis", "0"),
    IntSetting("tickDurationMillis", "TICK_DURATION_MILLIS", "pulsar.tickDurationMillis", "1000")
  ]

  const ConsumerConfigKeys: set<string> := {
    "topicNames", "subscriptionName", "subscriptionType", "receiverQueueSize",
    "acknowledgementsGroupTimeMicros", "ackTimeoutMillis", "tickDurationMillis"
  }

  function TopicName(env: map<string, string>, props: map<string, string>): string
  {
    Resolve(env, "TOPIC_NAME", props, "pulsar.topic", "Testtopic")
  }

  function SubscriptionName(env: map<string, string>, props: map<string, string>): string
  {
    Resolve(env, "SUBSCRIPTION_NAME", props, "pulsar.subscriptionName", "subscription")
  }

  function SubscriptionTypeName(env: map<string, string>, props: map<string, string>): string
  {
    Resolve(env, "SUBSCRIPTION_TYPE", props, "pulsar.subscriptionType", "Shared")
  }

  /**
   * One integer setting: the environment variable overrides the property,
   * which overrides the literal default; the text chosen is then parsed.
   */
  function IntValue(setting: IntSetting, env: map<string, string>, props: map<string, string>): (r: Result<int>)
    ensures setting.environmentName in env ==> r == ParseInt(Some(env[setting.environmentName]))
    ensures setting.environmentName !in env && setting.propertyName in props ==>
              r == ParseInt(Some(props[setting.propertyName]))
    ensures setting.environmentName !in env && setting.propertyName !in props ==>
              r == ParseInt(Some(setting.fallback))
  {
    ParseInt(Some(Resolve(env, setting.environmentName, props, setting.propertyName, setting.fallback)))
  }

  /** The broker address: `PULSAR_BROKER_URL`, else `pulsar.url`, else the local default. */
  function ConsumerHost(env: map<string, string>, props: map<string, string>): (host: string)
    ensures "PULSAR_BROKER_URL" in env ==> host == env["PULSAR_BROKER_URL"]
    ensures "PULSAR_BROKER_URL" !in env && "pulsar.url" in props ==> host == props["pulsar.url"]
    ensures "PULSAR_BROKER_URL" !in env && "pulsar.url" !in props ==> host == "pulsar://localhost:6650"
  {
    Resolve(env, "PULSAR_BROKER_URL", props, "pulsar.url", "pulsar://localhost:6650")
  }

  /** The subscription type names an enum constant and every integer setting parses. */
  predicate ConfigParses(env: map<string, string>, props: map<string, string>)
  {
    && SubscriptionTypeName(env, props) in SubscriptionTypes
    && forall k :: 0 <= k < |IntSettings| ==> IntValue(IntSettings[k], env, props).Ok?
  }

  /** The exception the map builder throws when the configuration does not parse. */
  function ConfigException(env: map<string, string>, props: map<string, string>): Exception
  {
    if SubscriptionTypeName(env, props) in SubscriptionTypes then NumberFormat else IllegalArgument
  }

  /**
   * The configuration `getConsumerPropertiesAsMap` builds when nothing
   * throws, one field per key of the map it returns.
   */
  datatype ConsumerConfig = ConsumerConfig(
    topicNames: set<string>, subscriptionName: string, subscriptionType: string,
    receiverQueueSize: int, acknowledgementsGroupTimeMicros: int,
    ackTimeoutMillis: int, tickDurationMillis: int)

  /**
   * The map handed to the consumer builder: seven keys and no
   * `consumerName`, each holding its field of the configuration.
   */
  function AsMap(c: ConsumerConfig): (m: map<string, ConsumerSetting>)
    ensures m.Keys == ConsumerConfigKeys && "consumerName" !in m
    ensures m["topicNames"] == Topics(c.topicNames)
    ensures m["subscriptionName"] == Text(c.subscriptionName)
    ensures m["subscriptionType"] == Subscription(c.subscriptionType)
    ensures m["receiverQueueSize"] == Number(c.receiverQueueSize)
    ensures m["acknowledgementsGroupTimeMicros"] == Number(c.acknowledgementsGroupTimeMicros)
    ensures m["ackTimeoutMillis"] == Number(c.ackTimeoutMillis)
    ensures m["tickDurationMillis"] == Number(c.tickDurationMillis)
  {
    map[
      "topicNames" := Topics(c.topicNames),
      "subscriptionName" := Text(c.subscriptionName),
      "subscriptionType" := Subscription(c.subscriptionType),
      "receiverQueueSize" := Number(c.receiverQueueSize),
      "acknowledgementsGroupTimeMicros" := Number(c.acknowledgementsGroupTimeMicros),
      "ackTimeoutMillis" := Number(c.ackTimeoutMillis),
      "tickDurationMillis" := Number(c.tickDurationMillis)]
  }

  /**
   * The configuration built from the three tiers when it parses: the given
   * topic set, the resolved subscription name and type, and the four parsed
   * integers.
   */
  function ConsumerConfiguration(env: map<string, string>, props: map<string, string>, topics: set<string>)
    : (c: ConsumerConfig)
    requires ConfigParses(env, props)
    ensures c.topicNames == topics
    ensures c.subscriptionName == SubscriptionName(env, props)
    ensures c.subscriptionType == SubscriptionTypeName(env, props) && c.subscriptionType in SubscriptionTypes
    ensures Ok(c.receiverQueueSize) == IntValue(IntSettings[0], env, props)
    ensures Ok(c.acknowledgementsGroupTimeMicros) == IntValue(IntSettings[1], env, props)
    ensures Ok(c.ackTimeoutMillis) == IntValue(IntSettings[2], env, props)
    ensures Ok(c.tickDurationMillis) == IntValue(IntSettings[3], env, props)
  {
    assert IntValue(IntSettings[0], env, props).Ok?;
    assert IntValue(IntSettings[1], env, props).Ok?;
    assert IntValue(IntSettings[2], env, props).Ok?;
    assert IntValue(IntSettings[3], env, props).Ok?;
    ConsumerConfig(topics, SubscriptionName(env, props), SubscriptionTypeName(env, props),
                   IntValue(IntSettings[0], env, props).value, IntValue(IntSettings[1], env, props).value,
                   IntValue(IntSettings[2], env, props).value, IntValue(IntSettings[3], env, props).value)
  }

  /**
   * `getConsumerPropertiesAsMap`, given the topic set after the resolved
   * topic has been added to it: the subscription type is looked up first,
   * then the four integers are parsed in order; the first failure escapes.
   */
  function ConsumerProperties(env: map<string, string>, props: map<string, string>, topics: set<string>)
    : (r: Result<ConsumerConfig>)
    ensures r.Ok? <==> ConfigParses(env, props)
    ensures r.Throws? ==> r.exception == ConfigException(env, props)
    ensures r.Ok? ==> && r.value == ConsumerConfiguration(env, props, topics)
                      && r.value.topicNames == topics
                      && r.value.subscriptionName == SubscriptionName(env, props)
                      && r.value.subscriptionType == SubscriptionTypeName(env, props)
                      && Ok(r.value.receiverQueueSize) == IntValue(IntSettings[0], env, props)
                      && Ok(r.value.acknowledgementsGroupTimeMicros) == IntValue(IntSettings[1], env, props)
                      && Ok(r.value.ackTimeoutMillis) == IntValue(IntSettings[2], env, props)
                      && Ok(r.value.tickDurationMillis) == IntValue(IntSettings[3], env, props)
  {
    var subscriptionType := ValueOf(SubscriptionTypes, Some(SubscriptionTypeName(env, props)));
    if subscriptionType.Throws? then Throws(subscriptionType.exception)
    else if IntValue(IntSettings[0], env, props).Throws? then Throws(NumberFormat)
    else if IntValue(IntSettings[1], env, props).Throws? then Throws(NumberFormat)
    else if IntValue(IntSettings[2], env, props).Throws? then Throws(NumberFormat)
    else if IntValue(IntSettings[3], env, props).Throws? then Throws(NumberFormat)
    else
      assert ConfigParses(env, props) by {
        forall k | 0 <= k < |IntSettings| ensures IntValue(IntSettings[k], env, props).Ok? {
        }
      }
      Ok(ConsumerConfiguration(env, props, topics))
  }

  /** With nothing set anywhere, every setting takes its literal default. */
  lemma ConsumerPropertiesDefaults(topics: set<string>)
    ensures var r := ConsumerProperties(map[], map[], topics);
            && r.Ok?
            && r.value == ConsumerConfig(topics, "subscription", "Shared", 1000, 1000, 0, 1000)
  {
    ParseIntRoundTrip(1000);
    ParseIntRoundTrip(0);
    assert DecimalString(1000) == "1000";
    assert DecimalString(0) == "0";
    assert ConfigParses(map[], map[]) by {
      forall k | 0 <= k < |IntSettings|
        ensures IntValue(IntSettings[k], map[], map[]).Ok?
      {
      }
    }
  }

  /**
   * A subscription type that is not an enum constant name fails with
   * IllegalArgumentException before any integer is parsed, whatever they hold.
   */
  lemma UnknownSubscriptionTypeThrows(env: map<string, string>, props: map<string, string>, topics: set<string>)
    requires SubscriptionTypeName(env, props) !in SubscriptionTypes
    ensures ConsumerProperties(env, props, topics) == Throws(IllegalArgument)
  {
  }

  /**
   * The batch loader and the worker read the acknowledgement timeout from
   * differently named environment variables: a value set under the loader's
   * name is ignored by the worker, which falls back to the property or to 0.
   */
  lemma AckTimeoutNamesDisagree(env: map<string, string>)
    requires "ACK_TIMEOUT_MILLIS" in env && "ACKNOWLEDGEMENTS_TIMEOUT_MILLIS" !in env
    ensures PropertyLoader.StandardPairs[6].propertyName == IntSettings[2].key
    ensures PropertyLoader.StandardPairs[6].environmentName in env
    ensures IntValue(IntSettings[2], env, map[]) == Ok(0)
  {
    ParseIntRoundTrip(0);
    assert DecimalString(0) == "0";
  }

  // ---------------------------------------------------------------------
  // The receive loop

  /** What the broker does in one pass of the receive loop. */
  datatype BrokerStep =
    | Delivered(message: string)    // receive returns the message; acknowledge succeeds
    | ReceiveFailed                 // receive throws PulsarClientException
    | AckFailed(message: string)    // receive returns the message; acknowledge throws
    | StopRequested                 // `running` was cleared before the loop test

  /** The calls the loop makes on the consumer. */
  datatype BrokerCall =
    | Receive
    | Acknowledge(message: string)
    | NegativeAcknowledge(inFlight: Option<string>)

  /** How the loop ended. */
  datatype LoopEnd = Stopped | Crashed(exception: Exception) | ScriptEnded

  /** The calls of one pass; a failed receive leaves the message null. */
  function StepCalls(step: BrokerStep): seq<BrokerCall>
  {
    match step
    case Delivered(m) => [Receive, Acknowledge(m)]
    case ReceiveFailed => [Receive, NegativeAcknowledge(None)]
    case AckFailed(m) => [Receive, Acknowledge(m), NegativeAcknowledge(Some(m))]
    case StopRequested => []
  }

  /**
   * The calls made for a script, up to its first stop request: two or
   * three calls for each pass before it.
   */
  function LoopCalls(script: seq<BrokerStep>): (calls: seq<BrokerCall>)
    ensures 2 * StopIndex(script) <= |calls| <= 3 * StopIndex(script)
  {
    if script == [] || script[0].StopRequested? then []
    else StepCalls(script[0]) + LoopCalls(script[1..])
  }

  /** The position of the first stop request, or the script's length. */
  function StopIndex(script: seq<BrokerStep>): (k: nat)
    ensures k <= |script|
    ensures forall j :: 0 <= j < k ==> !script[j].StopRequested?
    ensures k < |script| ==> script[k].StopRequested?
  {
    if script == [] || script[0].StopRequested? then 0 else 1 + StopIndex(script[1..])
  }

  function Receives(calls: seq<BrokerCall>): nat
  {
    if calls == [] then 0 else (if calls[0].Receive? then 1 else 0) + Receives(calls[1..])
  }

  /**
   * The order of calls the loop promises: every receive is followed by an
   * acknowledgement or a negative acknowledgement before the next receive;
   * an acknowledgement follows a receive; a negative acknowledgement of a
   * message follows the failed acknowledgement of that same message, and
   * one of null follows the receive that failed.
   */
  predicate CallOrder(calls: seq<BrokerCall>)
  {
    && (forall j :: 0 <= j < |calls| && calls[j].Receive? ==> j + 1 < |calls| && !calls[j + 1].Receive?)
    && (forall j :: 0 <= j < |calls| && calls[j].Acknowledge? ==> 0 < j && calls[j - 1].Receive?)
    && (forall j :: 0 <= j < |calls| && calls[j].NegativeAcknowledge? ==>
          0 < j && calls[j - 1] == (if calls[j].inFlight.Some? then Acknowledge(calls[j].inFlight.value) else Receive))
  }

  lemma CallOrderPrepend(step: BrokerStep, rest: seq<BrokerCall>)
    requires CallOrder(rest)
    ensures CallOrder(StepCalls(step) + rest)
  {
    var block := StepCalls(step);
    var calls := block + rest;
    forall j | 0 <= j < |calls| && calls[j].Receive?
      ensures j + 1 < |calls| && !calls[j + 1].Receive?
    {
      if j >= |block| {
        assert calls[j] == rest[j - |block|];
      }
    }
    forall j | 0 <= j < |calls| && calls[j].Acknowledge?
      ensures 0 < j && calls[j - 1].Receive?
    {
      if j >= |block| {
        assert calls[j] == rest[j - |block|];
        assert calls[j - 1] == rest[j - 1 - |block|];
      }
    }
    forall j | 0 <= j < |calls| && calls[j].NegativeAcknowledge?
      ensures 0 < j && calls[j - 1] == (if calls[j].inFlight.Some? then Acknowledge(calls[j].inFlight.value) else Receive)
    {
      if j >= |block| {
        assert calls[j] == rest[j - |block|];
        assert calls[j - 1] == rest[j - 1 - |block|];
      }
    }
  }

  /** Every script yields calls in the promised order. */
  lemma {:induction false} LoopCallsOrder(script: seq<BrokerStep>)
    ensures CallOrder(LoopCalls(script))
  {
    if script != [] && !script[0].StopRequested? {
      LoopCallsOrder(script[1..]);
      CallOrderPrepend(script[0], LoopCalls(script[1..]));
    }
  }

  /** Unfolding `LoopCalls` at a position of the script. */
  lemma LoopCallsAt(script: seq<BrokerStep>, i: nat)
    requires i < |script|
    ensures script[i].StopRequested? ==> LoopCalls(script[i..]) == []
    ensures !script[i].StopRequested? ==>
              LoopCalls(script[i..]) == StepCalls(script[i]) + LoopCalls(script[i + 1..])
  {
    assert script[i..][1..] == script[i + 1..];
  }

  /** One pass of the loop: the calls made so far grow by the pass's calls. */
  lemma LoopCallsAdvance(script: seq<BrokerStep>, i: nat, before: seq<BrokerCall>)
    requires i < |script| && !script[i].StopRequested?
    requires before + LoopCalls(script[i..]) == LoopCalls(script)
    ensures (before + StepCalls(script[i])) + LoopCalls(script[i + 1..]) == LoopCalls(script)
  {
    LoopCallsAt(script, i);
  }

  lemma {:induction false} ReceivesAppend(a: seq<BrokerCall>, b: seq<BrokerCall>)
    ensures Receives(a + b) == Receives(a) + Receives(b)
  {
    if a == [] {
      assert a + b == b;
    } else {
      assert (a + b)[0] == a[0];
      assert (a + b)[1..] == a[1..] + b;
      ReceivesAppend(a[1..], b);
    }
  }

  lemma StepReceives(step: BrokerStep)
    ensures Receives(StepCalls(step)) == if step.StopRequested? then 0 else 1
  {
    var calls := StepCalls(step);
    if !step.StopRequested? {
      assert calls[1..][1..] == calls[2..];
      assert Receives(calls[1..]) == Receives(calls[2..]);
      if step.AckFailed? {
        assert calls[2..][1..] == [];
      }
    }
  }

  /** The loop receives once per pass before the first stop request. */
  lemma {:induction false} LoopCallsReceives(script: seq<BrokerStep>)
    ensures Receives(LoopCalls(script)) == StopIndex(script)
  {
    if script != [] && !script[0].StopRequested? {
      LoopCallsReceives(script[1..]);
      ReceivesAppend(StepCalls(script[0]), LoopCalls(script[1..]));
      StepReceives(script[0]);
    }
  }

  /** After a stop request the broker's further behaviour makes no difference. */
  lemma {:induction false} LoopCallsIgnoreAfterStop(script: seq<BrokerStep>, later: seq<BrokerStep>)
    requires StopIndex(script) < |script|
    ensures LoopCalls(script + later) == LoopCalls(script)
  {
    if !script[0].StopRequested? {
      assert (script + later)[1..] == script[1..] + later;
      LoopCallsIgnoreAfterStop(script[1..], later);
    }
  }

  // ---------------------------------------------------------------------
  // The worker object

  /** A subscribed consumer: the broker it talks to and the configuration it was loaded with. */
  datatype ConsumerHandle = ConsumerHandle(host: string, configuration: ConsumerConfig)

  class ConsumerWorker {
    var consumer: Option<ConsumerHandle>
    var running: bool
    var topics: set<string>
    /** Threads started on this worker. */
    var threadStarts: nat
    /** Calls of `close` on the consumer. */
    var closeCalls: nat

    constructor ()
      ensures consumer.None? && !running && topics == {} && threadStarts == 0 && closeCalls == 0
    {
      consumer := None;
      running := false;
      topics := {};
      threadStarts := 0;
      closeCalls := 0;
    }

    /**
     * `initialize`: an IOException from consumer creation (a failed client
     * or subscription) is caught, after which the worker still counts as
     * running and a thread is started; a configuration that does not parse
     * throws out, leaving `running` as it was and starting no thread.
     */
    method Initialize(env: map<string, string>, props: map<string, string>, clientFails: bool)
      returns (outcome: Outcome)
      modifies this`topics, this`consumer, this`running, this`threadStarts
      ensures topics == old(topics) + {TopicName(env, props)}
      ensures !ConfigParses(env, props) ==>
                && outcome == Threw(ConfigException(env, props))
                && running == old(running) && threadStarts == old(threadStarts) && consumer == old(consumer)
      ensures ConfigParses(env, props) ==>
                && outcome == Normal && running && threadStarts == old(threadStarts) + 1
                && consumer == (if clientFails then old(consumer)
                                else Some(ConsumerHandle(ConsumerHost(env, props),
                                                         ConsumerConfiguration(env, props, topics))))
    {
      outcome := CreateConsumer(env, props, clientFails);
      if outcome.Threw? && outcome.exception != IO {
        return;
      }
      running := true;
      Start();
      outcome := Normal;
    }

    /** `start`: starts one thread running the receive loop. */
    method Start()
      modifies this`threadStarts
      ensures threadStarts == old(threadStarts) + 1
    {
      threadStarts := threadStarts + 1;
    }

    /**
     * `stop`: clears `running`, then closes the consumer once, swallowing a
     * failure to close; with no consumer it throws NullPointerException.
     */
    method Stop() returns (outcome: Outcome)
      modifies this`running, this`closeCalls
      ensures !running
      ensures consumer.None? ==> outcome == Threw(NullPointer) && closeCalls == old(closeCalls)
      ensures consumer.Some? ==> outcome == Normal && closeCalls == old(closeCalls) + 1
    {
      running := false;
      if consumer.None? {
        return Threw(NullPointer);
      }
      closeCalls := closeCalls + 1;
      outcome := Normal;
    }

    /**
     * `createConsumer`: adds the resolved topic, builds the configuration
     * and subscribes; the map builder's exception escapes, and a failed
     * client or subscription ends in an IOException.
     */
    method CreateConsumer(env: map<string, string>, props: map<string, string>, clientFails: bool)
      returns (outcome: Outcome)
      modifies this`topics, this`consumer
      ensures topics == old(topics) + {TopicName(env, props)}
      ensures !ConfigParses(env, props) ==> outcome == Threw(ConfigException(env, props)) && consumer == old(consumer)
      ensures ConfigParses(env, props) && clientFails ==> outcome == Threw(IO) && consumer == old(consumer)
      ensures ConfigParses(env, props) && !clientFails ==>
                && outcome == Normal
                && consumer == Some(ConsumerHandle(ConsumerHost(env, props), ConsumerConfiguration(env, props, topics)))
    {
      topics := topics + {TopicName(env, props)};
      var configuration := ConsumerProperties(env, props, topics);
      if configuration.Throws? {
        return Threw(configuration.exception);
      }
      if clientFails {
        return Threw(IO);
      }
      consumer := Some(ConsumerHandle(ConsumerHost(env, props), configuration.value));
      outcome := Normal;
    }

    /**
     * `run` / `receive`: while `running`, receive a message and acknowledge
     * it; on a client failure negatively acknowledge the in-flight message
     * (null when the receive itself failed) and go on. A stop request in
     * the script clears `running`; with no consumer the first receive throws
     * NullPointerException out of the loop.
     */
    method Run(script: seq<BrokerStep>) returns (calls: seq<BrokerCall>, end: LoopEnd)
      modifies this`running
      ensures !old(running) ==> calls == [] && end == Stopped && !running
      ensures old(running) && consumer.None? ==> calls == [] && end == Crashed(NullPointer) && running
      ensures old(running) && consumer.Some? ==>
                && calls == LoopCalls(script)
                && (end == Stopped <==> StopIndex(script) < |script|)
                && (end == Stopped || end == ScriptEnded)
                && running == (end == ScriptEnded)
    {
      ghost var started := running;
      calls := [];
      end := Stopped;
      var i := 0;
      while running
        invariant 0 <= i <= |script|
        invariant end == Stopped
        invariant !started ==> i == 0 && calls == [] && !running
        invariant consumer.None? ==> i == 0 && calls == [] && running == started
        invariant started && running ==> i <= StopIndex(script) && calls + LoopCalls(script[i..]) == LoopCalls(script)
        invariant started && !running ==> StopIndex(script) < |script| && calls == LoopCalls(script)
        decreases |script| - i
      {
        if consumer.None? {
          end := Crashed(NullPointer);
          return;
        }
        if i == |script| {
          end := ScriptEnded;
          return;
        }
        if script[i].StopRequested? {
          LoopCallsAt(script, i);
          running := false;
        } else {
          // One pass: receive, then acknowledge, negatively acknowledging on a failure.
          LoopCallsAdvance(script, i, calls);
          calls := calls + StepCalls(script[i]);
        }
        i := i + 1;
      }
    }
  }
}
