/**
 * The older consumer worker (`com.klungerbo.streams.pulsar.ConsumerWorker`).
 *
 * Its configuration holds only the topic set and the subscription name, it
 * never negatively acknowledges, and its `initialize` and `start` call each
 * other: `initialize` ends by calling `start`, and `start` begins by calling
 * `initialize`. On the JVM the recursion ends with a StackOverflowError; the
 * model gives both methods a `depth` (the stack frames left) and proves
 * that every depth ends the same way, before any thread is started.
 */
module KlungerboWorker {
  import opened Java
  import Worker

  /** A subscribed consumer of this worker: its broker and its two-key configuration. */
  datatype Subscription = Subscription(host: string, configuration: map<string, Worker.ConsumerSetting>)

  /**
   * `getConsumerPropertiesAsMap`, given the topic set after the resolved
   * topic has been added: the contents of the topic set and the subscription name.
   */
  function ConsumerProperties(env: map<string, string>, props: map<string, string>, topics: set<string>)
    : (m: map<string, Worker.ConsumerSetting>)
    ensures m.Keys == {"topicNames", "subscriptionName"}
    ensures m["topicNames"] == Worker.Topics(topics)
    ensures m["subscriptionName"] == Worker.Text(Worker.SubscriptionName(env, props))
  {
    map["topicNames" := Worker.Topics(topics), "subscriptionName" := Worker.Text(Worker.SubscriptionName(env, props))]
  }

  /** With nothing set anywhere, the topic and the subscription name take their defaults. */
  lemma ConsumerPropertiesDefaults(topics: set<string>)
    ensures Worker.TopicName(map[], map[]) == "Testtopic"
    ensures ConsumerProperties(map[], map[], topics)["subscriptionName"] == Worker.Text("subscription")
  {
  }

  /** The calls of the newer loop without its negative acknowledgements. */
  function WithoutNegativeAcks(calls: seq<Worker.BrokerCall>): (r: seq<Worker.BrokerCall>)
    ensures forall j :: 0 <= j < |r| ==> !r[j].NegativeAcknowledge?
    ensures |r| <= |calls|
    ensures forall c :: c in r <==> c in calls && !c.NegativeAcknowledge?
  {
    if calls == [] then []
    else (if calls[0].NegativeAcknowledge? then [] else [calls[0]]) + WithoutNegativeAcks(calls[1..])
  }

  lemma {:induction false} WithoutNegativeAcksAppend(a: seq<Worker.BrokerCall>, b: seq<Worker.BrokerCall>)
    ensures WithoutNegativeAcks(a + b) == WithoutNegativeAcks(a) + WithoutNegativeAcks(b)
  {
    if a == [] {
      assert a + b == b;
    } else {
      assert (a + b)[0] == a[0];
      assert (a + b)[1..] == a[1..] + b;
      WithoutNegativeAcksAppend(a[1..], b);
    }
  }

  /**
   * The calls this worker's loop makes for a script: the same receives and
   * acknowledgements as the newer worker, in the same order, and no
   * negative acknowledgement; a failure is only logged.
   */
  function LoopCalls(script: seq<Worker.BrokerStep>): (calls: seq<Worker.BrokerCall>)
    ensures Worker.StopIndex(script) <= |calls| <= 2 * Worker.StopIndex(script)
    ensures forall c :: c in calls <==> c in Worker.LoopCalls(script) && !c.NegativeAcknowledge?
  {
    LoopCallsBounds(script);
    WithoutNegativeAcks(Worker.LoopCalls(script))
  }

  /** Each pass before the first stop keeps one or two of its calls. */
  lemma {:induction false} LoopCallsBounds(script: seq<Worker.BrokerStep>)
    ensures Worker.StopIndex(script) <= |WithoutNegativeAcks(Worker.LoopCalls(script))| <= 2 * Worker.StopIndex(script)
  {
    if script != [] && !script[0].StopRequested? {
      LoopCallsBounds(script[1..]);
      StepCallsWithoutNegativeAcks(script[0]);
      WithoutNegativeAcksAppend(Worker.StepCalls(script[0]), Worker.LoopCalls(script[1..]));
    }
  }

  /** One pass of the loop: the calls it adds. */
  lemma StepCallsWithoutNegativeAcks(step: Worker.BrokerStep)
    ensures WithoutNegativeAcks(Worker.StepCalls(step)) ==
              match step
              case Delivered(m) => [Worker.Receive, Worker.Acknowledge(m)]
              case ReceiveFailed => [Worker.Receive]
              case AckFailed(m) => [Worker.Receive, Worker.Acknowledge(m)]
              case StopRequested => []
  {
    match step {
      case Delivered(m) =>
        assert [Worker.Receive, Worker.Acknowledge(m)][1..] == [Worker.Acknowledge(m)];
      case ReceiveFailed =>
        assert [Worker.Receive, Worker.NegativeAcknowledge(None)][1..] == [Worker.NegativeAcknowledge(None)];
      case AckFailed(m) =>
        var calls := [Worker.Receive, Worker.Acknowledge(m), Worker.NegativeAcknowledge(Some(m))];
        assert calls[1..] == [Worker.Acknowledge(m), Worker.NegativeAcknowledge(Some(m))];
        assert calls[1..][1..] == [Worker.NegativeAcknowledge(Some(m))];
        assert WithoutNegativeAcks(calls[1..][1..]) == [];
        assert WithoutNegativeAcks(calls[1..]) == [Worker.Acknowledge(m)];
      case StopRequested =>
    }
  }

  /** One pass of the loop: the calls made so far grow by the pass's calls. */
  lemma LoopCallsAdvance(script: seq<Worker.BrokerStep>, i: nat, before: seq<Worker.BrokerCall>)
    requires i < |script| && !script[i].StopRequested?
    requires before + WithoutNegativeAcks(Worker.LoopCalls(script[i..])) == LoopCalls(script)
    ensures (before + WithoutNegativeAcks(Worker.StepCalls(script[i]))) + WithoutNegativeAcks(Worker.LoopCalls(script[i + 1..]))
         == LoopCalls(script)
  {
    Worker.LoopCallsAt(script, i);
    WithoutNegativeAcksAppend(Worker.StepCalls(script[i]), Worker.LoopCalls(script[i + 1..]));
  }

  lemma {:induction false} ReceivesWithoutNegativeAcks(calls: seq<Worker.BrokerCall>)
    ensures Worker.Receives(WithoutNegativeAcks(calls)) == Worker.Receives(calls)
  {
    if calls != [] {
      ReceivesWithoutNegativeAcks(calls[1..]);
      var head := if calls[0].NegativeAcknowledge? then [] else [calls[0]];
      Worker.ReceivesAppend(head, WithoutNegativeAcks(calls[1..]));
      if head != [] {
        assert head[1..] == [];
      }
    }
  }

  /**
   * Like the newer worker, this loop receives once per pass before the
   * first stop request, and it never negatively acknowledges.
   */
  lemma LoopCallsReceives(script: seq<Worker.BrokerStep>)
    ensures Worker.Receives(LoopCalls(script)) == Worker.StopIndex(script)
    ensures forall j :: 0 <= j < |LoopCalls(script)| ==> !LoopCalls(script)[j].NegativeAcknowledge?
  {
    ReceivesWithoutNegativeAcks(Worker.LoopCalls(script));
    Worker.LoopCallsReceives(script);
  }

  class ConsumerWorker {
    var consumer: Option<Subscription>
    var running: bool
    var topics: set<string>
    /** Threads started on this worker. */
    var threadStarts: nat
    /** Calls of `close` on the consumer. */
    var closeCalls: nat

    constructor ()
      ensures consumer.None? && !running && topics == {} && threadStarts == 0 && closeCalls == 0
    {
      consumer := None;
      running := false;
      topics := {};
      threadStarts := 0;
      closeCalls := 0;
    }

    /** The subscription `createConsumer` makes when the file loads and the client works. */
    ghost predicate Subscribed(env: map<string, string>, props: map<string, string>)
      reads this
    {
      consumer == Some(Subscription(Worker.ConsumerHost(env, props), ConsumerProperties(env, props, topics)))
    }

    /**
     * `createConsumer`: a configuration file that cannot be loaded (`props`
     * is None) throws IOException before anything changes; otherwise the
     * resolved topic is added, and a failed client or subscription
     * (a PulsarClientException, itself an IOException) leaves the consumer
     * as it was.
     */
    method CreateConsumer(env: map<string, string>, props: Option<map<string, string>>, clientFails: bool)
      returns (outcome: Outcome)
      modifies this`topics, this`consumer
      ensures props.None? ==> outcome == Threw(IO) && topics == old(topics) && consumer == old(consumer)
      ensures props.Some? ==> topics == old(topics) + {Worker.TopicName(env, props.value)}
      ensures props.Some? && clientFails ==> outcome == Threw(IO) && consumer == old(consumer)
      ensures props.Some? && !clientFails ==> outcome == Normal && Subscribed(env, props.value)
    {
      if props.None? {
        return Threw(IO);
      }
      topics := topics + {Worker.TopicName(env, props.value)};
      var configuration := ConsumerProperties(env, props.value, topics);
      if clientFails {
        return Threw(IO);
      }
      consumer := Some(Subscription(Worker.ConsumerHost(env, props.value), configuration));
      outcome := Normal;
    }

    /**
     * `initialize`: creates the consumer, catching its IOException, then
     * calls `start`. With `depth` frames of stack left it never returns
     * normally: it ends in StackOverflowError with no thread started and
     * `running` untouched, after creating the consumer at every level.
     */
    method Initialize(env: map<string, string>, props: Option<map<string, string>>, clientFails: bool, depth: nat)
      returns (outcome: Outcome)
      modifies this`topics, this`consumer, this`threadStarts
      decreases depth, 1
      ensures outcome == Threw(StackOverflow)
      ensures threadStarts == old(threadStarts)
      ensures topics == old(topics) + (if props.Some? then {Worker.TopicName(env, props.value)} else {})
      ensures props.Some? && !clientFails ==> Subscribed(env, props.value)
      ensures props.None? || clientFails ==> consumer == old(consumer)
    {
      var created := CreateConsumer(env, props, clientFails);
      outcome := Start(env, props, clientFails, depth);
    }

    /**
     * `start`: calls `initialize` first and starts a thread only if that
     * returns, which it never does. At depth 0 the call itself overflows
     * the stack.
     */
    method Start(env: map<string, string>, props: Option<map<string, string>>, clientFails: bool, depth: nat)
      returns (outcome: Outcome)
      modifies this`topics, this`consumer, this`threadStarts
      decreases depth, 0
      ensures outcome == Threw(StackOverflow)
      ensures threadStarts == old(threadStarts)
      ensures depth == 0 ==> topics == old(topics) && consumer == old(consumer)
      ensures depth > 0 ==> topics == old(topics) + (if props.Some? then {Worker.TopicName(env, props.value)} else {})
      ensures depth > 0 && props.Some? && !clientFails ==> Subscribed(env, props.value)
      ensures props.None? || clientFails ==> consumer == old(consumer)
    {
      if depth == 0 {
        return Threw(StackOverflow);
      }
      outcome := Initialize(env, props, clientFails, depth - 1);
      // The thread is started only after `initialize` returns normally.
      threadStarts := threadStarts + (if outcome.Normal? then 1 else 0);
    }

    /**
     * `stop`: clears `running`, then closes the consumer once, swallowing a
     * failure to close; with no consumer it throws NullPointerException.
     */
    method Stop() returns (outcome: Outcome)
      modifies this`running, this`closeCalls
      ensures !running
      ensures consumer.None? ==> outcome == Threw(NullPointer) && closeCalls == old(closeCalls)
      ensures consumer.Some? ==> outcome == Normal && closeCalls == old(closeCalls) + 1
    {
      running := false;
      if consumer.None? {
        return Threw(NullPointer);
      }
      closeCalls := closeCalls + 1;
      outcome := Normal;
    }

    /**
     * `run`: while `running`, receive a message and acknowledge it; a
     * client failure is only logged. No method of this class ever sets
     * `running` to true, so from any state the class reaches the loop body
     * does not execute.
     */
    method Run(script: seq<Worker.BrokerStep>) returns (calls: seq<Worker.BrokerCall>, end: Worker.LoopEnd)
      modifies this`running
      ensures !old(running) ==> calls == [] && end == Worker.Stopped && !running
      ensures old(running) && consumer.None? ==> calls == [] && end == Worker.Crashed(NullPointer) && running
      ensures old(running) && consumer.Some? ==>
                && calls == LoopCalls(script)
                && (end == Worker.Stopped <==> Worker.StopIndex(script) < |script|)
                && (end == Worker.Stopped || end == Worker.ScriptEnded)
                && running == (end == Worker.ScriptEnded)
    {
      ghost var started := running;
      calls := [];
      end := Worker.Stopped;
      var i := 0;
      while running
        invariant 0 <= i <= |script|
        invariant end == Worker.Stopped
        invariant !started ==> i == 0 && calls == [] && !running
        invariant consumer.None? ==> i == 0 && calls == [] && running == started
        invariant started && running ==>
                    i <= Worker.StopIndex(script)
                    && calls + WithoutNegativeAcks(Worker.LoopCalls(script[i..])) == LoopCalls(script)
        invariant started && !running ==> Worker.StopIndex(script) < |script| && calls == LoopCalls(script)
        decreases |script| - i
      {
        if consumer.None? {
          end := Worker.Crashed(NullPointer);
          return;
        }
        if i == |script| {
          end := Worker.ScriptEnded;
          return;
        }
        if script[i].StopRequested? {
          Worker.LoopCallsAt(script, i);
        }
        ghost var before := calls;
        match script[i] {
          case StopRequested =>
            running := false;
          case Delivered(m) =>
            calls := calls + [Worker.Receive, Worker.Acknowledge(m)];
          case ReceiveFailed =>
            calls := calls + [Worker.Receive];
          case AckFailed(m) =>
            calls := calls + [Worker.Receive, Worker.Acknowledge(m)];
        }
        if running {
          StepCallsWithoutNegativeAcks(script[i]);
          LoopCallsAdvance(script, i, before);
        }
        i := i + 1;
      }
    }
  }

  /**
   * The whole life of a worker as the master drives it: constructed,
   * initialized (which overflows the stack), then run. `running` is still
   * false, so the receive loop makes no call, and no thread was started.
   */
  method InitializeThenRun(env: map<string, string>, props: Option<map<string, string>>, clientFails: bool,
                           depth: nat, script: seq<Worker.BrokerStep>)
    returns (outcome: Outcome, calls: seq<Worker.BrokerCall>)
    ensures outcome == Threw(StackOverflow)
    ensures calls == []
  {
    var cw := new ConsumerWorker();
    outcome := cw.Initialize(env, props, clientFails, depth);
    assert !cw.running && cw.threadStarts == 0;
    var end;
    calls, end := cw.Run(script);
  }
}
