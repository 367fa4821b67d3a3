/**
 * The consumer master (`com.autostreams.pulsar.ConsumerMaster`): it owns an
 * append-only list of workers, works out how many to create, and runs
 * start and stop sweeps over the list in order.
 */
module Master {
  import opened Java
  import opened Worker

  /**
   * The number of workers `generateWorkers` orders: a requested count of 0
   * is replaced by `consumers.count` from the master properties file, which
   * throws NumberFormatException when missing or not a number.
   */
  function WorkerCount(consumerCount: int, masterProps: map<string, string>): (r: Result<int>)
    ensures consumerCount != 0 ==> r == Ok(consumerCount)
    ensures consumerCount == 0 ==> r == ParseInt(Get(masterProps, "consumers.count"))
    ensures consumerCount == 0 && "consumers.count" !in masterProps ==> r == Throws(NumberFormat)
  {
    if consumerCount == 0 then ParseInt(Get(masterProps, "consumers.count")) else Ok(consumerCount)
  }

  /**
   * The state `initialize` leaves a new worker in when the configuration
   * parses: running, one thread started, never closed, its topic set holding
   * the resolved topic, and subscribed to `host` unless creating the
   * consumer failed.
   */
  ghost predicate Initialized(w: ConsumerWorker, topic: string, host: string, clientFailed: bool)
    reads w
  {
    && w.running && w.threadStarts == 1 && w.closeCalls == 0
    && w.topics == {topic}
    && (w.consumer.None? <==> clientFailed)
    && (w.consumer.Some? ==> w.consumer.value.host == host)
  }

  /**
   * Every worker of `created` is initialized; the one at position `j`
   * failed to create its consumer when `j` is in `failing`.
   */
  ghost predicate AllInitialized(created: seq<ConsumerWorker>, topic: string, host: string, failing: set<nat>)
    reads set w | w in created
  {
    forall j :: 0 <= j < |created| ==> Initialized(created[j], topic, host, j in failing)
  }

  lemma AllInitializedAppend(created: seq<ConsumerWorker>, cw: ConsumerWorker, topic: string, host: string,
                             failing: set<nat>)
    requires AllInitialized(created, topic, host, failing)
    requires Initialized(cw, topic, host, |created| in failing)
    ensures AllInitialized(created + [cw], topic, host, failing)
  {
    var grown := created + [cw];
    forall j | 0 <= j < |grown| ensures Initialized(grown[j], topic, host, j in failing) {
      if j < |created| {
        assert grown[j] == created[j];
      }
    }
  }

  class ConsumerMaster {
    var workers: seq<ConsumerWorker>

    /** No worker appears twice in the list. */
    ghost predicate Valid()
      reads this
    {
      forall i, j :: 0 <= i < j < |workers| ==> workers[i] != workers[j]
    }

    constructor ()
      ensures Valid() && workers == []
    {
      workers := [];
    }

    /**
     * `init` / `generateWorkers`: works out the count, then creates that
     * many workers. `failing` holds the positions (counted from 0) of the
     * workers whose consumer creation fails.
     */
    method Init(consumerCount: int, masterProps: map<string, string>,
                env: map<string, string>, props: map<string, string>, failing: set<nat>)
      returns (outcome: Outcome)
      requires Valid()
      modifies this
      ensures Valid()
      ensures var count := WorkerCount(consumerCount, masterProps);
              && (count.Throws? ==> outcome == Threw(NumberFormat) && workers == old(workers))
              && (count.Ok? && count.value <= 0 ==> outcome == Normal && workers == old(workers))
              && (count.Ok? && count.value > 0 && !ConfigParses(env, props) ==>
                    outcome == Threw(ConfigException(env, props)) && workers == old(workers))
              && (count.Ok? && count.value > 0 && ConfigParses(env, props) ==>
                    && outcome == Normal
                    && |workers| == |old(workers)| + count.value
                    && workers[..|old(workers)|] == old(workers))
      ensures |workers| > |old(workers)| ==> ConfigParses(env, props)
      ensures forall k :: |old(workers)| <= k < |workers| ==> fresh(workers[k])
      ensures |workers| > |old(workers)| ==>
                AllInitialized(workers[|old(workers)|..], TopicName(env, props), ConsumerHost(env, props), failing)
    {
      var count := WorkerCount(consumerCount, masterProps);
      if count.Throws? {
        return Threw(count.exception);
      }
      outcome := CreateWorkers(count.value, env, props, failing);
    }

    /**
     * The loop of `generateWorkers`: each new worker is initialized before
     * it is appended. The configuration is the same for every worker, so
     * either all of them initialize or the first one throws, in which case
     * nothing is appended.
     */
    method CreateWorkers(count: int, env: map<string, string>, props: map<string, string>, failing: set<nat>)
      returns (outcome: Outcome)
      requires Valid()
      modifies this
      ensures Valid()
      ensures count <= 0 ==> outcome == Normal && workers == old(workers)
      ensures count > 0 && !ConfigParses(env, props) ==>
                outcome == Threw(ConfigException(env, props)) && workers == old(workers)
      ensures count > 0 && ConfigParses(env, props) ==>
                && outcome == Normal
                && |workers| == |old(workers)| + count
                && workers[..|old(workers)|] == old(workers)
      ensures |workers| > |old(workers)| ==> ConfigParses(env, props)
      ensures forall k :: |old(workers)| <= k < |workers| ==> fresh(workers[k])
      ensures |workers| > |old(workers)| ==>
                AllInitialized(workers[|old(workers)|..], TopicName(env, props), ConsumerHost(env, props), failing)
    {
      outcome := Normal;
      ghost var parses := ConfigParses(env, props);
      ghost var topic := TopicName(env, props);
      ghost var created: seq<ConsumerWorker> := [];
      ghost var host := ConsumerHost(env, props);
      var i := 0;
      while i < count
        invariant 0 <= i <= (if count > 0 then count else 0)
        invariant outcome == Normal
        invariant Valid()
        invariant workers == old(workers) + created && |created| == i
        invariant i > 0 ==> parses
        invariant forall k :: |old(workers)| <= k < |workers| ==> fresh(workers[k])
        invariant AllInitialized(created, topic, host, failing)
      {
        var initialized := AddWorker(env, props, i in failing);
        if initialized.Threw? {
          return initialized;
        }
        AllInitializedAppend(created, workers[|workers| - 1], topic, host, failing);
        created := created + [workers[|workers| - 1]];
        i := i + 1;
      }
      assert workers[..|old(workers)|] == old(workers) && workers[|old(workers)|..] == created;
    }

    /**
     * One iteration of `generateWorkers`: a new worker is initialized and,
     * when that does not throw, appended.
     */
    method AddWorker(env: map<string, string>, props: map<string, string>, clientFails: bool)
      returns (outcome: Outcome)
      requires Valid()
      modifies this
      ensures Valid()
      ensures outcome == if ConfigParses(env, props) then Normal else Threw(ConfigException(env, props))
      ensures outcome.Threw? ==> workers == old(workers)
      ensures outcome.Normal? ==>
                && |workers| == |old(workers)| + 1 && workers[..|old(workers)|] == old(workers)
                && fresh(workers[|old(workers)|])
                && Initialized(workers[|old(workers)|], TopicName(env, props), ConsumerHost(env, props), clientFails)
    {
      var cw := new ConsumerWorker();
      outcome := cw.Initialize(env, props, clientFails);
      assert cw.topics == {TopicName(env, props)};
      if outcome.Normal? {
        workers := workers + [cw];
      }
    }

    /** `startWorkers`: starts one more thread on every worker, in list order; nothing else changes. */
    method StartWorkers()
      requires Valid()
      modifies workers
      ensures forall k :: 0 <= k < |workers| ==>
                && workers[k].threadStarts == old(workers[k].threadStarts) + 1
                && workers[k].running == old(workers[k].running)
                && workers[k].consumer == old(workers[k].consumer)
                && workers[k].closeCalls == old(workers[k].closeCalls)
                && workers[k].topics == old(workers[k].topics)
    {
      for i := 0 to |workers|
        invariant forall k :: 0 <= k < i ==> workers[k].threadStarts == old(workers[k].threadStarts) + 1
        invariant forall k :: i <= k < |workers| ==> workers[k].threadStarts == old(workers[k].threadStarts)
        invariant forall k :: 0 <= k < |workers| ==>
                    && workers[k].running == old(workers[k].running) && workers[k].consumer == old(workers[k].consumer)
                    && workers[k].closeCalls == old(workers[k].closeCalls) && workers[k].topics == old(workers[k].topics)
      {
        workers[i].Start();
      }
    }

    /**
     * `onMessage`: only logs the message, and logging is not modelled. The
     * empty frame is the contract: no field of the master or its workers
     * changes.
     */
    method OnMessage(message: string)
    {
    }

    /**
     * `onShutdown`: stops the workers in list order. The first worker
     * without a consumer throws NullPointerException out of its `stop`
     * (after clearing its own `running`), and the remaining ones are not
     * stopped.
     */
    method OnShutdown() returns (outcome: Outcome, ghost stopped: nat)
      requires Valid()
      modifies workers
      ensures stopped <= |workers|
      ensures outcome == Normal <==> stopped == |workers|
      ensures outcome.Threw? ==> outcome == Threw(NullPointer) && workers[stopped].consumer.None?
      ensures forall k :: 0 <= k < |workers| ==>
                && workers[k].consumer == old(workers[k].consumer)
                && workers[k].threadStarts == old(workers[k].threadStarts)
                && workers[k].topics == old(workers[k].topics)
      ensures forall k :: 0 <= k < stopped ==>
                workers[k].consumer.Some? && !workers[k].running && workers[k].closeCalls == old(workers[k].closeCalls) + 1
      ensures stopped < |workers| ==> !workers[stopped].running
      ensures forall k :: stopped < k < |workers| ==>
                workers[k].running == old(workers[k].running) && workers[k].closeCalls == old(workers[k].closeCalls)
    {
      outcome := Normal;
      stopped := 0;
      var i := 0;
      while i < |workers| && outcome.Normal?
        invariant 0 <= stopped <= i <= |workers|
        invariant outcome.Normal? ==> stopped == i
        invariant outcome.Threw? ==>
                    i == stopped + 1 && outcome == Threw(NullPointer)
                    && workers[stopped].consumer.None? && !workers[stopped].running
        invariant forall k :: 0 <= k < |workers| ==>
                    && workers[k].consumer == old(workers[k].consumer)
                    && workers[k].threadStarts == old(workers[k].threadStarts)
                    && workers[k].topics == old(workers[k].topics)
        invariant forall k :: 0 <= k < stopped ==>
                    workers[k].consumer.Some? && !workers[k].running && workers[k].closeCalls == old(workers[k].closeCalls) + 1
        invariant forall k :: i <= k < |workers| ==>
                    workers[k].running == old(workers[k].running) && workers[k].closeCalls == old(workers[k].closeCalls)
      {
        outcome := workers[i].Stop();
        if outcome.Normal? {
          stopped := stopped + 1;
        }
        i := i + 1;
      }
    }
  }
}
