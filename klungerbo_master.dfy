/**
 * The older consumer master (`com.klungerbo.streams.pulsar.ConsumerMaster`)
 * and its entry point (`com.klungerbo.streams.pulsar.Main`).
 *
 * The master file may fail to load (an IOException, caught here, leaving
 * the count at 0). Every worker's `initialize` overflows the stack, so the
 * first worker ordered ends `init` with StackOverflowError before it is
 * appended, and the worker list never grows.
 */
module KlungerboMaster {
  import opened Java
  import KlungerboWorker
  import ConsumerMain

  /**
   * The number of workers `generateWorkers` orders: a requested count of 0
   * is replaced by `consumers.count` from the master file when that file
   * loads (a missing or non-numeric value throws NumberFormatException);
   * when it does not load, the count stays 0.
   */
  function WorkerCount(consumerCount: int, masterProps: Option<map<string, string>>): (r: Result<int>)
    ensures consumerCount != 0 ==> r == Ok(consumerCount)
    ensures consumerCount == 0 && masterProps.None? ==> r == Ok(0)
    ensures consumerCount == 0 && masterProps.Some? ==> r == ParseInt(Get(masterProps.value, "consumers.count"))
  {
    if consumerCount != 0 then Ok(consumerCount)
    else if masterProps.None? then Ok(0)
    else ParseInt(Get(masterProps.value, "consumers.count"))
  }

  /**
   * Without a requested count, a master file that cannot be loaded orders
   * no worker, and a loaded file without `consumers.count` throws
   * NumberFormatException.
   */
  lemma UnloadableFileOrdersNone(masterProps: map<string, string>)
    requires "consumers.count" !in masterProps
    ensures WorkerCount(0, None) == Ok(0)
    ensures WorkerCount(0, Some(masterProps)) == Throws(NumberFormat)
  {
  }

  class ConsumerMaster {
    var workers: seq<KlungerboWorker.ConsumerWorker>

    /** No worker appears twice in the list. */
    ghost predicate Valid()
      reads this
    {
      forall i, j :: 0 <= i < j < |workers| ==> workers[i] != workers[j]
    }

    constructor ()
      ensures Valid() && workers == []
    {
      workers := [];
    }

    /**
     * `init` / `generateWorkers`: works out the count, then creates,
     * initializes and appends workers in order. The first `initialize`
     * overflows the stack (`depth` is the stack left to it), so a positive
     * count ends in StackOverflowError with the list unchanged.
     */
    method Init(consumerCount: int, masterProps: Option<map<string, string>>,
                env: map<string, string>, props: Option<map<string, string>>, clientFails: bool, depth: nat)
      returns (outcome: Outcome)
      requires Valid()
      modifies this
      ensures Valid()
      ensures workers == old(workers)
      ensures var count := WorkerCount(consumerCount, masterProps);
              && (count.Throws? ==> outcome == Threw(NumberFormat))
              && (count.Ok? && count.value <= 0 ==> outcome == Normal)
              && (count.Ok? && count.value > 0 ==> outcome == Threw(StackOverflow))
    {
      var count := WorkerCount(consumerCount, masterProps);
      if count.Throws? {
        return Threw(count.exception);
      }
      outcome := Normal;
      var i := 0;
      while i < count.value && outcome.Normal?
        invariant outcome.Normal? ==> i == 0
        invariant outcome.Threw? ==> outcome == Threw(StackOverflow) && count.value > 0
        invariant workers == old(workers)
      {
        var cw := new KlungerboWorker.ConsumerWorker();
        outcome := cw.Initialize(env, props, clientFails, depth);
        // `workers.add` is reached only when `initialize` returns.
        workers := workers + (if outcome.Normal? then [cw] else []);
        i := i + 1;
      }
    }

    /**
     * `startWorkers`: calls `start` on the workers in list order. The first
     * call overflows the stack, so no worker ever gets a thread.
     */
    method StartWorkers(env: map<string, string>, props: Option<map<string, string>>, clientFails: bool, depth: nat)
      returns (outcome: Outcome)
      requires Valid()
      modifies workers
      ensures workers == [] ==> outcome == Normal
      ensures workers != [] ==> outcome == Threw(StackOverflow)
      ensures forall k :: 0 <= k < |workers| ==> workers[k].threadStarts == old(workers[k].threadStarts)
    {
      outcome := Normal;
      var i := 0;
      while i < |workers| && outcome.Normal?
        invariant 0 <= i <= |workers|
        invariant outcome.Normal? ==> i == 0
        invariant outcome.Threw? ==> i == 1 && outcome == Threw(StackOverflow)
        invariant forall k :: 0 <= k < |workers| ==> workers[k].threadStarts == old(workers[k].threadStarts)
      {
        outcome := workers[i].Start(env, props, clientFails, depth);
        i := i + 1;
      }
    }

    /**
     * `onMessage`: only logs the message, and logging is not modelled. The
     * empty frame is the contract: no field of the master or its workers
     * changes.
     */
    method OnMessage(message: string)
    {
    }

    /**
     * `onShutdown`: stops the workers in list order. The first worker
     * without a consumer throws NullPointerException out of its `stop`
     * (after clearing its own `running`), and the remaining ones are not
     * stopped.
     */
    method OnShutdown() returns (outcome: Outcome, ghost stopped: nat)
      requires Valid()
      modifies workers
      ensures stopped <= |workers|
      ensures outcome == Normal <==> stopped == |workers|
      ensures outcome.Threw? ==> outcome == Threw(NullPointer) && workers[stopped].consumer.None?
      ensures forall k :: 0 <= k < |workers| ==>
                && workers[k].consumer == old(workers[k].consumer)
                && workers[k].threadStarts == old(workers[k].threadStarts)
                && workers[k].topics == old(workers[k].topics)
      ensures stopped < |workers| ==> !workers[stopped].running
      ensures forall k :: 0 <= k < stopped ==>
                workers[k].consumer.Some? && !workers[k].running && workers[k].closeCalls == old(workers[k].closeCalls) + 1
      ensures forall k :: stopped < k < |workers| ==>
                workers[k].running == old(workers[k].running) && workers[k].closeCalls == old(workers[k].closeCalls)
    {
      outcome := Normal;
      stopped := 0;
      var i := 0;
      while i < |workers| && outcome.Normal?
        invariant 0 <= stopped <= i <= |workers|
        invariant outcome.Normal? ==> stopped == i
        invariant outcome.Threw? ==>
                    i == stopped + 1 && outcome == Threw(NullPointer)
                    && workers[stopped].consumer.None? && !workers[stopped].running
        invariant forall k :: 0 <= k < |workers| ==>
                    && workers[k].consumer == old(workers[k].consumer)
                    && workers[k].threadStarts == old(workers[k].threadStarts)
                    && workers[k].topics == old(workers[k].topics)
        invariant forall k :: 0 <= k < stopped ==>
                    workers[k].consumer.Some? && !workers[k].running && workers[k].closeCalls == old(workers[k].closeCalls) + 1
        invariant forall k :: i <= k < |workers| ==>
                    workers[k].running == old(workers[k].running) && workers[k].closeCalls == old(workers[k].closeCalls)
      {
        outcome := workers[i].Stop();
        if outcome.Normal? {
          stopped := stopped + 1;
        }
        i := i + 1;
      }
    }
  }

  /**
   * `main`: the count from the command line (read as in the newer entry
   * point), then `init` and `startWorkers`, with no startup delay. A
   * positive count ends `init` with StackOverflowError; whatever happens,
   * the master holds no worker.
   */
  method Launch(cmd: ConsumerMain.CommandLine, masterProps: Option<map<string, string>>,
                env: map<string, string>, props: Option<map<string, string>>, clientFails: bool, depth: nat)
    returns (master: ConsumerMaster, outcome: Outcome)
    ensures master.workers == []
    ensures var count := WorkerCount(ConsumerMain.ConsumerCount(cmd), masterProps);
            && (count.Ok? && count.value > 0 ==> outcome == Threw(StackOverflow))
            && (count.Ok? && count.value <= 0 ==> outcome == Normal)
            && (count.Throws? ==> outcome == Threw(NumberFormat))
  {
    var count := ConsumerMain.ConsumerCount(cmd);
    master := new ConsumerMaster();
    outcome := master.Init(count, masterProps, env, props, clientFails, depth);
    if outcome.Normal? {
      outcome := master.StartWorkers(env, props, clientFails, depth);
    }
  }
}
