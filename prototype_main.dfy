/**
 * The entry point of the prototype producer application
 * (`com.klungerbo.streams.pulsar.Main`): `initialize` is retried with a
 * five-second sleep while it answers false and `currentTry <= 100`, and
 * the data receiver is only created when `currentTry <= 100` afterwards.
 *
 * Because `currentTry` starts at 1 and the bound is checked after the call,
 * the loop makes up to 101 calls, and a success on the 101st call is
 * treated as a failure.
 */
module PrototypeMain {
  import opened Java
  import opened ProducerSettings
  import opened PulsarClient
  import opened PrototypeProducer

  /** `tries`. */
  const Tries: nat := 100

  /**
   * What one `initialize` call meets: the two resource loads (`None` for a
   * failed load) and the connection attempt.
   */
  datatype Call = Call(config: Option<map<string, string>>, producerProps: Option<map<string, string>>,
                       creation: Creation)

  /** The `k`-th call (from 0); past the end of the script both loads fail. */
  function CallAt(calls: seq<Call>, k: nat): (c: Call)
    ensures k >= |calls| ==> c.config.None?
  {
    if k < |calls| then calls[k] else Call(None, None, ClientFails)
  }

  /** What the `k`-th call answers. */
  function AnswerAt(env: map<string, string>, enums: PulsarEnums, calls: seq<Call>, k: nat): Result<bool>
  {
    InitializeAnswer(env, CallAt(calls, k).config, CallAt(calls, k).producerProps, enums)
  }

  /**
   * How many calls `main` makes when the calls before the `k`-th (from 0)
   * all answered false: call `k` is made with `currentTry == k + 1`, and it
   * is the last one when it does not answer false or the bound is reached.
   */
  function CallCount(env: map<string, string>, enums: PulsarEnums, calls: seq<Call>, k: nat): (n: nat)
    requires k <= Tries
    ensures k < n <= Tries + 1
    decreases Tries - k
  {
    if AnswerAt(env, enums, calls, k) != Ok(false) || k == Tries then k + 1
    else CallCount(env, enums, calls, k + 1)
  }

  /**
   * The last call answers something other than false unless it is the
   * 101st, and every call before it answered false.
   */
  lemma {:induction false} CallCountBounds(env: map<string, string>, enums: PulsarEnums, calls: seq<Call>, k: nat)
    requires k <= Tries
    ensures var n := CallCount(env, enums, calls, k);
            && (n <= Tries ==> AnswerAt(env, enums, calls, n - 1) != Ok(false))
            && (forall j :: k <= j < n - 1 ==> AnswerAt(env, enums, calls, j) == Ok(false))
    decreases Tries - k
  {
    if AnswerAt(env, enums, calls, k) != Ok(false) || k == Tries {
    } else {
      CallCountBounds(env, enums, calls, k + 1);
    }
  }

  /** The first call that does not answer false ends the loop, if it is one of the first 100. */
  lemma {:induction false} FirstAnswerWins(env: map<string, string>, enums: PulsarEnums, calls: seq<Call>, k: nat, m: nat)
    requires k <= m < Tries
    requires forall j :: k <= j < m ==> AnswerAt(env, enums, calls, j) == Ok(false)
    requires AnswerAt(env, enums, calls, m) != Ok(false)
    ensures CallCount(env, enums, calls, k) == m + 1
    decreases m - k
  {
    if k < m {
      FirstAnswerWins(env, enums, calls, k + 1, m);
    }
  }

  /**
   * When the first 100 calls all answer false, `main` makes exactly 101
   * calls, whatever the last one answers.
   */
  lemma {:induction false} AllFalseGivesUp(env: map<string, string>, enums: PulsarEnums, calls: seq<Call>, k: nat)
    requires k <= Tries
    requires forall j :: k <= j < Tries ==> AnswerAt(env, enums, calls, j) == Ok(false)
    ensures CallCount(env, enums, calls, k) == Tries + 1
    decreases Tries - k
  {
    if k < Tries {
      AllFalseGivesUp(env, enums, calls, k + 1);
    }
  }

  /** Whether `main` goes on to create and run the data receiver after its calls. */
  function ReceiverRuns(env: map<string, string>, enums: PulsarEnums, calls: seq<Call>): bool
  {
    var n := CallCount(env, enums, calls, 0);
    AnswerAt(env, enums, calls, n - 1) == Ok(true) && n <= Tries
  }

  /**
   * The off-by-one: if only the 101st call answers true, the loop stops
   * with `currentTry == 101` and `main` returns without a receiver.
   */
  lemma LateSuccessIsFailure(env: map<string, string>, enums: PulsarEnums, calls: seq<Call>)
    requires forall j :: 0 <= j < Tries ==> AnswerAt(env, enums, calls, j) == Ok(false)
    requires AnswerAt(env, enums, calls, Tries) == Ok(true)
    ensures CallCount(env, enums, calls, 0) == Tries + 1
    ensures !ReceiverRuns(env, enums, calls)
  {
    AllFalseGivesUp(env, enums, calls, 0);
  }

  /** A success at call `m` within the bound runs the receiver after `m` sleeps. */
  lemma SuccessWithinBound(env: map<string, string>, enums: PulsarEnums, calls: seq<Call>, m: nat)
    requires m < Tries
    requires forall j :: 0 <= j < m ==> AnswerAt(env, enums, calls, j) == Ok(false)
    requires AnswerAt(env, enums, calls, m) == Ok(true)
    ensures CallCount(env, enums, calls, 0) == m + 1
    ensures ReceiverRuns(env, enums, calls)
  {
    FirstAnswerWins(env, enums, calls, 0, m);
  }

  /**
   * `main`: a new prototype producer, `initialize` until it answers true or
   * the bound is passed, a sleep after each false answer within the bound,
   * then the post-loop check. An exception from `initialize` escapes.
   */
  method Launch(env: map<string, string>, enums: PulsarEnums, calls: seq<Call>)
    returns (outcome: Outcome, producer: PulsarPrototypeProducer, initializeCalls: nat, sleeps: nat,
             receiverRuns: bool)
    ensures fresh(producer) && producer.Valid()
    ensures initializeCalls == CallCount(env, enums, calls, 0)
    ensures sleeps == initializeCalls - 1
    ensures var last := AnswerAt(env, enums, calls, initializeCalls - 1);
            && (last.Throws? ==> outcome == Threw(last.exception) && !receiverRuns)
            && (last.Ok? ==> outcome == Normal && receiverRuns == ReceiverRuns(env, enums, calls))
  {
    producer := new PulsarPrototypeProducer();
    var currentTry: nat := 1;
    sleeps := 0;
    initializeCalls := 1;
    var answer := producer.Initialize(env, CallAt(calls, 0).config, CallAt(calls, 0).producerProps, enums,
                                      CallAt(calls, 0).creation);
    while answer == Ok(false) && currentTry <= Tries
      invariant 1 <= currentTry <= Tries + 1 && initializeCalls == currentTry && sleeps == currentTry - 1
      invariant fresh(producer) && producer.Valid()
      invariant answer == AnswerAt(env, enums, calls, currentTry - 1)
      invariant CallCount(env, enums, calls, 0) == CallCount(env, enums, calls, currentTry - 1)
      decreases Tries + 1 - currentTry
    {
      sleeps := sleeps + 1;
      currentTry := currentTry + 1;
      var call := CallAt(calls, currentTry - 1);
      answer := producer.Initialize(env, call.config, call.producerProps, enums, call.creation);
      initializeCalls := initializeCalls + 1;
    }
    if answer.Throws? {
      return Threw(answer.exception), producer, initializeCalls, sleeps, false;
    }
    outcome := Normal;
    receiverRuns := currentTry <= Tries && answer == Ok(true);
  }
}
