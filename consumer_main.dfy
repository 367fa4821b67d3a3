/**
 * The consumer's entry point (`com.autostreams.pulsar.Main`): five
 * uninterrupted sleeps, then the worker count from the command line, then
 * `init` and `startWorkers` on a new master.
 *
 * Command-line parsing is not modelled: its result is a `CommandLine`
 * value. A sleep is an element of a script saying whether it completed or
 * was interrupted.
 */
module ConsumerMain {
  import opened Java
  import opened Worker
  import opened Master

  /** What the command-line parser yields: a failure, or the `-w` value if given. */
  datatype CommandLine = ParseFailed | Parsed(workerOption: Option<string>)

  /**
   * `getConsumerCount`: the parsed `-w` value; 0 without the option, when
   * parsing the command line fails, or when the value is not a number.
   */
  function ConsumerCount(cmd: CommandLine): (count: int)
    ensures cmd.ParseFailed? || cmd.workerOption.None? ==> count == 0
    ensures cmd.Parsed? && cmd.workerOption.Some? ==>
              count == (var n := ParseInt(cmd.workerOption); if n.Ok? then n.value else 0)
    ensures IntMin <= count <= IntMax
  {
    match cmd
    case ParseFailed => 0
    case Parsed(option) =>
      if option.None? then 0
      else
        var n := ParseInt(option);
        if n.Ok? then n.value else 0
  }

  /** Any 32-bit count written as `-w <count>` comes back as given, 0 and negatives included. */
  lemma ConsumerCountRoundTrip(n: int)
    requires IntMin <= n <= IntMax
    ensures ConsumerCount(Parsed(Some(DecimalString(n)))) == n
  {
    ParseIntRoundTrip(n);
  }

  /** A `-w` value with a character that is not a digit (nor a leading sign) gives 0. */
  lemma NonNumericCountIsZero(option: string, i: nat)
    requires i < |option| && !IsDigit(option[i])
    requires i == 0 ==> option[i] != '-' && option[i] != '+'
    ensures ConsumerCount(Parsed(Some(option))) == 0
  {
    ParseDecimalRejects(option, i, IntMin, IntMax);
  }

  /** The number of completed sleeps in a script of sleeps: how often `true` occurs in it. */
  function Completed(sleeps: seq<bool>): (n: nat)
    ensures n <= |sleeps|
    ensures n == multiset(sleeps)[true]
  {
    if sleeps == [] then 0
    else
      var front := sleeps[..|sleeps| - 1];
      assert sleeps == front + [sleeps[|sleeps| - 1]];
      Completed(front) + (if sleeps[|sleeps| - 1] then 1 else 0)
  }

  /**
   * The startup loop of `main`: sleep until five sleeps have completed; an
   * interrupted sleep does not advance the counter, and the loop ends right
   * after the fifth completed sleep. The script of sleeps may run out
   * first, in which case `iter` is the number completed.
   */
  method StartupDelay(sleeps: seq<bool>) returns (iter: int, taken: nat)
    ensures taken <= |sleeps|
    ensures iter == Completed(sleeps[..taken]) && iter <= 5
    ensures iter < 5 ==> taken == |sleeps|
    ensures iter == 5 ==> taken > 0 && sleeps[taken - 1] && Completed(sleeps[..taken - 1]) == 4
  {
    iter := 0;
    var maxIter := 5;
    taken := 0;
    while iter < maxIter && taken < |sleeps|
      invariant taken <= |sleeps|
      invariant iter == Completed(sleeps[..taken]) && iter <= maxIter
      invariant iter == maxIter ==> taken > 0 && sleeps[taken - 1] && Completed(sleeps[..taken - 1]) == 4
    {
      assert sleeps[..taken + 1][..taken] == sleeps[..taken];
      if sleeps[taken] {
        iter := iter + 1;
      }
      taken := taken + 1;
    }
  }

  /**
   * `main` after the delay: the count, a new master, `init`, and then
   * `startWorkers` if `init` returned. Every worker then has two thread
   * starts: one from its own `initialize` and one from the sweep.
   */
  method Launch(cmd: CommandLine, masterProps: map<string, string>,
                env: map<string, string>, props: map<string, string>, failing: set<nat>)
    returns (master: ConsumerMaster, outcome: Outcome)
    ensures outcome.Normal? ==> forall k :: 0 <= k < |master.workers| ==> master.workers[k].threadStarts == 2
    ensures var count := WorkerCount(ConsumerCount(cmd), masterProps);
            && (count.Throws? ==> outcome == Threw(NumberFormat) && master.workers == [])
            && (count.Ok? && count.value <= 0 ==> outcome == Normal && master.workers == [])
            && (count.Ok? && count.value > 0 && ConfigParses(env, props) ==>
                  outcome.Normal? && |master.workers| == count.value)
            && (count.Ok? && count.value > 0 && !ConfigParses(env, props) ==>
                  outcome == Threw(ConfigException(env, props)) && master.workers == [])
  {
    var count := ConsumerCount(cmd);
    master := new ConsumerMaster();
    outcome := master.Init(count, masterProps, env, props, failing);
    if outcome.Normal? {
      master.StartWorkers();
    }
  }
}
