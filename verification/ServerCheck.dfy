/**
The health checker's polling loop (k8s/service/acm/src/podmanager/server_check.rs), on its own
and against the clock. The environment is given: the delays that the backoff policy grants, when and
how each connection attempt is answered, and when the interrupt comes. Which of two futures that
become ready at the same instant is picked is open.
 */
module ServerCheck {
  import opened Wrappers

  /** Milliseconds the pod's server has to become active. */
  const MAXIMUM_POLLING_TIME := 30_000

  datatype Ending = Refused | Established | RanOutOfTime | Interrupted

  /** One turn of the loop: the backoff delay, what was actually waited of it and then spent connecting. */
  datatype Round = Round(delay: nat, waited: nat, spent: nat, ending: Ending)

  datatype Verdict = Ready | NotReady | TooManyFailures(lastRound: nat) | Silent

  function Total(rounds: seq<Round>): nat {
    if rounds == [] then 0
    else var last := rounds[|rounds| - 1]; Total(rounds[..|rounds| - 1]) + last.waited + last.spent
  }

  lemma TotalOfLonger(rounds: seq<Round>, round: Round)
    ensures Total(rounds + [round]) == Total(rounds) + round.waited + round.spent
  {
    assert (rounds + [round])[..|rounds|] == rounds;
  }

  /** The least time that n full delays take. */
  function Least(n: nat, minimum: nat): nat {
    if n == 0 then 0 else Least(n - 1, minimum) + minimum
  }

  function Max(a: nat, b: nat): nat { if a < b then b else a }

  /** What is reported of the way the last round ended. */
  function VerdictOf(rounds: seq<Round>): Verdict
    requires rounds != []
  {
    match rounds[|rounds| - 1].ending
    case Established => Ready
    case RanOutOfTime => NotReady
    case Refused => TooManyFailures(|rounds| - 1)
    case Interrupted => Silent
  }

  /** When a connection attempt is answered, counted from its start, if ever; and how. */
  datatype Attempt = Attempt(answer: Option<nat>, accepted: bool)

  /** The delay a policy grants at the given call and time. */
  type Policy = (nat, nat) -> Option<nat>

  /** It grants one the first time, none once the polling time is exceeded, and each has a minimum. */
  ghost predicate IsPolicy(policy: Policy, minimum: nat) {
    && policy(0, 0).Some?
    && forall n: nat, elapsed: nat ::
         && (policy(n, elapsed).Some? ==> minimum <= policy(n, elapsed).value)
         && (MAXIMUM_POLLING_TIME < elapsed ==> policy(n, elapsed).None?)
  }

  /**
  A round ends with whatever comes first: the interrupt, the end of the thirty seconds (once it has
  begun to connect), or the answer to its attempt.
   */
  predicate Fits(round: Round, elapsed: nat, attempt: Attempt, kill: Option<nat>) {
    var begun := elapsed + round.delay;
    var (end, deadline) := (elapsed + round.waited + round.spent, Max(30_000, begun));
    && Complete(round)
    && end <= deadline
    && (kill.Some? ==> end <= kill.value)
    && (attempt.answer.Some? ==> end <= begun + attempt.answer.value)
    && match round.ending
       case Interrupted => kill == Some(end)
       case RanOutOfTime => end == deadline
       case Established => attempt.accepted && attempt.answer == Some(round.spent)
       case Refused => !attempt.accepted && attempt.answer == Some(round.spent)
  }

  /** Each round has the delay the policy granted, and ended as its attempt and the interrupt would have it. */
  ghost predicate Course(rounds: seq<Round>, policy: Policy, network: nat -> Attempt, kill: Option<nat>) {
    rounds != [] ==>
      var (before, last) := (rounds[..|rounds| - 1], rounds[|rounds| - 1]);
      && Course(before, policy, network, kill)
      && policy(|before|, Total(before)) == Some(last.delay)
      && Fits(last, Total(before), network(|before|), kill)
  }

  lemma CourseGrows(rounds: seq<Round>, round: Round, policy: Policy, network: nat -> Attempt, kill: Option<nat>)
    requires Course(rounds, policy, network, kill)
    requires policy(|rounds|, Total(rounds)) == Some(round.delay)
    requires Fits(round, Total(rounds), network(|rounds|), kill)
    ensures Course(rounds + [round], policy, network, kill)
  {
    assert (rounds + [round])[..|rounds|] == rounds;
  }

  ghost predicate AllRefused(rounds: seq<Round>) {
    forall i :: 0 <= i < |rounds| ==> rounds[i].ending.Refused? && rounds[i].waited == rounds[i].delay
  }

  /** A round is cut short by nothing but the interrupt, and one cut short in its delay never tries to connect. */
  predicate Complete(round: Round) {
    if round.ending.Interrupted? then round.waited < round.delay ==> round.spent == 0
    else round.waited == round.delay
  }

  /**
  What the loop comes to. It has gone through rounds the policy granted, and stopped because the last of
  them ended with anything but a refusal, which is its verdict, or because the policy granted no
  more. It has decided within the polling time plus the last delay and no later than the interrupt. All
  rounds but the last were refused, so when it gives up it always has a refusal to show; and
  `minimum`, the least delay granted, bounds the rounds.
   */
  ghost predicate Outcome(verdict: Verdict, rounds: seq<Round>, elapsed: nat, policy: Policy, network: nat -> Attempt,
                          kill: Option<nat>, minimum: nat)
    requires minimum > 0
  {
    && rounds != [] && elapsed == Total(rounds) && verdict == VerdictOf(rounds)
    && Course(rounds, policy, network, kill)
    && AllRefused(rounds[..|rounds| - 1]) && Complete(rounds[|rounds| - 1])
    && (verdict.TooManyFailures? ==> policy(|rounds|, elapsed).None?)
    && elapsed <= 30_000 + rounds[|rounds| - 1].delay
    && |rounds| <= 30_000 / minimum + 1
    && (kill.Some? ==> elapsed <= kill.value)
    && (verdict.Silent? ==> kill == Some(elapsed))
    && (verdict.NotReady? ==> elapsed >= 30_000)
  }

  method Check(policy: Policy, network: nat -> Attempt, kill: Option<nat>, minimum: nat)
    returns (verdict: Verdict, rounds: seq<Round>, elapsed: nat)
    requires minimum > 0 && IsPolicy(policy, minimum)
    ensures Outcome(verdict, rounds, elapsed, policy, network, kill, minimum)
  {
    rounds, elapsed := [], 0;
    var latestError: Option<nat> := None;
    while true
      invariant Going(rounds, elapsed, minimum, policy, network, kill)
      invariant latestError == if rounds == [] then None else Some(|rounds| - 1)
      decreases MAXIMUM_POLLING_TIME + 1 - elapsed
    {
      var granted := policy(|rounds|, elapsed);
      if granted.None? {
        GivesUp(rounds, elapsed, minimum, policy, network, kill);
        return TooManyFailures(latestError.value), rounds, elapsed;
      }
      var round := Turn(elapsed, granted.value, network(|rounds|), kill);
      var (longer, end) := (rounds + [round], elapsed + round.waited + round.spent);
      RoundCounts(rounds, elapsed, minimum, policy, network, kill, round, longer, end);
      match round.ending {
        case Refused => latestError := Some(|rounds|);
        case Established => return Ready, longer, end;
        case RanOutOfTime => return NotReady, longer, end;
        case Interrupted => return Silent, longer, end;
      }
      rounds, elapsed := longer, end;
    }
  }

  lemma GivesUp(rounds: seq<Round>, elapsed: nat, minimum: nat, policy: Policy, network: nat -> Attempt,
                kill: Option<nat>)
    requires minimum > 0 && IsPolicy(policy, minimum) && Going(rounds, elapsed, minimum, policy, network, kill)
    requires policy(|rounds|, elapsed).None?
    ensures rounds != []
    ensures Outcome(TooManyFailures(|rounds| - 1), rounds, elapsed, policy, network, kill, minimum)
  {
    RoundsBound(|rounds|, minimum);
  }

  /** Where the loop stands when it comes round: every round so far was refused. */
  ghost predicate Going(rounds: seq<Round>, elapsed: nat, minimum: nat, policy: Policy, network: nat -> Attempt,
                        kill: Option<nat>)
  {
    && (rounds == [] ==> elapsed == 0)
    && (rounds != [] ==> Account(rounds, elapsed, minimum))
    && AllRefused(rounds) && elapsed >= Least(|rounds|, minimum)
    && Course(rounds, policy, network, kill)
    && (kill.Some? ==> elapsed <= kill.value)
  }

  /** One more round: the loop comes round after a refusal, and knows enough to stop after anything else. */
  lemma RoundCounts(rounds: seq<Round>, elapsed: nat, minimum: nat, policy: Policy, network: nat -> Attempt,
                    kill: Option<nat>, round: Round, longer: seq<Round>, end: nat)
    requires longer == rounds + [round] && end == elapsed + round.waited + round.spent
    requires minimum > 0 && IsPolicy(policy, minimum) && Going(rounds, elapsed, minimum, policy, network, kill)
    requires policy(|rounds|, elapsed) == Some(round.delay) && Fits(round, elapsed, network(|rounds|), kill)
    ensures match round.ending
            case Refused =>
              Going(longer, end, minimum, policy, network, kill) && elapsed < end && elapsed <= MAXIMUM_POLLING_TIME
            case Established => Outcome(Ready, longer, end, policy, network, kill, minimum)
            case RanOutOfTime => Outcome(NotReady, longer, end, policy, network, kill, minimum)
            case Interrupted => Outcome(Silent, longer, end, policy, network, kill, minimum)
  {
    AccountGrows(rounds, elapsed, minimum, round);
    CourseGrows(rounds, round, policy, network, kill);
    RoundsBound(|rounds| + 1, minimum);
  }

  /** What is known of the rounds gone through, however the last of them ended. */
  ghost predicate Account(rounds: seq<Round>, elapsed: nat, minimum: nat)
    requires rounds != []
  {
    && elapsed == Total(rounds)
    && AllRefused(rounds[..|rounds| - 1]) && Complete(rounds[|rounds| - 1])
    && elapsed <= MAXIMUM_POLLING_TIME + rounds[|rounds| - 1].delay
    && Least(|rounds| - 1, minimum) <= MAXIMUM_POLLING_TIME
  }

  lemma AccountGrows(rounds: seq<Round>, elapsed: nat, minimum: nat, round: Round)
    requires AllRefused(rounds) && Least(|rounds|, minimum) <= elapsed <= MAXIMUM_POLLING_TIME
    requires if rounds == [] then elapsed == 0 else Account(rounds, elapsed, minimum)
    requires elapsed + round.waited + round.spent <= Max(MAXIMUM_POLLING_TIME, elapsed + round.delay)
    requires minimum <= round.delay && Complete(round)
    ensures Account(rounds + [round], elapsed + round.waited + round.spent, minimum)
    ensures round.ending.Refused? ==>
              AllRefused(rounds + [round]) && Least(|rounds| + 1, minimum) <= elapsed + round.waited + round.spent
  {
    assert (rounds + [round])[..|rounds|] == rounds;
    TotalOfLonger(rounds, round);
  }

  /**
  One turn: wait out the delay, then try to connect for as long as patience lasts; the interrupt
  cuts either short. Ties go either way.
   */
  method Turn(elapsed: nat, delay: nat, attempt: Attempt, kill: Option<nat>) returns (round: Round)
    requires kill.Some? ==> elapsed <= kill.value
    ensures round.delay == delay && Fits(round, elapsed, attempt, kill)
  {
    var begun := elapsed + delay;
    var tie: bool := *;
    if kill.Some? && (kill.value < begun || (kill.value == begun && tie)) {
      return Round(delay, kill.value - elapsed, 0, Interrupted);
    }
    var end := Max(MAXIMUM_POLLING_TIME, begun);
    if attempt.answer.Some? && begun + attempt.answer.value < end {
      end := begun + attempt.answer.value;
    }
    if kill.Some? && kill.value < end {
      end := kill.value;
    }
    var ending;
    if {
      case attempt.answer == Some(end - begun) => ending := if attempt.accepted then Established else Refused;
      case end == Max(MAXIMUM_POLLING_TIME, begun) => ending := RanOutOfTime;
      case kill == Some(end) => ending := Interrupted;
    }
    round := Round(delay, delay, end - begun, ending);
  }

  /** That leaves room for at most MAXIMUM_POLLING_TIME / minimum + 1 rounds. */
  lemma RoundsBound(n: nat, minimum: nat)
    requires minimum > 0 && n > 0 && Least(n - 1, minimum) <= MAXIMUM_POLLING_TIME
    ensures n <= MAXIMUM_POLLING_TIME / minimum + 1
  {
    var q := MAXIMUM_POLLING_TIME / minimum;
    assert (q + 1) * minimum > MAXIMUM_POLLING_TIME;
    LeastIsProduct(q + 1, minimum);
    if n - 1 > q {
      LeastGrows(q + 1, n - 1, minimum);
    }
  }

  lemma {:induction false} LeastIsProduct(n: nat, minimum: nat)
    ensures Least(n, minimum) == n * minimum
  {
    if n > 0 {
      LeastIsProduct(n - 1, minimum);
      assert n * minimum == (n - 1) * minimum + minimum;
    }
  }

  lemma {:induction false} LeastGrows(a: nat, b: nat, minimum: nat)
    requires a <= b
    ensures Least(a, minimum) <= Least(b, minimum)
  {
    if a < b {
      LeastGrows(a, b - 1, minimum);
    }
  }
}
