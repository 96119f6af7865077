/**
The timed loop of the health checker inside the protocol: whatever `ServerCheck.Check` goes
through is a run of the protocol's checker, tick by tick, so its bounds hold of phase 2 there.
 */
module CheckRun {
  import opened Wrappers
  import opened Protocol
  import opened PodManager
  import SC = ServerCheck

  /** What one round does: a delay, then an attempt to connect, unless the interrupt comes during the delay. */
  function RoundMoves(round: SC.Round, kill: WatcherMove): seq<Move> {
    var start := [C(AskBackoff(true)), Tick(round.waited)];
    if round.ending.Interrupted? && round.waited < round.delay then start + [W(kill), C(Interrupt)]
    else
      start + [C(PauseOver), Tick(round.spent)] +
      match round.ending
      case Refused => [C(Connect(false))]
      case Established => [C(Connect(true))]
      case RanOutOfTime => [C(RunOutOfTime)]
      case Interrupted => [W(kill), C(Interrupt)]
  }

  function AllMoves(rounds: seq<SC.Round>, kill: WatcherMove): seq<Move> {
    if rounds == [] then []
    else AllMoves(rounds[..|rounds| - 1], kill) + RoundMoves(rounds[|rounds| - 1], kill)
  }

  /** A loop that ends with a refusal has asked for one delay more and was granted none. */
  function Trace(rounds: seq<SC.Round>, kill: WatcherMove): seq<Move>
    requires rounds != []
  {
    AllMoves(rounds, kill) + if rounds[|rounds| - 1].ending.Refused? then [C(AskBackoff(false))] else []
  }

  /** What the watcher finds in the channel when the checker has decided. */
  function Told(verdict: SC.Verdict): Option<Health> {
    match verdict
    case Ready => Some(Healthy)
    case NotReady => Some(Ill(NotReady))
    case TooManyFailures(_) => Some(Ill(TooManyFailures))
    case Silent => None
  }

  /** The check has just been started. */
  predicate Starting(s: System) {
    s.w.pc.Phase2? && s.c.pc == Deciding(0, false) && s.c.endpoint.Some? && s.c.outcome.None?
  }

  /** An event that makes the watcher kill the check. */
  predicate Kills(s: System, kill: WatcherMove) {
    kill.Poll? && WatcherEnabled(s, kill) && ApplyWatcher(s, kill).w.pc.Killing?
  }

  /** The system after n rounds that were refused and took `time`. */
  function Refused(s: System, n: nat, time: nat): System {
    s.(now := s.now + time, c := s.c.(pc := Deciding(n, n > 0)))
  }

  lemma NoneRefused(s: System)
    requires Starting(s)
    ensures Refused(s, 0, 0) == s
  {
  }

  lemma RoundStarts(ttl: nat, moves: seq<Move>, waited: nat) returns (longer: seq<Move>)
    requires IsRun(ttl, moves) && After(ttl, moves).c.pc.Deciding?
    ensures longer == moves + [C(AskBackoff(true)), Tick(waited)] && IsRun(ttl, longer)
    ensures var s := After(ttl, moves);
            After(ttl, longer) == s.(now := s.now + waited, c := s.c.(pc := Pausing(s.c.pc.asked + 1, s.c.pc.failed)))
  {
    longer := Extend(ttl, moves, C(AskBackoff(true)));
    longer := Extend(ttl, longer, Tick(waited));
    assert moves + [C(AskBackoff(true)), Tick(waited)] == moves + [C(AskBackoff(true))] + [Tick(waited)];
  }

  /** The delay is over and the connection is being tried. */
  lemma RoundConnects(ttl: nat, moves: seq<Move>, waited: nat, spent: nat) returns (longer: seq<Move>)
    requires IsRun(ttl, moves) && After(ttl, moves).c.pc.Deciding?
    ensures longer == moves + ([C(AskBackoff(true)), Tick(waited)] + [C(PauseOver), Tick(spent)]) && IsRun(ttl, longer)
    ensures var s := After(ttl, moves);
            After(ttl, longer) ==
            s.(now := s.now + waited + spent, c := s.c.(pc := Connecting(s.c.pc.asked + 1, s.c.pc.failed)))
  {
    longer := RoundStarts(ttl, moves, waited);
    longer := Extend(ttl, longer, C(PauseOver));
    longer := Extend(ttl, longer, Tick(spent));
  }

  lemma RefusedRound(ttl: nat, moves: seq<Move>, round: SC.Round, kill: WatcherMove, s: System, n: nat, time: nat)
    returns (longer: seq<Move>)
    requires IsRun(ttl, moves) && After(ttl, moves) == Refused(s, n, time) && Starting(s) && round.ending.Refused?
    ensures longer == moves + RoundMoves(round, kill) && IsRun(ttl, longer)
    ensures After(ttl, longer) == Refused(s, n + 1, time + round.waited + round.spent)
  {
    longer := RoundConnects(ttl, moves, round.waited, round.spent);
    longer := Extend(ttl, longer, C(Connect(false)));
  }

  /** The last round taken off a trace. */
  lemma OneMoreRound(moves: seq<Move>, rounds: seq<SC.Round>, kill: WatcherMove)
    requires rounds != []
    ensures var (before, last) := (rounds[..|rounds| - 1], rounds[|rounds| - 1]);
            && moves + AllMoves(rounds, kill) == (moves + AllMoves(before, kill)) + RoundMoves(last, kill)
            && SC.Total(rounds) == SC.Total(before) + last.waited + last.spent
            && (SC.AllRefused(rounds) <==> SC.AllRefused(before) && last.ending.Refused? && last.waited == last.delay)
  {
    var (before, last) := (rounds[..|rounds| - 1], rounds[|rounds| - 1]);
    assert rounds == before + [last];
  }

  lemma {:induction false} RefusedRounds(ttl: nat, moves: seq<Move>, rounds: seq<SC.Round>,
                                         kill: WatcherMove, s: System)
    returns (longer: seq<Move>)
    requires IsRun(ttl, moves) && After(ttl, moves) == s && Starting(s) && SC.AllRefused(rounds)
    ensures longer == moves + AllMoves(rounds, kill) && IsRun(ttl, longer)
    ensures After(ttl, longer) == Refused(s, |rounds|, SC.Total(rounds))
    decreases |rounds|
  {
    if rounds == [] {
      longer := moves;
      NoneRefused(s);
      assert moves + AllMoves(rounds, kill) == moves;
    } else {
      OneMoreRound(moves, rounds, kill);
      var (before, last) := (rounds[..|rounds| - 1], rounds[|rounds| - 1]);
      longer := RefusedRounds(ttl, moves, before, kill, s);
      longer := RefusedRound(ttl, longer, last, kill, s, |before|, SC.Total(before));
    }
  }

  /** What the last round leaves behind: time has passed, the checker is done and has told the watcher its verdict. */
  ghost predicate Decided(s: System, t: System, time: nat, verdict: SC.Verdict) {
    t.now == s.now + time && t.c.pc.Finished? && t.c.outcome == Told(verdict) && t.c.endpoint == s.c.endpoint
  }

  /** The interrupt, wherever it finds the checker. */
  lemma Interrupted(ttl: nat, moves: seq<Move>, kill: WatcherMove) returns (longer: seq<Move>)
    requires IsRun(ttl, moves) && Kills(After(ttl, moves), kill) && After(ttl, moves).w.pc.Phase2?
    requires After(ttl, moves).c.pc.Pausing? || After(ttl, moves).c.pc.Connecting?
    ensures longer == moves + [W(kill), C(Interrupt)] && IsRun(ttl, longer)
    ensures var (s, t) := (After(ttl, moves), After(ttl, longer));
            t.now == s.now && t.c.pc.Finished? && t.c.outcome == s.c.outcome && t.c.endpoint == s.c.endpoint
  {
    longer := Extend(ttl, moves, W(kill));
    KillSets(After(ttl, moves), kill);
    longer := Extend(ttl, longer, C(Interrupt));
  }

  lemma KillSets(s: System, kill: WatcherMove)
    requires Kills(s, kill) && s.w.pc.Phase2?
    ensures var t := ApplyWatcher(s, kill); t.c == s.c.(sigint := true) && t.now == s.now
  {
  }

  /** Whether an event kills does not depend on the clock or on the checker. */
  lemma KillsStill(s: System, t: System, kill: WatcherMove)
    requires Kills(s, kill) && t.w == s.w
    ensures Kills(t, kill)
  {
  }

  /** The last round, if it was interrupted. */
  lemma InterruptedRound(ttl: nat, moves: seq<Move>, round: SC.Round, kill: WatcherMove, s: System, n: nat, time: nat)
    returns (longer: seq<Move>)
    requires IsRun(ttl, moves) && After(ttl, moves) == Refused(s, n, time) && Starting(s)
    requires round.ending.Interrupted? && SC.Complete(round) && Kills(s, kill)
    ensures longer == moves + RoundMoves(round, kill) && IsRun(ttl, longer)
    ensures Decided(s, After(ttl, longer), time + round.waited + round.spent, SC.Silent)
  {
    if round.waited < round.delay {
      longer := RoundStarts(ttl, moves, round.waited);
    } else {
      longer := RoundConnects(ttl, moves, round.waited, round.spent);
    }
    longer := Killed(ttl, longer, kill, s);
  }

  /** The interrupt, at any time since the check was started. */
  lemma Killed(ttl: nat, moves: seq<Move>, kill: WatcherMove, s: System) returns (longer: seq<Move>)
    requires IsRun(ttl, moves) && Starting(s) && Kills(s, kill)
    requires var t := After(ttl, moves);
             t.w == s.w && t.c == s.c.(pc := t.c.pc) && (t.c.pc.Pausing? || t.c.pc.Connecting?)
    ensures longer == moves + [W(kill), C(Interrupt)] && IsRun(ttl, longer)
    ensures var (t, u) := (After(ttl, moves), After(ttl, longer));
            u.now == t.now && u.c.pc.Finished? && u.c.outcome.None? && u.c.endpoint == s.c.endpoint
  {
    KillsStill(s, After(ttl, moves), kill);
    longer := Interrupted(ttl, moves, kill);
  }

  /** The last round, if it decided. */
  lemma DecidingRound(ttl: nat, moves: seq<Move>, round: SC.Round, kill: WatcherMove, s: System, n: nat, time: nat)
    returns (longer: seq<Move>)
    requires IsRun(ttl, moves) && After(ttl, moves) == Refused(s, n, time) && Starting(s)
    requires round.ending.Established? || round.ending.RanOutOfTime?
    ensures longer == moves + RoundMoves(round, kill) && IsRun(ttl, longer)
    ensures Decided(s, After(ttl, longer), time + round.waited + round.spent,
                    if round.ending.Established? then SC.Ready else SC.NotReady)
  {
    longer := RoundConnects(ttl, moves, round.waited, round.spent);
    longer := Extend(ttl, longer, if round.ending.Established? then C(Connect(true)) else C(RunOutOfTime));
  }

  /** The loop gives up: one delay more is asked for and not granted. */
  lemma GivesUp(ttl: nat, moves: seq<Move>, s: System, n: nat, time: nat) returns (longer: seq<Move>)
    requires IsRun(ttl, moves) && After(ttl, moves) == Refused(s, n, time) && Starting(s) && n > 0
    ensures longer == moves + [C(AskBackoff(false))] && IsRun(ttl, longer)
    ensures Decided(s, After(ttl, longer), time, SC.TooManyFailures(n - 1))
  {
    longer := Extend(ttl, moves, C(AskBackoff(false)));
  }

  lemma LastRound(ttl: nat, moves: seq<Move>, before: seq<SC.Round>, round: SC.Round, kill: WatcherMove, s: System)
    returns (longer: seq<Move>)
    requires IsRun(ttl, moves) && After(ttl, moves) == Refused(s, |before|, SC.Total(before)) && Starting(s)
    requires SC.Complete(round) && (round.ending.Interrupted? ==> Kills(s, kill))
    ensures longer == moves + RoundMoves(round, kill) + (if round.ending.Refused? then [C(AskBackoff(false))] else [])
    ensures IsRun(ttl, longer)
    ensures Decided(s, After(ttl, longer), SC.Total(before) + round.waited + round.spent,
                    SC.VerdictOf(before + [round]))
  {
    var (n, time) := (|before|, SC.Total(before));
    if round.ending.Refused? {
      longer := RefusedRound(ttl, moves, round, kill, s, n, time);
      longer := GivesUp(ttl, longer, s, n + 1, time + round.waited + round.spent);
    } else if round.ending.Interrupted? {
      longer := InterruptedRound(ttl, moves, round, kill, s, n, time);
    } else {
      longer := DecidingRound(ttl, moves, round, kill, s, n, time);
    }
  }

  /**
  Every course the timed loop can take is a run of the protocol from where the check is started:
  each of its steps is enabled, the clock shows exactly the time it takes, and the watcher finds the
  verdict it decides on. `kill` is the event that interrupts it, if one does.
   */
  lemma CheckIsARun(ttl: nat, moves: seq<Move>, rounds: seq<SC.Round>, kill: WatcherMove, s: System)
    returns (longer: seq<Move>)
    requires IsRun(ttl, moves) && After(ttl, moves) == s && Starting(s)
    requires rounds != [] && SC.AllRefused(rounds[..|rounds| - 1]) && SC.Complete(rounds[|rounds| - 1])
    requires rounds[|rounds| - 1].ending.Interrupted? ==> Kills(s, kill)
    ensures longer == moves + Trace(rounds, kill) && IsRun(ttl, longer)
    ensures Decided(s, After(ttl, longer), SC.Total(rounds), SC.VerdictOf(rounds))
  {
    var (before, last) := (rounds[..|rounds| - 1], rounds[|rounds| - 1]);
    longer := RefusedRounds(ttl, moves, before, kill, s);
    longer := LastRound(ttl, longer, before, last, kill, s);
    TraceIs(moves, rounds, kill);
  }

  /** A trace is that of the rounds before the last, then the last and what is asked after it. */
  lemma TraceIs(moves: seq<Move>, rounds: seq<SC.Round>, kill: WatcherMove)
    requires rounds != []
    ensures var (before, last) := (rounds[..|rounds| - 1], rounds[|rounds| - 1]);
            && before + [last] == rounds
            && SC.Total(rounds) == SC.Total(before) + last.waited + last.spent
            && moves + Trace(rounds, kill) ==
               moves + AllMoves(before, kill) + RoundMoves(last, kill)
               + (if last.ending.Refused? then [C(AskBackoff(false))] else [])
  {
    OneMoreRound(moves, rounds, kill);
  }

  /**
  So the bounds of the loop hold of the protocol's clock: from any state a run can start the check
  in, the loop takes it to a decided one within thirty seconds and the last delay.
   */
  method CheckInPhase2(ttl: nat, ghost moves: seq<Move>, policy: SC.Policy, network: nat -> SC.Attempt,
                       interrupt: Option<nat>, minimum: nat, ghost kill: WatcherMove)
    returns (verdict: SC.Verdict, rounds: seq<SC.Round>, ghost longer: seq<Move>)
    requires minimum > 0 && SC.IsPolicy(policy, minimum)
    requires IsRun(ttl, moves) && Starting(After(ttl, moves))
    requires interrupt.Some? ==> Kills(After(ttl, moves), kill)
    ensures rounds != [] && |rounds| <= 30_000 / minimum + 1
    ensures SC.Course(rounds, policy, network, interrupt)
    ensures IsRun(ttl, longer) && longer == moves + Trace(rounds, kill)
    ensures Decided(After(ttl, moves), After(ttl, longer), SC.Total(rounds), verdict)
    ensures SC.Total(rounds) <= 30_000 + rounds[|rounds| - 1].delay
    ensures interrupt.Some? ==> SC.Total(rounds) <= interrupt.value
  {
    var elapsed;
    verdict, rounds, elapsed := SC.Check(policy, network, interrupt, minimum);
    longer := CheckIsARun(ttl, moves, rounds, kill, After(ttl, moves));
  }
}
