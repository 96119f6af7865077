/**
No run is ever stuck: from every state that can be reached, the four tasks can still wind down
and the cleanup can still run, without a panic anywhere.

`NextStep` picks a move that brings that closer, whatever the state: Kubernetes stops answering,
the watcher gives up, and everyone finishes what they are at.
 */
module WindDown {
  import opened Wrappers
  import opened Pods
  import opened Protocol
  import opened Signals
  import opened Results
  import opened Checks
  import opened PodManager
  import opened Frames
  import Watcher

  // ----- how far each task has to go

  function WatcherDistance(pc: WatcherPc): nat {
    match pc
    case Returned => 0
    case WatcherPanicked => 0
    case DeletingPod => 1
    case StoppingGc => 2
    case Closing => 2
    case Failing(_) => 3
    case Phase3 => 4
    case Asleep3 => 5
    case Reporting => 5
    case Killing(_) => 6
    case Joining(_) => 6
    case Phase2 => 7
    case Asleep2 => 8
    case Announcing => 9
    case Phase1 => 10
    case Asleep1 => 11
  }

  function CheckerDistance(pc: CheckerPc): nat {
    match pc
    case Deciding(_, _) => 2
    case Pausing(_, _) => 1
    case Connecting(_, _) => 1
    case _ => 0
  }

  function CollectorDistance(pc: CollectorPc): nat {
    match pc
    case AwaitingGo => 5
    case Arming => 4
    case Patching => 3
    case Armed => 2
    case Deleting(_) => 1
    case _ => 0
  }

  function ShimDistance(s: System): nat {
    match s.h.pc
    case AwaitingResult => 4
    case AtBarrier(released) => if released || s.h.deadline <= s.now then 2 else 3
    case Forwarding => 1
    case Over => 0
  }

  function Distance(s: System): nat {
    100 * WatcherDistance(s.w.pc) + CheckerDistance(s.c.pc) + 5 * CollectorDistance(s.g.pc) + ShimDistance(s)
    + if s.m.cleaned then 0 else 1
  }

  // ----- the way there

  /** An answer that tells the watcher nothing but that Kubernetes is not well. */
  function Outage(stream: Watcher.State): Watcher.Response<PodBody> {
    match stream
    case Empty => Watcher.ListFailed
    case InitListed(_) => Watcher.WatchRefused
    case Watching(_) => Watcher.Broken
  }

  function WatcherNext(s: System): Move
    requires WatcherAlive(s.w)
  {
    match s.w.pc
    case Announcing => W(Announce(true))
    case Reporting => W(Report)
    case Failing(_) => if CanReport(s.h) then W(SendFailure) else H(TakeResult)
    case StoppingGc => W(StopGc)
    case Closing => W(StopGc)
    case DeletingPod => W(DeletePod)
    case Killing(_) => if CheckerDone(s.c) then W(CheckerOver) else C(CheckerNext(s.c.pc))
    case Joining(_) => W(CheckerOver)
    case Asleep1 => W(Wake)
    case Asleep2 => W(Wake)
    case Asleep3 => W(Wake)
    case _ => W(Poll(Outage(s.w.stream), true))
  }

  function CheckerNext(pc: CheckerPc): CheckerMove {
    if pc.Deciding? then AskBackoff(true) else Interrupt
  }

  function CollectorNext(pc: CollectorPc): CollectorMove {
    match pc
    case Arming => Arm(true)
    case Patching => Patch(true)
    case Deleting(_) => Delete(true)
    case _ => Hear
  }

  function ShimNext(s: System): Move {
    match s.h.pc
    case AwaitingResult => H(TakeResult)
    case AtBarrier(released) =>
      if released then H(ShimPasses)
      else if s.h.deadline <= s.now then H(LosePatience)
      else Tick(s.h.deadline - s.now)
    case _ => H(Forward)
  }

  function NextStep(s: System): Move {
    if WatcherAlive(s.w) then WatcherNext(s)
    else if CollectorAlive(s.g) then G(CollectorNext(s.g.pc))
    else if ShimAlive(s.h) then ShimNext(s)
    else Cleanup
  }

  predicate IsPanic(move: Move) {
    || move == W(PanicWatcher) || move == C(PanicChecker)
    || move == G(Arm(false)) || move == G(Patch(false)) || move == G(Delete(false))
  }

  // ----- every step can be taken, and brings the end closer

  ghost predicate Approaches(s: System, move: Move) {
    Enabled(s, move) && !IsPanic(move) && Distance(Apply(s, move)) < Distance(s)
  }

  lemma PollApproaches(s: System)
    requires InPhase(s.w.pc)
    ensures Approaches(s, W(Poll(Outage(s.w.stream), true)))
  {
    var (item, next) := Watcher.StepTrampolined(s.w.stream, Outage(s.w.stream));
    assert item.Some? && item.value.Err?;
    var t := Apply(s, W(Poll(Outage(s.w.stream), true)));
    assert t == Hand(s.(w := s.w.(stream := next)), item, true);
  }

  lemma CheckerApproaches(s: System)
    requires s.w.pc.Killing? && CheckerInv(s.w, s.c) && !CheckerDone(s.c)
    ensures Approaches(s, C(CheckerNext(s.c.pc)))
  {
    CheckerFrame(s, CheckerNext(s.c.pc));
  }

  /** A pending send that goes ahead takes the watcher on its way. */
  lemma SendAdvances(s: System, send: WatcherMove)
    requires PendingSend(s.w.pc) == Some(send) && WatcherEnabled(s, send)
    ensures WatcherDistance(ApplyWatcher(s, send).w.pc) < WatcherDistance(s.w.pc)
  {
  }

  lemma SendApproaches(s: System)
    requires SignalInv(s.w, s.g) && ResultInv(s.w, s.h) && PendingSend(s.w.pc).Some? && WatcherNext(s).W?
    ensures Approaches(s, WatcherNext(s))
  {
    SendOrDrain(s);
    var send := PendingSend(s.w.pc).value;
    SendAdvances(s, send);
    WatcherCosts(s, send);
  }

  /** What a move of the watcher can add to the distance of the others. */
  lemma WatcherCosts(s: System, move: WatcherMove)
    requires WatcherEnabled(s, move)
    ensures Distance(ApplyWatcher(s, move)) <=
            Distance(s) + 100 * WatcherDistance(ApplyWatcher(s, move).w.pc) - 100 * WatcherDistance(s.w.pc) + 2
  {
    WatcherFrame(s, move);
    BirthIsCheap(s, move);
  }

  lemma DrainApproaches(s: System)
    requires ResultInv(s.w, s.h) && s.w.pc.Failing? && !CanReport(s.h)
    ensures Approaches(s, H(TakeResult))
  {
    ShimFrame(s, TakeResult);
  }

  /** A move of the watcher may start the checker, but that costs less than it gains. */
  lemma BirthIsCheap(s: System, move: WatcherMove)
    requires WatcherEnabled(s, move)
    ensures CheckerDistance(ApplyWatcher(s, move).c.pc) <= CheckerDistance(s.c.pc) + 2
  {
  }

  lemma RestApproaches(s: System)
    requires WatcherAlive(s.w) && CheckerInv(s.w, s.c) && PendingSend(s.w.pc).None? && !InPhase(s.w.pc)
    requires s.w.pc.Killing? ==> CheckerDone(s.c)
    ensures Approaches(s, WatcherNext(s))
  {
  }

  lemma CollectorApproaches(s: System)
    requires SignalInv(s.w, s.g) && !WatcherAlive(s.w) && CollectorAlive(s.g)
    ensures Approaches(s, G(CollectorNext(s.g.pc)))
  {
    var move := CollectorNext(s.g.pc);
    CollectorFrame(s, move);
    if move.Hear? && s.g.status != [] {
      assert s.w.signals[|s.g.received|] == s.g.status[0];
    }
    assert ApplyCollector(s, move).m.cleaned == s.m.cleaned;
  }

  lemma ShimApproaches(s: System)
    requires OutboxInv(s.h, s.m) && !WatcherAlive(s.w) && ShimAlive(s.h)
    ensures Approaches(s, ShimNext(s))
  {
    if ShimNext(s).H? {
      ShimFrame(s, ShimNext(s).h);
    }
  }

  lemma NextStepApproaches(s: System)
    requires Inv(s) && !s.m.cleaned
    ensures Approaches(s, NextStep(s))
  {
    if WatcherAlive(s.w) {
      if InPhase(s.w.pc) {
        PollApproaches(s);
      } else if PendingSend(s.w.pc).Some? {
        if WatcherNext(s).W? {
          SendApproaches(s);
        } else {
          DrainApproaches(s);
        }
      } else if s.w.pc.Killing? && !CheckerDone(s.c) {
        CheckerApproaches(s);
      } else {
        RestApproaches(s);
      }
    } else if CollectorAlive(s.g) {
      CollectorApproaches(s);
    } else if ShimAlive(s.h) {
      ShimApproaches(s);
    } else {
      CleanupApproaches(s);
    }
  }

  lemma CleanupApproaches(s: System)
    requires !WatcherAlive(s.w) && !CollectorAlive(s.g) && !ShimAlive(s.h) && !s.m.cleaned
    ensures Approaches(s, Cleanup)
  {
  }

  ghost predicate NoPanicIn(moves: seq<Move>) {
    forall move :: move in moves ==> !IsPanic(move)
  }

  lemma OneStepCloser(ttl: nat, moves: seq<Move>) returns (move: Move)
    requires IsRun(ttl, moves) && !After(ttl, moves).m.cleaned
    ensures !IsPanic(move) && IsRun(ttl, moves + [move])
    ensures Distance(After(ttl, moves + [move])) < Distance(After(ttl, moves))
  {
    move := NextStep(After(ttl, moves));
    InvHolds(ttl, moves);
    NextStepApproaches(After(ttl, moves));
    var longer := Extend(ttl, moves, move);
  }

  /** After `moves`, `more` brings the run to its cleanup without a panic. */
  ghost predicate Winds(ttl: nat, moves: seq<Move>, more: seq<Move>) {
    IsRun(ttl, moves + more) && After(ttl, moves + more).m.cleaned && NoPanicIn(more)
  }

  lemma WindsFromHere(ttl: nat, moves: seq<Move>)
    requires IsRun(ttl, moves) && After(ttl, moves).m.cleaned
    ensures Winds(ttl, moves, [])
  {
    assert moves + [] == moves;
  }

  lemma WindsFromBefore(ttl: nat, moves: seq<Move>, move: Move, rest: seq<Move>)
    requires !IsPanic(move) && Winds(ttl, moves + [move], rest)
    ensures Winds(ttl, moves, [move] + rest)
  {
    assert moves + ([move] + rest) == moves + [move] + rest;
  }

  /**
  From every reachable state there is a continuation, free of panics and no longer than the
  distance, after which the cleanup has run.
   */
  lemma {:induction false} CanAlwaysWindDown(ttl: nat, moves: seq<Move>, bound: nat) returns (more: seq<Move>)
    requires IsRun(ttl, moves) && Distance(After(ttl, moves)) <= bound
    ensures Winds(ttl, moves, more) && |more| <= bound
    decreases bound
  {
    if After(ttl, moves).m.cleaned {
      more := [];
      WindsFromHere(ttl, moves);
    } else {
      var move := OneStepCloser(ttl, moves);
      var rest := CanAlwaysWindDown(ttl, moves + [move], bound - 1);
      WindsFromBefore(ttl, moves, move, rest);
      more := [move] + rest;
    }
  }
}
