/**
What the pod manager promises, over every run of the protocol: every interleaving of the four
tasks, the clients and the clock, every answer of Kubernetes and the network, and, unless a
claim says otherwise, every panic.
 */
module PodManager {
  import opened Wrappers
  import opened Pods
  import opened Protocol
  import opened Signals
  import opened Results
  import opened Checks
  import opened Tickets
  import opened Evidence
  import opened Endings
  import opened Frames
  import Watcher

  ghost predicate Inv(s: System) {
    && SignalInv(s.w, s.g) && SignalAlarms(s)
    && ResultInv(s.w, s.h) && ResultAlarms(s)
    && WaitInv(s.h, s.m) && PatienceInv(s)
    && CheckerInv(s.w, s.c) && CheckerAlarms(s)
    && TicketInv(s)
    && SightingInv(s.w, s.log) && ConnectionInv(s) && ReportInv(s) && AnswerInv(s.log, s.now, s.m.client, s.m.leases)
    && RelistInv(s) && DeleteInv(s) && CacheInv(s)
  }

  lemma InvStep(s: System, move: Move)
    requires Inv(s) && Enabled(s, move)
    ensures Inv(Apply(s, move))
  {
    SignalStep(s, move);
    SignalAlarmStep(s, move);
    ResultStep(s, move);
    ResultAlarmStep(s, move);
    WaitStep(s, move);
    PatienceStep(s, move);
    CheckerStep(s, move);
    CheckerAlarmStep(s, move);
    TicketStep(s, move);
    SightingStep(s, move);
    ConnectionStep(s, move);
    ReportStep(s, move);
    AnswerStep(s, move);
    RelistStep(s, move);
    DeleteStep(s, move);
    CacheStep(s, move);
  }

  lemma InvAtStart(ttl: nat)
    ensures Inv(Initial(ttl))
  {
  }

  lemma {:induction false} InvHolds(ttl: nat, moves: seq<Move>)
    requires IsRun(ttl, moves)
    ensures Inv(After(ttl, moves)) && After(ttl, moves).g.ttl == ttl
    decreases |moves|
  {
    if moves == [] {
      InvAtStart(ttl);
    } else {
      var before := moves[..|moves| - 1];
      InvHolds(ttl, before);
      InvStep(After(ttl, before), moves[|moves| - 1]);
      TtlIsFixed(After(ttl, before), moves[|moves| - 1]);
    }
  }

  lemma TtlIsFixed(s: System, move: Move)
    requires Enabled(s, move)
    ensures Apply(s, move).g.ttl == s.g.ttl
  {
  }

  // ----- what a success means

  /**
  `wait` returns a pod only if that very pod was observed running, the checker connected to its
  address afterwards, and the watcher reported it without having consumed a `Deleted` or
  `Restarted` event since the observation.
   */
  lemma SuccessIsCertified(ttl: nat, moves: seq<Move>, x: nat, pod: Pod)
    requires IsRun(ttl, moves)
    requires var log := After(ttl, moves).log; x < |log| && log[x] == WaitReturned(Ok(pod))
    ensures Certified(After(ttl, moves).log[..x], pod, After(ttl, moves).now)
  {
    InvHolds(ttl, moves);
  }

  /** The ticket that comes with a pod was created after its health check succeeded, and outlasts that by a TTL. */
  lemma LeaseOutlastsCheck(ttl: nat, moves: seq<Move>, lease: Lease)
    requires IsRun(ttl, moves) && lease in After(ttl, moves).m.leases
    ensures var s := After(ttl, moves);
            exists i: nat, j: nat, k: nat ::
              Proves(s.log, lease.pod, lease.ticket.created, i, j, k) && s.log[j].at + ttl <= lease.ticket.expiry
  {
    InvHolds(ttl, moves);
    var s := After(ttl, moves);
    assert lease.ticket in s.g.tickets;
    var i, j, k :| Proves(s.log, lease.pod, lease.ticket.created, i, j, k);
  }

  /** A refresh yields a ticket made after it was asked for, or none because the collector is gone. */
  lemma RefreshIsFresh(ttl: nat, moves: seq<Move>, r: Refreshed)
    requires IsRun(ttl, moves) && r in After(ttl, moves).m.refreshes
    ensures r.ticket.Some? ==> r.asked <= r.ticket.value.created && r.asked + ttl <= r.ticket.value.expiry
    ensures r.ticket.None? ==> !CollectorAlive(After(ttl, moves).g)
  {
    InvHolds(ttl, moves);
    if r.ticket.Some? {
      assert r.ticket.value in After(ttl, moves).g.tickets;
    } else {
      RefusalsNeedDeadCollector(ttl, moves, r);
    }
  }

  lemma {:induction false} RefusalsNeedDeadCollector(ttl: nat, moves: seq<Move>, r: Refreshed)
    requires IsRun(ttl, moves) && r in After(ttl, moves).m.refreshes && r.ticket.None?
    ensures !CollectorAlive(After(ttl, moves).g)
    decreases |moves|
  {
    var before := moves[..|moves| - 1];
    var (s, move) := (After(ttl, before), moves[|moves| - 1]);
    if r in s.m.refreshes {
      RefusalsNeedDeadCollector(ttl, before, r);
      DeadStayDead(s, move);
    } else {
      NewRefusal(s, move, r);
    }
  }

  lemma DeadStayDead(s: System, move: Move)
    requires Enabled(s, move) && !CollectorAlive(s.g)
    ensures !CollectorAlive(Apply(s, move).g)
  {
    match move
    case W(w) => WatcherFrame(s, w);
    case C(c) => CheckerFrame(s, c);
    case H(h) => ShimFrame(s, h);
    case K(k) => ClientFrame(s, k);
    case _ =>
  }

  /** Only a client that finds the collector gone is refused. */
  lemma NewRefusal(s: System, move: Move, r: Refreshed)
    requires Enabled(s, move) && r !in s.m.refreshes && r in Apply(s, move).m.refreshes && r.ticket.None?
    ensures !CollectorAlive(Apply(s, move).g)
  {
    match move
    case W(w) => WatcherFrame(s, w);
    case C(c) => CheckerFrame(s, c);
    case G(g) => CollectorFrame(s, g);
    case H(h) => ShimFrame(s, h);
    case K(k) => ClientRefusal(s, k, r);
    case _ =>
  }

  lemma ClientRefusal(s: System, move: ClientMove, r: Refreshed)
    requires ClientEnabled(s, move) && r !in s.m.refreshes && r in ApplyClient(s, move).m.refreshes && r.ticket.None?
    ensures !CollectorAlive(ApplyClient(s, move).g)
  {
    if !move.Collect? && !move.Request? {
      OthersTakeNothing(s, move);
    }
  }

  // ----- signals and results

  /** A watcher that returns has told the collector exactly [Terminated] or [Running, Terminated]. */
  lemma SignalsAreExact(ttl: nat, moves: seq<Move>)
    requires IsRun(ttl, moves)
    ensures var w := After(ttl, moves).w;
            w.pc.Returned? ==>
              || w.signals == [GoTerminated]
              || (w.pod.Some? && Running(w.pod.value) && w.signals == [GoRunning(w.pod.value), GoTerminated])
  {
    InvHolds(ttl, moves);
    AnnouncedPodRan(ttl, moves);
  }

  lemma {:induction false} AnnouncedPodRan(ttl: nat, moves: seq<Move>)
    requires IsRun(ttl, moves)
    ensures var w := After(ttl, moves).w; w.pod.Some? ==> Running(w.pod.value)
    decreases |moves|
  {
    if moves != [] {
      var before := moves[..|moves| - 1];
      AnnouncedPodRan(ttl, before);
      PodChangesOnlyToRunning(After(ttl, before), moves[|moves| - 1]);
    }
  }

  lemma PodChangesOnlyToRunning(s: System, move: Move)
    requires Enabled(s, move)
    ensures var w := Apply(s, move).w; w.pod == s.w.pod || (w.pod.Some? && Running(w.pod.value))
  {
    if !(move.W? && move.w.Poll?) {
      SightingFrame(s, move);
    }
  }

  /**
  The branches the code calls bugs: four are unreachable outright, even when the collector
  panics; three need a panic, and the claim names whose. The eighth, the end of the event stream,
  is out of reach for a plainer reason: the stream is an unfolding that never yields its end
  (`Watcher.Unfold`), so no move hands the watcher one.
   */
  lemma BugBranchesNeedPanics(ttl: nat, moves: seq<Move>, alarm: Alarm)
    requires IsRun(ttl, moves) && alarm in After(ttl, moves).alarms
    ensures match alarm
            case StatusClosedAlarm => After(ttl, moves).w.pc.WatcherPanicked?
            case InboundDroppedAlarm => After(ttl, moves).w.pc.WatcherPanicked?
            case CheckerGoneAlarm => After(ttl, moves).c.pc == CheckerPanicked(Injected)
            case _ => false
  {
    InvHolds(ttl, moves);
  }

  /** Accordingly no client is ever told of an unresponsive collector or a closed event stream. */
  lemma BugsAreNotReported(ttl: nat, moves: seq<Move>)
    requires IsRun(ttl, moves)
    ensures var s := After(ttl, moves);
            && Err(GarbageCollectorUnresponsive) !in s.w.attempts
            && Err(UnexpectedCloseOfEventStream) !in s.w.attempts
            && (Err(HealthCheckDroppedItsChannel) in s.w.attempts ==> s.c.pc == CheckerPanicked(Injected))
  {
    InvHolds(ttl, moves);
  }

  /**
  A watcher that returns has reported one result, or a success and then one failure. What
  reaches a client is the first of them, unless the shim's patience ran out or the watcher died.
   */
  lemma ResultsAreExact(ttl: nat, moves: seq<Move>)
    requires IsRun(ttl, moves)
    ensures var (w, m) := (After(ttl, moves).w, After(ttl, moves).m);
            && (w.pc.Phase1? || w.pc.Phase2? || w.pc.Reporting? ==> w.attempts == [])
            && (w.pc.Phase3? ==> |w.attempts| == 1 && w.attempts[0].Ok?)
            && (w.pc.Returned? ==> 1 <= |w.attempts| <= 2)
            && (|w.attempts| == 2 ==> w.attempts[0].Ok? && w.attempts[1].Err?)
            && (m.outcomes != [] ==>
                  || (w.attempts != [] && m.outcomes[0] == w.attempts[0])
                  || (m.outcomes[0] == Err(InboundResultChannelDropped)
                      && (After(ttl, moves).h.deadline <= After(ttl, moves).now || w.pc.WatcherPanicked?)))
  {
    InvHolds(ttl, moves);
  }

  /** The send the watcher is at, if any. */
  function PendingSend(pc: WatcherPc): Option<WatcherMove> {
    match pc
    case Announcing => Some(Announce(true))
    case Reporting => Some(Report)
    case Failing(_) => Some(SendFailure)
    case StoppingGc => Some(StopGc)
    case Closing => Some(StopGc)
    case _ => None
  }

  /**
  No send of the watcher can be stuck: it can go ahead at once, or the shim can empty the
  channel it waits for and then it can.
   */
  lemma NoSendIsStuck(ttl: nat, moves: seq<Move>)
    requires IsRun(ttl, moves) && PendingSend(After(ttl, moves).w.pc).Some?
    ensures var s := After(ttl, moves);
            var send := W(PendingSend(s.w.pc).value);
            || Enabled(s, send)
            || (s.w.pc.Failing? && Enabled(s, H(TakeResult)) && Enabled(Apply(s, H(TakeResult)), send))
  {
    InvHolds(ttl, moves);
    SendOrDrain(After(ttl, moves));
  }

  lemma SendOrDrain(s: System)
    requires SignalInv(s.w, s.g) && ResultInv(s.w, s.h) && PendingSend(s.w.pc).Some?
    ensures var send := W(PendingSend(s.w.pc).value);
            || Enabled(s, send)
            || (s.w.pc.Failing? && Enabled(s, H(TakeResult)) && Enabled(Apply(s, H(TakeResult)), send))
  {
    assert CollectorAlive(s.g) ==> |s.g.received| + |s.g.status| == |s.w.signals|;
    if s.w.pc.Failing? && !CanReport(s.h) {
      var t := Apply(s, H(TakeResult));
      assert t.w == s.w && |t.h.inbox| == |s.h.inbox| - 1;
    }
  }

  // ----- nothing is left behind

  /**
  A watcher that returns has asked for the pod's deletion or consumed its `Deleted` event. If it
  dies between announcing the pod and telling the end, and the collector survives, then the
  collector has asked for the deletion once it exits: it does so exactly when the go-ahead is
  all it ever heard.
   */
  lemma NoPodIsLeaked(ttl: nat, moves: seq<Move>)
    requires IsRun(ttl, moves)
    ensures var s := After(ttl, moves);
            && (s.w.pc.Returned? ==> SawDeleted(s.log) || DeletedByWatcher(s.deletes))
            && (s.w.pc.WatcherPanicked? && |s.w.signals| == 1 && s.w.signals[0].GoRunning? && s.g.pc.Exited? ==>
                  DeletedByCollector(s.deletes))
            && (s.g.pc.Exited? ==> (DeletedByCollector(s.deletes) <==> HeardGo(s.g)))
  {
    InvHolds(ttl, moves);
  }

  /** Only a watcher that returns has asked for the deletion itself. */
  lemma {:induction false} DeletionReturns(ttl: nat, moves: seq<Move>)
    requires IsRun(ttl, moves)
    ensures DeletedByWatcher(After(ttl, moves).deletes) ==> After(ttl, moves).w.pc.Returned?
    decreases |moves|
  {
    if moves != [] {
      var before := moves[..|moves| - 1];
      DeletionReturns(ttl, before);
      DeletionStep(After(ttl, before), moves[|moves| - 1]);
    }
  }

  lemma DeletionStep(s: System, move: Move)
    requires Enabled(s, move) && (DeletedByWatcher(s.deletes) ==> s.w.pc.Returned?)
    ensures DeletedByWatcher(Apply(s, move).deletes) ==> Apply(s, move).w.pc.Returned?
  {
    match move
    case W(w) => WatcherFrame(s, w);
    case C(c) => CheckerFrame(s, c);
    case G(g) => CollectorFrame(s, g);
    case H(h) => ShimFrame(s, h);
    case K(k) => ClientFrame(s, k);
    case _ =>
  }

  /** The moves at which the collector panics: two while it prepares, one after it has asked for the deletion. */
  predicate PanicsUnarmed(move: Move) { move == G(Arm(false)) || move == G(Patch(false)) }

  ghost predicate PanicInv(s: System, moves: seq<Move>) {
    && (s.g.pc.CollectorPanicked? ==> (DeletedByCollector(s.deletes) <==> G(Delete(false)) in moves))
    && (G(Delete(false)) in moves ==> s.g.pc.CollectorPanicked?)
    && (s.g.pc.CollectorPanicked? ==> G(Delete(false)) in moves || exists move :: move in moves && PanicsUnarmed(move))
  }

  lemma CollectorPanicStep(s: System, moves: seq<Move>, move: CollectorMove)
    requires DeleteInv(s) && PanicInv(s, moves) && CollectorEnabled(s, move)
    ensures PanicInv(ApplyCollector(s, move), moves + [G(move)])
  {
    assert forall m :: m in moves + [G(move)] <==> m in moves || m == G(move);
    if move.Delete? {
      DeletesLast(s.deletes, ByCollector(s.g.pc.cause, s.now));
    }
    assert PanicsUnarmed(G(move)) ==> G(move) in moves + [G(move)];
  }

  lemma PanicStep(s: System, moves: seq<Move>, move: Move)
    requires DeleteInv(s) && PanicInv(s, moves) && Enabled(s, move)
    ensures PanicInv(Apply(s, move), moves + [move])
  {
    if move.G? {
      CollectorPanicStep(s, moves, move.g);
    } else {
      OthersDeleteAsWatcher(s, move);
      assert forall m :: m in moves + [move] <==> m in moves || m == move;
    }
  }

  lemma OthersDeleteAsWatcher(s: System, move: Move)
    requires Enabled(s, move) && !move.G?
    ensures Apply(s, move).g.pc == s.g.pc
    ensures DeletedByCollector(Apply(s, move).deletes) <==> DeletedByCollector(s.deletes)
  {
    DeletesLast(s.deletes, ByWatcher(s.now));
    match move
    case W(w) => WatcherFrame(s, w);
    case C(c) => CheckerFrame(s, c);
    case H(h) => ShimFrame(s, h);
    case K(k) => ClientFrame(s, k);
    case _ =>
  }

  lemma DeletesKnown(ttl: nat, moves: seq<Move>)
    requires IsRun(ttl, moves)
    ensures DeleteInv(After(ttl, moves))
  {
    InvHolds(ttl, moves);
  }

  lemma {:induction false} PanicHolds(ttl: nat, moves: seq<Move>)
    requires IsRun(ttl, moves)
    ensures PanicInv(After(ttl, moves), moves)
    decreases |moves|
  {
    if moves != [] {
      var (before, last) := (moves[..|moves| - 1], moves[|moves| - 1]);
      PanicHolds(ttl, before);
      DeletesKnown(ttl, before);
      PanicStep(After(ttl, before), before, last);
      assert before + [last] == moves;
    }
  }

  /**
  Exactly when a pod is left behind, once watcher and collector are both gone: the watcher has
  died, and the collector either exited and the go-ahead is not all it heard, or panicked before
  it came to the deletion. An exited collector that did not just hear the go-ahead heard nothing,
  because the watcher died before it announced the pod, or heard of the end, and the watcher died
  before the deletion.
   */
  lemma LeakedExactly(ttl: nat, moves: seq<Move>)
    requires IsRun(ttl, moves) && !WatcherAlive(After(ttl, moves).w) && !CollectorAlive(After(ttl, moves).g)
    ensures var s := After(ttl, moves);
            && (s.deletes == [] && !SawDeleted(s.log) ==> s.w.pc.WatcherPanicked?)
            && (s.w.pc.WatcherPanicked? ==>
                  (s.deletes == [] <==> if s.g.pc.Exited? then !HeardGo(s.g) else G(Delete(false)) !in moves))
            && (s.g.pc.Exited? ==>
                  (!HeardGo(s.g) <==> s.g.received == [] || s.g.received[|s.g.received| - 1].GoTerminated?))
            && (s.g.pc.CollectorPanicked? && G(Delete(false)) !in moves ==>
                  exists move :: move in moves && PanicsUnarmed(move))
  {
    NoPodIsLeaked(ttl, moves);
    PanicHolds(ttl, moves);
    DeletionReturns(ttl, moves);
    HeardHolds(ttl, moves);
    var s := After(ttl, moves);
    if s.g.pc.Exited? {
      ExitedHeard(s.w, s.g);
    }
    if s.deletes != [] && s.w.pc.WatcherPanicked? {
      assert s.deletes[0] in s.deletes;
    }
  }

  /** An exited collector has heard the go-ahead and nothing else, or nothing, or of the end. */
  lemma ExitedHeard(w: WatcherTask, g: CollectorTask)
    requires Heard(w, g) && g.pc.Exited?
    ensures !HeardGo(g) <==> g.received == [] || g.received[|g.received| - 1].GoTerminated?
  {
  }

  lemma HeardHolds(ttl: nat, moves: seq<Move>)
    requires IsRun(ttl, moves)
    ensures Heard(After(ttl, moves).w, After(ttl, moves).g)
  {
    InvHolds(ttl, moves);
  }

  /** A watcher that dies before it announces the pod leaves it behind. */
  lemma EarlyDeathLeaksPod(ttl: nat)
    ensures exists moves :: IsRun(ttl, moves)
                            && After(ttl, moves).w.pc.WatcherPanicked? && After(ttl, moves).g.pc.Exited?
                            && After(ttl, moves).deletes == []
  {
    var r1 := Extend(ttl, [], W(PanicWatcher));
    var r2 := Extend(ttl, r1, G(Hear));
  }

  /** So does one that dies between telling the collector of the end and asking for the deletion. */
  lemma LateDeathLeaksPod(ttl: nat)
    ensures exists moves :: IsRun(ttl, moves)
                            && After(ttl, moves).w.pc.WatcherPanicked? && After(ttl, moves).g.pc.Exited?
                            && After(ttl, moves).w.signals == [GoTerminated] && After(ttl, moves).deletes == []
  {
    var r := FailingWatcher(ttl);
    r := Extend(ttl, r, W(PanicWatcher));
    r := Extend(ttl, r, G(Hear));
  }

  /** Expiries never decrease, no pod is timed out while any ticket is good, and the label follows the ticket. */
  lemma TicketsAreHonoured(ttl: nat, moves: seq<Move>)
    requires IsRun(ttl, moves)
    ensures var s := After(ttl, moves);
            && (forall t :: t in s.g.tickets ==> t.expiry == t.created + ttl && t.created <= s.now)
            && (forall i, j :: 0 <= i < j < |s.g.tickets| ==> s.g.tickets[i].expiry <= s.g.tickets[j].expiry)
            && (forall d, t :: d in s.deletes && d.ByCollector? && d.cause.TimedOut? && t in s.g.tickets ==>
                  t.expiry <= d.at)
            && (s.g.pc.Armed? ==> s.g.tickets != [] && s.g.executionDate == Some(s.g.tickets[|s.g.tickets| - 1].expiry))
  {
    InvHolds(ttl, moves);
  }

  /**
  Out of phase 2 the checker has been consumed exactly once and has finished; it never lacks an
  error to report, and a send of its can only fail if the watcher panicked.
   */
  lemma CheckerIsConsumedOnce(ttl: nat, moves: seq<Move>)
    requires IsRun(ttl, moves)
    ensures var (w, c) := (After(ttl, moves).w, After(ttl, moves).c);
            && (!c.pc.Unborn? && !w.pc.WatcherPanicked? && !InPhase2(w.pc) ==> CheckerDone(c) && c.uses == 1)
            && (w.pc.Returned? ==> c.uses <= 1)
            && c.pc != CheckerPanicked(NoErrorRecorded)
            && (c.pc == CheckerPanicked(SendFailed) ==> w.pc.WatcherPanicked?)
  {
    InvHolds(ttl, moves);
  }

  predicate InPhase2(pc: WatcherPc) {
    pc.Phase2? || pc.Asleep2? || pc.Killing? || pc.Joining?
  }

  // ----- waiting

  /** The first outcome of `wait` is final: a pod is given again, an error never is. */
  lemma FirstOutcomeIsFinal(ttl: nat, moves: seq<Move>, i: nat)
    requires IsRun(ttl, moves)
    requires 0 < i < |After(ttl, moves).m.outcomes|
    ensures var outcomes := After(ttl, moves).m.outcomes;
            outcomes[i] == if outcomes[0].Ok? then outcomes[0] else Err(PhantomError)
  {
    InvHolds(ttl, moves);
  }

  /** A client is inside `wait` and the shim has a result. */
  predicate Waiting(s: System) {
    (s.m.client.InBarrier? || s.m.client.Receiving?) && !s.h.pc.AwaitingResult?
  }

  function WaitRank(s: System): nat {
    (if s.m.client.InBarrier? then 1 else 0)
    + (match s.h.pc case AwaitingResult => 3 case AtBarrier(_) => 2 case Forwarding => 1 case Over => 0)
  }

  /** The move that brings the waiting client closer to its result. */
  function NextHelp(s: System): Move
    requires Waiting(s)
  {
    if s.m.client.InBarrier? then K(ClientPasses)
    else match s.h.pc
      case AtBarrier(_) => H(ShimPasses)
      case Forwarding => H(Forward)
      case _ => K(Receive)
  }

  /**
  Once the shim holds a result no `wait` hangs. As long as a client waits there is a move of
  the client or the shim that brings it closer, no move of anyone takes it further away, and it
  stops waiting only by returning. Patience running out first makes no difference.
   */
  lemma WaitNeverHangs(ttl: nat, moves: seq<Move>, move: Move)
    requires IsRun(ttl, moves) && Waiting(After(ttl, moves)) && Enabled(After(ttl, moves), move)
    ensures var s := After(ttl, moves);
            && Enabled(s, NextHelp(s))
            && (Waiting(Apply(s, NextHelp(s))) ==> WaitRank(Apply(s, NextHelp(s))) < WaitRank(s))
            && (Waiting(Apply(s, move)) ==> WaitRank(Apply(s, move)) <= WaitRank(s))
            && (!Waiting(Apply(s, move)) ==> |Apply(s, move).m.outcomes| == |s.m.outcomes| + 1)
  {
    InvHolds(ttl, moves);
    OthersDoNotHinder(After(ttl, moves), move);
  }

  lemma OthersDoNotHinder(s: System, move: Move)
    requires Waiting(s) && Enabled(s, move)
    ensures Waiting(Apply(s, move)) ==> WaitRank(Apply(s, move)) <= WaitRank(s)
    ensures !Waiting(Apply(s, move)) ==> |Apply(s, move).m.outcomes| == |s.m.outcomes| + 1
  {
    match move
    case W(w) => WatcherFrame(s, w);
    case C(c) => CheckerFrame(s, c);
    case G(g) => CollectorFrame(s, g);
    case K(k) => ClientsDoNotHinder(s, k);
    case _ =>
  }

  lemma ClientsDoNotHinder(s: System, move: ClientMove)
    requires Waiting(s) && ClientEnabled(s, move)
    ensures var t := ApplyClient(s, move);
            if Waiting(t) then WaitRank(t) <= WaitRank(s) else |t.m.outcomes| == |s.m.outcomes| + 1
  {
  }

  // ----- reboots

  /** A reboot is reported only after the watch of a running pod expired with a 410 and a re-list was consumed. */
  lemma RebootNeedsGone(ttl: nat, moves: seq<Move>)
    requires IsRun(ttl, moves) && Err(PodRebooted) in After(ttl, moves).w.attempts
    ensures Relisted(After(ttl, moves).log)
  {
    InvHolds(ttl, moves);
  }

  // ----- the cache entry of one pod

  /**
  An entry is retrievable from registration for as long as any of the three joined tasks lives,
  and the manager outlives the collector. It is there exactly until the cleanup, unless it was
  registered only after that (`late`), which takes at least the shim's patience.
   */
  lemma EntryFollowsTasks(ttl: nat, moves: seq<Move>)
    requires IsRun(ttl, moves)
    ensures var s := After(ttl, moves);
            && (s.m.registered && (WatcherAlive(s.w) || CollectorAlive(s.g) || ShimAlive(s.h)) ==> s.m.cached)
            && (CollectorAlive(s.g) ==> ManagerAlive(s.m))
            && (s.m.cached <==> s.m.registered && (s.m.cleaned ==> s.m.late))
            && (s.m.late ==> PATIENCE <= s.m.registeredAt)
            && (s.m.cleaned && !s.m.registered ==> PATIENCE <= s.now)
  {
    InvHolds(ttl, moves);
  }

  /**
  Registered too late, the entry is never removed: the shim has lost its patience with no one
  to meet, the cleanup has found nothing to remove, and only then is the entry inserted.
   */
  lemma LateEntryIsNeverRemoved(ttl: nat, moves: seq<Move>, move: Move)
    requires IsRun(ttl, moves) && After(ttl, moves).m.late && Enabled(After(ttl, moves), move)
    ensures var s := After(ttl, moves); s.m.cached && PATIENCE <= s.m.registeredAt
    ensures var t := Apply(After(ttl, moves), move); t.m.cached && t.m.late
  {
    InvHolds(ttl, moves);
    LateStaysLate(After(ttl, moves), move);
  }

  lemma LateStaysLate(s: System, move: Move)
    requires s.m.late && s.m.cached && s.m.registered && s.m.cleaned && Enabled(s, move)
    ensures Apply(s, move).m.cached && Apply(s, move).m.late
  {
    RegistrationFrame(s, move);
  }

  /** And it can happen, with no panic anywhere, if registration takes as long as the shim's patience. */
  lemma LateRegistrationCanHappen(ttl: nat)
    ensures exists moves :: IsRun(ttl, moves) && After(ttl, moves).m.late && After(ttl, moves).w.pc.Returned?
  {
    var r := FailedWatcher(ttl);
    r := Extend(ttl, r, G(Hear));
    r := Extend(ttl, r, H(TakeResult));
    r := Extend(ttl, r, Tick(PATIENCE));
    r := Extend(ttl, r, H(LosePatience));
    r := Extend(ttl, r, Cleanup);
    r := Extend(ttl, r, Register);
    assert After(ttl, r).m.late;
  }

  /** Kubernetes is unresponsive from the start; the watcher gives up and has everything done but the deletion. */
  lemma FailingWatcher(ttl: nat) returns (r: seq<Move>)
    ensures IsRun(ttl, r)
    ensures var (s, s0) := (After(ttl, r), Initial(ttl));
            && s.w.pc.DeletingPod? && s.w.signals == [GoTerminated] && s.deletes == [] && s.now == 0 && s.m == s0.m
            && s.g == s0.g.(status := [GoTerminated])
            && s.h == s0.h.(inbox := [Err(KubernetesUnresponsive)])
  {
    r := Extend(ttl, [], W(Poll(Watcher.ListFailed, true)));
    r := Extend(ttl, r, W(SendFailure));
    r := Extend(ttl, r, W(StopGc));
  }

  lemma FailedWatcher(ttl: nat) returns (r: seq<Move>)
    ensures IsRun(ttl, r)
    ensures var (s, s0) := (After(ttl, r), Initial(ttl));
            && s.w.pc.Returned? && s.now == 0 && s.m == s0.m
            && s.g == s0.g.(status := [GoTerminated])
            && s.h == s0.h.(inbox := [Err(KubernetesUnresponsive)])
  {
    r := FailingWatcher(ttl);
    r := Extend(ttl, r, W(DeletePod));
  }

  lemma Extend(ttl: nat, moves: seq<Move>, move: Move) returns (longer: seq<Move>)
    requires IsRun(ttl, moves) && Enabled(After(ttl, moves), move)
    ensures longer == moves + [move] && IsRun(ttl, longer) && After(ttl, longer) == Apply(After(ttl, moves), move)
  {
    longer := moves + [move];
    assert longer[..|moves|] == moves;
  }
}
