/**
The coroutines as the code writes them: loops that await, branch and return.

A `Runtime` drives one coroutine. Whenever it awaits, everyone else may make any number of
moves; then it makes its own move if that can be made. `budget` is how many more moves it is
allowed, so that every call ends; a call that gives up early does so only because the budget
is spent or the coroutine is blocked, that is, cannot make any move at all (`Halted`).

`Valid` says that what has happened is a run of the protocol in which the coroutine made exactly
the moves it was charged for, none of them a panic out of the blue, and every method only adds to
that run. So the code below does what the protocol says, in its order and by its own branches, and
whatever is proved of all runs holds of it.
 */
module Tasks {
  import opened Wrappers
  import opened Pods
  import opened Protocol
  import opened PodManager
  import opened Endings
  import opened Evidence
  import opened Signals
  import opened Results
  import opened Frames
  import opened Attention
  import opened Causes
  import opened Readiness
  import Watcher

  datatype Task = TheWatcher | TheCollector | TheShim | TheClient

  /** Moves of the coroutine, including panics. The client is the handler that holds the manager. */
  predicate Belongs(task: Task, move: Move) {
    match task
    case TheWatcher => move.W?
    case TheCollector => move.G?
    case TheShim => move.H?
    case TheClient => move.K? && !move.k.Get?
  }

  /** Moves the code makes. */
  predicate Makes(task: Task, move: Move) {
    Belongs(task, move) && move != W(PanicWatcher)
  }

  ghost predicate Blocked(task: Task, s: System) {
    forall move :: Makes(task, move) ==> !Enabled(s, move)
  }

  /** How many moves of a run the coroutine has made. */
  ghost function Own(task: Task, moves: seq<Move>): nat {
    if moves == [] then 0
    else Own(task, moves[..|moves| - 1]) + if Makes(task, moves[|moves| - 1]) then 1 else 0
  }

  // ----- what others do

  /** What no other task can do to this one. */
  ghost predicate Untouched(task: Task, s: System, t: System) {
    && s.now <= t.now
    && match task
       case TheWatcher => t.w == s.w
       case TheCollector => t.g == s.g.(status := t.g.status, requests := t.g.requests)
       case TheShim =>
         && t.h.verdict == s.h.verdict && t.h.deadline == s.h.deadline
         && (t.h.pc == s.h.pc || (s.h.pc.AtBarrier? && t.h.pc.AtBarrier?))
       case TheClient =>
         && (t.m.client == s.m.client || (s.m.client.InBarrier? && t.m.client.InBarrier?))
         && t.m.phantom == s.m.phantom && s.m.holders <= t.m.holders
         && t.m.outcomes == s.m.outcomes && t.m.leases == s.m.leases && t.m.refreshes == s.m.refreshes
  }

  lemma OthersLeaveAlone(task: Task, s: System, move: Move)
    requires Enabled(s, move) && !Belongs(task, move)
    ensures Untouched(task, s, Apply(s, move))
  {
    match move
    case W(w) => WatcherFrame(s, w);
    case C(c) => CheckerFrame(s, c);
    case G(g) => CollectorFrame(s, g);
    case H(h) => ShimFrame(s, h);
    case K(k) => ClientFrame(s, k);
    case _ =>
  }

  // ----- what a coroutine can be waiting for

  /** The one kind of move there is where the coroutine stands. */
  predicate Sole(task: Task, s: System, move: Move) {
    Makes(task, move) &&
    match move
    case W(Wake) => s.w.pc.Asleep1? || s.w.pc.Asleep2? || s.w.pc.Asleep3?
    case W(Announce(_)) => s.w.pc.Announcing?
    case W(CheckerOver) => s.w.pc.Killing? || s.w.pc.Joining?
    case W(Report) => s.w.pc.Reporting?
    case W(SendFailure) => s.w.pc.Failing?
    case W(StopGc) => s.w.pc.StoppingGc? || s.w.pc.Closing?
    case W(DeletePod) => s.w.pc.DeletingPod?
    case G(Hear) => s.g.pc.AwaitingGo?
    case G(Arm(_)) => s.g.pc.Arming?
    case G(Patch(_)) => s.g.pc.Patching?
    case G(Delete(_)) => s.g.pc.Deleting?
    case H(TakeResult) => s.h.pc.AwaitingResult?
    case H(Forward) => s.h.pc.Forwarding?
    case K(ClientPasses) => s.m.client.InBarrier?
    case K(Receive) => s.m.client.Receiving?
    case K(Request) => s.m.client.Requesting?
    case K(Collect) => s.m.client.AwaitingTicket?
    case _ => false
  }

  lemma SoleStaysSole(task: Task, s: System, t: System, move: Move)
    requires Sole(task, s, move) && Untouched(task, s, t)
    ensures Sole(task, t, move)
  {
  }

  lemma BlockedAtSole(task: Task, s: System, move: Move)
    requires Sole(task, s, move) && !Enabled(s, move)
    ensures Blocked(task, s)
  {
    forall other | Makes(task, other) ensures !Enabled(s, other) {
      match other
      case W(w) => NoOtherWatcherMove(s, move, w);
      case G(g) =>
      case H(h) =>
      case K(k) =>
    }
  }

  lemma NoOtherWatcherMove(s: System, move: Move, other: WatcherMove)
    requires Sole(TheWatcher, s, move) && !Enabled(s, move) && other != PanicWatcher
    ensures !WatcherEnabled(s, other)
  {
  }

  /** At its select the collector is blocked if no branch of it is ready. */
  lemma BlockedAtSelect(s: System)
    requires s.g.pc.Armed? && !Enabled(s, G(Serve)) && !Enabled(s, G(Expire)) && !Enabled(s, G(Hear))
    ensures Blocked(TheCollector, s)
  {
    forall other | Makes(TheCollector, other) ensures !Enabled(s, other) {
      assert other.G?;
    }
  }

  lemma BlockedAtBarrier(s: System)
    requires s.h.pc.AtBarrier? && !Enabled(s, H(LosePatience)) && !Enabled(s, H(ShimPasses))
    ensures Blocked(TheShim, s)
  {
    forall other | Makes(TheShim, other) ensures !Enabled(s, other) {
      assert other.H?;
    }
  }

  /** A watcher that is blocked and has nothing to send waits for the checker to end. */
  lemma BlockedWithNothingToSend(s: System)
    requires WatcherAlive(s.w) && Blocked(TheWatcher, s) && PendingSend(s.w.pc).None?
    ensures (s.w.pc.Killing? || s.w.pc.Joining?) && !CheckerDone(s.c)
  {
    assert !Enabled(s, W(Wake)) && !Enabled(s, W(CheckerOver)) && !Enabled(s, W(DeletePod));
    assert !Enabled(s, W(Poll(AnyAnswer(s.w.stream), true)));
  }

  /** A watcher that is blocked waits for the checker to end, or for the shim, which can go ahead. */
  lemma WatcherWaitsFor(ttl: nat, moves: seq<Move>)
    requires IsRun(ttl, moves) && WatcherAlive(After(ttl, moves).w) && Blocked(TheWatcher, After(ttl, moves))
    ensures var s := After(ttl, moves);
            || ((s.w.pc.Killing? || s.w.pc.Joining?) && !CheckerDone(s.c))
            || (s.w.pc.Failing? && Enabled(s, H(TakeResult)))
  {
    var s := After(ttl, moves);
    if PendingSend(s.w.pc).Some? {
      NoSendIsStuck(ttl, moves);
      assert Makes(TheWatcher, W(PendingSend(s.w.pc).value));
    } else {
      BlockedWithNothingToSend(s);
    }
  }

  /** The collector has heard all it was told, the watcher lives, and nothing else it listens for has happened. */
  ghost predicate CollectorWaits(s: System) {
    && WatcherAlive(s.w) && s.g.received == s.w.signals
    && (s.g.pc.AwaitingGo?
        || (s.g.pc.Armed? && s.g.tickets != [] && s.now < s.g.tickets[|s.g.tickets| - 1].expiry && !AsksForTicket(s.m)))
  }

  lemma CollectorWaitsFor(ttl: nat, moves: seq<Move>)
    requires IsRun(ttl, moves) && CollectorAlive(After(ttl, moves).g) && Blocked(TheCollector, After(ttl, moves))
    ensures CollectorWaits(After(ttl, moves))
  {
    var s := After(ttl, moves);
    CollectorIsPrompt(ttl, moves, true);
    assert !Enabled(s, G(Hear)) && !Enabled(s, G(Expire)) && !Enabled(s, G(Serve));
    assert !Enabled(s, G(Arm(true))) && !Enabled(s, G(Patch(true))) && !Enabled(s, G(Delete(true)));
  }

  /** The shim has no result to take from a watcher that lives, or no client to meet and time left. */
  ghost predicate ShimWaits(s: System) {
    || (s.h.pc.AwaitingResult? && s.w.attempts == [] && WatcherAlive(s.w))
    || (s.h.pc.AtBarrier? && !ClientCame(s.m) && s.now < s.h.deadline)
  }

  lemma ShimWaitsFor(ttl: nat, moves: seq<Move>)
    requires IsRun(ttl, moves) && ShimAlive(After(ttl, moves).h) && Blocked(TheShim, After(ttl, moves))
    ensures ShimWaits(After(ttl, moves))
  {
    var s := After(ttl, moves);
    ShimIsPrompt(ttl, moves);
    assert !Enabled(s, H(TakeResult)) && !Enabled(s, H(LosePatience));
    assert !Enabled(s, H(ShimPasses)) && !Enabled(s, H(Forward));
  }

  /** The client waits for the shim to have a result, to hand it over, or for the collector to answer. */
  ghost predicate ClientWaits(s: System) {
    || (s.m.client.InBarrier? && s.h.pc.AwaitingResult?)
    || (s.m.client.Receiving? && ShimAlive(s.h))
    || (AsksForTicket(s.m) && CollectorAlive(s.g))
  }

  lemma ClientWaitsFor(ttl: nat, moves: seq<Move>)
    requires IsRun(ttl, moves) && !After(ttl, moves).m.client.Idle? && Blocked(TheClient, After(ttl, moves))
    ensures ClientWaits(After(ttl, moves))
  {
    var s := After(ttl, moves);
    ClientIsPrompt(ttl, moves);
    assert !Enabled(s, K(ClientPasses)) && !Enabled(s, K(Receive));
    assert !Enabled(s, K(Request)) && !Enabled(s, K(Collect));
  }

  /** What `recv` on the status channel yields: nothing once the watcher is gone and the channel drained. */
  function NextSignal(g: CollectorTask): Option<GcStatus> {
    if g.status == [] then None else Some(g.status[0])
  }

  /** What a watcher that has returned leaves behind: everyone told, and the pod deleted or seen deleted. */
  ghost predicate InOrder(s: System) {
    && (s.w.signals == [GoTerminated]
        || (s.w.pod.Some? && s.w.signals == [GoRunning(s.w.pod.value), GoTerminated]))
    && 1 <= |s.w.attempts| <= 2
    && (SawDeleted(s.log) || DeletedByWatcher(s.deletes))
  }

  lemma WatcherLeavesOrder(ttl: nat, moves: seq<Move>)
    requires IsRun(ttl, moves)
    ensures After(ttl, moves).w.pc.Returned? ==> InOrder(After(ttl, moves))
    ensures forall failure :: Err(failure) in After(ttl, moves).w.attempts ==>
              Caused(moves, After(ttl, moves).log, failure)
  {
    SignalsAreExact(ttl, moves);
    ResultsAreExact(ttl, moves);
    NoPodIsLeaked(ttl, moves);
    forall failure | Err(failure) in After(ttl, moves).w.attempts
      ensures Caused(moves, After(ttl, moves).log, failure)
    {
      FailureHasItsCause(ttl, moves, failure);
    }
  }

  /** There is always some answer to the request the stream makes. */
  function AnyAnswer(stream: Watcher.State): (response: Watcher.Response<PodBody>)
    ensures Watcher.Answers(stream, response)
  {
    match stream
    case Empty => Watcher.ListFailed
    case InitListed(_) => Watcher.WatchRefused
    case Watching(_) => Watcher.Ended
  }

  lemma PhantomIsMemo(ttl: nat, moves: seq<Move>)
    requires IsRun(ttl, moves)
    ensures var phantom := After(ttl, moves).m.phantom; phantom.Some? ==> Memo(phantom.value) == phantom.value
  {
    InvHolds(ttl, moves);
  }

  /** What a poll does to the watcher. */
  lemma PollEffect(s: System, response: Watcher.Response<PodBody>, giveUp: bool)
    requires WatcherEnabled(s, Poll(response, giveUp))
    ensures var t := ApplyPoll(s, response, giveUp);
            var (item, next) := Watcher.StepTrampolined(s.w.stream, response);
            && t.w.stream == next && t.w.signals == s.w.signals && t.w.attempts == s.w.attempts
            && (item.None? ==> t.w == s.w.(stream := next))
            && (item.Some? ==>
                  && t.w.pc == OnItem(s.w.pc, item, giveUp)
                  && t.log == s.log + [Consumed(item.value)]
                  && (!t.w.pc.Announcing? ==> t.w.pod == s.w.pod)
                  && (t.w.pc.Announcing? ==> t.w.pod == Some(item.value.value.obj)))
  {
  }

  /** Calling `wait` answers from memory at once, or goes to the barrier. */
  lemma CallWaitEffect(s: System)
    requires ClientEnabled(s, CallWait)
    ensures var t := ApplyClient(s, CallWait);
            && t.m.leases == s.m.leases && t.m.phantom == s.m.phantom && t.now == s.now
            && match s.m.phantom
               case None => t.m.client.InBarrier? && t.m.outcomes == s.m.outcomes
               case Some(verdict) =>
                 && t.m.outcomes == s.m.outcomes + [verdict]
                 && t.m.client == if verdict.Ok? then Requesting(Some(verdict.value), s.now) else Idle
  {
  }

  /** What announcing the pod does to watcher, collector and checker. */
  lemma AnnounceEffect(s: System, parses: bool, pod: Pod)
    requires WatcherEnabled(s, Announce(parses)) && s.w.pod == Some(pod)
    ensures var t := ApplyAnnounce(s, parses);
            && t.w == s.w.(signals := s.w.signals + [GoRunning(pod)], pc := t.w.pc)
            && (CollectorAlive(t.g) <==> CollectorAlive(s.g))
            && (CollectorAlive(s.g) ==> t.g.status == s.g.status + [GoRunning(pod)])
            && t.w.pc == (if !CollectorAlive(s.g) then Failing(GarbageCollectorUnresponsive)
                          else if Address(pod).Err? then Failing(NoAddress(Address(pod).error))
                          else if !parses then Failing(EndpointParse) else Phase2)
            && (t.w.pc.Phase2? ==> t.c.pc == Deciding(0, false) && t.c.endpoint == Some(Address(pod).value))
  {
  }

  /**
  Why the watcher ended: on an item, with the failure it stands for; on an item that said the pod
  is gone as it should; or on what the health check had to say, nothing if it dropped its channel.
   */
  datatype Reason =
    | Unfinished
    | Saw(item: Item, failure: Failure)
    | SawTheEnd(item: Item)
    | Heard(status: Option<Health>)

  /** What a health check's word makes the watcher report. */
  function Reply(status: Option<Health>, pod: Pod): Verdict {
    match status
    case Some(Healthy) => Ok(pod)
    case Some(Ill(failure)) => Err(failure)
    case None => Err(HealthCheckDroppedItsChannel)
  }

  /** What stands in the way of a start is never the collector, so it can be seen from the pod. */
  lemma WasShown(ttl: nat, moves: seq<Move>, failure: Failure, pod: Pod)
    requires IsRun(ttl, moves) && Running(pod)
    requires var attempts := After(ttl, moves).w.attempts;
             attempts != [] && attempts[|attempts| - 1] == Err(failure)
    requires || failure == GarbageCollectorUnresponsive
             || (Address(pod).Err? && failure == NoAddress(Address(pod).error))
             || (Address(pod).Ok? && failure == EndpointParse)
    ensures failure != GarbageCollectorUnresponsive && Shows(Ok(Watcher.Applied(pod)), failure)
  {
    BugsAreNotReported(ttl, moves);
  }

  /** What has been logged stays logged. */
  lemma {:induction false} LogLasts(ttl: nat, moves: seq<Move>, longer: seq<Move>)
    requires IsRun(ttl, longer) && moves <= longer
    ensures IsRun(ttl, moves) && After(ttl, moves).log <= After(ttl, longer).log
    decreases |longer|
  {
    if moves != longer {
      var before := longer[..|longer| - 1];
      LogLasts(ttl, moves, before);
      LogGrows(After(ttl, before), longer[|longer| - 1]);
    } else {
      assert moves == longer;
    }
  }

  class Runtime {
    const task: Task
    const ttl: nat
    const allowance: nat
    var s: System
    var budget: nat
    ghost var moves: seq<Move>

    ghost predicate Valid()
      reads this
    {
      && IsRun(ttl, moves) && s == After(ttl, moves)
      && Own(task, moves) + budget == allowance
      && (task.TheWatcher? ==> W(PanicWatcher) !in moves)
    }

    /** Why a coroutine may be left where it is: it has made all its moves, or it cannot make any. */
    ghost predicate Halted()
      reads this
    {
      budget == 0 || Blocked(task, s)
    }

    ghost predicate PodDeletedLast()
      reads this
    {
      s.deletes != [] && s.deletes[|s.deletes| - 1].ByWatcher?
    }

    /** The last item consumed. */
    ghost predicate JustSaw(item: Item)
      reads this
    {
      s.log != [] && s.log[|s.log| - 1] == Consumed(item)
    }

    /** What was reported on top of earlier results, and why; with that went the deletion. */
    ghost predicate EndedBy(reason: Reason, earlier: seq<Verdict>, pod: Option<Pod>)
      reads this
    {
      match reason
      case Unfinished => false
      case Saw(item, failure) =>
        s.w.attempts == earlier + [Err(failure)] && Consumed(item) in s.log && Shows(item, failure) && PodDeletedLast()
      case SawTheEnd(item) => s.w.attempts == earlier && Consumed(item) in s.log && item.Ok? && item.value.Deleted?
      case Heard(status) => pod.Some? && s.w.attempts == earlier + [Reply(status, pod.value)] && PodDeletedLast()
    }

    constructor (task: Task, ttl: nat, allowance: nat)
      ensures Valid() && s == Initial(ttl) && budget == allowance
    {
      this.task, this.ttl, this.allowance := task, ttl, allowance;
      this.s, this.budget, this.moves := Initial(ttl), allowance, [];
    }

    /** Make a move and pay for it. */
    method Do(move: Move)
      requires Valid() && Makes(task, move) && Enabled(s, move) && budget > 0
      modifies this
      ensures Valid() && old(moves) <= moves
      ensures s == Apply(old(s), move) && budget == old(budget) - 1
    {
      s, budget := Apply(s, move), budget - 1;
      assert (moves + [move])[..|moves|] == moves;
      moves := moves + [move];
    }

    /** Others move, as often and in whatever way they can. */
    method Others()
      requires Valid()
      modifies `s, `moves
      ensures Valid() && old(moves) <= moves && Untouched(task, old(s), s)
    {
      var n: nat := *;
      while n > 0
        invariant Valid() && old(moves) <= moves && Untouched(task, old(s), s)
      {
        var move: Move := *;
        if Enabled(s, move) && !Belongs(task, move) {
          OthersLeaveAlone(task, s, move);
          s := Apply(s, move);
          assert (moves + [move])[..|moves|] == moves;
          moves := moves + [move];
        }
        n := n - 1;
      }
    }

    /** Await the only move there is. `before` is the system found when it could, or could not, be made. */
    method Await(move: Move) returns (ok: bool, before: System)
      requires Valid() && Sole(task, s, move)
      modifies this
      ensures Valid() && old(moves) <= moves && Untouched(task, old(s), before)
      ensures ok ==> budget == old(budget) - 1 && Enabled(before, move) && s == Apply(before, move)
      ensures !ok ==> budget == old(budget) && s == before && Halted() && (budget == 0 || !Enabled(s, move))
    {
      Others();
      SoleStaysSole(task, old(s), s, move);
      before := s;
      ok := budget > 0 && Enabled(s, move);
      if ok {
        Do(move);
      } else if budget > 0 {
        BlockedAtSole(task, s, move);
      }
    }

    // ----- the event watcher

    /** One poll of the stream, which may stay silent. The backoff's answer is drawn here. */
    method PollOnce() returns (item: Option<Item>, giveUp: bool)
      requires Valid() && task.TheWatcher? && InPhase(s.w.pc) && budget > 0
      modifies this
      ensures Valid() && old(moves) <= moves && budget == old(budget) - 1
      ensures s.w.signals == old(s.w.signals) && s.w.attempts == old(s.w.attempts)
      ensures item.None? ==> s.w.pc == old(s.w.pc) && s.w.pod == old(s.w.pod)
      ensures item.Some? ==>
                && s.w.pc == OnItem(old(s.w.pc), item, giveUp)
                && JustSaw(item.value)
                && (!s.w.pc.Announcing? ==> s.w.pod == old(s.w.pod))
                && (s.w.pc.Announcing? ==> s.w.pod == Some(item.value.value.obj))
    {
      Others();
      giveUp := *;
      var answer: Watcher.Response<PodBody> := *;
      if !Watcher.Answers(s.w.stream, answer) {
        answer := AnyAnswer(s.w.stream);
      }
      item := Watcher.StepTrampolined(s.w.stream, answer).0;
      PollEffect(s, answer, giveUp);
      Do(W(Poll(answer, giveUp)));
    }

    /** `client.try_next()`: poll until the stream emits something. The item handed over is the one logged. */
    method TryNext() returns (ok: bool, item: Item, giveUp: bool)
      requires Valid() && task.TheWatcher? && InPhase(s.w.pc)
      modifies this
      ensures Valid() && old(moves) <= moves
      ensures s.w.signals == old(s.w.signals) && s.w.attempts == old(s.w.attempts)
      ensures !ok ==> budget == 0 && s.w.pc == old(s.w.pc) && s.w.pod == old(s.w.pod)
      ensures ok ==>
                && budget < old(budget)
                && s.w.pc == OnItem(old(s.w.pc), Some(item), giveUp)
                && JustSaw(item)
                && (!s.w.pc.Announcing? ==> s.w.pod == old(s.w.pod))
                && (s.w.pc.Announcing? ==> s.w.pod == Some(item.value.obj))
    {
      ok, giveUp, item := false, false, Err(Watcher.WatchFailed);
      while budget > 0
        invariant Valid() && old(moves) <= moves && budget <= old(budget)
        invariant s.w.pc == old(s.w.pc) && s.w.pod == old(s.w.pod)
        invariant s.w.signals == old(s.w.signals) && s.w.attempts == old(s.w.attempts)
        decreases budget
      {
        var emitted;
        emitted, giveUp := PollOnce();
        if emitted.Some? {
          ok, item := true, emitted.value;
          return;
        }
      }
    }

    /** `tokio::time::sleep` after a failure of the API. */
    method Sleep() returns (ok: bool)
      requires Valid() && task.TheWatcher? && (s.w.pc.Asleep1? || s.w.pc.Asleep2? || s.w.pc.Asleep3?)
      modifies this
      ensures Valid() && old(moves) <= moves
      ensures !ok ==> budget == 0 && s.w == old(s.w)
      ensures ok ==> budget < old(budget) && s.w == old(s.w).(pc := s.w.pc)
      ensures ok ==> s.w.pc == if old(s.w.pc).Asleep1? then Phase1 else if old(s.w.pc).Asleep2? then Phase2 else Phase3
    {
      var before;
      ok, before := Await(W(Wake));
    }

    /** `kill_gc`, then `kill_pod`: the collector is told of the end before the deletion is requested. */
    method KillGcAndPod() returns (finished: bool)
      requires Valid() && task.TheWatcher? && s.w.pc.StoppingGc?
      modifies this
      ensures Valid() && old(moves) <= moves
      ensures finished <==> s.w.pc.Returned?
      ensures WatcherAlive(s.w) <==> !finished
      ensures !finished ==> Halted()
      ensures s.w.attempts == old(s.w.attempts)
      ensures s.w.pc.StoppingGc? || s.w.pc.DeletingPod? || s.w.pc.Returned?
      ensures s.w.signals == old(s.w.signals) + if s.w.pc.StoppingGc? then [] else [GoTerminated]
      ensures finished ==> PodDeletedLast()
    {
      var before;
      finished, before := Await(W(StopGc));
      if finished {
        finished, before := Await(W(DeletePod));
      }
    }

    /** `terminate`: report the failure, stop the collector, delete the pod. */
    method Terminate(failure: Failure) returns (finished: bool)
      requires Valid() && task.TheWatcher? && s.w.pc == Failing(failure)
      modifies this
      ensures Valid() && old(moves) <= moves
      ensures finished <==> s.w.pc.Returned?
      ensures WatcherAlive(s.w) <==> !finished
      ensures !finished ==> Halted()
      ensures s.w.attempts == old(s.w.attempts) + if s.w.pc.Failing? then [] else [Err(failure)]
      ensures finished ==> s.w.signals == old(s.w.signals) + [GoTerminated]
      ensures finished ==> PodDeletedLast()
    {
      var before;
      finished, before := Await(W(SendFailure));
      if finished {
        finished := KillGcAndPod();
      }
    }

    /** Terminate because of an item that has just been consumed. */
    method TerminateOn(item: Item, failure: Failure) returns (finished: bool)
      requires Valid() && task.TheWatcher? && s.w.pc == Failing(failure) && JustSaw(item) && Shows(item, failure)
      modifies this
      ensures Valid() && old(moves) <= moves
      ensures finished <==> s.w.pc.Returned?
      ensures WatcherAlive(s.w) <==> !finished
      ensures !finished ==> Halted()
      ensures finished ==> s.w.signals == old(s.w.signals) + [GoTerminated]
      ensures finished ==> EndedBy(Saw(item, failure), old(s.w.attempts), None)
    {
      finished := Terminate(failure);
      StillLogged(old(moves), item);
    }

    lemma StillLogged(before: seq<Move>, item: Item)
      requires Valid() && before <= moves
      requires IsRun(ttl, before) && var log := After(ttl, before).log; log != [] && log[|log| - 1] == Consumed(item)
      ensures Consumed(item) in s.log
    {
      LogLasts(ttl, before, moves);
      var log := After(ttl, before).log;
      assert s.log[|log| - 1] == Consumed(item);
    }

    /**
    Tell the collector, then `ServerCheck::new`. `failure` says what went wrong, if anything did:
    the collector is gone, the pod has no address, or what it has does not parse.
     */
    method StartCheck(pod: Pod, parses: bool) returns (ok: bool, failure: Option<Failure>)
      requires Valid() && task.TheWatcher? && s.w.pc.Announcing? && s.w.pod == Some(pod)
      modifies this
      ensures Valid() && old(moves) <= moves && budget <= old(budget)
      ensures !ok ==> Halted() && s.w == old(s.w)
      ensures ok ==> s.w == old(s.w).(signals := old(s.w.signals) + [GoRunning(pod)], pc := s.w.pc)
      ensures ok ==> s.w.pc == if failure.Some? then Failing(failure.value) else Phase2
      ensures ok && failure.None? ==>
                && CollectorAlive(s.g) && s.g.status != [] && s.g.status[|s.g.status| - 1] == GoRunning(pod)
                && Address(pod).Ok? && parses
                && s.c.pc == Deciding(0, false) && s.c.endpoint == Some(Address(pod).value)
      ensures ok && failure.Some? ==>
                || (failure.value == GarbageCollectorUnresponsive && !CollectorAlive(s.g))
                || (Address(pod).Err? && failure.value == NoAddress(Address(pod).error))
                || (Address(pod).Ok? && failure.value == EndpointParse && !parses)
    {
      var before;
      failure := None;
      ok, before := Await(W(Announce(parses)));
      if ok {
        AnnounceEffect(before, parses, pod);
        if !CollectorAlive(before.g) {
          failure := Some(GarbageCollectorUnresponsive);
        } else {
          match Address(pod) {
            case Err(error) => failure := Some(NoAddress(error));
            case Ok(_) => failure := if parses then None else Some(EndpointParse);
          }
        }
      }
    }

    /** The pod runs: tell the collector and start the check, or terminate with what stood in the way. */
    method OnRunning(pod: Pod, parses: bool) returns (onward: bool, finished: bool, reason: Reason)
      requires Valid() && task.TheWatcher? && s.w.pc.Announcing? && s.w.pod == Some(pod)
      requires JustSaw(Ok(Watcher.Applied(pod))) && Running(pod)
      modifies this
      ensures Valid() && old(moves) <= moves
      ensures finished <==> !WatcherAlive(s.w)
      ensures !onward && !finished ==> Halted()
      ensures onward ==>
                && s.w.pc.Phase2? && s.w.pod == Some(pod)
                && s.w.signals == old(s.w.signals) + [GoRunning(pod)] && s.w.attempts == old(s.w.attempts)
                && s.c.pc == Deciding(0, false) && Address(pod).Ok? && s.c.endpoint == Some(Address(pod).value)
      ensures finished ==>
                && s.w.pc.Returned? && EndedBy(reason, old(s.w.attempts), None)
                && reason == Saw(Ok(Watcher.Applied(pod)),
                                 if Address(pod).Err? then NoAddress(Address(pod).error) else EndpointParse)
                && (Address(pod).Ok? ==> !parses)
    {
      reason := Unfinished;
      var ok, failure := StartCheck(pod, parses);
      onward, finished := ok && failure.None?, false;
      if ok && failure.Some? {
        reason := Saw(Ok(Watcher.Applied(pod)), failure.value);
        finished := TerminateStart(pod, failure.value, old(moves));
      }
    }

    /** Terminate because of what stood in the way of the check. */
    method TerminateStart(pod: Pod, failure: Failure, ghost seen: seq<Move>) returns (finished: bool)
      requires Valid() && task.TheWatcher? && s.w.pc == Failing(failure) && Running(pod)
      requires seen <= moves && IsRun(ttl, seen)
      requires var log := After(ttl, seen).log; log != [] && log[|log| - 1] == Consumed(Ok(Watcher.Applied(pod)))
      requires || failure == GarbageCollectorUnresponsive
               || (Address(pod).Err? && failure == NoAddress(Address(pod).error))
               || (Address(pod).Ok? && failure == EndpointParse)
      modifies this
      ensures Valid() && old(moves) <= moves
      ensures finished <==> s.w.pc.Returned?
      ensures WatcherAlive(s.w) <==> !finished
      ensures !finished ==> Halted()
      ensures finished ==>
                failure != GarbageCollectorUnresponsive
                && EndedBy(Saw(Ok(Watcher.Applied(pod)), failure), old(s.w.attempts), None)
    {
      finished := Terminate(failure);
      if finished {
        WasShown(ttl, moves, failure, pod);
        StillLogged(seen, Ok(Watcher.Applied(pod)));
      }
    }

    /** The image could not be pulled: terminate with the message, or panic at the unwrap for lack of one. */
    method OnErrImagePull(pod: Pod) returns (finished: bool, reason: Reason)
      requires Valid() && task.TheWatcher? && JustSaw(Ok(Watcher.Applied(pod))) && !Running(pod) && !Ended(pod)
      requires s.w.pc == OnPhase1(Some(Ok(Watcher.Applied(pod))), false) && WasErrImagePull(pod)
      modifies this
      ensures Valid() && old(moves) <= moves
      ensures finished <==> !WatcherAlive(s.w)
      ensures !finished ==> Halted()
      ensures s.w.pc.WatcherPanicked? <==> FirstPullMessage(pod, None)
      ensures s.w.pc.Returned? ==>
                && reason.Saw? && reason.failure.ImagePull? && FirstPullMessage(pod, Some(reason.failure.message))
                && EndedBy(reason, old(s.w.attempts), None)
    {
      reason := Unfinished;
      ErrImagePullPanicsExactly(pod);
      match ErrImagePull(pod) {
        case Problem(message) =>
          ErrImagePullTells(pod, message);
          reason := Saw(Ok(Watcher.Applied(pod)), ImagePull(message));
          finished := TerminateOn(Ok(Watcher.Applied(pod)), ImagePull(message));
        case _ =>
          ErrImagePullTells(pod, "");
          finished := true;
      }
    }

    /** Phase 1: until the pod runs. Onward, the collector has been told and the health check started. */
    method WatchPhase1() returns (onward: bool, finished: bool, reason: Reason)
      requires Valid() && task.TheWatcher? && s.w.pc.Phase1?
      modifies this
      ensures Valid() && old(moves) <= moves
      ensures finished <==> !WatcherAlive(s.w)
      ensures !onward && !finished ==> Halted()
      ensures onward ==>
                && s.w.pc.Phase2? && s.w.pod.Some? && Running(s.w.pod.value)
                && s.w.signals == old(s.w.signals) + [GoRunning(s.w.pod.value)] && s.w.attempts == old(s.w.attempts)
                && s.c.pc == Deciding(0, false) && Address(s.w.pod.value).Ok?
                && s.c.endpoint == Some(Address(s.w.pod.value).value)
      ensures s.w.pc.Returned? ==> reason.Saw? && EndedBy(reason, old(s.w.attempts), None)
    {
      onward, finished, reason := false, false, Unfinished;
      while true
        invariant Valid() && old(moves) <= moves && s.w.pc.Phase1?
        invariant s.w.signals == old(s.w.signals) && s.w.attempts == old(s.w.attempts)
        decreases budget
      {
        var ok, item, giveUp := TryNext();
        if !ok {
          return;
        }
        match item {
          case Err(_) =>
            if giveUp {
              reason := Saw(item, KubernetesUnresponsive);
              finished := TerminateOn(item, KubernetesUnresponsive);
              return;
            }
            ok := Sleep();
            if !ok {
              return;
            }
          case Ok(Added(_)) =>
          case Ok(Restarted(_)) =>
          case Ok(Deleted(_)) =>
            reason := Saw(item, PodDeleted);
            finished := TerminateOn(item, PodDeleted);
            return;
          case Ok(Applied(p)) =>
            if Running(p) {
              var parses: bool := *;
              onward, finished, reason := OnRunning(p, parses);
              return;
            } else if Terminated(p) || Crashed(p) {
              reason := Saw(item, PodCrashed);
              finished := TerminateOn(item, PodCrashed);
              return;
            } else if WasErrImagePull(p) {
              finished, reason := OnErrImagePull(p);
              return;
            }
        }
      }
    }

    /** `check.kill()` or `check.join()`: await the end of the health check. */
    method AwaitChecker() returns (ok: bool)
      requires Valid() && task.TheWatcher? && (s.w.pc.Killing? || s.w.pc.Joining?)
      modifies this
      ensures Valid() && old(moves) <= moves
      ensures !ok ==> Halted() && s.w == old(s.w)
      ensures ok ==> CheckerDone(s.c) && s.w == old(s.w).(pc := s.w.pc)
      ensures ok ==> s.w.pc == match old(s.w.pc)
                               case Killing(failure) => Failing(failure)
                               case Joining(Ill(failure)) => Failing(failure)
                               case _ => Reporting
    {
      var before;
      ok, before := Await(W(CheckerOver));
    }

    /** Kill the check and terminate because of an item that has just been consumed. */
    method KillAndTerminate(item: Item, failure: Failure) returns (finished: bool)
      requires Valid() && task.TheWatcher? && s.w.pc == Killing(failure) && JustSaw(item) && Shows(item, failure)
      modifies this
      ensures Valid() && old(moves) <= moves
      ensures finished <==> s.w.pc.Returned?
      ensures WatcherAlive(s.w) <==> !finished
      ensures !finished ==> Halted()
      ensures finished ==> s.w.signals == old(s.w.signals) + [GoTerminated]
      ensures finished ==> EndedBy(Saw(item, failure), old(s.w.attempts), None)
    {
      finished := AwaitChecker();
      if finished {
        finished := Terminate(failure);
        StillLogged(old(moves), item);
      }
    }

    /** The health check has spoken (`status`), or dropped its channel. */
    method OnHealth(status: Option<Health>) returns (onward: bool, finished: bool)
      requires Valid() && task.TheWatcher? && s.w.pod.Some?
      requires s.w.pc == Joining(if status.Some? then status.value else Ill(HealthCheckDroppedItsChannel))
      modifies this
      ensures Valid() && old(moves) <= moves
      ensures finished <==> !WatcherAlive(s.w)
      ensures !onward && !finished ==> Halted()
      ensures onward ==>
                && status == Some(Healthy) && s.w.pc.Phase3? && s.w.pod == old(s.w.pod)
                && s.w.attempts == old(s.w.attempts) + [Ok(s.w.pod.value)] && s.w.signals == old(s.w.signals)
      ensures finished ==>
                && s.w.pc.Returned? && s.w.signals == old(s.w.signals) + [GoTerminated]
                && EndedBy(Heard(status), old(s.w.attempts), old(s.w.pod))
    {
      onward, finished := false, false;
      var pod := s.w.pod;
      var ok := AwaitChecker();
      if !ok {
        return;
      }
      match status {
        case None => finished := Terminate(HealthCheckDroppedItsChannel);
        case Some(Ill(failure)) => finished := Terminate(failure);
        case Some(Healthy) => onward, finished := SendSuccess(pod.value);
      }
    }

    /** Tell the client that its pod is ready; if no one is listening, shut the pod down. */
    method SendSuccess(pod: Pod) returns (onward: bool, finished: bool)
      requires Valid() && task.TheWatcher? && s.w.pc.Reporting? && s.w.pod == Some(pod)
      modifies this
      ensures Valid() && old(moves) <= moves
      ensures finished <==> !WatcherAlive(s.w)
      ensures !onward && !finished ==> Halted()
      ensures onward ==>
                && s.w.pc.Phase3? && s.w.pod == old(s.w.pod)
                && s.w.attempts == old(s.w.attempts) + [Ok(pod)] && s.w.signals == old(s.w.signals)
      ensures finished ==>
                && s.w.pc.Returned? && s.w.signals == old(s.w.signals) + [GoTerminated]
                && s.w.attempts == old(s.w.attempts) + [Ok(pod)] && PodDeletedLast()
    {
      onward, finished := false, false;
      var ok, before := Await(W(Report));
      if ok && ShimAlive(before.h) {
        onward := true;
      } else if ok {
        finished := KillGcAndPod();
      }
    }

    /** Phase 2: until the health check speaks. Onward, the client has been told of the pod. */
    method WatchPhase2() returns (onward: bool, finished: bool, reason: Reason)
      requires Valid() && task.TheWatcher? && s.w.pc.Phase2? && s.w.pod.Some?
      modifies this
      ensures Valid() && old(moves) <= moves
      ensures finished <==> !WatcherAlive(s.w)
      ensures !onward && !finished ==> Halted()
      ensures onward ==>
                && s.w.pc.Phase3? && s.w.pod == old(s.w.pod)
                && s.w.attempts == old(s.w.attempts) + [Ok(s.w.pod.value)] && s.w.signals == old(s.w.signals)
      ensures finished ==>
                && s.w.pc.Returned? && s.w.signals == old(s.w.signals) + [GoTerminated]
                && (reason.Saw? || reason.Heard?) && EndedBy(reason, old(s.w.attempts), old(s.w.pod))
    {
      onward, finished, reason := false, false, Unfinished;
      while budget > 0
        invariant Valid() && old(moves) <= moves && s.w.pc.Phase2? && !onward && !finished
        invariant s.w.signals == old(s.w.signals) && s.w.attempts == old(s.w.attempts) && s.w.pod == old(s.w.pod)
        decreases budget
      {
        Others();
        if {
          case Enabled(s, W(HearChecker)) =>
            var status := s.c.outcome;
            Do(W(HearChecker));
            onward, finished := OnHealth(status);
            reason := Heard(status);
            return;
          case true =>
            var item, giveUp := PollOnce();
            if item.Some? {
              var again;
              again, finished, reason := OnEventInPhase2(item.value, giveUp);
              if !again {
                return;
              }
            }
        }
      }
    }

    /** An event of phase 2: the check is killed on all but harmless ones. */
    method OnEventInPhase2(item: Item, giveUp: bool) returns (again: bool, finished: bool, reason: Reason)
      requires Valid() && task.TheWatcher? && s.w.pc == OnPhase2(Some(item), giveUp) && JustSaw(item)
      modifies this
      ensures Valid() && old(moves) <= moves
      ensures finished <==> !WatcherAlive(s.w)
      ensures !again && !finished ==> Halted()
      ensures again ==> budget <= old(budget) && s.w == old(s.w).(pc := Phase2)
      ensures finished ==>
                && s.w.pc.Returned? && s.w.signals == old(s.w.signals) + [GoTerminated]
                && reason.Saw? && EndedBy(reason, old(s.w.attempts), None)
    {
      again, finished, reason := false, false, Unfinished;
      match item {
        case Err(_) =>
          if giveUp {
            reason := Saw(item, KubernetesUnresponsive);
            finished := KillAndTerminate(item, KubernetesUnresponsive);
          } else {
            again := Sleep();
          }
        case Ok(Deleted(_)) =>
          reason := Saw(item, PodDeleted);
          finished := KillAndTerminate(item, PodDeleted);
        case Ok(Restarted(_)) =>
          reason := Saw(item, PodRebooted);
          finished := KillAndTerminate(item, PodRebooted);
        case Ok(_) => again := true;
      }
    }

    /** The pod is gone as it should: only the collector has to be stopped. */
    method Close(item: Item) returns (finished: bool)
      requires Valid() && task.TheWatcher? && s.w.pc.Closing? && JustSaw(item) && item.Ok? && item.value.Deleted?
      modifies this
      ensures Valid() && old(moves) <= moves
      ensures finished <==> s.w.pc.Returned?
      ensures WatcherAlive(s.w) <==> !finished
      ensures !finished ==> Halted()
      ensures finished ==> s.w.signals == old(s.w.signals) + [GoTerminated]
      ensures finished ==> EndedBy(SawTheEnd(item), old(s.w.attempts), None)
    {
      var before;
      finished, before := Await(W(StopGc));
      StillLogged(old(moves), item);
    }

    /** Phase 3: until the pod is deleted. */
    method WatchPhase3() returns (finished: bool, reason: Reason)
      requires Valid() && task.TheWatcher? && s.w.pc.Phase3?
      modifies this
      ensures Valid() && old(moves) <= moves
      ensures finished <==> !WatcherAlive(s.w)
      ensures !finished ==> Halted()
      ensures finished ==>
                && s.w.pc.Returned? && s.w.signals == old(s.w.signals) + [GoTerminated]
                && (reason.Saw? || reason.SawTheEnd?) && EndedBy(reason, old(s.w.attempts), None)
    {
      finished, reason := false, Unfinished;
      while true
        invariant Valid() && old(moves) <= moves && s.w.pc.Phase3?
        invariant s.w.signals == old(s.w.signals) && s.w.attempts == old(s.w.attempts)
        decreases budget
      {
        var ok, item, giveUp := TryNext();
        if !ok {
          return;
        }
        match item {
          case Err(_) =>
            if giveUp {
              reason := Saw(item, KubernetesUnresponsive);
              finished := TerminateOn(item, KubernetesUnresponsive);
              return;
            }
            ok := Sleep();
            if !ok {
              return;
            }
          case Ok(Deleted(_)) =>
            reason := SawTheEnd(item);
            finished := Close(item);
            return;
          case Ok(Restarted(_)) =>
            reason := Saw(item, PodRebooted);
            finished := TerminateOn(item, PodRebooted);
            return;
          case Ok(_) =>
        }
      }
    }

    /**
    `watch`. It ends, or its moves are used up, or it waits for the checker to end or for the shim
    to take a result. When it has returned, it has told the collector and the clients what it
    should, and it has not left the pod behind.
     */
    method Watch() returns (finished: bool)
      requires Valid() && task.TheWatcher? && s.w.pc.Phase1?
      modifies this
      ensures Valid() && old(moves) <= moves
      ensures finished <==> !WatcherAlive(s.w)
      ensures !finished ==>
                || budget == 0
                || ((s.w.pc.Killing? || s.w.pc.Joining?) && !CheckerDone(s.c))
                || (s.w.pc.Failing? && Enabled(s, H(TakeResult)))
      ensures s.w.pc.Returned? ==> InOrder(s)
      ensures forall failure :: Err(failure) in s.w.attempts ==> Caused(moves, s.log, failure)
    {
      var onward, reason;
      onward, finished, reason := WatchPhase1();
      if onward {
        onward, finished, reason := WatchPhase2();
        if onward {
          finished, reason := WatchPhase3();
        }
      }
      if !finished && budget > 0 {
        WatcherWaitsFor(ttl, moves);
      }
      WatcherLeavesOrder(ttl, moves);
    }

    // ----- the garbage collector

    /** Record the ticket's date on the pod; a refused patch is an unwrap that panics. */
    method PatchPod() returns (ok: bool, patched: bool)
      requires Valid() && task.TheCollector? && s.g.pc.Patching?
      modifies this
      ensures Valid() && old(moves) <= moves && budget <= old(budget)
      ensures !ok ==> budget == 0 && s.g.pc.Patching?
      ensures ok && patched ==> s.g.pc.Armed? && s.g.executionDate == Some(s.g.ticket.expiry)
      ensures ok && !patched ==> s.g.pc.CollectorPanicked?
      ensures s.g.ticket == old(s.g.ticket) && s.g.tickets == old(s.g.tickets) && s.g.received == old(s.g.received)
    {
      patched := *;
      var before;
      ok, before := Await(G(Patch(patched)));
    }

    /** `client.delete(..).await.unwrap()`: the request is made, whatever becomes of it. */
    method DeleteFromCollector(cause: Cause) returns (finished: bool)
      requires Valid() && task.TheCollector? && s.g.pc == Deleting(cause)
      modifies this
      ensures Valid() && old(moves) <= moves
      ensures finished <==> !CollectorAlive(s.g)
      ensures !finished ==> budget == 0
      ensures finished ==>
                && s.deletes != [] && s.deletes[|s.deletes| - 1].ByCollector?
                && s.deletes[|s.deletes| - 1].cause == cause
    {
      var deleted: bool := *;
      var before;
      finished, before := Await(G(Delete(deleted)));
    }

    /** Phase 1: wait for the go-ahead. Onward, it was heard and the first ticket issued. */
    method GcPhase1() returns (onward: bool, finished: bool)
      requires Valid() && task.TheCollector? && s.g.pc.AwaitingGo?
      modifies this
      ensures Valid() && old(moves) <= moves
      ensures finished <==> !CollectorAlive(s.g)
      ensures !onward && !finished ==> Halted()
      ensures finished ==> s.g.tickets == old(s.g.tickets)
      ensures s.g.pc.Exited? ==>
                || s.g.received == old(s.g.received) + [GoTerminated]
                || (s.g.received == old(s.g.received) && !WatcherAlive(s.w))
      ensures s.g.pc.CollectorPanicked? ==>
                |s.g.received| == |old(s.g.received)| + 1 && s.g.received[|old(s.g.received)|].GoRunning?
      ensures onward ==>
                && s.g.pc.Patching? && s.g.tickets == old(s.g.tickets) + [s.g.ticket]
                && |s.g.received| == |old(s.g.received)| + 1 && s.g.received[|old(s.g.received)|].GoRunning?
    {
      onward, finished := false, false;
      var ok, before := Await(G(Hear));
      if !ok {
        return;
      }
      var signal := NextSignal(before.g);
      match signal {
        case None => finished := true;
        case Some(GoTerminated) => finished := true;
        case Some(GoRunning(_)) =>
          var configured: bool := *;
          ok, before := Await(G(Arm(configured)));
          onward, finished := ok && configured, ok && !configured;
      }
    }

    /**
    One turn of the collector's loop. At its head the date recorded on the pod is the current
    ticket's, and so it is when the loop comes round again.
     */
    method GcRound() returns (again: bool, finished: bool)
      requires Valid() && task.TheCollector? && s.g.pc.Armed? && s.g.executionDate == Some(s.g.ticket.expiry)
      modifies this
      ensures Valid() && old(moves) <= moves
      ensures finished <==> !CollectorAlive(s.g)
      ensures !again && !finished ==> Halted()
      ensures !again && !finished && budget > 0 ==> CollectorWaits(s)
      ensures again ==> budget < old(budget) && s.g.pc.Armed? && s.g.executionDate == Some(s.g.ticket.expiry)
      ensures again ==> s.g.tickets == old(s.g.tickets) || s.g.tickets == old(s.g.tickets) + [s.g.ticket]
      ensures s.g.pc.Exited? ==>
                || s.g.received == old(s.g.received) + [GoTerminated]
                || (s.deletes != [] && s.deletes[|s.deletes| - 1].ByCollector?)
    {
      again, finished := false, false;
      Others();
      if budget == 0 {
        return;
      }
      if {
        case Enabled(s, G(Serve)) =>
          again, finished := ServeRefresh();
        case Enabled(s, G(Expire)) =>
          Do(G(Expire));
          finished := DeleteFromCollector(TimedOut);
        case Enabled(s, G(Hear)) =>
          again, finished := HearStatus();
        case !Enabled(s, G(Serve)) && !Enabled(s, G(Expire)) && !Enabled(s, G(Hear)) =>
          BlockedAtSelect(s);
          CollectorWaitsFor(ttl, moves);
      }
    }

    /** A refresh request: issue a new ticket, hand it over, record it. A closed channel is passed over. */
    method ServeRefresh() returns (again: bool, finished: bool)
      requires Valid() && task.TheCollector? && s.g.pc.Armed? && s.g.executionDate == Some(s.g.ticket.expiry)
      requires Enabled(s, G(Serve)) && budget > 0
      modifies this
      ensures Valid() && old(moves) <= moves
      ensures finished <==> !CollectorAlive(s.g)
      ensures !again && !finished ==> budget == 0
      ensures !s.g.pc.Exited?
      ensures again ==> budget < old(budget) && s.g.pc.Armed? && s.g.executionDate == Some(s.g.ticket.expiry)
      ensures s.g.tickets == if old(s.g.requests) > 0 then old(s.g.tickets) + [s.g.ticket] else old(s.g.tickets)
    {
      var asked := s.g.requests > 0;
      Do(G(Serve));
      again, finished := !asked, false;
      if asked {
        var ok, patched := PatchPod();
        again, finished := ok && patched, ok && !patched;
      }
    }

    /** A word from the watcher, or its silence once it is gone. */
    method HearStatus() returns (again: bool, finished: bool)
      requires Valid() && task.TheCollector? && s.g.pc.Armed? && s.g.executionDate == Some(s.g.ticket.expiry)
      requires Enabled(s, G(Hear)) && budget > 0
      modifies this
      ensures Valid() && old(moves) <= moves
      ensures finished <==> !CollectorAlive(s.g)
      ensures !again && !finished ==> budget == 0
      ensures again ==>
                && budget < old(budget) && s.g.pc.Armed? && s.g.executionDate == Some(s.g.ticket.expiry)
                && s.g.tickets == old(s.g.tickets)
      ensures s.g.pc.Exited? ==>
                || s.g.received == old(s.g.received) + [GoTerminated]
                || (s.deletes != [] && s.deletes[|s.deletes| - 1].ByCollector?)
    {
      var signal := NextSignal(s.g);
      Do(G(Hear));
      again, finished := false, false;
      match signal {
        case None => finished := DeleteFromCollector(Orphaned);
        case Some(GoTerminated) => finished := true;
        case Some(GoRunning(_)) => again := true;
      }
    }

    /** Phase 2: record the ticket, then take turns. */
    method GcPhase2() returns (finished: bool)
      requires Valid() && task.TheCollector? && s.g.pc.Patching?
      modifies this
      ensures Valid() && old(moves) <= moves
      ensures finished <==> !CollectorAlive(s.g)
      ensures !finished ==> Halted()
      ensures s.g.pc.Exited? ==>
                || (s.g.received != [] && s.g.received[|s.g.received| - 1].GoTerminated?)
                || (s.deletes != [] && s.deletes[|s.deletes| - 1].ByCollector?)
    {
      var again, patched := PatchPod();
      finished := again && !patched;
      again := again && patched;
      while again
        invariant Valid() && old(moves) <= moves
        invariant again ==> !finished && s.g.pc.Armed? && s.g.executionDate == Some(s.g.ticket.expiry)
        invariant finished <==> !CollectorAlive(s.g)
        invariant !again && !finished ==> Halted()
        invariant s.g.pc.Exited? ==>
                    || (s.g.received != [] && s.g.received[|s.g.received| - 1].GoTerminated?)
                    || (s.deletes != [] && s.deletes[|s.deletes| - 1].ByCollector?)
        decreases again, budget
      {
        again, finished := GcRound();
      }
    }

    /**
    `gc`. It ends, or its moves are used up, or nothing it listens for has happened. A deletion for
    lack of a refresh never cuts a ticket short, and a collector that exits has deleted the pod
    exactly when the go-ahead is all it ever heard.
     */
    method Gc() returns (finished: bool)
      requires Valid() && task.TheCollector? && s.g.pc.AwaitingGo?
      modifies this
      ensures Valid() && old(moves) <= moves
      ensures finished <==> !CollectorAlive(s.g)
      ensures !finished ==> budget == 0 || CollectorWaits(s)
      ensures s.g.pc.Exited? ==> (DeletedByCollector(s.deletes) <==> HeardGo(s.g))
      ensures s.g.pc.Armed? ==> s.g.tickets != [] && s.g.executionDate == Some(s.g.tickets[|s.g.tickets| - 1].expiry)
      ensures forall d, t :: d in s.deletes && d.ByCollector? && d.cause.TimedOut? && t in s.g.tickets ==>
                t.expiry <= d.at
    {
      var onward;
      onward, finished := GcPhase1();
      if onward {
        finished := GcPhase2();
      }
      if !finished && budget > 0 {
        CollectorWaitsFor(ttl, moves);
      }
      TicketsAreHonoured(ttl, moves);
      NoPodIsLeaked(ttl, moves);
    }

    // ----- the shim and the clients

    /**
    The shim: take the result, meet a client or lose patience, forward. What it forwards is the
    first result the watcher sent; it leaves with it only when sixty seconds have passed.
     */
    method Shim() returns (finished: bool, forwarded: bool)
      requires Valid() && task.TheShim? && s.h.pc.AwaitingResult?
      modifies this
      ensures Valid() && old(moves) <= moves
      ensures finished <==> s.h.pc.Over?
      ensures !finished ==> !forwarded && (budget == 0 || ShimWaits(s))
      ensures forwarded ==> !ManagerAlive(s.m) || s.h.outbox == [s.h.verdict]
      ensures finished && !forwarded ==> s.h.deadline <= s.now
      ensures finished ==>
                if s.w.attempts != [] then s.h.verdict == s.w.attempts[0]
                else s.h.verdict == Err(InboundResultChannelDropped) && s.w.pc.WatcherPanicked?
    {
      forwarded := false;
      var ok, before := Await(H(TakeResult));
      finished := false;
      if ok {
        finished, forwarded := ShimMeets();
      }
      if !finished && budget > 0 {
        ShimWaitsFor(ttl, moves);
      }
      InvHolds(ttl, moves);
    }

    /** The shim's select between its patience and the barrier. */
    method ShimMeets() returns (finished: bool, forwarded: bool)
      requires Valid() && task.TheShim? && s.h.pc.AtBarrier?
      modifies this
      ensures Valid() && old(moves) <= moves
      ensures finished <==> s.h.pc.Over?
      ensures !finished ==> Halted() && !forwarded
      ensures forwarded ==> !ManagerAlive(s.m) || s.h.outbox == [s.h.verdict]
      ensures finished && !forwarded ==> s.h.deadline <= s.now
    {
      finished, forwarded := false, false;
      Others();
      if budget == 0 {
        return;
      }
      if {
        case Enabled(s, H(LosePatience)) =>
          Do(H(LosePatience));
          finished := true;
        case Enabled(s, H(ShimPasses)) =>
          Do(H(ShimPasses));
          var before;
          forwarded, before := Await(H(Forward));
          finished := forwarded;
        case !Enabled(s, H(LosePatience)) && !Enabled(s, H(ShimPasses)) =>
          BlockedAtBarrier(s);
      }
    }

    /**
    `PodManagerUpperHandle::wait`: what was remembered, or what the shim hands over and is then
    remembered. It hangs only where the client is blocked.
     */
    method Wait() returns (ok: bool, verdict: Verdict)
      requires Valid() && task.TheClient? && s.m.client.Idle? && s.m.holders > 0
      modifies this
      ensures Valid() && old(moves) <= moves
      ensures !ok ==> Halted() && s.m.outcomes == old(s.m.outcomes)
      ensures !ok && budget > 0 ==> ClientWaits(s)
      ensures ok ==> s.m.outcomes == old(s.m.outcomes) + [verdict] && s.m.phantom == Some(Memo(verdict))
      ensures ok ==> s.m.client == if verdict.Ok? then Requesting(Some(verdict.value), s.now) else Idle
      ensures old(s.m.phantom).Some? && old(budget) > 0 ==> ok && verdict == old(s.m.phantom).value
      ensures s.m.leases == old(s.m.leases)
    {
      ok, verdict := false, Err(PhantomError);
      Others();
      if budget == 0 {
        return;
      }
      PhantomIsMemo(ttl, moves);
      var phantom := s.m.phantom;
      CallWaitEffect(s);
      Do(K(CallWait));
      match phantom {
        case Some(Ok(pod)) => ok, verdict := true, Ok(pod);
        case Some(Err(_)) => ok, verdict := true, Err(PhantomError);
        case None => ok, verdict := MeetShim();
      }
    }

    /** The barrier, then the channel from the shim. */
    method MeetShim() returns (ok: bool, verdict: Verdict)
      requires Valid() && task.TheClient? && s.m.client.InBarrier?
      modifies this
      ensures Valid() && old(moves) <= moves
      ensures !ok ==> Halted() && s.m.outcomes == old(s.m.outcomes)
      ensures !ok && budget > 0 ==> ClientWaits(s)
      ensures ok ==> s.m.outcomes == old(s.m.outcomes) + [verdict] && s.m.phantom == Some(Memo(verdict))
      ensures ok ==> s.m.client == if verdict.Ok? then Requesting(Some(verdict.value), s.now) else Idle
      ensures s.m.leases == old(s.m.leases)
    {
      verdict := Err(PhantomError);
      var before;
      ok, before := Await(K(ClientPasses));
      if ok {
        ok, before := Await(K(Receive));
        if ok {
          verdict := if before.h.outbox != [] then before.h.outbox[0] else Err(InboundResultChannelDropped);
        }
      }
      if !ok && budget > 0 {
        ClientWaitsFor(ttl, moves);
      }
    }

    /** `PodManager::refresh`: a ticket from the collector, or none because it is gone. */
    method Refresh() returns (ok: bool, ticket: Option<Ticket>)
      requires Valid() && task.TheClient? && s.m.client.Requesting?
      modifies this
      ensures Valid() && old(moves) <= moves
      ensures !ok ==> budget == 0 || ClientWaits(s)
      ensures ok ==> s.m.client.Idle? && (ticket.None? ==> !CollectorAlive(s.g))
      ensures ok && old(s.m.client).pod.None? ==>
                s.m.refreshes == old(s.m.refreshes) + [Refreshed(old(s.m.client).asked, ticket)]
      ensures ok && old(s.m.client).pod.Some? && ticket.Some? ==>
                s.m.leases == old(s.m.leases) + [Lease(old(s.m.client).pod.value, ticket.value)]
    {
      ticket := None;
      var before;
      ok, before := Await(K(Request));
      if ok && CollectorAlive(before.g) {
        ok, before := Await(K(Collect));
        if ok {
          ticket := before.m.reply;
        }
      }
      if !ok && budget > 0 {
        ClientWaitsFor(ttl, moves);
      }
    }

    /**
    The wait endpoint: the pod, with a fresh ticket for it that outlasts its health check by a full
    TTL. It answers without one only if `wait` failed or the collector is gone.
     */
    method WaitEndpoint() returns (finished: bool, lease: Option<Lease>)
      requires Valid() && task.TheClient? && s.m.client.Idle? && s.m.holders > 0
      modifies this
      ensures Valid() && old(moves) <= moves
      ensures !finished ==> budget == 0 || ClientWaits(s)
      ensures finished ==> s.m.client.Idle?
      ensures finished && lease.None? ==>
                || !CollectorAlive(s.g)
                || (s.m.outcomes != [] && s.m.outcomes[|s.m.outcomes| - 1].Err?)
      ensures lease.Some? ==>
                && s.m.leases == old(s.m.leases) + [lease.value]
                && exists i: nat, j: nat, k: nat ::
                     Proves(s.log, lease.value.pod, lease.value.ticket.created, i, j, k)
                     && s.log[j].at + ttl <= lease.value.ticket.expiry
    {
      finished, lease := false, None;
      var ok, verdict := Wait();
      if !ok {
        return;
      }
      if verdict.Err? {
        finished := true;
        return;
      }
      var ticket;
      finished, ticket := Refresh();
      if finished && ticket.Some? {
        lease := Some(Lease(verdict.value, ticket.value));
        LeaseOutlastsCheck(ttl, moves, lease.value);
      }
    }

    /** The refresh endpoint: a ticket made since it was asked for, unless the collector is gone. */
    method RefreshEndpoint() returns (finished: bool, ticket: Option<Ticket>)
      requires Valid() && task.TheClient? && s.m.client.Idle? && s.m.holders > 0
      modifies this
      ensures Valid() && old(moves) <= moves
      ensures !finished ==> budget == 0 || ClientWaits(s)
      ensures finished ==> s.m.client.Idle? && (ticket.None? ==> !CollectorAlive(s.g))
      ensures finished && ticket.Some? ==> old(s.now) <= ticket.value.created && old(s.now) + ttl <= ticket.value.expiry
    {
      finished, ticket := false, None;
      Others();
      if budget == 0 {
        return;
      }
      Do(K(CallRefresh));
      var asked := s.now;
      finished, ticket := Refresh();
      if finished {
        RefreshIsFresh(ttl, moves, Refreshed(asked, ticket));
      }
    }
  }
}
