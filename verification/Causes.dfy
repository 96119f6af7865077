/**
Why a failure is reported: every failure the event watcher ever reports has its cause in what was
consumed, observed or answered before, over every run.
 */
module Causes {
  import opened Wrappers
  import opened Pods
  import opened Protocol
  import opened Signals
  import opened Results
  import opened Checks
  import opened Evidence
  import opened Endings
  import opened Frames
  import opened PodManager
  import opened Attention
  import Watcher

  // ----- causes

  /** Which failure an item of the event stream stands for, if the watcher fails on it. */
  ghost predicate Shows(item: Item, failure: Failure) {
    match failure
    case KubernetesUnresponsive => item.Err?
    case PodDeleted => item.Ok? && item.value.Deleted?
    case PodRebooted => item.Ok? && item.value.Restarted?
    case PodCrashed => ShowsPod(item) && !Running(item.value.obj) && Ended(item.value.obj)
    case ImagePull(message) =>
      && ShowsPod(item) && !Running(item.value.obj) && !Ended(item.value.obj)
      && FirstPullMessage(item.value.obj, Some(message))
    case NoAddress(error) => ShowsPod(item) && Running(item.value.obj) && Address(item.value.obj) == Err(error)
    case EndpointParse => ShowsPod(item) && Running(item.value.obj) && Address(item.value.obj).Ok?
    case _ => false
  }

  predicate ShowsPod(item: Item) { item.Ok? && item.value.Applied? }

  /** An item stands for at most one failure. */
  lemma ShowsOne(item: Item, a: Failure, b: Failure)
    requires Shows(item, a) && Shows(item, b)
    ensures a == b
  {
    if a.ImagePull? && b.ImagePull? {
      ErrImagePullTells(item.value.obj, a.message);
      ErrImagePullTells(item.value.obj, b.message);
    }
  }

  ghost predicate Shown(log: seq<Act>, failure: Failure) {
    exists item :: Consumed(item) in log && Shows(item, failure)
  }

  /** Shown before the pod was ever seen running. */
  ghost predicate ShownEarly(log: seq<Act>, failure: Failure) {
    exists x :: 0 <= x < |log| && log[x].Consumed? && Shows(log[x].item, failure) && !SeenRunningBefore(log, x)
  }

  /** A failure of the API for which the backoff granted no delay. */
  ghost predicate GaveUp(moves: seq<Move>) {
    exists response :: W(Poll(response, true)) in moves && Fails(response)
  }

  /** Everything a failure needs to have happened, in the log or among the moves of the run. */
  ghost predicate Caused(moves: seq<Move>, log: seq<Act>, failure: Failure) {
    match failure
    case PodDeleted => Shown(log, failure)
    case PodCrashed => ShownEarly(log, failure)
    case ImagePull(_) => ShownEarly(log, failure)
    case KubernetesUnresponsive => Shown(log, failure) && GaveUp(moves)
    case NoAddress(_) => Shown(log, failure)
    case EndpointParse => Shown(log, failure) && W(Announce(false)) in moves
    case TooManyFailures => C(Connect(false)) in moves && C(AskBackoff(false)) in moves
    case NotReady => C(RunOutOfTime) in moves
    case PodRebooted => Relisted(log)
    case HealthCheckDroppedItsChannel => C(PanicChecker) in moves
    case _ => false
  }

  /** The failures this file finds the cause of; the others have been seen to. */
  predicate Ordinary(failure: Failure) {
    match failure
    case PodRebooted => false
    case HealthCheckDroppedItsChannel => false
    case GarbageCollectorUnresponsive => false
    case UnexpectedCloseOfEventStream => false
    case _ => true
  }

  lemma ShownLasts(log: seq<Act>, longer: seq<Act>, failure: Failure)
    requires Shown(log, failure) && log <= longer
    ensures Shown(longer, failure)
  {
    var item :| Consumed(item) in log && Shows(item, failure);
    var x :| 0 <= x < |log| && log[x] == Consumed(item);
    assert longer[x] == Consumed(item);
  }

  lemma ShownEarlyLasts(log: seq<Act>, longer: seq<Act>, failure: Failure)
    requires ShownEarly(log, failure) && log <= longer
    ensures ShownEarly(longer, failure)
  {
    var x :| 0 <= x < |log| && log[x].Consumed? && Shows(log[x].item, failure) && !SeenRunningBefore(log, x);
    assert forall y :: 0 <= y <= x ==> longer[y] == log[y];
  }

  lemma CauseLasts(moves: seq<Move>, move: Move, log: seq<Act>, longer: seq<Act>, failure: Failure)
    requires Ordinary(failure) && Caused(moves, log, failure) && log <= longer
    ensures Caused(moves + [move], longer, failure)
  {
    if Shown(log, failure) {
      ShownLasts(log, longer, failure);
    }
    if ShownEarly(log, failure) {
      ShownEarlyLasts(log, longer, failure);
    }
    if GaveUp(moves) {
      var response :| W(Poll(response, true)) in moves && Fails(response);
      assert W(Poll(response, true)) in moves + [move];
    }
  }

  // ----- what may follow a success

  /** A failure that can end a watch after the pod was reported. */
  predicate Late(failure: Failure) { failure.KubernetesUnresponsive? || failure.PodRebooted? }

  ghost predicate LateInv(w: WatcherTask) {
    && (w.pc.Failing? && w.attempts != [] ==> Late(w.pc.failure))
    && (|w.attempts| == 2 ==> w.attempts[1].Err? && Late(w.attempts[1].error))
  }

  lemma HandKeepsLate(s: System, item: Item, giveUp: bool)
    requires LateInv(s.w) && Reports(s.w) && InPhase(s.w.pc)
    ensures LateInv(Hand(s, Some(item), giveUp).w)
  {
  }

  lemma WatcherKeepsLate(s: System, move: WatcherMove)
    requires LateInv(s.w) && Reports(s.w) && WatcherEnabled(s, move)
    ensures LateInv(ApplyWatcher(s, move).w)
  {
    if move.Poll? {
      var (item, next) := Watcher.StepTrampolined(s.w.stream, move.response);
      if item.Some? {
        HandKeepsLate(s.(w := s.w.(stream := next)), item.value, move.giveUp);
      }
    }
  }

  lemma LateStep(s: System, move: Move)
    requires LateInv(s.w) && Reports(s.w) && Enabled(s, move)
    ensures LateInv(Apply(s, move).w)
  {
    match move
    case W(w) => WatcherKeepsLate(s, w);
    case C(c) => CheckerFrame(s, c);
    case _ => OthersBlameNoOne(s, move, PodDeleted);
  }

  lemma ReportsHold(ttl: nat, moves: seq<Move>)
    requires IsRun(ttl, moves)
    ensures Reports(After(ttl, moves).w)
  {
    InvHolds(ttl, moves);
  }

  /**
  After a success only two failures are ever reported, an API that is gone for good and a reboot: a pod
  that ends or is deleted once it has been reported is nobody's failure.
   */
  lemma {:induction false} OnlyTheseFollow(ttl: nat, moves: seq<Move>)
    requires IsRun(ttl, moves)
    ensures LateInv(After(ttl, moves).w)
    decreases |moves|
  {
    if moves != [] {
      var before := moves[..|moves| - 1];
      OnlyTheseFollow(ttl, before);
      ReportsHold(ttl, before);
      LateStep(After(ttl, before), moves[|moves| - 1]);
    }
  }

  // ----- every blame comes with its cause

  ghost predicate CauseInv(s: System, moves: seq<Move>, failure: Failure) {
    NotBlamed(s, failure) || Caused(moves, s.log, failure)
  }

  /** The checker has an error to show only if a connection was refused. */
  ghost predicate RefusalInv(c: CheckerTask, moves: seq<Move>) {
    (c.pc.Deciding? || c.pc.Pausing? || c.pc.Connecting?) && c.pc.failed ==> C(Connect(false)) in moves
  }

  /** What the watcher fails with on an item is what that item shows. */
  lemma ItemShows(pc: WatcherPc, item: Item, giveUp: bool, failure: Failure)
    requires InPhase(pc) && Ordinary(failure)
    requires var after := OnItem(pc, Some(item), giveUp); after == Failing(failure) || after == Killing(failure)
    ensures Shows(item, failure)
    ensures failure.KubernetesUnresponsive? ==> giveUp && item.Err?
    ensures failure.PodCrashed? || failure.ImagePull? ==> pc.Phase1?
    ensures !failure.NoAddress? && !failure.EndpointParse?
  {
    if failure.ImagePull? {
      ErrImagePullTells(item.value.obj, failure.message);
    }
  }

  /** Handing over an item blames the watcher for nothing but what the item shows. */
  lemma HandBlames(s: System, item: Item, giveUp: bool, failure: Failure)
    requires InPhase(s.w.pc) && NotBlamed(s, failure)
    ensures var t := Hand(s, Some(item), giveUp);
            && t.log == s.log + [Consumed(item)]
            && (NotBlamed(t, failure)
                || OnItem(s.w.pc, Some(item), giveUp) in {Failing(failure), Killing(failure)})
  {
  }

  /** The item just consumed is a cause: it was shown, and if need be before the pod was seen running. */
  lemma NewCause(s: System, moves: seq<Move>, response: Watcher.Response<PodBody>, giveUp: bool, failure: Failure)
    requires AttentionInv(s.w, s.log) && WatcherEnabled(s, Poll(response, giveUp)) && Ordinary(failure)
    requires var item := Watcher.StepTrampolined(s.w.stream, response).0;
             && item.Some? && Shows(item.value, failure)
             && (failure.KubernetesUnresponsive? ==> giveUp && item.value.Err?)
             && (failure.PodCrashed? || failure.ImagePull? ==> s.w.pc.Phase1?)
             && !failure.NoAddress? && !failure.EndpointParse?
    ensures var item := Watcher.StepTrampolined(s.w.stream, response).0;
            Caused(moves + [W(Poll(response, giveUp))], s.log + [Consumed(item.value)], failure)
  {
    var item := Watcher.StepTrampolined(s.w.stream, response).0.value;
    var (log, longer) := (s.log + [Consumed(item)], moves + [W(Poll(response, giveUp))]);
    assert log[|s.log|] == Consumed(item) && Consumed(item) in log;
    assert longer[|moves|] == W(Poll(response, giveUp));
    if s.w.pc.Phase1? && SeenRunningBefore(log, |s.log|) {
      var y, pod :| 0 <= y < |log| && y < |s.log| && IsSighting(log[y], pod);
      assert !Harmless(s.log[y].item);
    }
  }

  lemma PollKeepsCauses(s: System, moves: seq<Move>, response: Watcher.Response<PodBody>,
                        giveUp: bool, failure: Failure)
    requires CauseInv(s, moves, failure) && Ordinary(failure) && WatcherEnabled(s, Poll(response, giveUp))
    requires AttentionInv(s.w, s.log)
    ensures CauseInv(ApplyPoll(s, response, giveUp), moves + [W(Poll(response, giveUp))], failure)
  {
    var (item, next) := Watcher.StepTrampolined(s.w.stream, response);
    var t := ApplyPoll(s, response, giveUp);
    WatcherFrame(s, Poll(response, giveUp));
    if !NotBlamed(s, failure) {
      CauseLasts(moves, W(Poll(response, giveUp)), s.log, t.log, failure);
    } else if item.Some? {
      HandBlames(s.(w := s.w.(stream := next)), item.value, giveUp, failure);
      if !NotBlamed(t, failure) {
        ItemShows(s.w.pc, item.value, giveUp, failure);
        NewCause(s, moves, response, giveUp, failure);
      }
    }
  }

  /** Announcing blames the watcher for what is wrong with the pod it saw running. */
  lemma AnnounceBlames(s: System, parses: bool, failure: Failure)
    requires NotBlamed(s, failure) && Ordinary(failure) && WatcherEnabled(s, Announce(parses))
    ensures var (t, pod) := (ApplyAnnounce(s, parses), s.w.pod.value);
            && t.log == s.log
            && (NotBlamed(t, failure)
                || (failure.NoAddress? && Address(pod) == Err(failure.error))
                || (failure == EndpointParse && Address(pod).Ok? && !parses))
  {
  }

  lemma AnnounceKeepsCauses(s: System, moves: seq<Move>, parses: bool, failure: Failure)
    requires CauseInv(s, moves, failure) && Ordinary(failure) && WatcherEnabled(s, Announce(parses))
    requires SightingInv(s.w, s.log)
    ensures CauseInv(ApplyAnnounce(s, parses), moves + [W(Announce(parses))], failure)
  {
    var t := ApplyAnnounce(s, parses);
    if NotBlamed(s, failure) {
      AnnounceBlames(s, parses, failure);
      var sighting := s.log[s.w.seenAt];
      assert sighting in s.log && IsSighting(sighting, s.w.pod.value);
      if !NotBlamed(t, failure) {
        assert Shows(sighting.item, failure);
        assert W(Announce(parses)) in moves + [W(Announce(parses))];
      }
    } else {
      WatcherFrame(s, Announce(parses));
      CauseLasts(moves, W(Announce(parses)), s.log, t.log, failure);
    }
  }

  /** The watcher's other moves hand blame on, and find no one new. */
  lemma RestBlamesNoOne(s: System, move: WatcherMove, failure: Failure)
    requires NotBlamed(s, failure) && Ordinary(failure) && WatcherEnabled(s, move) && !move.Poll? && !move.Announce?
    ensures NotBlamed(ApplyWatcher(s, move), failure)
  {
  }

  lemma WatcherKeepsCauses(s: System, moves: seq<Move>, move: WatcherMove, failure: Failure)
    requires CauseInv(s, moves, failure) && Ordinary(failure) && WatcherEnabled(s, move) && SightingInv(s.w, s.log)
    requires AttentionInv(s.w, s.log)
    ensures CauseInv(ApplyWatcher(s, move), moves + [W(move)], failure)
  {
    match move
    case Poll(response, giveUp) => PollKeepsCauses(s, moves, response, giveUp, failure);
    case Announce(parses) => AnnounceKeepsCauses(s, moves, parses, failure);
    case _ =>
      if NotBlamed(s, failure) {
        RestBlamesNoOne(s, move, failure);
      } else {
        WatcherFrame(s, move);
        CauseLasts(moves, W(move), s.log, ApplyWatcher(s, move).log, failure);
      }
  }

  /** The checker finds the pod ill for one of two reasons. */
  lemma CheckerBlames(s: System, move: CheckerMove, failure: Failure)
    requires NotBlamed(s, failure) && CheckerEnabled(s, move)
    ensures || NotBlamed(ApplyChecker(s, move), failure)
            || (failure == TooManyFailures && move == AskBackoff(false) && s.c.pc.failed)
            || (failure == NotReady && move == RunOutOfTime)
  {
  }

  lemma CheckerKeepsCauses(s: System, moves: seq<Move>, move: CheckerMove, failure: Failure)
    requires CauseInv(s, moves, failure) && Ordinary(failure) && CheckerEnabled(s, move) && RefusalInv(s.c, moves)
    ensures CauseInv(ApplyChecker(s, move), moves + [C(move)], failure)
  {
    if NotBlamed(s, failure) {
      CheckerBlames(s, move, failure);
      assert C(move) in moves + [C(move)];
    } else {
      CheckerFrame(s, move);
      CauseLasts(moves, C(move), s.log, ApplyChecker(s, move).log, failure);
    }
  }

  lemma CauseStep(s: System, moves: seq<Move>, move: Move, failure: Failure)
    requires CauseInv(s, moves, failure) && Ordinary(failure) && Enabled(s, move)
    requires SightingInv(s.w, s.log) && AttentionInv(s.w, s.log) && RefusalInv(s.c, moves)
    ensures CauseInv(Apply(s, move), moves + [move], failure)
  {
    match move
    case W(w) => WatcherKeepsCauses(s, moves, w, failure);
    case C(c) => CheckerKeepsCauses(s, moves, c, failure);
    case _ =>
      OthersBlameNoOne(s, move, failure);
      if !NotBlamed(s, failure) {
        LogGrows(s, move);
        CauseLasts(moves, move, s.log, Apply(s, move).log, failure);
      }
  }

  lemma OthersBlameNoOne(s: System, move: Move, failure: Failure)
    requires Enabled(s, move) && !move.W? && !move.C?
    ensures Apply(s, move).w == s.w && Apply(s, move).c == s.c
    ensures NotBlamed(s, failure) ==> NotBlamed(Apply(s, move), failure)
  {
    match move
    case G(g) => CollectorFrame(s, g);
    case H(h) => ShimFrame(s, h);
    case K(k) => ClientFrame(s, k);
    case _ =>
  }

  lemma RefusalStep(s: System, moves: seq<Move>, move: Move)
    requires RefusalInv(s.c, moves) && Enabled(s, move)
    ensures RefusalInv(Apply(s, move).c, moves + [move])
  {
    match move
    case W(w) => WatcherLeavesRefusals(s, w);
    case C(c) => assert C(c) in moves + [move];
    case _ => OthersBlameNoOne(s, move, PodDeleted);
  }

  lemma WatcherLeavesRefusals(s: System, move: WatcherMove)
    requires WatcherEnabled(s, move)
    ensures var c := ApplyWatcher(s, move).c; c.pc == s.c.pc || c.pc == Deciding(0, false)
  {
  }

  lemma {:induction false} CausesHold(ttl: nat, moves: seq<Move>, failure: Failure)
    requires IsRun(ttl, moves) && Ordinary(failure)
    ensures CauseInv(After(ttl, moves), moves, failure) && RefusalInv(After(ttl, moves).c, moves)
    decreases |moves|
  {
    if moves != [] {
      var (before, last) := (moves[..|moves| - 1], moves[|moves| - 1]);
      CausesHold(ttl, before, failure);
      SightingHolds(ttl, before);
      AttentionHolds(ttl, before);
      var s := After(ttl, before);
      CauseStep(s, before, last, failure);
      RefusalStep(s, before, last);
      assert before + [last] == moves;
    }
  }

  lemma SightingHolds(ttl: nat, moves: seq<Move>)
    requires IsRun(ttl, moves)
    ensures SightingInv(After(ttl, moves).w, After(ttl, moves).log)
  {
    InvHolds(ttl, moves);
  }

  lemma {:induction false} PanickedByMove(ttl: nat, moves: seq<Move>)
    requires IsRun(ttl, moves) && After(ttl, moves).c.pc == CheckerPanicked(Injected)
    ensures C(PanicChecker) in moves
    decreases |moves|
  {
    var (before, last) := (moves[..|moves| - 1], moves[|moves| - 1]);
    if After(ttl, before).c.pc == CheckerPanicked(Injected) {
      PanickedByMove(ttl, before);
    } else {
      PanicStep(After(ttl, before), last);
    }
  }

  lemma PanicStep(s: System, move: Move)
    requires Enabled(s, move) && s.c.pc != CheckerPanicked(Injected)
    requires Apply(s, move).c.pc == CheckerPanicked(Injected)
    ensures move == C(PanicChecker)
  {
    match move
    case W(w) => WatcherLeavesRefusals(s, w);
    case C(c) =>
    case _ => OthersBlameNoOne(s, move, PodDeleted);
  }

  /**
  Whatever failure is reported, in whatever run, had its cause before: an event that shows it, an
  answer that was not to be had, a check that ran out of attempts or of time, or a panic.
   */
  lemma FailureHasItsCause(ttl: nat, moves: seq<Move>, failure: Failure)
    requires IsRun(ttl, moves) && Err(failure) in After(ttl, moves).w.attempts
    ensures Caused(moves, After(ttl, moves).log, failure)
  {
    match failure
    case PodRebooted => RebootNeedsGone(ttl, moves);
    case HealthCheckDroppedItsChannel =>
      BugsAreNotReported(ttl, moves);
      PanickedByMove(ttl, moves);
    case GarbageCollectorUnresponsive => BugsAreNotReported(ttl, moves);
    case UnexpectedCloseOfEventStream => BugsAreNotReported(ttl, moves);
    case _ => CausesHold(ttl, moves, failure);
  }
}
