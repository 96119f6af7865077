/**
What the event watcher may not ignore: which events take it where, told from the log of a run alone.
The other direction, that it ends for no lesser reason, is in `Causes`.
 */
module Attention {
  import opened Wrappers
  import opened Pods
  import opened Protocol
  import opened Evidence
  import opened EventStream
  import opened Frames
  import opened PodManager
  import Watcher

  /** The watcher is on its way out: about to report, to stop the collector or to delete, or gone. */
  predicate Leaving(pc: WatcherPc) {
    match pc
    case Killing(_) => true
    case Failing(_) => true
    case StoppingGc => true
    case DeletingPod => true
    case Closing => true
    case Returned => true
    case WatcherPanicked => true
    case _ => false
  }

  predicate InPhase1(pc: WatcherPc) { pc.Phase1? || pc.Asleep1? }

  /** The pod has been seen running, and nothing has come of it yet that would end the watch. */
  predicate Onward(pc: WatcherPc) { !Leaving(pc) && !InPhase1(pc) }

  predicate Ended(pod: Pod) { Terminated(pod) || Crashed(pod) }

  /** An item that phase 1 is right to pass over. */
  predicate Harmless(item: Item) {
    match item
    case Err(_) => true
    case Ok(Added(_)) => true
    case Ok(Restarted(_)) => true
    case Ok(Deleted(_)) => false
    case Ok(Applied(pod)) => !Running(pod) && !Ended(pod) && !WasErrImagePull(pod)
  }

  ghost predicate AllHarmless(log: seq<Act>, to: int) {
    forall x :: 0 <= x < |log| && x < to && log[x].Consumed? ==> Harmless(log[x].item)
  }

  ghost predicate AttentionInv(w: WatcherTask, log: seq<Act>) {
    && (InPhase1(w.pc) ==> AllHarmless(log, |log|))
    && (Onward(w.pc) ==> w.seenAt < |log| && AllHarmless(log, w.seenAt) && IsQuiet(log, w.seenAt, |log|))
  }

  // ----- every move keeps it

  lemma ItemHeeded(pc: WatcherPc, item: Item, giveUp: bool)
    requires InPhase(pc)
    ensures var after := OnItem(pc, Some(item), giveUp);
            && (InPhase1(after) ==> pc.Phase1? && Harmless(item))
            && (Onward(after) ==> after.Announcing? || (!pc.Phase1? && !Disturbs(Consumed(item))))
            && (after.Announcing? ==> pc.Phase1?)
            && (item.Err? && giveUp ==> Leaving(after))
  {
  }

  lemma HandHeeds(s: System, item: Item, giveUp: bool)
    requires InPhase(s.w.pc) && AttentionInv(s.w, s.log)
    ensures var t := Hand(s, Some(item), giveUp); AttentionInv(t.w, t.log)
  {
    ItemHeeded(s.w.pc, item, giveUp);
    assert (s.log + [Consumed(item)])[|s.log|] == Consumed(item);
  }

  lemma PollHeeds(s: System, response: Watcher.Response<PodBody>, giveUp: bool)
    requires AttentionInv(s.w, s.log) && WatcherEnabled(s, Poll(response, giveUp))
    ensures var t := ApplyPoll(s, response, giveUp); AttentionInv(t.w, t.log)
  {
    var (item, next) := Watcher.StepTrampolined(s.w.stream, response);
    if item.Some? {
      HandHeeds(s.(w := s.w.(stream := next)), item.value, giveUp);
    }
  }

  /** Apart from polls, the watcher only moves on. */
  ghost predicate MovesOn(w: WatcherTask, after: WatcherTask) {
    && after.seenAt == w.seenAt
    && (InPhase1(after.pc) ==> InPhase1(w.pc))
    && (Onward(after.pc) ==> Onward(w.pc))
  }

  lemma WatcherMovesOn(s: System, move: WatcherMove)
    requires WatcherEnabled(s, move) && !move.Poll?
    ensures MovesOn(s.w, ApplyWatcher(s, move).w)
  {
  }

  lemma MoveHeeds(s: System, move: Move)
    requires AttentionInv(s.w, s.log) && Enabled(s, move)
    ensures AttentionInv(Apply(s, move).w, Apply(s, move).log)
  {
    if move.W? && move.w.Poll? {
      PollHeeds(s, move.w.response, move.w.giveUp);
    } else {
      OnlyPollsConsume(s, move);
      OthersMoveOn(s, move);
      NoItemHeeds(s.w, Apply(s, move).w, s.log, Apply(s, move).log);
    }
  }

  lemma OthersMoveOn(s: System, move: Move)
    requires Enabled(s, move) && !(move.W? && move.w.Poll?)
    ensures MovesOn(s.w, Apply(s, move).w)
  {
    match move
    case W(w) => WatcherMovesOn(s, w);
    case C(c) => CheckerFrame(s, c);
    case G(g) => CollectorFrame(s, g);
    case H(h) => ShimFrame(s, h);
    case K(k) => ClientFrame(s, k);
    case _ =>
  }

  lemma NoItemHeeds(w: WatcherTask, after: WatcherTask, log: seq<Act>, longer: seq<Act>)
    requires AttentionInv(w, log) && MovesOn(w, after) && LogsNoItem(log, longer)
    ensures AttentionInv(after, longer)
  {
  }

  lemma {:induction false} AttentionHolds(ttl: nat, moves: seq<Move>)
    requires IsRun(ttl, moves)
    ensures AttentionInv(After(ttl, moves).w, After(ttl, moves).log)
    decreases |moves|
  {
    if moves != [] {
      AttentionHolds(ttl, moves[..|moves| - 1]);
      MoveHeeds(After(ttl, moves[..|moves| - 1]), moves[|moves| - 1]);
    }
  }

  // ----- what is never ignored

  ghost predicate SeenRunningBefore(log: seq<Act>, x: int) {
    exists y, pod :: 0 <= y < |log| && y < x && IsSighting(log[y], pod)
  }

  /** What is known of a watcher that pays attention and has seen the pod running. */
  ghost predicate Knows(w: WatcherTask, log: seq<Act>) {
    && AttentionInv(w, log)
    && (Onward(w.pc) ==> w.pod.Some? && w.seenAt < |log| && IsSighting(log[w.seenAt], w.pod.value))
  }

  lemma HarmHeeded(w: WatcherTask, log: seq<Act>, x: nat)
    requires Knows(w, log) && x < |log| && log[x].Consumed? && !Harmless(log[x].item)
    ensures !InPhase1(w.pc)
    ensures Leaving(w.pc) || x >= w.seenAt
  {
  }

  lemma DisturbanceHeeded(w: WatcherTask, log: seq<Act>, x: nat)
    requires Knows(w, log) && x < |log| && Disturbs(log[x])
    requires log[x].item.value.Deleted? || SeenRunningBefore(log, x)
    ensures Leaving(w.pc)
  {
    if log[x].item.value.Deleted? {
      HarmHeeded(w, log, x);
    } else {
      var y, pod :| 0 <= y < |log| && y < x && IsSighting(log[y], pod);
      HarmHeeded(w, log, y);
    }
  }

  lemma RuinHeeded(w: WatcherTask, log: seq<Act>, x: nat, pod: Pod)
    requires Knows(w, log) && x < |log| && log[x] == Consumed(Ok(Watcher.Applied(pod)))
    requires !Running(pod) && (Ended(pod) || WasErrImagePull(pod)) && !SeenRunningBefore(log, x)
    ensures Leaving(w.pc)
  {
    HarmHeeded(w, log, x);
  }

  /**
  Over every run: a watcher that has consumed a `Deleted` is on its way out. So is one that was shown
  an ended pod, or one whose image cannot be pulled, before it saw it running; and one that consumed a
  `Restarted` after it did. One that has seen the pod running is done with phase 1.
   */
  lemma NothingIsIgnored(ttl: nat, moves: seq<Move>, x: nat)
    requires IsRun(ttl, moves) && x < |After(ttl, moves).log| && After(ttl, moves).log[x].Consumed?
    ensures var (log, pc) := (After(ttl, moves).log, After(ttl, moves).w.pc);
            match log[x].item
            case Ok(Deleted(_)) => Leaving(pc)
            case Ok(Restarted(_)) => SeenRunningBefore(log, x) ==> Leaving(pc)
            case Ok(Applied(pod)) =>
              && (Running(pod) ==> !InPhase1(pc))
              && (!Running(pod) && (Ended(pod) || WasErrImagePull(pod)) && !SeenRunningBefore(log, x) ==> Leaving(pc))
            case _ => true
  {
    AttentionHolds(ttl, moves);
    SightingKnown(ttl, moves);
    var (log, w) := (After(ttl, moves).log, After(ttl, moves).w);
    Heeded(w, log, x);
  }

  lemma Heeded(w: WatcherTask, log: seq<Act>, x: nat)
    requires Knows(w, log) && x < |log| && log[x].Consumed?
    ensures match log[x].item
            case Ok(Deleted(_)) => Leaving(w.pc)
            case Ok(Restarted(_)) => SeenRunningBefore(log, x) ==> Leaving(w.pc)
            case Ok(Applied(pod)) =>
              && (Running(pod) ==> !InPhase1(w.pc))
              && (!Running(pod) && (Ended(pod) || WasErrImagePull(pod)) && !SeenRunningBefore(log, x) ==> Leaving(w.pc))
            case _ => true
  {
    match log[x].item
    case Ok(Deleted(_)) => DisturbanceHeeded(w, log, x);
    case Ok(Restarted(_)) =>
      if SeenRunningBefore(log, x) {
        DisturbanceHeeded(w, log, x);
      }
    case Ok(Applied(pod)) =>
      if Running(pod) {
        HarmHeeded(w, log, x);
      } else if (Ended(pod) || WasErrImagePull(pod)) && !SeenRunningBefore(log, x) {
        RuinHeeded(w, log, x, pod);
      }
    case _ =>
  }

  lemma SightingKnown(ttl: nat, moves: seq<Move>)
    requires IsRun(ttl, moves)
    ensures var (w, log) := (After(ttl, moves).w, After(ttl, moves).log);
            Onward(w.pc) ==> w.pod.Some? && w.seenAt < |log| && IsSighting(log[w.seenAt], w.pod.value)
  {
    InvHolds(ttl, moves);
  }

  // ----- giving up

  /** An answer that tells of a failure of the API. */
  predicate Fails(response: Watcher.Response<PodBody>) {
    || response.ListFailed? || response.WatchRefused? || response.Broken?
    || (response.Next? && response.item.WError?)
  }

  lemma FailureGivesUp(s: System, response: Watcher.Response<PodBody>, giveUp: bool)
    requires WatcherEnabled(s, Poll(response, giveUp)) && Fails(response) && giveUp
    ensures Leaving(ApplyPoll(s, response, giveUp).w.pc)
  {
    var (item, next) := Watcher.StepTrampolined(s.w.stream, response);
    ItemHeeded(s.w.pc, item.value, giveUp);
  }

  lemma LeavingStays(s: System, move: Move)
    requires Enabled(s, move) && Leaving(s.w.pc)
    ensures Leaving(Apply(s, move).w.pc)
  {
    if !(move.W? && move.w.Poll?) {
      OthersMoveOn(s, move);
    }
  }

  /** When the backoff grants no more delay, the first failure of the API ends the watch. */
  lemma {:induction false} GivesUpWhenRefused(ttl: nat, moves: seq<Move>, response: Watcher.Response<PodBody>)
    requires IsRun(ttl, moves) && W(Poll(response, true)) in moves && Fails(response)
    ensures Leaving(After(ttl, moves).w.pc)
    decreases |moves|
  {
    var (before, last) := (moves[..|moves| - 1], moves[|moves| - 1]);
    if last == W(Poll(response, true)) {
      FailureGivesUp(After(ttl, before), response, true);
    } else {
      assert W(Poll(response, true)) in before;
      GivesUpWhenRefused(ttl, before, response);
      LeavingStays(After(ttl, before), last);
    }
  }

  lemma UnparsedFails(s: System)
    requires WatcherEnabled(s, Announce(false))
    ensures Leaving(ApplyAnnounce(s, false).w.pc)
  {
  }

  /** A pod whose address does not parse is never checked, let alone reported. */
  lemma {:induction false} UnparsedIsHeeded(ttl: nat, moves: seq<Move>)
    requires IsRun(ttl, moves) && W(Announce(false)) in moves
    ensures Leaving(After(ttl, moves).w.pc)
    decreases |moves|
  {
    var (before, last) := (moves[..|moves| - 1], moves[|moves| - 1]);
    if last == W(Announce(false)) {
      UnparsedFails(After(ttl, before));
    } else {
      assert W(Announce(false)) in before;
      UnparsedIsHeeded(ttl, before);
      LeavingStays(After(ttl, before), last);
    }
  }

  /** Nor is one that has no address. */
  lemma NoAddressIsHeeded(ttl: nat, moves: seq<Move>)
    requires IsRun(ttl, moves)
    ensures var w := After(ttl, moves).w;
            Onward(w.pc) && !w.pc.Announcing? ==> w.pod.Some? && Address(w.pod.value).Ok?
  {
    InvHolds(ttl, moves);
  }

  // ----- sleeping it off

  predicate Asleep(pc: WatcherPc) { pc.Asleep1? || pc.Asleep2? || pc.Asleep3? }

  /** The watcher has woken since move `i`, or has had no occasion to poll. */
  ghost predicate WokenSince(moves: seq<Move>, i: nat, pc: WatcherPc) {
    Asleep(pc) || Leaving(pc) || exists k :: i < k < |moves| && moves[k] == W(Wake)
  }

  lemma FailurePauses(s: System, response: Watcher.Response<PodBody>)
    requires WatcherEnabled(s, Poll(response, false)) && Fails(response)
    ensures Asleep(ApplyPoll(s, response, false).w.pc)
  {
  }

  lemma SleepGoesOn(s: System, move: Move)
    requires Enabled(s, move) && (Asleep(s.w.pc) || Leaving(s.w.pc)) && move != W(Wake)
    ensures Asleep(Apply(s, move).w.pc) || Leaving(Apply(s, move).w.pc)
  {
    match move
    case W(w) =>
    case C(c) => CheckerFrame(s, c);
    case G(g) => CollectorFrame(s, g);
    case H(h) => ShimFrame(s, h);
    case K(k) => ClientFrame(s, k);
    case _ =>
  }

  lemma {:induction false} SleepsItOff(ttl: nat, moves: seq<Move>, i: nat, response: Watcher.Response<PodBody>)
    requires IsRun(ttl, moves) && i < |moves| && moves[i] == W(Poll(response, false)) && Fails(response)
    ensures WokenSince(moves, i, After(ttl, moves).w.pc)
    decreases |moves|
  {
    var (before, last) := (moves[..|moves| - 1], moves[|moves| - 1]);
    if i == |moves| - 1 {
      FailurePauses(After(ttl, before), response);
    } else {
      SleepsItOff(ttl, before, i, response);
      if Asleep(After(ttl, before).w.pc) || Leaving(After(ttl, before).w.pc) {
        if last != W(Wake) {
          SleepGoesOn(After(ttl, before), last);
        } else {
          assert moves[|moves| - 1] == W(Wake);
        }
      } else {
        var k :| i < k < |before| && before[k] == W(Wake);
        assert moves[k] == W(Wake);
      }
    }
  }

  /** After a failure of the API that the backoff grants a delay for, the watcher sleeps before it polls again. */
  lemma FailuresAreSleptOff(ttl: nat, moves: seq<Move>, i: nat, j: nat, response: Watcher.Response<PodBody>)
    requires IsRun(ttl, moves) && i < j < |moves| && moves[i] == W(Poll(response, false)) && Fails(response)
    requires moves[j].W? && moves[j].w.Poll?
    ensures exists k :: i < k < j && moves[k] == W(Wake)
    decreases |moves|
  {
    if j < |moves| - 1 {
      var before := moves[..|moves| - 1];
      FailuresAreSleptOff(ttl, before, i, j, response);
      var k :| i < k < j && before[k] == W(Wake);
      assert moves[k] == W(Wake);
    } else {
      var before := moves[..j];
      SleepsItOff(ttl, before, i, response);
      var k :| i < k < |before| && before[k] == W(Wake);
      assert moves[k] == W(Wake);
    }
  }
}
