/**
The health checker's life: born on the way into phase 2, consumed once on the way out.
 */
module Checks {
  import opened Wrappers
  import opened Pods
  import opened Protocol
  import opened Signals
  import opened Frames
  import Watcher

  /** Where the checker may be, by where the watcher is. */
  ghost predicate Handled(w: WatcherTask, c: CheckerTask) {
    match w.pc
    case Phase1 => c.pc.Unborn? && c.uses == 0
    case Asleep1 => c.pc.Unborn? && c.uses == 0
    case Announcing => c.pc.Unborn? && c.uses == 0
    case Phase2 => !c.pc.Unborn? && c.uses == 0 && !c.sigint
    case Asleep2 => !c.pc.Unborn? && c.uses == 0 && !c.sigint
    case Killing(_) => !c.pc.Unborn? && c.uses == 0 && c.sigint
    case Joining(health) =>
      && !c.pc.Unborn? && c.uses == 0 && !c.sigint && CheckerDone(c)
      && (c.outcome.Some? ==> health == c.outcome.value)
      && (c.outcome.None? ==> health == Ill(HealthCheckDroppedItsChannel))
    case Reporting => CheckerDone(c) && c.uses == 1 && c.outcome == Some(Healthy)
    case Phase3 => CheckerDone(c) && c.uses == 1
    case Asleep3 => CheckerDone(c) && c.uses == 1
    case Closing => CheckerDone(c) && c.uses == 1
    case WatcherPanicked => true
    case _ => (c.pc.Unborn? && c.uses == 0) || (CheckerDone(c) && c.uses == 1)
  }

  /** The checker ends with a verdict, or because it was interrupted, or because it was made to panic. */
  ghost predicate CheckerInv(w: WatcherTask, c: CheckerTask) {
    && Handled(w, c)
    && (c.pc.Unborn? ==> c.outcome.None? && !c.sigint)
    && (!c.pc.Unborn? ==> w.pod.Some? && c.endpoint.Some? && Address(w.pod.value) == Ok(c.endpoint.value))
    && (c.outcome.Some? ==> c.pc.Finished?)
    && (c.pc.Finished? && c.outcome.None? ==> c.sigint || w.pc.WatcherPanicked?)
    && (c.pc.Deciding? && c.pc.asked > 0 ==> c.pc.failed)
    && (c.pc.CheckerPanicked? ==> c.pc.cause.Injected? || (c.pc.cause.SendFailed? && w.pc.WatcherPanicked?))
  }

  /** A watcher that finds the channel dropped has been left by a checker that was made to panic. */
  ghost predicate CheckerAlarms(s: System) {
    !(s.c.pc == CheckerPanicked(Injected)) ==>
      CheckerGoneAlarm !in s.alarms && NotBlamed(s, HealthCheckDroppedItsChannel)
  }

  // ----- every move keeps the checker in its place

  lemma HandKeepsChecker(s: System, item: Item, giveUp: bool)
    requires CheckerInv(s.w, s.c) && InPhase(s.w.pc)
    ensures var t := Hand(s, Some(item), giveUp); CheckerInv(t.w, t.c)
  {
  }

  lemma AnnounceKeepsChecker(s: System, parses: bool)
    requires CheckerInv(s.w, s.c) && WatcherEnabled(s, Announce(parses))
    ensures var t := ApplyAnnounce(s, parses); CheckerInv(t.w, t.c)
  {
  }

  lemma RestKeepsChecker(s: System, move: WatcherMove)
    requires CheckerInv(s.w, s.c) && WatcherEnabled(s, move) && !move.Poll? && !move.Announce?
    ensures var t := ApplyWatcher(s, move); CheckerInv(t.w, t.c)
  {
    var t := ApplyWatcher(s, move);
    assert t.w.pod == s.w.pod && t.c == s.c.(uses := t.c.uses);
  }

  lemma WatcherKeepsChecker(s: System, move: WatcherMove)
    requires CheckerInv(s.w, s.c) && WatcherEnabled(s, move)
    ensures var t := ApplyWatcher(s, move); CheckerInv(t.w, t.c)
  {
    match move
    case Poll(response, giveUp) =>
      var (item, next) := Watcher.StepTrampolined(s.w.stream, response);
      if item.Some? {
        HandKeepsChecker(s.(w := s.w.(stream := next)), item.value, giveUp);
      }
    case Announce(parses) => AnnounceKeepsChecker(s, parses);
    case _ => RestKeepsChecker(s, move);
  }

  lemma CheckerKeepsChecker(s: System, move: CheckerMove)
    requires CheckerInv(s.w, s.c) && CheckerEnabled(s, move)
    ensures var t := ApplyChecker(s, move); CheckerInv(t.w, t.c)
  {
    CheckerFrame(s, move);
  }

  lemma CheckerStep(s: System, move: Move)
    requires CheckerInv(s.w, s.c) && Enabled(s, move)
    ensures var t := Apply(s, move); CheckerInv(t.w, t.c)
  {
    match move
    case W(w) => WatcherKeepsChecker(s, w);
    case C(c) => CheckerKeepsChecker(s, c);
    case G(g) => CollectorFrame(s, g);
    case H(h) => ShimFrame(s, h);
    case K(k) => ClientFrame(s, k);
    case _ =>
  }

  // ----- and it is not said to have gone missing

  lemma HandKeepsCheckerAlarms(s: System, item: Item, giveUp: bool)
    requires CheckerAlarms(s) && InPhase(s.w.pc)
    ensures CheckerAlarms(Hand(s, Some(item), giveUp))
  {
  }

  lemma WatcherKeepsCheckerAlarms(s: System, move: WatcherMove)
    requires CheckerInv(s.w, s.c) && CheckerAlarms(s) && WatcherEnabled(s, move)
    ensures CheckerAlarms(ApplyWatcher(s, move))
  {
    match move
    case Poll(response, giveUp) =>
      var (item, next) := Watcher.StepTrampolined(s.w.stream, response);
      if item.Some? {
        HandKeepsCheckerAlarms(s.(w := s.w.(stream := next)), item.value, giveUp);
      }
    case _ =>
  }

  lemma CheckerKeepsCheckerAlarms(s: System, move: CheckerMove)
    requires CheckerInv(s.w, s.c) && CheckerAlarms(s) && CheckerEnabled(s, move)
    ensures CheckerAlarms(ApplyChecker(s, move))
  {
  }

  lemma CheckerAlarmStep(s: System, move: Move)
    requires CheckerInv(s.w, s.c) && CheckerAlarms(s) && Enabled(s, move)
    ensures CheckerAlarms(Apply(s, move))
  {
    match move
    case W(w) => WatcherKeepsCheckerAlarms(s, w);
    case C(c) => CheckerKeepsCheckerAlarms(s, c);
    case G(g) => CollectorFrame(s, g);
    case H(h) => ShimFrame(s, h);
    case K(k) => ClientFrame(s, k);
    case _ =>
  }
}
