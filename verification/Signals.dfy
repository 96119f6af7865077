/**
What the event watcher tells the garbage collector: an invariant of watcher and collector
over every interleaving, and what follows for the branches either side treats as a bug.
 */
module Signals {
  import opened Wrappers
  import opened Pods
  import opened Protocol
  import opened Frames

  /** Nothing is told in phase 1; the pod is announced once, and the end is told once, on the way out. */
  ghost predicate Told(w: WatcherTask) {
    var go := if w.pod.Some? then [GoRunning(w.pod.value)] else [];
    match w.pc
    case Phase1 => w.signals == []
    case Asleep1 => w.signals == []
    case Announcing => w.pod.Some? && w.signals == []
    case Failing(_) => w.signals == [] || (w.pod.Some? && w.signals == go)
    case StoppingGc => w.signals == [] || (w.pod.Some? && w.signals == go)
    case DeletingPod => w.signals == [GoTerminated] || (w.pod.Some? && w.signals == go + [GoTerminated])
    case Returned => w.signals == [GoTerminated] || (w.pod.Some? && w.signals == go + [GoTerminated])
    case WatcherPanicked =>
      || w.signals == [] || w.signals == [GoTerminated]
      || (w.pod.Some? && (w.signals == go || w.signals == go + [GoTerminated]))
    case _ => w.pod.Some? && w.signals == go
  }

  ghost predicate HeardGo(g: CollectorTask) {
    |g.received| == 1 && g.received[0].GoRunning?
  }

  /** The collector's place is decided by what it has heard. */
  ghost predicate Heard(w: WatcherTask, g: CollectorTask) {
    match g.pc
    case AwaitingGo => g.received == []
    case Arming => HeardGo(g)
    case Patching => HeardGo(g)
    case Armed => HeardGo(g)
    case Deleting(cause) => HeardGo(g) && (cause.Orphaned? ==> w.pc.WatcherPanicked? && w.signals == g.received)
    case CollectorPanicked => HeardGo(g)
    case Exited =>
      || HeardGo(g)
      || (g.received != [] && g.received[|g.received| - 1].GoTerminated?)
      || (g.received == [] && w.pc.WatcherPanicked? && w.signals == [])
  }

  /** No signal is lost while the collector lives, and none is ever invented. */
  ghost predicate SignalInv(w: WatcherTask, g: CollectorTask) {
    && Told(w)
    && Heard(w, g)
    && g.received <= w.signals
    && (CollectorAlive(g) ==> g.received + g.status == w.signals)
  }

  ghost predicate SignalAlarms(s: System) {
    && SuperfluousRunningAlarm !in s.alarms
    && CollectorGoneAlarm !in s.alarms
    && (StatusClosedAlarm in s.alarms ==> s.w.pc.WatcherPanicked?)
    && NotBlamed(s, GarbageCollectorUnresponsive)
  }

  /** No client has been, or is about to be, told this failure. */
  ghost predicate NotBlamed(s: System, failure: Failure) {
    && s.w.pc != Failing(failure) && s.w.pc != Killing(failure) && s.w.pc != Joining(Ill(failure))
    && s.c.outcome != Some(Ill(failure))
    && Err(failure) !in s.w.attempts
  }

  /** Appending a signal keeps the two ends in step. */
  lemma SignalSent(w: WatcherTask, g: CollectorTask, signal: GcStatus)
    requires CollectorAlive(g) && g.received + g.status == w.signals
    ensures g.received + Signal(g, signal).status == w.signals + [signal]
  {
  }

  // ----- every move keeps the two ends in step

  lemma HandKeepsSignals(s: System, item: Item, giveUp: bool)
    requires SignalInv(s.w, s.g) && InPhase(s.w.pc)
    ensures var t := Hand(s, Some(item), giveUp); SignalInv(t.w, t.g)
  {
  }

  lemma PollKeepsSignals(s: System, response: Watcher.Response<PodBody>, giveUp: bool)
    requires SignalInv(s.w, s.g) && WatcherEnabled(s, Poll(response, giveUp))
    ensures var t := ApplyPoll(s, response, giveUp); SignalInv(t.w, t.g)
  {
    var (item, next) := Watcher.StepTrampolined(s.w.stream, response);
    if item.Some? {
      HandKeepsSignals(s.(w := s.w.(stream := next)), item.value, giveUp);
    }
  }

  lemma AnnounceKeepsSignals(s: System, parses: bool)
    requires SignalInv(s.w, s.g) && WatcherEnabled(s, Announce(parses))
    ensures var t := ApplyAnnounce(s, parses); SignalInv(t.w, t.g)
  {
    if CollectorAlive(s.g) {
      SignalSent(s.w, s.g, GoRunning(s.w.pod.value));
    }
  }

  lemma StopGcKeepsSignals(s: System)
    requires SignalInv(s.w, s.g) && WatcherEnabled(s, StopGc)
    ensures var t := ApplyWatcher(s, StopGc); SignalInv(t.w, t.g)
  {
    if CollectorAlive(s.g) {
      SignalSent(s.w, s.g, GoTerminated);
    }
  }

  lemma RestKeepsSignals(s: System, move: WatcherMove)
    requires SignalInv(s.w, s.g) && WatcherEnabled(s, move)
    requires !move.Poll? && !move.Announce? && !move.StopGc?
    ensures var t := ApplyWatcher(s, move); SignalInv(t.w, t.g)
  {
    var t := ApplyWatcher(s, move);
    assert t.g == s.g && t.w.signals == s.w.signals && t.w.pod == s.w.pod;
  }

  lemma HearKeepsSignals(s: System)
    requires SignalInv(s.w, s.g) && CollectorEnabled(s, Hear)
    ensures var t := ApplyHear(s); SignalInv(t.w, t.g)
  {
    var t := ApplyHear(s);
    if s.g.status != [] {
      assert t.g.received + t.g.status == s.g.received + s.g.status;
      assert s.w.signals[|s.g.received|] == s.g.status[0];
    } else {
      assert s.g.received + [] == s.g.received;
    }
  }

  lemma CollectorKeepsSignals(s: System, move: CollectorMove)
    requires SignalInv(s.w, s.g) && CollectorEnabled(s, move) && !move.Hear?
    ensures var t := ApplyCollector(s, move); SignalInv(t.w, t.g)
  {
  }

  lemma SignalStep(s: System, move: Move)
    requires SignalInv(s.w, s.g) && Enabled(s, move)
    ensures var t := Apply(s, move); SignalInv(t.w, t.g)
  {
    match move
    case W(Poll(response, giveUp)) => PollKeepsSignals(s, response, giveUp);
    case W(Announce(parses)) => AnnounceKeepsSignals(s, parses);
    case W(StopGc) => StopGcKeepsSignals(s);
    case W(w) => RestKeepsSignals(s, w);
    case G(Hear) => HearKeepsSignals(s);
    case G(g) => CollectorKeepsSignals(s, g);
    case C(c) => CheckerFrame(s, c);
    case H(h) => ShimFrame(s, h);
    case K(k) => ClientFrame(s, k);
    case _ =>
  }

  // ----- and no alarm of theirs goes off

  lemma HandKeepsQuiet(s: System, item: Item, giveUp: bool)
    requires SignalAlarms(s) && InPhase(s.w.pc)
    ensures SignalAlarms(Hand(s, Some(item), giveUp))
  {
  }

  lemma WatcherKeepsQuiet(s: System, move: WatcherMove)
    requires SignalInv(s.w, s.g) && SignalAlarms(s) && WatcherEnabled(s, move)
    ensures SignalAlarms(ApplyWatcher(s, move))
  {
    match move
    case Poll(response, giveUp) =>
      var (item, next) := Watcher.StepTrampolined(s.w.stream, response);
      if item.Some? {
        HandKeepsQuiet(s.(w := s.w.(stream := next)), item.value, giveUp);
      }
    case Announce(_) => assert CollectorAlive(s.g);
    case _ =>
  }

  lemma HearKeepsQuiet(s: System)
    requires SignalInv(s.w, s.g) && SignalAlarms(s) && CollectorEnabled(s, Hear)
    ensures SignalAlarms(ApplyHear(s))
  {
    if s.g.status != [] {
      assert s.w.signals[|s.g.received|] == s.g.status[0];
    } else {
      assert s.g.received + [] == s.g.received;
    }
  }

  lemma CheckerKeepsQuiet(s: System, move: CheckerMove)
    requires SignalAlarms(s) && CheckerEnabled(s, move)
    ensures SignalAlarms(ApplyChecker(s, move))
  {
  }

  lemma SignalAlarmStep(s: System, move: Move)
    requires SignalInv(s.w, s.g) && SignalAlarms(s) && Enabled(s, move)
    ensures SignalAlarms(Apply(s, move))
  {
    match move
    case W(w) => WatcherKeepsQuiet(s, w);
    case G(Hear) => HearKeepsQuiet(s);
    case G(g) =>
    case C(c) => CheckerKeepsQuiet(s, c);
    case H(h) => ShimFrame(s, h);
    case K(k) => ClientFrame(s, k);
    case _ =>
  }
}
