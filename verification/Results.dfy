/**
How a result travels: from the event watcher to the shim, across the barrier, to the clients
that call `wait`.
 */
module Results {
  import opened Wrappers
  import opened Pods
  import opened Protocol
  import opened Frames
  import Watcher

  // ----- the watcher's side

  /** Nothing is reported before the way out of phases 1 and 2; after a success one failure may follow. */
  ghost predicate Reports(w: WatcherTask) {
    var good := w.pod.Some? && w.attempts == [Ok(w.pod.value)];
    match w.pc
    case Phase3 => good
    case Asleep3 => good
    case Closing => good
    case Failing(_) => w.attempts == [] || good
    case StoppingGc => EndedReports(w)
    case DeletingPod => EndedReports(w)
    case Returned => EndedReports(w) || good
    case WatcherPanicked => w.attempts == [] || good || EndedReports(w)
    case _ => w.attempts == []
  }

  ghost predicate EndedReports(w: WatcherTask) {
    || (|w.attempts| == 1 && w.attempts[0].Err?)
    || (w.pod.Some? && |w.attempts| == 2 && w.attempts[0] == Ok(w.pod.value) && w.attempts[1].Err?)
  }

  /** The shim holds the first result there ever was; with none, only because the watcher died. */
  ghost predicate ShimInv(w: WatcherTask, h: ShimTask) {
    && |h.inbox| <= 1
    && (!h.pc.AwaitingResult? ==> h.inbox == [] || |h.inbox| < |w.attempts|)
    && (h.pc.AwaitingResult? ==> h.inbox == w.attempts)
    && (!h.pc.AwaitingResult? ==>
          if w.attempts != [] then h.verdict == w.attempts[0]
          else w.pc.WatcherPanicked? && h.verdict == Err(InboundResultChannelDropped))
  }

  ghost predicate ResultInv(w: WatcherTask, h: ShimTask) {
    Reports(w) && ShimInv(w, h)
  }

  ghost predicate ResultAlarms(s: System) {
    && UpstreamClosedAlarm !in s.alarms
    && (InboundDroppedAlarm in s.alarms ==> s.w.pc.WatcherPanicked?)
  }

  lemma HandKeepsResults(s: System, item: Item, giveUp: bool)
    requires ResultInv(s.w, s.h) && InPhase(s.w.pc)
    ensures var t := Hand(s, Some(item), giveUp); ResultInv(t.w, t.h)
  {
  }

  lemma SendsKeepResults(s: System, move: WatcherMove)
    requires ResultInv(s.w, s.h) && WatcherEnabled(s, move) && (move.Report? || move.SendFailure?)
    ensures var t := ApplyWatcher(s, move); ResultInv(t.w, t.h)
  {
  }

  lemma RestKeepsResults(s: System, move: WatcherMove)
    requires ResultInv(s.w, s.h) && WatcherEnabled(s, move) && !move.Poll? && !move.Report? && !move.SendFailure?
    ensures var t := ApplyWatcher(s, move); ResultInv(t.w, t.h)
  {
    var t := ApplyWatcher(s, move);
    assert t.h == s.h && t.w.attempts == s.w.attempts && t.w.pod == s.w.pod;
  }

  lemma WatcherKeepsResults(s: System, move: WatcherMove)
    requires ResultInv(s.w, s.h) && WatcherEnabled(s, move)
    ensures var t := ApplyWatcher(s, move); ResultInv(t.w, t.h)
  {
    match move
    case Poll(response, giveUp) =>
      var (item, next) := Watcher.StepTrampolined(s.w.stream, response);
      if item.Some? {
        HandKeepsResults(s.(w := s.w.(stream := next)), item.value, giveUp);
      }
    case Report => SendsKeepResults(s, move);
    case SendFailure => SendsKeepResults(s, move);
    case _ => RestKeepsResults(s, move);
  }

  lemma ShimKeepsResults(s: System, move: ShimMove)
    requires ResultInv(s.w, s.h) && ShimEnabled(s, move)
    ensures var t := ApplyShim(s, move); ResultInv(t.w, t.h)
  {
  }

  lemma ClientKeepsResults(s: System, move: ClientMove)
    requires ResultInv(s.w, s.h) && ClientEnabled(s, move)
    ensures var t := ApplyClient(s, move); ResultInv(t.w, t.h)
  {
    ClientFrame(s, move);
  }

  lemma ResultStep(s: System, move: Move)
    requires ResultInv(s.w, s.h) && Enabled(s, move)
    ensures var t := Apply(s, move); ResultInv(t.w, t.h)
  {
    match move
    case W(w) => WatcherKeepsResults(s, w);
    case C(c) => CheckerFrame(s, c);
    case G(g) => CollectorFrame(s, g);
    case H(h) => ShimKeepsResults(s, h);
    case K(k) => ClientKeepsResults(s, k);
    case _ =>
  }

  lemma ResultAlarmStep(s: System, move: Move)
    requires ResultInv(s.w, s.h) && ResultAlarms(s) && Enabled(s, move)
    ensures ResultAlarms(Apply(s, move))
  {
    match move
    case W(w) => WatcherKeepsResultAlarms(s, w);
    case C(c) => CheckerFrame(s, c);
    case G(g) => CollectorFrame(s, g);
    case H(h) =>
    case K(k) => ClientFrame(s, k);
    case _ =>
  }

  lemma WatcherKeepsResultAlarms(s: System, move: WatcherMove)
    requires ResultInv(s.w, s.h) && ResultAlarms(s) && WatcherEnabled(s, move)
    ensures ResultAlarms(ApplyWatcher(s, move))
  {
    WatcherFrame(s, move);
    if move.Report? {
      assert ShimAlive(s.h);
    }
  }

  // ----- the clients' side

  /** A client has been to the barrier; the shim has been to the barrier. */
  ghost predicate ClientCame(m: Manager) { m.client.InBarrier? || m.client.Receiving? || m.outcomes != [] }
  ghost predicate ShimCame(h: ShimTask) { !h.pc.AwaitingResult? }

  /** Each party arrives once, and both are let through as soon as both have. */
  ghost predicate BarrierInv(h: ShimTask, m: Manager) {
    && h.arrived == (if ClientCame(m) == ShimCame(h) then 0 else 1)
    && (m.client.InBarrier? ==> m.client.released == ShimCame(h))
    && (h.pc.AtBarrier? ==> h.pc.released == ClientCame(m))
    && (m.client.Receiving? || m.outcomes != [] ==> ShimCame(h))
    && (h.pc.Forwarding? ==> ClientCame(m))
  }

  /** The one result in the outbox is the shim's, and it is there only until the client takes it. */
  ghost predicate OutboxInv(h: ShimTask, m: Manager) {
    && (h.outbox != [] ==> h.pc.Over? && h.outbox == [h.verdict] && m.outcomes == [] && ClientCame(m))
    && (m.outcomes != [] ==> m.outcomes[0] == h.verdict || m.outcomes[0] == Err(InboundResultChannelDropped))
    && (m.outcomes != [] ==> h.pc.Over?)
  }

  /** The first outcome is remembered, and every later one is what was remembered of it. */
  ghost predicate MemoInv(m: Manager) {
    && (m.outcomes == [] ==> m.phantom.None?)
    && (m.client.InBarrier? || m.client.Receiving? ==> m.outcomes == [])
    && (m.outcomes != [] ==>
          && m.phantom == Some(Memo(m.outcomes[0]))
          && forall i :: 0 < i < |m.outcomes| ==> m.outcomes[i] == Memo(m.outcomes[0]))
    && (m.client.Requesting? || m.client.AwaitingTicket? ==>
          m.client.pod.Some? ==> m.outcomes != [] && m.outcomes[0] == Ok(m.client.pod.value))
  }

  ghost predicate WaitInv(h: ShimTask, m: Manager) {
    BarrierInv(h, m) && OutboxInv(h, m) && MemoInv(m)
  }

  lemma ShimKeepsBarrier(s: System, move: ShimMove)
    requires WaitInv(s.h, s.m) && ShimEnabled(s, move)
    ensures var t := ApplyShim(s, move); BarrierInv(t.h, t.m) && MemoInv(t.m)
  {
  }

  lemma ShimKeepsOutbox(s: System, move: ShimMove)
    requires WaitInv(s.h, s.m) && ShimEnabled(s, move)
    ensures var t := ApplyShim(s, move); OutboxInv(t.h, t.m)
  {
  }

  lemma ClientKeepsBarrier(s: System, move: ClientMove)
    requires WaitInv(s.h, s.m) && ClientEnabled(s, move)
    ensures var t := ApplyClient(s, move); BarrierInv(t.h, t.m)
  {
  }

  lemma ClientKeepsOutbox(s: System, move: ClientMove)
    requires WaitInv(s.h, s.m) && ClientEnabled(s, move)
    ensures var t := ApplyClient(s, move); OutboxInv(t.h, t.m)
  {
  }

  lemma WaitKeepsMemo(s: System, move: ClientMove)
    requires MemoInv(s.m) && ClientEnabled(s, move) && (move.CallWait? || move.Receive?)
    ensures MemoInv(ApplyClient(s, move).m)
  {
  }

  lemma RefreshKeepsMemo(s: System, move: ClientMove)
    requires MemoInv(s.m) && ClientEnabled(s, move) && !move.CallWait? && !move.Receive?
    ensures MemoInv(ApplyClient(s, move).m)
  {
    assert ApplyClient(s, move).m.outcomes == s.m.outcomes;
  }

  lemma ClientKeepsMemo(s: System, move: ClientMove)
    requires MemoInv(s.m) && ClientEnabled(s, move)
    ensures MemoInv(ApplyClient(s, move).m)
  {
    if move.CallWait? || move.Receive? {
      WaitKeepsMemo(s, move);
    } else {
      RefreshKeepsMemo(s, move);
    }
  }

  lemma CollectorKeepsWait(s: System, move: CollectorMove)
    requires WaitInv(s.h, s.m) && CollectorEnabled(s, move)
    ensures var t := ApplyCollector(s, move); WaitInv(t.h, t.m)
  {
    CollectorFrame(s, move);
  }

  lemma WatcherKeepsWait(s: System, move: WatcherMove)
    requires WaitInv(s.h, s.m) && WatcherEnabled(s, move)
    ensures var t := ApplyWatcher(s, move); WaitInv(t.h, t.m)
  {
    WatcherFrame(s, move);
  }

  lemma WaitStep(s: System, move: Move)
    requires WaitInv(s.h, s.m) && Enabled(s, move)
    ensures var t := Apply(s, move); WaitInv(t.h, t.m)
  {
    match move
    case W(w) => WatcherKeepsWait(s, w);
    case C(c) => CheckerFrame(s, c);
    case G(g) => CollectorKeepsWait(s, g);
    case H(h) =>
      ShimKeepsBarrier(s, h);
      ShimKeepsOutbox(s, h);
    case K(k) =>
      ClientKeepsBarrier(s, k);
      ClientKeepsOutbox(s, k);
      ClientKeepsMemo(s, k);
    case _ =>
  }

  /** A client is told something other than the shim's result only if the shim's patience ran out. */
  ghost predicate PatienceInv(s: System) {
    && (s.h.pc.Over? && s.h.outbox == [] && s.m.outcomes == [] ==> s.h.deadline <= s.now)
    && (s.m.outcomes != [] && s.m.outcomes[0] != s.h.verdict ==> s.h.deadline <= s.now)
  }

  lemma ShimKeepsPatience(s: System, move: ShimMove)
    requires WaitInv(s.h, s.m) && PatienceInv(s) && ShimEnabled(s, move)
    ensures PatienceInv(ApplyShim(s, move))
  {
  }

  lemma ClientKeepsPatience(s: System, move: ClientMove)
    requires WaitInv(s.h, s.m) && PatienceInv(s) && ClientEnabled(s, move)
    ensures PatienceInv(ApplyClient(s, move))
  {
  }

  lemma PatienceStep(s: System, move: Move)
    requires WaitInv(s.h, s.m) && PatienceInv(s) && Enabled(s, move)
    ensures PatienceInv(Apply(s, move))
  {
    match move
    case W(w) => WatcherFrame(s, w);
    case C(c) => CheckerFrame(s, c);
    case G(g) => CollectorFrame(s, g);
    case H(h) => ShimKeepsPatience(s, h);
    case K(k) => ClientKeepsPatience(s, k);
    case _ =>
  }
}
