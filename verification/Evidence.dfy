/**
What a success, and what a reported reboot, prove about the run so far.
 */
module Evidence {
  import opened Wrappers
  import opened Pods
  import opened Protocol
  import opened Signals
  import opened Frames
  import opened Results
  import opened Checks
  import Watcher

  /** The watcher was told that the pod is gone or that its history was lost. */
  predicate Disturbs(act: Act) {
    act.Consumed? && act.item.Ok? && (act.item.value.Deleted? || act.item.value.Restarted?)
  }

  ghost predicate IsQuiet(log: seq<Act>, from: int, to: int) {
    forall x :: 0 <= x < |log| && from < x < to ==> !Disturbs(log[x])
  }

  predicate IsSighting(act: Act, pod: Pod) {
    act == Consumed(Ok(Watcher.Applied(pod))) && Running(pod)
  }

  /**
  At `i` the watcher observed `pod` running, at `j` the checker connected to that pod's address,
  no later than `time`, and at `k` the watcher reported it, undisturbed all the while.
   */
  ghost predicate Proves(log: seq<Act>, pod: Pod, time: nat, i: nat, j: nat, k: nat) {
    && i < j < k < |log|
    && IsSighting(log[i], pod)
    && log[j].Connected? && Address(pod) == Ok(log[j].endpoint) && log[j].at <= time
    && log[k] == Reported(Ok(pod))
    && IsQuiet(log, i, k)
  }

  ghost predicate Certified(log: seq<Act>, pod: Pod, time: nat) {
    exists i: nat, j: nat, k: nat :: Proves(log, pod, time, i, j, k)
  }

  lemma CertifiedLasts(log: seq<Act>, longer: seq<Act>, pod: Pod, time: nat, later: nat)
    requires Certified(log, pod, time) && log <= longer && time <= later
    ensures Certified(longer, pod, later)
  {
    var i, j, k :| Proves(log, pod, time, i, j, k);
    assert Proves(longer, pod, later, i, j, k);
  }

  // ----- what the watcher has seen

  predicate PastSighting(pc: WatcherPc) {
    match pc
    case Announcing => true
    case Phase2 => true
    case Asleep2 => true
    case Killing(_) => true
    case Joining(_) => true
    case Reporting => true
    case Phase3 => true
    case Asleep3 => true
    case _ => false
  }

  predicate Undisturbed(pc: WatcherPc) {
    pc.Announcing? || pc.Phase2? || pc.Asleep2? || pc.Joining? || pc.Reporting?
  }

  ghost predicate SightingInv(w: WatcherTask, log: seq<Act>) {
    && (PastSighting(w.pc) ==> w.pod.Some? && w.seenAt < |log| && IsSighting(log[w.seenAt], w.pod.value))
    && (Undisturbed(w.pc) ==> IsQuiet(log, w.seenAt, |log|))
  }

  /** A healthy verdict is backed by a connection made since the pod was seen running. */
  ghost predicate ConnectionInv(s: System) {
    s.c.outcome == Some(Healthy) ==>
      && s.w.seenAt < s.c.connectedAt < |s.log|
      && s.c.endpoint.Some?
      && s.log[s.c.connectedAt].Connected?
      && s.log[s.c.connectedAt].endpoint == s.c.endpoint.value
      && s.log[s.c.connectedAt].at <= s.now
  }

  /** A pod is announced only on an item that shows it running, and an item that disturbs ends the calm. */
  lemma ItemSighting(pc: WatcherPc, item: Item, giveUp: bool)
    requires InPhase(pc)
    ensures var after := OnItem(pc, Some(item), giveUp);
            && (after.Announcing? ==> item.Ok? && item.value.Applied? && IsSighting(Consumed(item), item.value.obj))
            && (Undisturbed(after) ==> !Disturbs(Consumed(item)))
            && (PastSighting(after) ==> after.Announcing? || PastSighting(pc))
            && (Undisturbed(after) ==> after.Announcing? || Undisturbed(pc))
  {
  }

  lemma HandKeepsSighting(s: System, item: Item, giveUp: bool)
    requires SightingInv(s.w, s.log) && InPhase(s.w.pc)
    ensures var t := Hand(s, Some(item), giveUp); SightingInv(t.w, t.log)
  {
    ItemSighting(s.w.pc, item, giveUp);
    var log := s.log + [Consumed(item)];
    assert log[|s.log|] == Consumed(item);
  }

  lemma PollKeepsSighting(s: System, response: Watcher.Response<PodBody>, giveUp: bool)
    requires SightingInv(s.w, s.log) && WatcherEnabled(s, Poll(response, giveUp))
    ensures var t := ApplyPoll(s, response, giveUp); SightingInv(t.w, t.log)
  {
    var (item, next) := Watcher.StepTrampolined(s.w.stream, response);
    if item.Some? {
      HandKeepsSighting(s.(w := s.w.(stream := next)), item.value, giveUp);
    }
  }

  /** Apart from polls, moves log nothing that disturbs, and never bring the watcher to a sighting. */
  ghost predicate NoSighting(s: System, t: System) {
    && (t.log == s.log || (Longer(s.log, t.log) && !Disturbs(t.log[|s.log|])))
    && t.w.pod == s.w.pod && t.w.seenAt == s.w.seenAt
    && (PastSighting(t.w.pc) ==> PastSighting(s.w.pc))
    && (Undisturbed(t.w.pc) ==> Undisturbed(s.w.pc))
  }

  lemma WatcherSightingFrame(s: System, move: WatcherMove)
    requires WatcherEnabled(s, move) && !move.Poll?
    ensures NoSighting(s, ApplyWatcher(s, move))
  {
  }

  lemma SightingFrame(s: System, move: Move)
    requires Enabled(s, move) && !(move.W? && move.w.Poll?)
    ensures NoSighting(s, Apply(s, move))
  {
    match move
    case W(w) => WatcherSightingFrame(s, w);
    case C(c) => CheckerFrame(s, c);
    case G(g) => CollectorFrame(s, g);
    case H(h) => ShimFrame(s, h);
    case K(k) =>
      ClientFrame(s, k);
      ClientLogs(s, k);
    case _ =>
  }

  lemma SightingStep(s: System, move: Move)
    requires SightingInv(s.w, s.log) && Enabled(s, move)
    ensures var t := Apply(s, move); SightingInv(t.w, t.log)
  {
    if move.W? && move.w.Poll? {
      PollKeepsSighting(s, move.w.response, move.w.giveUp);
    } else {
      SightingFrame(s, move);
    }
  }

  lemma ConnectionStep(s: System, move: Move)
    requires SightingInv(s.w, s.log) && ConnectionInv(s) && CheckerInv(s.w, s.c) && Enabled(s, move)
    ensures ConnectionInv(Apply(s, move))
  {
    match move
    case C(c) => CheckerKeepsConnection(s, c);
    case W(w) => WatcherKeepsConnection(s, w);
    case G(g) => CollectorFrame(s, g);
    case H(h) => ShimFrame(s, h);
    case K(k) =>
      ClientFrame(s, k);
      ClientLogs(s, k);
    case _ =>
  }

  lemma CheckerKeepsConnection(s: System, move: CheckerMove)
    requires SightingInv(s.w, s.log) && ConnectionInv(s) && CheckerInv(s.w, s.c) && CheckerEnabled(s, move)
    ensures ConnectionInv(ApplyChecker(s, move))
  {
    if move == Connect(true) && WatcherAlive(s.w) {
      assert PastSighting(s.w.pc);
    }
  }

  lemma WatcherKeepsConnection(s: System, move: WatcherMove)
    requires ConnectionInv(s) && CheckerInv(s.w, s.c) && WatcherEnabled(s, move)
    ensures ConnectionInv(ApplyWatcher(s, move))
  {
    var t := ApplyWatcher(s, move);
    WatcherFrame(s, move);
    if s.c.outcome.Some? {
      assert t.w.seenAt == s.w.seenAt && t.c.connectedAt == s.c.connectedAt && t.c.endpoint == s.c.endpoint;
    }
  }

  // ----- what clients are told

  ghost predicate ReportInv(s: System) {
    forall pod :: s.w.attempts != [] && s.w.attempts[0] == Ok(pod) ==> Certified(s.log, pod, s.now)
  }

  ghost predicate AnswerInv(log: seq<Act>, now: nat, client: ClientPc, leases: seq<Lease>) {
    && (forall x, pod :: 0 <= x < |log| && log[x] == WaitReturned(Ok(pod)) ==> Certified(log[..x], pod, now))
    && (client.Requesting? || client.AwaitingTicket? ==>
          client.pod.Some? ==> Certified(log, client.pod.value, client.asked))
    && (forall l :: l in leases ==> Certified(log, l.pod, l.ticket.created))
  }

  lemma LogGrows(s: System, move: Move)
    requires Enabled(s, move)
    ensures s.log <= Apply(s, move).log && s.now <= Apply(s, move).now
  {
    match move
    case W(w) => WatcherFrame(s, w);
    case C(c) => CheckerFrame(s, c);
    case G(g) => CollectorFrame(s, g);
    case H(h) => ShimFrame(s, h);
    case K(k) => ClientLogs(s, k);
    case _ =>
  }

  lemma ReportStep(s: System, move: Move)
    requires SightingInv(s.w, s.log) && ConnectionInv(s) && CheckerInv(s.w, s.c) && ResultInv(s.w, s.h)
    requires ReportInv(s) && Enabled(s, move)
    ensures ReportInv(Apply(s, move))
  {
    var t := Apply(s, move);
    LogGrows(s, move);
    forall pod | t.w.attempts != [] && t.w.attempts[0] == Ok(pod) ensures Certified(t.log, pod, t.now) {
      if s.w.attempts != [] {
        FirstAttemptStays(s, move);
        CertifiedLasts(s.log, t.log, pod, s.now, t.now);
      } else {
        OnlyReportSucceeds(s, move);
        assert Proves(t.log, pod, t.now, s.w.seenAt, s.c.connectedAt, |s.log|);
      }
    }
  }

  lemma FirstAttemptStays(s: System, move: Move)
    requires Enabled(s, move) && s.w.attempts != []
    ensures var t := Apply(s, move); t.w.attempts != [] && t.w.attempts[0] == s.w.attempts[0]
  {
  }

  lemma OnlyReportSucceeds(s: System, move: Move)
    requires Enabled(s, move) && s.w.attempts == []
    requires var t := Apply(s, move); t.w.attempts != [] && t.w.attempts[0].Ok?
    ensures move == W(Report)
  {
  }

  /** Whatever `wait` returns as a success is what the watcher first reported. */
  lemma SuccessIsReported(s: System, pod: Pod)
    requires ResultInv(s.w, s.h) && WaitInv(s.h, s.m)
    requires (s.m.outcomes != [] && s.m.outcomes[0] == Ok(pod)) || (s.h.outbox != [] && s.h.outbox[0] == Ok(pod))
    ensures s.w.attempts != [] && s.w.attempts[0] == Ok(pod)
  {
  }

  /** Certificates outlast whatever is logged next, unless it is another success of `wait`. */
  lemma AnswersLast(log: seq<Act>, longer: seq<Act>, now: nat, later: nat, client: ClientPc, leases: seq<Lease>)
    requires AnswerInv(log, now, client, leases) && now <= later
    requires longer == log || (Longer(log, longer) && (longer[|log|].WaitReturned? && longer[|log|].verdict.Ok? ==>
               Certified(log, longer[|log|].verdict.value, now)))
    ensures AnswerInv(longer, later, client, leases)
  {
    forall x, pod | 0 <= x < |longer| && longer[x] == WaitReturned(Ok(pod)) ensures Certified(longer[..x], pod, later) {
      if x < |log| {
        assert longer[..x] == log[..x];
        CertifiedLasts(log[..x], longer[..x], pod, now, later);
      } else {
        assert longer[..x] == log;
        CertifiedLasts(log, longer[..x], pod, now, later);
      }
    }
    if (client.Requesting? || client.AwaitingTicket?) && client.pod.Some? {
      CertifiedLasts(log, longer, client.pod.value, client.asked, client.asked);
    }
    forall l | l in leases ensures Certified(longer, l.pod, l.ticket.created) {
      CertifiedLasts(log, longer, l.pod, l.ticket.created, l.ticket.created);
    }
  }

  /** `wait` returning keeps the promise if what it returns is certified. */
  lemma WaitReturnsKeeps(s: System, verdict: Verdict)
    requires AnswerInv(s.log, s.now, Idle, s.m.leases)
    requires verdict.Ok? ==> Certified(s.log, verdict.value, s.now)
    ensures var t := WaitReturns(s, verdict); AnswerInv(t.log, t.now, t.m.client, t.m.leases)
  {
    var t := WaitReturns(s, verdict);
    AnswersLast(s.log, t.log, s.now, s.now, Idle, s.m.leases);
    if verdict.Ok? {
      CertifiedLasts(s.log, t.log, verdict.value, s.now, s.now);
    }
  }

  ghost predicate ClientPromise(s: System) {
    && ResultInv(s.w, s.h) && WaitInv(s.h, s.m) && ReportInv(s)
    && AnswerInv(s.log, s.now, s.m.client, s.m.leases)
  }

  lemma CallWaitKeepsAnswers(s: System)
    requires ClientPromise(s) && ClientEnabled(s, CallWait)
    ensures var t := ApplyClient(s, CallWait); AnswerInv(t.log, t.now, t.m.client, t.m.leases)
  {
    if s.m.phantom.Some? {
      if s.m.phantom.value.Ok? {
        SuccessIsReported(s, s.m.phantom.value.value);
      }
      WaitReturnsKeeps(s.(m := s.m.(holders := s.m.holders - 1)), s.m.phantom.value);
    }
  }

  lemma ReceiveKeepsAnswers(s: System)
    requires ClientPromise(s) && ClientEnabled(s, Receive)
    ensures var t := ApplyClient(s, Receive); AnswerInv(t.log, t.now, t.m.client, t.m.leases)
  {
    var verdict := if s.h.outbox != [] then s.h.outbox[0] else Err(InboundResultChannelDropped);
    if verdict.Ok? {
      SuccessIsReported(s, verdict.value);
    }
    WaitReturnsKeeps(s.(h := s.h.(outbox := if s.h.outbox != [] then s.h.outbox[1..] else []),
                        m := s.m.(phantom := Some(Memo(verdict)))), verdict);
  }

  lemma CollectKeepsAnswers(s: System)
    requires AnswerInv(s.log, s.now, s.m.client, s.m.leases) && ClientEnabled(s, Collect)
    requires s.m.reply.Some? ==> s.m.client.asked <= s.m.reply.value.created
    ensures var t := ApplyClient(s, Collect); AnswerInv(t.log, t.now, t.m.client, t.m.leases)
  {
    var m := s.m;
    if m.client.pod.Some? && m.reply.Some? {
      CertifiedLasts(s.log, s.log, m.client.pod.value, m.client.asked, m.reply.value.created);
    }
  }

  lemma RestKeepsAnswers(s: System, move: ClientMove)
    requires AnswerInv(s.log, s.now, s.m.client, s.m.leases) && ClientEnabled(s, move)
    requires !move.CallWait? && !move.Receive? && !move.Collect?
    ensures var t := ApplyClient(s, move); AnswerInv(t.log, t.now, t.m.client, t.m.leases)
  {
    var t := ApplyClient(s, move);
    assert t.log == s.log && t.m.leases == s.m.leases;
  }

  /** Only a client's move makes `wait` return or gives out a lease. */
  lemma OthersKeepAnswers(s: System, move: Move)
    requires AnswerInv(s.log, s.now, s.m.client, s.m.leases) && Enabled(s, move) && !move.K?
    ensures var t := Apply(s, move); AnswerInv(t.log, t.now, t.m.client, t.m.leases)
  {
    var t := Apply(s, move);
    match move {
      case W(w) => WatcherFrame(s, w);
      case C(c) => CheckerFrame(s, c);
      case G(g) => CollectorFrame(s, g);
      case H(h) => ShimFrame(s, h);
      case _ =>
    }
    AnswersLast(s.log, t.log, s.now, t.now, s.m.client, s.m.leases);
  }

  lemma AnswerStep(s: System, move: Move)
    requires ClientPromise(s) && Enabled(s, move)
    requires s.m.reply.Some? && s.m.client.AwaitingTicket? ==> s.m.client.asked <= s.m.reply.value.created
    ensures var t := Apply(s, move); AnswerInv(t.log, t.now, t.m.client, t.m.leases)
  {
    match move
    case K(CallWait) => CallWaitKeepsAnswers(s);
    case K(Receive) => ReceiveKeepsAnswers(s);
    case K(Collect) => CollectKeepsAnswers(s);
    case K(k) => RestKeepsAnswers(s, k);
    case _ => OthersKeepAnswers(s, move);
  }
}
