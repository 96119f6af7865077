/** Which parts of the system the moves of each task leave alone. */
module Frames {
  import opened Wrappers
  import Pods
  import opened Protocol

  predicate Longer(log: seq<Act>, longer: seq<Act>) {
    |longer| == |log| + 1 && log <= longer
  }

  lemma CheckerFrame(s: System, move: CheckerMove)
    requires CheckerEnabled(s, move)
    ensures var t := ApplyChecker(s, move);
            && t.now == s.now && t.w == s.w && t.g == s.g && t.h == s.h && t.m == s.m
            && t.deletes == s.deletes && t.alarms == s.alarms
            && (t.log == s.log || (Longer(s.log, t.log) && t.log[|s.log|].Connected?))
  {
  }

  lemma CollectorFrame(s: System, move: CollectorMove)
    requires CollectorEnabled(s, move)
    ensures var t := ApplyCollector(s, move);
            && t.now == s.now && t.w == s.w && t.c == s.c && t.h == s.h && t.log == s.log
            && t.m == s.m.(reply := t.m.reply)
            && t.g.ttl == s.g.ttl
            && s.alarms <= t.alarms <= s.alarms + {StatusClosedAlarm, SuperfluousRunningAlarm, RefreshClosedAlarm}
  {
  }

  lemma ShimFrame(s: System, move: ShimMove)
    requires ShimEnabled(s, move)
    ensures var t := ApplyShim(s, move);
            && t.now == s.now && t.w == s.w && t.c == s.c && t.g == s.g && t.log == s.log && t.deletes == s.deletes
            && (t.m == s.m || (s.m.client.InBarrier? && t.m == s.m.(client := InBarrier(true))))
            && s.alarms <= t.alarms <= s.alarms + {InboundDroppedAlarm}
  {
  }

  lemma ClientFrame(s: System, move: ClientMove)
    requires ClientEnabled(s, move)
    ensures var t := ApplyClient(s, move);
            && t.now == s.now && t.w == s.w && t.c == s.c && t.deletes == s.deletes && t.alarms == s.alarms
            && t.g == s.g.(requests := t.g.requests)
            && t.h == s.h.(pc := t.h.pc, arrived := t.h.arrived, outbox := t.h.outbox)
            && (t.h.pc == s.h.pc || (s.h.pc.AtBarrier? && t.h.pc.AtBarrier?))
  {
  }

  lemma ClientLogs(s: System, move: ClientMove)
    requires ClientEnabled(s, move)
    ensures var t := ApplyClient(s, move);
            t.log == s.log || (Longer(s.log, t.log) && t.log[|s.log|].WaitReturned?)
  {
  }

  ghost predicate SameRegistration(m: Manager, n: Manager) {
    && n.registered == m.registered && n.cached == m.cached && n.cleaned == m.cleaned
    && n.registeredAt == m.registeredAt && n.late == m.late
  }

  lemma ClientRegistration(s: System, move: ClientMove)
    requires ClientEnabled(s, move)
    ensures SameRegistration(s.m, ApplyClient(s, move).m)
  {
    match move
    case Collect => AnswerRegistration(s.m, s.m.client.pod, s.m.client.asked, s.m.reply);
    case Request => AnswerRegistration(s.m, s.m.client.pod, s.m.client.asked, None);
    case _ => WaitRegistration(s, move);
  }

  lemma AnswerRegistration(m: Manager, pod: Option<Pods.Pod>, asked: nat, ticket: Option<Ticket>)
    ensures SameRegistration(m, Answer(m, pod, asked, ticket))
  {
  }

  lemma WaitRegistration(s: System, move: ClientMove)
    requires ClientEnabled(s, move) && !move.Collect? && !move.Request?
    ensures SameRegistration(s.m, ApplyClient(s, move).m)
  {
  }

  lemma RegistrationFrame(s: System, move: Move)
    requires Enabled(s, move) && !move.Register? && !move.Cleanup?
    ensures SameRegistration(s.m, Apply(s, move).m)
  {
    match move
    case W(w) => WatcherFrame(s, w);
    case C(c) => CheckerFrame(s, c);
    case G(g) => CollectorFrame(s, g);
    case H(h) => ShimFrame(s, h);
    case K(k) => ClientRegistration(s, k);
    case _ =>
  }

  lemma WatcherFrame(s: System, move: WatcherMove)
    requires WatcherEnabled(s, move)
    ensures var t := ApplyWatcher(s, move);
            && t.now == s.now && t.m == s.m
            && t.g == s.g.(status := t.g.status)
            && t.h == s.h.(inbox := t.h.inbox)
            && t.c.outcome == s.c.outcome && t.c.connectedAt == s.c.connectedAt
            && s.alarms <= t.alarms
               <= s.alarms + {CollectorGoneAlarm, CheckerGoneAlarm, UpstreamClosedAlarm, StreamEndedAlarm}
            && (t.deletes == s.deletes || t.deletes == s.deletes + [ByWatcher(s.now)])
            && (t.log == s.log || (Longer(s.log, t.log) && (t.log[|s.log|].Consumed? || t.log[|s.log|].Reported?)))
  {
  }
}
