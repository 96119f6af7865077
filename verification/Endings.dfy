/**
How a run ends: reported reboots, requested deletions, and the cache entry.
 */
module Endings {
  import opened Wrappers
  import opened Pods
  import opened Protocol
  import opened Signals
  import opened Results
  import opened Evidence
  import opened Frames
  import Watcher

  // ----- reboots

  predicate IsGone(act: Act) { act == Consumed(Err(Watcher.WatchError(410))) }
  predicate IsRelist(act: Act) { act.Consumed? && act.item.Ok? && act.item.value.Restarted? }

  ghost predicate GoneSince(log: seq<Act>, from: int) {
    exists x :: 0 <= x < |log| && from < x && IsGone(log[x])
  }

  /** The pod was seen running at `i`, the watch expired at `x`, and a re-list was consumed at `y`. */
  ghost predicate ProvesRelist(log: seq<Act>, pod: Pod, i: nat, x: nat, y: nat) {
    i < x < y < |log| && IsSighting(log[i], pod) && IsGone(log[x]) && IsRelist(log[y])
  }

  ghost predicate Relisted(log: seq<Act>) {
    exists pod, i, x, y :: ProvesRelist(log, pod, i, x, y)
  }

  ghost predicate RelistInv(s: System) {
    && (PastSighting(s.w.pc) && s.w.stream.Empty? ==> GoneSince(s.log, s.w.seenAt))
    && (NotBlamed(s, PodRebooted) || Relisted(s.log))
    && NotBlamed(s, UnexpectedCloseOfEventStream)
    && StreamEndedAlarm !in s.alarms
  }

  lemma GoneSinceLasts(log: seq<Act>, longer: seq<Act>, from: int)
    requires GoneSince(log, from) && log <= longer
    ensures GoneSince(longer, from)
  {
    var x :| 0 <= x < |log| && from < x && IsGone(log[x]);
    assert IsGone(longer[x]);
  }

  lemma RelistedLasts(log: seq<Act>, longer: seq<Act>)
    requires Relisted(log) && log <= longer
    ensures Relisted(longer)
  {
    var pod, i, x, y :| ProvesRelist(log, pod, i, x, y);
    assert ProvesRelist(longer, pod, i, x, y);
  }

  /** The stream turns empty only on GONE, and re-lists only from empty. */
  lemma PollFacts(pc: WatcherPc, stream: Watcher.State, response: Watcher.Response<PodBody>, giveUp: bool)
    requires InPhase(pc) && Watcher.Answers(stream, response)
    ensures var (item, next) := Watcher.StepTrampolined(stream, response);
            if item.None? then next.Empty? == stream.Empty?
            else
              && (next.Empty? && !stream.Empty? ==> IsGone(Consumed(item.value)))
              && (IsRelist(Consumed(item.value)) ==> stream.Empty? && !next.Empty?)
              && var after := OnItem(pc, item, giveUp);
              && (after == Failing(PodRebooted) || after == Killing(PodRebooted) ==>
                    IsRelist(Consumed(item.value)) && PastSighting(pc))
              && (PastSighting(after) && !PastSighting(pc) ==> !next.Empty?)
              && after != Failing(UnexpectedCloseOfEventStream) && after != Killing(UnexpectedCloseOfEventStream)
  {
  }

  /** What handing over an item does to the parts the invariant speaks of. */
  lemma HandEffect(s: System, item: Item, giveUp: bool)
    requires InPhase(s.w.pc)
    ensures var t := Hand(s, Some(item), giveUp);
            && t.log == s.log + [Consumed(item)] && t.w.attempts == s.w.attempts && t.c.outcome == s.c.outcome
            && t.w.stream == s.w.stream && t.w.pc == OnItem(s.w.pc, Some(item), giveUp) && !t.w.pc.Joining?
            && t.alarms == s.alarms
            && (PastSighting(s.w.pc) ==> t.w.seenAt == s.w.seenAt)
  {
  }

  lemma PollKeepsRelist(s: System, response: Watcher.Response<PodBody>, giveUp: bool)
    requires RelistInv(s) && SightingInv(s.w, s.log) && WatcherEnabled(s, Poll(response, giveUp))
    ensures RelistInv(ApplyPoll(s, response, giveUp))
  {
    var (item, next) := Watcher.StepTrampolined(s.w.stream, response);
    PollFacts(s.w.pc, s.w.stream, response, giveUp);
    if item.Some? {
      var handed := s.(w := s.w.(stream := next));
      HandEffect(handed, item.value, giveUp);
      HandKeepsRelist(s, Consumed(item.value), s.log + [Consumed(item.value)]);
    }
  }

  lemma HandKeepsRelist(s: System, act: Act, log: seq<Act>)
    requires RelistInv(s) && SightingInv(s.w, s.log) && InPhase(s.w.pc) && log == s.log + [act]
    ensures Relisted(s.log) ==> Relisted(log)
    ensures PastSighting(s.w.pc) && (s.w.stream.Empty? || IsGone(act)) ==> GoneSince(log, s.w.seenAt)
    ensures PastSighting(s.w.pc) && s.w.stream.Empty? && IsRelist(act) ==> Relisted(log)
  {
    assert log[|s.log|] == act;
    if Relisted(s.log) {
      RelistedLasts(s.log, log);
    }
    if PastSighting(s.w.pc) && s.w.stream.Empty? {
      GoneSinceLasts(s.log, log, s.w.seenAt);
      if IsRelist(act) {
        var x :| 0 <= x < |s.log| && s.w.seenAt < x && IsGone(s.log[x]);
        assert ProvesRelist(log, s.w.pod.value, s.w.seenAt, x, |s.log|);
      }
    }
  }

  /** Apart from polls, no move touches the stream or finds a new one of these failures. */
  ghost predicate Blameless(s: System, t: System, failure: Failure) {
    && t.w.stream == s.w.stream
    && (NotBlamed(s, failure) ==> NotBlamed(t, failure))
    && (StreamEndedAlarm in t.alarms ==> StreamEndedAlarm in s.alarms)
  }

  lemma WatcherRelistFrame(s: System, move: WatcherMove, failure: Failure)
    requires WatcherEnabled(s, move) && !move.Poll?
    requires failure == PodRebooted || failure == UnexpectedCloseOfEventStream
    ensures Blameless(s, ApplyWatcher(s, move), failure)
  {
  }

  lemma CheckerRelistFrame(s: System, move: CheckerMove, failure: Failure)
    requires CheckerEnabled(s, move)
    requires failure == PodRebooted || failure == UnexpectedCloseOfEventStream
    ensures Blameless(s, ApplyChecker(s, move), failure)
  {
  }

  lemma RelistFrame(s: System, move: Move, failure: Failure)
    requires Enabled(s, move) && !(move.W? && move.w.Poll?)
    requires failure == PodRebooted || failure == UnexpectedCloseOfEventStream
    ensures Blameless(s, Apply(s, move), failure)
  {
    match move
    case W(w) => WatcherRelistFrame(s, w, failure);
    case C(c) => CheckerRelistFrame(s, c, failure);
    case G(g) => CollectorFrame(s, g);
    case H(h) => ShimFrame(s, h);
    case K(k) => ClientFrame(s, k);
    case _ =>
  }

  lemma RelistStep(s: System, move: Move)
    requires RelistInv(s) && SightingInv(s.w, s.log) && Enabled(s, move)
    ensures RelistInv(Apply(s, move))
  {
    if move.W? && move.w.Poll? {
      PollKeepsRelist(s, move.w.response, move.w.giveUp);
    } else {
      var t := Apply(s, move);
      LogGrows(s, move);
      SightingFrame(s, move);
      RelistFrame(s, move, PodRebooted);
      RelistFrame(s, move, UnexpectedCloseOfEventStream);
      if GoneSince(s.log, s.w.seenAt) {
        GoneSinceLasts(s.log, t.log, s.w.seenAt);
      }
      if Relisted(s.log) {
        RelistedLasts(s.log, t.log);
      }
    }
  }

  // ----- deletions

  ghost predicate SawDeleted(log: seq<Act>) {
    exists x :: 0 <= x < |log| && log[x].Consumed? && log[x].item.Ok? && log[x].item.value.Deleted?
  }

  ghost predicate DeletedByWatcher(deletes: seq<Delete>) { exists d :: d in deletes && d.ByWatcher? }
  ghost predicate DeletedByCollector(deletes: seq<Delete>) { exists d :: d in deletes && d.ByCollector? }

  ghost predicate DeleteInv(s: System) {
    && (s.w.pc.Closing? ==> SawDeleted(s.log))
    && (s.w.pc.Returned? ==> SawDeleted(s.log) || DeletedByWatcher(s.deletes))
    && (s.g.pc.Exited? && HeardGo(s.g) ==> DeletedByCollector(s.deletes))
    && (DeletedByCollector(s.deletes) ==> HeardGo(s.g) && !CollectorAlive(s.g))
  }

  lemma DeletesLast(deletes: seq<Delete>, d: Delete)
    ensures DeletedByWatcher(deletes) || d.ByWatcher? ==> DeletedByWatcher(deletes + [d])
    ensures DeletedByCollector(deletes + [d]) <==> DeletedByCollector(deletes) || d.ByCollector?
  {
    assert d in deletes + [d];
    assert forall e :: e in deletes + [d] <==> e in deletes || e == d;
  }

  lemma SawDeletedLasts(log: seq<Act>, longer: seq<Act>)
    requires log <= longer
    ensures SawDeleted(log) ==> SawDeleted(longer)
  {
    if SawDeleted(log) {
      var x :| 0 <= x < |log| && log[x].Consumed? && log[x].item.Ok? && log[x].item.value.Deleted?;
      assert longer[x] == log[x];
    }
  }

  lemma WatcherKeepsDeletes(s: System, move: WatcherMove)
    requires DeleteInv(s) && WatcherEnabled(s, move)
    ensures DeleteInv(ApplyWatcher(s, move))
  {
    var t := ApplyWatcher(s, move);
    WatcherFrame(s, move);
    SawDeletedLasts(s.log, t.log);
    match move
    case Poll(response, giveUp) =>
      var item := Watcher.StepTrampolined(s.w.stream, response).0;
      if t.w.pc.Closing? {
        assert t.log[|s.log|] == Consumed(item.value);
      }
    case DeletePod => DeletesLast(s.deletes, ByWatcher(s.now));
    case _ =>
  }

  /** A collector that has heard the go-ahead only leaves by hearing the end or by deleting. */
  lemma CollectorKeepsDeletes(s: System, move: CollectorMove)
    requires DeleteInv(s) && SignalInv(s.w, s.g) && CollectorEnabled(s, move)
    ensures DeleteInv(ApplyCollector(s, move))
  {
    CollectorFrame(s, move);
    if move.Delete? {
      DeletesLast(s.deletes, ByCollector(s.g.pc.cause, s.now));
    }
  }

  lemma DeleteStep(s: System, move: Move)
    requires DeleteInv(s) && SignalInv(s.w, s.g) && Enabled(s, move)
    ensures DeleteInv(Apply(s, move))
  {
    LogGrows(s, move);
    SawDeletedLasts(s.log, Apply(s, move).log);
    match move
    case W(w) => WatcherKeepsDeletes(s, w);
    case C(c) => CheckerFrame(s, c);
    case G(g) => CollectorKeepsDeletes(s, g);
    case H(h) => ShimFrame(s, h);
    case K(k) => ClientFrame(s, k);
    case _ =>
  }

  // ----- the cache

  ghost predicate CacheInv(s: System) {
    && s.m.cached == (s.m.registered && (!s.m.cleaned || s.m.late))
    && (s.m.cleaned ==> !WatcherAlive(s.w) && !CollectorAlive(s.g) && !ShimAlive(s.h))
    && (!s.m.registered ==> s.m.holders == 0 && s.m.client.Idle? && s.m.outcomes == [])
    && (!s.h.pc.AwaitingResult? ==> PATIENCE <= s.h.deadline)
    && (s.h.pc.Over? ==> ClientCame(s.m) || s.h.deadline <= s.now)
    && (s.m.late ==> s.m.cleaned && s.m.registered && PATIENCE <= s.m.registeredAt)
    && RefreshClosedAlarm !in s.alarms
  }

  lemma ShimKeepsCache(s: System, move: ShimMove)
    requires CacheInv(s) && BarrierInv(s.h, s.m) && ShimEnabled(s, move)
    ensures CacheInv(ApplyShim(s, move))
  {
  }

  /** A client's move needs registration, and does not undo an arrival at the barrier. */
  lemma ClientIsRegistered(s: System, move: ClientMove)
    requires CacheInv(s) && ClientEnabled(s, move)
    ensures s.m.registered && (ClientCame(s.m) ==> ClientCame(ApplyClient(s, move).m))
  {
  }

  lemma ClientKeepsCache(s: System, move: ClientMove)
    requires CacheInv(s) && BarrierInv(s.h, s.m) && ClientEnabled(s, move)
    ensures CacheInv(ApplyClient(s, move))
  {
    ClientFrame(s, move);
    ClientRegistration(s, move);
    ClientIsRegistered(s, move);
  }

  lemma CollectorKeepsCache(s: System, move: CollectorMove)
    requires CacheInv(s) && CollectorEnabled(s, move)
    ensures CacheInv(ApplyCollector(s, move))
  {
  }

  lemma WatcherKeepsCache(s: System, move: WatcherMove)
    requires CacheInv(s) && WatcherEnabled(s, move)
    ensures CacheInv(ApplyWatcher(s, move))
  {
    WatcherFrame(s, move);
  }

  lemma CacheStep(s: System, move: Move)
    requires CacheInv(s) && BarrierInv(s.h, s.m) && Enabled(s, move)
    ensures CacheInv(Apply(s, move))
  {
    match move
    case W(w) => WatcherKeepsCache(s, w);
    case C(c) => CheckerFrame(s, c);
    case G(g) => CollectorKeepsCache(s, g);
    case H(h) => ShimKeepsCache(s, h);
    case K(k) => ClientKeepsCache(s, k);
    case _ =>
  }
}
