/**
Nothing waits for what has already happened: whenever a coroutine or a client waits for something and
that is there, its move can be made, over every run. What is waited for is told from what others
have done (sent, asked, let pass), not from the channel it arrives by.
 */
module Readiness {
  import opened Wrappers
  import opened Pods
  import opened Protocol
  import opened Signals
  import opened Results
  import opened Checks
  import opened Tickets
  import opened Endings
  import opened Frames
  import opened PodManager
  import Watcher

  // ----- the watcher and the checker

  lemma WatcherIsPrompt(ttl: nat, moves: seq<Move>, response: Watcher.Response<PodBody>, giveUp: bool)
    requires IsRun(ttl, moves)
    ensures var s := After(ttl, moves);
            && (InPhase(s.w.pc) && Watcher.Answers(s.w.stream, response) ==> Enabled(s, W(Poll(response, giveUp))))
            && (s.w.pc.Asleep1? || s.w.pc.Asleep2? || s.w.pc.Asleep3? ==> Enabled(s, W(Wake)))
            && (s.w.pc.Phase2? && CheckerDone(s.c) ==> Enabled(s, W(HearChecker)))
            && ((s.w.pc.Killing? || s.w.pc.Joining?) && CheckerDone(s.c) ==> Enabled(s, W(CheckerOver)))
            && (s.w.pc.DeletingPod? ==> Enabled(s, W(DeletePod)))
  {
  }

  /** Whatever becomes of a connection, and whenever the interrupt comes, the checker can take it. */
  lemma CheckerIsPrompt(ttl: nat, moves: seq<Move>, ok: bool)
    requires IsRun(ttl, moves)
    ensures var s := After(ttl, moves);
            && (s.c.pc.Deciding? ==> Enabled(s, C(AskBackoff(true))))
            && (s.c.pc.Deciding? && s.c.pc.asked > 0 ==> Enabled(s, C(AskBackoff(false))))
            && (s.c.pc.Pausing? ==> Enabled(s, C(PauseOver)))
            && (s.c.pc.Connecting? ==> Enabled(s, C(Connect(ok))) && Enabled(s, C(RunOutOfTime)))
            && ((s.c.pc.Pausing? || s.c.pc.Connecting?) && (s.w.pc.Killing? || !WatcherAlive(s.w)) ==>
                  Enabled(s, C(Interrupt)))
  {
    CheckerKnown(ttl, moves);
  }

  lemma CheckerKnown(ttl: nat, moves: seq<Move>)
    requires IsRun(ttl, moves)
    ensures CheckerInv(After(ttl, moves).w, After(ttl, moves).c)
  {
    InvHolds(ttl, moves);
  }

  // ----- the collector

  /** A refresh that waits for its ticket has its request with the collector. */
  ghost predicate RequestInv(s: System) {
    CollectorAlive(s.g) && s.m.client.AwaitingTicket? && s.m.reply.None? ==> s.g.requests > 0
  }

  lemma CollectorKeepsRequests(s: System, move: CollectorMove)
    requires RequestInv(s) && PendingInv(s) && CollectorEnabled(s, move)
    ensures RequestInv(ApplyCollector(s, move))
  {
  }

  lemma ClientKeepsRequests(s: System, move: ClientMove)
    requires RequestInv(s) && ClientEnabled(s, move)
    ensures RequestInv(ApplyClient(s, move))
  {
  }

  lemma RequestStep(s: System, move: Move)
    requires RequestInv(s) && PendingInv(s) && Enabled(s, move)
    ensures RequestInv(Apply(s, move))
  {
    match move
    case W(w) => WatcherFrame(s, w);
    case C(c) => CheckerFrame(s, c);
    case G(g) => CollectorKeepsRequests(s, g);
    case H(h) => ShimFrame(s, h);
    case K(k) => ClientKeepsRequests(s, k);
    case _ =>
  }

  lemma PendingKnown(ttl: nat, moves: seq<Move>)
    requires IsRun(ttl, moves)
    ensures var s := After(ttl, moves); PendingInv(s) && CurrentInv(s.now, s.g) && SignalInv(s.w, s.g)
  {
    InvHolds(ttl, moves);
  }

  lemma {:induction false} RequestsHold(ttl: nat, moves: seq<Move>)
    requires IsRun(ttl, moves)
    ensures RequestInv(After(ttl, moves))
    decreases |moves|
  {
    if moves != [] {
      var before := moves[..|moves| - 1];
      RequestsHold(ttl, before);
      PendingKnown(ttl, before);
      RequestStep(After(ttl, before), moves[|moves| - 1]);
    }
  }

  predicate AsksForTicket(m: Manager) { m.client.AwaitingTicket? && m.reply.None? }

  /**
  The collector can hear whatever the watcher has told it or that the watcher is gone, serve any client
  that asks, and time the pod out from the very moment the last ticket expires.
   */
  lemma CollectorIsPrompt(ttl: nat, moves: seq<Move>, ok: bool)
    requires IsRun(ttl, moves)
    ensures var s := After(ttl, moves);
            && ((s.g.pc.AwaitingGo? || s.g.pc.Armed?) && (s.g.received != s.w.signals || !WatcherAlive(s.w)) ==>
                  Enabled(s, G(Hear)))
            && (s.g.pc.Armed? ==> s.g.tickets != [])
            && (s.g.pc.Armed? && s.g.tickets[|s.g.tickets| - 1].expiry <= s.now ==> Enabled(s, G(Expire)))
            && (s.g.pc.Armed? && AsksForTicket(s.m) ==> Enabled(s, G(Serve)))
            && (s.g.pc.Arming? ==> Enabled(s, G(Arm(ok))))
            && (s.g.pc.Patching? ==> Enabled(s, G(Patch(ok))))
            && (s.g.pc.Deleting? ==> Enabled(s, G(Delete(ok))))
  {
    PendingKnown(ttl, moves);
    RequestsHold(ttl, moves);
    var s := After(ttl, moves);
    assert CollectorAlive(s.g) && s.g.status == [] ==> s.g.received + s.g.status == s.g.received;
  }

  // ----- the shim

  lemma WaitKnown(ttl: nat, moves: seq<Move>)
    requires IsRun(ttl, moves)
    ensures var s := After(ttl, moves); WaitInv(s.h, s.m) && ShimInv(s.w, s.h)
  {
    InvHolds(ttl, moves);
  }

  lemma ShimIsPrompt(ttl: nat, moves: seq<Move>)
    requires IsRun(ttl, moves)
    ensures var s := After(ttl, moves);
            && (s.h.pc.AwaitingResult? && (s.w.attempts != [] || !WatcherAlive(s.w)) ==> Enabled(s, H(TakeResult)))
            && (s.h.pc.AtBarrier? && s.h.deadline <= s.now ==> Enabled(s, H(LosePatience)))
            && (s.h.pc.AtBarrier? && ClientCame(s.m) ==> Enabled(s, H(ShimPasses)))
            && (s.h.pc.Forwarding? ==> Enabled(s, H(Forward)))
  {
    WaitKnown(ttl, moves);
  }

  lemma OnlyTakingSetsDeadline(s: System, move: Move)
    requires Enabled(s, move)
    ensures Apply(s, move).h.deadline == if move == H(TakeResult) then s.now + 60_000 else s.h.deadline
    ensures !s.h.pc.AwaitingResult? ==> !Apply(s, move).h.pc.AwaitingResult?
    ensures move == H(TakeResult) ==> s.h.pc.AwaitingResult? && !Apply(s, move).h.pc.AwaitingResult?
  {
    match move
    case W(w) => WatcherFrame(s, w);
    case C(c) => CheckerFrame(s, c);
    case G(g) => CollectorFrame(s, g);
    case K(k) => ClientFrame(s, k);
    case _ =>
  }

  /** The shim's patience ends sixty seconds after it took the result, no sooner and no later. */
  lemma {:induction false} PatienceIsExact(ttl: nat, moves: seq<Move>, n: nat)
    requires IsRun(ttl, moves) && n < |moves| && moves[n] == H(TakeResult)
    ensures IsRun(ttl, moves[..n]) && After(ttl, moves).h.deadline == After(ttl, moves[..n]).now + 60_000
    ensures !After(ttl, moves).h.pc.AwaitingResult?
    decreases |moves|
  {
    var (before, last) := (moves[..|moves| - 1], moves[|moves| - 1]);
    OnlyTakingSetsDeadline(After(ttl, before), last);
    if n < |moves| - 1 {
      PatienceIsExact(ttl, before, n);
      assert before[..n] == moves[..n];
    }
  }

  // ----- clients

  lemma ClientIsPrompt(ttl: nat, moves: seq<Move>)
    requires IsRun(ttl, moves)
    ensures var s := After(ttl, moves);
            && (s.m.registered && (WatcherAlive(s.w) || CollectorAlive(s.g) || ShimAlive(s.h)) ==> Enabled(s, K(Get)))
            && (s.m.client.Idle? && s.m.holders > 0 ==> Enabled(s, K(CallWait)) && Enabled(s, K(CallRefresh)))
            && (s.m.client.InBarrier? && ShimCame(s.h) ==> Enabled(s, K(ClientPasses)))
            && (s.m.client.Receiving? && s.h.pc.Over? ==> Enabled(s, K(Receive)))
            && (s.m.client.Requesting? ==> Enabled(s, K(Request)))
            && (s.m.client.AwaitingTicket? && (s.m.reply.Some? || !CollectorAlive(s.g)) ==> Enabled(s, K(Collect)))
  {
    WaitKnown(ttl, moves);
    PendingKnown(ttl, moves);
    EntryFollowsTasks(ttl, moves);
  }

  /**
  No refresh hangs on its own account: a client that asks for a ticket can ask, take its answer, or
  be served, unless the collector is at something that it can itself get on with or waits for the go-ahead.
   */
  lemma RefreshNeverHangs(ttl: nat, moves: seq<Move>, ok: bool)
    requires IsRun(ttl, moves)
    requires After(ttl, moves).m.client.Requesting? || After(ttl, moves).m.client.AwaitingTicket?
    ensures var s := After(ttl, moves);
            || Enabled(s, K(Request)) || Enabled(s, K(Collect)) || Enabled(s, G(Serve))
            || Enabled(s, G(Arm(ok))) || Enabled(s, G(Patch(ok))) || Enabled(s, G(Delete(ok)))
            || s.g.pc.AwaitingGo?
  {
    ClientIsPrompt(ttl, moves);
    CollectorIsPrompt(ttl, moves, ok);
  }

  // ----- a ticket for every pod handed out

  function PodsIn(outcomes: seq<Verdict>): nat {
    if outcomes == [] then 0
    else PodsIn(outcomes[..|outcomes| - 1]) + if outcomes[|outcomes| - 1].Ok? then 1 else 0
  }

  lemma PodsOfLonger(outcomes: seq<Verdict>, verdict: Verdict)
    ensures PodsIn(outcomes + [verdict]) == PodsIn(outcomes) + if verdict.Ok? then 1 else 0
  {
    assert (outcomes + [verdict])[..|outcomes|] == outcomes;
  }

  /** A handler that has been given a pod is yet to get its ticket. */
  function Owed(client: ClientPc): nat {
    if (client.Requesting? || client.AwaitingTicket?) && client.pod.Some? then 1 else 0
  }

  predicate Balanced(m: Manager) { PodsIn(m.outcomes) == |m.leases| + Owed(m.client) }

  ghost predicate Balance(s: System) { CollectorAlive(s.g) ==> Balanced(s.m) }

  /** What a call of `wait` that returns does to the books. */
  ghost predicate Returns(m: Manager, after: Manager, verdict: Verdict) {
    && after.outcomes == m.outcomes + [verdict] && after.leases == m.leases
    && Owed(after.client) == if verdict.Ok? then 1 else 0
  }

  lemma ReturnBalances(m: Manager, after: Manager, verdict: Verdict)
    requires Balanced(m) && Owed(m.client) == 0 && Returns(m, after, verdict)
    ensures Balanced(after)
  {
    PodsOfLonger(m.outcomes, verdict);
  }

  lemma ReceiveBalances(s: System)
    requires Balanced(s.m) && ClientEnabled(s, Receive)
    ensures Balanced(ApplyClient(s, Receive).m)
  {
    var verdict := if s.h.outbox != [] then s.h.outbox[0] else Err(InboundResultChannelDropped);
    assert Returns(s.m, ApplyClient(s, Receive).m, verdict);
    ReturnBalances(s.m, ApplyClient(s, Receive).m, verdict);
  }

  lemma RememberedBalances(s: System)
    requires Balanced(s.m) && ClientEnabled(s, CallWait) && s.m.phantom.Some?
    ensures Balanced(ApplyClient(s, CallWait).m)
  {
    assert Returns(s.m, ApplyClient(s, CallWait).m, s.m.phantom.value);
    ReturnBalances(s.m, ApplyClient(s, CallWait).m, s.m.phantom.value);
  }

  lemma ArrivalBalances(s: System)
    requires Balanced(s.m) && ClientEnabled(s, CallWait) && s.m.phantom.None?
    ensures Balanced(ApplyClient(s, CallWait).m)
  {
  }

  lemma WaitBalances(s: System, move: ClientMove)
    requires Balanced(s.m) && ClientEnabled(s, move) && (move.CallWait? || move.Receive?)
    ensures Balanced(ApplyClient(s, move).m)
  {
    if move.Receive? {
      ReceiveBalances(s);
    } else if s.m.phantom.Some? {
      RememberedBalances(s);
    } else {
      ArrivalBalances(s);
    }
  }

  /** Until the collector is gone, what a handler takes away is a ticket. */
  lemma TicketBalances(s: System, move: ClientMove)
    requires Balanced(s.m) && ClientEnabled(s, move) && !move.CallWait? && !move.Receive? && CollectorAlive(s.g)
    ensures Balanced(ApplyClient(s, move).m)
  {
  }

  lemma ClientBalances(s: System, move: ClientMove)
    requires Balance(s) && ClientEnabled(s, move)
    ensures Balance(ApplyClient(s, move))
  {
    ClientFrame(s, move);
    if CollectorAlive(s.g) {
      if move.CallWait? || move.Receive? {
        WaitBalances(s, move);
      } else {
        TicketBalances(s, move);
      }
    }
  }

  lemma BalanceStep(s: System, move: Move)
    requires Balance(s) && Enabled(s, move)
    ensures Balance(Apply(s, move))
  {
    match move
    case W(w) => WatcherFrame(s, w);
    case C(c) => CheckerFrame(s, c);
    case G(g) => CollectorFrame(s, g);
    case H(h) => ShimFrame(s, h);
    case K(k) => ClientBalances(s, k);
    case _ =>
  }

  /**
  Conservation: as long as the collector lives, every pod that `wait` has handed out went to its client
  with a ticket, or belongs to the one handler that is just getting it.
   */
  lemma {:induction false} EveryPodGetsATicket(ttl: nat, moves: seq<Move>)
    requires IsRun(ttl, moves)
    ensures Balance(After(ttl, moves))
    decreases |moves|
  {
    if moves != [] {
      EveryPodGetsATicket(ttl, moves[..|moves| - 1]);
      BalanceStep(After(ttl, moves[..|moves| - 1]), moves[|moves| - 1]);
    }
  }

  // ----- every handler makes its one call

  function Gets(moves: seq<Move>): nat {
    if moves == [] then 0 else Gets(moves[..|moves| - 1]) + if moves[|moves| - 1] == K(Get) then 1 else 0
  }

  function Calls(moves: seq<Move>): nat {
    if moves == [] then 0
    else Calls(moves[..|moves| - 1]) + if moves[|moves| - 1] in {K(CallWait), K(CallRefresh)} then 1 else 0
  }

  lemma CallsHold(s: System, move: ClientMove)
    requires ClientEnabled(s, move) && (move.Get? || move.CallWait? || move.CallRefresh?)
    ensures ApplyClient(s, move).m.holders == if move.Get? then s.m.holders + 1 else s.m.holders - 1
  {
  }

  lemma RestHolds(s: System, move: ClientMove)
    requires ClientEnabled(s, move) && !move.Get? && !move.CallWait? && !move.CallRefresh?
    ensures ApplyClient(s, move).m.holders == s.m.holders
  {
  }

  lemma HolderStep(s: System, move: Move)
    requires Enabled(s, move)
    ensures Apply(s, move).m.holders + (if move in {K(CallWait), K(CallRefresh)} then 1 else 0)
            == s.m.holders + (if move == K(Get) then 1 else 0)
  {
    match move
    case W(w) => WatcherFrame(s, w);
    case C(c) => CheckerFrame(s, c);
    case G(g) => CollectorFrame(s, g);
    case H(h) => ShimFrame(s, h);
    case K(k) =>
      if k.Get? || k.CallWait? || k.CallRefresh? {
        CallsHold(s, k);
      } else {
        RestHolds(s, k);
      }
    case _ =>
  }

  /** Handlers that got hold of the manager are those still waiting for its lock and those that made their call. */
  lemma {:induction false} HandlersAreConserved(ttl: nat, moves: seq<Move>)
    requires IsRun(ttl, moves)
    ensures Gets(moves) == After(ttl, moves).m.holders + Calls(moves)
    decreases |moves|
  {
    if moves != [] {
      HandlersAreConserved(ttl, moves[..|moves| - 1]);
      HolderStep(After(ttl, moves[..|moves| - 1]), moves[|moves| - 1]);
    }
  }
}
