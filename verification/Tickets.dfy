/**
Tickets, refreshes and deletions: what the garbage collector hands out, keeps and destroys.
 */
module Tickets {
  import opened Wrappers
  import Pods
  import opened Protocol
  import opened Frames

  /** Tickets are dated by the clock, so each outlasts the ones before it. */
  ghost predicate Dated(now: nat, ttl: nat, tickets: seq<Ticket>) {
    && (forall i :: 0 <= i < |tickets| ==> tickets[i].expiry == tickets[i].created + ttl && tickets[i].created <= now)
    && (forall i, j :: 0 <= i < j < |tickets| ==> tickets[i].created <= tickets[j].created)
  }

  /** The current ticket is the last one issued, and the pod's label follows it. */
  ghost predicate CurrentInv(now: nat, g: CollectorTask) {
    && (g.pc.AwaitingGo? || g.pc.Arming? ==> g.tickets == [])
    && (g.pc.Patching? || g.pc.Armed? || g.pc.Deleting? ==>
          g.tickets != [] && g.ticket == g.tickets[|g.tickets| - 1])
    && (g.pc.Armed? || g.pc.Deleting? ==> g.executionDate == Some(g.ticket.expiry))
    && (g.pc == Deleting(TimedOut) ==> g.ticket.expiry <= now)
  }

  /** A pod is timed out only when no ticket is good any more, and nothing is issued afterwards. */
  ghost predicate TimeoutInv(alive: bool, tickets: seq<Ticket>, deletes: seq<Delete>) {
    forall d :: d in deletes && d.ByCollector? ==>
      !alive && (d.cause.TimedOut? ==> forall i :: 0 <= i < |tickets| ==> tickets[i].expiry <= d.at)
  }

  /** At most one request is in flight; the reply to it is dated after it was made. */
  ghost predicate PendingInv(s: System) {
    && s.g.requests <= 1
    && (s.m.client.Requesting? || s.m.client.AwaitingTicket? ==> s.m.client.asked <= s.now)
    && (s.m.reply.Some? ==>
          s.m.client.AwaitingTicket? && s.m.client.asked <= s.m.reply.value.created && s.m.reply.value in s.g.tickets)
    && (CollectorAlive(s.g) && s.g.requests > 0 ==> s.m.client.AwaitingTicket? && s.m.reply.None?)
  }

  ghost predicate GivenInv(tickets: seq<Ticket>, refreshes: seq<Refreshed>, leases: seq<Lease>) {
    && (forall r :: r in refreshes && r.ticket.Some? ==> r.ticket.value in tickets && r.asked <= r.ticket.value.created)
    && (forall l :: l in leases ==> l.ticket in tickets)
  }

  ghost predicate TicketInv(s: System) {
    && Dated(s.now, s.g.ttl, s.g.tickets) && CurrentInv(s.now, s.g)
    && TimeoutInv(CollectorAlive(s.g), s.g.tickets, s.deletes)
    && PendingInv(s) && GivenInv(s.g.tickets, s.m.refreshes, s.m.leases)
  }

  // ----- tickets as a list

  lemma DatedGrows(now: nat, ttl: nat, tickets: seq<Ticket>)
    requires Dated(now, ttl, tickets)
    ensures Dated(now, ttl, tickets + [Ticket(now, now + ttl)])
  {
  }

  lemma GivenGrows(tickets: seq<Ticket>, ticket: Ticket, refreshes: seq<Refreshed>, leases: seq<Lease>)
    requires GivenInv(tickets, refreshes, leases)
    ensures GivenInv(tickets + [ticket], refreshes, leases)
  {
    assert forall t :: t in tickets ==> t in tickets + [ticket];
  }

  lemma TimeoutGrows(alive: bool, tickets: seq<Ticket>, deletes: seq<Delete>, d: Delete)
    requires TimeoutInv(true, tickets, deletes)
    requires d.ByCollector? ==>
             !alive && (d.cause.TimedOut? ==> forall i :: 0 <= i < |tickets| ==> tickets[i].expiry <= d.at)
    ensures TimeoutInv(alive, tickets, deletes + [d])
  {
  }

  // ----- the collector

  predicate Issues(s: System, move: CollectorMove) {
    move == Arm(true) || (move.Serve? && s.g.requests > 0)
  }

  /** What a move of the collector does to the tickets. */
  lemma CollectorIssues(s: System, move: CollectorMove)
    requires CollectorEnabled(s, move)
    ensures var t := ApplyCollector(s, move);
            && t.g.tickets == (if Issues(s, move) then s.g.tickets + [NewTicket(s)] else s.g.tickets)
            && t.m.refreshes == s.m.refreshes && t.m.leases == s.m.leases
            && t.deletes == (if move.Delete? then s.deletes + [ByCollector(s.g.pc.cause, s.now)] else s.deletes)
            && CollectorAlive(s.g)
            && (move.Delete? ==> !CollectorAlive(t.g))
  {
  }

  lemma CollectorKeepsCurrent(s: System, move: CollectorMove)
    requires CurrentInv(s.now, s.g) && CollectorEnabled(s, move)
    ensures var t := ApplyCollector(s, move); CurrentInv(t.now, t.g)
  {
  }

  lemma CollectorKeepsPending(s: System, move: CollectorMove)
    requires PendingInv(s) && CollectorEnabled(s, move)
    ensures PendingInv(ApplyCollector(s, move))
  {
    if move.Serve? && s.g.requests > 0 {
      var t := ApplyCollector(s, move);
      assert t.g.tickets[|s.g.tickets|] == NewTicket(s);
    }
  }

  lemma CollectorKeepsTickets(s: System, move: CollectorMove)
    requires TicketInv(s) && CollectorEnabled(s, move)
    ensures TicketInv(ApplyCollector(s, move))
  {
    CollectorKeepsCurrent(s, move);
    CollectorKeepsPending(s, move);
    CollectorIssues(s, move);
    CollectorFrame(s, move);
    DatedGrows(s.now, s.g.ttl, s.g.tickets);
    GivenGrows(s.g.tickets, NewTicket(s), s.m.refreshes, s.m.leases);
    if move.Delete? {
      TimeoutGrows(false, s.g.tickets, s.deletes, ByCollector(s.g.pc.cause, s.now));
    }
  }

  // ----- the clients

  lemma AnswerKeepsGiven(m: Manager, pod: Option<Pods.Pod>, asked: nat, ticket: Option<Ticket>, tickets: seq<Ticket>)
    requires GivenInv(tickets, m.refreshes, m.leases)
    requires ticket.Some? ==> ticket.value in tickets && asked <= ticket.value.created
    ensures var n := Answer(m, pod, asked, ticket); GivenInv(tickets, n.refreshes, n.leases)
  {
  }

  lemma OthersTakeNothing(s: System, move: ClientMove)
    requires ClientEnabled(s, move) && !move.Collect? && !move.Request?
    ensures var t := ApplyClient(s, move); t.m.refreshes == s.m.refreshes && t.m.leases == s.m.leases
  {
  }

  lemma ClientKeepsGiven(s: System, move: ClientMove)
    requires PendingInv(s) && GivenInv(s.g.tickets, s.m.refreshes, s.m.leases) && ClientEnabled(s, move)
    ensures var t := ApplyClient(s, move); GivenInv(s.g.tickets, t.m.refreshes, t.m.leases)
  {
    match move
    case Collect => AnswerKeepsGiven(s.m, s.m.client.pod, s.m.client.asked, s.m.reply, s.g.tickets);
    case Request => AnswerKeepsGiven(s.m, s.m.client.pod, s.m.client.asked, None, s.g.tickets);
    case _ => OthersTakeNothing(s, move);
  }

  lemma WaitKeepsPending(s: System, move: ClientMove)
    requires PendingInv(s) && ClientEnabled(s, move) && !move.Collect? && !move.Request?
    ensures PendingInv(ApplyClient(s, move))
  {
  }

  lemma RefreshKeepsPending(s: System, move: ClientMove)
    requires PendingInv(s) && ClientEnabled(s, move) && (move.Collect? || move.Request?)
    ensures PendingInv(ApplyClient(s, move))
  {
  }

  lemma ClientKeepsTickets(s: System, move: ClientMove)
    requires TicketInv(s) && ClientEnabled(s, move)
    ensures TicketInv(ApplyClient(s, move))
  {
    ClientFrame(s, move);
    if move.Collect? || move.Request? {
      RefreshKeepsPending(s, move);
    } else {
      WaitKeepsPending(s, move);
    }
    ClientKeepsGiven(s, move);
  }

  // ----- the others

  lemma WatcherKeepsTickets(s: System, move: WatcherMove)
    requires TicketInv(s) && WatcherEnabled(s, move)
    ensures TicketInv(ApplyWatcher(s, move))
  {
    WatcherFrame(s, move);
  }

  lemma ShimKeepsTickets(s: System, move: ShimMove)
    requires TicketInv(s) && ShimEnabled(s, move)
    ensures TicketInv(ApplyShim(s, move))
  {
    ShimFrame(s, move);
  }

  lemma CheckerKeepsTickets(s: System, move: CheckerMove)
    requires TicketInv(s) && CheckerEnabled(s, move)
    ensures TicketInv(ApplyChecker(s, move))
  {
    CheckerFrame(s, move);
  }

  lemma TicketStep(s: System, move: Move)
    requires TicketInv(s) && Enabled(s, move)
    ensures TicketInv(Apply(s, move))
  {
    match move
    case W(w) => WatcherKeepsTickets(s, w);
    case C(c) => CheckerKeepsTickets(s, c);
    case G(g) => CollectorKeepsTickets(s, g);
    case H(h) => ShimKeepsTickets(s, h);
    case K(k) => ClientKeepsTickets(s, k);
    case Tick(_) =>
    case Register =>
    case Cleanup =>
  }
}
