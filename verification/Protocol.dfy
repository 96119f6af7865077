/**
The pod-manager protocol of k8s/service/acm/src/podmanager: one deployed pod, the four tasks
that serve it, the clients that call on it, and the cache entry they find it by.

A system state holds one program counter per task. A channel is the sequence of messages in
flight; its two ends are open for as long as the coroutine that owns them is alive, as Rust
drops them with it. A move is what one task does between two awaits. Clock, Kubernetes,
network and clients are moves too, and any enabled move may come next. A task that panics does
so by a move of its own.
 */
module Protocol {
  import opened Wrappers
  import opened Pods
  import Watcher

  // ----- messages

  type Item = Watcher.Item<PodBody>

  datatype Failure =
    | KubernetesUnresponsive
    | UnexpectedCloseOfEventStream
    | PodDeleted
    | PodRebooted
    | PodCrashed
    | ImagePull(message: string)
    | GarbageCollectorUnresponsive
    | NoAddress(error: AddressError)
    | EndpointParse
    | HealthCheckDroppedItsChannel
    | TooManyFailures
    | NotReady
    | InboundResultChannelDropped
    | PhantomError

  /** What a client of `wait` is told. */
  type Verdict = Result<Pod, Failure>

  datatype GcStatus = GoRunning(pod: Pod) | GoTerminated

  datatype Health = Healthy | Ill(failure: Failure)

  datatype Ticket = Ticket(created: nat, expiry: nat)

  /** Capacity of the channel from the event watcher to the garbage collector. */
  const STATUS_CAPACITY := 100
  /** Capacity of both result channels and of the refresh channel. */
  const SINGLE := 1
  /** Milliseconds the shim waits for a client. The clock and the TTL count milliseconds too. */
  const PATIENCE := 60_000

  // ----- tasks

  /** `EventWatcherDaemon::watch`, by the await it is at. */
  datatype WatcherPc =
    | Phase1 | Asleep1 | Announcing
    | Phase2 | Asleep2 | Killing(failure: Failure) | Joining(health: Health) | Reporting
    | Phase3 | Asleep3 | Closing
    | Failing(failure: Failure) | StoppingGc | DeletingPod
    | Returned
    | WatcherPanicked

  /**
  `stream` is the list/watch machine being polled and `pod` the last pod seen running.
  History: every signal and result it tried to send, and where in the log it saw `pod` run.
   */
  datatype WatcherTask = WatcherTask(
    pc: WatcherPc,
    stream: Watcher.State,
    pod: Option<Pod>,
    signals: seq<GcStatus>,
    attempts: seq<Verdict>,
    seenAt: nat)

  datatype PanicCause = Injected | SendFailed | NoErrorRecorded

  /** `ServerCheck::check`: how often it has asked for a delay, and whether it has an error to show. */
  datatype CheckerPc =
    | Unborn
    | Deciding(asked: nat, failed: bool)
    | Pausing(asked: nat, failed: bool)
    | Connecting(asked: nat, failed: bool)
    | Finished
    | CheckerPanicked(cause: PanicCause)

  /** History: how often the handle was consumed by `kill` or `join`, and where it connected. */
  datatype CheckerTask = CheckerTask(
    pc: CheckerPc,
    endpoint: Option<(string, string, int)>,
    sigint: bool,
    outcome: Option<Health>,
    uses: nat,
    connectedAt: nat)

  datatype Cause = TimedOut | Orphaned

  /** `GarbageCollectorDaemon::gc`. */
  datatype CollectorPc =
    | AwaitingGo
    | Arming
    | Patching
    | Armed
    | Deleting(cause: Cause)
    | Exited
    | CollectorPanicked

  /** `executionDate` is the label recorded on the pod. History: signals taken, tickets issued. */
  datatype CollectorTask = CollectorTask(
    pc: CollectorPc,
    ttl: nat,
    status: seq<GcStatus>,
    requests: nat,
    ticket: Ticket,
    executionDate: Option<nat>,
    received: seq<GcStatus>,
    tickets: seq<Ticket>)

  /** The shim task of `PodManagerUpperHandle::new`. */
  datatype ShimPc =
    | AwaitingResult
    | AtBarrier(released: bool)
    | Forwarding
    | Over

  /** `inbox` and `outbox` are its two channels; `arrived` counts arrivals at the two-party barrier. */
  datatype ShimTask = ShimTask(
    pc: ShimPc,
    inbox: seq<Verdict>,
    outbox: seq<Verdict>,
    verdict: Verdict,
    deadline: nat,
    arrived: nat)

  /**
  The one HTTP handler that holds the manager's lock. `pod` is what `wait` gave the handler
  (nothing, for the refresh endpoint) and `asked` the moment it turned to the collector.
   */
  datatype ClientPc =
    | Idle
    | InBarrier(released: bool)
    | Receiving
    | Requesting(pod: Option<Pod>, asked: nat)
    | AwaitingTicket(pod: Option<Pod>, asked: nat)

  datatype Lease = Lease(pod: Pod, ticket: Ticket)
  datatype Refreshed = Refreshed(asked: nat, ticket: Option<Ticket>)

  /**
  The `PodManager` and its place in the cache. `holders` counts handlers that have fetched it
  and wait for its lock. History: outcomes of `wait` on the handle, and what the two endpoints
  returned; `registeredAt` and `late` (registered only after the cleanup had already run).
   */
  datatype Manager = Manager(
    client: ClientPc,
    phantom: Option<Verdict>,
    reply: Option<Ticket>,
    registered: bool,
    cached: bool,
    cleaned: bool,
    holders: nat,
    outcomes: seq<Verdict>,
    leases: seq<Lease>,
    refreshes: seq<Refreshed>,
    registeredAt: nat,
    late: bool)

  // ----- the run's log

  datatype Act =
    | Consumed(item: Item)
    | Connected(endpoint: (string, string, int), at: nat)
    | Reported(verdict: Verdict)
    | WaitReturned(verdict: Verdict)

  datatype Delete = ByWatcher(at: nat) | ByCollector(cause: Cause, at: nat)

  /** The branches that the code's own comments call bugs or state machine violations. */
  datatype Alarm =
    | StatusClosedAlarm
    | SuperfluousRunningAlarm
    | RefreshClosedAlarm
    | CollectorGoneAlarm
    | CheckerGoneAlarm
    | UpstreamClosedAlarm
    | InboundDroppedAlarm
    | StreamEndedAlarm

  datatype System = System(
    now: nat,
    w: WatcherTask,
    c: CheckerTask,
    g: CollectorTask,
    h: ShimTask,
    m: Manager,
    log: seq<Act>,
    deletes: seq<Delete>,
    alarms: set<Alarm>)

  predicate WatcherAlive(w: WatcherTask) { !w.pc.Returned? && !w.pc.WatcherPanicked? }
  predicate CheckerDone(c: CheckerTask) { c.pc.Finished? || c.pc.CheckerPanicked? }
  predicate CollectorAlive(g: CollectorTask) { !g.pc.Exited? && !g.pc.CollectorPanicked? }
  predicate ShimAlive(h: ShimTask) { !h.pc.Over? }

  /** The manager is a local of `new_podmanager`, then the cache's, then any handler's that still holds it. */
  predicate ManagerAlive(m: Manager) { !m.registered || m.cached || m.holders > 0 || !m.client.Idle? }

  function Initial(ttl: nat): System {
    System(
      0,
      WatcherTask(Phase1, Watcher.Empty, None, [], [], 0),
      CheckerTask(Unborn, None, false, None, 0, 0),
      CollectorTask(AwaitingGo, ttl, [], 0, Ticket(0, 0), None, [], []),
      ShimTask(AwaitingResult, [], [], Err(InboundResultChannelDropped), 0, 0),
      Manager(Idle, None, None, false, false, false, 0, [], [], [], 0, false),
      [], [], {})
  }

  // ----- the event watcher

  datatype WatcherMove =
    | Poll(response: Watcher.Response<PodBody>, giveUp: bool)
    | Wake
    | Announce(parses: bool)
    | HearChecker
    | CheckerOver
    | Report
    | SendFailure
    | StopGc
    | DeletePod
    | PanicWatcher

  /** Phase 1, by the item it is handed; `giveUp` is `next_backoff` returning `None`. */
  function OnPhase1(item: Option<Item>, giveUp: bool): WatcherPc {
    match item
    case None => Failing(UnexpectedCloseOfEventStream)
    case Some(Err(_)) => if giveUp then Failing(KubernetesUnresponsive) else Asleep1
    case Some(Ok(Added(_))) => Phase1
    case Some(Ok(Deleted(_))) => Failing(PodDeleted)
    case Some(Ok(Restarted(_))) => Phase1
    case Some(Ok(Applied(p))) =>
      if Running(p) then Announcing
      else if Terminated(p) || Crashed(p) then Failing(PodCrashed)
      else if WasErrImagePull(p) then
        match ErrImagePull(p)
        case Problem(message) => Failing(ImagePull(message))
        case _ => WatcherPanicked
      else Phase1
  }

  function OnPhase2(item: Option<Item>, giveUp: bool): WatcherPc {
    match item
    case None => Killing(UnexpectedCloseOfEventStream)
    case Some(Err(_)) => if giveUp then Killing(KubernetesUnresponsive) else Asleep2
    case Some(Ok(Deleted(_))) => Killing(PodDeleted)
    case Some(Ok(Restarted(_))) => Killing(PodRebooted)
    case Some(Ok(_)) => Phase2
  }

  function OnPhase3(item: Option<Item>, giveUp: bool): WatcherPc {
    match item
    case None => Failing(UnexpectedCloseOfEventStream)
    case Some(Err(_)) => if giveUp then Failing(KubernetesUnresponsive) else Asleep3
    case Some(Ok(Deleted(_))) => Closing
    case Some(Ok(Restarted(_))) => Failing(PodRebooted)
    case Some(Ok(_)) => Phase3
  }

  predicate InPhase(pc: WatcherPc) { pc.Phase1? || pc.Phase2? || pc.Phase3? }

  function OnItem(pc: WatcherPc, item: Option<Item>, giveUp: bool): WatcherPc
    requires InPhase(pc)
  {
    match pc
    case Phase1 => OnPhase1(item, giveUp)
    case Phase2 => OnPhase2(item, giveUp)
    case Phase3 => OnPhase3(item, giveUp)
  }

  predicate WatcherEnabled(s: System, move: WatcherMove) {
    match move
    case Poll(response, _) => InPhase(s.w.pc) && Watcher.Answers(s.w.stream, response)
    case Wake => s.w.pc.Asleep1? || s.w.pc.Asleep2? || s.w.pc.Asleep3?
    case Announce(_) => s.w.pc.Announcing? && s.w.pod.Some? && CanSignal(s.g)
    case HearChecker => s.w.pc.Phase2? && (s.c.outcome.Some? || CheckerDone(s.c))
    case CheckerOver => (s.w.pc.Killing? || s.w.pc.Joining?) && CheckerDone(s.c)
    case Report => s.w.pc.Reporting? && s.w.pod.Some? && CanReport(s.h)
    case SendFailure => s.w.pc.Failing? && CanReport(s.h)
    case StopGc => (s.w.pc.StoppingGc? || s.w.pc.Closing?) && CanSignal(s.g)
    case DeletePod => s.w.pc.DeletingPod?
    case PanicWatcher => WatcherAlive(s.w)
  }

  /** A send on a full channel waits; on a channel whose receiver is gone it fails at once. */
  predicate CanSignal(g: CollectorTask) { !CollectorAlive(g) || |g.status| < STATUS_CAPACITY }
  predicate CanReport(h: ShimTask) { !ShimAlive(h) || |h.inbox| < SINGLE }

  function Signal(g: CollectorTask, signal: GcStatus): CollectorTask {
    if CollectorAlive(g) then g.(status := g.status + [signal]) else g
  }

  function Send(h: ShimTask, verdict: Verdict): ShimTask {
    if ShimAlive(h) then h.(inbox := h.inbox + [verdict]) else h
  }

  function ApplyWatcher(s: System, move: WatcherMove): System
    requires WatcherEnabled(s, move)
  {
    var w := s.w;
    match move
    case Poll(response, giveUp) => ApplyPoll(s, response, giveUp)
    case Wake =>
      s.(w := w.(pc := if w.pc.Asleep1? then Phase1 else if w.pc.Asleep2? then Phase2 else Phase3))
    case Announce(parses) =>
      ApplyAnnounce(s, parses)
    case HearChecker =>
      if s.c.outcome.Some? then s.(w := w.(pc := Joining(s.c.outcome.value)))
      else s.(w := w.(pc := Joining(Ill(HealthCheckDroppedItsChannel))), alarms := s.alarms + {CheckerGoneAlarm})
    case CheckerOver =>
      var pc :=
        match w.pc
        case Killing(failure) => Failing(failure)
        case Joining(Ill(failure)) => Failing(failure)
        case _ => Reporting;
      s.(w := w.(pc := pc), c := s.c.(uses := s.c.uses + 1))
    case Report =>
      var verdict := Ok(w.pod.value);
      var s := s.(h := Send(s.h, verdict), log := s.log + [Reported(verdict)],
                  alarms := if ShimAlive(s.h) then s.alarms else s.alarms + {UpstreamClosedAlarm});
      s.(w := w.(pc := if ShimAlive(s.h) then Phase3 else StoppingGc, attempts := w.attempts + [verdict]))
    case SendFailure =>
      var verdict := Err(w.pc.failure);
      s.(w := w.(pc := StoppingGc, attempts := w.attempts + [verdict]), h := Send(s.h, verdict),
         log := s.log + [Reported(verdict)])
    case StopGc =>
      s.(w := w.(pc := if w.pc.StoppingGc? then DeletingPod else Returned, signals := w.signals + [GoTerminated]),
         g := Signal(s.g, GoTerminated))
    case DeletePod =>
      s.(w := w.(pc := Returned), deletes := s.deletes + [ByWatcher(s.now)])
    case PanicWatcher =>
      s.(w := w.(pc := WatcherPanicked))
  }

  /** One trampolined step of the stream; the watcher only notices when it emits something. */
  function ApplyPoll(s: System, response: Watcher.Response<PodBody>, giveUp: bool): System
    requires WatcherEnabled(s, Poll(response, giveUp))
  {
    var (item, next) := Watcher.StepTrampolined(s.w.stream, response);
    if item.None? then s.(w := s.w.(stream := next)) else Hand(s.(w := s.w.(stream := next)), item, giveUp)
  }

  /** The watcher is handed an item of the stream, or the end of it. */
  function Hand(s: System, item: Option<Item>, giveUp: bool): System
    requires InPhase(s.w.pc)
  {
    var pc := OnItem(s.w.pc, item, giveUp);
    var w := s.w.(pc := pc);
    s.(w := if pc.Announcing? then w.(pod := Some(item.value.value.obj), seenAt := |s.log|) else w,
       c := if pc.Killing? then s.c.(sigint := true) else s.c,
       log := if item.Some? then s.log + [Consumed(item.value)] else s.log,
       alarms := if item.None? then s.alarms + {StreamEndedAlarm} else s.alarms)
  }

  /** Signal the collector, then `ServerCheck::new`: both happen before the next await. */
  function ApplyAnnounce(s: System, parses: bool): System
    requires WatcherEnabled(s, Announce(parses))
  {
    var pod := s.w.pod.value;
    var w := s.w.(signals := s.w.signals + [GoRunning(pod)]);
    if !CollectorAlive(s.g) then
      s.(w := w.(pc := Failing(GarbageCollectorUnresponsive)), alarms := s.alarms + {CollectorGoneAlarm})
    else
      var s := s.(g := Signal(s.g, GoRunning(pod)));
      match Address(pod)
      case Err(error) => s.(w := w.(pc := Failing(NoAddress(error))))
      case Ok(endpoint) =>
        if !parses then s.(w := w.(pc := Failing(EndpointParse)))
        else s.(w := w.(pc := Phase2), c := s.c.(pc := Deciding(0, false), endpoint := Some(endpoint)))
  }

  // ----- the health checker

  datatype CheckerMove =
    | AskBackoff(delay: bool)
    | PauseOver
    | Interrupt
    | Connect(ok: bool)
    | RunOutOfTime
    | PanicChecker

  predicate CheckerEnabled(s: System, move: CheckerMove) {
    match move
    // The first call of `next_backoff` on a fresh policy always grants a delay.
    case AskBackoff(delay) => s.c.pc.Deciding? && (delay || s.c.pc.asked > 0)
    case PauseOver => s.c.pc.Pausing?
    case Interrupt => (s.c.pc.Pausing? || s.c.pc.Connecting?) && SigintFired(s)
    case Connect(_) => s.c.pc.Connecting? && s.c.endpoint.Some?
    case RunOutOfTime => s.c.pc.Connecting?
    case PanicChecker => !s.c.pc.Unborn? && !CheckerDone(s.c)
  }

  /** The interrupt is sent by `kill`, and also resolves when the watcher dies and drops the sender. */
  predicate SigintFired(s: System) { s.c.sigint || !WatcherAlive(s.w) }

  function SendHealth(s: System, health: Health): CheckerTask {
    if WatcherAlive(s.w) then s.c.(pc := Finished, outcome := Some(health))
    else s.c.(pc := CheckerPanicked(SendFailed))
  }

  function ApplyChecker(s: System, move: CheckerMove): System
    requires CheckerEnabled(s, move)
  {
    var c := s.c;
    match move
    case AskBackoff(delay) =>
      if delay then s.(c := c.(pc := Pausing(c.pc.asked + 1, c.pc.failed)))
      else if c.pc.failed then s.(c := SendHealth(s, Ill(TooManyFailures)))
      else s.(c := c.(pc := CheckerPanicked(NoErrorRecorded)))
    case PauseOver => s.(c := c.(pc := Connecting(c.pc.asked, c.pc.failed)))
    case Interrupt => s.(c := c.(pc := Finished))
    case Connect(ok) =>
      if ok then s.(c := SendHealth(s, Healthy).(connectedAt := |s.log|),
                    log := s.log + [Connected(c.endpoint.value, s.now)])
      else s.(c := c.(pc := Deciding(c.pc.asked, true)))
    case RunOutOfTime => s.(c := SendHealth(s, Ill(NotReady)))
    case PanicChecker => s.(c := c.(pc := CheckerPanicked(Injected)))
  }

  // ----- the garbage collector

  datatype CollectorMove =
    | Hear
    | Arm(configured: bool)
    | Patch(ok: bool)
    | Serve
    | Expire
    | Delete(ok: bool)

  predicate CollectorEnabled(s: System, move: CollectorMove) {
    match move
    case Hear => (s.g.pc.AwaitingGo? || s.g.pc.Armed?) && (s.g.status != [] || !WatcherAlive(s.w))
    case Arm(_) => s.g.pc.Arming?
    case Patch(_) => s.g.pc.Patching?
    case Serve => s.g.pc.Armed? && (s.g.requests > 0 || !ManagerAlive(s.m))
    case Expire => s.g.pc.Armed? && s.g.ticket.expiry <= s.now
    case Delete(_) => s.g.pc.Deleting?
  }

  function NewTicket(s: System): Ticket {
    Ticket(s.now, s.now + s.g.ttl)
  }

  function ApplyCollector(s: System, move: CollectorMove): System
    requires CollectorEnabled(s, move)
  {
    var g := s.g;
    match move
    case Hear => ApplyHear(s)
    // Making a client panics if its configuration cannot be read from the environment.
    case Arm(configured) =>
      if configured then s.(g := g.(pc := Patching, ticket := NewTicket(s), tickets := g.tickets + [NewTicket(s)]))
      else s.(g := g.(pc := CollectorPanicked))
    case Patch(ok) =>
      s.(g := if ok then g.(pc := Armed, executionDate := Some(g.ticket.expiry)) else g.(pc := CollectorPanicked))
    case Serve =>
      if g.requests > 0 then
        s.(g := g.(pc := Patching, requests := g.requests - 1,
                   ticket := NewTicket(s), tickets := g.tickets + [NewTicket(s)]),
           m := s.m.(reply := Some(NewTicket(s))))
      else s.(alarms := s.alarms + {RefreshClosedAlarm})
    case Expire =>
      s.(g := g.(pc := Deleting(TimedOut)))
    case Delete(ok) =>
      s.(g := g.(pc := if ok then Exited else CollectorPanicked),
         deletes := s.deletes + [ByCollector(g.pc.cause, s.now)])
  }

  function ApplyHear(s: System): System
    requires CollectorEnabled(s, Hear)
  {
    var g := s.g;
    if g.status == [] then
      s.(g := g.(pc := if g.pc.AwaitingGo? then Exited else Deleting(Orphaned)),
         alarms := s.alarms + {StatusClosedAlarm})
    else
      var signal := g.status[0];
      var heard := g.(status := g.status[1..], received := g.received + [signal]);
      if signal.GoTerminated? then s.(g := heard.(pc := Exited))
      else if g.pc.AwaitingGo? then s.(g := heard.(pc := Arming))
      else s.(g := heard, alarms := s.alarms + {SuperfluousRunningAlarm})
  }

  // ----- the shim

  datatype ShimMove =
    | TakeResult
    | LosePatience
    | ShimPasses
    | Forward

  predicate ShimEnabled(s: System, move: ShimMove) {
    match move
    case TakeResult => s.h.pc.AwaitingResult? && (s.h.inbox != [] || !WatcherAlive(s.w))
    case LosePatience => s.h.pc.AtBarrier? && s.h.deadline <= s.now
    case ShimPasses => s.h.pc.AtBarrier? && s.h.pc.released
    case Forward => s.h.pc.Forwarding? && (!ManagerAlive(s.m) || |s.h.outbox| < SINGLE)
  }

  /** An arrival at the barrier releases both parties if the other has already arrived. */
  function ShimArrives(s: System): System {
    if s.h.arrived > 0 then
      s.(h := s.h.(pc := AtBarrier(true), arrived := 0),
         m := if s.m.client.InBarrier? then s.m.(client := InBarrier(true)) else s.m)
    else s.(h := s.h.(pc := AtBarrier(false), arrived := 1))
  }

  function ClientArrives(s: System): System {
    if s.h.arrived > 0 then
      s.(m := s.m.(client := InBarrier(true)),
         h := s.h.(arrived := 0, pc := if s.h.pc.AtBarrier? then AtBarrier(true) else s.h.pc))
    else s.(m := s.m.(client := InBarrier(false)), h := s.h.(arrived := 1))
  }

  function ApplyShim(s: System, move: ShimMove): System
    requires ShimEnabled(s, move)
  {
    var h := s.h;
    match move
    case TakeResult =>
      if h.inbox != [] then
        ShimArrives(s.(h := h.(inbox := h.inbox[1..], verdict := h.inbox[0], deadline := s.now + PATIENCE)))
      else
        ShimArrives(s.(h := h.(verdict := Err(InboundResultChannelDropped), deadline := s.now + PATIENCE),
                       alarms := s.alarms + {InboundDroppedAlarm}))
    case LosePatience => s.(h := h.(pc := Over))
    case ShimPasses => s.(h := h.(pc := Forwarding))
    case Forward => s.(h := h.(pc := Over, outbox := if ManagerAlive(s.m) then h.outbox + [h.verdict] else h.outbox))
  }

  // ----- clients

  datatype ClientMove =
    | Get
    | CallWait
    | CallRefresh
    | ClientPasses
    | Receive
    | Request
    | Collect

  predicate ClientEnabled(s: System, move: ClientMove) {
    match move
    case Get => s.m.cached
    case CallWait => s.m.client.Idle? && s.m.holders > 0
    case CallRefresh => s.m.client.Idle? && s.m.holders > 0
    case ClientPasses => s.m.client.InBarrier? && s.m.client.released
    case Receive => s.m.client.Receiving? && (s.h.outbox != [] || !ShimAlive(s.h))
    case Request => s.m.client.Requesting? && (!CollectorAlive(s.g) || s.g.requests < SINGLE)
    case Collect => s.m.client.AwaitingTicket? && (s.m.reply.Some? || !CollectorAlive(s.g))
  }

  /** What is kept of a result for later calls of `wait`. */
  function Memo(verdict: Verdict): Verdict {
    if verdict.Ok? then verdict else Err(PhantomError)
  }

  /** `wait` on the handle returns: the wait endpoint goes on to refresh, or gives up. */
  function WaitReturns(s: System, verdict: Verdict): System {
    s.(m := s.m.(client := if verdict.Ok? then Requesting(Some(verdict.value), s.now) else Idle,
                 outcomes := s.m.outcomes + [verdict]),
       log := s.log + [WaitReturned(verdict)])
  }

  /** The handler's answer once the collector has, or has not, given it a ticket. */
  function Answer(m: Manager, pod: Option<Pod>, asked: nat, ticket: Option<Ticket>): Manager {
    var m := m.(client := Idle, reply := None);
    if pod.None? then m.(refreshes := m.refreshes + [Refreshed(asked, ticket)])
    else if ticket.Some? then m.(leases := m.leases + [Lease(pod.value, ticket.value)])
    else m
  }

  function ApplyClient(s: System, move: ClientMove): System
    requires ClientEnabled(s, move)
  {
    var m := s.m;
    match move
    case Get => s.(m := m.(holders := m.holders + 1))
    case CallWait =>
      var s := s.(m := m.(holders := m.holders - 1));
      if m.phantom.Some? then WaitReturns(s, m.phantom.value) else ClientArrives(s)
    case CallRefresh =>
      s.(m := m.(holders := m.holders - 1, client := Requesting(None, s.now)))
    case ClientPasses => s.(m := m.(client := Receiving))
    case Receive =>
      var verdict := if s.h.outbox != [] then s.h.outbox[0] else Err(InboundResultChannelDropped);
      WaitReturns(s.(h := s.h.(outbox := if s.h.outbox != [] then s.h.outbox[1..] else []),
                     m := m.(phantom := Some(Memo(verdict)))),
                  verdict)
    case Request =>
      if CollectorAlive(s.g) then
        s.(g := s.g.(requests := s.g.requests + 1),
           m := m.(client := AwaitingTicket(m.client.pod, m.client.asked), reply := None))
      else s.(m := Answer(m, m.client.pod, m.client.asked, None))
    case Collect =>
      s.(m := Answer(m, m.client.pod, m.client.asked, m.reply))
  }

  // ----- registration, cleanup, and the whole system

  datatype Move =
    | Tick(elapsed: nat)
    | W(w: WatcherMove)
    | C(c: CheckerMove)
    | G(g: CollectorMove)
    | H(h: ShimMove)
    | K(k: ClientMove)
    | Register
    | Cleanup

  predicate Enabled(s: System, move: Move) {
    match move
    case Tick(_) => true
    case W(w) => WatcherEnabled(s, w)
    case C(c) => CheckerEnabled(s, c)
    case G(g) => CollectorEnabled(s, g)
    case H(h) => ShimEnabled(s, h)
    case K(k) => ClientEnabled(s, k)
    case Register => !s.m.registered
    case Cleanup => !s.m.cleaned && !WatcherAlive(s.w) && !CollectorAlive(s.g) && !ShimAlive(s.h)
  }

  function Apply(s: System, move: Move): System
    requires Enabled(s, move)
  {
    match move
    case Tick(elapsed) => s.(now := s.now + elapsed)
    case W(w) => ApplyWatcher(s, w)
    case C(c) => ApplyChecker(s, c)
    case G(g) => ApplyCollector(s, g)
    case H(h) => ApplyShim(s, h)
    case K(k) => ApplyClient(s, k)
    case Register => s.(m := s.m.(registered := true, cached := true, registeredAt := s.now, late := s.m.cleaned))
    case Cleanup => s.(m := s.m.(cleaned := true, cached := false))
  }

  predicate IsRun(ttl: nat, moves: seq<Move>)
    decreases |moves|, 0
  {
    moves != [] ==>
      && IsRun(ttl, moves[..|moves| - 1])
      && Enabled(After(ttl, moves[..|moves| - 1]), moves[|moves| - 1])
  }

  /** The state a run ends in. A state is reachable exactly when some run ends in it. */
  function After(ttl: nat, moves: seq<Move>): System
    requires IsRun(ttl, moves)
    decreases |moves|, 1
  {
    if moves == [] then Initial(ttl) else Apply(After(ttl, moves[..|moves| - 1]), moves[|moves| - 1])
  }
}
