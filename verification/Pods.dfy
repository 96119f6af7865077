/**
The questions k8s/library/k8s/src/pod.rs asks about a pod, on the fields it looks at.
 */
module Pods {
  import opened Wrappers
  import Watcher

  datatype Waiting = Waiting(reason: Option<string>, message: Option<string>)

  datatype ContainerState = ContainerState(waiting: Option<Waiting>, running: bool, terminated: bool)

  datatype ContainerStatus = ContainerStatus(state: Option<ContainerState>)

  datatype PodStatus = PodStatus(ip: Option<string>, containers: Option<seq<ContainerStatus>>)

  /** `ports` holds the container ports of each container of the spec. */
  datatype PodBody = PodBody(
    namespace: Option<string>,
    ports: Option<seq<Option<seq<int>>>>,
    status: Option<PodStatus>)

  type Pod = Watcher.Object<PodBody>

  const ERR_IMAGE_PULL := "ErrImagePull"
  const CRASH_LOOP := "CrashLoopBackOff"

  function Statuses(pod: Pod): seq<ContainerStatus> {
    if pod.body.status.Some? && pod.body.status.value.containers.Some?
    then pod.body.status.value.containers.value
    else []
  }

  function StateOf(status: ContainerStatus): ContainerState {
    if status.state.Some? then status.state.value else ContainerState(None, false, false)
  }

  predicate Running(pod: Pod) {
    exists i :: 0 <= i < |Statuses(pod)| && StateOf(Statuses(pod)[i]).running
  }

  predicate Terminated(pod: Pod) {
    exists i :: 0 <= i < |Statuses(pod)| && StateOf(Statuses(pod)[i]).terminated
  }

  predicate WaitsFor(status: ContainerStatus, reason: string) {
    var waiting := StateOf(status).waiting;
    waiting.Some? && waiting.value.reason == Some(reason)
  }

  /** The first container that is waiting for the given reason, if any. */
  function FindWaiting(statuses: seq<ContainerStatus>, reason: string): (found: Option<ContainerStatus>)
    ensures found.Some? ==> found.value in statuses && WaitsFor(found.value, reason)
    ensures found.None? <==> forall status :: status in statuses ==> !WaitsFor(status, reason)
  {
    if statuses == [] then None
    else if WaitsFor(statuses[0], reason) then Some(statuses[0])
    else FindWaiting(statuses[1..], reason)
  }

  predicate Crashed(pod: Pod) {
    FindWaiting(Statuses(pod), CRASH_LOOP).Some?
  }

  predicate WasErrImagePull(pod: Pod) {
    FindWaiting(Statuses(pod), ERR_IMAGE_PULL).Some?
  }

  /** What a call to `err_image_pull` comes to: it may unwrap a message that is not there. */
  datatype PullCheck = NoProblem | Problem(message: string) | Panics

  function ErrImagePull(pod: Pod): PullCheck {
    var found := FindWaiting(Statuses(pod), ERR_IMAGE_PULL);
    if found.None? then NoProblem
    else
      var message := StateOf(found.value).waiting.value.message;
      if message.Some? then Problem(message.value) else Panics
  }

  /**
  The comment above the unwraps calls them safe. They are exactly when the first container
  that reports ErrImagePull also gives a message; on a pod for which `was_err_image_pull`
  holds, the caller's `expect_err` is safe in the same case and no other.
   */
  lemma {:induction false} ErrImagePullPanicsExactly(pod: Pod)
    ensures ErrImagePull(pod).Panics? <==>
              exists i :: 0 <= i < |Statuses(pod)| && IsFirstWaiting(Statuses(pod), ERR_IMAGE_PULL, i)
                          && StateOf(Statuses(pod)[i]).waiting.value.message.None?
    ensures WasErrImagePull(pod) ==> !ErrImagePull(pod).NoProblem?
  {
    FindWaitingIsFirst(Statuses(pod), ERR_IMAGE_PULL);
  }

  /**
  What `err_image_pull` tells: the message of the first container that reports ErrImagePull, if that
  has one; and nothing exactly when no container reports it.
   */
  lemma ErrImagePullTells(pod: Pod, message: string)
    ensures ErrImagePull(pod) == Problem(message) <==> FirstPullMessage(pod, Some(message))
    ensures ErrImagePull(pod).Panics? <==> FirstPullMessage(pod, None)
    ensures ErrImagePull(pod).NoProblem? <==>
              forall i :: 0 <= i < |Statuses(pod)| ==> !WaitsFor(Statuses(pod)[i], "ErrImagePull")
  {
    FindWaitingIsFirst(Statuses(pod), "ErrImagePull");
  }

  /** The first container that reports ErrImagePull does so with this message, or with none. */
  ghost predicate FirstPullMessage(pod: Pod, message: Option<string>) {
    exists i :: 0 <= i < |Statuses(pod)| && IsFirstWaiting(Statuses(pod), "ErrImagePull", i)
                && StateOf(Statuses(pod)[i]).waiting.value.message == message
  }

  /** A container of the pod, as far as the pod tells. */
  ghost predicate HasState(pod: Pod, state: ContainerState) {
    && pod.body.status.Some? && pod.body.status.value.containers.Some?
    && ContainerStatus(Some(state)) in pod.body.status.value.containers.value
  }

  /** The questions, asked of the containers that tell their state. The others count for nothing. */
  lemma QuestionsAnswered(pod: Pod)
    ensures Running(pod) <==> exists state :: HasState(pod, state) && state.running
    ensures Terminated(pod) <==> exists state :: HasState(pod, state) && state.terminated
    ensures Crashed(pod) <==>
              exists state :: HasState(pod, state) && state.waiting.Some?
                              && state.waiting.value.reason == Some("CrashLoopBackOff")
    ensures WasErrImagePull(pod) <==>
              exists state :: HasState(pod, state) && state.waiting.Some?
                              && state.waiting.value.reason == Some("ErrImagePull")
  {
    forall i | 0 <= i < |Statuses(pod)| && Statuses(pod)[i].state.Some?
      ensures HasState(pod, StateOf(Statuses(pod)[i]))
    {
      assert Statuses(pod)[i] == ContainerStatus(Some(StateOf(Statuses(pod)[i])));
    }
    forall state | HasState(pod, state)
      ensures exists i :: 0 <= i < |Statuses(pod)| && StateOf(Statuses(pod)[i]) == state
    {
      var i :| 0 <= i < |Statuses(pod)| && Statuses(pod)[i] == ContainerStatus(Some(state));
      assert StateOf(Statuses(pod)[i]) == state;
    }
    WaitingAnswered(pod, "CrashLoopBackOff");
    WaitingAnswered(pod, "ErrImagePull");
  }

  lemma WaitingAnswered(pod: Pod, reason: string)
    ensures FindWaiting(Statuses(pod), reason).Some? <==>
              exists state :: HasState(pod, state) && state.waiting.Some? && state.waiting.value.reason == Some(reason)
  {
    var found := FindWaiting(Statuses(pod), reason);
    if found.Some? {
      assert found.value == ContainerStatus(Some(StateOf(found.value)));
      assert HasState(pod, StateOf(found.value));
    }
    forall state | HasState(pod, state) && state.waiting.Some? && state.waiting.value.reason == Some(reason)
      ensures found.Some?
    {
      assert WaitsFor(ContainerStatus(Some(state)), reason);
    }
  }

  ghost predicate IsFirstWaiting(statuses: seq<ContainerStatus>, reason: string, i: nat)
    requires i < |statuses|
  {
    WaitsFor(statuses[i], reason) && forall j :: 0 <= j < i ==> !WaitsFor(statuses[j], reason)
  }

  lemma {:induction false} FindWaitingIsFirst(statuses: seq<ContainerStatus>, reason: string)
    ensures var found := FindWaiting(statuses, reason);
            forall i :: 0 <= i < |statuses| && IsFirstWaiting(statuses, reason, i) ==> found == Some(statuses[i])
    ensures FindWaiting(statuses, reason).Some? ==>
              exists i :: 0 <= i < |statuses| && IsFirstWaiting(statuses, reason, i)
  {
    if statuses != [] && !WaitsFor(statuses[0], reason) {
      var rest := statuses[1..];
      FindWaitingIsFirst(rest, reason);
      forall i | 0 <= i < |statuses| && IsFirstWaiting(statuses, reason, i)
        ensures FindWaiting(statuses, reason) == Some(statuses[i])
      {
        assert forall j :: 0 <= j < i - 1 ==> rest[j] == statuses[j + 1];
        assert IsFirstWaiting(rest, reason, i - 1);
      }
      if FindWaiting(rest, reason).Some? {
        var i :| 0 <= i < |rest| && IsFirstWaiting(rest, reason, i);
        assert forall j :: 0 < j < i + 1 ==> statuses[j] == rest[j - 1];
        assert IsFirstWaiting(statuses, reason, i + 1);
      }
    } else if statuses != [] {
      assert IsFirstWaiting(statuses, reason, 0);
    }
  }

  /** A pod that makes the unwrap fail: it reports ErrImagePull with no message. */
  lemma ErrImagePullCanPanic()
    ensures exists pod: Pod :: WasErrImagePull(pod) && !Running(pod) && !Terminated(pod) && !Crashed(pod)
                               && ErrImagePull(pod).Panics?
  {
    var waiting := ContainerStatus(Some(ContainerState(Some(Waiting(Some(ERR_IMAGE_PULL), None)), false, false)));
    var pod: Pod := Watcher.Object("p", 1, PodBody(None, None, Some(PodStatus(None, Some([waiting])))));
    assert Statuses(pod) == [waiting];
    assert FindWaiting([waiting], ERR_IMAGE_PULL) == Some(waiting);
    assert !WaitsFor(waiting, CRASH_LOOP);
    assert WasErrImagePull(pod) && !Running(pod) && !Terminated(pod) && !Crashed(pod) && ErrImagePull(pod).Panics?;
  }

  // ----- the address the health checker connects to

  datatype AddressError = NoStatus | NoIp | NoNamespace | NoSpec | NoContainers | NoPorts

  /** The host and port of `address`, or the first thing found missing. */
  function Address(pod: Pod): Result<(string, string, int), AddressError> {
    var body := pod.body;
    if body.status.None? then Err(NoStatus)
    else if body.status.value.ip.None? then Err(NoIp)
    else if body.namespace.None? then Err(NoNamespace)
    else if body.ports.None? then Err(NoSpec)
    else if body.ports.value == [] then Err(NoContainers)
    else if body.ports.value[0].None? || body.ports.value[0].value == [] then Err(NoPorts)
    else Ok((body.status.value.ip.value, body.namespace.value, body.ports.value[0].value[0]))
  }

  /**
  An address is had exactly if nothing is missing, and then it is the pod's own IP and namespace and
  the first port of its first container.
   */
  lemma AddressIs(pod: Pod, ip: string, namespace: string, port: int)
    ensures Address(pod) == Ok((ip, namespace, port)) <==>
            && pod.body.status.Some? && pod.body.status.value.ip == Some(ip)
            && pod.body.namespace == Some(namespace)
            && pod.body.ports.Some? && |pod.body.ports.value| > 0
            && pod.body.ports.value[0].Some? && |pod.body.ports.value[0].value| > 0
            && pod.body.ports.value[0].value[0] == port
  {
  }

  /** What is missing of an address, in the order it is asked for. */
  predicate Lacks(pod: Pod, error: AddressError) {
    match error
    case NoStatus => pod.body.status.None?
    case NoIp => pod.body.status.None? || pod.body.status.value.ip.None?
    case NoNamespace => pod.body.namespace.None?
    case NoSpec => pod.body.ports.None?
    case NoContainers => pod.body.ports.None? || pod.body.ports.value == []
    case NoPorts =>
      || pod.body.ports.None? || pod.body.ports.value == []
      || pod.body.ports.value[0].None? || pod.body.ports.value[0].value == []
  }

  function Order(error: AddressError): nat {
    match error
    case NoStatus => 0
    case NoIp => 1
    case NoNamespace => 2
    case NoSpec => 3
    case NoContainers => 4
    case NoPorts => 5
  }

  /** An address fails on the first thing it lacks. */
  lemma AddressFailsFirst(pod: Pod, error: AddressError)
    ensures Address(pod) == Err(error) <==>
            Lacks(pod, error) && forall other :: Order(other) < Order(error) ==> !Lacks(pod, other)
  {
    assert Lacks(pod, NoStatus) || Lacks(pod, NoIp) || Lacks(pod, NoNamespace) || Lacks(pod, NoSpec)
           || Lacks(pod, NoContainers) || Lacks(pod, NoPorts) || Address(pod).Ok?;
    forall other | Lacks(pod, other) ensures Address(pod).Err? && Order(Address(pod).error) <= Order(other) {
    }
  }
}
