/**
The list/watch machine run against an API server.

The server is an append-only history of versioned changes. What it may answer is `Serves`:
a list is the snapshot at some committed version, a watch opened at version v delivers the
changes after v in order, errors swallow nothing, and a bookmark covers exactly what has been
delivered. Everything else (refusals, errors, stream ends, stale lists) may happen at any time.
 */
module WatchHistory {
  import opened Wrappers
  import opened Watcher

  datatype Kind = Create | Modify | Remove

  datatype Change<+V> = Change(kind: Kind, obj: Object<V>)

  function EventOf<V>(change: Change<V>): Event<V> {
    match change.kind
    case Create => Added(change.obj)
    case Modify => Applied(change.obj)
    case Remove => Deleted(change.obj)
  }

  function Written<V>(change: Change<V>): WatchEvent<V> {
    match change.kind
    case Create => WAdded(change.obj)
    case Modify => WModified(change.obj)
    case Remove => WDeleted(change.obj)
  }

  // ----- the store a client keeps, and the server's own contents

  type Store<V> = map<string, Object<V>>

  function ToStore<V>(items: seq<Object<V>>): Store<V> {
    if items == [] then map[]
    else var last := items[|items| - 1]; ToStore(items[..|items| - 1])[last.name := last]
  }

  function Fold<V>(store: Store<V>, event: Event<V>): Store<V> {
    match event
    case Added(obj) => store[obj.name := obj]
    case Applied(obj) => store[obj.name := obj]
    case Deleted(obj) => store - {obj.name}
    case Restarted(objs) => ToStore(objs)
  }

  function FoldAll<V>(events: seq<Event<V>>): Store<V> {
    if events == [] then map[] else Fold(FoldAll(events[..|events| - 1]), events[|events| - 1])
  }

  /** The server's contents after the changes of `log`. */
  function Replay<V>(log: seq<Change<V>>): Store<V> {
    if log == [] then map[]
    else
      var (before, last) := (Replay(log[..|log| - 1]), log[|log| - 1]);
      if last.kind.Remove? then before - {last.obj.name} else before[last.obj.name := last.obj]
  }

  /** How many leading changes of `log` a version covers. */
  function UpTo<V>(log: seq<Change<V>>, version: nat): (n: nat)
    ensures n <= |log|
  {
    if log == [] || log[|log| - 1].obj.version <= version then |log| else UpTo(log[..|log| - 1], version)
  }

  function SnapshotAt<V>(log: seq<Change<V>>, version: nat): Store<V> {
    Replay(log[..UpTo(log, version)])
  }

  // ----- the composed system

  /**
  `open` says whether there is a stream the server writes to, and `cursor` is the next change it will
  deliver; a stream that has ended or expired delivers nothing more. `events` is everything the watcher has
  emitted other than errors. `origin` is a history variable that says, for each event, how many
  changes of the history precede the one it reports (for a list: how many it covers).
   */
  datatype System<V> = System(
    log: seq<Change<V>>,
    committed: nat,
    state: State,
    open: bool,
    cursor: nat,
    events: seq<Event<V>>,
    origin: seq<nat>)

  datatype Move<V> =
    | Commit(change: Change<V>)
    | Advance(version: nat)
    | Poll(response: Response<V>)

  ghost predicate Serves<V(!new)>(s: System<V>, response: Response<V>) {
    && Answers(s.state, response)
    && (response.Next? || response.Broken? || response.Ended? ==> s.open)
    && match response
       case Listed(items, version) =>
         version <= s.committed && ToStore(items) == SnapshotAt(s.log, version)
       case Next(WBookmark(version)) =>
         version <= s.committed && UpTo(s.log, version) == s.cursor
       case Next(WError(_)) => true
       case Next(item) => s.cursor < |s.log| && item == Written(s.log[s.cursor])
       case _ => true
  }

  ghost predicate Enabled<V(!new)>(s: System<V>, move: Move<V>) {
    match move
    case Commit(change) => s.committed < change.obj.version
    case Advance(version) => s.committed <= version
    case Poll(response) => Serves(s, response)
  }

  ghost function Apply<V(!new)>(s: System<V>, move: Move<V>): System<V>
    requires Enabled(s, move)
  {
    match move
    case Commit(change) => s.(log := s.log + [change], committed := change.obj.version)
    case Advance(version) => s.(committed := version)
    case Poll(response) =>
      var (item, next) := StepTrampolined(s.state, response);
      var t := s.(state := next, open := Open(s, response), cursor := Cursor(s, response));
      if item.None? || item.value.Err? then t
      else t.(events := s.events + [item.value.value], origin := s.origin + [Origin(s, response)])
  }

  function Origin<V>(s: System<V>, response: Response<V>): nat {
    if response.Listed? then UpTo(s.log, response.version) else s.cursor
  }

  function Open<V>(s: System<V>, response: Response<V>): bool {
    match response
    case WatchOpened => true
    case Ended => false
    case Next(WError(code)) => s.open && code != 410
    case _ => s.open
  }

  /** Opening a watch positions the stream after the held version; each change delivered moves it on. */
  function Cursor<V>(s: System<V>, response: Response<V>): nat {
    match response
    case WatchOpened => if s.state.InitListed? then UpTo(s.log, s.state.version) else s.cursor
    case Next(WAdded(_)) => s.cursor + 1
    case Next(WModified(_)) => s.cursor + 1
    case Next(WDeleted(_)) => s.cursor + 1
    case _ => s.cursor
  }

  function Initial<V>(): System<V> {
    System([], 0, Empty, false, 0, [], [])
  }

  ghost predicate IsRun<V(!new)>(moves: seq<Move<V>>)
    decreases |moves|, 0
  {
    moves != [] ==> IsRun(moves[..|moves| - 1]) && Enabled(After(moves[..|moves| - 1]), moves[|moves| - 1])
  }

  ghost function After<V(!new)>(moves: seq<Move<V>>): System<V>
    requires IsRun(moves)
    decreases |moves|, 1
  {
    if moves == [] then Initial() else Apply(After(moves[..|moves| - 1]), moves[|moves| - 1])
  }

  // ----- what every move keeps

  ghost predicate Sorted<V>(log: seq<Change<V>>) {
    forall i, j :: 0 <= i < j < |log| ==> log[i].obj.version < log[j].obj.version
  }

  ghost predicate ServerInv<V>(s: System<V>) {
    && Sorted(s.log)
    && (forall c :: c in s.log ==> c.obj.version <= s.committed)
    && (!s.state.Empty? ==> s.state.version <= s.committed)
    && (s.state.Watching? ==> s.cursor == UpTo(s.log, s.state.version))
    && (s.state.Watching? <==> s.open)
  }

  /** How many changes of the history are accounted for once event `k` has been emitted. */
  function Covered<V>(events: seq<Event<V>>, origin: seq<nat>, k: nat): nat
    requires k < |events| == |origin|
  {
    if events[k].Restarted? then origin[k] else origin[k] + 1
  }

  /** Event `k` is a list of the contents, or the change right after those already accounted for. */
  ghost predicate Link<V>(events: seq<Event<V>>, origin: seq<nat>, log: seq<Change<V>>, k: nat)
    requires k < |events| == |origin|
  {
    if events[k].Restarted? then
      origin[k] <= |log| && ToStore(events[k].objs) == Replay(log[..origin[k]])
    else
      && origin[k] < |log| && events[k] == EventOf(log[origin[k]])
      && k > 0 && origin[k] == Covered(events, origin, k - 1)
  }

  ghost predicate EventInv<V>(s: System<V>) {
    && |s.events| == |s.origin|
    && (forall k :: 0 <= k < |s.events| ==> Link(s.events, s.origin, s.log, k))
    && (!s.state.Empty? ==>
          s.events != [] && Covered(s.events, s.origin, |s.events| - 1) == UpTo(s.log, s.state.version))
    && (s.events != [] ==> Covered(s.events, s.origin, |s.events| - 1) <= |s.log|)
    && (s.events != [] ==> FoldAll(s.events) == Replay(s.log[..Covered(s.events, s.origin, |s.events| - 1)]))
  }

  /** On a sorted history a version covers exactly the changes up to it. */
  lemma {:induction false} UpToIs<V>(log: seq<Change<V>>, version: nat, n: nat)
    requires Sorted(log) && n <= |log|
    requires n > 0 ==> log[n - 1].obj.version <= version
    requires n < |log| ==> version < log[n].obj.version
    ensures UpTo(log, version) == n
    decreases |log|
  {
    if n < |log| {
      var shorter := log[..|log| - 1];
      assert version < log[|log| - 1].obj.version;
      UpToIs(shorter, version, n);
    }
  }

  lemma {:induction false} UpToBounds<V>(log: seq<Change<V>>, version: nat)
    requires Sorted(log)
    ensures forall i :: 0 <= i < UpTo(log, version) ==> log[i].obj.version <= version
    ensures forall i :: UpTo(log, version) <= i < |log| ==> version < log[i].obj.version
    decreases |log|
  {
    if log != [] && version < log[|log| - 1].obj.version {
      UpToBounds(log[..|log| - 1], version);
    }
  }

  lemma UpToGrows<V>(log: seq<Change<V>>, change: Change<V>, version: nat)
    requires Sorted(log + [change]) && version < change.obj.version
    ensures UpTo(log + [change], version) == UpTo(log, version)
  {
    assert (log + [change])[..|log|] == log;
  }

  lemma ServerInvCommit<V(!new)>(s: System<V>, change: Change<V>)
    requires ServerInv(s) && Enabled(s, Commit(change))
    ensures ServerInv(Apply(s, Commit(change)))
  {
    var log := s.log + [change];
    forall i, j | 0 <= i < j < |log| ensures log[i].obj.version < log[j].obj.version {
      assert s.log[i] in s.log;
    }
    if s.state.Watching? {
      UpToGrows(s.log, change, s.state.version);
    }
  }

  lemma ServerInvDelivered<V(!new)>(s: System<V>)
    requires ServerInv(s) && s.state.Watching? && s.cursor < |s.log|
    ensures s.log[s.cursor].obj.version <= s.committed
    ensures UpTo(s.log, s.log[s.cursor].obj.version) == s.cursor + 1
  {
    assert s.log[s.cursor] in s.log;
    UpToIs(s.log, s.log[s.cursor].obj.version, s.cursor + 1);
  }

  lemma ServerInvStep<V(!new)>(s: System<V>, move: Move<V>)
    requires ServerInv(s) && Enabled(s, move)
    ensures ServerInv(Apply(s, move))
  {
    if move.Commit? {
      ServerInvCommit(s, move.change);
    } else if s.state.Watching? && s.cursor < |s.log| {
      ServerInvDelivered(s);
    }
  }

  lemma ReplayNext<V>(log: seq<Change<V>>, n: nat)
    requires n < |log|
    ensures Replay(log[..n + 1]) == Fold(Replay(log[..n]), EventOf(log[n]))
  {
    assert log[..n + 1][..n] == log[..n];
  }

  lemma FoldNext<V>(events: seq<Event<V>>, event: Event<V>)
    ensures FoldAll(events + [event]) == Fold(FoldAll(events), event)
  {
    assert (events + [event])[..|events|] == events;
  }

  lemma EventInvCommit<V(!new)>(s: System<V>, change: Change<V>)
    requires ServerInv(s) && EventInv(s) && Enabled(s, Commit(change))
    ensures EventInv(Apply(s, Commit(change)))
  {
    var log := s.log + [change];
    ServerInvCommit(s, change);
    if !s.state.Empty? {
      UpToGrows(s.log, change, s.state.version);
    }
    forall k | 0 <= k < |s.events| ensures Link(s.events, s.origin, log, k) {
      assert Link(s.events, s.origin, s.log, k);
      assert log[..s.origin[k]] == s.log[..s.origin[k]];
    }
    if s.events != [] {
      var covered := Covered(s.events, s.origin, |s.events| - 1);
      assert Link(s.events, s.origin, s.log, |s.events| - 1);
      assert log[..covered] == s.log[..covered];
    }
  }

  /** Links already made stay; the new event must make its own. */
  lemma LinksGrow<V>(events: seq<Event<V>>, origin: seq<nat>, log: seq<Change<V>>, event: Event<V>, at: nat)
    requires |events| == |origin|
    requires forall k :: 0 <= k < |events| ==> Link(events, origin, log, k)
    requires Link(events + [event], origin + [at], log, |events|)
    ensures forall k :: 0 <= k < |events| + 1 ==> Link(events + [event], origin + [at], log, k)
  {
    forall k | 0 <= k < |events| ensures Link(events + [event], origin + [at], log, k) {
      assert Link(events, origin, log, k);
    }
  }

  lemma EventInvListed<V(!new)>(s: System<V>, response: Response<V>)
    requires ServerInv(s) && EventInv(s) && response.Listed? && Enabled(s, Poll(response))
    ensures EventInv(Apply(s, Poll(response)))
  {
    var event := Restarted(response.items);
    FoldNext(s.events, event);
    LinksGrow(s.events, s.origin, s.log, event, UpTo(s.log, response.version));
  }

  lemma EventInvDelivered<V(!new)>(s: System<V>, response: Response<V>)
    requires ServerInv(s) && EventInv(s) && Enabled(s, Poll(response))
    requires response.Next? && !response.item.WBookmark? && !response.item.WError?
    ensures EventInv(Apply(s, Poll(response)))
  {
    var t := Apply(s, Poll(response));
    var event := EventOf(s.log[s.cursor]);
    assert t.events == s.events + [event] && t.origin == s.origin + [s.cursor];
    FoldNext(s.events, event);
    ReplayNext(s.log, s.cursor);
    ServerInvDelivered(s);
    LinksGrow(s.events, s.origin, s.log, event, s.cursor);
  }

  lemma EventInvStep<V(!new)>(s: System<V>, move: Move<V>)
    requires ServerInv(s) && EventInv(s) && Enabled(s, move)
    ensures EventInv(Apply(s, move))
  {
    match move
    case Commit(change) => EventInvCommit(s, change);
    case Advance(_) =>
    case Poll(response) =>
      if response.Listed? {
        EventInvListed(s, response);
      } else if response.Next? && !response.item.WBookmark? && !response.item.WError? {
        EventInvDelivered(s, response);
      } else {
        assert Apply(s, move).events == s.events && Apply(s, move).log == s.log;
      }
  }

  lemma {:induction false} InvHolds<V(!new)>(moves: seq<Move<V>>)
    requires IsRun(moves)
    ensures ServerInv(After(moves)) && EventInv(After(moves))
    decreases |moves|
  {
    if moves != [] {
      var before := moves[..|moves| - 1];
      InvHolds(before);
      ServerInvStep(After(before), moves[|moves| - 1]);
      EventInvStep(After(before), moves[|moves| - 1]);
    }
  }

  // ----- the two promises

  /**
  In every run, while the machine holds a version, a store folded over the emitted events is
  the server's contents at that version: the changes replayed are those stamped with a version
  up to the held one, and no others.
   */
  lemma StoreIsSnapshot<V(!new)>(moves: seq<Move<V>>)
    requires IsRun(moves)
    ensures var s := After(moves);
            !s.state.Empty? ==>
              && FoldAll(s.events) == SnapshotAt(s.log, s.state.version)
                 == Replay(s.log[..UpTo(s.log, s.state.version)])
              && forall i :: 0 <= i < |s.log| ==>
                   (i < UpTo(s.log, s.state.version) <==> s.log[i].obj.version <= s.state.version)
  {
    InvHolds(moves);
    var s := After(moves);
    if !s.state.Empty? {
      UpToBounds(s.log, s.state.version);
    }
  }

  ghost predicate NoRestart<V>(events: seq<Event<V>>, from: nat, to: nat)
    requires to <= |events|
  {
    forall k :: from <= k < to ==> !events[k].Restarted?
  }

  /** `events[i..j]` is a list of the contents after `low` changes, then exactly the changes that follow. */
  ghost predicate IsSegment<V>(events: seq<Event<V>>, log: seq<Change<V>>, i: nat, j: nat, low: nat)
    requires i < j <= |events| && events[i].Restarted?
  {
    && low + (j - i - 1) <= |log|
    && ToStore(events[i].objs) == Replay(log[..low])
    && forall k :: i < k < j ==> events[k] == EventOf(log[low + k - i - 1])
  }

  lemma {:induction false} LinksMakeSegment<V>(events: seq<Event<V>>, origin: seq<nat>, log: seq<Change<V>>,
                                           i: nat, j: nat)
    requires |events| == |origin| && forall k :: 0 <= k < |events| ==> Link(events, origin, log, k)
    requires i < j <= |events| && events[i].Restarted? && NoRestart(events, i + 1, j)
    ensures IsSegment(events, log, i, j, origin[i])
    ensures Covered(events, origin, j - 1) == origin[i] + j - i - 1
    decreases j
  {
    assert Link(events, origin, log, j - 1);
    if i + 1 < j {
      LinksMakeSegment(events, origin, log, i, j - 1);
    }
  }

  /**
  Between one `Restarted` and the next the emitted events are one contiguous segment of the
  history: in order, with no gap and no duplicate, however often the stream was reopened.
   */
  lemma SegmentsAreContiguous<V(!new)>(moves: seq<Move<V>>, i: nat, j: nat)
    requires IsRun(moves)
    requires var events := After(moves).events;
             i < j <= |events| && events[i].Restarted? && NoRestart(events, i + 1, j)
    ensures exists low :: IsSegment(After(moves).events, After(moves).log, i, j, low)
  {
    InvHolds(moves);
    var s := After(moves);
    LinksMakeSegment(s.events, s.origin, s.log, i, j);
  }

  /** Nothing is emitted before the first list. */
  lemma FirstEventIsRestarted<V(!new)>(moves: seq<Move<V>>)
    requires IsRun(moves)
    ensures After(moves).events != [] ==> After(moves).events[0].Restarted?
  {
    InvHolds(moves);
    var s := After(moves);
    assert s.events != [] ==> Link(s.events, s.origin, s.log, 0);
  }
}
