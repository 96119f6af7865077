/**
No watcher is left behind: from every state that the list/watch machine and the server can get into,
the machine can still catch up with everything the server has committed, by asking and reading alone.
 */
module CatchUp {
  import opened Watcher
  import opened WatchHistory

  // ----- a list of any contents

  function Other<V>(items: seq<Object<V>>, name: string): seq<Object<V>> {
    if items == [] then []
    else
      var last := items[|items| - 1];
      Other(items[..|items| - 1], name) + if last.name == name then [] else [last]
  }

  lemma ListedOneMore<V>(items: seq<Object<V>>, obj: Object<V>)
    ensures ToStore(items + [obj]) == ToStore(items)[obj.name := obj]
  {
    assert (items + [obj])[..|items|] == items;
  }

  lemma RemoveOther<K, T>(m: map<K, T>, k: K, v: T, gone: K)
    requires k != gone
    ensures m[k := v] - {gone} == (m - {gone})[k := v]
  {
  }

  lemma RemoveSame<K, T>(m: map<K, T>, gone: K, v: T)
    ensures m[gone := v] - {gone} == m - {gone}
  {
  }

  lemma {:induction false} ListedWithout<V>(items: seq<Object<V>>, name: string)
    ensures ToStore(Other(items, name)) == ToStore(items) - {name}
  {
    if items != [] {
      var (before, last) := (items[..|items| - 1], items[|items| - 1]);
      ListedWithout(before, name);
      if last.name != name {
        ListedOneMore(Other(before, name), last);
        RemoveOther(ToStore(before), last.name, last, name);
      } else {
        assert Other(before, name) + [] == Other(before, name);
        RemoveSame(ToStore(before), name, last);
      }
    }
  }

  /** Whatever the server holds can be listed. */
  lemma {:induction false} CanBeListed<V>(log: seq<Change<V>>) returns (items: seq<Object<V>>)
    ensures ToStore(items) == Replay(log)
  {
    if log == [] {
      items := [];
    } else {
      var before := CanBeListed(log[..|log| - 1]);
      var last := log[|log| - 1];
      if last.kind.Remove? {
        items := Other(before, last.obj.name);
        ListedWithout(before, last.obj.name);
      } else {
        items := before + [last.obj];
        ListedOneMore(before, last.obj);
      }
    }
  }

  // ----- the way there

  /** How many answers the machine is away from having everything. */
  ghost function Behind<V>(s: System<V>): nat
    requires ServerInv(s)
  {
    match s.state
    case Empty => |s.log| + 2
    case InitListed(version) => |s.log| - UpTo(s.log, version) + 1
    case Watching(version) => |s.log| - UpTo(s.log, version)
  }

  ghost predicate CaughtUp<V>(s: System<V>) {
    s.state.Watching? && s.cursor == |s.log| && FoldAll(s.events) == Replay(s.log)
  }

  /** An answer of a willing server brings the machine closer. */
  lemma NextAnswer<V(!new)>(s: System<V>) returns (response: Response<V>)
    requires ServerInv(s) && (s.state.Watching? ==> s.cursor < |s.log|)
    ensures Enabled(s, Poll(response))
    ensures ServerInv(Apply(s, Poll(response))) && Behind(Apply(s, Poll(response))) < Behind(s)
  {
    match s.state
    case Empty =>
      var items := CanBeListed(s.log[..UpTo(s.log, s.committed)]);
      response := Listed(items, s.committed);
      ServerInvStep(s, Poll(response));
    case InitListed(_) =>
      response := WatchOpened;
      ServerInvStep(s, Poll(response));
    case Watching(_) =>
      response := Next(Written(s.log[s.cursor]));
      ServerInvStep(s, Poll(response));
      ServerInvDelivered(s);
  }

  lemma Extend<V(!new)>(moves: seq<Move<V>>, move: Move<V>)
    requires IsRun(moves) && Enabled(After(moves), move)
    ensures IsRun(moves + [move]) && After(moves + [move]) == Apply(After(moves), move)
  {
    assert (moves + [move])[..|moves|] == moves;
  }

  lemma NothingLeft<V(!new)>(moves: seq<Move<V>>)
    requires IsRun(moves) && After(moves).state.Watching? && After(moves).cursor >= |After(moves).log|
    ensures CaughtUp(After(moves))
  {
    InvHolds(moves);
    var s := After(moves);
    assert s.log[..|s.log|] == s.log;
  }

  /** After `moves`, the answers `more` bring the machine up to date with the server. */
  ghost predicate Brings<V(!new)>(moves: seq<Move<V>>, more: seq<Response<V>>) {
    IsRun(moves + Polls(more)) && CaughtUp(After(moves + Polls(more)))
  }

  function Polls<V>(responses: seq<Response<V>>): seq<Move<V>> {
    seq(|responses|, i requires 0 <= i < |responses| => Poll(responses[i]))
  }

  lemma BringsFromBefore<V(!new)>(moves: seq<Move<V>>, response: Response<V>, rest: seq<Response<V>>)
    requires Brings(moves + [Poll(response)], rest)
    ensures Brings(moves, [response] + rest)
  {
    assert moves + Polls([response] + rest) == moves + [Poll(response)] + Polls(rest);
  }

  lemma {:induction false} CatchesUpWithin<V(!new)>(moves: seq<Move<V>>, bound: nat) returns (more: seq<Response<V>>)
    requires IsRun(moves) && ServerInv(After(moves)) && Behind(After(moves)) <= bound
    ensures Brings(moves, more) && |more| <= bound
    decreases bound
  {
    var s := After(moves);
    if s.state.Watching? && s.cursor >= |s.log| {
      more := [];
      NothingLeft(moves);
      assert moves + Polls<V>([]) == moves;
    } else {
      var response := NextAnswer(s);
      Extend(moves, Poll(response));
      var rest := CatchesUpWithin(moves + [Poll(response)], bound - 1);
      BringsFromBefore(moves, response, rest);
      more := [response] + rest;
    }
  }

  /**
  From every state a run can get into, whatever has ended, broken or expired, there are answers after
  which the store folded over the events is all the server has committed, and the stream is at its
  end. The machine has only to go on asking, at most twice more than there are changes.
   */
  lemma CanAlwaysCatchUp<V(!new)>(moves: seq<Move<V>>) returns (more: seq<Response<V>>)
    requires IsRun(moves)
    ensures Brings(moves, more) && |more| <= |After(moves).log| + 2
  {
    InvHolds(moves);
    more := CatchesUpWithin(moves, Behind(After(moves)));
  }
}
