/**
The list/watch machine of k8s/library/k8s/src/watcher.rs.

The machine itself is the pure function `StepTrampolined`; the loops around it are
methods proved against `Drive`, the fold of that function over the API's responses.
 */
module Watcher {
  import opened Wrappers

  /** A Kubernetes resource: its name, the version the API server stamped on it, its contents. */
  datatype Object<+V> = Object(name: string, version: nat, body: V)

  datatype Event<+V> =
    | Added(obj: Object<V>)
    | Applied(obj: Object<V>)
    | Deleted(obj: Object<V>)
    | Restarted(objs: seq<Object<V>>)

  datatype Error =
    | InitialListFailed
    | WatchStartFailed
    | WatchError(code: int)
    | WatchFailed

  /** HTTP GONE: the held version has fallen out of the server's watch window. */
  const GONE := 410

  type Item<+V> = Result<Event<V>, Error>

  datatype State =
    | Empty
    | InitListed(version: nat)
    | Watching(version: nat)

  /** What the server writes into an open watch stream. */
  datatype WatchEvent<+V> =
    | WAdded(obj: Object<V>)
    | WModified(obj: Object<V>)
    | WDeleted(obj: Object<V>)
    | WBookmark(version: nat)
    | WError(code: int)

  /** The answer to the one request the machine makes in each state. */
  datatype Response<+V> =
    | Listed(items: seq<Object<V>>, version: nat)
    | ListFailed
    | WatchOpened
    | WatchRefused
    | Next(item: WatchEvent<V>)
    | Broken
    | Ended

  predicate Answers<V>(state: State, response: Response<V>) {
    match state
    case Empty => response.Listed? || response.ListFailed?
    case InitListed(_) => response.WatchOpened? || response.WatchRefused?
    case Watching(_) => response.Next? || response.Broken? || response.Ended?
  }

  function StepTrampolined<V>(state: State, response: Response<V>): (Option<Item<V>>, State)
    requires Answers(state, response)
  {
    match state
    case Empty =>
      if response.Listed?
      then (Some(Ok(Restarted(response.items))), InitListed(response.version))
      else (Some(Err(InitialListFailed)), Empty)
    case InitListed(version) =>
      if response.WatchOpened?
      then (None, Watching(version))
      else (Some(Err(WatchStartFailed)), InitListed(version))
    case Watching(version) =>
      match response
      case Next(WAdded(obj)) => (Some(Ok(Added(obj))), Watching(obj.version))
      case Next(WModified(obj)) => (Some(Ok(Applied(obj))), Watching(obj.version))
      case Next(WDeleted(obj)) => (Some(Ok(Deleted(obj))), Watching(obj.version))
      case Next(WBookmark(v)) => (None, Watching(v))
      case Next(WError(code)) =>
        (Some(Err(WatchError(code))), if code == GONE then Empty else Watching(version))
      case Broken => (Some(Err(WatchFailed)), Watching(version))
      case Ended => (None, InitListed(version))
  }

  // ----- runs of the machine alone, whatever the server answers

  ghost predicate Drivable<V>(state: State, responses: seq<Response<V>>)
    decreases |responses|
  {
    responses != [] ==>
      && Answers(state, responses[0])
      && Drivable(StepTrampolined(state, responses[0]).1, responses[1..])
  }

  /** Everything the machine emits while it consumes `responses`, and where it ends. */
  ghost function Drive<V>(state: State, responses: seq<Response<V>>): (r: (seq<Item<V>>, State))
    requires Drivable(state, responses)
    decreases |responses|
  {
    if responses == [] then ([], state)
    else
      var (item, next) := StepTrampolined(state, responses[0]);
      var (items, last) := Drive(next, responses[1..]);
      ((if item.Some? then [item.value] else []) + items, last)
  }

  /** The first response of a run, taken off its front. */
  lemma DriveFirst<V>(state: State, responses: seq<Response<V>>)
    requires Drivable(state, responses) && responses != []
    ensures var (item, next) := StepTrampolined(state, responses[0]);
            && Drivable(next, responses[1..])
            && Drive(state, responses).0 == (if item.Some? then [item.value] else []) + Drive(next, responses[1..]).0
            && Drive(state, responses).1 == Drive(next, responses[1..]).1
  {
  }

  lemma {:induction false} DriveConcat<V>(state: State, a: seq<Response<V>>, b: seq<Response<V>>)
    requires Drivable(state, a + b)
    ensures Drivable(state, a) && Drivable(Drive(state, a).1, b)
    ensures Drive(state, a + b).0 == Drive(state, a).0 + Drive(Drive(state, a).1, b).0
    ensures Drive(state, a + b).1 == Drive(Drive(state, a).1, b).1
    decreases |a|
  {
    if a == [] {
      assert a + b == b;
    } else {
      assert (a + b)[1..] == a[1..] + b && (a + b)[0] == a[0];
      DriveFirst(state, a + b);
      var (item, next) := StepTrampolined(state, a[0]);
      DriveConcat(next, a[1..], b);
      DriveFirst(state, a);
      Regroup(if item.Some? then [item.value] else [], Drive(next, a[1..]).0, Drive(Drive(next, a[1..]).1, b).0);
    }
  }

  lemma Regroup<T>(a: seq<T>, b: seq<T>, c: seq<T>)
    ensures a + (b + c) == a + b + c
  {
  }

  /** A run can be cut anywhere: its prefix is a run, and the rest is a run from where that ends. */
  lemma DriveSplit<V>(state: State, responses: seq<Response<V>>, n: nat, m: nat)
    requires Drivable(state, responses) && n <= m <= |responses|
    ensures Drivable(state, responses[..n]) && Drivable(state, responses[..m])
    ensures Drivable(Drive(state, responses[..n]).1, responses[n..])
    ensures Drivable(Drive(state, responses[..n]).1, responses[n..m])
    ensures var (items, mid) := Drive(state, responses[..n]);
            Drive(state, responses[..m]) == (items + Drive(mid, responses[n..m]).0, Drive(mid, responses[n..m]).1)
  {
    assert responses == responses[..n] + responses[n..] == responses[..m] + responses[m..];
    assert responses[..m] == responses[..n] + responses[n..m];
    DriveConcat(state, responses[..n], responses[n..]);
    DriveConcat(state, responses[..m], responses[m..]);
    DriveConcat(state, responses[..n], responses[n..m]);
  }

  /** The last response of a run, taken off its end. */
  lemma DriveLast<V>(state: State, responses: seq<Response<V>>)
    requires Drivable(state, responses) && responses != []
    ensures var n := |responses| - 1;
            && Drivable(state, responses[..n])
            && var (items, mid) := Drive(state, responses[..n]);
            && Answers(mid, responses[n])
            && var (item, next) := StepTrampolined(mid, responses[n]);
            && Drive(state, responses) == (if item.Some? then items + [item.value] else items, next)
  {
    var n := |responses| - 1;
    DriveSplit(state, responses, n, n + 1);
    var (items, mid) := Drive(state, responses[..n]);
    assert responses[n..n + 1] == [responses[n]] && responses[..n + 1] == responses;
    assert [responses[n]][1..] == [];
    assert items + [] == items;
    if StepTrampolined(mid, responses[n]).0.Some? {
      assert Drive(mid, [responses[n]]).0 == [StepTrampolined(mid, responses[n]).0.value];
    }
  }

  /** One more response at the end of a run, whatever has been emitted so far. */
  lemma DriveOneMore<V>(start: State, responses: seq<Response<V>>, response: Response<V>)
    requires Drivable(start, responses) && Answers(Drive(start, responses).1, response)
    ensures Drivable(start, responses + [response])
    ensures var (items, state) := Drive(start, responses);
            var (item, next) := StepTrampolined(state, response);
            Drive(start, responses + [response]) == (if item.Some? then items + [item.value] else items, next)
  {
    DrivableOneMore(start, responses, response);
    DriveLast(start, responses + [response]);
    assert (responses + [response])[..|responses|] == responses;
  }

  lemma {:induction false} DrivableOneMore<V>(start: State, responses: seq<Response<V>>, response: Response<V>)
    requires Drivable(start, responses) && Answers(Drive(start, responses).1, response)
    ensures Drivable(start, responses + [response])
    decreases |responses|
  {
    if responses != [] {
      DriveFirst(start, responses);
      DrivableOneMore(StepTrampolined(start, responses[0]).1, responses[1..], response);
      assert (responses + [response])[1..] == responses[1..] + [response];
    }
  }

  /** One more response of a run that has emitted nothing so far. */
  lemma StepOnce<V>(start: State, responses: seq<Response<V>>, used: nat)
    requires Drivable(start, responses) && used < |responses|
    requires Drivable(start, responses[..used]) && Drive(start, responses[..used]).0 == []
    ensures var state := Drive(start, responses[..used]).1;
            && Answers(state, responses[used])
            && var (item, next) := StepTrampolined(state, responses[used]);
            && Drivable(start, responses[..used + 1]) && Drivable(next, responses[used + 1..])
            && Drive(start, responses[..used + 1]) == (if item.Some? then [item.value] else [], next)
  {
    DriveSplit(start, responses, used + 1, used + 1);
    DriveLast(start, responses[..used + 1]);
    assert responses[..used + 1][..used] == responses[..used];
    var item := StepTrampolined(Drive(start, responses[..used]).1, responses[used]).0;
    if item.Some? {
      assert [] + [item.value] == [item.value];
    }
  }

  /**
  `step`: poll until something is emitted. `responses` is what the server will answer; the
  poll is still pending (`None`) only when every one of them has been consumed in silence.
   */
  method Step<V>(start: State, responses: seq<Response<V>>)
    returns (result: Option<Item<V>>, state: State, used: nat)
    requires Drivable(start, responses)
    ensures used <= |responses|
    ensures Drivable(start, responses[..used]) && Drivable(state, responses[used..])
    ensures Drive(start, responses[..used]) == (if result.Some? then [result.value] else [], state)
    ensures result.None? ==> used == |responses|
    ensures result.Some? ==>
              used > 0 && Drivable(start, responses[..used - 1]) && Drive(start, responses[..used - 1]).0 == []
  {
    state, used, result := start, 0, None;
    assert responses[0..] == responses;
    while used < |responses|
      invariant used <= |responses|
      invariant Drivable(start, responses[..used]) && Drivable(state, responses[used..])
      invariant Drive(start, responses[..used]) == ([], state)
    {
      StepOnce(start, responses, used);
      var (item, next) := StepTrampolined(state, responses[used]);
      state, used := next, used + 1;
      if item.Some? {
        return item, state, used;
      }
    }
  }

  /** One poll extends the run: `Unfold`'s loop body, on values. */
  lemma UnfoldStep<V>(done: seq<Response<V>>, polled: seq<Response<V>>, rest: seq<Response<V>>,
                      items: seq<Item<V>>, state: State)
    requires Drivable(Empty, (done + polled) + rest)
    requires Drivable(Empty, done) && Drive(Empty, done) == (items, state)
    ensures Drivable(Empty, done + polled) && Drivable(state, polled)
    ensures Drive(Empty, done + polled) == (items + Drive(state, polled).0, Drive(state, polled).1)
  {
    DriveConcat(Empty, done + polled, rest);
    DriveConcat(Empty, done, polled);
  }

  /** `watcher`: the unfolded stream of polls. It never ends of its own accord. */
  method Unfold<V>(responses: seq<Response<V>>) returns (items: seq<Item<V>>, state: State)
    requires Drivable(Empty, responses)
    ensures (items, state) == Drive(Empty, responses)
  {
    items, state := [], Empty;
    var rest := responses;
    ghost var done := [];
    while rest != []
      invariant done + rest == responses
      invariant Drivable(Empty, done) && Drivable(state, rest)
      invariant Drive(Empty, done) == (items, state)
      decreases |rest|
    {
      var result, next, used := Step(state, rest);
      ghost var polled := rest[..used];
      var later := rest[used..];
      assert responses == (done + polled) + later;
      UnfoldStep(done, polled, later, items, state);
      assert items + [] == items;
      if result.Some? {
        items := items + [result.value];
      }
      done, rest, state := done + polled, later, next;
    }
    assert done == responses;
  }

  // ----- when the machine lists again

  ghost predicate GoneBetween<V>(items: seq<Item<V>>, k: int, j: int) {
    exists m :: k < m < j && m < |items| && 0 <= m && items[m] == Err(WatchError(410))
  }

  ghost function Restarts<V>(items: seq<Item<V>>): nat {
    if items == [] then 0
    else Restarts(items[..|items| - 1]) + if items[|items| - 1].Ok? && items[|items| - 1].value.Restarted? then 1 else 0
  }

  ghost function Gones<V>(items: seq<Item<V>>): nat {
    if items == [] then 0
    else Gones(items[..|items| - 1]) + if items[|items| - 1] == Err(WatchError(410)) then 1 else 0
  }

  lemma CountsOfLonger<V>(items: seq<Item<V>>, item: Item<V>)
    ensures Restarts(items + [item]) == Restarts(items) + if item.Ok? && item.value.Restarted? then 1 else 0
    ensures Gones(items + [item]) == Gones(items) + if item == Err(WatchError(410)) then 1 else 0
  {
    assert (items + [item])[..|items|] == items;
  }

  /** What one step adds to either side of the count. */
  lemma StepBalance<V>(state: State, response: Response<V>)
    requires Answers(state, response)
    ensures var (item, next) := StepTrampolined(state, response);
            (if item.Some? && item.value.Ok? && item.value.value.Restarted? then 1 else 0)
            + (if next.Empty? then 1 else 0)
            == (if item == Some(Err(WatchError(410))) then 1 else 0) + (if state.Empty? then 1 else 0)
  {
  }

  ghost predicate RelistInv<V>(items: seq<Item<V>>, state: State) {
    && (forall k, j :: 0 <= k < j < |items| && items[k].Ok? && items[j].Ok? && items[j].value.Restarted? ==>
          GoneBetween(items, k, j))
    && (state.Empty? ==> forall k :: 0 <= k < |items| && items[k].Ok? ==> GoneBetween(items, k, |items|))
    && (!state.Empty? ==> exists k :: 0 <= k < |items| && items[k].Ok?)
    && (forall k :: 0 <= k < |items| && items[k].Ok? && !items[k].value.Restarted? ==>
          exists i :: 0 <= i < k && items[i].Ok? && items[i].value.Restarted?)
  }

  lemma GoneBetweenGrows<V>(items: seq<Item<V>>, item: Item<V>, k: int, j: int)
    requires GoneBetween(items, k, j)
    ensures GoneBetween(items + [item], k, j)
  {
    var m :| k < m < j && m < |items| && 0 <= m && items[m] == Err(WatchError(410));
    assert (items + [item])[m] == items[m];
  }

  lemma RelistInvStep<V>(items: seq<Item<V>>, state: State, response: Response<V>)
    requires RelistInv(items, state) && Answers(state, response)
    ensures var (item, next) := StepTrampolined(state, response);
            RelistInv(if item.Some? then items + [item.value] else items, next)
  {
    var (item, next) := StepTrampolined(state, response);
    if item.Some? {
      var longer := items + [item.value];
      assert longer[..|longer| - 1] == items && longer[|items|] == item.value;
      forall k, j | 0 <= k < j < |longer| && longer[k].Ok? && longer[j].Ok? && longer[j].value.Restarted?
        ensures GoneBetween(longer, k, j)
      {
        GoneBetweenGrows(items, item.value, k, j);
      }
      if next.Empty? {
        forall k | 0 <= k < |longer| && longer[k].Ok? ensures GoneBetween(longer, k, |longer|) {
          if state.Empty? {
            GoneBetweenGrows(items, item.value, k, |items|);
          } else {
            assert longer[|items|] == Err(WatchError(410));
          }
        }
      } else if item.value.Ok? {
        assert longer[|items|].Ok?;
      } else {
        var k :| 0 <= k < |items| && items[k].Ok?;
        assert longer[k].Ok?;
      }
      forall k | 0 <= k < |longer| && longer[k].Ok? && !longer[k].value.Restarted?
        ensures exists i :: 0 <= i < k && longer[i].Ok? && longer[i].value.Restarted?
      {
        FirstIsRestarted(items, state);
        if k < |items| {
          var i :| 0 <= i < k && items[i].Ok? && items[i].value.Restarted?;
          assert longer[i] == items[i];
        } else {
          var i :| 0 <= i < |items| && items[i].Ok? && items[i].value.Restarted?;
          assert longer[i] == items[i];
        }
      }
    }
  }

  lemma FirstIsRestarted<V>(items: seq<Item<V>>, state: State)
    requires RelistInv(items, state)
    ensures !state.Empty? ==> exists i :: 0 <= i < |items| && items[i].Ok? && items[i].value.Restarted?
  {
  }

  lemma {:induction false} RelistInvHolds<V>(responses: seq<Response<V>>)
    requires Drivable(Empty, responses)
    ensures RelistInv(Drive(Empty, responses).0, Drive(Empty, responses).1)
    decreases |responses|
  {
    if responses != [] {
      var n := |responses| - 1;
      DriveLast(Empty, responses);
      RelistInvHolds(responses[..n]);
      var (items, mid) := Drive(Empty, responses[..n]);
      RelistInvStep(items, mid, responses[n]);
    }
  }

  /**
  Whatever the server answers, a second `Restarted` is never seen unless a 410 item was seen
  since: between any event and a later `Restarted` the stream carries a GONE error.
   */
  lemma RestartedNeedsGone<V>(responses: seq<Response<V>>, k: nat, j: nat)
    requires Drivable(Empty, responses)
    requires var items := Drive(Empty, responses).0;
             k < j < |items| && items[k].Ok? && items[j].Ok? && items[j].value.Restarted?
    ensures GoneBetween(Drive(Empty, responses).0, k, j)
  {
    RelistInvHolds(responses);
  }

  /**
  Conservation, from any starting state: every GONE is answered by exactly one fresh list, and
  nothing else is (the last one may still be owed). So a machine that holds a version lists
  again if and only if an open stream yields a 410 item.
   */
  lemma {:induction false} RestartsCountGones<V>(start: State, responses: seq<Response<V>>)
    requires Drivable(start, responses)
    ensures var (items, last) := Drive(start, responses);
            Restarts(items) + (if last.Empty? then 1 else 0) == Gones(items) + (if start.Empty? then 1 else 0)
    decreases |responses|
  {
    if responses != [] {
      var n := |responses| - 1;
      DriveLast(start, responses);
      RestartsCountGones(start, responses[..n]);
      var (items, mid) := Drive(start, responses[..n]);
      var item := StepTrampolined(mid, responses[n]).0;
      StepBalance(mid, responses[n]);
      if item.Some? {
        CountsOfLonger(items, item.value);
      }
    }
  }

  /**
  Exactly when a held version is given up: over any answers whatsoever, the machine lists again,
  or is about to, if and only if an open stream has yielded a 410.
   */
  lemma GivenUpExactlyOnGone<V>(start: State, responses: seq<Response<V>>)
    requires Drivable(start, responses) && !start.Empty?
    ensures var (items, last) := Drive(start, responses);
            Restarts(items) > 0 || last.Empty? <==> Gones(items) > 0
  {
    RestartsCountGones(start, responses);
  }

  /**
  The recovery note on `watcher` says a version that is no longer valid leads to a fresh list.
  That is not so when the version is refused at the start of a watch: however many times in a
  row the server refuses, the machine keeps the same version and emits nothing but errors. What
  it takes to give a version up is said by `GivenUpExactlyOnGone`.
   */
  lemma {:induction false} RefusedStartNeverRelists<V>(version: nat, n: nat)
    ensures var responses: seq<Response<V>> := seq(n, _ => WatchRefused);
            Drivable(InitListed(version), responses)
            && Drive(InitListed(version), responses) == (seq(n, _ => Err(WatchStartFailed)), InitListed(version))
  {
    var responses: seq<Response<V>> := seq(n, _ => WatchRefused);
    if n > 0 {
      RefusedStartNeverRelists<V>(version, n - 1);
      assert responses[1..] == seq(n - 1, _ => WatchRefused);
      var failed: Item<V> := Err(WatchStartFailed);
      assert [failed] + seq(n - 1, _ => failed) == seq(n, _ => failed);
    }
  }
}
