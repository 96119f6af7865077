/**
What the list/watch machine makes of the API's answers, told from the answers alone: what it has
emitted, whether it has to list, whether it has a stream open, and at which version it stands.
 */
module WatchAnswers {
  import opened Wrappers
  import opened Watcher

  // ----- read off the answers, with no machine in sight

  /** What an answer has to say to whoever polls. */
  ghost function Said<V>(response: Response<V>): seq<Item<V>> {
    match response
    case Listed(items, _) => [Ok(Restarted(items))]
    case ListFailed => [Err(InitialListFailed)]
    case WatchOpened => []
    case WatchRefused => [Err(WatchStartFailed)]
    case Next(WAdded(obj)) => [Ok(Added(obj))]
    case Next(WModified(obj)) => [Ok(Applied(obj))]
    case Next(WDeleted(obj)) => [Ok(Deleted(obj))]
    case Next(WBookmark(_)) => []
    case Next(WError(code)) => [Err(WatchError(code))]
    case Broken => [Err(WatchFailed)]
    case Ended => []
  }

  ghost function AllSaid<V>(responses: seq<Response<V>>): seq<Item<V>> {
    if responses == [] then [] else AllSaid(responses[..|responses| - 1]) + Said(responses[|responses| - 1])
  }

  predicate Expires<V>(response: Response<V>) { response.Next? && response.item.WError? && response.item.code == 410 }

  /** The latest list still stands: no 410 has come since. */
  ghost predicate Holds<V>(responses: seq<Response<V>>) {
    exists k :: 0 <= k < |responses| && responses[k].Listed?
                && forall j :: k < j < |responses| ==> !Expires(responses[j])
  }

  /** The latest watch is still open: it has neither ended nor expired since. */
  ghost predicate IsOpen<V>(responses: seq<Response<V>>) {
    exists k :: 0 <= k < |responses| && responses[k].WatchOpened?
                && forall j :: k < j < |responses| ==> !Expires(responses[j]) && !responses[j].Ended?
  }

  /** The version an answer carries. */
  function Stamp<V>(response: Response<V>): Option<nat> {
    match response
    case Listed(_, version) => Some(version)
    case Next(WAdded(obj)) => Some(obj.version)
    case Next(WModified(obj)) => Some(obj.version)
    case Next(WDeleted(obj)) => Some(obj.version)
    case Next(WBookmark(version)) => Some(version)
    case _ => None
  }

  ghost predicate IsLatestStamp<V>(responses: seq<Response<V>>, version: nat) {
    exists k :: 0 <= k < |responses| && Stamp(responses[k]) == Some(version)
                && forall j :: k < j < |responses| ==> Stamp(responses[j]).None?
  }

  // ----- one more answer

  lemma HoldsGrows<V>(responses: seq<Response<V>>, response: Response<V>)
    ensures Holds(responses + [response]) <==> response.Listed? || (Holds(responses) && !Expires(response))
  {
    var longer := responses + [response];
    assert longer[|responses|] == response;
    if Holds(longer) && !response.Listed? {
      var k :| 0 <= k < |longer| && longer[k].Listed? && forall j :: k < j < |longer| ==> !Expires(longer[j]);
      assert responses[k] == longer[k];
      assert forall j :: k < j < |responses| ==> responses[j] == longer[j];
    }
    if Holds(responses) && !Expires(response) {
      var k :| 0 <= k < |responses| && responses[k].Listed?
               && forall j :: k < j < |responses| ==> !Expires(responses[j]);
      assert longer[k] == responses[k];
    }
  }

  lemma OpenGrows<V>(responses: seq<Response<V>>, response: Response<V>)
    ensures IsOpen(responses + [response]) <==>
            response.WatchOpened? || (IsOpen(responses) && !Expires(response) && !response.Ended?)
  {
    var longer := responses + [response];
    assert longer[|responses|] == response;
    if IsOpen(longer) && !response.WatchOpened? {
      var k :| 0 <= k < |longer| && longer[k].WatchOpened?
               && forall j :: k < j < |longer| ==> !Expires(longer[j]) && !longer[j].Ended?;
      assert responses[k] == longer[k];
      assert forall j :: k < j < |responses| ==> responses[j] == longer[j];
    }
    if IsOpen(responses) && !Expires(response) && !response.Ended? {
      var k :| 0 <= k < |responses| && responses[k].WatchOpened?
               && forall j :: k < j < |responses| ==> !Expires(responses[j]) && !responses[j].Ended?;
      assert longer[k] == responses[k];
    }
  }

  lemma StampGrows<V>(responses: seq<Response<V>>, response: Response<V>, version: nat)
    ensures Stamp(response) == Some(version) ==> IsLatestStamp(responses + [response], version)
    ensures Stamp(response).None? && IsLatestStamp(responses, version) ==>
              IsLatestStamp(responses + [response], version)
  {
    var longer := responses + [response];
    assert longer[|responses|] == response;
    if Stamp(response).None? && IsLatestStamp(responses, version) {
      var k :| 0 <= k < |responses| && Stamp(responses[k]) == Some(version)
               && forall j :: k < j < |responses| ==> Stamp(responses[j]).None?;
      assert longer[k] == responses[k];
    }
  }

  // ----- the machine

  /** The machine is where the answers say. */
  ghost predicate Stands<V>(responses: seq<Response<V>>, items: seq<Item<V>>, state: State) {
    && items == AllSaid(responses)
    && (state.Empty? <==> !Holds(responses))
    && (state.Watching? <==> IsOpen(responses))
    && (!state.Empty? ==> IsLatestStamp(responses, state.version))
  }

  /** One step, whatever came before. */
  lemma StepStands<V>(responses: seq<Response<V>>, items: seq<Item<V>>, state: State, response: Response<V>)
    requires Stands(responses, items, state) && Answers(state, response)
    ensures var (item, next) := StepTrampolined(state, response);
            Stands(responses + [response], if item.Some? then items + [item.value] else items, next)
  {
    var (item, next) := StepTrampolined(state, response);
    HoldsGrows(responses, response);
    OpenGrows(responses, response);
    assert (responses + [response])[..|responses|] == responses;
    assert items + [] == items;
    if !next.Empty? {
      StampGrows(responses, response, next.version);
    }
  }

  lemma OneMoreTells<V>(before: seq<Response<V>>, last: Response<V>, responses: seq<Response<V>>)
    requires responses == before + [last] && Drivable(Empty, responses)
    requires Drivable(Empty, before) && Stands(before, Drive(Empty, before).0, Drive(Empty, before).1)
    ensures Stands(responses, Drive(Empty, responses).0, Drive(Empty, responses).1)
  {
    assert responses[..|responses| - 1] == before && responses[|responses| - 1] == last;
    DriveLast(Empty, responses);
    StepStands(before, Drive(Empty, before).0, Drive(Empty, before).1, last);
  }

  /**
  The machine is told entirely by the answers: it has emitted what they said and nothing else; it has
  to list exactly if no list stands; it reads a stream exactly if the latest one opened has not
  ended or expired; and the version it holds is the latest one it was given.
   */
  lemma {:induction false} AnswersTell<V>(responses: seq<Response<V>>)
    requires Drivable(Empty, responses)
    ensures Stands(responses, Drive(Empty, responses).0, Drive(Empty, responses).1)
    decreases |responses|
  {
    if responses != [] {
      var (before, last) := (responses[..|responses| - 1], responses[|responses| - 1]);
      DriveLast(Empty, responses);
      AnswersTell(before);
      OneMoreTells(before, last, responses);
    }
  }

  /** What is answered fits where the answers before it have brought the machine. */
  lemma AnswerFits<V>(before: seq<Response<V>>, rest: seq<Response<V>>)
    requires Drivable(Empty, before + rest) && rest != []
    ensures Drivable(Empty, before) && Answers(Drive(Empty, before).1, rest[0])
  {
    DriveConcat(Empty, before, rest);
  }

  /** A stream that has ended is never read again: between its end and anything later read, a watch is opened. */
  lemma EndedIsReopened<V>(responses: seq<Response<V>>, i: nat, j: nat)
    requires Drivable(Empty, responses) && i < j < |responses|
    requires responses[i].Ended? && (responses[j].Next? || responses[j].Broken? || responses[j].Ended?)
    ensures exists k :: i < k < j && responses[k].WatchOpened?
  {
    var (before, rest) := (responses[..j], responses[j..]);
    assert before + rest == responses;
    AnswerFits(before, rest);
    AnswersTell(before);
    OpenedSince(before, i);
    var k :| i < k < |before| && before[k].WatchOpened?;
    assert responses[k] == before[k];
  }

  lemma OpenedSince<V>(responses: seq<Response<V>>, i: nat)
    requires IsOpen(responses) && i < |responses| && responses[i].Ended?
    ensures exists k :: i < k < |responses| && responses[k].WatchOpened?
  {
  }
}
