/** The list/watch machine inside the protocol: what the event watcher consumes is what that machine emits. */
module EventStream {
  import opened Wrappers
  import opened Pods
  import opened Protocol
  import opened Frames
  import Watcher

  /** What the API has answered to the polls of a run. */
  ghost function Responses(moves: seq<Move>): seq<Watcher.Response<PodBody>> {
    if moves == [] then []
    else
      var (before, last) := (Responses(moves[..|moves| - 1]), moves[|moves| - 1]);
      if last.W? && last.w.Poll? then before + [last.w.response] else before
  }

  /** What the event watcher has consumed. */
  ghost function Items(log: seq<Act>): seq<Item> {
    if log == [] then []
    else
      var (before, last) := (Items(log[..|log| - 1]), log[|log| - 1]);
      if last.Consumed? then before + [last.item] else before
  }

  lemma ItemsOfLonger(log: seq<Act>, longer: seq<Act>)
    requires longer == log || Longer(log, longer)
    ensures Items(longer) ==
            if longer != log && longer[|log|].Consumed? then Items(log) + [longer[|log|].item] else Items(log)
  {
    if longer != log {
      assert longer[..|longer| - 1] == log;
    }
  }

  /** A move adds nothing to the log, or something that is not an item consumed. */
  ghost predicate LogsNoItem(log: seq<Act>, longer: seq<Act>) {
    longer == log || (Longer(log, longer) && !longer[|log|].Consumed?)
  }

  lemma WatcherLogsNoItem(s: System, move: WatcherMove)
    requires WatcherEnabled(s, move) && !move.Poll?
    ensures ApplyWatcher(s, move).w.stream == s.w.stream && LogsNoItem(s.log, ApplyWatcher(s, move).log)
  {
  }

  /** Nothing but a poll consumes an item or moves the stream. */
  lemma OnlyPollsConsume(s: System, move: Move)
    requires Enabled(s, move) && !(move.W? && move.w.Poll?)
    ensures Apply(s, move).w.stream == s.w.stream && LogsNoItem(s.log, Apply(s, move).log)
  {
    match move
    case W(w) => WatcherLogsNoItem(s, w);
    case C(c) => CheckerFrame(s, c);
    case G(g) => CollectorFrame(s, g);
    case H(h) => ShimFrame(s, h);
    case K(k) =>
      ClientFrame(s, k);
      ClientLogs(s, k);
    case _ =>
  }

  lemma PollConsumes(s: System, response: Watcher.Response<PodBody>, giveUp: bool)
    requires WatcherEnabled(s, Poll(response, giveUp))
    ensures var t := ApplyPoll(s, response, giveUp);
            var (item, next) := Watcher.StepTrampolined(s.w.stream, response);
            t.w.stream == next && t.log == if item.Some? then s.log + [Consumed(item.value)] else s.log
  {
  }

  /** The watcher has consumed what the machine emits over the given answers, and the stream stands where it ends. */
  ghost predicate Follows(s: System, responses: seq<Watcher.Response<PodBody>>) {
    && Watcher.Drivable(Watcher.Empty, responses)
    && Watcher.Drive(Watcher.Empty, responses) == (Items(s.log), s.w.stream)
  }

  lemma PollFollows(s: System, responses: seq<Watcher.Response<PodBody>>,
                    response: Watcher.Response<PodBody>, giveUp: bool)
    requires Follows(s, responses) && WatcherEnabled(s, Poll(response, giveUp))
    ensures Follows(ApplyPoll(s, response, giveUp), responses + [response])
  {
    var t := ApplyPoll(s, response, giveUp);
    PollConsumes(s, response, giveUp);
    ItemsOfLonger(s.log, t.log);
    Watcher.DriveOneMore(Watcher.Empty, responses, response);
  }

  lemma OtherFollows(s: System, responses: seq<Watcher.Response<PodBody>>, move: Move)
    requires Follows(s, responses) && Enabled(s, move) && !(move.W? && move.w.Poll?)
    ensures Follows(Apply(s, move), responses)
  {
    OnlyPollsConsume(s, move);
    ItemsOfLonger(s.log, Apply(s, move).log);
  }

  /**
  In every run the event watcher has consumed exactly what the list/watch machine emits over the
  answers the API has given, in that order, and the stream stands where that machine ends.
   */
  lemma {:induction false} ConsumedIsEmitted(ttl: nat, moves: seq<Move>)
    requires IsRun(ttl, moves)
    ensures Follows(After(ttl, moves), Responses(moves))
    decreases |moves|
  {
    if moves != [] {
      var (before, last) := (moves[..|moves| - 1], moves[|moves| - 1]);
      ConsumedIsEmitted(ttl, before);
      if last.W? && last.w.Poll? {
        PollFollows(After(ttl, before), Responses(before), last.w.response, last.w.giveUp);
      } else {
        OtherFollows(After(ttl, before), Responses(before), last);
      }
    }
  }
}
