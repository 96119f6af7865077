/**
Any number of deployments side by side, sharing the one cache of
k8s/service/acm/src/podmanager/mod.rs. Each has a name of its own, its own tasks and its own
clock; registration and cleanup are what touches the cache.
 */
module Deployments {
  import opened Protocol
  import opened PodManager
  import opened Frames

  datatype World = World(managers: map<string, System>, cache: set<string>)

  datatype WorldMove =
    | Deploy(name: string, ttl: nat)
    | Local(name: string, move: Move)

  predicate WorldEnabled(world: World, move: WorldMove) {
    match move
    case Deploy(name, _) => name !in world.managers
    case Local(name, local) =>
      && name in world.managers
      && Enabled(world.managers[name], local)
      && (local == K(Get) ==> name in world.cache)
  }

  function WorldApply(world: World, move: WorldMove): World
    requires WorldEnabled(world, move)
  {
    match move
    case Deploy(name, ttl) => world.(managers := world.managers[name := Initial(ttl)])
    case Local(name, local) =>
      World(
        world.managers[name := Apply(world.managers[name], local)],
        if local.Register? then world.cache + {name}
        else if local.Cleanup? then world.cache - {name}
        else world.cache)
  }

  predicate IsWorldRun(moves: seq<WorldMove>)
    decreases |moves|, 0
  {
    moves != [] ==>
      && IsWorldRun(moves[..|moves| - 1])
      && WorldEnabled(WorldAfter(moves[..|moves| - 1]), moves[|moves| - 1])
  }

  function WorldAfter(moves: seq<WorldMove>): World
    requires IsWorldRun(moves)
    decreases |moves|, 1
  {
    if moves == [] then World(map[], {}) else WorldApply(WorldAfter(moves[..|moves| - 1]), moves[|moves| - 1])
  }

  // ----- each deployment is a run of the protocol

  function MovesOf(moves: seq<WorldMove>, name: string): seq<Move> {
    if moves == [] then []
    else
      var (before, last) := (MovesOf(moves[..|moves| - 1], name), moves[|moves| - 1]);
      if last.Local? && last.name == name then before + [last.move] else before
  }

  /** Seen alone, a deployment behaves as if the others were not there. */
  lemma {:induction false} Projection(moves: seq<WorldMove>, name: string)
    requires IsWorldRun(moves)
    ensures name !in WorldAfter(moves).managers ==> MovesOf(moves, name) == []
    ensures name in WorldAfter(moves).managers ==>
              var s := WorldAfter(moves).managers[name];
              IsRun(s.g.ttl, MovesOf(moves, name)) && s == After(s.g.ttl, MovesOf(moves, name))
    decreases |moves|
  {
    if moves != [] {
      var before := moves[..|moves| - 1];
      var last := moves[|moves| - 1];
      Projection(before, name);
      if last.Local? && last.name == name {
        var s := WorldAfter(before).managers[name];
        TtlIsFixed(s, last.move);
        var local := MovesOf(before, name);
        assert (local + [last.move])[..|local|] == local;
      }
    }
  }

  ghost predicate CacheMirrors(world: World) {
    && world.cache <= world.managers.Keys
    && forall name :: name in world.managers ==> (name in world.cache <==> world.managers[name].m.cached)
  }

  lemma OnlyTheseTouchCache(s: System, move: Move)
    requires Enabled(s, move)
    ensures Apply(s, move).m.cached == (if move.Register? then true else if move.Cleanup? then false else s.m.cached)
  {
    if !move.Register? && !move.Cleanup? {
      RegistrationFrame(s, move);
    }
  }

  lemma {:induction false} CacheMirrorsHolds(moves: seq<WorldMove>)
    requires IsWorldRun(moves)
    ensures CacheMirrors(WorldAfter(moves))
    decreases |moves|
  {
    if moves != [] {
      var before := moves[..|moves| - 1];
      var last := moves[|moves| - 1];
      CacheMirrorsHolds(before);
      if last.Local? {
        OnlyTheseTouchCache(WorldAfter(before).managers[last.name], last.move);
      }
    }
  }

  // ----- what the cache holds

  predicate AnyTaskAlive(s: System) { WatcherAlive(s.w) || CollectorAlive(s.g) || ShimAlive(s.h) }

  /**
  However many deployments there are, a registered pod manager can be found for as long as any
  of its tasks lives, and exactly until its cleanup unless it was registered after that.
   */
  lemma FoundWhileAlive(moves: seq<WorldMove>, name: string)
    requires IsWorldRun(moves) && name in WorldAfter(moves).managers
    ensures var world := WorldAfter(moves);
            var s := world.managers[name];
            && (s.m.registered && AnyTaskAlive(s) ==> name in world.cache)
            && (name in world.cache <==> s.m.registered && (s.m.cleaned ==> s.m.late))
  {
    Projection(moves, name);
    CacheMirrorsHolds(moves);
    var s := WorldAfter(moves).managers[name];
    EntryFollowsTasks(s.g.ttl, MovesOf(moves, name));
  }

  /** Once every cleanup has run the cache is empty if and only if no manager was registered after its own. */
  lemma CacheDrains(moves: seq<WorldMove>)
    requires IsWorldRun(moves)
    requires forall name :: name in WorldAfter(moves).managers ==> WorldAfter(moves).managers[name].m.cleaned
    ensures WorldAfter(moves).cache == {} <==>
            forall name :: name in WorldAfter(moves).managers ==> !WorldAfter(moves).managers[name].m.late
  {
    CacheMirrorsHolds(moves);
    var world := WorldAfter(moves);
    forall name | name in world.managers ensures name in world.cache <==> world.managers[name].m.late {
      FoundWhileAlive(moves, name);
      if world.managers[name].m.late {
        LateIsRegistered(moves, name);
      }
    }
  }

  lemma LateIsRegistered(moves: seq<WorldMove>, name: string)
    requires IsWorldRun(moves) && name in WorldAfter(moves).managers && WorldAfter(moves).managers[name].m.late
    ensures WorldAfter(moves).managers[name].m.registered
  {
    Projection(moves, name);
    InvHolds(WorldAfter(moves).managers[name].g.ttl, MovesOf(moves, name));
  }

  lemma RemovedStaysRemoved(s: System, move: Move)
    requires Enabled(s, move) && s.m.registered && !s.m.cached
    ensures var t := Apply(s, move); t.m.registered && !t.m.cached
  {
    if !move.Cleanup? {
      RegistrationFrame(s, move);
    }
  }

  /** An entry that was registered and is no longer there never returns, whatever happens afterwards. */
  lemma {:induction false} NeverReturns(moves: seq<WorldMove>, more: seq<WorldMove>, name: string)
    requires IsWorldRun(moves + more) && IsWorldRun(moves) && name in WorldAfter(moves).managers
    requires WorldAfter(moves).managers[name].m.registered && name !in WorldAfter(moves).cache
    ensures name in WorldAfter(moves + more).managers && name !in WorldAfter(moves + more).cache
    ensures var s := WorldAfter(moves + more).managers[name]; s.m.registered && !s.m.cached
    decreases |more|
  {
    if more == [] {
      assert moves + more == moves;
      CacheMirrorsHolds(moves);
    } else {
      var last := more[|more| - 1];
      assert (moves + more)[..|moves + more| - 1] == moves + more[..|more| - 1];
      NeverReturns(moves, more[..|more| - 1], name);
      var world := WorldAfter(moves + more[..|more| - 1]);
      if last.Local? && last.name == name {
        RemovedStaysRemoved(world.managers[name], last.move);
      }
      CacheMirrorsHolds(moves + more);
    }
  }
}
