/**
The import workflow as the code writes it: three steps in a row that give up at the first error,
and the loops that dropped values leave running in the background.

`Engine` holds what containerd holds. Before a step or an attempt of a loop is made, everyone else
may have made any number of moves. Every method keeps `Valid`: what has happened so far is a run
of the workflow and its removals, so what is proved of all runs holds here.
 */
module Importer {
  import opened Wrappers
  import opened Containerd
  import Listing

  /** The workflow's own moves; all others are made by the removals. */
  predicate IsStep(move: Move) {
    move.Import? || move.Extract? || move.Retag? || move.Push?
  }

  /** What the removals leave alone: all that the workflow has done, and which removals there are. */
  ghost predicate SameWork(s: System, t: System) {
    && t.pc == s.pc && t.listed == s.listed && t.extracted == s.extracted && t.pushed == s.pushed
    && |t.removals| == |s.removals|
    && forall i :: 0 <= i < |s.removals| ==> t.removals[i].reference == s.removals[i].reference
  }

  lemma RemovalsLeaveWork(s: System, move: Move)
    requires Enabled(s, move) && !IsStep(move)
    ensures SameWork(s, Apply(s, move))
  {
  }

  /** A removal is changed by no one but itself. */
  lemma RemovalIsAlone(s: System, move: Move, task: nat)
    requires Enabled(s, move) && task < |s.removals| && !(move.Remove? && move.task == task)
    ensures task < |Apply(s, move).removals| && Apply(s, move).removals[task] == s.removals[task]
  {
  }

  /** After the exit no reference appears. */
  lemma NothingAppears(s: System, move: Move)
    requires Enabled(s, move) && s.pc.Exited?
    ensures Apply(s, move).pc.Exited? && Apply(s, move).refs.Keys <= s.refs.Keys
    ensures move.RemoveNamespace? || Apply(s, move).namespace == s.namespace
  {
  }

  class Engine {
    var s: System
    ghost var moves: seq<Move>

    ghost predicate Valid()
      reads this
    {
      IsRun(moves) && s == After(moves)
    }

    /** A fresh namespace. */
    constructor ()
      ensures Valid() && s == Start
    {
      this.s, this.moves := Start, [];
    }

    method Make(move: Move)
      requires Valid() && Enabled(s, move)
      modifies this
      ensures Valid() && s == Apply(old(s), move)
    {
      s := Apply(s, move);
      assert (moves + [move])[..|moves|] == moves;
      moves := moves + [move];
    }

    /** Removals make any moves they can while the workflow awaits a command. */
    method Background()
      requires Valid()
      modifies this
      ensures Valid() && SameWork(old(s), s)
    {
      var n: nat := *;
      while n > 0
        invariant Valid() && SameWork(old(s), s)
      {
        var move: Move := *;
        if Enabled(s, move) && !IsStep(move) {
          RemovalsLeaveWork(s, move);
          Make(move);
        }
        n := n - 1;
      }
    }

    // ----- the steps

    /**
    `import_path`: import the file, list the namespace and read the metadata off the listing. It
    hands over an image if and only if the listing parses.
     */
    method ImportPath() returns (image: Option<TmpImage>)
      requires Valid() && s.pc.Importing?
      modifies this
      ensures Valid() && s.extracted == image
      ensures s.pc == if image.Some? then Retagging(image.value) else Exited(None)
      ensures image.Some? ==>
                && s.listed.Some? && s.refs == map[s.listed.value.reference := s.listed.value.digest]
                && ReadFrom(image.value, s.listed.value)
    {
      InvHolds(moves);
      Background();
      var images: Option<map<string, string>> := *;
      Make(Import(images));
      if images.None? {
        return None;
      }
      Background();
      var listing: Option<(Listing.Image, string)> := *;
      if !Enabled(s, Extract(listing)) {
        listing := None;
      }
      image := ExtractImageMetadata(listing);
    }

    /** `extract_image_metadata`: what the listing says, if it can be parsed. */
    method ExtractImageMetadata(listing: Option<(Listing.Image, string)>) returns (image: Option<TmpImage>)
      requires Valid() && Enabled(s, Extract(listing)) && s.extracted.None?
      modifies this
      ensures Valid() && s.extracted == image && s.refs == old(s.refs)
      ensures s.pc == if image.Some? then Retagging(image.value) else Exited(None)
      ensures image.Some? <==>
              listing.Some? && Listing.Parse(Listing.TrimEnd(Listing.Print(listing.value.0, listing.value.1))).Ok?
      ensures image.Some? ==> s.listed == Some(listing.value.0) && ReadFrom(image.value, listing.value.0)
    {
      image := None;
      if listing.Some? {
        ExtractEffect(s, listing.value.0, listing.value.1);
        var parsed := Listing.Parse(Listing.TrimEnd(Listing.Print(listing.value.0, listing.value.1)));
        if parsed.Ok? {
          image := Some(TmpImage(parsed.value.reference, parsed.value.tag, parsed.value.digest));
        }
      }
      Make(Extract(listing));
    }

    /** `Retag::retag`: a second reference to the same digest; the owner of the first one is dropped. */
    method RetagImage(image: TmpImage, repository: string, tag: string) returns (retagged: Option<TmpImage>)
      requires Valid() && s.pc == Retagging(image)
      modifies this
      ensures Valid() && s.extracted == old(s.extracted) && s.listed == old(s.listed)
      ensures retagged.Some? ==>
                && s.pc == Pushing(retagged.value)
                && retagged.value == TmpImage(repository + ":" + tag, tag, image.digest)
      ensures retagged.None? ==> s.pc == Exited(None)
      ensures |s.removals| == |old(s).removals| + 1 && s.removals[|old(s).removals|].reference == image.reference
    {
      Background();
      var ok: bool := *;
      ok := ok && image.reference in s.refs;
      Make(Containerd.Move.Retag(repository, tag, ok));
      retagged := if ok then Some(TmpImage(repository + ":" + tag, tag, image.digest)) else None;
    }

    /** `Push::push`: the image goes to the registry and its owner is consumed, either way. */
    method PushImage(image: TmpImage) returns (result: Option<Image>)
      requires Valid() && s.pc == Pushing(image)
      modifies this
      ensures Valid() && s.pc == Exited(result) && s.extracted == old(s.extracted) && s.listed == old(s.listed)
      ensures result.Some? ==>
                && result.value == Image(image.tag, image.digest)
                && s.pushed.Some? && s.pushed.value.0 == image.reference
      ensures |s.removals| == |old(s).removals| + 1 && s.removals[|old(s).removals|].reference == image.reference
    {
      Background();
      var ok: bool := *;
      ok := ok && image.reference in s.refs;
      Make(Containerd.Move.Push(ok));
      result := if ok then Some(Image(image.tag, image.digest)) else None;
    }

    /**
    `import`: all of it. However it ends, every reference has a removal on its way if the metadata
    was ever extracted; and an image that is returned was pushed under the new tag with the imported
    digest, which is the digest returned if and only if the listing was readable.
     */
    method ImportImage(repository: string, tag: string) returns (result: Option<Image>)
      requires Valid() && s.pc.Importing?
      modifies this
      ensures Valid() && s.pc == Exited(result)
      ensures s.extracted.Some? ==>
                forall reference :: reference in s.refs ==>
                  exists i :: 0 <= i < |s.removals| && s.removals[i].reference == reference
                              && !s.removals[i].progress.Removed?
      ensures result.Some? ==>
                && s.listed.Some? && s.pushed == Some((repository + ":" + tag, s.listed.value.digest))
                && result.value.tag == tag
                && (result.value.digest == s.listed.value.digest <==> Listing.Readable(s.listed.value))
    {
      var image := ImportPath();
      if image.None? {
        return None;
      }
      InvHolds(moves);
      var retagged := RetagImage(image.value, repository, tag);
      if retagged.None? {
        InvHolds(moves);
        return None;
      }
      result := PushImage(retagged.value);
      InvHolds(moves);
    }

    // ----- what dropped values leave running

    /** Everyone but the given removal moves. */
    method OthersThanRemoval(task: nat)
      requires Valid() && task < |s.removals|
      modifies this
      ensures Valid() && task < |s.removals| && s.removals[task] == old(s.removals[task])
    {
      var n: nat := *;
      while n > 0
        invariant Valid() && task < |s.removals| && s.removals[task] == old(s.removals[task])
      {
        var move: Move := *;
        if Enabled(s, move) && !(move.Remove? && move.task == task) {
          RemovalIsAlone(s, move, task);
          Make(move);
        }
        n := n - 1;
      }
    }

    /**
    `Drop for TmpImage`: attempt the removal until it succeeds or the backoff, which grants a
    pause `grants` times, grants none. It ends after at most one attempt more than there were
    pauses: with the reference gone, or because every single attempt failed.
     */
    method DropImage(task: nat, grants: nat) returns (removed: bool, attempts: nat)
      requires Valid() && task < |s.removals| && s.removals[task].progress.Retrying?
      modifies this
      ensures Valid() && task < |s.removals| && s.removals[task].reference == old(s.removals[task].reference)
      ensures s.removals[task].progress == if removed then Removed else GaveUp
      ensures removed ==> s.removals[task].reference !in s.refs
      ensures 1 <= attempts <= grants + 1
      ensures !removed ==> attempts == grants + 1
    {
      removed, attempts := false, 0;
      while true
        invariant Valid() && task < |s.removals| && s.removals[task] == old(s.removals[task])
        invariant attempts <= grants
        decreases grants - attempts
      {
        OthersThanRemoval(task);
        var ok: bool := *;
        var pause := attempts < grants;
        attempts := attempts + 1;
        Make(Remove(task, ok, !pause));
        if ok {
          return true, attempts;
        } else if !pause {
          return false, attempts;
        }
      }
    }

    /** Everyone but the removal of the namespace moves. */
    method OthersThanNamespace()
      requires Valid() && s.namespace == Some(Retrying)
      modifies this
      ensures Valid() && s.namespace == Some(Retrying)
      ensures s.refs.Keys <= old(s.refs).Keys
    {
      InvHolds(moves);
      var n: nat := *;
      while n > 0
        invariant Valid() && s.namespace == Some(Retrying) && s.pc.Exited?
        invariant s.refs.Keys <= old(s.refs).Keys
      {
        var move: Move := *;
        if Enabled(s, move) && !move.RemoveNamespace? {
          NothingAppears(s, move);
          Make(move);
        }
        n := n - 1;
      }
    }

    /**
    `Drop for Namespace`: the same loop. It succeeds only with every reference gone; if nothing
    was left to begin with, only containerd itself can make it fail.
     */
    method DropNamespace(grants: nat) returns (removed: bool, attempts: nat)
      requires Valid() && s.namespace == Some(Retrying)
      modifies this
      ensures Valid() && s.namespace == Some(if removed then Removed else GaveUp)
      ensures removed ==> s.refs == map[]
      ensures 1 <= attempts <= grants + 1
      ensures !removed ==> attempts == grants + 1
      ensures s.refs.Keys <= old(s.refs).Keys
    {
      removed, attempts := false, 0;
      while true
        invariant Valid() && s.namespace == Some(Retrying)
        invariant attempts <= grants
        invariant s.refs.Keys <= old(s.refs).Keys
        decreases grants - attempts
      {
        OthersThanNamespace();
        var ok: bool := *;
        ok := ok && s.refs == map[];
        var pause := attempts < grants;
        attempts := attempts + 1;
        Make(RemoveNamespace(ok, !pause));
        if ok {
          return true, attempts;
        } else if !pause {
          return false, attempts;
        }
      }
    }
  }
}
