/**
The import workflow of k8s/service/aim/src/registry/containerd: import, retag, push, and the
removals that dropping its values spawns.

A `TmpImage` is owned by exactly one step of the workflow; when that step lets go of it, a
background task starts removing its reference, retrying until it succeeds or the backoff gives
up. The namespace is dropped last and has such a task too. A `ctr` command that fails changes
nothing, and containerd does not remove a namespace that still holds references.
 */
module Containerd {
  import opened Wrappers
  import Listing

  datatype TmpImage = TmpImage(reference: string, tag: string, digest: string)

  datatype Image = Image(tag: string, digest: string)

  datatype Workflow =
    | Importing
    | Extracting
    | Retagging(image: TmpImage)
    | Pushing(image: TmpImage)
    | Exited(result: Option<Image>)

  datatype Progress = Retrying | Removed | GaveUp

  datatype Removal = Removal(reference: string, progress: Progress)

  /**
  `refs` maps the references present in the namespace to digests. History: the image that was
  listed after the import, the metadata read off that listing, and the reference and digest that
  were pushed.
   */
  datatype System = System(
    pc: Workflow,
    refs: map<string, string>,
    removals: seq<Removal>,
    namespace: Option<Progress>,
    listed: Option<Listing.Image>,
    extracted: Option<TmpImage>,
    pushed: Option<(string, string)>)

  /**
  `Extract` carries the listing of the one image there is and the rest of its header; or nothing,
  if the command fails or there is not exactly one image, which the parser refuses.
   */
  datatype Move =
    | Import(images: Option<map<string, string>>)
    | Extract(listing: Option<(Listing.Image, string)>)
    | Retag(repository: string, tag: string, ok: bool)
    | Push(ok: bool)
    | Remove(task: nat, ok: bool, giveUp: bool)
    | RemoveNamespace(ok: bool, giveUp: bool)

  const Start := System(Importing, map[], [], None, None, None, None)

  predicate Enabled(s: System, move: Move) {
    match move
    case Import(_) => s.pc.Importing?
    case Extract(None) => s.pc.Extracting?
    case Extract(Some((image, headerRest))) =>
      s.pc.Extracting? && s.refs == map[image.reference := image.digest] && Listing.Printable(image, headerRest)
    case Retag(_, _, ok) => s.pc.Retagging? && (ok ==> s.pc.image.reference in s.refs)
    case Push(ok) => s.pc.Pushing? && (ok ==> s.pc.image.reference in s.refs)
    // Removing a reference that is not there may succeed or fail.
    case Remove(task, _, _) => task < |s.removals| && s.removals[task].progress.Retrying?
    case RemoveNamespace(ok, _) => s.namespace == Some(Retrying) && (ok ==> s.refs == map[])
  }

  /** Dropping a `TmpImage` starts its removal. */
  function Drop(s: System, image: TmpImage): System {
    s.(removals := s.removals + [Removal(image.reference, Retrying)])
  }

  /** The workflow returns: what it still owns has been dropped, and now the namespace is. */
  function Exit(s: System, result: Option<Image>): System {
    s.(pc := Exited(result), namespace := Some(Retrying))
  }

  function Outcome(ok: bool, giveUp: bool): Progress {
    if ok then Removed else if giveUp then GaveUp else Retrying
  }

  /** Parse what the command printed, as the command runner hands it over. */
  function ApplyExtract(s: System, image: Listing.Image, headerRest: string): System {
    match Listing.Parse(Listing.TrimEnd(Listing.Print(image, headerRest)))
    case Err(_) => Exit(s, None)
    case Ok(read) =>
      var owned := TmpImage(read.reference, read.tag, read.digest);
      s.(pc := Retagging(owned), listed := Some(image), extracted := Some(owned))
  }

  function Apply(s: System, move: Move): System
    requires Enabled(s, move)
  {
    match move
    case Import(None) => Exit(s, None)
    case Import(Some(images)) => s.(pc := Extracting, refs := images)
    case Extract(None) => Exit(s, None)
    case Extract(Some((image, headerRest))) => ApplyExtract(s, image, headerRest)
    case Retag(repository, tag, ok) =>
      var original := s.pc.image;
      var reference := repository + ":" + tag;
      if !ok then Exit(Drop(s, original), None)
      else
        Drop(s.(refs := s.refs[reference := s.refs[original.reference]],
                pc := Pushing(TmpImage(reference, tag, original.digest))), original)
    case Push(ok) =>
      var image := s.pc.image;
      if !ok then Exit(Drop(s, image), None)
      else
        Exit(Drop(s.(pushed := Some((image.reference, s.refs[image.reference]))), image),
             Some(Image(image.tag, image.digest)))
    case Remove(task, ok, giveUp) =>
      var removal := s.removals[task];
      s.(refs := if ok then s.refs - {removal.reference} else s.refs,
         removals := s.removals[task := removal.(progress := Outcome(ok, giveUp))])
    case RemoveNamespace(ok, giveUp) => s.(namespace := Some(Outcome(ok, giveUp)))
  }

  predicate IsRun(moves: seq<Move>)
    decreases |moves|, 0
  {
    moves != [] ==> IsRun(moves[..|moves| - 1]) && Enabled(After(moves[..|moves| - 1]), moves[|moves| - 1])
  }

  function After(moves: seq<Move>): System
    requires IsRun(moves)
    decreases |moves|, 1
  {
    if moves == [] then Start else Apply(After(moves[..|moves| - 1]), moves[|moves| - 1])
  }

  // ----- what every move keeps

  /** The reference the running step owns, if any. */
  function Owned(s: System): Option<string> {
    if s.pc.Retagging? || s.pc.Pushing? then Some(s.pc.image.reference) else None
  }

  /** Someone is answerable for the reference: its owner, its removal, or a removal that gave up and said so. */
  ghost predicate Covered(s: System, reference: string) {
    || Owned(s) == Some(reference)
    || exists i :: 0 <= i < |s.removals| && s.removals[i].reference == reference && !s.removals[i].progress.Removed?
  }

  ghost predicate AllCovered(s: System) {
    forall reference :: reference in s.refs ==> Covered(s, reference)
  }

  ghost predicate Inv(s: System) {
    && (s.extracted.Some? ==> AllCovered(s))
    && (s.extracted.None? ==> s.removals == [] && (s.pc.Importing? || s.pc.Extracting? || s.pc.Exited?))
    && (s.extracted.Some? <== s.pc.Retagging? || s.pc.Pushing?)
    && (s.extracted.Some? ==> s.pc.Retagging? || s.pc.Pushing? || s.pc.Exited?)
    && (s.pc.Importing? ==> s.refs == map[])
    && (s.namespace.Some? <==> s.pc.Exited?)
    && (s.namespace == Some(Removed) ==> s.refs == map[])
  }

  /**
  The digest never changes on the way: what is present and pushed is what was imported, and what is
  owned and returned is what was read. The two are the same exactly when the listing was readable.
   */
  ghost predicate DigestInv(s: System) {
    && (s.extracted.Some? ==> s.listed.Some? && ReadFrom(s.extracted.value, s.listed.value))
    && (s.pc.Retagging? || s.pc.Pushing? ==> s.extracted.Some? && s.pc.image.digest == s.extracted.value.digest)
    && (s.extracted.Some? ==> forall reference :: reference in s.refs ==> s.refs[reference] == s.listed.value.digest)
    && (s.pc.Exited? && s.pc.result.Some? ==>
          && s.extracted.Some? && s.pushed.Some?
          && s.pc.result.value.digest == s.extracted.value.digest
          && s.pushed.value.1 == s.listed.value.digest
          && HasTag(s.pushed.value.0, s.pc.result.value.tag))
    && (s.pc.Pushing? ==> HasTag(s.pc.image.reference, s.pc.image.tag))
  }

  /** The metadata has the listed reference and, exactly if the listing is readable, its digest. */
  ghost predicate ReadFrom(image: TmpImage, listed: Listing.Image) {
    && image.reference == listed.reference
    && (image.digest == listed.digest <==> Listing.Readable(listed))
  }

  predicate HasTag(reference: string, tag: string) {
    |tag| < |reference| && reference[|reference| - |tag| - 1..] == ":" + tag
  }

  /** Every `TmpImage` made is dropped once: one when it was extracted, one more when it was retagged. */
  ghost predicate DropInv(s: System) {
    && (s.pc.Retagging? ==> |s.removals| == 0 && s.extracted == Some(s.pc.image))
    && (s.pc.Pushing? ==>
          s.extracted.Some? && |s.removals| == 1 && s.removals[0].reference == s.extracted.value.reference)
    && (s.pc.Exited? ==> |s.removals| <= 2)
    && (s.pc.Exited? && s.extracted.Some? ==>
          |s.removals| >= 1 && s.removals[0].reference == s.extracted.value.reference)
    && (s.pc.Exited? && s.pc.result.Some? ==>
          |s.removals| == 2 && s.pushed.Some? && s.removals[1].reference == s.pushed.value.0)
  }

  lemma ExtractEffect(s: System, image: Listing.Image, headerRest: string)
    requires Enabled(s, Extract(Some((image, headerRest))))
    ensures var t := ApplyExtract(s, image, headerRest);
            || t == Exit(s, None)
            || (exists owned ::
                  t == s.(pc := Retagging(owned), listed := Some(image), extracted := Some(owned))
                  && ReadFrom(owned, image))
  {
    if Listing.Parse(Listing.TrimEnd(Listing.Print(image, headerRest))).Ok? {
      Listing.ReferenceIsRead(image, headerRest);
      Listing.DigestIsRead(image, headerRest);
    }
  }

  lemma CoverageStep(s: System, move: Move)
    requires Inv(s) && s.extracted.Some? && Enabled(s, move)
    ensures AllCovered(Apply(s, move))
  {
    var t := Apply(s, move);
    forall reference | reference in t.refs ensures Covered(t, reference) {
      if Owned(s) == Some(reference) && Owned(t) != Some(reference) {
        assert t.removals[|s.removals|].reference == reference;
      } else if Owned(t) != Some(reference) {
        assert reference in s.refs;
        var i :| 0 <= i < |s.removals| && s.removals[i].reference == reference && !s.removals[i].progress.Removed?;
        assert t.removals[i].reference == reference && !t.removals[i].progress.Removed?;
      }
    }
  }

  lemma InvStep(s: System, move: Move)
    requires Inv(s) && DigestInv(s) && DropInv(s) && Enabled(s, move)
    ensures Inv(Apply(s, move)) && DigestInv(Apply(s, move)) && DropInv(Apply(s, move))
  {
    if s.extracted.Some? {
      CoverageStep(s, move);
    }
    if move.Extract? && move.listing.Some? {
      ExtractEffect(s, move.listing.value.0, move.listing.value.1);
    }
  }

  lemma {:induction false} InvHolds(moves: seq<Move>)
    requires IsRun(moves)
    ensures Inv(After(moves)) && DigestInv(After(moves)) && DropInv(After(moves))
    decreases |moves|
  {
    if moves != [] {
      InvHolds(moves[..|moves| - 1]);
      InvStep(After(moves[..|moves| - 1]), moves[|moves| - 1]);
    }
  }

  // ----- the promises

  /**
  Once the metadata is extracted, at every moment and on every exit path each reference in the
  namespace has someone answerable for it; at exit that is a removal.
   */
  lemma NothingIsForgotten(moves: seq<Move>, reference: string)
    requires IsRun(moves) && After(moves).extracted.Some? && reference in After(moves).refs
    ensures Covered(After(moves), reference)
    ensures After(moves).pc.Exited? ==>
              exists i :: 0 <= i < |After(moves).removals| && After(moves).removals[i].reference == reference
                          && !After(moves).removals[i].progress.Removed?
  {
    InvHolds(moves);
  }

  /** The namespace is gone only after every reference is. */
  lemma NamespaceGoesLast(moves: seq<Move>)
    requires IsRun(moves) && After(moves).namespace == Some(Removed)
    ensures After(moves).pc.Exited? && After(moves).refs == map[]
  {
    InvHolds(moves);
  }

  /** If every removal has succeeded, nothing stands in the way of removing the namespace. */
  lemma NamespaceCanGo(moves: seq<Move>)
    requires IsRun(moves) && After(moves).extracted.Some? && After(moves).namespace == Some(Retrying)
    requires forall i :: 0 <= i < |After(moves).removals| ==> After(moves).removals[i].progress.Removed?
    ensures Enabled(After(moves), RemoveNamespace(true, false))
  {
    InvHolds(moves);
    var s := After(moves);
    assert forall reference :: reference in s.refs ==> !Covered(s, reference);
    assert s.refs.Keys == {};
    assert s.refs == map[];
  }

  /**
  What is pushed is what was imported, under the tag that is returned, and both temporary images
  were dropped. The digest returned with it is the imported one if and only if the listing it was
  read from is readable.
   */
  lemma ReturnedImageIsTheImported(moves: seq<Move>)
    requires IsRun(moves) && After(moves).pc.Exited? && After(moves).pc.result.Some?
    ensures var s := After(moves);
            && s.listed.Some? && s.pushed.Some?
            && s.pushed.value.1 == s.listed.value.digest
            && (s.pc.result.value.digest == s.listed.value.digest <==> Listing.Readable(s.listed.value))
            && HasTag(s.pushed.value.0, s.pc.result.value.tag)
            && |s.removals| == 2
            && s.removals[0].reference == s.listed.value.reference
            && s.removals[1].reference == s.pushed.value.0
  {
    InvHolds(moves);
  }

  /** Until the listing, what is present is what was imported. */
  lemma ExtractingStep(s: System, move: Move)
    requires Inv(s) && Enabled(s, move) && Apply(s, move).pc.Extracting?
    ensures (s.pc.Extracting? && Apply(s, move).refs == s.refs) || move == Import(Some(Apply(s, move).refs))
  {
  }

  lemma ListedStep(s: System, move: Move)
    requires Enabled(s, move) && Apply(s, move).listed != s.listed
    ensures var image := Apply(s, move).listed;
            s.pc.Extracting? && image.Some? && s.refs == map[image.value.reference := image.value.digest]
  {
  }

  lemma {:induction false} PresentIsImported(moves: seq<Move>)
    requires IsRun(moves) && After(moves).pc.Extracting?
    ensures Import(Some(After(moves).refs)) in moves
    decreases |moves|
  {
    var (before, last) := (moves[..|moves| - 1], moves[|moves| - 1]);
    InvHolds(before);
    ExtractingStep(After(before), last);
    if last == Import(Some(After(moves).refs)) {
      assert last in moves;
    } else {
      PresentIsImported(before);
    }
  }

  /** The listing is that of the one image that was imported. */
  lemma {:induction false} ListedIsImported(moves: seq<Move>)
    requires IsRun(moves) && After(moves).listed.Some?
    ensures var image := After(moves).listed.value;
            Import(Some(map[image.reference := image.digest])) in moves
    decreases |moves|
  {
    var (before, last) := (moves[..|moves| - 1], moves[|moves| - 1]);
    if After(before).listed == After(moves).listed {
      ListedIsImported(before);
    } else {
      ListedStep(After(before), last);
      PresentIsImported(before);
    }
  }

  /** A listing that is not readable can be met, and then the digest that is returned is not the imported one. */
  lemma WrongDigestCanHappen(repository: string, tag: string)
    ensures exists moves :: IsRun(moves) && After(moves).pc == Exited(Some(Image(tag, "")))
                            && After(moves).pushed == Some((repository + ":" + tag, "d"))
  {
    var r := Misread();
    r := Extend(r, Retag(repository, tag, true));
    r := Extend(r, Push(true));
  }

  /** An import whose listing has a type narrower than its heading. */
  lemma Misread() returns (r: seq<Move>)
    ensures IsRun(r)
    ensures After(r).pc == Retagging(TmpImage("a:b", "b", "")) && After(r).refs == map["a:b" := "d"]
  {
    r := Extend([], Import(Some(map["a:b" := "d"])));
    Listing.NarrowTypeIsMisread("");
    r := Extend(r, Extract(Some((Listing.Image("a:b", "x", "d", ""), ""))));
  }

  /**
  `Drop for Namespace` calls itself a guarantee. At exit every reference is answered for exactly
  when the metadata was extracted or nothing had been imported.
   */
  lemma CoveredExactlyWhenExtracted(moves: seq<Move>)
    requires IsRun(moves) && After(moves).pc.Exited?
    ensures AllCovered(After(moves)) <==> After(moves).extracted.Some? || After(moves).refs == map[]
  {
    InvHolds(moves);
    var s := After(moves);
    if s.extracted.None? && s.refs != map[] {
      assert s.refs.Keys != {};
      var reference :| reference in s.refs;
      assert !Covered(s, reference);
    }
  }

  /** Otherwise the references stay for ever and the namespace can never be removed. */
  lemma UnextractedImageIsOrphaned(moves: seq<Move>, move: Move)
    requires IsRun(moves) && Enabled(After(moves), move)
    requires var s := After(moves); s.pc.Exited? && s.extracted.None? && s.refs != map[]
    ensures var (s, t) := (After(moves), Apply(After(moves), move));
            t.refs == s.refs && t.pc.Exited? && t.extracted.None? && t.namespace != Some(Removed)
  {
    InvHolds(moves);
  }

  /** And that can happen: the listing after a successful import need not be one that can be read. */
  lemma OrphanCanHappen(reference: string, digest: string)
    ensures exists moves :: IsRun(moves) && After(moves).pc.Exited? && After(moves).extracted.None?
                            && After(moves).refs == map[reference := digest]
  {
    var r := Extend([], Import(Some(map[reference := digest])));
    r := Extend(r, Extract(None));
  }

  lemma Extend(moves: seq<Move>, move: Move) returns (longer: seq<Move>)
    requires IsRun(moves) && Enabled(After(moves), move)
    ensures IsRun(longer) && After(longer) == Apply(After(moves), move)
  {
    longer := moves + [move];
    assert longer[..|moves|] == moves;
  }
}
