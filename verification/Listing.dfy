/**
Reading the image listing back (k8s/service/aim/src/registry/containerd/import.rs).

`Print` is the table `ctr images ls` writes: columns padded with spaces to the wider of header
and cell, plus one. `TrimEnd` is what the command runner does to its output.
 */
module Listing {
  import opened Wrappers

  // ----- text

  predicate IsSpace(c: char) { c == ' ' || c == '\n' || c == '\t' || c == '\r' }

  predicate Solid(s: string) { forall i :: 0 <= i < |s| ==> !IsSpace(s[i]) }

  function Spaces(n: nat): string { seq(n, _ => ' ') }

  function TrimEnd(s: string): string {
    if s != "" && IsSpace(s[|s| - 1]) then TrimEnd(s[..|s| - 1]) else s
  }

  /** `str::split` on one character. */
  function Split(s: string, c: char): (parts: seq<string>)
    ensures parts != []
  {
    if s == "" then [""]
    else
      var rest := Split(s[1..], c);
      if s[0] == c then [""] + rest else [[s[0]] + rest[0]] + rest[1..]
  }

  /** The part of a reference after its last colon. */
  function AfterLastColon(s: string): Option<string> {
    if s == "" then None
    else
      match AfterLastColon(s[1..])
      case Some(tag) => Some(tag)
      case None => if s[0] == ':' then Some(s[1..]) else None
  }

  // ----- parsing

  datatype ParseError =
    | NoData(header: string)
    | UnexpectedLsFormat
    | UnexpectedRow
    | UnexpectedReference(reference: string)

  datatype Metadata = Metadata(reference: string, tag: string, digest: string)

  /** `extract_image_metadata_from_str`. */
  function Parse(output: string): Result<Metadata, ParseError> {
    var lines := Split(output, '\n');
    if |lines| == 1 then Err(NoData(lines[0]))
    else if |lines| != 2 then Err(UnexpectedLsFormat)
    else
      var cells := Split(lines[1], ' ');
      if |cells| < 3 then Err(UnexpectedRow)
      else
        match AfterLastColon(cells[0])
        case None => Err(UnexpectedReference(cells[0]))
        case Some(tag) => Ok(Metadata(cells[0], tag, cells[2]))
  }

  // ----- printing

  const REF := "REF"
  const TYPE := "TYPE"
  const DIGEST := "DIGEST"

  function Max(a: nat, b: nat): nat { if a < b then b else a }

  function Pad(cell: string, header: string): string {
    cell + Spaces(Max(|cell|, |header|) + 1 - |cell|)
  }

  /** One image: the columns the parser reads, and the text of those after them. */
  datatype Image = Image(reference: string, kind: string, digest: string, rest: string)

  function HeaderLine(image: Image, rest: string): string {
    Pad(REF, image.reference) + Pad(TYPE, image.kind) + Pad(DIGEST, image.digest) + rest
  }

  function Row(image: Image): string {
    Pad(image.reference, REF) + Pad(image.kind, TYPE) + Pad(image.digest, DIGEST) + image.rest
  }

  function Print(image: Image, headerRest: string): string {
    HeaderLine(image, headerRest) + "\n" + Row(image) + "\n"
  }

  // ----- facts about text

  predicate Without(s: string, c: char) { forall i :: 0 <= i < |s| ==> s[i] != c }

  lemma {:induction false} SplitWithout(s: string, c: char)
    requires Without(s, c)
    ensures Split(s, c) == [s]
  {
    if s != "" {
      SplitWithout(s[1..], c);
      assert [s[0]] + s[1..] == s;
    }
  }

  lemma {:induction false} SplitAt(s: string, c: char, t: string)
    requires Without(s, c)
    ensures Split(s + [c] + t, c) == [s] + Split(t, c)
  {
    var whole := s + [c] + t;
    if s == "" {
      assert whole[1..] == t;
    } else {
      assert whole[1..] == s[1..] + [c] + t;
      SplitAt(s[1..], c, t);
      assert [s[0]] + s[1..] == s;
    }
  }

  /** Trimming stops at solid text. */
  lemma {:induction false} TrimKeeps(s: string, t: string)
    requires s != "" && !IsSpace(s[|s| - 1])
    ensures exists k :: 0 <= k <= |t| && TrimEnd(s + t) == s + t[..k]
    decreases |t|
  {
    if t == "" {
      assert s + t == s == s + t[..0];
    } else if IsSpace(t[|t| - 1]) {
      var shorter := t[..|t| - 1];
      TrimKeeps(s, shorter);
      assert (s + t)[..|s + t| - 1] == s + shorter;
      var k :| 0 <= k <= |shorter| && TrimEnd(s + shorter) == s + shorter[..k];
      assert shorter[..k] == t[..k];
    } else {
      assert t == t[..|t|];
    }
  }

  lemma {:induction false} LastColon(base: string, tag: string)
    requires Without(tag, ':')
    ensures AfterLastColon(base + ":" + tag) == Some(tag)
  {
    var whole := base + ":" + tag;
    if base == "" {
      assert whole[1..] == tag;
      NoColon(tag);
    } else {
      assert whole[1..] == base[1..] + ":" + tag;
      LastColon(base[1..], tag);
    }
  }

  lemma {:induction false} NoColon(s: string)
    requires Without(s, ':')
    ensures AfterLastColon(s) == None
  {
    if s != "" {
      NoColon(s[1..]);
    }
  }

  lemma {:induction false} TrimEndsSolid(s: string)
    ensures TrimEnd(s) <= s
    ensures TrimEnd(s) != "" ==> !IsSpace(TrimEnd(s)[|TrimEnd(s)| - 1])
  {
    if s != "" && IsSpace(s[|s| - 1]) {
      TrimEndsSolid(s[..|s| - 1]);
    }
  }

  lemma FirstSpace(n: nat, t: string)
    requires n > 0
    ensures Spaces(n) + t == "" + [' '] + (Spaces(n - 1) + t)
  {
  }

  lemma FirstEmptyCell(n: nat, more: seq<string>)
    requires n > 0
    ensures seq(n, _ => "") + more == [""] + (seq(n - 1, _ => "") + more)
  {
  }

  /** Leading spaces make empty cells. */
  lemma {:induction false} SplitSpaces(n: nat, t: string)
    ensures Split(Spaces(n) + t, ' ') == seq(n, _ => "") + Split(t, ' ')
  {
    if n == 0 {
      assert Spaces(0) + t == t;
      assert seq(0, _ => "") + Split(t, ' ') == Split(t, ' ');
    } else {
      SplitSpaces(n - 1, t);
      FirstSpace(n, t);
      SplitAt("", ' ', Spaces(n - 1) + t);
      FirstEmptyCell(n, Split(t, ' '));
    }
  }

  /** A run of n spaces separates n - 1 empty cells. */
  lemma SplitGap(s: string, n: nat, t: string)
    requires Without(s, ' ') && n > 0
    ensures Split(s + Spaces(n) + t, ' ') == [s] + seq(n - 1, _ => "") + Split(t, ' ')
  {
    assert s + Spaces(n) + t == s + [' '] + (Spaces(n - 1) + t);
    SplitAt(s, ' ', Spaces(n - 1) + t);
    SplitSpaces(n - 1, t);
  }

  lemma FirstCell(c: string, rest: string)
    requires Without(c, ' ') && (rest != "" ==> rest[0] == ' ')
    ensures Split(c + rest, ' ')[0] == c
  {
    if rest == "" {
      SplitWithout(c, ' ');
      assert c + rest == c;
    } else {
      assert c + rest == c + [' '] + rest[1..];
      SplitAt(c, ' ', rest[1..]);
    }
  }

  // ----- the round trip

  /** The cells of a row whose first columns are `a`, then `n` and `m` spaces apart, `b` and `c`. */
  lemma RowCells(a: string, n: nat, b: string, m: nat, c: string, rest: string)
    requires Without(a, ' ') && Without(b, ' ') && Without(c, ' ') && n > 0 && m > 0
    requires rest != "" ==> rest[0] == ' '
    ensures var cells := Split(a + Spaces(n) + (b + Spaces(m) + (c + rest)), ' ');
            && |cells| >= 3 && cells[0] == a
            && cells[2] == ThirdCell(n, b, m, c)
  {
    SplitGap(a, n, b + Spaces(m) + (c + rest));
    SplitGap(b, m, c + rest);
    FirstCell(c, rest);
  }

  /** What trimming leaves of a printed table: the header, a newline, and the row without its trailing spaces. */
  lemma TrimTable(header: string, core: string, rest: string)
    requires core != "" && !IsSpace(core[|core| - 1]) && Without(rest, '\n')
    ensures exists k :: 0 <= k <= |rest|
                        && TrimEnd(header + "\n" + core + rest + "\n") == header + "\n" + (core + rest[..k])
  {
    var solid := header + "\n" + core;
    var tail := rest + "\n";
    assert header + "\n" + core + rest + "\n" == solid + tail;
    assert !IsSpace(solid[|solid| - 1]);
    var k := TrimTail(solid, rest);
    assert solid + rest[..k] == header + "\n" + (core + rest[..k]);
  }

  /** The newline that ends the table always goes. */
  lemma TrimTail(solid: string, rest: string) returns (k: nat)
    requires solid != "" && !IsSpace(solid[|solid| - 1])
    ensures k <= |rest| && TrimEnd(solid + (rest + "\n")) == solid + rest[..k]
  {
    var whole := solid + (rest + "\n");
    assert whole[..|whole| - 1] == solid + rest;
    TrimKeeps(solid, rest);
    k :| 0 <= k <= |rest| && TrimEnd(solid + rest) == solid + rest[..k];
  }

  predicate Blank(s: string) { forall i :: 0 <= i < |s| ==> IsSpace(s[i]) }

  /**
  When a listed image is read back as it is. With a digest, the reference and type columns must be
  at least as wide as their headings (or a fluke makes up for it: after a reference of two
  characters the type is read as the digest, and they may be equal). Without one, something must
  keep the third cell from being trimmed away or taken by the type.
   */
  predicate Readable(image: Image) {
    if image.digest != "" then
      || (|REF| <= |image.reference| && |TYPE| <= |image.kind|)
      || (|image.reference| == 2 && image.kind == image.digest)
    else if Blank(image.rest) then |image.reference| == 1 && image.kind != ""
    else |image.reference| != 2 || image.kind == ""
  }

  /** What containerd lists: a reference, cells without white space, one line for the image and one for the header. */
  predicate Printable(image: Image, headerRest: string) {
    && image.reference != "" && Solid(image.reference) && Solid(image.kind) && Solid(image.digest)
    && Without(image.rest, '\n') && Without(headerRest, '\n')
  }

  /** The reference ends in a colon and the tag. */
  ghost predicate Tagged(reference: string, base: string, tag: string) {
    reference == base + ":" + tag && Without(tag, ':')
  }

  /** The third cell of a row with the given gaps. */
  function ThirdCell(n: nat, kind: string, m: nat, digest: string): string {
    if n == 1 then (if m == 1 then digest else "") else if n == 2 then kind else ""
  }

  /** What the parser finds in a table of one row: two lines, and at least three cells in the second. */
  lemma TableCells(header: string, image: Image, n: nat, m: nat, rest: string)
    requires Without(header, '\n') && Without(rest, '\n') && (rest != "" ==> rest[0] == ' ')
    requires Solid(image.reference) && Solid(image.kind) && Solid(image.digest) && n > 0 && m > 0
    ensures var line := image.reference + Spaces(n) + (image.kind + Spaces(m) + (image.digest + rest));
            var cells := Split(line, ' ');
            && Split(header + "\n" + line, '\n') == [header, line]
            && |cells| >= 3 && cells[0] == image.reference && cells[2] == ThirdCell(n, image.kind, m, image.digest)
  {
    LineHasNoNewline(image, n, m, rest);
    TwoLines(header, image.reference + Spaces(n) + (image.kind + Spaces(m) + (image.digest + rest)));
    RowCells(image.reference, n, image.kind, m, image.digest, rest);
  }

  lemma ParseTable(header: string, image: Image, base: string, tag: string, n: nat, m: nat, rest: string)
    requires Without(header, '\n') && Without(rest, '\n') && (rest != "" ==> rest[0] == ' ')
    requires image.reference == base + ":" + tag && Without(tag, ':')
    requires Solid(image.reference) && Solid(image.kind) && Solid(image.digest) && n > 0 && m > 0
    ensures var line := image.reference + Spaces(n) + (image.kind + Spaces(m) + (image.digest + rest));
            Parse(header + "\n" + line) == Ok(Metadata(image.reference, tag, ThirdCell(n, image.kind, m, image.digest)))
  {
    TableCells(header, image, n, m, rest);
    LastColon(base, tag);
  }

  lemma ParseUntagged(header: string, image: Image, n: nat, m: nat, rest: string)
    requires Without(header, '\n') && Without(rest, '\n') && (rest != "" ==> rest[0] == ' ')
    requires Solid(image.reference) && Solid(image.kind) && Solid(image.digest) && n > 0 && m > 0
    requires Without(image.reference, ':')
    ensures var line := image.reference + Spaces(n) + (image.kind + Spaces(m) + (image.digest + rest));
            Parse(header + "\n" + line) == Err(UnexpectedReference(image.reference))
  {
    TableCells(header, image, n, m, rest);
    NoColon(image.reference);
  }

  /** With a digest, the row survives trimming up to it. */
  lemma TrimToDigest(image: Image, headerRest: string, n: nat, m: nat) returns (header: string, rest: string)
    requires Printable(image, headerRest) && image.digest != ""
    requires n == Max(|image.reference|, |REF|) + 1 - |image.reference|
    requires m == Max(|image.kind|, |TYPE|) + 1 - |image.kind|
    ensures Without(header, '\n') && Without(rest, '\n') && (rest != "" ==> rest[0] == ' ')
    ensures TrimEnd(Print(image, headerRest)) ==
            header + "\n" + (image.reference + Spaces(n) + (image.kind + Spaces(m) + (image.digest + rest)))
  {
    var d := Max(|image.digest|, |DIGEST|) + 1 - |image.digest|;
    header := HeaderLine(image, headerRest);
    var core := image.reference + Spaces(n) + (image.kind + Spaces(m) + image.digest);
    var tail := Spaces(d) + image.rest;
    PrintIs(image, headerRest, header, core, tail, n, m, d);
    TrimTable(header, core, tail);
    var k :| 0 <= k <= |tail| && TrimEnd(header + "\n" + core + tail + "\n") == header + "\n" + (core + tail[..k]);
    rest := tail[..k];
    CoreAndRest(image, n, m, core, rest);
  }

  lemma CoreAndRest(image: Image, n: nat, m: nat, core: string, rest: string)
    requires core == image.reference + Spaces(n) + (image.kind + Spaces(m) + image.digest)
    ensures core + rest == image.reference + Spaces(n) + (image.kind + Spaces(m) + (image.digest + rest))
  {
  }

  /** Then the third cell is what the gaps make it. */
  lemma ReadWithDigest(image: Image, base: string, tag: string, headerRest: string, n: nat, m: nat)
    requires Printable(image, headerRest) && Tagged(image.reference, base, tag) && image.digest != ""
    requires n == Max(|image.reference|, |REF|) + 1 - |image.reference|
    requires m == Max(|image.kind|, |TYPE|) + 1 - |image.kind|
    ensures Parse(TrimEnd(Print(image, headerRest))) ==
            Ok(Metadata(image.reference, tag, ThirdCell(n, image.kind, m, image.digest)))
  {
    var header, rest := TrimToDigest(image, headerRest, n, m);
    ParseTable(header, image, base, tag, n, m, rest);
  }

  /** Without a digest but with something after it, the wide gap after the type makes the third cell empty. */
  lemma ReadPastNoDigest(image: Image, base: string, tag: string, headerRest: string, n: nat)
    requires Printable(image, headerRest) && Tagged(image.reference, base, tag)
    requires image.digest == "" && !Blank(image.rest)
    requires n == Max(|image.reference|, |REF|) + 1 - |image.reference|
    ensures Parse(TrimEnd(Print(image, headerRest))) ==
            Ok(Metadata(image.reference, tag, if n == 2 then image.kind else ""))
  {
    var m := Max(|image.kind|, |TYPE|) + 1 - |image.kind|;
    var header := HeaderLine(image, headerRest);
    var kept, after := SolidPart(image.rest);
    var start := image.reference + Spaces(n) + (image.kind + Spaces(m + 6));
    var core := start + (" " + kept);
    HeaderIsOneLine(image, headerRest);
    PrintWithoutDigest(image, headerRest, header, core, kept, after, n, m);
    TrimTable(header, core, after);
    var k :| 0 <= k <= |after| && TrimEnd(header + "\n" + core + after + "\n") == header + "\n" + (core + after[..k]);
    ParseWithoutDigest(header, image, base, tag, n, m + 6, " " + kept, after[..k]);
  }

  lemma SolidPart(rest: string) returns (kept: string, after: string)
    requires !Blank(rest) && Without(rest, '\n')
    ensures rest == kept + after && kept != "" && !IsSpace(kept[|kept| - 1])
    ensures Without(" " + kept, '\n') && Without(after, '\n')
  {
    var p :| 0 <= p < |rest| && !IsSpace(rest[p]);
    kept, after := rest[..p + 1], rest[p + 1..];
  }

  lemma ParseWithoutDigest(header: string, image: Image, base: string, tag: string,
                           n: nat, m: nat, kept: string, more: string)
    requires Without(header, '\n') && Without(kept, '\n') && Without(more, '\n') && kept != "" && kept[0] == ' '
    requires Tagged(image.reference, base, tag) && image.digest == ""
    requires Solid(image.reference) && Solid(image.kind) && n > 0 && m > 1
    ensures Parse(header + "\n" + (image.reference + Spaces(n) + (image.kind + Spaces(m)) + kept + more)) ==
            Ok(Metadata(image.reference, tag, if n == 2 then image.kind else ""))
  {
    var start := image.reference + Spaces(n) + (image.kind + Spaces(m));
    assert image.kind + Spaces(m) + image.digest == image.kind + Spaces(m);
    ParseRow(header, image, base, tag, n, m, kept + more, start);
    assert start + (kept + more) == start + kept + more;
  }

  lemma PrintWithoutDigest(image: Image, headerRest: string, header: string, core: string, kept: string, after: string,
                           n: nat, m: nat)
    requires Printable(image, headerRest) && image.digest == "" && image.rest == kept + after
    requires n == Max(|image.reference|, |REF|) + 1 - |image.reference|
    requires m == Max(|image.kind|, |TYPE|) + 1 - |image.kind|
    requires header == HeaderLine(image, headerRest)
    requires core == image.reference + Spaces(n) + (image.kind + Spaces(m + 6)) + (" " + kept)
    ensures Print(image, headerRest) == header + "\n" + core + after + "\n"
  {
    RowWithoutDigest(image, n, m, Spaces(m) + (Spaces(7) + image.rest));
    SpacesJoin(m);
    Regroup(image.reference + Spaces(n), image.kind, Spaces(m), Spaces(7), Spaces(m + 6), " ", kept, after);
    assert Print(image, headerRest) == header + "\n" + (core + after) + "\n";
  }

  lemma SpacesJoin(m: nat)
    ensures Spaces(m) + Spaces(7) == Spaces(m + 6) + " "
  {
  }

  lemma Regroup(a: string, b: string, u: string, v: string, w: string, x: string, y: string, z: string)
    requires u + v == w + x
    ensures a + b + (u + (v + (y + z))) == a + (b + w) + (x + y) + z
  {
    assert u + (v + (y + z)) == (u + v) + (y + z);
    assert (w + x) + (y + z) == w + ((x + y) + z);
  }

  /** With nothing after the type, trimming takes everything behind it, and the type too if it is empty. */
  lemma ReadTrimmed(image: Image, base: string, tag: string, headerRest: string, n: nat)
    requires Printable(image, headerRest) && Tagged(image.reference, base, tag)
    requires image.digest == "" && Blank(image.rest)
    requires n == Max(|image.reference|, |REF|) + 1 - |image.reference|
    ensures Parse(TrimEnd(Print(image, headerRest))) ==
            if image.kind == "" || n == 1 then Err(UnexpectedRow)
            else Ok(Metadata(image.reference, tag, if n == 2 then image.kind else ""))
  {
    var header := HeaderLine(image, headerRest);
    HeaderIsOneLine(image, headerRest);
    var row := if image.kind == "" then image.reference else image.reference + Spaces(n) + image.kind;
    TrimToType(image, headerRest, header, row, n);
    ParseShort(header, image, base, tag, n, row);
  }

  lemma HeaderIsOneLine(image: Image, headerRest: string)
    requires Without(headerRest, '\n')
    ensures Without(HeaderLine(image, headerRest), '\n')
  {
  }

  lemma TrimToType(image: Image, headerRest: string, header: string, row: string, n: nat)
    requires Printable(image, headerRest) && image.digest == "" && Blank(image.rest)
    requires n == Max(|image.reference|, |REF|) + 1 - |image.reference|
    requires header == HeaderLine(image, headerRest)
    requires row == if image.kind == "" then image.reference else image.reference + Spaces(n) + image.kind
    ensures TrimEnd(Print(image, headerRest)) == header + "\n" + row
  {
    var tail := BlankTail(image, row, n);
    assert Print(image, headerRest) == (header + "\n" + row) + (tail + "\n");
    TrimBlank(header + "\n" + row, tail + "\n");
  }

  lemma BlankTail(image: Image, row: string, n: nat) returns (tail: string)
    requires image.reference != "" && Solid(image.reference) && Solid(image.kind)
    requires image.digest == "" && Blank(image.rest)
    requires n == Max(|image.reference|, |REF|) + 1 - |image.reference|
    requires row == if image.kind == "" then image.reference else image.reference + Spaces(n) + image.kind
    ensures Row(image) == row + tail && Blank(tail) && row != "" && !IsSpace(row[|row| - 1])
  {
    var m := Max(|image.kind|, |TYPE|) + 1 - |image.kind|;
    var gap := Spaces(m) + (Spaces(7) + image.rest);
    RowWithoutDigest(image, n, m, gap);
    GapIsBlank(m, image.rest);
    if image.kind == "" {
      tail := Spaces(n) + gap;
      GapIsBlank(n, gap);
      NoType(image.reference, Spaces(n), gap);
    } else {
      tail := gap;
    }
  }

  lemma RowWithoutDigest(image: Image, n: nat, m: nat, gap: string)
    requires image.digest == ""
    requires n == Max(|image.reference|, |REF|) + 1 - |image.reference|
    requires m == Max(|image.kind|, |TYPE|) + 1 - |image.kind|
    requires gap == Spaces(m) + (Spaces(7) + image.rest)
    ensures Row(image) == image.reference + Spaces(n) + image.kind + gap
  {
    assert Pad(image.digest, DIGEST) == Spaces(7);
  }

  lemma GapIsBlank(m: nat, rest: string)
    requires Blank(rest)
    ensures Blank(Spaces(m) + rest) && Blank(Spaces(m) + (Spaces(7) + rest))
  {
  }

  lemma NoType(reference: string, spaces: string, gap: string)
    ensures reference + spaces + "" + gap == reference + (spaces + gap)
  {
  }

  lemma ParseShort(header: string, image: Image, base: string, tag: string, n: nat, row: string)
    requires Without(header, '\n') && Solid(image.reference) && Solid(image.kind) && n > 0
    requires Tagged(image.reference, base, tag)
    requires row == if image.kind == "" then image.reference else image.reference + Spaces(n) + image.kind
    ensures Parse(header + "\n" + row) ==
            if image.kind == "" || n == 1 then Err(UnexpectedRow)
            else Ok(Metadata(image.reference, tag, if n == 2 then image.kind else ""))
  {
    TwoLines(header, row);
    if image.kind == "" {
      SplitWithout(row, ' ');
    } else {
      SplitGap(image.reference, n, image.kind);
      SplitWithout(image.kind, ' ');
    }
    LastColon(base, tag);
  }

  lemma TwoLines(header: string, row: string)
    requires Without(header, '\n') && Without(row, '\n')
    ensures Split(header + "\n" + row, '\n') == [header, row]
  {
    SplitAt(header, '\n', row);
    SplitWithout(row, '\n');
  }

  lemma {:induction false} TrimBlank(s: string, t: string)
    requires s != "" && !IsSpace(s[|s| - 1]) && Blank(t)
    ensures TrimEnd(s + t) == s
    decreases |t|
  {
    if t == "" {
      assert s + t == s;
    } else {
      assert (s + t)[..|s + t| - 1] == s + t[..|t| - 1];
      TrimBlank(s, t[..|t| - 1]);
    }
  }

  /**
  The round trip. A listed image is read back with exactly its reference, tag and digest if and
  only if it is `Readable`. Any base and tag that are not empty make the reference wide enough.
   */
  lemma RoundTrip(image: Image, base: string, tag: string, headerRest: string)
    requires Printable(image, headerRest) && Tagged(image.reference, base, tag)
    ensures Parse(TrimEnd(Print(image, headerRest))) == Ok(Metadata(image.reference, tag, image.digest))
            <==> Readable(image)
  {
    var n := Max(|image.reference|, |REF|) + 1 - |image.reference|;
    var m := Max(|image.kind|, |TYPE|) + 1 - |image.kind|;
    if image.digest != "" {
      ReadWithDigest(image, base, tag, headerRest, n, m);
    } else if Blank(image.rest) {
      ReadTrimmed(image, base, tag, headerRest, n);
    } else {
      ReadPastNoDigest(image, base, tag, headerRest, n);
    }
  }

  /** A type narrower than its heading makes the digest come out empty. */
  lemma NarrowTypeIsMisread(headerRest: string)
    requires Without(headerRest, '\n')
    ensures Parse(TrimEnd(Print(Image("a:b", "x", "d", ""), headerRest))) == Ok(Metadata("a:b", "b", ""))
  {
    assert "a:b" == "a" + ":" + "b";
    ReadWithDigest(Image("a:b", "x", "d", ""), "a", "b", headerRest, 1, 4);
  }

  // ----- what is read, readable or not

  lemma {:induction false} ColonSplits(s: string)
    requires AfterLastColon(s).Some?
    ensures var tag := AfterLastColon(s).value;
            |tag| < |s| && Tagged(s, s[..|s| - |tag| - 1], tag)
  {
    if AfterLastColon(s[1..]).Some? {
      ColonSplits(s[1..]);
      var tag := AfterLastColon(s).value;
      var base := s[1..][..|s| - 1 - |tag| - 1];
      assert s == [s[0]] + s[1..];
      assert [s[0]] + base == s[..|s| - |tag| - 1];
    } else {
      NoneHasNoColon(s[1..]);
      assert s == s[..0] + ":" + s[1..];
    }
  }

  lemma {:induction false} NoneHasNoColon(s: string)
    requires AfterLastColon(s).None?
    ensures Without(s, ':')
  {
    if s != "" {
      NoneHasNoColon(s[1..]);
    }
  }

  /** Whatever the widths, an image that is read at all is read with its own reference and tag. */
  lemma ReferenceIsRead(image: Image, headerRest: string)
    requires Printable(image, headerRest) && Parse(TrimEnd(Print(image, headerRest))).Ok?
    ensures var read := Parse(TrimEnd(Print(image, headerRest))).value;
            read.reference == image.reference && AfterLastColon(image.reference) == Some(read.tag)
  {
    var header := HeaderLine(image, headerRest);
    HeaderIsOneLine(image, headerRest);
    var tail := RowTail(image);
    assert Print(image, headerRest) == header + "\n" + image.reference + tail + "\n";
    TrimTable(header, image.reference, tail);
    var k :| 0 <= k <= |tail|
             && TrimEnd(header + "\n" + image.reference + tail + "\n") == header + "\n" + (image.reference + tail[..k]);
    FirstIsRead(header, image.reference, tail[..k]);
  }

  /** What follows the reference in its row. */
  lemma RowTail(image: Image) returns (tail: string)
    requires Solid(image.kind) && Solid(image.digest) && Without(image.rest, '\n')
    ensures Row(image) == image.reference + tail && tail != "" && tail[0] == ' ' && Without(tail, '\n')
  {
    tail := Spaces(Max(|image.reference|, |REF|) + 1 - |image.reference|)
            + Pad(image.kind, TYPE) + Pad(image.digest, DIGEST) + image.rest;
    assert Row(image) == image.reference + tail;
  }

  lemma FirstIsRead(header: string, reference: string, tail: string)
    requires Without(header, '\n') && Without(tail, '\n') && Solid(reference) && (tail != "" ==> tail[0] == ' ')
    ensures var parsed := Parse(header + "\n" + (reference + tail));
            parsed.Ok? ==> parsed.value.reference == reference && AfterLastColon(reference) == Some(parsed.value.tag)
  {
    TwoLines(header, reference + tail);
    FirstCell(reference, tail);
  }

  /** And it is read with its own digest exactly when it is readable. */
  lemma DigestIsRead(image: Image, headerRest: string)
    requires Printable(image, headerRest) && Parse(TrimEnd(Print(image, headerRest))).Ok?
    ensures Parse(TrimEnd(Print(image, headerRest))).value.digest == image.digest <==> Readable(image)
  {
    ReferenceIsRead(image, headerRest);
    ColonSplits(image.reference);
    var tag := AfterLastColon(image.reference).value;
    RoundTrip(image, image.reference[..|image.reference| - |tag| - 1], tag, headerRest);
  }

  lemma ParseRow(header: string, image: Image, base: string, tag: string, n: nat, m: nat, rest: string, core: string)
    requires Without(header, '\n') && Without(rest, '\n') && (rest != "" ==> rest[0] == ' ')
    requires image.reference == base + ":" + tag && Without(tag, ':')
    requires Solid(image.reference) && Solid(image.kind) && Solid(image.digest) && n > 0 && m > 0
    requires core == image.reference + Spaces(n) + (image.kind + Spaces(m) + image.digest)
    ensures Parse(header + "\n" + (core + rest)) ==
            Ok(Metadata(image.reference, tag, ThirdCell(n, image.kind, m, image.digest)))
  {
    ParseTable(header, image, base, tag, n, m, rest);
    CoreAndRest(image, n, m, core, rest);
  }

  lemma PrintIs(image: Image, headerRest: string, header: string, core: string, rest: string, n: nat, m: nat, d: nat)
    requires n == Max(|image.reference|, |REF|) + 1 - |image.reference|
    requires m == Max(|image.kind|, |TYPE|) + 1 - |image.kind|
    requires d == Max(|image.digest|, |DIGEST|) + 1 - |image.digest|
    requires header == HeaderLine(image, headerRest) && Without(headerRest, '\n')
    requires core == image.reference + Spaces(n) + (image.kind + Spaces(m) + image.digest)
    requires rest == Spaces(d) + image.rest
    requires Without(image.rest, '\n')
    ensures Print(image, headerRest) == header + "\n" + core + rest + "\n"
    ensures Without(header, '\n') && Without(rest, '\n')
  {
    HeaderIsOneLine(image, headerRest);
    RowIs(image, core, rest, n, m, d);
    assert Print(image, headerRest) == header + "\n" + core + rest + "\n";
  }

  lemma RowIs(image: Image, core: string, rest: string, n: nat, m: nat, d: nat)
    requires n == Max(|image.reference|, |REF|) + 1 - |image.reference|
    requires m == Max(|image.kind|, |TYPE|) + 1 - |image.kind|
    requires d == Max(|image.digest|, |DIGEST|) + 1 - |image.digest|
    requires core == image.reference + Spaces(n) + (image.kind + Spaces(m) + image.digest)
    requires rest == Spaces(d) + image.rest
    ensures Row(image) == core + rest
  {
    assert Row(image) == core + rest;
  }

  lemma LineHasNoNewline(image: Image, n: nat, m: nat, rest: string)
    requires Solid(image.reference) && Solid(image.kind) && Solid(image.digest) && Without(rest, '\n')
    ensures Without(image.reference + Spaces(n) + (image.kind + Spaces(m) + (image.digest + rest)), '\n')
  {
  }

  lemma {:induction false} SplitInTwo(s: string, c: char)
    requires !Without(s, c)
    ensures |Split(s, c)| >= 2
  {
    if s[0] != c {
      SplitInTwo(s[1..], c);
    }
  }

  lemma ThreeLines(header: string, rows: string, line: string)
    requires Without(header, '\n')
    ensures |Split(header + "\n" + rows + "\n" + line, '\n')| >= 3
  {
    var below := rows + "\n" + line;
    assert header + "\n" + rows + "\n" + line == header + ['\n'] + below;
    SplitAt(header, '\n', below);
    assert below[|rows|] == '\n';
    SplitInTwo(below, '\n');
  }

  /**
  A table of two rows or more is always refused: `rows` is all of them but the last, and `core` and
  `rest` make up the last.
   */
  lemma MoreRowsAreRefused(header: string, rows: string, core: string, rest: string)
    requires Without(header, '\n') && core != "" && !IsSpace(core[|core| - 1]) && Without(rest, '\n')
    ensures Parse(TrimEnd(header + "\n" + rows + "\n" + core + rest + "\n")) == Err(UnexpectedLsFormat)
  {
    var above := header + "\n" + rows;
    TrimTable(above, core, rest);
    var k :| 0 <= k <= |rest| && TrimEnd(above + "\n" + core + rest + "\n") == above + "\n" + (core + rest[..k]);
    ThreeLines(header, rows, core + rest[..k]);
  }

  /** A reference without a tag is refused and named. */
  lemma UntaggedIsRefused(image: Image, headerRest: string)
    requires Printable(image, headerRest) && Without(image.reference, ':') && image.digest != ""
    ensures Parse(TrimEnd(Print(image, headerRest))) == Err(UnexpectedReference(image.reference))
  {
    var n := Max(|image.reference|, |REF|) + 1 - |image.reference|;
    var m := Max(|image.kind|, |TYPE|) + 1 - |image.kind|;
    var header, rest := TrimToDigest(image, headerRest, n, m);
    ParseUntagged(header, image, n, m, rest);
  }

  /** A table with no rows is always reported as such. */
  lemma HeaderOnlyIsNoData(header: string)
    requires Without(header, '\n')
    ensures Parse(TrimEnd(header + "\n")) == Err(NoData(TrimEnd(header)))
  {
    assert (header + "\n")[..|header|] == header;
    TrimEndsSolid(header);
    SplitWithout(TrimEnd(header), '\n');
  }
}
