/**
Names for pods and tags (k8s/library/names/src/lib.rs).

`uuid` is the 32 hexadecimal digits that the random source yields. Two things the code leaves to
others are parameters, so that what is proved holds whatever they are. The crate that turns a
phrase into kebab case also breaks words inside runs of letters and digits ("v1" becomes "v-1");
`cuts` is where. And `Unicode` says which characters beyond ASCII count as letters or digits, and
what they are in lower case. Lengths and truncation are in bytes of UTF-8, as Rust's are.
 */
module Names {
  import opened Wrappers

  const LABEL_MAX := 63
  const PREFIX_MAX := 54
  const UUID_LENGTH := 32
  const DEFAULT_IF_INVALID_SUBDOMAIN := "invalid-rfc1123-connector-name"

  predicate IsUpper(c: char) { 'A' <= c <= 'Z' }
  predicate IsLower(c: char) { 'a' <= c <= 'z' }
  predicate IsDigit(c: char) { '0' <= c <= '9' }
  predicate IsFinal(c: char) { IsLower(c) || IsDigit(c) }

  predicate IsAscii(s: string) { forall i :: 0 <= i < |s| ==> s[i] as int < 0x80 }

  predicate IsUuid(s: string) {
    |s| == UUID_LENGTH && forall i :: 0 <= i < |s| ==> IsDigit(s[i]) || 'a' <= s[i] <= 'f'
  }

  /** Lower-case letters, digits and hyphens, with a letter or digit at either end. */
  predicate IsLabel(s: string) {
    && s != "" && IsFinal(s[0]) && IsFinal(s[|s| - 1])
    && forall i :: 0 <= i < |s| ==> IsFinal(s[i]) || s[i] == '-'
  }

  // ----- characters beyond ASCII

  datatype Unicode = Unicode(letters: set<char>, lower: map<char, string>)

  /** What becomes of a letter beyond ASCII in lower case is not empty, and never a capital or punctuation of ASCII. */
  predicate IsCasing(unicode: Unicode) {
    forall c :: c in unicode.letters ==>
      c as int >= 0x80 && c in unicode.lower && unicode.lower[c] != "" && Settled(unicode.lower[c])
  }

  predicate IsSettled(c: char) { IsFinal(c) || c as int >= 0x80 }
  predicate Settled(s: string) { forall i :: 0 <= i < |s| ==> IsSettled(s[i]) }

  predicate IsAlphanumeric(c: char, unicode: Unicode) {
    IsUpper(c) || IsLower(c) || IsDigit(c) || c in unicode.letters
  }

  function Lower(c: char, unicode: Unicode): string
    requires IsCasing(unicode)
  {
    if c in unicode.letters then unicode.lower[c]
    else if IsUpper(c) then [(c as int - 'A' as int + 'a' as int) as char]
    else [c]
  }

  // ----- kebab case

  /**
  The phrase with everything but letters and digits taken as space, then in kebab case: lower
  case, with one hyphen wherever there was space between words or a cut.
   */
  function Kebab(phrase: string, cuts: set<nat>, unicode: Unicode): string
    requires IsCasing(unicode)
  {
    if phrase == "" then ""
    else
      var n := |phrase| - 1;
      var (before, c) := (Kebab(phrase[..n], cuts, unicode), phrase[n]);
      if !IsAlphanumeric(c, unicode) then before
      else if before != "" && (!IsAlphanumeric(phrase[n - 1], unicode) || n in cuts)
        then before + "-" + Lower(c, unicode)
      else before + Lower(c, unicode)
  }

  /** The letters and digits of a phrase, in order and in lower case. */
  function Letters(phrase: string, unicode: Unicode): string
    requires IsCasing(unicode)
  {
    if phrase == "" then ""
    else
      var n := |phrase| - 1;
      Letters(phrase[..n], unicode) + if IsAlphanumeric(phrase[n], unicode) then Lower(phrase[n], unicode) else ""
  }

  function WithoutHyphens(s: string): string {
    if s == "" then ""
    else WithoutHyphens(s[..|s| - 1]) + if s[|s| - 1] == '-' then "" else [s[|s| - 1]]
  }

  /** A label but for characters beyond ASCII, with no two hyphens in a row. */
  predicate IsHyphenated(s: string) {
    && s != "" && IsSettled(s[0]) && IsSettled(s[|s| - 1])
    && (forall i :: 0 <= i < |s| ==> IsSettled(s[i]) || s[i] == '-')
    && forall i :: 0 <= i < |s| - 1 && s[i] == '-' ==> s[i + 1] != '-'
  }

  lemma HyphenatedGrows(s: string, t: string)
    requires s != "" ==> IsHyphenated(s)
    requires t != "" && Settled(t)
    ensures IsHyphenated(s + t)
    ensures s != "" ==> IsHyphenated(s + "-" + t)
  {
  }

  /** Kebab case puts single hyphens between words and nowhere else. Within ASCII that makes it a label. */
  lemma {:induction false} KebabIsHyphenated(phrase: string, cuts: set<nat>, unicode: Unicode)
    requires IsCasing(unicode)
    ensures Kebab(phrase, cuts, unicode) != "" ==> IsHyphenated(Kebab(phrase, cuts, unicode))
    ensures Kebab(phrase, cuts, unicode) != "" ==>
              (IsLabel(Kebab(phrase, cuts, unicode)) <==> IsAscii(Kebab(phrase, cuts, unicode)))
  {
    if phrase != "" {
      var n := |phrase| - 1;
      KebabIsHyphenated(phrase[..n], cuts, unicode);
      if IsAlphanumeric(phrase[n], unicode) {
        HyphenatedGrows(Kebab(phrase[..n], cuts, unicode), Lower(phrase[n], unicode));
      }
    }
  }

  lemma {:induction false} WithoutHyphensConcat(s: string, t: string)
    ensures WithoutHyphens(s + t) == WithoutHyphens(s) + WithoutHyphens(t)
    decreases |t|
  {
    if t == "" {
      assert s + t == s;
    } else {
      assert (s + t)[..|s + t| - 1] == s + t[..|t| - 1];
      WithoutHyphensConcat(s, t[..|t| - 1]);
    }
  }

  lemma {:induction false} SettledHasNoHyphens(s: string)
    requires Settled(s)
    ensures WithoutHyphens(s) == s
  {
    if s != "" {
      SettledHasNoHyphens(s[..|s| - 1]);
    }
  }

  lemma HyphensGoAgain(s: string, t: string)
    requires Settled(t)
    ensures WithoutHyphens(s + t) == WithoutHyphens(s) + t
    ensures WithoutHyphens(s + "-" + t) == WithoutHyphens(s) + t
  {
    SettledHasNoHyphens(t);
    WithoutHyphensConcat(s, t);
    HyphenGoes(s, s + "-");
    WithoutHyphensConcat(s + "-", t);
  }

  lemma HyphenGoes(s: string, longer: string)
    requires longer == s + "-"
    ensures WithoutHyphens(longer) == WithoutHyphens(s)
  {
    assert longer[..|longer| - 1] == s;
  }

  /** Kebab case says the same letters: without its hyphens it is the phrase's letters and digits. */
  lemma {:induction false} KebabKeepsLetters(phrase: string, cuts: set<nat>, unicode: Unicode)
    requires IsCasing(unicode)
    ensures WithoutHyphens(Kebab(phrase, cuts, unicode)) == Letters(phrase, unicode)
  {
    if phrase != "" {
      var n := |phrase| - 1;
      var (before, c) := (Kebab(phrase[..n], cuts, unicode), phrase[n]);
      KebabKeepsLetters(phrase[..n], cuts, unicode);
      if IsAlphanumeric(c, unicode) {
        HyphensGoAgain(before, Lower(c, unicode));
      }
    }
  }

  /** A capital is taken to the small letter at its place in the alphabet; other ASCII letters and digits stay. */
  lemma LowerIs(c: char, unicode: Unicode)
    requires IsCasing(unicode) && c !in unicode.letters
    ensures |Lower(c, unicode)| == 1
    ensures IsUpper(c) ==>
              IsLower(Lower(c, unicode)[0]) && Lower(c, unicode)[0] as int - 'a' as int == c as int - 'A' as int
    ensures !IsUpper(c) ==> Lower(c, unicode) == [c]
  {
  }

  ghost predicate HasLetter(phrase: string, unicode: Unicode) {
    exists i :: 0 <= i < |phrase| && IsAlphanumeric(phrase[i], unicode)
  }

  lemma {:induction false} KebabNeedsLetters(phrase: string, cuts: set<nat>, unicode: Unicode)
    requires IsCasing(unicode)
    ensures Kebab(phrase, cuts, unicode) != "" <==> HasLetter(phrase, unicode)
  {
    if phrase != "" {
      var n := |phrase| - 1;
      KebabNeedsLetters(phrase[..n], cuts, unicode);
      assert forall i :: 0 <= i < n ==> phrase[..n][i] == phrase[i];
    }
  }

  /** The cuts that fall into the rest of a phrase, counted from its start. */
  function After(cuts: set<nat>, n: nat): set<nat> {
    set k | k in cuts && n <= k :: k - n
  }

  /** Whether two adjoining parts of a phrase are different words. */
  predicate Parted(a: string, b: string, cuts: set<nat>, unicode: Unicode)
    requires a != "" && b != ""
  {
    !IsAlphanumeric(a[|a| - 1], unicode) || !IsAlphanumeric(b[0], unicode) || |a| in cuts
  }

  /** What goes between the two parts in kebab case. */
  ghost function Joint(a: string, b: string, cuts: set<nat>, unicode: Unicode): string {
    if HasLetter(a, unicode) && HasLetter(b, unicode) && Parted(a, b, cuts, unicode) then "-" else ""
  }

  /**
  Where the hyphens are, and where they are not: cut a phrase anywhere, and kebab case is that of the
  two parts, with a hyphen in between exactly if both have a letter or digit and there is anything
  else next to where they meet, or a cut.
   */
  lemma {:induction false} KebabJoins(a: string, b: string, cuts: set<nat>, unicode: Unicode)
    requires IsCasing(unicode)
    ensures Kebab(a + b, cuts, unicode) ==
            Kebab(a, cuts, unicode) + Joint(a, b, cuts, unicode) + Kebab(b, After(cuts, |a|), unicode)
    decreases |b|
  {
    KebabNeedsLetters(a, cuts, unicode);
    KebabNeedsLetters(b, After(cuts, |a|), unicode);
    if b == "" {
      assert a + b == a;
    } else {
      var (before, c) := (b[..|b| - 1], b[|b| - 1]);
      assert (a + b)[..|a + b| - 1] == a + before;
      KebabJoins(a, before, cuts, unicode);
      KebabNeedsLetters(a + before, cuts, unicode);
      KebabNeedsLetters(before, After(cuts, |a|), unicode);
      LettersOfPart(before, c, b, unicode);
      if IsAlphanumeric(c, unicode) {
        LastCharJoins(a, before, c, b, cuts, unicode);
      }
    }
  }

  lemma LettersOfPart(before: string, c: char, b: string, unicode: Unicode)
    requires b == before + [c]
    ensures HasLetter(b, unicode) <==> HasLetter(before, unicode) || IsAlphanumeric(c, unicode)
  {
    assert b[|before|] == c && forall i :: 0 <= i < |before| ==> b[i] == before[i];
  }

  /** What goes before a letter or digit that follows a phrase. */
  ghost function Hyphen(phrase: string, cuts: set<nat>, unicode: Unicode): string {
    if HasLetter(phrase, unicode) && (!IsAlphanumeric(phrase[|phrase| - 1], unicode) || |phrase| in cuts)
    then "-"
    else ""
  }

  lemma KebabOneMore(phrase: string, c: char, longer: string, cuts: set<nat>, unicode: Unicode)
    requires IsCasing(unicode) && longer == phrase + [c] && IsAlphanumeric(c, unicode)
    ensures Kebab(longer, cuts, unicode) ==
            Kebab(phrase, cuts, unicode) + (Hyphen(phrase, cuts, unicode) + Lower(c, unicode))
  {
    KebabNeedsLetters(phrase, cuts, unicode);
    assert longer[..|longer| - 1] == phrase;
    var kebab := Kebab(phrase, cuts, unicode);
    assert kebab + "-" + Lower(c, unicode) == kebab + ("-" + Lower(c, unicode));
    assert "" + Lower(c, unicode) == Lower(c, unicode);
  }

  /** The hyphen before the last letter or digit of the second part, seen from the part and from the whole. */
  lemma HyphensAgree(a: string, before: string, c: char, b: string, cuts: set<nat>, unicode: Unicode)
    requires b == before + [c] && IsAlphanumeric(c, unicode)
    ensures if HasLetter(before, unicode) then
              && Joint(a, before, cuts, unicode) == Joint(a, b, cuts, unicode)
              && Hyphen(a + before, cuts, unicode) == Hyphen(before, After(cuts, |a|), unicode)
            else
              && Joint(a, before, cuts, unicode) == "" == Hyphen(before, After(cuts, |a|), unicode)
              && Hyphen(a + before, cuts, unicode) == Joint(a, b, cuts, unicode)
  {
    LettersOfWhole(a, before, unicode);
    LettersOfPart(before, c, b, unicode);
    if before == "" {
      assert a + before == a && b[0] == c;
    } else {
      assert b[0] == before[0] && (a + before)[|a + before| - 1] == before[|before| - 1];
      assert |a + before| in cuts <==> |before| in After(cuts, |a|) by {
        assert |a + before| - |a| == |before|;
      }
    }
  }

  lemma LettersOfWhole(a: string, b: string, unicode: Unicode)
    ensures HasLetter(a + b, unicode) <==> HasLetter(a, unicode) || HasLetter(b, unicode)
  {
    var whole := a + b;
    assert forall i :: 0 <= i < |a| ==> whole[i] == a[i];
    assert forall i :: 0 <= i < |b| ==> whole[|a| + i] == b[i];
    assert forall i :: |a| <= i < |whole| ==> whole[i] == b[i - |a|];
  }

  /** The same, as far as the last letter or digit of the second part is concerned. */
  lemma LastCharJoins(a: string, before: string, c: char, b: string, cuts: set<nat>, unicode: Unicode)
    requires IsCasing(unicode) && b == before + [c] && IsAlphanumeric(c, unicode)
    requires Kebab(a + before, cuts, unicode) ==
             Kebab(a, cuts, unicode) + Joint(a, before, cuts, unicode) + Kebab(before, After(cuts, |a|), unicode)
    ensures Kebab(a + b, cuts, unicode) ==
            Kebab(a, cuts, unicode) + Joint(a, b, cuts, unicode) + Kebab(b, After(cuts, |a|), unicode)
  {
    assert a + b == (a + before) + [c];
    KebabOneMore(a + before, c, a + b, cuts, unicode);
    KebabOneMore(before, c, b, After(cuts, |a|), unicode);
    HyphensAgree(a, before, c, b, cuts, unicode);
    KebabNeedsLetters(before, After(cuts, |a|), unicode);
    Regroup(Kebab(a, cuts, unicode), Joint(a, before, cuts, unicode), Kebab(before, After(cuts, |a|), unicode),
            Hyphen(a + before, cuts, unicode), Joint(a, b, cuts, unicode), Hyphen(before, After(cuts, |a|), unicode),
            Lower(c, unicode));
  }

  lemma Regroup(head: string, joint: string, tail: string, hyphen: string, joint': string, hyphen': string,
                last: string)
    requires if tail == "" then joint == "" == hyphen' && hyphen == joint' else joint == joint' && hyphen == hyphen'
    ensures head + joint + tail + (hyphen + last) == head + joint' + (tail + (hyphen' + last))
  {
    if tail == "" {
      assert tail + (hyphen' + last) == last;
      assert head + joint + tail == head;
    }
  }

  /** In particular, words apart are joined by one hyphen, whatever stands between them. */
  lemma WordsAreJoined(a: string, c: char, b: string, unicode: Unicode)
    requires IsCasing(unicode) && HasLetter(a, unicode) && HasLetter(b, unicode) && !IsAlphanumeric(c, unicode)
    ensures Kebab(a + [c] + b, {}, unicode) == Kebab(a, {}, unicode) + "-" + Kebab(b, {}, unicode)
  {
    var more := [c] + b;
    assert a + [c] + b == a + more;
    KebabJoins(a, more, {}, unicode);
    assert After({}, |a|) == {};
    LettersOfWhole([c], b, unicode);
    NoLeadingSpace(c, b, unicode);
  }

  lemma NoLeadingSpace(c: char, b: string, unicode: Unicode)
    requires IsCasing(unicode) && !IsAlphanumeric(c, unicode)
    ensures Kebab([c] + b, {}, unicode) == Kebab(b, {}, unicode)
  {
    KebabJoins([c], b, {}, unicode);
    assert After({}, 1) == {};
    KebabNeedsLetters([c], {}, unicode);
    assert !HasLetter([c], unicode);
  }

  /** A phrase with no letters beyond ASCII stays within ASCII. */
  lemma {:induction false} KebabStaysAscii(phrase: string, cuts: set<nat>, unicode: Unicode)
    requires IsCasing(unicode) && Plain(phrase, unicode)
    ensures IsAscii(Kebab(phrase, cuts, unicode))
  {
    if phrase != "" {
      KebabStaysAscii(phrase[..|phrase| - 1], cuts, unicode);
    }
  }

  predicate Plain(phrase: string, unicode: Unicode) {
    forall i :: 0 <= i < |phrase| ==> phrase[i] !in unicode.letters
  }

  // ----- bytes

  function Width(c: char): nat {
    if c as int < 0x80 then 1 else if c as int < 0x800 then 2 else if c as int < 0x10000 then 3 else 4
  }

  /** The UTF-8 encoding of a character: the leading byte tells how many follow, six bits to each of them. */
  function Encoded(c: char): seq<int> {
    var n := c as int;
    if n < 0x80 then [n]
    else if n < 0x800 then [0xC0 + n / 0x40, 0x80 + n % 0x40]
    else if n < 0x10000 then [0xE0 + n / 0x1000, 0x80 + n / 0x40 % 0x40, 0x80 + n % 0x40]
    else [0xF0 + n / 0x40000, 0x80 + n / 0x1000 % 0x40, 0x80 + n / 0x40 % 0x40, 0x80 + n % 0x40]
  }

  /** What a decoder makes of the bytes at the start of a string. */
  function Decoded(bytes: seq<int>): int
    requires bytes != []
  {
    var lead := bytes[0];
    if lead < 0x80 then lead
    else if lead < 0xE0 && |bytes| >= 2 then (lead - 0xC0) * 0x40 + (bytes[1] - 0x80)
    else if lead < 0xF0 && |bytes| >= 3 then (lead - 0xE0) * 0x1000 + (bytes[1] - 0x80) * 0x40 + (bytes[2] - 0x80)
    else if |bytes| >= 4 then
      (lead - 0xF0) * 0x40000 + (bytes[1] - 0x80) * 0x1000 + (bytes[2] - 0x80) * 0x40 + (bytes[3] - 0x80)
    else -1
  }

  /** A character has as many bytes as its encoding, from which it is read back. */
  lemma WidthIsEncoded(c: char)
    ensures Width(c) == |Encoded(c)| && Decoded(Encoded(c)) == c as int
    ensures forall i :: 0 <= i < |Encoded(c)| ==> Encoded(c)[i] < 0x100
    ensures forall i :: 0 < i < |Encoded(c)| ==> 0x80 <= Encoded(c)[i] < 0xC0
  {
    var n := c as int;
    assert n / 0x1000 == n / 0x40 / 0x40 && n / 0x40000 == n / 0x1000 / 0x40;
  }

  /** The length of a string in bytes. */
  function Bytes(s: string): nat {
    if s == "" then 0 else Width(s[0]) + Bytes(s[1..])
  }

  /** `String::truncate`, which panics (`None`) if the cut would go through a character. */
  function Truncate(s: string, n: nat): Option<string> {
    if s == "" || n == 0 then Some("")
    else if n < Width(s[0]) then None
    else match Truncate(s[1..], n - Width(s[0]))
      case None => None
      case Some(rest) => Some([s[0]] + rest)
  }

  lemma {:induction false} BytesConcat(s: string, t: string)
    ensures Bytes(s + t) == Bytes(s) + Bytes(t)
  {
    if s == "" {
      assert s + t == t;
    } else {
      assert (s + t)[1..] == s[1..] + t;
      BytesConcat(s[1..], t);
    }
  }

  lemma {:induction false} BytesOfAscii(s: string)
    requires IsAscii(s)
    ensures Bytes(s) == |s|
  {
    if s != "" {
      BytesOfAscii(s[1..]);
    }
  }

  /** What is left is a prefix of as many bytes as asked for, or all there is. */
  lemma {:induction false} TruncateIs(s: string, n: nat)
    ensures Truncate(s, n).Some? ==> Truncate(s, n).value <= s && Bytes(Truncate(s, n).value) == Min(n, Bytes(s))
    ensures Bytes(s) <= n ==> Truncate(s, n) == Some(s)
    ensures s != "" && n >= 4 && Truncate(s, n).Some? ==> Truncate(s, n).value != ""
  {
    if s != "" && n >= Width(s[0]) {
      TruncateIs(s[1..], n - Width(s[0]));
      var rest := Truncate(s[1..], n - Width(s[0]));
      if rest.Some? {
        assert s == [s[0]] + s[1..];
        assert ([s[0]] + rest.value)[1..] == rest.value;
      }
    }
  }

  /** It panics exactly if no prefix has that many bytes. */
  lemma {:induction false} TruncatePanicsExactly(s: string, n: nat)
    requires n <= Bytes(s)
    ensures Truncate(s, n).Some? <==> exists k: nat :: k <= |s| && Bytes(s[..k]) == n
  {
    if n == 0 {
      assert Bytes(s[..0]) == n;
    } else if n < Width(s[0]) {
      forall k: nat | k <= |s| ensures Bytes(s[..k]) != n {
      }
    } else {
      TruncatePanicsExactly(s[1..], n - Width(s[0]));
      forall k: nat | 0 < k <= |s| ensures Bytes(s[..k]) == Width(s[0]) + Bytes(s[1..][..k - 1]) {
        assert s[..k][1..] == s[1..][..k - 1];
      }
      if k: nat :| k <= |s| - 1 && Bytes(s[1..][..k]) == n - Width(s[0]) {
        assert Bytes(s[..k + 1]) == n;
      }
    }
  }

  lemma {:induction false} TruncateAscii(s: string, n: nat)
    requires IsAscii(s)
    ensures Truncate(s, n) == Some(s[..Min(n, |s|)])
  {
    if s != "" && n > 0 {
      TruncateAscii(s[1..], n - 1);
      assert [s[0]] + s[1..][..Min(n - 1, |s| - 1)] == s[..Min(n, |s|)];
    }
  }

  // ----- names

  /** The prefix a name is built on: the phrase in kebab case, or the default if nothing is left of it. */
  function Prefix(phrase: string, cuts: set<nat>, unicode: Unicode): string
    requires IsCasing(unicode)
  {
    var kebab := Kebab(phrase, cuts, unicode);
    if kebab == "" then DEFAULT_IF_INVALID_SUBDOMAIN else kebab
  }

  function Min(a: nat, b: nat): nat { if a < b then a else b }

  lemma PrefixIsHyphenated(phrase: string, cuts: set<nat>, unicode: Unicode)
    requires IsCasing(unicode)
    ensures IsHyphenated(Prefix(phrase, cuts, unicode))
  {
    KebabIsHyphenated(phrase, cuts, unicode);
    assert IsHyphenated(DEFAULT_IF_INVALID_SUBDOMAIN);
  }

  /** What the parts make of the whole. */
  lemma NameParts(prefix: string, kept: string, digits: string)
    requires IsHyphenated(prefix) && kept != "" && kept <= prefix
    requires digits != "" && forall i :: 0 <= i < |digits| ==> IsFinal(digits[i])
    ensures Bytes(kept + "-" + digits) == Bytes(kept) + 1 + |digits|
    ensures IsLabel(kept + "-" + digits) <==> IsAscii(kept)
    ensures IsAscii(kept) ==> |kept + "-" + digits| == Bytes(kept + "-" + digits)
  {
    BytesConcat(kept + "-", digits);
    BytesConcat(kept, "-");
    BytesOfAscii("-");
    BytesOfAscii(digits);
    if IsAscii(kept) {
      BytesOfAscii(kept);
    }
    LabelParts(prefix, kept, digits);
  }

  lemma LabelParts(prefix: string, kept: string, digits: string)
    requires IsHyphenated(prefix) && kept != "" && kept <= prefix
    requires digits != "" && forall i :: 0 <= i < |digits| ==> IsFinal(digits[i])
    ensures IsLabel(kept + "-" + digits) <==> IsAscii(kept)
  {
    var name := kept + "-" + digits;
    assert forall i :: 0 <= i < |kept| ==> name[i] == kept[i] == prefix[i];
  }

  /**
  `name` is what was kept of the prefix, a hyphen and leading digits of the UUID: exactly
  min(63, prefix + 33) bytes, with the prefix whole exactly when it has at most 54, and at least
  eight digits. It is a label if and only if what was kept is ASCII.
   */
  ghost predicate IsSuffixed(prefix: string, kept: string, uuid: string, name: string)
    requires IsUuid(uuid)
  {
    && Bytes(name) == Min(LABEL_MAX, Bytes(prefix) + 1 + UUID_LENGTH)
    && kept <= prefix && (kept == prefix <==> Bytes(prefix) <= PREFIX_MAX)
    && (exists d: nat :: 8 <= d <= UUID_LENGTH && name == kept + "-" + uuid[..d])
    && (IsLabel(name) <==> IsAscii(kept))
    && (IsAscii(kept) ==> |name| == Bytes(name))
  }

  /**
  `rfc1123_subdomain`. It panics exactly when a prefix of more than 54 bytes cannot be cut there.
  Otherwise the name is the prefix with as much of the UUID as fits (`IsSuffixed`). For a phrase
  without letters beyond ASCII there is no panic and the name is a label.
   */
  method Rfc1123Subdomain(phrase: string, cuts: set<nat>, unicode: Unicode, uuid: string) returns (name: Option<string>)
    requires IsUuid(uuid) && IsCasing(unicode)
    ensures name.Some? <==> Truncate(Prefix(phrase, cuts, unicode), PREFIX_MAX).Some?
    ensures name.Some? ==>
              var prefix := Prefix(phrase, cuts, unicode);
              IsSuffixed(prefix, Truncate(prefix, PREFIX_MAX).value, uuid, name.value)
    ensures !HasLetter(phrase, unicode) ==> name == Some("invalid-rfc1123-connector-name-" + uuid)
    ensures Plain(phrase, unicode) ==>
              && name.Some? && IsLabel(name.value)
              && |name.value| == Min(LABEL_MAX, |Prefix(phrase, cuts, unicode)| + 1 + UUID_LENGTH)
  {
    var prefix := Normalized(phrase, cuts, unicode);
    name := Suffixed(prefix, uuid);
    if !HasLetter(phrase, unicode) {
      NothingToBuildOn(phrase, cuts, unicode);
      ShortPrefixIsWhole(prefix, uuid, name);
    }
  }

  lemma NothingToBuildOn(phrase: string, cuts: set<nat>, unicode: Unicode)
    requires IsCasing(unicode) && !HasLetter(phrase, unicode)
    ensures var prefix := Prefix(phrase, cuts, unicode);
            IsAscii(prefix) && |prefix| == 30 && prefix + "-" == "invalid-rfc1123-connector-name-"
  {
    KebabNeedsLetters(phrase, cuts, unicode);
  }

  /** A prefix of thirty characters leaves room for the whole UUID. */
  lemma ShortPrefixIsWhole(prefix: string, uuid: string, name: Option<string>)
    requires IsUuid(uuid) && IsAscii(prefix) && |prefix| == 30
    requires name.Some? <==> Truncate(prefix, PREFIX_MAX).Some?
    requires name.Some? ==> IsSuffixed(prefix, Truncate(prefix, PREFIX_MAX).value, uuid, name.value)
    ensures name == Some(prefix + "-" + uuid)
  {
    BytesOfAscii(prefix);
    TruncateIs(prefix, PREFIX_MAX);
    var d: nat :| 8 <= d <= UUID_LENGTH && name.value == prefix + "-" + uuid[..d];
    BytesOfAscii(name.value);
    assert uuid[..d] == uuid;
  }

  /** The first half: the prefix to build on. */
  method Normalized(phrase: string, cuts: set<nat>, unicode: Unicode) returns (prefix: string)
    requires IsCasing(unicode)
    ensures prefix == Prefix(phrase, cuts, unicode) && IsHyphenated(prefix)
    ensures Plain(phrase, unicode) ==>
              && IsAscii(prefix) && Bytes(prefix) == |prefix|
              && Truncate(prefix, PREFIX_MAX) == Some(prefix[..Min(PREFIX_MAX, |prefix|)])
  {
    PrefixIsHyphenated(phrase, cuts, unicode);
    PlainPrefix(phrase, cuts, unicode);
    prefix := Kebab(phrase, cuts, unicode);
    if prefix == "" {
      prefix := DEFAULT_IF_INVALID_SUBDOMAIN;
    }
  }

  /** The second half: fit prefix and UUID into 63 bytes. */
  method Suffixed(whole: string, uuid: string) returns (name: Option<string>)
    requires IsUuid(uuid) && IsHyphenated(whole)
    ensures name.Some? <==> Truncate(whole, PREFIX_MAX).Some?
    ensures name.Some? ==> IsSuffixed(whole, Truncate(whole, PREFIX_MAX).value, uuid, name.value)
  {
    var (prefix, digits) := (whole, uuid);
    TruncateIs(prefix, PREFIX_MAX);
    if |digits| + Bytes(prefix) < 63 {
      // Both fit as they are.
    } else if Bytes(prefix) + 9 > 63 {
      var truncated := Truncate(prefix, 63 - 9);
      if truncated.None? {
        return None;
      }
      prefix := truncated.value;
      digits := digits[..8];
    } else {
      digits := digits[..63 - 1 - Bytes(prefix)];
    }
    name := Some(prefix + "-" + digits);
    assert digits == uuid[..|digits|];
    NameParts(whole, prefix, digits);
  }

  lemma PlainPrefix(phrase: string, cuts: set<nat>, unicode: Unicode)
    requires IsCasing(unicode)
    ensures var prefix := Prefix(phrase, cuts, unicode);
            Plain(phrase, unicode) ==>
              IsAscii(prefix) && Bytes(prefix) == |prefix|
              && Truncate(prefix, PREFIX_MAX) == Some(prefix[..Min(PREFIX_MAX, |prefix|)])
  {
    if Plain(phrase, unicode) {
      var prefix := Prefix(phrase, cuts, unicode);
      KebabStaysAscii(phrase, cuts, unicode);
      assert IsAscii(DEFAULT_IF_INVALID_SUBDOMAIN);
      BytesOfAscii(prefix);
      TruncateAscii(prefix, PREFIX_MAX);
    }
  }

  /** A letter beyond ASCII can make the name no label. */
  lemma ForeignLetterIsKept(unicode: Unicode, c: char)
    requires IsCasing(unicode) && c in unicode.letters && unicode.lower[c] == [c]
    ensures Truncate(Prefix([c], {}, unicode), PREFIX_MAX) == Some([c]) && !IsAscii([c])
  {
    assert [c][..0] == "";
    assert Kebab([c], {}, unicode) == "" + [c] == [c];
    assert [c][1..] == "";
    assert Bytes([c]) == Width(c);
    TruncateIs([c], PREFIX_MAX);
  }

  /** And it can make the truncation panic: fifty-three bytes of ASCII before it, and the cut goes through it. */
  lemma TruncationCanPanic(unicode: Unicode, c: char)
    requires IsCasing(unicode) && c in unicode.letters && unicode.lower[c] == [c]
    ensures var phrase := seq(53, _ => 'a') + [c];
            Prefix(phrase, {}, unicode) == phrase && Truncate(phrase, PREFIX_MAX).None?
  {
    var run := seq(53, _ => 'a');
    KebabOfLowerRun(53, unicode);
    var phrase := run + [c];
    assert phrase[..53] == run;
    TruncateThrough(53, c);
  }

  lemma {:induction false} KebabOfLowerRun(n: nat, unicode: Unicode)
    requires IsCasing(unicode)
    ensures Kebab(seq(n, _ => 'a'), {}, unicode) == seq(n, _ => 'a')
  {
    if n > 0 {
      KebabOfLowerRun(n - 1, unicode);
      var run := seq(n, _ => 'a');
      assert run[..n - 1] == seq(n - 1, _ => 'a');
      assert seq(n - 1, _ => 'a') + ['a'] == run;
    }
  }

  lemma {:induction false} TruncateThrough(n: nat, c: char)
    requires Width(c) > 1
    ensures Truncate(seq(n, _ => 'a') + [c], n + 1).None?
  {
    var s := seq(n, _ => 'a') + [c];
    if n > 0 {
      TruncateThrough(n - 1, c);
      assert s[1..] == seq(n - 1, _ => 'a') + [c];
    }
  }

  /** Names built on one phrase coincide only if the UUIDs share at least their first eight digits. */
  method NamesDiffer(phrase: string, cuts: set<nat>, unicode: Unicode, uuid: string, other: string)
    returns (a: Option<string>, b: Option<string>)
    requires IsUuid(uuid) && IsUuid(other) && IsCasing(unicode)
    ensures a.Some? == b.Some?
    ensures a.Some? && a == b ==> uuid[..8] == other[..8]
  {
    a := Rfc1123Subdomain(phrase, cuts, unicode, uuid);
    b := Rfc1123Subdomain(phrase, cuts, unicode, other);
    if a.Some? {
      ghost var kept := Truncate(Prefix(phrase, cuts, unicode), PREFIX_MAX).value;
      ghost var d: nat :| 8 <= d <= UUID_LENGTH && a.value == kept + "-" + uuid[..d];
      ghost var e: nat :| 8 <= e <= UUID_LENGTH && b.value == kept + "-" + other[..e];
      DigitsOf(kept, uuid, d, a.value);
      DigitsOf(kept, other, e, b.value);
    }
  }

  lemma DigitsOf(kept: string, uuid: string, d: nat, name: string)
    requires 8 <= d <= |uuid| && name == kept + "-" + uuid[..d]
    ensures |name| >= |kept| + 9 && name[|kept| + 1..|kept| + 9] == uuid[..8]
  {
  }

  /** An RFC 1035 label: the UUID, with its first digit replaced by a letter if it is not one already. */
  method Rfc1035Label(uuid: string, letter: char) returns (name: string)
    requires IsUuid(uuid) && IsLower(letter)
    ensures IsLabel(name) && IsLower(name[0])
    ensures |name| == UUID_LENGTH && name[1..] == uuid[1..]
    ensures name[0] == if IsLower(uuid[0]) then uuid[0] else letter
  {
    name := uuid;
    if !IsLower(name[0]) {
      name := name[1..];
      name := [letter] + name;
    }
  }
}
