/** `slugify` of src/autofmu/utils.py: the transform that turns a model name
    into the model identifier.

    The Unicode database Python consults is a parameter of type `UnicodeDb`:
    NFKC and NFKD normalisation, `str.lower`, and the `\w` / `\s` classes of
    `re` on `str` patterns. In ASCII mode the text is pure ASCII once it has
    been encoded, and on ASCII text `str.lower`, `\w` and `\s` are the plain
    ASCII rules below, so that mode consults the database only for NFKD. */
module Slug {

  /** The parts of the Unicode database that `slugify` depends on. */
  datatype UnicodeDb = UnicodeDb(
    nfkc: string -> string,   // unicodedata.normalize("NFKC", _)
    nfkd: string -> string,   // unicodedata.normalize("NFKD", _)
    lower: string -> string,  // str.lower
    isWord: char -> bool,     // `\w`
    isSpace: char -> bool)    // `\s`

  /** Which character classes `\w` and `\s` stand for. */
  datatype CharClasses = AsciiClasses | UnicodeClasses(isWord: char -> bool, isSpace: char -> bool)

  predicate IsAsciiChar(c: char) {
    c as int < 128
  }

  predicate IsAscii(s: string) {
    forall i :: 0 <= i < |s| ==> IsAsciiChar(s[i])
  }

  predicate IsAsciiUpper(c: char) {
    'A' <= c <= 'Z'
  }

  function AsciiLowerChar(c: char): char {
    if IsAsciiUpper(c) then (c as int + 32) as char else c
  }

  /** `str.lower` on ASCII text. */
  function AsciiLower(s: string): (r: string)
    ensures |r| == |s| && forall i :: 0 <= i < |s| ==> r[i] == AsciiLowerChar(s[i])
  {
    seq(|s|, i requires 0 <= i < |s| => AsciiLowerChar(s[i]))
  }

  /** `\w` on ASCII: letters, digits and underscore. */
  predicate AsciiWordChar(c: char) {
    'a' <= c <= 'z' || 'A' <= c <= 'Z' || '0' <= c <= '9' || c == '_'
  }

  /** `\s` on ASCII: space, `\t\n\v\f\r` and `\x1c`-`\x1f`. */
  predicate AsciiSpaceChar(c: char) {
    var k := c as int;
    k == 32 || 9 <= k <= 13 || 28 <= k <= 31
  }

  predicate IsWordChar(c: char, k: CharClasses) {
    match k
    case AsciiClasses => AsciiWordChar(c)
    case UnicodeClasses(isWord, _) => isWord(c)
  }

  predicate IsSpaceChar(c: char, k: CharClasses) {
    match k
    case AsciiClasses => AsciiSpaceChar(c)
    case UnicodeClasses(_, isSpace) => isSpace(c)
  }

  /** NFKD leaves ASCII text alone, as every ASCII character is its own
      decomposition in the Unicode tables. */
  ghost predicate NfkdFixesAscii(u: UnicodeDb) {
    forall s :: IsAscii(s) ==> u.nfkd(s) == s
  }

  /** `.encode("ascii", "ignore").decode("ascii")`: keeps the ASCII
      characters, in order. */
  function EncodeAsciiIgnore(s: string): string {
    if s == [] then []
    else (if IsAsciiChar(s[0]) then [s[0]] else []) + EncodeAsciiIgnore(s[1..])
  }

  /** The encoding keeps exactly the ASCII characters: what it returns is
      ASCII, comes from `s`, and is all of `s` when `s` is ASCII. */
  lemma {:induction false} EncodeAsciiIgnoreKeepsAscii(s: string)
    ensures var r := EncodeAsciiIgnore(s);
      && |r| <= |s| && IsAscii(r)
      && (forall c :: c in r ==> c in s)
      && (IsAscii(s) ==> r == s)
  {
    if s != [] {
      EncodeAsciiIgnoreKeepsAscii(s[1..]);
    }
  }

  /** A character of `[\w\s-]`. */
  predicate IsSlugSourceChar(c: char, k: CharClasses) {
    IsWordChar(c, k) || IsSpaceChar(c, k) || c == '-'
  }

  /** `re.sub(r"[^\w\s-]", "", s)`: keeps the characters of `[\w\s-]`, in
      order. */
  function KeepSlugSource(s: string, k: CharClasses): string {
    if s == [] then []
    else (if IsSlugSourceChar(s[0], k) then [s[0]] else []) + KeepSlugSource(s[1..], k)
  }

  /** The first substitution keeps exactly the characters of `[\w\s-]`. */
  lemma {:induction false} KeepSlugSourceKeeps(s: string, k: CharClasses)
    ensures var r := KeepSlugSource(s, k);
      && |r| <= |s|
      && (forall c :: c in r ==> c in s && IsSlugSourceChar(c, k))
      && ((forall i :: 0 <= i < |s| ==> IsSlugSourceChar(s[i], k)) ==> r == s)
  {
    if s != [] {
      KeepSlugSourceKeeps(s[1..], k);
    }
  }

  /** A character of `[-\s]`. */
  predicate IsSeparator(c: char, k: CharClasses) {
    c == '-' || IsSpaceChar(c, k)
  }

  /** `re.sub(r"[-\s]+", "-", s)`: every maximal run of separators becomes
      a single `-`; every other character is kept. `inRun` says that the
      character before `s` was a separator, so that a separator at the front
      of `s` continues a run that already produced its `-`. */
  function CollapseRun(s: string, k: CharClasses, inRun: bool): string {
    if s == [] then []
    else if IsSeparator(s[0], k) then (if inRun then [] else "-") + CollapseRun(s[1..], k, true)
    else [s[0]] + CollapseRun(s[1..], k, false)
  }

  function CollapseSeparators(s: string, k: CharClasses): string {
    CollapseRun(s, k, false)
  }

  /** After the second substitution no separator but `-` is left and no two
      `-` are adjacent; a run in progress produces no further `-`, and a
      fresh start produces `-` exactly for a leading separator. */
  lemma {:induction false} CollapseRunShape(s: string, k: CharClasses, inRun: bool)
    ensures var r := CollapseRun(s, k, inRun);
      && (inRun ==> r == [] || r[0] != '-')
      && (!inRun && s != [] ==> r != [] && (r[0] == '-' <==> IsSeparator(s[0], k)))
      && (forall c :: c in r ==> c == '-' || (c in s && !IsSeparator(c, k)))
      && (forall i :: 0 <= i < |r| - 1 ==> !(r[i] == '-' && r[i + 1] == '-'))
  {
    if s != [] {
      CollapseRunShape(s[1..], k, IsSeparator(s[0], k));
      assert forall c :: c in s[1..] ==> c in s;
    }
  }

  lemma CollapseSeparatorsShape(s: string, k: CharClasses)
    ensures var r := CollapseSeparators(s, k);
      && (forall c :: c in r ==> c == '-' || (c in s && !IsSeparator(c, k)))
      && (forall i :: 0 <= i < |r| - 1 ==> !(r[i] == '-' && r[i + 1] == '-'))
  {
    CollapseRunShape(s, k, false);
  }

  /** The characters `strip("-_")` removes. */
  predicate IsStripChar(c: char) {
    c == '-' || c == '_'
  }

  function StripLeading(s: string): (r: string)
    ensures |r| <= |s| && r == s[|s| - |r|..]
    ensures r == [] || !IsStripChar(r[0])
  {
    if s != [] && IsStripChar(s[0]) then StripLeading(s[1..]) else s
  }

  function StripTrailing(s: string): (r: string)
    ensures |r| <= |s| && r == s[..|r|]
    ensures r == [] || !IsStripChar(r[|r| - 1])
  {
    if s != [] && IsStripChar(s[|s| - 1]) then StripTrailing(s[..|s| - 1]) else s
  }

  /** `s.strip("-_")`. */
  function Strip(s: string): string {
    StripTrailing(StripLeading(s))
  }

  function ClassesFor(allowUnicode: bool, u: UnicodeDb): CharClasses {
    if allowUnicode then UnicodeClasses(u.isWord, u.isSpace) else AsciiClasses
  }

  /** The text the regular expressions work on: normalised, (in ASCII mode)
      encoded to ASCII, and lowercased. */
  function Prepared(value: string, allowUnicode: bool, u: UnicodeDb): (r: string)
    ensures !allowUnicode ==> IsAscii(r) && forall c :: c in r ==> !IsAsciiUpper(c)
  {
    if allowUnicode then u.lower(u.nfkc(value))
    else EncodeAsciiIgnoreKeepsAscii(u.nfkd(value)); AsciiLower(EncodeAsciiIgnore(u.nfkd(value)))
  }

  /** `slugify(value, allow_unicode)`. */
  function Slugify(value: string, allowUnicode: bool, u: UnicodeDb): (slug: string)
    ensures DashSeparated(slug, ClassesFor(allowUnicode, u))
    ensures slug == [] || (!IsStripChar(slug[0]) && !IsStripChar(slug[|slug| - 1]))
    ensures !allowUnicode ==> forall i :: 0 <= i < |slug| ==> IsSlugChar(slug[i])
  {
    var k := ClassesFor(allowUnicode, u);
    var prepared := Prepared(value, allowUnicode, u);
    var kept := KeepSlugSource(prepared, k);
    var collapsed := CollapseSeparators(kept, k);
    KeepSlugSourceKeeps(prepared, k);
    CollapseSeparatorsShape(kept, k);
    StripKeepsDashSeparated(collapsed, k);
    if allowUnicode then Strip(collapsed)
    else AsciiSlugAlphabet(prepared, collapsed); Strip(collapsed)
  }

  /** Every character is `-` or a word character that is not whitespace,
      and no two `-` are adjacent. */
  ghost predicate DashSeparated(s: string, k: CharClasses) {
    && (forall i :: 0 <= i < |s| ==> s[i] == '-' || (IsWordChar(s[i], k) && !IsSpaceChar(s[i], k)))
    && (forall i :: 0 <= i < |s| - 1 ==> !(s[i] == '-' && s[i + 1] == '-'))
  }

  /** A character of `[a-z0-9_-]`. */
  predicate IsSlugChar(c: char) {
    'a' <= c <= 'z' || '0' <= c <= '9' || c == '_' || c == '-'
  }

  /** The strings ASCII-mode `slugify` returns. */
  predicate IsSlug(s: string) {
    && (forall i :: 0 <= i < |s| ==> IsSlugChar(s[i]))
    && (forall i :: 0 <= i < |s| - 1 ==> !(s[i] == '-' && s[i + 1] == '-'))
    && (s == [] || (!IsStripChar(s[0]) && !IsStripChar(s[|s| - 1])))
  }

  /** A contiguous piece of a dash-separated string is dash-separated. */
  lemma SliceKeepsDashSeparated(s: string, lo: nat, hi: nat, k: CharClasses)
    requires lo <= hi <= |s| && DashSeparated(s, k)
    ensures DashSeparated(s[lo..hi], k)
  {
    var t := s[lo..hi];
    assert forall i :: 0 <= i < |t| ==> t[i] == s[lo + i];
  }

  lemma StripKeepsDashSeparated(s: string, k: CharClasses)
    requires forall c :: c in s ==> c == '-' || (IsWordChar(c, k) && !IsSpaceChar(c, k))
    requires forall i :: 0 <= i < |s| - 1 ==> !(s[i] == '-' && s[i + 1] == '-')
    ensures DashSeparated(Strip(s), k)
  {
    assert DashSeparated(s, k);
    var lead := StripLeading(s);
    SliceKeepsDashSeparated(s, |s| - |lead|, |s|, k);
    SliceKeepsDashSeparated(lead, 0, |Strip(s)|, k);
  }

  lemma AsciiSlugAlphabet(prepared: string, collapsed: string)
    requires forall c :: c in prepared ==> IsAsciiChar(c) && !IsAsciiUpper(c)
    requires collapsed == CollapseSeparators(KeepSlugSource(prepared, AsciiClasses), AsciiClasses)
    ensures forall c :: c in Strip(collapsed) ==> IsSlugChar(c)
  {
    var kept := KeepSlugSource(prepared, AsciiClasses);
    KeepSlugSourceKeeps(prepared, AsciiClasses);
    CollapseSeparatorsShape(kept, AsciiClasses);
    forall c | c in collapsed ensures IsSlugChar(c) {
      if c != '-' {
        assert c in kept && !IsSeparator(c, AsciiClasses);
        assert c in prepared && IsSlugSourceChar(c, AsciiClasses);
      }
    }
    var lead := StripLeading(collapsed);
    assert forall c :: c in lead ==> c in collapsed;
    assert forall c :: c in Strip(collapsed) ==> c in lead;
  }

  /** A string whose only separators are single `-` collapses to itself. */
  lemma {:induction false} CollapseFixesSingleDashes(s: string, k: CharClasses)
    requires forall i :: 0 <= i < |s| ==> s[i] == '-' || !IsSeparator(s[i], k)
    requires forall i :: 0 <= i < |s| - 1 ==> !(s[i] == '-' && s[i + 1] == '-')
    ensures CollapseRun(s, k, false) == s
  {
    if s != [] {
      CollapseFixesSingleDashes(s[1..], k);
      if s[0] == '-' && |s| > 1 {
        assert !IsSeparator(s[1], k);
        assert CollapseRun(s[1..], k, true) == CollapseRun(s[1..], k, false);
      }
    }
  }

  /** A string without `-` or `_` at its ends is left alone by `strip`. */
  lemma StripFixesCleanEnds(s: string)
    requires s == [] || (!IsStripChar(s[0]) && !IsStripChar(s[|s| - 1]))
    ensures Strip(s) == s
  {
    assert StripLeading(s) == s;
  }

  /** ASCII-mode `slugify` on ASCII text is the regular-expression pipeline
      on the lowercased text. */
  lemma AsciiSlugifyOfAscii(s: string, u: UnicodeDb)
    requires NfkdFixesAscii(u) && IsAscii(s)
    ensures Slugify(s, false, u)
         == Strip(CollapseSeparators(KeepSlugSource(AsciiLower(s), AsciiClasses), AsciiClasses))
  {
    assert u.nfkd(s) == s;
    EncodeAsciiIgnoreKeepsAscii(s);
  }

  /** Every step of ASCII-mode `slugify` leaves a slug alone. */
  lemma SlugifyFixesSlug(s: string, u: UnicodeDb)
    requires NfkdFixesAscii(u) && IsSlug(s)
    ensures Slugify(s, false, u) == s
  {
    assert IsAscii(s);
    AsciiSlugifyOfAscii(s, u);
    PipelineFixesSlug(s);
  }

  lemma PipelineFixesSlug(s: string)
    requires IsSlug(s)
    ensures Strip(CollapseSeparators(KeepSlugSource(AsciiLower(s), AsciiClasses), AsciiClasses)) == s
  {
    LowerFixesSlug(s);
    KeepFixesSlug(s);
    SeparatorsOfSlug(s);
    CollapseFixesSingleDashes(s, AsciiClasses);
    StripFixesCleanEnds(s);
  }

  lemma LowerFixesSlug(s: string)
    requires IsSlug(s)
    ensures AsciiLower(s) == s
  {
  }

  lemma KeepFixesSlug(s: string)
    requires IsSlug(s)
    ensures KeepSlugSource(s, AsciiClasses) == s
  {
    assert forall i :: 0 <= i < |s| ==> IsSlugSourceChar(s[i], AsciiClasses);
    KeepSlugSourceKeeps(s, AsciiClasses);
  }

  lemma SeparatorsOfSlug(s: string)
    requires IsSlug(s)
    ensures forall i :: 0 <= i < |s| ==> s[i] == '-' || !IsSeparator(s[i], AsciiClasses)
    ensures forall i :: 0 <= i < |s| - 1 ==> !(s[i] == '-' && s[i + 1] == '-')
  {
  }

  /** ASCII-mode `slugify` always returns a slug, whatever the Unicode tables
      say. */
  lemma SlugifyIsSlug(value: string, u: UnicodeDb)
    ensures IsSlug(Slugify(value, false, u))
  {
  }

  /** The ASCII-mode slugs are exactly the fixed points of ASCII-mode
      `slugify`. */
  lemma SlugFixedPoint(s: string, u: UnicodeDb)
    requires NfkdFixesAscii(u)
    ensures Slugify(s, false, u) == s <==> IsSlug(s)
  {
    if IsSlug(s) {
      SlugifyFixesSlug(s, u);
    }
  }

  /** Applying ASCII-mode `slugify` to its own result changes nothing. */
  lemma SlugifyIdempotent(value: string, u: UnicodeDb)
    requires NfkdFixesAscii(u)
    ensures Slugify(Slugify(value, false, u), false, u) == Slugify(value, false, u)
  {
    SlugFixedPoint(Slugify(value, false, u), u);
  }
}
