/** The rows of the `slugify` test table (tests/test_utils.py:9-22).

    An ASCII-mode row holds for every Unicode database whose NFKD leaves
    ASCII text alone. A Unicode-mode row holds for every database that
    normalises and lowercases the test string as Python's does and that
    classes each of its characters as Python's `\w` and `\s` do; the row's
    `requires` lists exactly those facts.

    The solver cannot evaluate the pipeline on a whole test string at once,
    so each row is taken apart character by character: the string is written
    as a chain `[c0] + ([c1] + ...)`, each stage is proved on a chain of
    arbitrary characters from the classes of its characters (`RowNLower`,
    `RowNKeep`, `RowNCollapse`, `RowNStrip`), `RowNChars` instantiates the
    stages with the row's characters, and `RowNInput` / `RowNOutput` equate
    the chains with the test table's strings (a row whose expected string
    an earlier lemma already spells out reuses that lemma). Those equalities
    split the index range into blocks of four, which keeps the solver's case
    analysis small. */
module SlugExamples {
  import opened Slug

  lemma AsciiCons(c: char, t: string)
    requires IsAsciiChar(c) && IsAscii(t)
    ensures IsAscii([c] + t)
  {
    assert forall i :: 1 <= i < |[c] + t| ==> ([c] + t)[i] == t[i - 1];
  }

  lemma LowerCons(c: char, t: string)
    ensures AsciiLower([c] + t) == [AsciiLowerChar(c)] + AsciiLower(t)
  {
  }

  lemma KeepKept(c: char, t: string, k: CharClasses)
    requires IsSlugSourceChar(c, k)
    ensures KeepSlugSource([c] + t, k) == [c] + KeepSlugSource(t, k)
  {
    assert ([c] + t)[1..] == t;
  }

  lemma KeepDropped(c: char, t: string, k: CharClasses)
    requires !IsSlugSourceChar(c, k)
    ensures KeepSlugSource([c] + t, k) == KeepSlugSource(t, k)
  {
    assert ([c] + t)[1..] == t;
  }

  lemma CollapseWord(c: char, t: string, k: CharClasses, inRun: bool)
    requires !IsSeparator(c, k)
    ensures CollapseRun([c] + t, k, inRun) == [c] + CollapseRun(t, k, false)
  {
    assert ([c] + t)[1..] == t;
  }

  lemma CollapseRunStart(c: char, t: string, k: CharClasses)
    requires IsSeparator(c, k)
    ensures CollapseRun([c] + t, k, false) == ['-'] + CollapseRun(t, k, true)
  {
    assert ([c] + t)[1..] == t;
  }

  lemma CollapseRunRest(c: char, t: string, k: CharClasses)
    requires IsSeparator(c, k)
    ensures CollapseRun([c] + t, k, true) == CollapseRun(t, k, true)
  {
    assert ([c] + t)[1..] == t;
  }

  lemma StripLeadingSkip(c: char, t: string)
    requires IsStripChar(c)
    ensures StripLeading([c] + t) == StripLeading(t)
  {
    assert ([c] + t)[1..] == t;
  }

  lemma StripLeadingStop(c: char, t: string)
    requires !IsStripChar(c)
    ensures StripLeading([c] + t) == [c] + t
  {
  }

  /** Trailing `-` and `_` of `a + t` come from `t` unless `t` is made of
      them alone. */
  lemma {:induction false} StripTrailingAppend(a: string, t: string)
    ensures StripTrailing(a + t) == if StripTrailing(t) == [] then StripTrailing(a) else a + StripTrailing(t)
  {
    if t == [] {
      assert a + t == a;
    } else {
      var t' := t[..|t| - 1];
      assert (a + t)[..|a + t| - 1] == a + t';
      assert (a + t)[|a + t| - 1] == t[|t| - 1];
      if IsStripChar(t[|t| - 1]) {
        StripTrailingAppend(a, t');
      }
    }
  }

  lemma StripTrailingSkip(c: char, t: string)
    requires IsStripChar(c) && StripTrailing(t) == []
    ensures StripTrailing([c] + t) == []
  {
    StripTrailingAppend([c], t);
  }

  lemma StripTrailingStop(c: char, t: string)
    requires !IsStripChar(c) && StripTrailing(t) == []
    ensures StripTrailing([c] + t) == [c] + []
  {
    StripTrailingAppend([c], t);
    assert [c] + [] == [c];
  }

  lemma StripTrailingKeep(c: char, t: string)
    requires StripTrailing(t) != []
    ensures StripTrailing([c] + t) == [c] + StripTrailing(t)
  {
    StripTrailingAppend([c], t);
  }


  // tests/test_utils.py:9: "Hello, World!" becomes "hello-world".

  lemma Row9Lower(c0: char, c1: char, c2: char, c3: char, c4: char, c5: char, c6: char, c7: char, c8: char, c9: char, c10: char, c11: char, c12: char)
    requires IsAsciiChar(c0) && IsAsciiChar(c1) && IsAsciiChar(c2) && IsAsciiChar(c3)
      && IsAsciiChar(c4) && IsAsciiChar(c5) && IsAsciiChar(c6) && IsAsciiChar(c7)
      && IsAsciiChar(c8) && IsAsciiChar(c9) && IsAsciiChar(c10) && IsAsciiChar(c11)
      && IsAsciiChar(c12)
    ensures IsAscii([c0] + ([c1] + ([c2] + ([c3] + ([c4] + ([c5] + ([c6] + ([c7] + ([c8] + ([c9] + ([c10] + ([c11] + ([c12] + [])))))))))))))
    ensures AsciiLower([c0] + ([c1] + ([c2] + ([c3] + ([c4] + ([c5] + ([c6] + ([c7] + ([c8] + ([c9] + ([c10] + ([c11] + ([c12] + [])))))))))))))
         == [AsciiLowerChar(c0)] + ([AsciiLowerChar(c1)] + ([AsciiLowerChar(c2)] + ([AsciiLowerChar(c3)] + ([AsciiLowerChar(c4)] + ([AsciiLowerChar(c5)] + ([AsciiLowerChar(c6)] + ([AsciiLowerChar(c7)] + ([AsciiLowerChar(c8)] + ([AsciiLowerChar(c9)] + ([AsciiLowerChar(c10)] + ([AsciiLowerChar(c11)] + ([AsciiLowerChar(c12)] + []))))))))))))
  {
    var t13: string := [];
    var t12 := [c12] + t13;
    var t11 := [c11] + t12;
    var t10 := [c10] + t11;
    var t9 := [c9] + t10;
    var t8 := [c8] + t9;
    var t7 := [c7] + t8;
    var t6 := [c6] + t7;
    var t5 := [c5] + t6;
    var t4 := [c4] + t5;
    var t3 := [c3] + t4;
    var t2 := [c2] + t3;
    var t1 := [c1] + t2;
    var t0 := [c0] + t1;
    AsciiCons(c12, t13);
    AsciiCons(c11, t12);
    AsciiCons(c10, t11);
    AsciiCons(c9, t10);
    AsciiCons(c8, t9);
    AsciiCons(c7, t8);
    AsciiCons(c6, t7);
    AsciiCons(c5, t6);
    AsciiCons(c4, t5);
    AsciiCons(c3, t4);
    AsciiCons(c2, t3);
    AsciiCons(c1, t2);
    AsciiCons(c0, t1);
    LowerCons(c0, t1);
    LowerCons(c1, t2);
    LowerCons(c2, t3);
    LowerCons(c3, t4);
    LowerCons(c4, t5);
    LowerCons(c5, t6);
    LowerCons(c6, t7);
    LowerCons(c7, t8);
    LowerCons(c8, t9);
    LowerCons(c9, t10);
    LowerCons(c10, t11);
    LowerCons(c11, t12);
    LowerCons(c12, t13);
  }

  lemma Row9Keep(c0: char, c1: char, c2: char, c3: char, c4: char, c5: char, c6: char, c7: char, c8: char, c9: char, c10: char, c11: char, c12: char, k: CharClasses)
    requires IsSlugSourceChar(c0, k) && IsSlugSourceChar(c1, k) && IsSlugSourceChar(c2, k)
      && IsSlugSourceChar(c3, k) && IsSlugSourceChar(c4, k)
      && !IsSlugSourceChar(c5, k) && IsSlugSourceChar(c6, k)
      && IsSlugSourceChar(c7, k) && IsSlugSourceChar(c8, k) && IsSlugSourceChar(c9, k)
      && IsSlugSourceChar(c10, k) && IsSlugSourceChar(c11, k)
      && !IsSlugSourceChar(c12, k)
    ensures KeepSlugSource([c0] + ([c1] + ([c2] + ([c3] + ([c4] + ([c5] + ([c6] + ([c7] + ([c8] + ([c9] + ([c10] + ([c11] + ([c12] + [])))))))))))), k)
         == [c0] + ([c1] + ([c2] + ([c3] + ([c4] + ([c6] + ([c7] + ([c8] + ([c9] + ([c10] + ([c11] + []))))))))))
  {
    var t13: string := [];
    var t12 := [c12] + t13;
    var t11 := [c11] + t12;
    var t10 := [c10] + t11;
    var t9 := [c9] + t10;
    var t8 := [c8] + t9;
    var t7 := [c7] + t8;
    var t6 := [c6] + t7;
    var t5 := [c5] + t6;
    var t4 := [c4] + t5;
    var t3 := [c3] + t4;
    var t2 := [c2] + t3;
    var t1 := [c1] + t2;
    var t0 := [c0] + t1;
    KeepKept(c0, t1, k);
    KeepKept(c1, t2, k);
    KeepKept(c2, t3, k);
    KeepKept(c3, t4, k);
    KeepKept(c4, t5, k);
    KeepDropped(c5, t6, k);
    KeepKept(c6, t7, k);
    KeepKept(c7, t8, k);
    KeepKept(c8, t9, k);
    KeepKept(c9, t10, k);
    KeepKept(c10, t11, k);
    KeepKept(c11, t12, k);
    KeepDropped(c12, t13, k);
  }

  lemma Row9Collapse(c0: char, c1: char, c2: char, c3: char, c4: char, c5: char, c6: char, c7: char, c8: char, c9: char, c10: char, k: CharClasses)
    requires !IsSeparator(c0, k) && !IsSeparator(c1, k) && !IsSeparator(c2, k)
      && !IsSeparator(c3, k) && !IsSeparator(c4, k) && IsSeparator(c5, k)
      && !IsSeparator(c6, k) && !IsSeparator(c7, k) && !IsSeparator(c8, k)
      && !IsSeparator(c9, k) && !IsSeparator(c10, k)
    ensures CollapseRun([c0] + ([c1] + ([c2] + ([c3] + ([c4] + ([c5] + ([c6] + ([c7] + ([c8] + ([c9] + ([c10] + [])))))))))), k, false)
         == [c0] + ([c1] + ([c2] + ([c3] + ([c4] + (['-'] + ([c6] + ([c7] + ([c8] + ([c9] + ([c10] + []))))))))))
  {
    var t11: string := [];
    var t10 := [c10] + t11;
    var t9 := [c9] + t10;
    var t8 := [c8] + t9;
    var t7 := [c7] + t8;
    var t6 := [c6] + t7;
    var t5 := [c5] + t6;
    var t4 := [c4] + t5;
    var t3 := [c3] + t4;
    var t2 := [c2] + t3;
    var t1 := [c1] + t2;
    var t0 := [c0] + t1;
    CollapseWord(c0, t1, k, false);
    CollapseWord(c1, t2, k, false);
    CollapseWord(c2, t3, k, false);
    CollapseWord(c3, t4, k, false);
    CollapseWord(c4, t5, k, false);
    CollapseRunStart(c5, t6, k);
    CollapseWord(c6, t7, k, true);
    CollapseWord(c7, t8, k, false);
    CollapseWord(c8, t9, k, false);
    CollapseWord(c9, t10, k, false);
    CollapseWord(c10, t11, k, false);
  }

  lemma Row9Strip(c0: char, c1: char, c2: char, c3: char, c4: char, c5: char, c6: char, c7: char, c8: char, c9: char, c10: char)
    requires !IsStripChar(c0) && !IsStripChar(c10)
    ensures Strip([c0] + ([c1] + ([c2] + ([c3] + ([c4] + ([c5] + ([c6] + ([c7] + ([c8] + ([c9] + ([c10] + [])))))))))))
         == [c0] + ([c1] + ([c2] + ([c3] + ([c4] + ([c5] + ([c6] + ([c7] + ([c8] + ([c9] + ([c10] + []))))))))))
  {
    var t11: string := [];
    var t10 := [c10] + t11;
    var t9 := [c9] + t10;
    var t8 := [c8] + t9;
    var t7 := [c7] + t8;
    var t6 := [c6] + t7;
    var t5 := [c5] + t6;
    var t4 := [c4] + t5;
    var t3 := [c3] + t4;
    var t2 := [c2] + t3;
    var t1 := [c1] + t2;
    var t0 := [c0] + t1;
    StripLeadingStop(c0, t1);
    StripTrailingStop(c10, t11);
    StripTrailingKeep(c9, t10);
    StripTrailingKeep(c8, t9);
    StripTrailingKeep(c7, t8);
    StripTrailingKeep(c6, t7);
    StripTrailingKeep(c5, t6);
    StripTrailingKeep(c4, t5);
    StripTrailingKeep(c3, t4);
    StripTrailingKeep(c2, t3);
    StripTrailingKeep(c1, t2);
    StripTrailingKeep(c0, t1);
  }

  lemma Row9Chars(u: UnicodeDb)
    requires NfkdFixesAscii(u)
    ensures Slugify(['H'] + (['e'] + (['l'] + (['l'] + (['o'] + ([','] + ([' '] + (['W'] + (['o'] + (['r'] + (['l'] + (['d'] + (['!'] + [])))))))))))), false, u)
         == [AsciiLowerChar('H')] + ([AsciiLowerChar('e')] + ([AsciiLowerChar('l')] + ([AsciiLowerChar('l')] + ([AsciiLowerChar('o')] + (['-'] + ([AsciiLowerChar('W')] + ([AsciiLowerChar('o')] + ([AsciiLowerChar('r')] + ([AsciiLowerChar('l')] + ([AsciiLowerChar('d')] + []))))))))))
  {
    Row9Lower('H', 'e', 'l', 'l', 'o', ',', ' ', 'W', 'o', 'r', 'l', 'd', '!');
    Row9Keep(AsciiLowerChar('H'), AsciiLowerChar('e'), AsciiLowerChar('l'), AsciiLowerChar('l'), AsciiLowerChar('o'), AsciiLowerChar(','), AsciiLowerChar(' '), AsciiLowerChar('W'), AsciiLowerChar('o'), AsciiLowerChar('r'), AsciiLowerChar('l'), AsciiLowerChar('d'), AsciiLowerChar('!'), AsciiClasses);
    Row9Collapse(AsciiLowerChar('H'), AsciiLowerChar('e'), AsciiLowerChar('l'), AsciiLowerChar('l'), AsciiLowerChar('o'), AsciiLowerChar(' '), AsciiLowerChar('W'), AsciiLowerChar('o'), AsciiLowerChar('r'), AsciiLowerChar('l'), AsciiLowerChar('d'), AsciiClasses);
    Row9Strip(AsciiLowerChar('H'), AsciiLowerChar('e'), AsciiLowerChar('l'), AsciiLowerChar('l'), AsciiLowerChar('o'), '-', AsciiLowerChar('W'), AsciiLowerChar('o'), AsciiLowerChar('r'), AsciiLowerChar('l'), AsciiLowerChar('d'));
    AsciiSlugifyOfAscii(['H'] + (['e'] + (['l'] + (['l'] + (['o'] + ([','] + ([' '] + (['W'] + (['o'] + (['r'] + (['l'] + (['d'] + (['!'] + [])))))))))))), u);
  }

  lemma Row9Input()
    ensures "Hello, World!"
         == ['H'] + (['e'] + (['l'] + (['l'] + (['o'] + ([','] + ([' '] + (['W'] + (['o'] + (['r'] + (['l'] + (['d'] + (['!'] + []))))))))))))
  {
    var s, t := "Hello, World!", ['H'] + (['e'] + (['l'] + (['l'] + (['o'] + ([','] + ([' '] + (['W'] + (['o'] + (['r'] + (['l'] + (['d'] + (['!'] + []))))))))))));
    assert |s| == |t| == 13;
    forall i | 0 <= i < 4 ensures s[i] == t[i] {
    }
    forall i | 4 <= i < 8 ensures s[i] == t[i] {
    }
    forall i | 8 <= i < 12 ensures s[i] == t[i] {
    }
    forall i | 12 <= i < 13 ensures s[i] == t[i] {
    }
  }

  lemma Row9Output()
    ensures "hello-world"
         == [AsciiLowerChar('H')] + ([AsciiLowerChar('e')] + ([AsciiLowerChar('l')] + ([AsciiLowerChar('l')] + ([AsciiLowerChar('o')] + (['-'] + ([AsciiLowerChar('W')] + ([AsciiLowerChar('o')] + ([AsciiLowerChar('r')] + ([AsciiLowerChar('l')] + ([AsciiLowerChar('d')] + []))))))))))
  {
    var s, t := "hello-world", [AsciiLowerChar('H')] + ([AsciiLowerChar('e')] + ([AsciiLowerChar('l')] + ([AsciiLowerChar('l')] + ([AsciiLowerChar('o')] + (['-'] + ([AsciiLowerChar('W')] + ([AsciiLowerChar('o')] + ([AsciiLowerChar('r')] + ([AsciiLowerChar('l')] + ([AsciiLowerChar('d')] + []))))))))));
    assert |s| == |t| == 11;
    forall i | 0 <= i < 4 ensures s[i] == t[i] {
    }
    forall i | 4 <= i < 8 ensures s[i] == t[i] {
    }
    forall i | 8 <= i < 11 ensures s[i] == t[i] {
    }
  }

  lemma SlugTestRow9(u: UnicodeDb)
    requires NfkdFixesAscii(u)
    ensures Slugify("Hello, World!", false, u) == "hello-world"
  {
    Row9Input();
    Row9Chars(u);
    Row9Output();
  }

  // tests/test_utils.py:10: "spam & eggs" becomes "spam-eggs".

  lemma Row10Lower(c0: char, c1: char, c2: char, c3: char, c4: char, c5: char, c6: char, c7: char, c8: char, c9: char, c10: char)
    requires IsAsciiChar(c0) && IsAsciiChar(c1) && IsAsciiChar(c2) && IsAsciiChar(c3)
      && IsAsciiChar(c4) && IsAsciiChar(c5) && IsAsciiChar(c6) && IsAsciiChar(c7)
      && IsAsciiChar(c8) && IsAsciiChar(c9) && IsAsciiChar(c10)
    ensures IsAscii([c0] + ([c1] + ([c2] + ([c3] + ([c4] + ([c5] + ([c6] + ([c7] + ([c8] + ([c9] + ([c10] + [])))))))))))
    ensures AsciiLower([c0] + ([c1] + ([c2] + ([c3] + ([c4] + ([c5] + ([c6] + ([c7] + ([c8] + ([c9] + ([c10] + [])))))))))))
         == [AsciiLowerChar(c0)] + ([AsciiLowerChar(c1)] + ([AsciiLowerChar(c2)] + ([AsciiLowerChar(c3)] + ([AsciiLowerChar(c4)] + ([AsciiLowerChar(c5)] + ([AsciiLowerChar(c6)] + ([AsciiLowerChar(c7)] + ([AsciiLowerChar(c8)] + ([AsciiLowerChar(c9)] + ([AsciiLowerChar(c10)] + []))))))))))
  {
    var t11: string := [];
    var t10 := [c10] + t11;
    var t9 := [c9] + t10;
    var t8 := [c8] + t9;
    var t7 := [c7] + t8;
    var t6 := [c6] + t7;
    var t5 := [c5] + t6;
    var t4 := [c4] + t5;
    var t3 := [c3] + t4;
    var t2 := [c2] + t3;
    var t1 := [c1] + t2;
    var t0 := [c0] + t1;
    AsciiCons(c10, t11);
    AsciiCons(c9, t10);
    AsciiCons(c8, t9);
    AsciiCons(c7, t8);
    AsciiCons(c6, t7);
    AsciiCons(c5, t6);
    AsciiCons(c4, t5);
    AsciiCons(c3, t4);
    AsciiCons(c2, t3);
    AsciiCons(c1, t2);
    AsciiCons(c0, t1);
    LowerCons(c0, t1);
    LowerCons(c1, t2);
    LowerCons(c2, t3);
    LowerCons(c3, t4);
    LowerCons(c4, t5);
    LowerCons(c5, t6);
    LowerCons(c6, t7);
    LowerCons(c7, t8);
    LowerCons(c8, t9);
    LowerCons(c9, t10);
    LowerCons(c10, t11);
  }

  lemma Row10Keep(c0: char, c1: char, c2: char, c3: char, c4: char, c5: char, c6: char, c7: char, c8: char, c9: char, c10: char, k: CharClasses)
    requires IsSlugSourceChar(c0, k) && IsSlugSourceChar(c1, k) && IsSlugSourceChar(c2, k)
      && IsSlugSourceChar(c3, k) && IsSlugSourceChar(c4, k)
      && !IsSlugSourceChar(c5, k) && IsSlugSourceChar(c6, k)
      && IsSlugSourceChar(c7, k) && IsSlugSourceChar(c8, k) && IsSlugSourceChar(c9, k)
      && IsSlugSourceChar(c10, k)
    ensures KeepSlugSource([c0] + ([c1] + ([c2] + ([c3] + ([c4] + ([c5] + ([c6] + ([c7] + ([c8] + ([c9] + ([c10] + [])))))))))), k)
         == [c0] + ([c1] + ([c2] + ([c3] + ([c4] + ([c6] + ([c7] + ([c8] + ([c9] + ([c10] + [])))))))))
  {
    var t11: string := [];
    var t10 := [c10] + t11;
    var t9 := [c9] + t10;
    var t8 := [c8] + t9;
    var t7 := [c7] + t8;
    var t6 := [c6] + t7;
    var t5 := [c5] + t6;
    var t4 := [c4] + t5;
    var t3 := [c3] + t4;
    var t2 := [c2] + t3;
    var t1 := [c1] + t2;
    var t0 := [c0] + t1;
    KeepKept(c0, t1, k);
    KeepKept(c1, t2, k);
    KeepKept(c2, t3, k);
    KeepKept(c3, t4, k);
    KeepKept(c4, t5, k);
    KeepDropped(c5, t6, k);
    KeepKept(c6, t7, k);
    KeepKept(c7, t8, k);
    KeepKept(c8, t9, k);
    KeepKept(c9, t10, k);
    KeepKept(c10, t11, k);
  }

  lemma Row10Collapse(c0: char, c1: char, c2: char, c3: char, c4: char, c5: char, c6: char, c7: char, c8: char, c9: char, k: CharClasses)
    requires !IsSeparator(c0, k) && !IsSeparator(c1, k) && !IsSeparator(c2, k)
      && !IsSeparator(c3, k) && IsSeparator(c4, k) && IsSeparator(c5, k)
      && !IsSeparator(c6, k) && !IsSeparator(c7, k) && !IsSeparator(c8, k)
      && !IsSeparator(c9, k)
    ensures CollapseRun([c0] + ([c1] + ([c2] + ([c3] + ([c4] + ([c5] + ([c6] + ([c7] + ([c8] + ([c9] + []))))))))), k, false)
         == [c0] + ([c1] + ([c2] + ([c3] + (['-'] + ([c6] + ([c7] + ([c8] + ([c9] + []))))))))
  {
    var t10: string := [];
    var t9 := [c9] + t10;
    var t8 := [c8] + t9;
    var t7 := [c7] + t8;
    var t6 := [c6] + t7;
    var t5 := [c5] + t6;
    var t4 := [c4] + t5;
    var t3 := [c3] + t4;
    var t2 := [c2] + t3;
    var t1 := [c1] + t2;
    var t0 := [c0] + t1;
    CollapseWord(c0, t1, k, false);
    CollapseWord(c1, t2, k, false);
    CollapseWord(c2, t3, k, false);
    CollapseWord(c3, t4, k, false);
    CollapseRunStart(c4, t5, k);
    CollapseRunRest(c5, t6, k);
    CollapseWord(c6, t7, k, true);
    CollapseWord(c7, t8, k, false);
    CollapseWord(c8, t9, k, false);
    CollapseWord(c9, t10, k, false);
  }

  lemma Row10Strip(c0: char, c1: char, c2: char, c3: char, c4: char, c5: char, c6: char, c7: char, c8: char)
    requires !IsStripChar(c0) && !IsStripChar(c8)
    ensures Strip([c0] + ([c1] + ([c2] + ([c3] + ([c4] + ([c5] + ([c6] + ([c7] + ([c8] + [])))))))))
         == [c0] + ([c1] + ([c2] + ([c3] + ([c4] + ([c5] + ([c6] + ([c7] + ([c8] + []))))))))
  {
    var t9: string := [];
    var t8 := [c8] + t9;
    var t7 := [c7] + t8;
    var t6 := [c6] + t7;
    var t5 := [c5] + t6;
    var t4 := [c4] + t5;
    var t3 := [c3] + t4;
    var t2 := [c2] + t3;
    var t1 := [c1] + t2;
    var t0 := [c0] + t1;
    StripLeadingStop(c0, t1);
    StripTrailingStop(c8, t9);
    StripTrailingKeep(c7, t8);
    StripTrailingKeep(c6, t7);
    StripTrailingKeep(c5, t6);
    StripTrailingKeep(c4, t5);
    StripTrailingKeep(c3, t4);
    StripTrailingKeep(c2, t3);
    StripTrailingKeep(c1, t2);
    StripTrailingKeep(c0, t1);
  }

  lemma Row10Chars(u: UnicodeDb)
    requires NfkdFixesAscii(u)
    ensures Slugify(['s'] + (['p'] + (['a'] + (['m'] + ([' '] + (['&'] + ([' '] + (['e'] + (['g'] + (['g'] + (['s'] + [])))))))))), false, u)
         == [AsciiLowerChar('s')] + ([AsciiLowerChar('p')] + ([AsciiLowerChar('a')] + ([AsciiLowerChar('m')] + (['-'] + ([AsciiLowerChar('e')] + ([AsciiLowerChar('g')] + ([AsciiLowerChar('g')] + ([AsciiLowerChar('s')] + []))))))))
  {
    Row10Lower('s', 'p', 'a', 'm', ' ', '&', ' ', 'e', 'g', 'g', 's');
    Row10Keep(AsciiLowerChar('s'), AsciiLowerChar('p'), AsciiLowerChar('a'), AsciiLowerChar('m'), AsciiLowerChar(' '), AsciiLowerChar('&'), AsciiLowerChar(' '), AsciiLowerChar('e'), AsciiLowerChar('g'), AsciiLowerChar('g'), AsciiLowerChar('s'), AsciiClasses);
    Row10Collapse(AsciiLowerChar('s'), AsciiLowerChar('p'), AsciiLowerChar('a'), AsciiLowerChar('m'), AsciiLowerChar(' '), AsciiLowerChar(' '), AsciiLowerChar('e'), AsciiLowerChar('g'), AsciiLowerChar('g'), AsciiLowerChar('s'), AsciiClasses);
    Row10Strip(AsciiLowerChar('s'), AsciiLowerChar('p'), AsciiLowerChar('a'), AsciiLowerChar('m'), '-', AsciiLowerChar('e'), AsciiLowerChar('g'), AsciiLowerChar('g'), AsciiLowerChar('s'));
    AsciiSlugifyOfAscii(['s'] + (['p'] + (['a'] + (['m'] + ([' '] + (['&'] + ([' '] + (['e'] + (['g'] + (['g'] + (['s'] + [])))))))))), u);
  }

  lemma Row10Input()
    ensures "spam & eggs"
         == ['s'] + (['p'] + (['a'] + (['m'] + ([' '] + (['&'] + ([' '] + (['e'] + (['g'] + (['g'] + (['s'] + []))))))))))
  {
    var s, t := "spam & eggs", ['s'] + (['p'] + (['a'] + (['m'] + ([' '] + (['&'] + ([' '] + (['e'] + (['g'] + (['g'] + (['s'] + []))))))))));
    assert |s| == |t| == 11;
    forall i | 0 <= i < 4 ensures s[i] == t[i] {
    }
    forall i | 4 <= i < 8 ensures s[i] == t[i] {
    }
    forall i | 8 <= i < 11 ensures s[i] == t[i] {
    }
  }

  lemma Row10Output()
    ensures "spam-eggs"
         == [AsciiLowerChar('s')] + ([AsciiLowerChar('p')] + ([AsciiLowerChar('a')] + ([AsciiLowerChar('m')] + (['-'] + ([AsciiLowerChar('e')] + ([AsciiLowerChar('g')] + ([AsciiLowerChar('g')] + ([AsciiLowerChar('s')] + []))))))))
  {
    var s, t := "spam-eggs", [AsciiLowerChar('s')] + ([AsciiLowerChar('p')] + ([AsciiLowerChar('a')] + ([AsciiLowerChar('m')] + (['-'] + ([AsciiLowerChar('e')] + ([AsciiLowerChar('g')] + ([AsciiLowerChar('g')] + ([AsciiLowerChar('s')] + []))))))));
    assert |s| == |t| == 9;
    forall i | 0 <= i < 4 ensures s[i] == t[i] {
    }
    forall i | 4 <= i < 8 ensures s[i] == t[i] {
    }
    forall i | 8 <= i < 9 ensures s[i] == t[i] {
    }
  }

  lemma SlugTestRow10(u: UnicodeDb)
    requires NfkdFixesAscii(u)
    ensures Slugify("spam & eggs", false, u) == "spam-eggs"
  {
    Row10Input();
    Row10Chars(u);
    Row10Output();
  }

  // tests/test_utils.py:11: " multiple---dash and  space " becomes "multiple-dash-and-space".

  lemma Row11Lower(c0: char, c1: char, c2: char, c3: char, c4: char, c5: char, c6: char, c7: char, c8: char, c9: char, c10: char, c11: char, c12: char, c13: char, c14: char, c15: char, c16: char, c17: char, c18: char, c19: char, c20: char, c21: char, c22: char, c23: char, c24: char, c25: char, c26: char, c27: char)
    requires IsAsciiChar(c0) && IsAsciiChar(c1) && IsAsciiChar(c2) && IsAsciiChar(c3)
      && IsAsciiChar(c4) && IsAsciiChar(c5) && IsAsciiChar(c6) && IsAsciiChar(c7)
      && IsAsciiChar(c8) && IsAsciiChar(c9) && IsAsciiChar(c10) && IsAsciiChar(c11)
      && IsAsciiChar(c12) && IsAsciiChar(c13) && IsAsciiChar(c14) && IsAsciiChar(c15)
      && IsAsciiChar(c16) && IsAsciiChar(c17) && IsAsciiChar(c18) && IsAsciiChar(c19)
      && IsAsciiChar(c20) && IsAsciiChar(c21) && IsAsciiChar(c22) && IsAsciiChar(c23)
      && IsAsciiChar(c24) && IsAsciiChar(c25) && IsAsciiChar(c26) && IsAsciiChar(c27)
    ensures IsAscii([c0] + ([c1] + ([c2] + ([c3] + ([c4] + ([c5] + ([c6] + ([c7] + ([c8] + ([c9] + ([c10] + ([c11] + ([c12] + ([c13] + ([c14] + ([c15] + ([c16] + ([c17] + ([c18] + ([c19] + ([c20] + ([c21] + ([c22] + ([c23] + ([c24] + ([c25] + ([c26] + ([c27] + []))))))))))))))))))))))))))))
    ensures AsciiLower([c0] + ([c1] + ([c2] + ([c3] + ([c4] + ([c5] + ([c6] + ([c7] + ([c8] + ([c9] + ([c10] + ([c11] + ([c12] + ([c13] + ([c14] + ([c15] + ([c16] + ([c17] + ([c18] + ([c19] + ([c20] + ([c21] + ([c22] + ([c23] + ([c24] + ([c25] + ([c26] + ([c27] + []))))))))))))))))))))))))))))
         == [AsciiLowerChar(c0)] + ([AsciiLowerChar(c1)] + ([AsciiLowerChar(c2)] + ([AsciiLowerChar(c3)] + ([AsciiLowerChar(c4)] + ([AsciiLowerChar(c5)] + ([AsciiLowerChar(c6)] + ([AsciiLowerChar(c7)] + ([AsciiLowerChar(c8)] + ([AsciiLowerChar(c9)] + ([AsciiLowerChar(c10)] + ([AsciiLowerChar(c11)] + ([AsciiLowerChar(c12)] + ([AsciiLowerChar(c13)] + ([AsciiLowerChar(c14)] + ([AsciiLowerChar(c15)] + ([AsciiLowerChar(c16)] + ([AsciiLowerChar(c17)] + ([AsciiLowerChar(c18)] + ([AsciiLowerChar(c19)] + ([AsciiLowerChar(c20)] + ([AsciiLowerChar(c21)] + ([AsciiLowerChar(c22)] + ([AsciiLowerChar(c23)] + ([AsciiLowerChar(c24)] + ([AsciiLowerChar(c25)] + ([AsciiLowerChar(c26)] + ([AsciiLowerChar(c27)] + [])))))))))))))))))))))))))))
  {
    var t28: string := [];
    var t27 := [c27] + t28;
    var t26 := [c26] + t27;
    var t25 := [c25] + t26;
    var t24 := [c24] + t25;
    var t23 := [c23] + t24;
    var t22 := [c22] + t23;
    var t21 := [c21] + t22;
    var t20 := [c20] + t21;
    var t19 := [c19] + t20;
    var t18 := [c18] + t19;
    var t17 := [c17] + t18;
    var t16 := [c16] + t17;
    var t15 := [c15] + t16;
    var t14 := [c14] + t15;
    var t13 := [c13] + t14;
    var t12 := [c12] + t13;
    var t11 := [c11] + t12;
    var t10 := [c10] + t11;
    var t9 := [c9] + t10;
    var t8 := [c8] + t9;
    var t7 := [c7] + t8;
    var t6 := [c6] + t7;
    var t5 := [c5] + t6;
    var t4 := [c4] + t5;
    var t3 := [c3] + t4;
    var t2 := [c2] + t3;
    var t1 := [c1] + t2;
    var t0 := [c0] + t1;
    AsciiCons(c27, t28);
    AsciiCons(c26, t27);
    AsciiCons(c25, t26);
    AsciiCons(c24, t25);
    AsciiCons(c23, t24);
    AsciiCons(c22, t23);
    AsciiCons(c21, t22);
    AsciiCons(c20, t21);
    AsciiCons(c19, t20);
    AsciiCons(c18, t19);
    AsciiCons(c17, t18);
    AsciiCons(c16, t17);
    AsciiCons(c15, t16);
    AsciiCons(c14, t15);
    AsciiCons(c13, t14);
    AsciiCons(c12, t13);
    AsciiCons(c11, t12);
    AsciiCons(c10, t11);
    AsciiCons(c9, t10);
    AsciiCons(c8, t9);
    AsciiCons(c7, t8);
    AsciiCons(c6, t7);
    AsciiCons(c5, t6);
    AsciiCons(c4, t5);
    AsciiCons(c3, t4);
    AsciiCons(c2, t3);
    AsciiCons(c1, t2);
    AsciiCons(c0, t1);
    LowerCons(c0, t1);
    LowerCons(c1, t2);
    LowerCons(c2, t3);
    LowerCons(c3, t4);
    LowerCons(c4, t5);
    LowerCons(c5, t6);
    LowerCons(c6, t7);
    LowerCons(c7, t8);
    LowerCons(c8, t9);
    LowerCons(c9, t10);
    LowerCons(c10, t11);
    LowerCons(c11, t12);
    LowerCons(c12, t13);
    LowerCons(c13, t14);
    LowerCons(c14, t15);
    LowerCons(c15, t16);
    LowerCons(c16, t17);
    LowerCons(c17, t18);
    LowerCons(c18, t19);
    LowerCons(c19, t20);
    LowerCons(c20, t21);
    LowerCons(c21, t22);
    LowerCons(c22, t23);
    LowerCons(c23, t24);
    LowerCons(c24, t25);
    LowerCons(c25, t26);
    LowerCons(c26, t27);
    LowerCons(c27, t28);
  }

  lemma Row11Keep(c0: char, c1: char, c2: char, c3: char, c4: char, c5: char, c6: char, c7: char, c8: char, c9: char, c10: char, c11: char, c12: char, c13: char, c14: char, c15: char, c16: char, c17: char, c18: char, c19: char, c20: char, c21: char, c22: char, c23: char, c24: char, c25: char, c26: char, c27: char, k: CharClasses)
    requires IsSlugSourceChar(c0, k) && IsSlugSourceChar(c1, k) && IsSlugSourceChar(c2, k)
      && IsSlugSourceChar(c3, k) && IsSlugSourceChar(c4, k) && IsSlugSourceChar(c5, k)
      && IsSlugSourceChar(c6, k) && IsSlugSourceChar(c7, k) && IsSlugSourceChar(c8, k)
      && IsSlugSourceChar(c9, k) && IsSlugSourceChar(c10, k)
      && IsSlugSourceChar(c11, k) && IsSlugSourceChar(c12, k)
      && IsSlugSourceChar(c13, k) && IsSlugSourceChar(c14, k)
      && IsSlugSourceChar(c15, k) && IsSlugSourceChar(c16, k)
      && IsSlugSourceChar(c17, k) && IsSlugSourceChar(c18, k)
      && IsSlugSourceChar(c19, k) && IsSlugSourceChar(c20, k)
      && IsSlugSourceChar(c21, k) && IsSlugSourceChar(c22, k)
      && IsSlugSourceChar(c23, k) && IsSlugSourceChar(c24, k)
      && IsSlugSourceChar(c25, k) && IsSlugSourceChar(c26, k)
      && IsSlugSourceChar(c27, k)
    ensures KeepSlugSource([c0] + ([c1] + ([c2] + ([c3] + ([c4] + ([c5] + ([c6] + ([c7] + ([c8] + ([c9] + ([c10] + ([c11] + ([c12] + ([c13] + ([c14] + ([c15] + ([c16] + ([c17] + ([c18] + ([c19] + ([c20] + ([c21] + ([c22] + ([c23] + ([c24] + ([c25] + ([c26] + ([c27] + []))))))))))))))))))))))))))), k)
         == [c0] + ([c1] + ([c2] + ([c3] + ([c4] + ([c5] + ([c6] + ([c7] + ([c8] + ([c9] + ([c10] + ([c11] + ([c12] + ([c13] + ([c14] + ([c15] + ([c16] + ([c17] + ([c18] + ([c19] + ([c20] + ([c21] + ([c22] + ([c23] + ([c24] + ([c25] + ([c26] + ([c27] + [])))))))))))))))))))))))))))
  {
    var t28: string := [];
    var t27 := [c27] + t28;
    var t26 := [c26] + t27;
    var t25 := [c25] + t26;
    var t24 := [c24] + t25;
    var t23 := [c23] + t24;
    var t22 := [c22] + t23;
    var t21 := [c21] + t22;
    var t20 := [c20] + t21;
    var t19 := [c19] + t20;
    var t18 := [c18] + t19;
    var t17 := [c17] + t18;
    var t16 := [c16] + t17;
    var t15 := [c15] + t16;
    var t14 := [c14] + t15;
    var t13 := [c13] + t14;
    var t12 := [c12] + t13;
    var t11 := [c11] + t12;
    var t10 := [c10] + t11;
    var t9 := [c9] + t10;
    var t8 := [c8] + t9;
    var t7 := [c7] + t8;
    var t6 := [c6] + t7;
    var t5 := [c5] + t6;
    var t4 := [c4] + t5;
    var t3 := [c3] + t4;
    var t2 := [c2] + t3;
    var t1 := [c1] + t2;
    var t0 := [c0] + t1;
    KeepKept(c0, t1, k);
    KeepKept(c1, t2, k);
    KeepKept(c2, t3, k);
    KeepKept(c3, t4, k);
    KeepKept(c4, t5, k);
    KeepKept(c5, t6, k);
    KeepKept(c6, t7, k);
    KeepKept(c7, t8, k);
    KeepKept(c8, t9, k);
    KeepKept(c9, t10, k);
    KeepKept(c10, t11, k);
    KeepKept(c11, t12, k);
    KeepKept(c12, t13, k);
    KeepKept(c13, t14, k);
    KeepKept(c14, t15, k);
    KeepKept(c15, t16, k);
    KeepKept(c16, t17, k);
    KeepKept(c17, t18, k);
    KeepKept(c18, t19, k);
    KeepKept(c19, t20, k);
    KeepKept(c20, t21, k);
    KeepKept(c21, t22, k);
    KeepKept(c22, t23, k);
    KeepKept(c23, t24, k);
    KeepKept(c24, t25, k);
    KeepKept(c25, t26, k);
    KeepKept(c26, t27, k);
    KeepKept(c27, t28, k);
  }

  lemma Row11Collapse(c0: char, c1: char, c2: char, c3: char, c4: char, c5: char, c6: char, c7: char, c8: char, c9: char, c10: char, c11: char, c12: char, c13: char, c14: char, c15: char, c16: char, c17: char, c18: char, c19: char, c20: char, c21: char, c22: char, c23: char, c24: char, c25: char, c26: char, c27: char, k: CharClasses)
    requires IsSeparator(c0, k) && !IsSeparator(c1, k) && !IsSeparator(c2, k)
      && !IsSeparator(c3, k) && !IsSeparator(c4, k) && !IsSeparator(c5, k)
      && !IsSeparator(c6, k) && !IsSeparator(c7, k) && !IsSeparator(c8, k)
      && IsSeparator(c9, k) && IsSeparator(c10, k) && IsSeparator(c11, k)
      && !IsSeparator(c12, k) && !IsSeparator(c13, k) && !IsSeparator(c14, k)
      && !IsSeparator(c15, k) && IsSeparator(c16, k) && !IsSeparator(c17, k)
      && !IsSeparator(c18, k) && !IsSeparator(c19, k) && IsSeparator(c20, k)
      && IsSeparator(c21, k) && !IsSeparator(c22, k) && !IsSeparator(c23, k)
      && !IsSeparator(c24, k) && !IsSeparator(c25, k) && !IsSeparator(c26, k)
      && IsSeparator(c27, k)
    ensures CollapseRun([c0] + ([c1] + ([c2] + ([c3] + ([c4] + ([c5] + ([c6] + ([c7] + ([c8] + ([c9] + ([c10] + ([c11] + ([c12] + ([c13] + ([c14] + ([c15] + ([c16] + ([c17] + ([c18] + ([c19] + ([c20] + ([c21] + ([c22] + ([c23] + ([c24] + ([c25] + ([c26] + ([c27] + []))))))))))))))))))))))))))), k, false)
         == ['-'] + ([c1] + ([c2] + ([c3] + ([c4] + ([c5] + ([c6] + ([c7] + ([c8] + (['-'] + ([c12] + ([c13] + ([c14] + ([c15] + (['-'] + ([c17] + ([c18] + ([c19] + (['-'] + ([c22] + ([c23] + ([c24] + ([c25] + ([c26] + (['-'] + []))))))))))))))))))))))))
  {
    var t28: string := [];
    var t27 := [c27] + t28;
    var t26 := [c26] + t27;
    var t25 := [c25] + t26;
    var t24 := [c24] + t25;
    var t23 := [c23] + t24;
    var t22 := [c22] + t23;
    var t21 := [c21] + t22;
    var t20 := [c20] + t21;
    var t19 := [c19] + t20;
    var t18 := [c18] + t19;
    var t17 := [c17] + t18;
    var t16 := [c16] + t17;
    var t15 := [c15] + t16;
    var t14 := [c14] + t15;
    var t13 := [c13] + t14;
    var t12 := [c12] + t13;
    var t11 := [c11] + t12;
    var t10 := [c10] + t11;
    var t9 := [c9] + t10;
    var t8 := [c8] + t9;
    var t7 := [c7] + t8;
    var t6 := [c6] + t7;
    var t5 := [c5] + t6;
    var t4 := [c4] + t5;
    var t3 := [c3] + t4;
    var t2 := [c2] + t3;
    var t1 := [c1] + t2;
    var t0 := [c0] + t1;
    CollapseRunStart(c0, t1, k);
    CollapseWord(c1, t2, k, true);
    CollapseWord(c2, t3, k, false);
    CollapseWord(c3, t4, k, false);
    CollapseWord(c4, t5, k, false);
    CollapseWord(c5, t6, k, false);
    CollapseWord(c6, t7, k, false);
    CollapseWord(c7, t8, k, false);
    CollapseWord(c8, t9, k, false);
    CollapseRunStart(c9, t10, k);
    CollapseRunRest(c10, t11, k);
    CollapseRunRest(c11, t12, k);
    CollapseWord(c12, t13, k, true);
    CollapseWord(c13, t14, k, false);
    CollapseWord(c14, t15, k, false);
    CollapseWord(c15, t16, k, false);
    CollapseRunStart(c16, t17, k);
    CollapseWord(c17, t18, k, true);
    CollapseWord(c18, t19, k, false);
    CollapseWord(c19, t20, k, false);
    CollapseRunStart(c20, t21, k);
    CollapseRunRest(c21, t22, k);
    CollapseWord(c22, t23, k, true);
    CollapseWord(c23, t24, k, false);
    CollapseWord(c24, t25, k, false);
    CollapseWord(c25, t26, k, false);
    CollapseWord(c26, t27, k, false);
    CollapseRunStart(c27, t28, k);
  }

  lemma Row11Strip(c0: char, c1: char, c2: char, c3: char, c4: char, c5: char, c6: char, c7: char, c8: char, c9: char, c10: char, c11: char, c12: char, c13: char, c14: char, c15: char, c16: char, c17: char, c18: char, c19: char, c20: char, c21: char, c22: char, c23: char, c24: char)
    requires IsStripChar(c0) && !IsStripChar(c1) && !IsStripChar(c23) && IsStripChar(c24)
    ensures Strip([c0] + ([c1] + ([c2] + ([c3] + ([c4] + ([c5] + ([c6] + ([c7] + ([c8] + ([c9] + ([c10] + ([c11] + ([c12] + ([c13] + ([c14] + ([c15] + ([c16] + ([c17] + ([c18] + ([c19] + ([c20] + ([c21] + ([c22] + ([c23] + ([c24] + [])))))))))))))))))))))))))
         == [c1] + ([c2] + ([c3] + ([c4] + ([c5] + ([c6] + ([c7] + ([c8] + ([c9] + ([c10] + ([c11] + ([c12] + ([c13] + ([c14] + ([c15] + ([c16] + ([c17] + ([c18] + ([c19] + ([c20] + ([c21] + ([c22] + ([c23] + []))))))))))))))))))))))
  {
    var t25: string := [];
    var t24 := [c24] + t25;
    var t23 := [c23] + t24;
    var t22 := [c22] + t23;
    var t21 := [c21] + t22;
    var t20 := [c20] + t21;
    var t19 := [c19] + t20;
    var t18 := [c18] + t19;
    var t17 := [c17] + t18;
    var t16 := [c16] + t17;
    var t15 := [c15] + t16;
    var t14 := [c14] + t15;
    var t13 := [c13] + t14;
    var t12 := [c12] + t13;
    var t11 := [c11] + t12;
    var t10 := [c10] + t11;
    var t9 := [c9] + t10;
    var t8 := [c8] + t9;
    var t7 := [c7] + t8;
    var t6 := [c6] + t7;
    var t5 := [c5] + t6;
    var t4 := [c4] + t5;
    var t3 := [c3] + t4;
    var t2 := [c2] + t3;
    var t1 := [c1] + t2;
    var t0 := [c0] + t1;
    StripLeadingSkip(c0, t1);
    StripLeadingStop(c1, t2);
    StripTrailingSkip(c24, t25);
    StripTrailingStop(c23, t24);
    StripTrailingKeep(c22, t23);
    StripTrailingKeep(c21, t22);
    StripTrailingKeep(c20, t21);
    StripTrailingKeep(c19, t20);
    StripTrailingKeep(c18, t19);
    StripTrailingKeep(c17, t18);
    StripTrailingKeep(c16, t17);
    StripTrailingKeep(c15, t16);
    StripTrailingKeep(c14, t15);
    StripTrailingKeep(c13, t14);
    StripTrailingKeep(c12, t13);
    StripTrailingKeep(c11, t12);
    StripTrailingKeep(c10, t11);
    StripTrailingKeep(c9, t10);
    StripTrailingKeep(c8, t9);
    StripTrailingKeep(c7, t8);
    StripTrailingKeep(c6, t7);
    StripTrailingKeep(c5, t6);
    StripTrailingKeep(c4, t5);
    StripTrailingKeep(c3, t4);
    StripTrailingKeep(c2, t3);
    StripTrailingKeep(c1, t2);
  }

  lemma Row11Chars(u: UnicodeDb)
    requires NfkdFixesAscii(u)
    ensures Slugify([' '] + (['m'] + (['u'] + (['l'] + (['t'] + (['i'] + (['p'] + (['l'] + (['e'] + (['-'] + (['-'] + (['-'] + (['d'] + (['a'] + (['s'] + (['h'] + ([' '] + (['a'] + (['n'] + (['d'] + ([' '] + ([' '] + (['s'] + (['p'] + (['a'] + (['c'] + (['e'] + ([' '] + []))))))))))))))))))))))))))), false, u)
         == [AsciiLowerChar('m')] + ([AsciiLowerChar('u')] + ([AsciiLowerChar('l')] + ([AsciiLowerChar('t')] + ([AsciiLowerChar('i')] + ([AsciiLowerChar('p')] + ([AsciiLowerChar('l')] + ([AsciiLowerChar('e')] + (['-'] + ([AsciiLowerChar('d')] + ([AsciiLowerChar('a')] + ([AsciiLowerChar('s')] + ([AsciiLowerChar('h')] + (['-'] + ([AsciiLowerChar('a')] + ([AsciiLowerChar('n')] + ([AsciiLowerChar('d')] + (['-'] + ([AsciiLowerChar('s')] + ([AsciiLowerChar('p')] + ([AsciiLowerChar('a')] + ([AsciiLowerChar('c')] + ([AsciiLowerChar('e')] + []))))))))))))))))))))))
  {
    Row11Lower(' ', 'm', 'u', 'l', 't', 'i', 'p', 'l', 'e', '-', '-', '-', 'd', 'a', 's', 'h', ' ', 'a', 'n', 'd', ' ', ' ', 's', 'p', 'a', 'c', 'e', ' ');
    Row11Keep(AsciiLowerChar(' '), AsciiLowerChar('m'), AsciiLowerChar('u'), AsciiLowerChar('l'), AsciiLowerChar('t'), AsciiLowerChar('i'), AsciiLowerChar('p'), AsciiLowerChar('l'), AsciiLowerChar('e'), AsciiLowerChar('-'), AsciiLowerChar('-'), AsciiLowerChar('-'), AsciiLowerChar('d'), AsciiLowerChar('a'), AsciiLowerChar('s'), AsciiLowerChar('h'), AsciiLowerChar(' '), AsciiLowerChar('a'), AsciiLowerChar('n'), AsciiLowerChar('d'), AsciiLowerChar(' '), AsciiLowerChar(' '), AsciiLowerChar('s'), AsciiLowerChar('p'), AsciiLowerChar('a'), AsciiLowerChar('c'), AsciiLowerChar('e'), AsciiLowerChar(' '), AsciiClasses);
    Row11Collapse(AsciiLowerChar(' '), AsciiLowerChar('m'), AsciiLowerChar('u'), AsciiLowerChar('l'), AsciiLowerChar('t'), AsciiLowerChar('i'), AsciiLowerChar('p'), AsciiLowerChar('l'), AsciiLowerChar('e'), AsciiLowerChar('-'), AsciiLowerChar('-'), AsciiLowerChar('-'), AsciiLowerChar('d'), AsciiLowerChar('a'), AsciiLowerChar('s'), AsciiLowerChar('h'), AsciiLowerChar(' '), AsciiLowerChar('a'), AsciiLowerChar('n'), AsciiLowerChar('d'), AsciiLowerChar(' '), AsciiLowerChar(' '), AsciiLowerChar('s'), AsciiLowerChar('p'), AsciiLowerChar('a'), AsciiLowerChar('c'), AsciiLowerChar('e'), AsciiLowerChar(' '), AsciiClasses);
    Row11Strip('-', AsciiLowerChar('m'), AsciiLowerChar('u'), AsciiLowerChar('l'), AsciiLowerChar('t'), AsciiLowerChar('i'), AsciiLowerChar('p'), AsciiLowerChar('l'), AsciiLowerChar('e'), '-', AsciiLowerChar('d'), AsciiLowerChar('a'), AsciiLowerChar('s'), AsciiLowerChar('h'), '-', AsciiLowerChar('a'), AsciiLowerChar('n'), AsciiLowerChar('d'), '-', AsciiLowerChar('s'), AsciiLowerChar('p'), AsciiLowerChar('a'), AsciiLowerChar('c'), AsciiLowerChar('e'), '-');
    AsciiSlugifyOfAscii([' '] + (['m'] + (['u'] + (['l'] + (['t'] + (['i'] + (['p'] + (['l'] + (['e'] + (['-'] + (['-'] + (['-'] + (['d'] + (['a'] + (['s'] + (['h'] + ([' '] + (['a'] + (['n'] + (['d'] + ([' '] + ([' '] + (['s'] + (['p'] + (['a'] + (['c'] + (['e'] + ([' '] + []))))))))))))))))))))))))))), u);
  }

  lemma Row11Input()
    ensures " multiple---dash and  space "
         == [' '] + (['m'] + (['u'] + (['l'] + (['t'] + (['i'] + (['p'] + (['l'] + (['e'] + (['-'] + (['-'] + (['-'] + (['d'] + (['a'] + (['s'] + (['h'] + ([' '] + (['a'] + (['n'] + (['d'] + ([' '] + ([' '] + (['s'] + (['p'] + (['a'] + (['c'] + (['e'] + ([' '] + [])))))))))))))))))))))))))))
  {
    var s, t := " multiple---dash and  space ", [' '] + (['m'] + (['u'] + (['l'] + (['t'] + (['i'] + (['p'] + (['l'] + (['e'] + (['-'] + (['-'] + (['-'] + (['d'] + (['a'] + (['s'] + (['h'] + ([' '] + (['a'] + (['n'] + (['d'] + ([' '] + ([' '] + (['s'] + (['p'] + (['a'] + (['c'] + (['e'] + ([' '] + [])))))))))))))))))))))))))));
    assert |s| == |t| == 28;
    forall i | 0 <= i < 4 ensures s[i] == t[i] {
    }
    forall i | 4 <= i < 8 ensures s[i] == t[i] {
    }
    forall i | 8 <= i < 12 ensures s[i] == t[i] {
    }
    forall i | 12 <= i < 16 ensures s[i] == t[i] {
    }
    forall i | 16 <= i < 20 ensures s[i] == t[i] {
    }
    forall i | 20 <= i < 24 ensures s[i] == t[i] {
    }
    forall i | 24 <= i < 28 ensures s[i] == t[i] {
    }
  }

  lemma Row11Output()
    ensures "multiple-dash-and-space"
         == [AsciiLowerChar('m')] + ([AsciiLowerChar('u')] + ([AsciiLowerChar('l')] + ([AsciiLowerChar('t')] + ([AsciiLowerChar('i')] + ([AsciiLowerChar('p')] + ([AsciiLowerChar('l')] + ([AsciiLowerChar('e')] + (['-'] + ([AsciiLowerChar('d')] + ([AsciiLowerChar('a')] + ([AsciiLowerChar('s')] + ([AsciiLowerChar('h')] + (['-'] + ([AsciiLowerChar('a')] + ([AsciiLowerChar('n')] + ([AsciiLowerChar('d')] + (['-'] + ([AsciiLowerChar('s')] + ([AsciiLowerChar('p')] + ([AsciiLowerChar('a')] + ([AsciiLowerChar('c')] + ([AsciiLowerChar('e')] + []))))))))))))))))))))))
  {
    var s, t := "multiple-dash-and-space", [AsciiLowerChar('m')] + ([AsciiLowerChar('u')] + ([AsciiLowerChar('l')] + ([AsciiLowerChar('t')] + ([AsciiLowerChar('i')] + ([AsciiLowerChar('p')] + ([AsciiLowerChar('l')] + ([AsciiLowerChar('e')] + (['-'] + ([AsciiLowerChar('d')] + ([AsciiLowerChar('a')] + ([AsciiLowerChar('s')] + ([AsciiLowerChar('h')] + (['-'] + ([AsciiLowerChar('a')] + ([AsciiLowerChar('n')] + ([AsciiLowerChar('d')] + (['-'] + ([AsciiLowerChar('s')] + ([AsciiLowerChar('p')] + ([AsciiLowerChar('a')] + ([AsciiLowerChar('c')] + ([AsciiLowerChar('e')] + []))))))))))))))))))))));
    assert |s| == |t| == 23;
    forall i | 0 <= i < 4 ensures s[i] == t[i] {
    }
    forall i | 4 <= i < 8 ensures s[i] == t[i] {
    }
    forall i | 8 <= i < 12 ensures s[i] == t[i] {
    }
    forall i | 12 <= i < 16 ensures s[i] == t[i] {
    }
    forall i | 16 <= i < 20 ensures s[i] == t[i] {
    }
    forall i | 20 <= i < 23 ensures s[i] == t[i] {
    }
  }

  lemma SlugTestRow11(u: UnicodeDb)
    requires NfkdFixesAscii(u)
    ensures Slugify(" multiple---dash and  space ", false, u) == "multiple-dash-and-space"
  {
    Row11Input();
    Row11Chars(u);
    Row11Output();
  }

  // tests/test_utils.py:12: "\t whitespace-in-value \n" becomes "whitespace-in-value".

  lemma Row12Lower(c0: char, c1: char, c2: char, c3: char, c4: char, c5: char, c6: char, c7: char, c8: char, c9: char, c10: char, c11: char, c12: char, c13: char, c14: char, c15: char, c16: char, c17: char, c18: char, c19: char, c20: char, c21: char, c22: char)
    requires IsAsciiChar(c0) && IsAsciiChar(c1) && IsAsciiChar(c2) && IsAsciiChar(c3)
      && IsAsciiChar(c4) && IsAsciiChar(c5) && IsAsciiChar(c6) && IsAsciiChar(c7)
      && IsAsciiChar(c8) && IsAsciiChar(c9) && IsAsciiChar(c10) && IsAsciiChar(c11)
      && IsAsciiChar(c12) && IsAsciiChar(c13) && IsAsciiChar(c14) && IsAsciiChar(c15)
      && IsAsciiChar(c16) && IsAsciiChar(c17) && IsAsciiChar(c18) && IsAsciiChar(c19)
      && IsAsciiChar(c20) && IsAsciiChar(c21) && IsAsciiChar(c22)
    ensures IsAscii([c0] + ([c1] + ([c2] + ([c3] + ([c4] + ([c5] + ([c6] + ([c7] + ([c8] + ([c9] + ([c10] + ([c11] + ([c12] + ([c13] + ([c14] + ([c15] + ([c16] + ([c17] + ([c18] + ([c19] + ([c20] + ([c21] + ([c22] + [])))))))))))))))))))))))
    ensures AsciiLower([c0] + ([c1] + ([c2] + ([c3] + ([c4] + ([c5] + ([c6] + ([c7] + ([c8] + ([c9] + ([c10] + ([c11] + ([c12] + ([c13] + ([c14] + ([c15] + ([c16] + ([c17] + ([c18] + ([c19] + ([c20] + ([c21] + ([c22] + [])))))))))))))))))))))))
         == [AsciiLowerChar(c0)] + ([AsciiLowerChar(c1)] + ([AsciiLowerChar(c2)] + ([AsciiLowerChar(c3)] + ([AsciiLowerChar(c4)] + ([AsciiLowerChar(c5)] + ([AsciiLowerChar(c6)] + ([AsciiLowerChar(c7)] + ([AsciiLowerChar(c8)] + ([AsciiLowerChar(c9)] + ([AsciiLowerChar(c10)] + ([AsciiLowerChar(c11)] + ([AsciiLowerChar(c12)] + ([AsciiLowerChar(c13)] + ([AsciiLowerChar(c14)] + ([AsciiLowerChar(c15)] + ([AsciiLowerChar(c16)] + ([AsciiLowerChar(c17)] + ([AsciiLowerChar(c18)] + ([AsciiLowerChar(c19)] + ([AsciiLowerChar(c20)] + ([AsciiLowerChar(c21)] + ([AsciiLowerChar(c22)] + []))))))))))))))))))))))
  {
    var t23: string := [];
    var t22 := [c22] + t23;
    var t21 := [c21] + t22;
    var t20 := [c20] + t21;
    var t19 := [c19] + t20;
    var t18 := [c18] + t19;
    var t17 := [c17] + t18;
    var t16 := [c16] + t17;
    var t15 := [c15] + t16;
    var t14 := [c14] + t15;
    var t13 := [c13] + t14;
    var t12 := [c12] + t13;
    var t11 := [c11] + t12;
    var t10 := [c10] + t11;
    var t9 := [c9] + t10;
    var t8 := [c8] + t9;
    var t7 := [c7] + t8;
    var t6 := [c6] + t7;
    var t5 := [c5] + t6;
    var t4 := [c4] + t5;
    var t3 := [c3] + t4;
    var t2 := [c2] + t3;
    var t1 := [c1] + t2;
    var t0 := [c0] + t1;
    AsciiCons(c22, t23);
    AsciiCons(c21, t22);
    AsciiCons(c20, t21);
    AsciiCons(c19, t20);
    AsciiCons(c18, t19);
    AsciiCons(c17, t18);
    AsciiCons(c16, t17);
    AsciiCons(c15, t16);
    AsciiCons(c14, t15);
    AsciiCons(c13, t14);
    AsciiCons(c12, t13);
    AsciiCons(c11, t12);
    AsciiCons(c10, t11);
    AsciiCons(c9, t10);
    AsciiCons(c8, t9);
    AsciiCons(c7, t8);
    AsciiCons(c6, t7);
    AsciiCons(c5, t6);
    AsciiCons(c4, t5);
    AsciiCons(c3, t4);
    AsciiCons(c2, t3);
    AsciiCons(c1, t2);
    AsciiCons(c0, t1);
    LowerCons(c0, t1);
    LowerCons(c1, t2);
    LowerCons(c2, t3);
    LowerCons(c3, t4);
    LowerCons(c4, t5);
    LowerCons(c5, t6);
    LowerCons(c6, t7);
    LowerCons(c7, t8);
    LowerCons(c8, t9);
    LowerCons(c9, t10);
    LowerCons(c10, t11);
    LowerCons(c11, t12);
    LowerCons(c12, t13);
    LowerCons(c13, t14);
    LowerCons(c14, t15);
    LowerCons(c15, t16);
    LowerCons(c16, t17);
    LowerCons(c17, t18);
    LowerCons(c18, t19);
    LowerCons(c19, t20);
    LowerCons(c20, t21);
    LowerCons(c21, t22);
    LowerCons(c22, t23);
  }

  lemma Row12Keep(c0: char, c1: char, c2: char, c3: char, c4: char, c5: char, c6: char, c7: char, c8: char, c9: char, c10: char, c11: char, c12: char, c13: char, c14: char, c15: char, c16: char, c17: char, c18: char, c19: char, c20: char, c21: char, c22: char, k: CharClasses)
    requires IsSlugSourceChar(c0, k) && IsSlugSourceChar(c1, k) && IsSlugSourceChar(c2, k)
      && IsSlugSourceChar(c3, k) && IsSlugSourceChar(c4, k) && IsSlugSourceChar(c5, k)
      && IsSlugSourceChar(c6, k) && IsSlugSourceChar(c7, k) && IsSlugSourceChar(c8, k)
      && IsSlugSourceChar(c9, k) && IsSlugSourceChar(c10, k)
      && IsSlugSourceChar(c11, k) && IsSlugSourceChar(c12, k)
      && IsSlugSourceChar(c13, k) && IsSlugSourceChar(c14, k)
      && IsSlugSourceChar(c15, k) && IsSlugSourceChar(c16, k)
      && IsSlugSourceChar(c17, k) && IsSlugSourceChar(c18, k)
      && IsSlugSourceChar(c19, k) && IsSlugSourceChar(c20, k)
      && IsSlugSourceChar(c21, k) && IsSlugSourceChar(c22, k)
    ensures KeepSlugSource([c0] + ([c1] + ([c2] + ([c3] + ([c4] + ([c5] + ([c6] + ([c7] + ([c8] + ([c9] + ([c10] + ([c11] + ([c12] + ([c13] + ([c14] + ([c15] + ([c16] + ([c17] + ([c18] + ([c19] + ([c20] + ([c21] + ([c22] + [])))))))))))))))))))))), k)
         == [c0] + ([c1] + ([c2] + ([c3] + ([c4] + ([c5] + ([c6] + ([c7] + ([c8] + ([c9] + ([c10] + ([c11] + ([c12] + ([c13] + ([c14] + ([c15] + ([c16] + ([c17] + ([c18] + ([c19] + ([c20] + ([c21] + ([c22] + []))))))))))))))))))))))
  {
    var t23: string := [];
    var t22 := [c22] + t23;
    var t21 := [c21] + t22;
    var t20 := [c20] + t21;
    var t19 := [c19] + t20;
    var t18 := [c18] + t19;
    var t17 := [c17] + t18;
    var t16 := [c16] + t17;
    var t15 := [c15] + t16;
    var t14 := [c14] + t15;
    var t13 := [c13] + t14;
    var t12 := [c12] + t13;
    var t11 := [c11] + t12;
    var t10 := [c10] + t11;
    var t9 := [c9] + t10;
    var t8 := [c8] + t9;
    var t7 := [c7] + t8;
    var t6 := [c6] + t7;
    var t5 := [c5] + t6;
    var t4 := [c4] + t5;
    var t3 := [c3] + t4;
    var t2 := [c2] + t3;
    var t1 := [c1] + t2;
    var t0 := [c0] + t1;
    KeepKept(c0, t1, k);
    KeepKept(c1, t2, k);
    KeepKept(c2, t3, k);
    KeepKept(c3, t4, k);
    KeepKept(c4, t5, k);
    KeepKept(c5, t6, k);
    KeepKept(c6, t7, k);
    KeepKept(c7, t8, k);
    KeepKept(c8, t9, k);
    KeepKept(c9, t10, k);
    KeepKept(c10, t11, k);
    KeepKept(c11, t12, k);
    KeepKept(c12, t13, k);
    KeepKept(c13, t14, k);
    KeepKept(c14, t15, k);
    KeepKept(c15, t16, k);
    KeepKept(c16, t17, k);
    KeepKept(c17, t18, k);
    KeepKept(c18, t19, k);
    KeepKept(c19, t20, k);
    KeepKept(c20, t21, k);
    KeepKept(c21, t22, k);
    KeepKept(c22, t23, k);
  }

  lemma Row12Collapse(c0: char, c1: char, c2: char, c3: char, c4: char, c5: char, c6: char, c7: char, c8: char, c9: char, c10: char, c11: char, c12: char, c13: char, c14: char, c15: char, c16: char, c17: char, c18: char, c19: char, c20: char, c21: char, c22: char, k: CharClasses)
    requires IsSeparator(c0, k) && IsSeparator(c1, k) && !IsSeparator(c2, k)
      && !IsSeparator(c3, k) && !IsSeparator(c4, k) && !IsSeparator(c5, k)
      && !IsSeparator(c6, k) && !IsSeparator(c7, k) && !IsSeparator(c8, k)
      && !IsSeparator(c9, k) && !IsSeparator(c10, k) && !IsSeparator(c11, k)
      && IsSeparator(c12, k) && !IsSeparator(c13, k) && !IsSeparator(c14, k)
      && IsSeparator(c15, k) && !IsSeparator(c16, k) && !IsSeparator(c17, k)
      && !IsSeparator(c18, k) && !IsSeparator(c19, k) && !IsSeparator(c20, k)
      && IsSeparator(c21, k) && IsSeparator(c22, k)
    ensures CollapseRun([c0] + ([c1] + ([c2] + ([c3] + ([c4] + ([c5] + ([c6] + ([c7] + ([c8] + ([c9] + ([c10] + ([c11] + ([c12] + ([c13] + ([c14] + ([c15] + ([c16] + ([c17] + ([c18] + ([c19] + ([c20] + ([c21] + ([c22] + [])))))))))))))))))))))), k, false)
         == ['-'] + ([c2] + ([c3] + ([c4] + ([c5] + ([c6] + ([c7] + ([c8] + ([c9] + ([c10] + ([c11] + (['-'] + ([c13] + ([c14] + (['-'] + ([c16] + ([c17] + ([c18] + ([c19] + ([c20] + (['-'] + []))))))))))))))))))))
  {
    var t23: string := [];
    var t22 := [c22] + t23;
    var t21 := [c21] + t22;
    var t20 := [c20] + t21;
    var t19 := [c19] + t20;
    var t18 := [c18] + t19;
    var t17 := [c17] + t18;
    var t16 := [c16] + t17;
    var t15 := [c15] + t16;
    var t14 := [c14] + t15;
    var t13 := [c13] + t14;
    var t12 := [c12] + t13;
    var t11 := [c11] + t12;
    var t10 := [c10] + t11;
    var t9 := [c9] + t10;
    var t8 := [c8] + t9;
    var t7 := [c7] + t8;
    var t6 := [c6] + t7;
    var t5 := [c5] + t6;
    var t4 := [c4] + t5;
    var t3 := [c3] + t4;
    var t2 := [c2] + t3;
    var t1 := [c1] + t2;
    var t0 := [c0] + t1;
    CollapseRunStart(c0, t1, k);
    CollapseRunRest(c1, t2, k);
    CollapseWord(c2, t3, k, true);
    CollapseWord(c3, t4, k, false);
    CollapseWord(c4, t5, k, false);
    CollapseWord(c5, t6, k, false);
    CollapseWord(c6, t7, k, false);
    CollapseWord(c7, t8, k, false);
    CollapseWord(c8, t9, k, false);
    CollapseWord(c9, t10, k, false);
    CollapseWord(c10, t11, k, false);
    CollapseWord(c11, t12, k, false);
    CollapseRunStart(c12, t13, k);
    CollapseWord(c13, t14, k, true);
    CollapseWord(c14, t15, k, false);
    CollapseRunStart(c15, t16, k);
    CollapseWord(c16, t17, k, true);
    CollapseWord(c17, t18, k, false);
    CollapseWord(c18, t19, k, false);
    CollapseWord(c19, t20, k, false);
    CollapseWord(c20, t21, k, false);
    CollapseRunStart(c21, t22, k);
    CollapseRunRest(c22, t23, k);
  }

  lemma Row12Strip(c0: char, c1: char, c2: char, c3: char, c4: char, c5: char, c6: char, c7: char, c8: char, c9: char, c10: char, c11: char, c12: char, c13: char, c14: char, c15: char, c16: char, c17: char, c18: char, c19: char, c20: char)
    requires IsStripChar(c0) && !IsStripChar(c1) && !IsStripChar(c19) && IsStripChar(c20)
    ensures Strip([c0] + ([c1] + ([c2] + ([c3] + ([c4] + ([c5] + ([c6] + ([c7] + ([c8] + ([c9] + ([c10] + ([c11] + ([c12] + ([c13] + ([c14] + ([c15] + ([c16] + ([c17] + ([c18] + ([c19] + ([c20] + [])))))))))))))))))))))
         == [c1] + ([c2] + ([c3] + ([c4] + ([c5] + ([c6] + ([c7] + ([c8] + ([c9] + ([c10] + ([c11] + ([c12] + ([c13] + ([c14] + ([c15] + ([c16] + ([c17] + ([c18] + ([c19] + []))))))))))))))))))
  {
    var t21: string := [];
    var t20 := [c20] + t21;
    var t19 := [c19] + t20;
    var t18 := [c18] + t19;
    var t17 := [c17] + t18;
    var t16 := [c16] + t17;
    var t15 := [c15] + t16;
    var t14 := [c14] + t15;
    var t13 := [c13] + t14;
    var t12 := [c12] + t13;
    var t11 := [c11] + t12;
    var t10 := [c10] + t11;
    var t9 := [c9] + t10;
    var t8 := [c8] + t9;
    var t7 := [c7] + t8;
    var t6 := [c6] + t7;
    var t5 := [c5] + t6;
    var t4 := [c4] + t5;
    var t3 := [c3] + t4;
    var t2 := [c2] + t3;
    var t1 := [c1] + t2;
    var t0 := [c0] + t1;
    StripLeadingSkip(c0, t1);
    StripLeadingStop(c1, t2);
    StripTrailingSkip(c20, t21);
    StripTrailingStop(c19, t20);
    StripTrailingKeep(c18, t19);
    StripTrailingKeep(c17, t18);
    StripTrailingKeep(c16, t17);
    StripTrailingKeep(c15, t16);
    StripTrailingKeep(c14, t15);
    StripTrailingKeep(c13, t14);
    StripTrailingKeep(c12, t13);
    StripTrailingKeep(c11, t12);
    StripTrailingKeep(c10, t11);
    StripTrailingKeep(c9, t10);
    StripTrailingKeep(c8, t9);
    StripTrailingKeep(c7, t8);
    StripTrailingKeep(c6, t7);
    StripTrailingKeep(c5, t6);
    StripTrailingKeep(c4, t5);
    StripTrailingKeep(c3, t4);
    StripTrailingKeep(c2, t3);
    StripTrailingKeep(c1, t2);
  }

  lemma Row12Chars(u: UnicodeDb)
    requires NfkdFixesAscii(u)
    ensures Slugify(['\t'] + ([' '] + (['w'] + (['h'] + (['i'] + (['t'] + (['e'] + (['s'] + (['p'] + (['a'] + (['c'] + (['e'] + (['-'] + (['i'] + (['n'] + (['-'] + (['v'] + (['a'] + (['l'] + (['u'] + (['e'] + ([' '] + (['\n'] + [])))))))))))))))))))))), false, u)
         == [AsciiLowerChar('w')] + ([AsciiLowerChar('h')] + ([AsciiLowerChar('i')] + ([AsciiLowerChar('t')] + ([AsciiLowerChar('e')] + ([AsciiLowerChar('s')] + ([AsciiLowerChar('p')] + ([AsciiLowerChar('a')] + ([AsciiLowerChar('c')] + ([AsciiLowerChar('e')] + (['-'] + ([AsciiLowerChar('i')] + ([AsciiLowerChar('n')] + (['-'] + ([AsciiLowerChar('v')] + ([AsciiLowerChar('a')] + ([AsciiLowerChar('l')] + ([AsciiLowerChar('u')] + ([AsciiLowerChar('e')] + []))))))))))))))))))
  {
    Row12Lower('\t', ' ', 'w', 'h', 'i', 't', 'e', 's', 'p', 'a', 'c', 'e', '-', 'i', 'n', '-', 'v', 'a', 'l', 'u', 'e', ' ', '\n');
    Row12Keep(AsciiLowerChar('\t'), AsciiLowerChar(' '), AsciiLowerChar('w'), AsciiLowerChar('h'), AsciiLowerChar('i'), AsciiLowerChar('t'), AsciiLowerChar('e'), AsciiLowerChar('s'), AsciiLowerChar('p'), AsciiLowerChar('a'), AsciiLowerChar('c'), AsciiLowerChar('e'), AsciiLowerChar('-'), AsciiLowerChar('i'), AsciiLowerChar('n'), AsciiLowerChar('-'), AsciiLowerChar('v'), AsciiLowerChar('a'), AsciiLowerChar('l'), AsciiLowerChar('u'), AsciiLowerChar('e'), AsciiLowerChar(' '), AsciiLowerChar('\n'), AsciiClasses);
    Row12Collapse(AsciiLowerChar('\t'), AsciiLowerChar(' '), AsciiLowerChar('w'), AsciiLowerChar('h'), AsciiLowerChar('i'), AsciiLowerChar('t'), AsciiLowerChar('e'), AsciiLowerChar('s'), AsciiLowerChar('p'), AsciiLowerChar('a'), AsciiLowerChar('c'), AsciiLowerChar('e'), AsciiLowerChar('-'), AsciiLowerChar('i'), AsciiLowerChar('n'), AsciiLowerChar('-'), AsciiLowerChar('v'), AsciiLowerChar('a'), AsciiLowerChar('l'), AsciiLowerChar('u'), AsciiLowerChar('e'), AsciiLowerChar(' '), AsciiLowerChar('\n'), AsciiClasses);
    Row12Strip('-', AsciiLowerChar('w'), AsciiLowerChar('h'), AsciiLowerChar('i'), AsciiLowerChar('t'), AsciiLowerChar('e'), AsciiLowerChar('s'), AsciiLowerChar('p'), AsciiLowerChar('a'), AsciiLowerChar('c'), AsciiLowerChar('e'), '-', AsciiLowerChar('i'), AsciiLowerChar('n'), '-', AsciiLowerChar('v'), AsciiLowerChar('a'), AsciiLowerChar('l'), AsciiLowerChar('u'), AsciiLowerChar('e'), '-');
    AsciiSlugifyOfAscii(['\t'] + ([' '] + (['w'] + (['h'] + (['i'] + (['t'] + (['e'] + (['s'] + (['p'] + (['a'] + (['c'] + (['e'] + (['-'] + (['i'] + (['n'] + (['-'] + (['v'] + (['a'] + (['l'] + (['u'] + (['e'] + ([' '] + (['\n'] + [])))))))))))))))))))))), u);
  }

  lemma Row12Input()
    ensures "\t whitespace-in-value \n"
         == ['\t'] + ([' '] + (['w'] + (['h'] + (['i'] + (['t'] + (['e'] + (['s'] + (['p'] + (['a'] + (['c'] + (['e'] + (['-'] + (['i'] + (['n'] + (['-'] + (['v'] + (['a'] + (['l'] + (['u'] + (['e'] + ([' '] + (['\n'] + []))))))))))))))))))))))
  {
    var s, t := "\t whitespace-in-value \n", ['\t'] + ([' '] + (['w'] + (['h'] + (['i'] + (['t'] + (['e'] + (['s'] + (['p'] + (['a'] + (['c'] + (['e'] + (['-'] + (['i'] + (['n'] + (['-'] + (['v'] + (['a'] + (['l'] + (['u'] + (['e'] + ([' '] + (['\n'] + []))))))))))))))))))))));
    assert |s| == |t| == 23;
    forall i | 0 <= i < 4 ensures s[i] == t[i] {
    }
    forall i | 4 <= i < 8 ensures s[i] == t[i] {
    }
    forall i | 8 <= i < 12 ensures s[i] == t[i] {
    }
    forall i | 12 <= i < 16 ensures s[i] == t[i] {
    }
    forall i | 16 <= i < 20 ensures s[i] == t[i] {
    }
    forall i | 20 <= i < 23 ensures s[i] == t[i] {
    }
  }

  lemma Row12Output()
    ensures "whitespace-in-value"
         == [AsciiLowerChar('w')] + ([AsciiLowerChar('h')] + ([AsciiLowerChar('i')] + ([AsciiLowerChar('t')] + ([AsciiLowerChar('e')] + ([AsciiLowerChar('s')] + ([AsciiLowerChar('p')] + ([AsciiLowerChar('a')] + ([AsciiLowerChar('c')] + ([AsciiLowerChar('e')] + (['-'] + ([AsciiLowerChar('i')] + ([AsciiLowerChar('n')] + (['-'] + ([AsciiLowerChar('v')] + ([AsciiLowerChar('a')] + ([AsciiLowerChar('l')] + ([AsciiLowerChar('u')] + ([AsciiLowerChar('e')] + []))))))))))))))))))
  {
    var s, t := "whitespace-in-value", [AsciiLowerChar('w')] + ([AsciiLowerChar('h')] + ([AsciiLowerChar('i')] + ([AsciiLowerChar('t')] + ([AsciiLowerChar('e')] + ([AsciiLowerChar('s')] + ([AsciiLowerChar('p')] + ([AsciiLowerChar('a')] + ([AsciiLowerChar('c')] + ([AsciiLowerChar('e')] + (['-'] + ([AsciiLowerChar('i')] + ([AsciiLowerChar('n')] + (['-'] + ([AsciiLowerChar('v')] + ([AsciiLowerChar('a')] + ([AsciiLowerChar('l')] + ([AsciiLowerChar('u')] + ([AsciiLowerChar('e')] + []))))))))))))))))));
    assert |s| == |t| == 19;
    forall i | 0 <= i < 4 ensures s[i] == t[i] {
    }
    forall i | 4 <= i < 8 ensures s[i] == t[i] {
    }
    forall i | 8 <= i < 12 ensures s[i] == t[i] {
    }
    forall i | 12 <= i < 16 ensures s[i] == t[i] {
    }
    forall i | 16 <= i < 19 ensures s[i] == t[i] {
    }
  }

  lemma SlugTestRow12(u: UnicodeDb)
    requires NfkdFixesAscii(u)
    ensures Slugify("\t whitespace-in-value \n", false, u) == "whitespace-in-value"
  {
    Row12Input();
    Row12Chars(u);
    Row12Output();
  }

  // tests/test_utils.py:13: "underscore_in-value" becomes "underscore_in-value".

  lemma Row13Lower(c0: char, c1: char, c2: char, c3: char, c4: char, c5: char, c6: char, c7: char, c8: char, c9: char, c10: char, c11: char, c12: char, c13: char, c14: char, c15: char, c16: char, c17: char, c18: char)
    requires IsAsciiChar(c0) && IsAsciiChar(c1) && IsAsciiChar(c2) && IsAsciiChar(c3)
      && IsAsciiChar(c4) && IsAsciiChar(c5) && IsAsciiChar(c6) && IsAsciiChar(c7)
      && IsAsciiChar(c8) && IsAsciiChar(c9) && IsAsciiChar(c10) && IsAsciiChar(c11)
      && IsAsciiChar(c12) && IsAsciiChar(c13) && IsAsciiChar(c14) && IsAsciiChar(c15)
      && IsAsciiChar(c16) && IsAsciiChar(c17) && IsAsciiChar(c18)
    ensures IsAscii([c0] + ([c1] + ([c2] + ([c3] + ([c4] + ([c5] + ([c6] + ([c7] + ([c8] + ([c9] + ([c10] + ([c11] + ([c12] + ([c13] + ([c14] + ([c15] + ([c16] + ([c17] + ([c18] + [])))))))))))))))))))
    ensures AsciiLower([c0] + ([c1] + ([c2] + ([c3] + ([c4] + ([c5] + ([c6] + ([c7] + ([c8] + ([c9] + ([c10] + ([c11] + ([c12] + ([c13] + ([c14] + ([c15] + ([c16] + ([c17] + ([c18] + [])))))))))))))))))))
         == [AsciiLowerChar(c0)] + ([AsciiLowerChar(c1)] + ([AsciiLowerChar(c2)] + ([AsciiLowerChar(c3)] + ([AsciiLowerChar(c4)] + ([AsciiLowerChar(c5)] + ([AsciiLowerChar(c6)] + ([AsciiLowerChar(c7)] + ([AsciiLowerChar(c8)] + ([AsciiLowerChar(c9)] + ([AsciiLowerChar(c10)] + ([AsciiLowerChar(c11)] + ([AsciiLowerChar(c12)] + ([AsciiLowerChar(c13)] + ([AsciiLowerChar(c14)] + ([AsciiLowerChar(c15)] + ([AsciiLowerChar(c16)] + ([AsciiLowerChar(c17)] + ([AsciiLowerChar(c18)] + []))))))))))))))))))
  {
    var t19: string := [];
    var t18 := [c18] + t19;
    var t17 := [c17] + t18;
    var t16 := [c16] + t17;
    var t15 := [c15] + t16;
    var t14 := [c14] + t15;
    var t13 := [c13] + t14;
    var t12 := [c12] + t13;
    var t11 := [c11] + t12;
    var t10 := [c10] + t11;
    var t9 := [c9] + t10;
    var t8 := [c8] + t9;
    var t7 := [c7] + t8;
    var t6 := [c6] + t7;
    var t5 := [c5] + t6;
    var t4 := [c4] + t5;
    var t3 := [c3] + t4;
    var t2 := [c2] + t3;
    var t1 := [c1] + t2;
    var t0 := [c0] + t1;
    AsciiCons(c18, t19);
    AsciiCons(c17, t18);
    AsciiCons(c16, t17);
    AsciiCons(c15, t16);
    AsciiCons(c14, t15);
    AsciiCons(c13, t14);
    AsciiCons(c12, t13);
    AsciiCons(c11, t12);
    AsciiCons(c10, t11);
    AsciiCons(c9, t10);
    AsciiCons(c8, t9);
    AsciiCons(c7, t8);
    AsciiCons(c6, t7);
    AsciiCons(c5, t6);
    AsciiCons(c4, t5);
    AsciiCons(c3, t4);
    AsciiCons(c2, t3);
    AsciiCons(c1, t2);
    AsciiCons(c0, t1);
    LowerCons(c0, t1);
    LowerCons(c1, t2);
    LowerCons(c2, t3);
    LowerCons(c3, t4);
    LowerCons(c4, t5);
    LowerCons(c5, t6);
    LowerCons(c6, t7);
    LowerCons(c7, t8);
    LowerCons(c8, t9);
    LowerCons(c9, t10);
    LowerCons(c10, t11);
    LowerCons(c11, t12);
    LowerCons(c12, t13);
    LowerCons(c13, t14);
    LowerCons(c14, t15);
    LowerCons(c15, t16);
    LowerCons(c16, t17);
    LowerCons(c17, t18);
    LowerCons(c18, t19);
  }

  lemma Row13Keep(c0: char, c1: char, c2: char, c3: char, c4: char, c5: char, c6: char, c7: char, c8: char, c9: char, c10: char, c11: char, c12: char, c13: char, c14: char, c15: char, c16: char, c17: char, c18: char, k: CharClasses)
    requires IsSlugSourceChar(c0, k) && IsSlugSourceChar(c1, k) && IsSlugSourceChar(c2, k)
      && IsSlugSourceChar(c3, k) && IsSlugSourceChar(c4, k) && IsSlugSourceChar(c5, k)
      && IsSlugSourceChar(c6, k) && IsSlugSourceChar(c7, k) && IsSlugSourceChar(c8, k)
      && IsSlugSourceChar(c9, k) && IsSlugSourceChar(c10, k)
      && IsSlugSourceChar(c11, k) && IsSlugSourceChar(c12, k)
      && IsSlugSourceChar(c13, k) && IsSlugSourceChar(c14, k)
      && IsSlugSourceChar(c15, k) && IsSlugSourceChar(c16, k)
      && IsSlugSourceChar(c17, k) && IsSlugSourceChar(c18, k)
    ensures KeepSlugSource([c0] + ([c1] + ([c2] + ([c3] + ([c4] + ([c5] + ([c6] + ([c7] + ([c8] + ([c9] + ([c10] + ([c11] + ([c12] + ([c13] + ([c14] + ([c15] + ([c16] + ([c17] + ([c18] + [])))))))))))))))))), k)
         == [c0] + ([c1] + ([c2] + ([c3] + ([c4] + ([c5] + ([c6] + ([c7] + ([c8] + ([c9] + ([c10] + ([c11] + ([c12] + ([c13] + ([c14] + ([c15] + ([c16] + ([c17] + ([c18] + []))))))))))))))))))
  {
    var t19: string := [];
    var t18 := [c18] + t19;
    var t17 := [c17] + t18;
    var t16 := [c16] + t17;
    var t15 := [c15] + t16;
    var t14 := [c14] + t15;
    var t13 := [c13] + t14;
    var t12 := [c12] + t13;
    var t11 := [c11] + t12;
    var t10 := [c10] + t11;
    var t9 := [c9] + t10;
    var t8 := [c8] + t9;
    var t7 := [c7] + t8;
    var t6 := [c6] + t7;
    var t5 := [c5] + t6;
    var t4 := [c4] + t5;
    var t3 := [c3] + t4;
    var t2 := [c2] + t3;
    var t1 := [c1] + t2;
    var t0 := [c0] + t1;
    KeepKept(c0, t1, k);
    KeepKept(c1, t2, k);
    KeepKept(c2, t3, k);
    KeepKept(c3, t4, k);
    KeepKept(c4, t5, k);
    KeepKept(c5, t6, k);
    KeepKept(c6, t7, k);
    KeepKept(c7, t8, k);
    KeepKept(c8, t9, k);
    KeepKept(c9, t10, k);
    KeepKept(c10, t11, k);
    KeepKept(c11, t12, k);
    KeepKept(c12, t13, k);
    KeepKept(c13, t14, k);
    KeepKept(c14, t15, k);
    KeepKept(c15, t16, k);
    KeepKept(c16, t17, k);
    KeepKept(c17, t18, k);
    KeepKept(c18, t19, k);
  }

  lemma Row13Collapse(c0: char, c1: char, c2: char, c3: char, c4: char, c5: char, c6: char, c7: char, c8: char, c9: char, c10: char, c11: char, c12: char, c13: char, c14: char, c15: char, c16: char, c17: char, c18: char, k: CharClasses)
    requires !IsSeparator(c0, k) && !IsSeparator(c1, k) && !IsSeparator(c2, k)
      && !IsSeparator(c3, k) && !IsSeparator(c4, k) && !IsSeparator(c5, k)
      && !IsSeparator(c6, k) && !IsSeparator(c7, k) && !IsSeparator(c8, k)
      && !IsSeparator(c9, k) && !IsSeparator(c10, k) && !IsSeparator(c11, k)
      && !IsSeparator(c12, k) && IsSeparator(c13, k) && !IsSeparator(c14, k)
      && !IsSeparator(c15, k) && !IsSeparator(c16, k) && !IsSeparator(c17, k)
      && !IsSeparator(c18, k)
    ensures CollapseRun([c0] + ([c1] + ([c2] + ([c3] + ([c4] + ([c5] + ([c6] + ([c7] + ([c8] + ([c9] + ([c10] + ([c11] + ([c12] + ([c13] + ([c14] + ([c15] + ([c16] + ([c17] + ([c18] + [])))))))))))))))))), k, false)
         == [c0] + ([c1] + ([c2] + ([c3] + ([c4] + ([c5] + ([c6] + ([c7] + ([c8] + ([c9] + ([c10] + ([c11] + ([c12] + (['-'] + ([c14] + ([c15] + ([c16] + ([c17] + ([c18] + []))))))))))))))))))
  {
    var t19: string := [];
    var t18 := [c18] + t19;
    var t17 := [c17] + t18;
    var t16 := [c16] + t17;
    var t15 := [c15] + t16;
    var t14 := [c14] + t15;
    var t13 := [c13] + t14;
    var t12 := [c12] + t13;
    var t11 := [c11] + t12;
    var t10 := [c10] + t11;
    var t9 := [c9] + t10;
    var t8 := [c8] + t9;
    var t7 := [c7] + t8;
    var t6 := [c6] + t7;
    var t5 := [c5] + t6;
    var t4 := [c4] + t5;
    var t3 := [c3] + t4;
    var t2 := [c2] + t3;
    var t1 := [c1] + t2;
    var t0 := [c0] + t1;
    CollapseWord(c0, t1, k, false);
    CollapseWord(c1, t2, k, false);
    CollapseWord(c2, t3, k, false);
    CollapseWord(c3, t4, k, false);
    CollapseWord(c4, t5, k, false);
    CollapseWord(c5, t6, k, false);
    CollapseWord(c6, t7, k, false);
    CollapseWord(c7, t8, k, false);
    CollapseWord(c8, t9, k, false);
    CollapseWord(c9, t10, k, false);
    CollapseWord(c10, t11, k, false);
    CollapseWord(c11, t12, k, false);
    CollapseWord(c12, t13, k, false);
    CollapseRunStart(c13, t14, k);
    CollapseWord(c14, t15, k, true);
    CollapseWord(c15, t16, k, false);
    CollapseWord(c16, t17, k, false);
    CollapseWord(c17, t18, k, false);
    CollapseWord(c18, t19, k, false);
  }

  lemma Row13Strip(c0: char, c1: char, c2: char, c3: char, c4: char, c5: char, c6: char, c7: char, c8: char, c9: char, c10: char, c11: char, c12: char, c13: char, c14: char, c15: char, c16: char, c17: char, c18: char)
    requires !IsStripChar(c0) && !IsStripChar(c18)
    ensures Strip([c0] + ([c1] + ([c2] + ([c3] + ([c4] + ([c5] + ([c6] + ([c7] + ([c8] + ([c9] + ([c10] + ([c11] + ([c12] + ([c13] + ([c14] + ([c15] + ([c16] + ([c17] + ([c18] + [])))))))))))))))))))
         == [c0] + ([c1] + ([c2] + ([c3] + ([c4] + ([c5] + ([c6] + ([c7] + ([c8] + ([c9] + ([c10] + ([c11] + ([c12] + ([c13] + ([c14] + ([c15] + ([c16] + ([c17] + ([c18] + []))))))))))))))))))
  {
    var t19: string := [];
    var t18 := [c18] + t19;
    var t17 := [c17] + t18;
    var t16 := [c16] + t17;
    var t15 := [c15] + t16;
    var t14 := [c14] + t15;
    var t13 := [c13] + t14;
    var t12 := [c12] + t13;
    var t11 := [c11] + t12;
    var t10 := [c10] + t11;
    var t9 := [c9] + t10;
    var t8 := [c8] + t9;
    var t7 := [c7] + t8;
    var t6 := [c6] + t7;
    var t5 := [c5] + t6;
    var t4 := [c4] + t5;
    var t3 := [c3] + t4;
    var t2 := [c2] + t3;
    var t1 := [c1] + t2;
    var t0 := [c0] + t1;
    StripLeadingStop(c0, t1);
    StripTrailingStop(c18, t19);
    StripTrailingKeep(c17, t18);
    StripTrailingKeep(c16, t17);
    StripTrailingKeep(c15, t16);
    StripTrailingKeep(c14, t15);
    StripTrailingKeep(c13, t14);
    StripTrailingKeep(c12, t13);
    StripTrailingKeep(c11, t12);
    StripTrailingKeep(c10, t11);
    StripTrailingKeep(c9, t10);
    StripTrailingKeep(c8, t9);
    StripTrailingKeep(c7, t8);
    StripTrailingKeep(c6, t7);
    StripTrailingKeep(c5, t6);
    StripTrailingKeep(c4, t5);
    StripTrailingKeep(c3, t4);
    StripTrailingKeep(c2, t3);
    StripTrailingKeep(c1, t2);
    StripTrailingKeep(c0, t1);
  }

  lemma Row13Chars(u: UnicodeDb)
    requires NfkdFixesAscii(u)
    ensures Slugify(['u'] + (['n'] + (['d'] + (['e'] + (['r'] + (['s'] + (['c'] + (['o'] + (['r'] + (['e'] + (['_'] + (['i'] + (['n'] + (['-'] + (['v'] + (['a'] + (['l'] + (['u'] + (['e'] + [])))))))))))))))))), false, u)
         == [AsciiLowerChar('u')] + ([AsciiLowerChar('n')] + ([AsciiLowerChar('d')] + ([AsciiLowerChar('e')] + ([AsciiLowerChar('r')] + ([AsciiLowerChar('s')] + ([AsciiLowerChar('c')] + ([AsciiLowerChar('o')] + ([AsciiLowerChar('r')] + ([AsciiLowerChar('e')] + ([AsciiLowerChar('_')] + ([AsciiLowerChar('i')] + ([AsciiLowerChar('n')] + (['-'] + ([AsciiLowerChar('v')] + ([AsciiLowerChar('a')] + ([AsciiLowerChar('l')] + ([AsciiLowerChar('u')] + ([AsciiLowerChar('e')] + []))))))))))))))))))
  {
    Row13Lower('u', 'n', 'd', 'e', 'r', 's', 'c', 'o', 'r', 'e', '_', 'i', 'n', '-', 'v', 'a', 'l', 'u', 'e');
    Row13Keep(AsciiLowerChar('u'), AsciiLowerChar('n'), AsciiLowerChar('d'), AsciiLowerChar('e'), AsciiLowerChar('r'), AsciiLowerChar('s'), AsciiLowerChar('c'), AsciiLowerChar('o'), AsciiLowerChar('r'), AsciiLowerChar('e'), AsciiLowerChar('_'), AsciiLowerChar('i'), AsciiLowerChar('n'), AsciiLowerChar('-'), AsciiLowerChar('v'), AsciiLowerChar('a'), AsciiLowerChar('l'), AsciiLowerChar('u'), AsciiLowerChar('e'), AsciiClasses);
    Row13Collapse(AsciiLowerChar('u'), AsciiLowerChar('n'), AsciiLowerChar('d'), AsciiLowerChar('e'), AsciiLowerChar('r'), AsciiLowerChar('s'), AsciiLowerChar('c'), AsciiLowerChar('o'), AsciiLowerChar('r'), AsciiLowerChar('e'), AsciiLowerChar('_'), AsciiLowerChar('i'), AsciiLowerChar('n'), AsciiLowerChar('-'), AsciiLowerChar('v'), AsciiLowerChar('a'), AsciiLowerChar('l'), AsciiLowerChar('u'), AsciiLowerChar('e'), AsciiClasses);
    Row13Strip(AsciiLowerChar('u'), AsciiLowerChar('n'), AsciiLowerChar('d'), AsciiLowerChar('e'), AsciiLowerChar('r'), AsciiLowerChar('s'), AsciiLowerChar('c'), AsciiLowerChar('o'), AsciiLowerChar('r'), AsciiLowerChar('e'), AsciiLowerChar('_'), AsciiLowerChar('i'), AsciiLowerChar('n'), '-', AsciiLowerChar('v'), AsciiLowerChar('a'), AsciiLowerChar('l'), AsciiLowerChar('u'), AsciiLowerChar('e'));
    AsciiSlugifyOfAscii(['u'] + (['n'] + (['d'] + (['e'] + (['r'] + (['s'] + (['c'] + (['o'] + (['r'] + (['e'] + (['_'] + (['i'] + (['n'] + (['-'] + (['v'] + (['a'] + (['l'] + (['u'] + (['e'] + [])))))))))))))))))), u);
  }

  lemma Row13Input()
    ensures "underscore_in-value"
         == ['u'] + (['n'] + (['d'] + (['e'] + (['r'] + (['s'] + (['c'] + (['o'] + (['r'] + (['e'] + (['_'] + (['i'] + (['n'] + (['-'] + (['v'] + (['a'] + (['l'] + (['u'] + (['e'] + []))))))))))))))))))
  {
    var s, t := "underscore_in-value", ['u'] + (['n'] + (['d'] + (['e'] + (['r'] + (['s'] + (['c'] + (['o'] + (['r'] + (['e'] + (['_'] + (['i'] + (['n'] + (['-'] + (['v'] + (['a'] + (['l'] + (['u'] + (['e'] + []))))))))))))))))));
    assert |s| == |t| == 19;
    forall i | 0 <= i < 4 ensures s[i] == t[i] {
    }
    forall i | 4 <= i < 8 ensures s[i] == t[i] {
    }
    forall i | 8 <= i < 12 ensures s[i] == t[i] {
    }
    forall i | 12 <= i < 16 ensures s[i] == t[i] {
    }
    forall i | 16 <= i < 19 ensures s[i] == t[i] {
    }
  }

  lemma Row13Output()
    ensures "underscore_in-value"
         == [AsciiLowerChar('u')] + ([AsciiLowerChar('n')] + ([AsciiLowerChar('d')] + ([AsciiLowerChar('e')] + ([AsciiLowerChar('r')] + ([AsciiLowerChar('s')] + ([AsciiLowerChar('c')] + ([AsciiLowerChar('o')] + ([AsciiLowerChar('r')] + ([AsciiLowerChar('e')] + ([AsciiLowerChar('_')] + ([AsciiLowerChar('i')] + ([AsciiLowerChar('n')] + (['-'] + ([AsciiLowerChar('v')] + ([AsciiLowerChar('a')] + ([AsciiLowerChar('l')] + ([AsciiLowerChar('u')] + ([AsciiLowerChar('e')] + []))))))))))))))))))
  {
    var s, t := "underscore_in-value", [AsciiLowerChar('u')] + ([AsciiLowerChar('n')] + ([AsciiLowerChar('d')] + ([AsciiLowerChar('e')] + ([AsciiLowerChar('r')] + ([AsciiLowerChar('s')] + ([AsciiLowerChar('c')] + ([AsciiLowerChar('o')] + ([AsciiLowerChar('r')] + ([AsciiLowerChar('e')] + ([AsciiLowerChar('_')] + ([AsciiLowerChar('i')] + ([AsciiLowerChar('n')] + (['-'] + ([AsciiLowerChar('v')] + ([AsciiLowerChar('a')] + ([AsciiLowerChar('l')] + ([AsciiLowerChar('u')] + ([AsciiLowerChar('e')] + []))))))))))))))))));
    assert |s| == |t| == 19;
    forall i | 0 <= i < 4 ensures s[i] == t[i] {
    }
    forall i | 4 <= i < 8 ensures s[i] == t[i] {
    }
    forall i | 8 <= i < 12 ensures s[i] == t[i] {
    }
    forall i | 12 <= i < 16 ensures s[i] == t[i] {
    }
    forall i | 16 <= i < 19 ensures s[i] == t[i] {
    }
  }

  lemma SlugTestRow13(u: UnicodeDb)
    requires NfkdFixesAscii(u)
    ensures Slugify("underscore_in-value", false, u) == "underscore_in-value"
  {
    Row13Input();
    Row13Chars(u);
    Row13Output();
  }

  // tests/test_utils.py:14: "__strip__underscore-value___" becomes "strip__underscore-value".

  lemma Row14Lower(c0: char, c1: char, c2: char, c3: char, c4: char, c5: char, c6: char, c7: char, c8: char, c9: char, c10: char, c11: char, c12: char, c13: char, c14: char, c15: char, c16: char, c17: char, c18: char, c19: char, c20: char, c21: char, c22: char, c23: char, c24: char, c25: char, c26: char, c27: char)
    requires IsAsciiChar(c0) && IsAsciiChar(c1) && IsAsciiChar(c2) && IsAsciiChar(c3)
      && IsAsciiChar(c4) && IsAsciiChar(c5) && IsAsciiChar(c6) && IsAsciiChar(c7)
      && IsAsciiChar(c8) && IsAsciiChar(c9) && IsAsciiChar(c10) && IsAsciiChar(c11)
      && IsAsciiChar(c12) && IsAsciiChar(c13) && IsAsciiChar(c14) && IsAsciiChar(c15)
      && IsAsciiChar(c16) && IsAsciiChar(c17) && IsAsciiChar(c18) && IsAsciiChar(c19)
      && IsAsciiChar(c20) && IsAsciiChar(c21) && IsAsciiChar(c22) && IsAsciiChar(c23)
      && IsAsciiChar(c24) && IsAsciiChar(c25) && IsAsciiChar(c26) && IsAsciiChar(c27)
    ensures IsAscii([c0] + ([c1] + ([c2] + ([c3] + ([c4] + ([c5] + ([c6] + ([c7] + ([c8] + ([c9] + ([c10] + ([c11] + ([c12] + ([c13] + ([c14] + ([c15] + ([c16] + ([c17] + ([c18] + ([c19] + ([c20] + ([c21] + ([c22] + ([c23] + ([c24] + ([c25] + ([c26] + ([c27] + []))))))))))))))))))))))))))))
    ensures AsciiLower([c0] + ([c1] + ([c2] + ([c3] + ([c4] + ([c5] + ([c6] + ([c7] + ([c8] + ([c9] + ([c10] + ([c11] + ([c12] + ([c13] + ([c14] + ([c15] + ([c16] + ([c17] + ([c18] + ([c19] + ([c20] + ([c21] + ([c22] + ([c23] + ([c24] + ([c25] + ([c26] + ([c27] + []))))))))))))))))))))))))))))
         == [AsciiLowerChar(c0)] + ([AsciiLowerChar(c1)] + ([AsciiLowerChar(c2)] + ([AsciiLowerChar(c3)] + ([AsciiLowerChar(c4)] + ([AsciiLowerChar(c5)] + ([AsciiLowerChar(c6)] + ([AsciiLowerChar(c7)] + ([AsciiLowerChar(c8)] + ([AsciiLowerChar(c9)] + ([AsciiLowerChar(c10)] + ([AsciiLowerChar(c11)] + ([AsciiLowerChar(c12)] + ([AsciiLowerChar(c13)] + ([AsciiLowerChar(c14)] + ([AsciiLowerChar(c15)] + ([AsciiLowerChar(c16)] + ([AsciiLowerChar(c17)] + ([AsciiLowerChar(c18)] + ([AsciiLowerChar(c19)] + ([AsciiLowerChar(c20)] + ([AsciiLowerChar(c21)] + ([AsciiLowerChar(c22)] + ([AsciiLowerChar(c23)] + ([AsciiLowerChar(c24)] + ([AsciiLowerChar(c25)] + ([AsciiLowerChar(c26)] + ([AsciiLowerChar(c27)] + [])))))))))))))))))))))))))))
  {
    var t28: string := [];
    var t27 := [c27] + t28;
    var t26 := [c26] + t27;
    var t25 := [c25] + t26;
    var t24 := [c24] + t25;
    var t23 := [c23] + t24;
    var t22 := [c22] + t23;
    var t21 := [c21] + t22;
    var t20 := [c20] + t21;
    var t19 := [c19] + t20;
    var t18 := [c18] + t19;
    var t17 := [c17] + t18;
    var t16 := [c16] + t17;
    var t15 := [c15] + t16;
    var t14 := [c14] + t15;
    var t13 := [c13] + t14;
    var t12 := [c12] + t13;
    var t11 := [c11] + t12;
    var t10 := [c10] + t11;
    var t9 := [c9] + t10;
    var t8 := [c8] + t9;
    var t7 := [c7] + t8;
    var t6 := [c6] + t7;
    var t5 := [c5] + t6;
    var t4 := [c4] + t5;
    var t3 := [c3] + t4;
    var t2 := [c2] + t3;
    var t1 := [c1] + t2;
    var t0 := [c0] + t1;
    AsciiCons(c27, t28);
    AsciiCons(c26, t27);
    AsciiCons(c25, t26);
    AsciiCons(c24, t25);
    AsciiCons(c23, t24);
    AsciiCons(c22, t23);
    AsciiCons(c21, t22);
    AsciiCons(c20, t21);
    AsciiCons(c19, t20);
    AsciiCons(c18, t19);
    AsciiCons(c17, t18);
    AsciiCons(c16, t17);
    AsciiCons(c15, t16);
    AsciiCons(c14, t15);
    AsciiCons(c13, t14);
    AsciiCons(c12, t13);
    AsciiCons(c11, t12);
    AsciiCons(c10, t11);
    AsciiCons(c9, t10);
    AsciiCons(c8, t9);
    AsciiCons(c7, t8);
    AsciiCons(c6, t7);
    AsciiCons(c5, t6);
    AsciiCons(c4, t5);
    AsciiCons(c3, t4);
    AsciiCons(c2, t3);
    AsciiCons(c1, t2);
    AsciiCons(c0, t1);
    LowerCons(c0, t1);
    LowerCons(c1, t2);
    LowerCons(c2, t3);
    LowerCons(c3, t4);
    LowerCons(c4, t5);
    LowerCons(c5, t6);
    LowerCons(c6, t7);
    LowerCons(c7, t8);
    LowerCons(c8, t9);
    LowerCons(c9, t10);
    LowerCons(c10, t11);
    LowerCons(c11, t12);
    LowerCons(c12, t13);
    LowerCons(c13, t14);
    LowerCons(c14, t15);
    LowerCons(c15, t16);
    LowerCons(c16, t17);
    LowerCons(c17, t18);
    LowerCons(c18, t19);
    LowerCons(c19, t20);
    LowerCons(c20, t21);
    LowerCons(c21, t22);
    LowerCons(c22, t23);
    LowerCons(c23, t24);
    LowerCons(c24, t25);
    LowerCons(c25, t26);
    LowerCons(c26, t27);
    LowerCons(c27, t28);
  }

  lemma Row14Keep(c0: char, c1: char, c2: char, c3: char, c4: char, c5: char, c6: char, c7: char, c8: char, c9: char, c10: char, c11: char, c12: char, c13: char, c14: char, c15: char, c16: char, c17: char, c18: char, c19: char, c20: char, c21: char, c22: char, c23: char, c24: char, c25: char, c26: char, c27: char, k: CharClasses)
    requires IsSlugSourceChar(c0, k) && IsSlugSourceChar(c1, k) && IsSlugSourceChar(c2, k)
      && IsSlugSourceChar(c3, k) && IsSlugSourceChar(c4, k) && IsSlugSourceChar(c5, k)
      && IsSlugSourceChar(c6, k) && IsSlugSourceChar(c7, k) && IsSlugSourceChar(c8, k)
      && IsSlugSourceChar(c9, k) && IsSlugSourceChar(c10, k)
      && IsSlugSourceChar(c11, k) && IsSlugSourceChar(c12, k)
      && IsSlugSourceChar(c13, k) && IsSlugSourceChar(c14, k)
      && IsSlugSourceChar(c15, k) && IsSlugSourceChar(c16, k)
      && IsSlugSourceChar(c17, k) && IsSlugSourceChar(c18, k)
      && IsSlugSourceChar(c19, k) && IsSlugSourceChar(c20, k)
      && IsSlugSourceChar(c21, k) && IsSlugSourceChar(c22, k)
      && IsSlugSourceChar(c23, k) && IsSlugSourceChar(c24, k)
      && IsSlugSourceChar(c25, k) && IsSlugSourceChar(c26, k)
      && IsSlugSourceChar(c27, k)
    ensures KeepSlugSource([c0] + ([c1] + ([c2] + ([c3] + ([c4] + ([c5] + ([c6] + ([c7] + ([c8] + ([c9] + ([c10] + ([c11] + ([c12] + ([c13] + ([c14] + ([c15] + ([c16] + ([c17] + ([c18] + ([c19] + ([c20] + ([c21] + ([c22] + ([c23] + ([c24] + ([c25] + ([c26] + ([c27] + []))))))))))))))))))))))))))), k)
         == [c0] + ([c1] + ([c2] + ([c3] + ([c4] + ([c5] + ([c6] + ([c7] + ([c8] + ([c9] + ([c10] + ([c11] + ([c12] + ([c13] + ([c14] + ([c15] + ([c16] + ([c17] + ([c18] + ([c19] + ([c20] + ([c21] + ([c22] + ([c23] + ([c24] + ([c25] + ([c26] + ([c27] + [])))))))))))))))))))))))))))
  {
    var t28: string := [];
    var t27 := [c27] + t28;
    var t26 := [c26] + t27;
    var t25 := [c25] + t26;
    var t24 := [c24] + t25;
    var t23 := [c23] + t24;
    var t22 := [c22] + t23;
    var t21 := [c21] + t22;
    var t20 := [c20] + t21;
    var t19 := [c19] + t20;
    var t18 := [c18] + t19;
    var t17 := [c17] + t18;
    var t16 := [c16] + t17;
    var t15 := [c15] + t16;
    var t14 := [c14] + t15;
    var t13 := [c13] + t14;
    var t12 := [c12] + t13;
    var t11 := [c11] + t12;
    var t10 := [c10] + t11;
    var t9 := [c9] + t10;
    var t8 := [c8] + t9;
    var t7 := [c7] + t8;
    var t6 := [c6] + t7;
    var t5 := [c5] + t6;
    var t4 := [c4] + t5;
    var t3 := [c3] + t4;
    var t2 := [c2] + t3;
    var t1 := [c1] + t2;
    var t0 := [c0] + t1;
    KeepKept(c0, t1, k);
    KeepKept(c1, t2, k);
    KeepKept(c2, t3, k);
    KeepKept(c3, t4, k);
    KeepKept(c4, t5, k);
    KeepKept(c5, t6, k);
    KeepKept(c6, t7, k);
    KeepKept(c7, t8, k);
    KeepKept(c8, t9, k);
    KeepKept(c9, t10, k);
    KeepKept(c10, t11, k);
    KeepKept(c11, t12, k);
    KeepKept(c12, t13, k);
    KeepKept(c13, t14, k);
    KeepKept(c14, t15, k);
    KeepKept(c15, t16, k);
    KeepKept(c16, t17, k);
    KeepKept(c17, t18, k);
    KeepKept(c18, t19, k);
    KeepKept(c19, t20, k);
    KeepKept(c20, t21, k);
    KeepKept(c21, t22, k);
    KeepKept(c22, t23, k);
    KeepKept(c23, t24, k);
    KeepKept(c24, t25, k);
    KeepKept(c25, t26, k);
    KeepKept(c26, t27, k);
    KeepKept(c27, t28, k);
  }

  lemma Row14Collapse(c0: char, c1: char, c2: char, c3: char, c4: char, c5: char, c6: char, c7: char, c8: char, c9: char, c10: char, c11: char, c12: char, c13: char, c14: char, c15: char, c16: char, c17: char, c18: char, c19: char, c20: char, c21: char, c22: char, c23: char, c24: char, c25: char, c26: char, c27: char, k: CharClasses)
    requires !IsSeparator(c0, k) && !IsSeparator(c1, k) && !IsSeparator(c2, k)
      && !IsSeparator(c3, k) && !IsSeparator(c4, k) && !IsSeparator(c5, k)
      && !IsSeparator(c6, k) && !IsSeparator(c7, k) && !IsSeparator(c8, k)
      && !IsSeparator(c9, k) && !IsSeparator(c10, k) && !IsSeparator(c11, k)
      && !IsSeparator(c12, k) && !IsSeparator(c13, k) && !IsSeparator(c14, k)
      && !IsSeparator(c15, k) && !IsSeparator(c16, k) && !IsSeparator(c17, k)
      && !IsSeparator(c18, k) && IsSeparator(c19, k) && !IsSeparator(c20, k)
      && !IsSeparator(c21, k) && !IsSeparator(c22, k) && !IsSeparator(c23, k)
      && !IsSeparator(c24, k) && !IsSeparator(c25, k) && !IsSeparator(c26, k)
      && !IsSeparator(c27, k)
    ensures CollapseRun([c0] + ([c1] + ([c2] + ([c3] + ([c4] + ([c5] + ([c6] + ([c7] + ([c8] + ([c9] + ([c10] + ([c11] + ([c12] + ([c13] + ([c14] + ([c15] + ([c16] + ([c17] + ([c18] + ([c19] + ([c20] + ([c21] + ([c22] + ([c23] + ([c24] + ([c25] + ([c26] + ([c27] + []))))))))))))))))))))))))))), k, false)
         == [c0] + ([c1] + ([c2] + ([c3] + ([c4] + ([c5] + ([c6] + ([c7] + ([c8] + ([c9] + ([c10] + ([c11] + ([c12] + ([c13] + ([c14] + ([c15] + ([c16] + ([c17] + ([c18] + (['-'] + ([c20] + ([c21] + ([c22] + ([c23] + ([c24] + ([c25] + ([c26] + ([c27] + [])))))))))))))))))))))))))))
  {
    var t28: string := [];
    var t27 := [c27] + t28;
    var t26 := [c26] + t27;
    var t25 := [c25] + t26;
    var t24 := [c24] + t25;
    var t23 := [c23] + t24;
    var t22 := [c22] + t23;
    var t21 := [c21] + t22;
    var t20 := [c20] + t21;
    var t19 := [c19] + t20;
    var t18 := [c18] + t19;
    var t17 := [c17] + t18;
    var t16 := [c16] + t17;
    var t15 := [c15] + t16;
    var t14 := [c14] + t15;
    var t13 := [c13] + t14;
    var t12 := [c12] + t13;
    var t11 := [c11] + t12;
    var t10 := [c10] + t11;
    var t9 := [c9] + t10;
    var t8 := [c8] + t9;
    var t7 := [c7] + t8;
    var t6 := [c6] + t7;
    var t5 := [c5] + t6;
    var t4 := [c4] + t5;
    var t3 := [c3] + t4;
    var t2 := [c2] + t3;
    var t1 := [c1] + t2;
    var t0 := [c0] + t1;
    CollapseWord(c0, t1, k, false);
    CollapseWord(c1, t2, k, false);
    CollapseWord(c2, t3, k, false);
    CollapseWord(c3, t4, k, false);
    CollapseWord(c4, t5, k, false);
    CollapseWord(c5, t6, k, false);
    CollapseWord(c6, t7, k, false);
    CollapseWord(c7, t8, k, false);
    CollapseWord(c8, t9, k, false);
    CollapseWord(c9, t10, k, false);
    CollapseWord(c10, t11, k, false);
    CollapseWord(c11, t12, k, false);
    CollapseWord(c12, t13, k, false);
    CollapseWord(c13, t14, k, false);
    CollapseWord(c14, t15, k, false);
    CollapseWord(c15, t16, k, false);
    CollapseWord(c16, t17, k, false);
    CollapseWord(c17, t18, k, false);
    CollapseWord(c18, t19, k, false);
    CollapseRunStart(c19, t20, k);
    CollapseWord(c20, t21, k, true);
    CollapseWord(c21, t22, k, false);
    CollapseWord(c22, t23, k, false);
    CollapseWord(c23, t24, k, false);
    CollapseWord(c24, t25, k, false);
    CollapseWord(c25, t26, k, false);
    CollapseWord(c26, t27, k, false);
    CollapseWord(c27, t28, k, false);
  }

  lemma Row14Strip(c0: char, c1: char, c2: char, c3: char, c4: char, c5: char, c6: char, c7: char, c8: char, c9: char, c10: char, c11: char, c12: char, c13: char, c14: char, c15: char, c16: char, c17: char, c18: char, c19: char, c20: char, c21: char, c22: char, c23: char, c24: char, c25: char, c26: char, c27: char)
    requires IsStripChar(c0) && IsStripChar(c1) && !IsStripChar(c2) && !IsStripChar(c24)
      && IsStripChar(c25) && IsStripChar(c26) && IsStripChar(c27)
    ensures Strip([c0] + ([c1] + ([c2] + ([c3] + ([c4] + ([c5] + ([c6] + ([c7] + ([c8] + ([c9] + ([c10] + ([c11] + ([c12] + ([c13] + ([c14] + ([c15] + ([c16] + ([c17] + ([c18] + ([c19] + ([c20] + ([c21] + ([c22] + ([c23] + ([c24] + ([c25] + ([c26] + ([c27] + []))))))))))))))))))))))))))))
         == [c2] + ([c3] + ([c4] + ([c5] + ([c6] + ([c7] + ([c8] + ([c9] + ([c10] + ([c11] + ([c12] + ([c13] + ([c14] + ([c15] + ([c16] + ([c17] + ([c18] + ([c19] + ([c20] + ([c21] + ([c22] + ([c23] + ([c24] + []))))))))))))))))))))))
  {
    var t28: string := [];
    var t27 := [c27] + t28;
    var t26 := [c26] + t27;
    var t25 := [c25] + t26;
    var t24 := [c24] + t25;
    var t23 := [c23] + t24;
    var t22 := [c22] + t23;
    var t21 := [c21] + t22;
    var t20 := [c20] + t21;
    var t19 := [c19] + t20;
    var t18 := [c18] + t19;
    var t17 := [c17] + t18;
    var t16 := [c16] + t17;
    var t15 := [c15] + t16;
    var t14 := [c14] + t15;
    var t13 := [c13] + t14;
    var t12 := [c12] + t13;
    var t11 := [c11] + t12;
    var t10 := [c10] + t11;
    var t9 := [c9] + t10;
    var t8 := [c8] + t9;
    var t7 := [c7] + t8;
    var t6 := [c6] + t7;
    var t5 := [c5] + t6;
    var t4 := [c4] + t5;
    var t3 := [c3] + t4;
    var t2 := [c2] + t3;
    var t1 := [c1] + t2;
    var t0 := [c0] + t1;
    StripLeadingSkip(c0, t1);
    StripLeadingSkip(c1, t2);
    StripLeadingStop(c2, t3);
    StripTrailingSkip(c27, t28);
    StripTrailingSkip(c26, t27);
    StripTrailingSkip(c25, t26);
    StripTrailingStop(c24, t25);
    StripTrailingKeep(c23, t24);
    StripTrailingKeep(c22, t23);
    StripTrailingKeep(c21, t22);
    StripTrailingKeep(c20, t21);
    StripTrailingKeep(c19, t20);
    StripTrailingKeep(c18, t19);
    StripTrailingKeep(c17, t18);
    StripTrailingKeep(c16, t17);
    StripTrailingKeep(c15, t16);
    StripTrailingKeep(c14, t15);
    StripTrailingKeep(c13, t14);
    StripTrailingKeep(c12, t13);
    StripTrailingKeep(c11, t12);
    StripTrailingKeep(c10, t11);
    StripTrailingKeep(c9, t10);
    StripTrailingKeep(c8, t9);
    StripTrailingKeep(c7, t8);
    StripTrailingKeep(c6, t7);
    StripTrailingKeep(c5, t6);
    StripTrailingKeep(c4, t5);
    StripTrailingKeep(c3, t4);
    StripTrailingKeep(c2, t3);
  }

  lemma Row14Chars(u: UnicodeDb)
    requires NfkdFixesAscii(u)
    ensures Slugify(['_'] + (['_'] + (['s'] + (['t'] + (['r'] + (['i'] + (['p'] + (['_'] + (['_'] + (['u'] + (['n'] + (['d'] + (['e'] + (['r'] + (['s'] + (['c'] + (['o'] + (['r'] + (['e'] + (['-'] + (['v'] + (['a'] + (['l'] + (['u'] + (['e'] + (['_'] + (['_'] + (['_'] + []))))))))))))))))))))))))))), false, u)
         == [AsciiLowerChar('s')] + ([AsciiLowerChar('t')] + ([AsciiLowerChar('r')] + ([AsciiLowerChar('i')] + ([AsciiLowerChar('p')] + ([AsciiLowerChar('_')] + ([AsciiLowerChar('_')] + ([AsciiLowerChar('u')] + ([AsciiLowerChar('n')] + ([AsciiLowerChar('d')] + ([AsciiLowerChar('e')] + ([AsciiLowerChar('r')] + ([AsciiLowerChar('s')] + ([AsciiLowerChar('c')] + ([AsciiLowerChar('o')] + ([AsciiLowerChar('r')] + ([AsciiLowerChar('e')] + (['-'] + ([AsciiLowerChar('v')] + ([AsciiLowerChar('a')] + ([AsciiLowerChar('l')] + ([AsciiLowerChar('u')] + ([AsciiLowerChar('e')] + []))))))))))))))))))))))
  {
    Row14Lower('_', '_', 's', 't', 'r', 'i', 'p', '_', '_', 'u', 'n', 'd', 'e', 'r', 's', 'c', 'o', 'r', 'e', '-', 'v', 'a', 'l', 'u', 'e', '_', '_', '_');
    Row14Keep(AsciiLowerChar('_'), AsciiLowerChar('_'), AsciiLowerChar('s'), AsciiLowerChar('t'), AsciiLowerChar('r'), AsciiLowerChar('i'), AsciiLowerChar('p'), AsciiLowerChar('_'), AsciiLowerChar('_'), AsciiLowerChar('u'), AsciiLowerChar('n'), AsciiLowerChar('d'), AsciiLowerChar('e'), AsciiLowerChar('r'), AsciiLowerChar('s'), AsciiLowerChar('c'), AsciiLowerChar('o'), AsciiLowerChar('r'), AsciiLowerChar('e'), AsciiLowerChar('-'), AsciiLowerChar('v'), AsciiLowerChar('a'), AsciiLowerChar('l'), AsciiLowerChar('u'), AsciiLowerChar('e'), AsciiLowerChar('_'), AsciiLowerChar('_'), AsciiLowerChar('_'), AsciiClasses);
    Row14Collapse(AsciiLowerChar('_'), AsciiLowerChar('_'), AsciiLowerChar('s'), AsciiLowerChar('t'), AsciiLowerChar('r'), AsciiLowerChar('i'), AsciiLowerChar('p'), AsciiLowerChar('_'), AsciiLowerChar('_'), AsciiLowerChar('u'), AsciiLowerChar('n'), AsciiLowerChar('d'), AsciiLowerChar('e'), AsciiLowerChar('r'), AsciiLowerChar('s'), AsciiLowerChar('c'), AsciiLowerChar('o'), AsciiLowerChar('r'), AsciiLowerChar('e'), AsciiLowerChar('-'), AsciiLowerChar('v'), AsciiLowerChar('a'), AsciiLowerChar('l'), AsciiLowerChar('u'), AsciiLowerChar('e'), AsciiLowerChar('_'), AsciiLowerChar('_'), AsciiLowerChar('_'), AsciiClasses);
    Row14Strip(AsciiLowerChar('_'), AsciiLowerChar('_'), AsciiLowerChar('s'), AsciiLowerChar('t'), AsciiLowerChar('r'), AsciiLowerChar('i'), AsciiLowerChar('p'), AsciiLowerChar('_'), AsciiLowerChar('_'), AsciiLowerChar('u'), AsciiLowerChar('n'), AsciiLowerChar('d'), AsciiLowerChar('e'), AsciiLowerChar('r'), AsciiLowerChar('s'), AsciiLowerChar('c'), AsciiLowerChar('o'), AsciiLowerChar('r'), AsciiLowerChar('e'), '-', AsciiLowerChar('v'), AsciiLowerChar('a'), AsciiLowerChar('l'), AsciiLowerChar('u'), AsciiLowerChar('e'), AsciiLowerChar('_'), AsciiLowerChar('_'), AsciiLowerChar('_'));
    AsciiSlugifyOfAscii(['_'] + (['_'] + (['s'] + (['t'] + (['r'] + (['i'] + (['p'] + (['_'] + (['_'] + (['u'] + (['n'] + (['d'] + (['e'] + (['r'] + (['s'] + (['c'] + (['o'] + (['r'] + (['e'] + (['-'] + (['v'] + (['a'] + (['l'] + (['u'] + (['e'] + (['_'] + (['_'] + (['_'] + []))))))))))))))))))))))))))), u);
  }

  lemma Row14Input()
    ensures "__strip__underscore-value___"
         == ['_'] + (['_'] + (['s'] + (['t'] + (['r'] + (['i'] + (['p'] + (['_'] + (['_'] + (['u'] + (['n'] + (['d'] + (['e'] + (['r'] + (['s'] + (['c'] + (['o'] + (['r'] + (['e'] + (['-'] + (['v'] + (['a'] + (['l'] + (['u'] + (['e'] + (['_'] + (['_'] + (['_'] + [])))))))))))))))))))))))))))
  {
    var s, t := "__strip__underscore-value___", ['_'] + (['_'] + (['s'] + (['t'] + (['r'] + (['i'] + (['p'] + (['_'] + (['_'] + (['u'] + (['n'] + (['d'] + (['e'] + (['r'] + (['s'] + (['c'] + (['o'] + (['r'] + (['e'] + (['-'] + (['v'] + (['a'] + (['l'] + (['u'] + (['e'] + (['_'] + (['_'] + (['_'] + [])))))))))))))))))))))))))));
    assert |s| == |t| == 28;
    forall i | 0 <= i < 4 ensures s[i] == t[i] {
    }
    forall i | 4 <= i < 8 ensures s[i] == t[i] {
    }
    forall i | 8 <= i < 12 ensures s[i] == t[i] {
    }
    forall i | 12 <= i < 16 ensures s[i] == t[i] {
    }
    forall i | 16 <= i < 20 ensures s[i] == t[i] {
    }
    forall i | 20 <= i < 24 ensures s[i] == t[i] {
    }
    forall i | 24 <= i < 28 ensures s[i] == t[i] {
    }
  }

  lemma Row14Output()
    ensures "strip__underscore-value"
         == [AsciiLowerChar('s')] + ([AsciiLowerChar('t')] + ([AsciiLowerChar('r')] + ([AsciiLowerChar('i')] + ([AsciiLowerChar('p')] + ([AsciiLowerChar('_')] + ([AsciiLowerChar('_')] + ([AsciiLowerChar('u')] + ([AsciiLowerChar('n')] + ([AsciiLowerChar('d')] + ([AsciiLowerChar('e')] + ([AsciiLowerChar('r')] + ([AsciiLowerChar('s')] + ([AsciiLowerChar('c')] + ([AsciiLowerChar('o')] + ([AsciiLowerChar('r')] + ([AsciiLowerChar('e')] + (['-'] + ([AsciiLowerChar('v')] + ([AsciiLowerChar('a')] + ([AsciiLowerChar('l')] + ([AsciiLowerChar('u')] + ([AsciiLowerChar('e')] + []))))))))))))))))))))))
  {
    var s, t := "strip__underscore-value", [AsciiLowerChar('s')] + ([AsciiLowerChar('t')] + ([AsciiLowerChar('r')] + ([AsciiLowerChar('i')] + ([AsciiLowerChar('p')] + ([AsciiLowerChar('_')] + ([AsciiLowerChar('_')] + ([AsciiLowerChar('u')] + ([AsciiLowerChar('n')] + ([AsciiLowerChar('d')] + ([AsciiLowerChar('e')] + ([AsciiLowerChar('r')] + ([AsciiLowerChar('s')] + ([AsciiLowerChar('c')] + ([AsciiLowerChar('o')] + ([AsciiLowerChar('r')] + ([AsciiLowerChar('e')] + (['-'] + ([AsciiLowerChar('v')] + ([AsciiLowerChar('a')] + ([AsciiLowerChar('l')] + ([AsciiLowerChar('u')] + ([AsciiLowerChar('e')] + []))))))))))))))))))))));
    assert |s| == |t| == 23;
    forall i | 0 <= i < 4 ensures s[i] == t[i] {
    }
    forall i | 4 <= i < 8 ensures s[i] == t[i] {
    }
    forall i | 8 <= i < 12 ensures s[i] == t[i] {
    }
    forall i | 12 <= i < 16 ensures s[i] == t[i] {
    }
    forall i | 16 <= i < 20 ensures s[i] == t[i] {
    }
    forall i | 20 <= i < 23 ensures s[i] == t[i] {
    }
  }

  lemma SlugTestRow14(u: UnicodeDb)
    requires NfkdFixesAscii(u)
    ensures Slugify("__strip__underscore-value___", false, u) == "strip__underscore-value"
  {
    Row14Input();
    Row14Chars(u);
    Row14Output();
  }

  // tests/test_utils.py:15: "--strip-dash-value---" becomes "strip-dash-value".

  lemma Row15Lower(c0: char, c1: char, c2: char, c3: char, c4: char, c5: char, c6: char, c7: char, c8: char, c9: char, c10: char, c11: char, c12: char, c13: char, c14: char, c15: char, c16: char, c17: char, c18: char, c19: char, c20: char)
    requires IsAsciiChar(c0) && IsAsciiChar(c1) && IsAsciiChar(c2) && IsAsciiChar(c3)
      && IsAsciiChar(c4) && IsAsciiChar(c5) && IsAsciiChar(c6) && IsAsciiChar(c7)
      && IsAsciiChar(c8) && IsAsciiChar(c9) && IsAsciiChar(c10) && IsAsciiChar(c11)
      && IsAsciiChar(c12) && IsAsciiChar(c13) && IsAsciiChar(c14) && IsAsciiChar(c15)
      && IsAsciiChar(c16) && IsAsciiChar(c17) && IsAsciiChar(c18) && IsAsciiChar(c19)
      && IsAsciiChar(c20)
    ensures IsAscii([c0] + ([c1] + ([c2] + ([c3] + ([c4] + ([c5] + ([c6] + ([c7] + ([c8] + ([c9] + ([c10] + ([c11] + ([c12] + ([c13] + ([c14] + ([c15] + ([c16] + ([c17] + ([c18] + ([c19] + ([c20] + [])))))))))))))))))))))
    ensures AsciiLower([c0] + ([c1] + ([c2] + ([c3] + ([c4] + ([c5] + ([c6] + ([c7] + ([c8] + ([c9] + ([c10] + ([c11] + ([c12] + ([c13] + ([c14] + ([c15] + ([c16] + ([c17] + ([c18] + ([c19] + ([c20] + [])))))))))))))))))))))
         == [AsciiLowerChar(c0)] + ([AsciiLowerChar(c1)] + ([AsciiLowerChar(c2)] + ([AsciiLowerChar(c3)] + ([AsciiLowerChar(c4)] + ([AsciiLowerChar(c5)] + ([AsciiLowerChar(c6)] + ([AsciiLowerChar(c7)] + ([AsciiLowerChar(c8)] + ([AsciiLowerChar(c9)] + ([AsciiLowerChar(c10)] + ([AsciiLowerChar(c11)] + ([AsciiLowerChar(c12)] + ([AsciiLowerChar(c13)] + ([AsciiLowerChar(c14)] + ([AsciiLowerChar(c15)] + ([AsciiLowerChar(c16)] + ([AsciiLowerChar(c17)] + ([AsciiLowerChar(c18)] + ([AsciiLowerChar(c19)] + ([AsciiLowerChar(c20)] + []))))))))))))))))))))
  {
    var t21: string := [];
    var t20 := [c20] + t21;
    var t19 := [c19] + t20;
    var t18 := [c18] + t19;
    var t17 := [c17] + t18;
    var t16 := [c16] + t17;
    var t15 := [c15] + t16;
    var t14 := [c14] + t15;
    var t13 := [c13] + t14;
    var t12 := [c12] + t13;
    var t11 := [c11] + t12;
    var t10 := [c10] + t11;
    var t9 := [c9] + t10;
    var t8 := [c8] + t9;
    var t7 := [c7] + t8;
    var t6 := [c6] + t7;
    var t5 := [c5] + t6;
    var t4 := [c4] + t5;
    var t3 := [c3] + t4;
    var t2 := [c2] + t3;
    var t1 := [c1] + t2;
    var t0 := [c0] + t1;
    AsciiCons(c20, t21);
    AsciiCons(c19, t20);
    AsciiCons(c18, t19);
    AsciiCons(c17, t18);
    AsciiCons(c16, t17);
    AsciiCons(c15, t16);
    AsciiCons(c14, t15);
    AsciiCons(c13, t14);
    AsciiCons(c12, t13);
    AsciiCons(c11, t12);
    AsciiCons(c10, t11);
    AsciiCons(c9, t10);
    AsciiCons(c8, t9);
    AsciiCons(c7, t8);
    AsciiCons(c6, t7);
    AsciiCons(c5, t6);
    AsciiCons(c4, t5);
    AsciiCons(c3, t4);
    AsciiCons(c2, t3);
    AsciiCons(c1, t2);
    AsciiCons(c0, t1);
    LowerCons(c0, t1);
    LowerCons(c1, t2);
    LowerCons(c2, t3);
    LowerCons(c3, t4);
    LowerCons(c4, t5);
    LowerCons(c5, t6);
    LowerCons(c6, t7);
    LowerCons(c7, t8);
    LowerCons(c8, t9);
    LowerCons(c9, t10);
    LowerCons(c10, t11);
    LowerCons(c11, t12);
    LowerCons(c12, t13);
    LowerCons(c13, t14);
    LowerCons(c14, t15);
    LowerCons(c15, t16);
    LowerCons(c16, t17);
    LowerCons(c17, t18);
    LowerCons(c18, t19);
    LowerCons(c19, t20);
    LowerCons(c20, t21);
  }

  lemma Row15Keep(c0: char, c1: char, c2: char, c3: char, c4: char, c5: char, c6: char, c7: char, c8: char, c9: char, c10: char, c11: char, c12: char, c13: char, c14: char, c15: char, c16: char, c17: char, c18: char, c19: char, c20: char, k: CharClasses)
    requires IsSlugSourceChar(c0, k) && IsSlugSourceChar(c1, k) && IsSlugSourceChar(c2, k)
      && IsSlugSourceChar(c3, k) && IsSlugSourceChar(c4, k) && IsSlugSourceChar(c5, k)
      && IsSlugSourceChar(c6, k) && IsSlugSourceChar(c7, k) && IsSlugSourceChar(c8, k)
      && IsSlugSourceChar(c9, k) && IsSlugSourceChar(c10, k)
      && IsSlugSourceChar(c11, k) && IsSlugSourceChar(c12, k)
      && IsSlugSourceChar(c13, k) && IsSlugSourceChar(c14, k)
      && IsSlugSourceChar(c15, k) && IsSlugSourceChar(c16, k)
      && IsSlugSourceChar(c17, k) && IsSlugSourceChar(c18, k)
      && IsSlugSourceChar(c19, k) && IsSlugSourceChar(c20, k)
    ensures KeepSlugSource([c0] + ([c1] + ([c2] + ([c3] + ([c4] + ([c5] + ([c6] + ([c7] + ([c8] + ([c9] + ([c10] + ([c11] + ([c12] + ([c13] + ([c14] + ([c15] + ([c16] + ([c17] + ([c18] + ([c19] + ([c20] + [])))))))))))))))))))), k)
         == [c0] + ([c1] + ([c2] + ([c3] + ([c4] + ([c5] + ([c6] + ([c7] + ([c8] + ([c9] + ([c10] + ([c11] + ([c12] + ([c13] + ([c14] + ([c15] + ([c16] + ([c17] + ([c18] + ([c19] + ([c20] + []))))))))))))))))))))
  {
    var t21: string := [];
    var t20 := [c20] + t21;
    var t19 := [c19] + t20;
    var t18 := [c18] + t19;
    var t17 := [c17] + t18;
    var t16 := [c16] + t17;
    var t15 := [c15] + t16;
    var t14 := [c14] + t15;
    var t13 := [c13] + t14;
    var t12 := [c12] + t13;
    var t11 := [c11] + t12;
    var t10 := [c10] + t11;
    var t9 := [c9] + t10;
    var t8 := [c8] + t9;
    var t7 := [c7] + t8;
    var t6 := [c6] + t7;
    var t5 := [c5] + t6;
    var t4 := [c4] + t5;
    var t3 := [c3] + t4;
    var t2 := [c2] + t3;
    var t1 := [c1] + t2;
    var t0 := [c0] + t1;
    KeepKept(c0, t1, k);
    KeepKept(c1, t2, k);
    KeepKept(c2, t3, k);
    KeepKept(c3, t4, k);
    KeepKept(c4, t5, k);
    KeepKept(c5, t6, k);
    KeepKept(c6, t7, k);
    KeepKept(c7, t8, k);
    KeepKept(c8, t9, k);
    KeepKept(c9, t10, k);
    KeepKept(c10, t11, k);
    KeepKept(c11, t12, k);
    KeepKept(c12, t13, k);
    KeepKept(c13, t14, k);
    KeepKept(c14, t15, k);
    KeepKept(c15, t16, k);
    KeepKept(c16, t17, k);
    KeepKept(c17, t18, k);
    KeepKept(c18, t19, k);
    KeepKept(c19, t20, k);
    KeepKept(c20, t21, k);
  }

  lemma Row15Collapse(c0: char, c1: char, c2: char, c3: char, c4: char, c5: char, c6: char, c7: char, c8: char, c9: char, c10: char, c11: char, c12: char, c13: char, c14: char, c15: char, c16: char, c17: char, c18: char, c19: char, c20: char, k: CharClasses)
    requires IsSeparator(c0, k) && IsSeparator(c1, k) && !IsSeparator(c2, k)
      && !IsSeparator(c3, k) && !IsSeparator(c4, k) && !IsSeparator(c5, k)
      && !IsSeparator(c6, k) && IsSeparator(c7, k) && !IsSeparator(c8, k)
      && !IsSeparator(c9, k) && !IsSeparator(c10, k) && !IsSeparator(c11, k)
      && IsSeparator(c12, k) && !IsSeparator(c13, k) && !IsSeparator(c14, k)
      && !IsSeparator(c15, k) && !IsSeparator(c16, k) && !IsSeparator(c17, k)
      && IsSeparator(c18, k) && IsSeparator(c19, k) && IsSeparator(c20, k)
    ensures CollapseRun([c0] + ([c1] + ([c2] + ([c3] + ([c4] + ([c5] + ([c6] + ([c7] + ([c8] + ([c9] + ([c10] + ([c11] + ([c12] + ([c13] + ([c14] + ([c15] + ([c16] + ([c17] + ([c18] + ([c19] + ([c20] + [])))))))))))))))))))), k, false)
         == ['-'] + ([c2] + ([c3] + ([c4] + ([c5] + ([c6] + (['-'] + ([c8] + ([c9] + ([c10] + ([c11] + (['-'] + ([c13] + ([c14] + ([c15] + ([c16] + ([c17] + (['-'] + [])))))))))))))))))
  {
    var t21: string := [];
    var t20 := [c20] + t21;
    var t19 := [c19] + t20;
    var t18 := [c18] + t19;
    var t17 := [c17] + t18;
    var t16 := [c16] + t17;
    var t15 := [c15] + t16;
    var t14 := [c14] + t15;
    var t13 := [c13] + t14;
    var t12 := [c12] + t13;
    var t11 := [c11] + t12;
    var t10 := [c10] + t11;
    var t9 := [c9] + t10;
    var t8 := [c8] + t9;
    var t7 := [c7] + t8;
    var t6 := [c6] + t7;
    var t5 := [c5] + t6;
    var t4 := [c4] + t5;
    var t3 := [c3] + t4;
    var t2 := [c2] + t3;
    var t1 := [c1] + t2;
    var t0 := [c0] + t1;
    CollapseRunStart(c0, t1, k);
    CollapseRunRest(c1, t2, k);
    CollapseWord(c2, t3, k, true);
    CollapseWord(c3, t4, k, false);
    CollapseWord(c4, t5, k, false);
    CollapseWord(c5, t6, k, false);
    CollapseWord(c6, t7, k, false);
    CollapseRunStart(c7, t8, k);
    CollapseWord(c8, t9, k, true);
    CollapseWord(c9, t10, k, false);
    CollapseWord(c10, t11, k, false);
    CollapseWord(c11, t12, k, false);
    CollapseRunStart(c12, t13, k);
    CollapseWord(c13, t14, k, true);
    CollapseWord(c14, t15, k, false);
    CollapseWord(c15, t16, k, false);
    CollapseWord(c16, t17, k, false);
    CollapseWord(c17, t18, k, false);
    CollapseRunStart(c18, t19, k);
    CollapseRunRest(c19, t20, k);
    CollapseRunRest(c20, t21, k);
  }

  lemma Row15Strip(c0: char, c1: char, c2: char, c3: char, c4: char, c5: char, c6: char, c7: char, c8: char, c9: char, c10: char, c11: char, c12: char, c13: char, c14: char, c15: char, c16: char, c17: char)
    requires IsStripChar(c0) && !IsStripChar(c1) && !IsStripChar(c16) && IsStripChar(c17)
    ensures Strip([c0] + ([c1] + ([c2] + ([c3] + ([c4] + ([c5] + ([c6] + ([c7] + ([c8] + ([c9] + ([c10] + ([c11] + ([c12] + ([c13] + ([c14] + ([c15] + ([c16] + ([c17] + []))))))))))))))))))
         == [c1] + ([c2] + ([c3] + ([c4] + ([c5] + ([c6] + ([c7] + ([c8] + ([c9] + ([c10] + ([c11] + ([c12] + ([c13] + ([c14] + ([c15] + ([c16] + [])))))))))))))))
  {
    var t18: string := [];
    var t17 := [c17] + t18;
    var t16 := [c16] + t17;
    var t15 := [c15] + t16;
    var t14 := [c14] + t15;
    var t13 := [c13] + t14;
    var t12 := [c12] + t13;
    var t11 := [c11] + t12;
    var t10 := [c10] + t11;
    var t9 := [c9] + t10;
    var t8 := [c8] + t9;
    var t7 := [c7] + t8;
    var t6 := [c6] + t7;
    var t5 := [c5] + t6;
    var t4 := [c4] + t5;
    var t3 := [c3] + t4;
    var t2 := [c2] + t3;
    var t1 := [c1] + t2;
    var t0 := [c0] + t1;
    StripLeadingSkip(c0, t1);
    StripLeadingStop(c1, t2);
    StripTrailingSkip(c17, t18);
    StripTrailingStop(c16, t17);
    StripTrailingKeep(c15, t16);
    StripTrailingKeep(c14, t15);
    StripTrailingKeep(c13, t14);
    StripTrailingKeep(c12, t13);
    StripTrailingKeep(c11, t12);
    StripTrailingKeep(c10, t11);
    StripTrailingKeep(c9, t10);
    StripTrailingKeep(c8, t9);
    StripTrailingKeep(c7, t8);
    StripTrailingKeep(c6, t7);
    StripTrailingKeep(c5, t6);
    StripTrailingKeep(c4, t5);
    StripTrailingKeep(c3, t4);
    StripTrailingKeep(c2, t3);
    StripTrailingKeep(c1, t2);
  }

  lemma Row15Chars(u: UnicodeDb)
    requires NfkdFixesAscii(u)
    ensures Slugify(['-'] + (['-'] + (['s'] + (['t'] + (['r'] + (['i'] + (['p'] + (['-'] + (['d'] + (['a'] + (['s'] + (['h'] + (['-'] + (['v'] + (['a'] + (['l'] + (['u'] + (['e'] + (['-'] + (['-'] + (['-'] + [])))))))))))))))))))), false, u)
         == [AsciiLowerChar('s')] + ([AsciiLowerChar('t')] + ([AsciiLowerChar('r')] + ([AsciiLowerChar('i')] + ([AsciiLowerChar('p')] + (['-'] + ([AsciiLowerChar('d')] + ([AsciiLowerChar('a')] + ([AsciiLowerChar('s')] + ([AsciiLowerChar('h')] + (['-'] + ([AsciiLowerChar('v')] + ([AsciiLowerChar('a')] + ([AsciiLowerChar('l')] + ([AsciiLowerChar('u')] + ([AsciiLowerChar('e')] + [])))))))))))))))
  {
    Row15Lower('-', '-', 's', 't', 'r', 'i', 'p', '-', 'd', 'a', 's', 'h', '-', 'v', 'a', 'l', 'u', 'e', '-', '-', '-');
    Row15Keep(AsciiLowerChar('-'), AsciiLowerChar('-'), AsciiLowerChar('s'), AsciiLowerChar('t'), AsciiLowerChar('r'), AsciiLowerChar('i'), AsciiLowerChar('p'), AsciiLowerChar('-'), AsciiLowerChar('d'), AsciiLowerChar('a'), AsciiLowerChar('s'), AsciiLowerChar('h'), AsciiLowerChar('-'), AsciiLowerChar('v'), AsciiLowerChar('a'), AsciiLowerChar('l'), AsciiLowerChar('u'), AsciiLowerChar('e'), AsciiLowerChar('-'), AsciiLowerChar('-'), AsciiLowerChar('-'), AsciiClasses);
    Row15Collapse(AsciiLowerChar('-'), AsciiLowerChar('-'), AsciiLowerChar('s'), AsciiLowerChar('t'), AsciiLowerChar('r'), AsciiLowerChar('i'), AsciiLowerChar('p'), AsciiLowerChar('-'), AsciiLowerChar('d'), AsciiLowerChar('a'), AsciiLowerChar('s'), AsciiLowerChar('h'), AsciiLowerChar('-'), AsciiLowerChar('v'), AsciiLowerChar('a'), AsciiLowerChar('l'), AsciiLowerChar('u'), AsciiLowerChar('e'), AsciiLowerChar('-'), AsciiLowerChar('-'), AsciiLowerChar('-'), AsciiClasses);
    Row15Strip('-', AsciiLowerChar('s'), AsciiLowerChar('t'), AsciiLowerChar('r'), AsciiLowerChar('i'), AsciiLowerChar('p'), '-', AsciiLowerChar('d'), AsciiLowerChar('a'), AsciiLowerChar('s'), AsciiLowerChar('h'), '-', AsciiLowerChar('v'), AsciiLowerChar('a'), AsciiLowerChar('l'), AsciiLowerChar('u'), AsciiLowerChar('e'), '-');
    AsciiSlugifyOfAscii(['-'] + (['-'] + (['s'] + (['t'] + (['r'] + (['i'] + (['p'] + (['-'] + (['d'] + (['a'] + (['s'] + (['h'] + (['-'] + (['v'] + (['a'] + (['l'] + (['u'] + (['e'] + (['-'] + (['-'] + (['-'] + [])))))))))))))))))))), u);
  }

  lemma Row15Input()
    ensures "--strip-dash-value---"
         == ['-'] + (['-'] + (['s'] + (['t'] + (['r'] + (['i'] + (['p'] + (['-'] + (['d'] + (['a'] + (['s'] + (['h'] + (['-'] + (['v'] + (['a'] + (['l'] + (['u'] + (['e'] + (['-'] + (['-'] + (['-'] + []))))))))))))))))))))
  {
    var s, t := "--strip-dash-value---", ['-'] + (['-'] + (['s'] + (['t'] + (['r'] + (['i'] + (['p'] + (['-'] + (['d'] + (['a'] + (['s'] + (['h'] + (['-'] + (['v'] + (['a'] + (['l'] + (['u'] + (['e'] + (['-'] + (['-'] + (['-'] + []))))))))))))))))))));
    assert |s| == |t| == 21;
    forall i | 0 <= i < 4 ensures s[i] == t[i] {
    }
    forall i | 4 <= i < 8 ensures s[i] == t[i] {
    }
    forall i | 8 <= i < 12 ensures s[i] == t[i] {
    }
    forall i | 12 <= i < 16 ensures s[i] == t[i] {
    }
    forall i | 16 <= i < 20 ensures s[i] == t[i] {
    }
    forall i | 20 <= i < 21 ensures s[i] == t[i] {
    }
  }

  lemma Row15Output()
    ensures "strip-dash-value"
         == [AsciiLowerChar('s')] + ([AsciiLowerChar('t')] + ([AsciiLowerChar('r')] + ([AsciiLowerChar('i')] + ([AsciiLowerChar('p')] + (['-'] + ([AsciiLowerChar('d')] + ([AsciiLowerChar('a')] + ([AsciiLowerChar('s')] + ([AsciiLowerChar('h')] + (['-'] + ([AsciiLowerChar('v')] + ([AsciiLowerChar('a')] + ([AsciiLowerChar('l')] + ([AsciiLowerChar('u')] + ([AsciiLowerChar('e')] + [])))))))))))))))
  {
    var s, t := "strip-dash-value", [AsciiLowerChar('s')] + ([AsciiLowerChar('t')] + ([AsciiLowerChar('r')] + ([AsciiLowerChar('i')] + ([AsciiLowerChar('p')] + (['-'] + ([AsciiLowerChar('d')] + ([AsciiLowerChar('a')] + ([AsciiLowerChar('s')] + ([AsciiLowerChar('h')] + (['-'] + ([AsciiLowerChar('v')] + ([AsciiLowerChar('a')] + ([AsciiLowerChar('l')] + ([AsciiLowerChar('u')] + ([AsciiLowerChar('e')] + [])))))))))))))));
    assert |s| == |t| == 16;
    forall i | 0 <= i < 4 ensures s[i] == t[i] {
    }
    forall i | 4 <= i < 8 ensures s[i] == t[i] {
    }
    forall i | 8 <= i < 12 ensures s[i] == t[i] {
    }
    forall i | 12 <= i < 16 ensures s[i] == t[i] {
    }
  }

  lemma SlugTestRow15(u: UnicodeDb)
    requires NfkdFixesAscii(u)
    ensures Slugify("--strip-dash-value---", false, u) == "strip-dash-value"
  {
    Row15Input();
    Row15Chars(u);
    Row15Output();
  }

  // tests/test_utils.py:16: "__strip-mixed-value---" becomes "strip-mixed-value".

  lemma Row16Lower(c0: char, c1: char, c2: char, c3: char, c4: char, c5: char, c6: char, c7: char, c8: char, c9: char, c10: char, c11: char, c12: char, c13: char, c14: char, c15: char, c16: char, c17: char, c18: char, c19: char, c20: char, c21: char)
    requires IsAsciiChar(c0) && IsAsciiChar(c1) && IsAsciiChar(c2) && IsAsciiChar(c3)
      && IsAsciiChar(c4) && IsAsciiChar(c5) && IsAsciiChar(c6) && IsAsciiChar(c7)
      && IsAsciiChar(c8) && IsAsciiChar(c9) && IsAsciiChar(c10) && IsAsciiChar(c11)
      && IsAsciiChar(c12) && IsAsciiChar(c13) && IsAsciiChar(c14) && IsAsciiChar(c15)
      && IsAsciiChar(c16) && IsAsciiChar(c17) && IsAsciiChar(c18) && IsAsciiChar(c19)
      && IsAsciiChar(c20) && IsAsciiChar(c21)
    ensures IsAscii([c0] + ([c1] + ([c2] + ([c3] + ([c4] + ([c5] + ([c6] + ([c7] + ([c8] + ([c9] + ([c10] + ([c11] + ([c12] + ([c13] + ([c14] + ([c15] + ([c16] + ([c17] + ([c18] + ([c19] + ([c20] + ([c21] + []))))))))))))))))))))))
    ensures AsciiLower([c0] + ([c1] + ([c2] + ([c3] + ([c4] + ([c5] + ([c6] + ([c7] + ([c8] + ([c9] + ([c10] + ([c11] + ([c12] + ([c13] + ([c14] + ([c15] + ([c16] + ([c17] + ([c18] + ([c19] + ([c20] + ([c21] + []))))))))))))))))))))))
         == [AsciiLowerChar(c0)] + ([AsciiLowerChar(c1)] + ([AsciiLowerChar(c2)] + ([AsciiLowerChar(c3)] + ([AsciiLowerChar(c4)] + ([AsciiLowerChar(c5)] + ([AsciiLowerChar(c6)] + ([AsciiLowerChar(c7)] + ([AsciiLowerChar(c8)] + ([AsciiLowerChar(c9)] + ([AsciiLowerChar(c10)] + ([AsciiLowerChar(c11)] + ([AsciiLowerChar(c12)] + ([AsciiLowerChar(c13)] + ([AsciiLowerChar(c14)] + ([AsciiLowerChar(c15)] + ([AsciiLowerChar(c16)] + ([AsciiLowerChar(c17)] + ([AsciiLowerChar(c18)] + ([AsciiLowerChar(c19)] + ([AsciiLowerChar(c20)] + ([AsciiLowerChar(c21)] + [])))))))))))))))))))))
  {
    var t22: string := [];
    var t21 := [c21] + t22;
    var t20 := [c20] + t21;
    var t19 := [c19] + t20;
    var t18 := [c18] + t19;
    var t17 := [c17] + t18;
    var t16 := [c16] + t17;
    var t15 := [c15] + t16;
    var t14 := [c14] + t15;
    var t13 := [c13] + t14;
    var t12 := [c12] + t13;
    var t11 := [c11] + t12;
    var t10 := [c10] + t11;
    var t9 := [c9] + t10;
    var t8 := [c8] + t9;
    var t7 := [c7] + t8;
    var t6 := [c6] + t7;
    var t5 := [c5] + t6;
    var t4 := [c4] + t5;
    var t3 := [c3] + t4;
    var t2 := [c2] + t3;
    var t1 := [c1] + t2;
    var t0 := [c0] + t1;
    AsciiCons(c21, t22);
    AsciiCons(c20, t21);
    AsciiCons(c19, t20);
    AsciiCons(c18, t19);
    AsciiCons(c17, t18);
    AsciiCons(c16, t17);
    AsciiCons(c15, t16);
    AsciiCons(c14, t15);
    AsciiCons(c13, t14);
    AsciiCons(c12, t13);
    AsciiCons(c11, t12);
    AsciiCons(c10, t11);
    AsciiCons(c9, t10);
    AsciiCons(c8, t9);
    AsciiCons(c7, t8);
    AsciiCons(c6, t7);
    AsciiCons(c5, t6);
    AsciiCons(c4, t5);
    AsciiCons(c3, t4);
    AsciiCons(c2, t3);
    AsciiCons(c1, t2);
    AsciiCons(c0, t1);
    LowerCons(c0, t1);
    LowerCons(c1, t2);
    LowerCons(c2, t3);
    LowerCons(c3, t4);
    LowerCons(c4, t5);
    LowerCons(c5, t6);
    LowerCons(c6, t7);
    LowerCons(c7, t8);
    LowerCons(c8, t9);
    LowerCons(c9, t10);
    LowerCons(c10, t11);
    LowerCons(c11, t12);
    LowerCons(c12, t13);
    LowerCons(c13, t14);
    LowerCons(c14, t15);
    LowerCons(c15, t16);
    LowerCons(c16, t17);
    LowerCons(c17, t18);
    LowerCons(c18, t19);
    LowerCons(c19, t20);
    LowerCons(c20, t21);
    LowerCons(c21, t22);
  }

  lemma Row16Keep(c0: char, c1: char, c2: char, c3: char, c4: char, c5: char, c6: char, c7: char, c8: char, c9: char, c10: char, c11: char, c12: char, c13: char, c14: char, c15: char, c16: char, c17: char, c18: char, c19: char, c20: char, c21: char, k: CharClasses)
    requires IsSlugSourceChar(c0, k) && IsSlugSourceChar(c1, k) && IsSlugSourceChar(c2, k)
      && IsSlugSourceChar(c3, k) && IsSlugSourceChar(c4, k) && IsSlugSourceChar(c5, k)
      && IsSlugSourceChar(c6, k) && IsSlugSourceChar(c7, k) && IsSlugSourceChar(c8, k)
      && IsSlugSourceChar(c9, k) && IsSlugSourceChar(c10, k)
      && IsSlugSourceChar(c11, k) && IsSlugSourceChar(c12, k)
      && IsSlugSourceChar(c13, k) && IsSlugSourceChar(c14, k)
      && IsSlugSourceChar(c15, k) && IsSlugSourceChar(c16, k)
      && IsSlugSourceChar(c17, k) && IsSlugSourceChar(c18, k)
      && IsSlugSourceChar(c19, k) && IsSlugSourceChar(c20, k)
      && IsSlugSourceChar(c21, k)
    ensures KeepSlugSource([c0] + ([c1] + ([c2] + ([c3] + ([c4] + ([c5] + ([c6] + ([c7] + ([c8] + ([c9] + ([c10] + ([c11] + ([c12] + ([c13] + ([c14] + ([c15] + ([c16] + ([c17] + ([c18] + ([c19] + ([c20] + ([c21] + []))))))))))))))))))))), k)
         == [c0] + ([c1] + ([c2] + ([c3] + ([c4] + ([c5] + ([c6] + ([c7] + ([c8] + ([c9] + ([c10] + ([c11] + ([c12] + ([c13] + ([c14] + ([c15] + ([c16] + ([c17] + ([c18] + ([c19] + ([c20] + ([c21] + [])))))))))))))))))))))
  {
    var t22: string := [];
    var t21 := [c21] + t22;
    var t20 := [c20] + t21;
    var t19 := [c19] + t20;
    var t18 := [c18] + t19;
    var t17 := [c17] + t18;
    var t16 := [c16] + t17;
    var t15 := [c15] + t16;
    var t14 := [c14] + t15;
    var t13 := [c13] + t14;
    var t12 := [c12] + t13;
    var t11 := [c11] + t12;
    var t10 := [c10] + t11;
    var t9 := [c9] + t10;
    var t8 := [c8] + t9;
    var t7 := [c7] + t8;
    var t6 := [c6] + t7;
    var t5 := [c5] + t6;
    var t4 := [c4] + t5;
    var t3 := [c3] + t4;
    var t2 := [c2] + t3;
    var t1 := [c1] + t2;
    var t0 := [c0] + t1;
    KeepKept(c0, t1, k);
    KeepKept(c1, t2, k);
    KeepKept(c2, t3, k);
    KeepKept(c3, t4, k);
    KeepKept(c4, t5, k);
    KeepKept(c5, t6, k);
    KeepKept(c6, t7, k);
    KeepKept(c7, t8, k);
    KeepKept(c8, t9, k);
    KeepKept(c9, t10, k);
    KeepKept(c10, t11, k);
    KeepKept(c11, t12, k);
    KeepKept(c12, t13, k);
    KeepKept(c13, t14, k);
    KeepKept(c14, t15, k);
    KeepKept(c15, t16, k);
    KeepKept(c16, t17, k);
    KeepKept(c17, t18, k);
    KeepKept(c18, t19, k);
    KeepKept(c19, t20, k);
    KeepKept(c20, t21, k);
    KeepKept(c21, t22, k);
  }

  lemma Row16Collapse(c0: char, c1: char, c2: char, c3: char, c4: char, c5: char, c6: char, c7: char, c8: char, c9: char, c10: char, c11: char, c12: char, c13: char, c14: char, c15: char, c16: char, c17: char, c18: char, c19: char, c20: char, c21: char, k: CharClasses)
    requires !IsSeparator(c0, k) && !IsSeparator(c1, k) && !IsSeparator(c2, k)
      && !IsSeparator(c3, k) && !IsSeparator(c4, k) && !IsSeparator(c5, k)
      && !IsSeparator(c6, k) && IsSeparator(c7, k) && !IsSeparator(c8, k)
      && !IsSeparator(c9, k) && !IsSeparator(c10, k) && !IsSeparator(c11, k)
      && !IsSeparator(c12, k) && IsSeparator(c13, k) && !IsSeparator(c14, k)
      && !IsSeparator(c15, k) && !IsSeparator(c16, k) && !IsSeparator(c17, k)
      && !IsSeparator(c18, k) && IsSeparator(c19, k) && IsSeparator(c20, k)
      && IsSeparator(c21, k)
    ensures CollapseRun([c0] + ([c1] + ([c2] + ([c3] + ([c4] + ([c5] + ([c6] + ([c7] + ([c8] + ([c9] + ([c10] + ([c11] + ([c12] + ([c13] + ([c14] + ([c15] + ([c16] + ([c17] + ([c18] + ([c19] + ([c20] + ([c21] + []))))))))))))))))))))), k, false)
         == [c0] + ([c1] + ([c2] + ([c3] + ([c4] + ([c5] + ([c6] + (['-'] + ([c8] + ([c9] + ([c10] + ([c11] + ([c12] + (['-'] + ([c14] + ([c15] + ([c16] + ([c17] + ([c18] + (['-'] + [])))))))))))))))))))
  {
    var t22: string := [];
    var t21 := [c21] + t22;
    var t20 := [c20] + t21;
    var t19 := [c19] + t20;
    var t18 := [c18] + t19;
    var t17 := [c17] + t18;
    var t16 := [c16] + t17;
    var t15 := [c15] + t16;
    var t14 := [c14] + t15;
    var t13 := [c13] + t14;
    var t12 := [c12] + t13;
    var t11 := [c11] + t12;
    var t10 := [c10] + t11;
    var t9 := [c9] + t10;
    var t8 := [c8] + t9;
    var t7 := [c7] + t8;
    var t6 := [c6] + t7;
    var t5 := [c5] + t6;
    var t4 := [c4] + t5;
    var t3 := [c3] + t4;
    var t2 := [c2] + t3;
    var t1 := [c1] + t2;
    var t0 := [c0] + t1;
    CollapseWord(c0, t1, k, false);
    CollapseWord(c1, t2, k, false);
    CollapseWord(c2, t3, k, false);
    CollapseWord(c3, t4, k, false);
    CollapseWord(c4, t5, k, false);
    CollapseWord(c5, t6, k, false);
    CollapseWord(c6, t7, k, false);
    CollapseRunStart(c7, t8, k);
    CollapseWord(c8, t9, k, true);
    CollapseWord(c9, t10, k, false);
    CollapseWord(c10, t11, k, false);
    CollapseWord(c11, t12, k, false);
    CollapseWord(c12, t13, k, false);
    CollapseRunStart(c13, t14, k);
    CollapseWord(c14, t15, k, true);
    CollapseWord(c15, t16, k, false);
    CollapseWord(c16, t17, k, false);
    CollapseWord(c17, t18, k, false);
    CollapseWord(c18, t19, k, false);
    CollapseRunStart(c19, t20, k);
    CollapseRunRest(c20, t21, k);
    CollapseRunRest(c21, t22, k);
  }

  lemma Row16Strip(c0: char, c1: char, c2: char, c3: char, c4: char, c5: char, c6: char, c7: char, c8: char, c9: char, c10: char, c11: char, c12: char, c13: char, c14: char, c15: char, c16: char, c17: char, c18: char, c19: char)
    requires IsStripChar(c0) && IsStripChar(c1) && !IsStripChar(c2) && !IsStripChar(c18)
      && IsStripChar(c19)
    ensures Strip([c0] + ([c1] + ([c2] + ([c3] + ([c4] + ([c5] + ([c6] + ([c7] + ([c8] + ([c9] + ([c10] + ([c11] + ([c12] + ([c13] + ([c14] + ([c15] + ([c16] + ([c17] + ([c18] + ([c19] + []))))))))))))))))))))
         == [c2] + ([c3] + ([c4] + ([c5] + ([c6] + ([c7] + ([c8] + ([c9] + ([c10] + ([c11] + ([c12] + ([c13] + ([c14] + ([c15] + ([c16] + ([c17] + ([c18] + []))))))))))))))))
  {
    var t20: string := [];
    var t19 := [c19] + t20;
    var t18 := [c18] + t19;
    var t17 := [c17] + t18;
    var t16 := [c16] + t17;
    var t15 := [c15] + t16;
    var t14 := [c14] + t15;
    var t13 := [c13] + t14;
    var t12 := [c12] + t13;
    var t11 := [c11] + t12;
    var t10 := [c10] + t11;
    var t9 := [c9] + t10;
    var t8 := [c8] + t9;
    var t7 := [c7] + t8;
    var t6 := [c6] + t7;
    var t5 := [c5] + t6;
    var t4 := [c4] + t5;
    var t3 := [c3] + t4;
    var t2 := [c2] + t3;
    var t1 := [c1] + t2;
    var t0 := [c0] + t1;
    StripLeadingSkip(c0, t1);
    StripLeadingSkip(c1, t2);
    StripLeadingStop(c2, t3);
    StripTrailingSkip(c19, t20);
    StripTrailingStop(c18, t19);
    StripTrailingKeep(c17, t18);
    StripTrailingKeep(c16, t17);
    StripTrailingKeep(c15, t16);
    StripTrailingKeep(c14, t15);
    StripTrailingKeep(c13, t14);
    StripTrailingKeep(c12, t13);
    StripTrailingKeep(c11, t12);
    StripTrailingKeep(c10, t11);
    StripTrailingKeep(c9, t10);
    StripTrailingKeep(c8, t9);
    StripTrailingKeep(c7, t8);
    StripTrailingKeep(c6, t7);
    StripTrailingKeep(c5, t6);
    StripTrailingKeep(c4, t5);
    StripTrailingKeep(c3, t4);
    StripTrailingKeep(c2, t3);
  }

  lemma Row16Chars(u: UnicodeDb)
    requires NfkdFixesAscii(u)
    ensures Slugify(['_'] + (['_'] + (['s'] + (['t'] + (['r'] + (['i'] + (['p'] + (['-'] + (['m'] + (['i'] + (['x'] + (['e'] + (['d'] + (['-'] + (['v'] + (['a'] + (['l'] + (['u'] + (['e'] + (['-'] + (['-'] + (['-'] + []))))))))))))))))))))), false, u)
         == [AsciiLowerChar('s')] + ([AsciiLowerChar('t')] + ([AsciiLowerChar('r')] + ([AsciiLowerChar('i')] + ([AsciiLowerChar('p')] + (['-'] + ([AsciiLowerChar('m')] + ([AsciiLowerChar('i')] + ([AsciiLowerChar('x')] + ([AsciiLowerChar('e')] + ([AsciiLowerChar('d')] + (['-'] + ([AsciiLowerChar('v')] + ([AsciiLowerChar('a')] + ([AsciiLowerChar('l')] + ([AsciiLowerChar('u')] + ([AsciiLowerChar('e')] + []))))))))))))))))
  {
    Row16Lower('_', '_', 's', 't', 'r', 'i', 'p', '-', 'm', 'i', 'x', 'e', 'd', '-', 'v', 'a', 'l', 'u', 'e', '-', '-', '-');
    Row16Keep(AsciiLowerChar('_'), AsciiLowerChar('_'), AsciiLowerChar('s'), AsciiLowerChar('t'), AsciiLowerChar('r'), AsciiLowerChar('i'), AsciiLowerChar('p'), AsciiLowerChar('-'), AsciiLowerChar('m'), AsciiLowerChar('i'), AsciiLowerChar('x'), AsciiLowerChar('e'), AsciiLowerChar('d'), AsciiLowerChar('-'), AsciiLowerChar('v'), AsciiLowerChar('a'), AsciiLowerChar('l'), AsciiLowerChar('u'), AsciiLowerChar('e'), AsciiLowerChar('-'), AsciiLowerChar('-'), AsciiLowerChar('-'), AsciiClasses);
    Row16Collapse(AsciiLowerChar('_'), AsciiLowerChar('_'), AsciiLowerChar('s'), AsciiLowerChar('t'), AsciiLowerChar('r'), AsciiLowerChar('i'), AsciiLowerChar('p'), AsciiLowerChar('-'), AsciiLowerChar('m'), AsciiLowerChar('i'), AsciiLowerChar('x'), AsciiLowerChar('e'), AsciiLowerChar('d'), AsciiLowerChar('-'), AsciiLowerChar('v'), AsciiLowerChar('a'), AsciiLowerChar('l'), AsciiLowerChar('u'), AsciiLowerChar('e'), AsciiLowerChar('-'), AsciiLowerChar('-'), AsciiLowerChar('-'), AsciiClasses);
    Row16Strip(AsciiLowerChar('_'), AsciiLowerChar('_'), AsciiLowerChar('s'), AsciiLowerChar('t'), AsciiLowerChar('r'), AsciiLowerChar('i'), AsciiLowerChar('p'), '-', AsciiLowerChar('m'), AsciiLowerChar('i'), AsciiLowerChar('x'), AsciiLowerChar('e'), AsciiLowerChar('d'), '-', AsciiLowerChar('v'), AsciiLowerChar('a'), AsciiLowerChar('l'), AsciiLowerChar('u'), AsciiLowerChar('e'), '-');
    AsciiSlugifyOfAscii(['_'] + (['_'] + (['s'] + (['t'] + (['r'] + (['i'] + (['p'] + (['-'] + (['m'] + (['i'] + (['x'] + (['e'] + (['d'] + (['-'] + (['v'] + (['a'] + (['l'] + (['u'] + (['e'] + (['-'] + (['-'] + (['-'] + []))))))))))))))))))))), u);
  }

  lemma Row16Input()
    ensures "__strip-mixed-value---"
         == ['_'] + (['_'] + (['s'] + (['t'] + (['r'] + (['i'] + (['p'] + (['-'] + (['m'] + (['i'] + (['x'] + (['e'] + (['d'] + (['-'] + (['v'] + (['a'] + (['l'] + (['u'] + (['e'] + (['-'] + (['-'] + (['-'] + [])))))))))))))))))))))
  {
    var s, t := "__strip-mixed-value---", ['_'] + (['_'] + (['s'] + (['t'] + (['r'] + (['i'] + (['p'] + (['-'] + (['m'] + (['i'] + (['x'] + (['e'] + (['d'] + (['-'] + (['v'] + (['a'] + (['l'] + (['u'] + (['e'] + (['-'] + (['-'] + (['-'] + [])))))))))))))))))))));
    assert |s| == |t| == 22;
    forall i | 0 <= i < 4 ensures s[i] == t[i] {
    }
    forall i | 4 <= i < 8 ensures s[i] == t[i] {
    }
    forall i | 8 <= i < 12 ensures s[i] == t[i] {
    }
    forall i | 12 <= i < 16 ensures s[i] == t[i] {
    }
    forall i | 16 <= i < 20 ensures s[i] == t[i] {
    }
    forall i | 20 <= i < 22 ensures s[i] == t[i] {
    }
  }

  lemma Row16Output()
    ensures "strip-mixed-value"
         == [AsciiLowerChar('s')] + ([AsciiLowerChar('t')] + ([AsciiLowerChar('r')] + ([AsciiLowerChar('i')] + ([AsciiLowerChar('p')] + (['-'] + ([AsciiLowerChar('m')] + ([AsciiLowerChar('i')] + ([AsciiLowerChar('x')] + ([AsciiLowerChar('e')] + ([AsciiLowerChar('d')] + (['-'] + ([AsciiLowerChar('v')] + ([AsciiLowerChar('a')] + ([AsciiLowerChar('l')] + ([AsciiLowerChar('u')] + ([AsciiLowerChar('e')] + []))))))))))))))))
  {
    var s, t := "strip-mixed-value", [AsciiLowerChar('s')] + ([AsciiLowerChar('t')] + ([AsciiLowerChar('r')] + ([AsciiLowerChar('i')] + ([AsciiLowerChar('p')] + (['-'] + ([AsciiLowerChar('m')] + ([AsciiLowerChar('i')] + ([AsciiLowerChar('x')] + ([AsciiLowerChar('e')] + ([AsciiLowerChar('d')] + (['-'] + ([AsciiLowerChar('v')] + ([AsciiLowerChar('a')] + ([AsciiLowerChar('l')] + ([AsciiLowerChar('u')] + ([AsciiLowerChar('e')] + []))))))))))))))));
    assert |s| == |t| == 17;
    forall i | 0 <= i < 4 ensures s[i] == t[i] {
    }
    forall i | 4 <= i < 8 ensures s[i] == t[i] {
    }
    forall i | 8 <= i < 12 ensures s[i] == t[i] {
    }
    forall i | 12 <= i < 16 ensures s[i] == t[i] {
    }
    forall i | 16 <= i < 17 ensures s[i] == t[i] {
    }
  }

  lemma SlugTestRow16(u: UnicodeDb)
    requires NfkdFixesAscii(u)
    ensures Slugify("__strip-mixed-value---", false, u) == "strip-mixed-value"
  {
    Row16Input();
    Row16Chars(u);
    Row16Output();
  }

  // tests/test_utils.py:17: "_ -strip-mixed-value _-" becomes "strip-mixed-value".

  lemma Row17Lower(c0: char, c1: char, c2: char, c3: char, c4: char, c5: char, c6: char, c7: char, c8: char, c9: char, c10: char, c11: char, c12: char, c13: char, c14: char, c15: char, c16: char, c17: char, c18: char, c19: char, c20: char, c21: char, c22: char)
    requires IsAsciiChar(c0) && IsAsciiChar(c1) && IsAsciiChar(c2) && IsAsciiChar(c3)
      && IsAsciiChar(c4) && IsAsciiChar(c5) && IsAsciiChar(c6) && IsAsciiChar(c7)
      && IsAsciiChar(c8) && IsAsciiChar(c9) && IsAsciiChar(c10) && IsAsciiChar(c11)
      && IsAsciiChar(c12) && IsAsciiChar(c13) && IsAsciiChar(c14) && IsAsciiChar(c15)
      && IsAsciiChar(c16) && IsAsciiChar(c17) && IsAsciiChar(c18) && IsAsciiChar(c19)
      && IsAsciiChar(c20) && IsAsciiChar(c21) && IsAsciiChar(c22)
    ensures IsAscii([c0] + ([c1] + ([c2] + ([c3] + ([c4] + ([c5] + ([c6] + ([c7] + ([c8] + ([c9] + ([c10] + ([c11] + ([c12] + ([c13] + ([c14] + ([c15] + ([c16] + ([c17] + ([c18] + ([c19] + ([c20] + ([c21] + ([c22] + [])))))))))))))))))))))))
    ensures AsciiLower([c0] + ([c1] + ([c2] + ([c3] + ([c4] + ([c5] + ([c6] + ([c7] + ([c8] + ([c9] + ([c10] + ([c11] + ([c12] + ([c13] + ([c14] + ([c15] + ([c16] + ([c17] + ([c18] + ([c19] + ([c20] + ([c21] + ([c22] + [])))))))))))))))))))))))
         == [AsciiLowerChar(c0)] + ([AsciiLowerChar(c1)] + ([AsciiLowerChar(c2)] + ([AsciiLowerChar(c3)] + ([AsciiLowerChar(c4)] + ([AsciiLowerChar(c5)] + ([AsciiLowerChar(c6)] + ([AsciiLowerChar(c7)] + ([AsciiLowerChar(c8)] + ([AsciiLowerChar(c9)] + ([AsciiLowerChar(c10)] + ([AsciiLowerChar(c11)] + ([AsciiLowerChar(c12)] + ([AsciiLowerChar(c13)] + ([AsciiLowerChar(c14)] + ([AsciiLowerChar(c15)] + ([AsciiLowerChar(c16)] + ([AsciiLowerChar(c17)] + ([AsciiLowerChar(c18)] + ([AsciiLowerChar(c19)] + ([AsciiLowerChar(c20)] + ([AsciiLowerChar(c21)] + ([AsciiLowerChar(c22)] + []))))))))))))))))))))))
  {
    var t23: string := [];
    var t22 := [c22] + t23;
    var t21 := [c21] + t22;
    var t20 := [c20] + t21;
    var t19 := [c19] + t20;
    var t18 := [c18] + t19;
    var t17 := [c17] + t18;
    var t16 := [c16] + t17;
    var t15 := [c15] + t16;
    var t14 := [c14] + t15;
    var t13 := [c13] + t14;
    var t12 := [c12] + t13;
    var t11 := [c11] + t12;
    var t10 := [c10] + t11;
    var t9 := [c9] + t10;
    var t8 := [c8] + t9;
    var t7 := [c7] + t8;
    var t6 := [c6] + t7;
    var t5 := [c5] + t6;
    var t4 := [c4] + t5;
    var t3 := [c3] + t4;
    var t2 := [c2] + t3;
    var t1 := [c1] + t2;
    var t0 := [c0] + t1;
    AsciiCons(c22, t23);
    AsciiCons(c21, t22);
    AsciiCons(c20, t21);
    AsciiCons(c19, t20);
    AsciiCons(c18, t19);
    AsciiCons(c17, t18);
    AsciiCons(c16, t17);
    AsciiCons(c15, t16);
    AsciiCons(c14, t15);
    AsciiCons(c13, t14);
    AsciiCons(c12, t13);
    AsciiCons(c11, t12);
    AsciiCons(c10, t11);
    AsciiCons(c9, t10);
    AsciiCons(c8, t9);
    AsciiCons(c7, t8);
    AsciiCons(c6, t7);
    AsciiCons(c5, t6);
    AsciiCons(c4, t5);
    AsciiCons(c3, t4);
    AsciiCons(c2, t3);
    AsciiCons(c1, t2);
    AsciiCons(c0, t1);
    LowerCons(c0, t1);
    LowerCons(c1, t2);
    LowerCons(c2, t3);
    LowerCons(c3, t4);
    LowerCons(c4, t5);
    LowerCons(c5, t6);
    LowerCons(c6, t7);
    LowerCons(c7, t8);
    LowerCons(c8, t9);
    LowerCons(c9, t10);
    LowerCons(c10, t11);
    LowerCons(c11, t12);
    LowerCons(c12, t13);
    LowerCons(c13, t14);
    LowerCons(c14, t15);
    LowerCons(c15, t16);
    LowerCons(c16, t17);
    LowerCons(c17, t18);
    LowerCons(c18, t19);
    LowerCons(c19, t20);
    LowerCons(c20, t21);
    LowerCons(c21, t22);
    LowerCons(c22, t23);
  }

  lemma Row17Keep(c0: char, c1: char, c2: char, c3: char, c4: char, c5: char, c6: char, c7: char, c8: char, c9: char, c10: char, c11: char, c12: char, c13: char, c14: char, c15: char, c16: char, c17: char, c18: char, c19: char, c20: char, c21: char, c22: char, k: CharClasses)
    requires IsSlugSourceChar(c0, k) && IsSlugSourceChar(c1, k) && IsSlugSourceChar(c2, k)
      && IsSlugSourceChar(c3, k) && IsSlugSourceChar(c4, k) && IsSlugSourceChar(c5, k)
      && IsSlugSourceChar(c6, k) && IsSlugSourceChar(c7, k) && IsSlugSourceChar(c8, k)
      && IsSlugSourceChar(c9, k) && IsSlugSourceChar(c10, k)
      && IsSlugSourceChar(c11, k) && IsSlugSourceChar(c12, k)
      && IsSlugSourceChar(c13, k) && IsSlugSourceChar(c14, k)
      && IsSlugSourceChar(c15, k) && IsSlugSourceChar(c16, k)
      && IsSlugSourceChar(c17, k) && IsSlugSourceChar(c18, k)
      && IsSlugSourceChar(c19, k) && IsSlugSourceChar(c20, k)
      && IsSlugSourceChar(c21, k) && IsSlugSourceChar(c22, k)
    ensures KeepSlugSource([c0] + ([c1] + ([c2] + ([c3] + ([c4] + ([c5] + ([c6] + ([c7] + ([c8] + ([c9] + ([c10] + ([c11] + ([c12] + ([c13] + ([c14] + ([c15] + ([c16] + ([c17] + ([c18] + ([c19] + ([c20] + ([c21] + ([c22] + [])))))))))))))))))))))), k)
         == [c0] + ([c1] + ([c2] + ([c3] + ([c4] + ([c5] + ([c6] + ([c7] + ([c8] + ([c9] + ([c10] + ([c11] + ([c12] + ([c13] + ([c14] + ([c15] + ([c16] + ([c17] + ([c18] + ([c19] + ([c20] + ([c21] + ([c22] + []))))))))))))))))))))))
  {
    var t23: string := [];
    var t22 := [c22] + t23;
    var t21 := [c21] + t22;
    var t20 := [c20] + t21;
    var t19 := [c19] + t20;
    var t18 := [c18] + t19;
    var t17 := [c17] + t18;
    var t16 := [c16] + t17;
    var t15 := [c15] + t16;
    var t14 := [c14] + t15;
    var t13 := [c13] + t14;
    var t12 := [c12] + t13;
    var t11 := [c11] + t12;
    var t10 := [c10] + t11;
    var t9 := [c9] + t10;
    var t8 := [c8] + t9;
    var t7 := [c7] + t8;
    var t6 := [c6] + t7;
    var t5 := [c5] + t6;
    var t4 := [c4] + t5;
    var t3 := [c3] + t4;
    var t2 := [c2] + t3;
    var t1 := [c1] + t2;
    var t0 := [c0] + t1;
    KeepKept(c0, t1, k);
    KeepKept(c1, t2, k);
    KeepKept(c2, t3, k);
    KeepKept(c3, t4, k);
    KeepKept(c4, t5, k);
    KeepKept(c5, t6, k);
    KeepKept(c6, t7, k);
    KeepKept(c7, t8, k);
    KeepKept(c8, t9, k);
    KeepKept(c9, t10, k);
    KeepKept(c10, t11, k);
    KeepKept(c11, t12, k);
    KeepKept(c12, t13, k);
    KeepKept(c13, t14, k);
    KeepKept(c14, t15, k);
    KeepKept(c15, t16, k);
    KeepKept(c16, t17, k);
    KeepKept(c17, t18, k);
    KeepKept(c18, t19, k);
    KeepKept(c19, t20, k);
    KeepKept(c20, t21, k);
    KeepKept(c21, t22, k);
    KeepKept(c22, t23, k);
  }

  lemma Row17Collapse(c0: char, c1: char, c2: char, c3: char, c4: char, c5: char, c6: char, c7: char, c8: char, c9: char, c10: char, c11: char, c12: char, c13: char, c14: char, c15: char, c16: char, c17: char, c18: char, c19: char, c20: char, c21: char, c22: char, k: CharClasses)
    requires !IsSeparator(c0, k) && IsSeparator(c1, k) && IsSeparator(c2, k)
      && !IsSeparator(c3, k) && !IsSeparator(c4, k) && !IsSeparator(c5, k)
      && !IsSeparator(c6, k) && !IsSeparator(c7, k) && IsSeparator(c8, k)
      && !IsSeparator(c9, k) && !IsSeparator(c10, k) && !IsSeparator(c11, k)
      && !IsSeparator(c12, k) && !IsSeparator(c13, k) && IsSeparator(c14, k)
      && !IsSeparator(c15, k) && !IsSeparator(c16, k) && !IsSeparator(c17, k)
      && !IsSeparator(c18, k) && !IsSeparator(c19, k) && IsSeparator(c20, k)
      && !IsSeparator(c21, k) && IsSeparator(c22, k)
    ensures CollapseRun([c0] + ([c1] + ([c2] + ([c3] + ([c4] + ([c5] + ([c6] + ([c7] + ([c8] + ([c9] + ([c10] + ([c11] + ([c12] + ([c13] + ([c14] + ([c15] + ([c16] + ([c17] + ([c18] + ([c19] + ([c20] + ([c21] + ([c22] + [])))))))))))))))))))))), k, false)
         == [c0] + (['-'] + ([c3] + ([c4] + ([c5] + ([c6] + ([c7] + (['-'] + ([c9] + ([c10] + ([c11] + ([c12] + ([c13] + (['-'] + ([c15] + ([c16] + ([c17] + ([c18] + ([c19] + (['-'] + ([c21] + (['-'] + [])))))))))))))))))))))
  {
    var t23: string := [];
    var t22 := [c22] + t23;
    var t21 := [c21] + t22;
    var t20 := [c20] + t21;
    var t19 := [c19] + t20;
    var t18 := [c18] + t19;
    var t17 := [c17] + t18;
    var t16 := [c16] + t17;
    var t15 := [c15] + t16;
    var t14 := [c14] + t15;
    var t13 := [c13] + t14;
    var t12 := [c12] + t13;
    var t11 := [c11] + t12;
    var t10 := [c10] + t11;
    var t9 := [c9] + t10;
    var t8 := [c8] + t9;
    var t7 := [c7] + t8;
    var t6 := [c6] + t7;
    var t5 := [c5] + t6;
    var t4 := [c4] + t5;
    var t3 := [c3] + t4;
    var t2 := [c2] + t3;
    var t1 := [c1] + t2;
    var t0 := [c0] + t1;
    CollapseWord(c0, t1, k, false);
    CollapseRunStart(c1, t2, k);
    CollapseRunRest(c2, t3, k);
    CollapseWord(c3, t4, k, true);
    CollapseWord(c4, t5, k, false);
    CollapseWord(c5, t6, k, false);
    CollapseWord(c6, t7, k, false);
    CollapseWord(c7, t8, k, false);
    CollapseRunStart(c8, t9, k);
    CollapseWord(c9, t10, k, true);
    CollapseWord(c10, t11, k, false);
    CollapseWord(c11, t12, k, false);
    CollapseWord(c12, t13, k, false);
    CollapseWord(c13, t14, k, false);
    CollapseRunStart(c14, t15, k);
    CollapseWord(c15, t16, k, true);
    CollapseWord(c16, t17, k, false);
    CollapseWord(c17, t18, k, false);
    CollapseWord(c18, t19, k, false);
    CollapseWord(c19, t20, k, false);
    CollapseRunStart(c20, t21, k);
    CollapseWord(c21, t22, k, true);
    CollapseRunStart(c22, t23, k);
  }

  lemma Row17Strip(c0: char, c1: char, c2: char, c3: char, c4: char, c5: char, c6: char, c7: char, c8: char, c9: char, c10: char, c11: char, c12: char, c13: char, c14: char, c15: char, c16: char, c17: char, c18: char, c19: char, c20: char, c21: char)
    requires IsStripChar(c0) && IsStripChar(c1) && !IsStripChar(c2) && !IsStripChar(c18)
      && IsStripChar(c19) && IsStripChar(c20) && IsStripChar(c21)
    ensures Strip([c0] + ([c1] + ([c2] + ([c3] + ([c4] + ([c5] + ([c6] + ([c7] + ([c8] + ([c9] + ([c10] + ([c11] + ([c12] + ([c13] + ([c14] + ([c15] + ([c16] + ([c17] + ([c18] + ([c19] + ([c20] + ([c21] + []))))))))))))))))))))))
         == [c2] + ([c3] + ([c4] + ([c5] + ([c6] + ([c7] + ([c8] + ([c9] + ([c10] + ([c11] + ([c12] + ([c13] + ([c14] + ([c15] + ([c16] + ([c17] + ([c18] + []))))))))))))))))
  {
    var t22: string := [];
    var t21 := [c21] + t22;
    var t20 := [c20] + t21;
    var t19 := [c19] + t20;
    var t18 := [c18] + t19;
    var t17 := [c17] + t18;
    var t16 := [c16] + t17;
    var t15 := [c15] + t16;
    var t14 := [c14] + t15;
    var t13 := [c13] + t14;
    var t12 := [c12] + t13;
    var t11 := [c11] + t12;
    var t10 := [c10] + t11;
    var t9 := [c9] + t10;
    var t8 := [c8] + t9;
    var t7 := [c7] + t8;
    var t6 := [c6] + t7;
    var t5 := [c5] + t6;
    var t4 := [c4] + t5;
    var t3 := [c3] + t4;
    var t2 := [c2] + t3;
    var t1 := [c1] + t2;
    var t0 := [c0] + t1;
    StripLeadingSkip(c0, t1);
    StripLeadingSkip(c1, t2);
    StripLeadingStop(c2, t3);
    StripTrailingSkip(c21, t22);
    StripTrailingSkip(c20, t21);
    StripTrailingSkip(c19, t20);
    StripTrailingStop(c18, t19);
    StripTrailingKeep(c17, t18);
    StripTrailingKeep(c16, t17);
    StripTrailingKeep(c15, t16);
    StripTrailingKeep(c14, t15);
    StripTrailingKeep(c13, t14);
    StripTrailingKeep(c12, t13);
    StripTrailingKeep(c11, t12);
    StripTrailingKeep(c10, t11);
    StripTrailingKeep(c9, t10);
    StripTrailingKeep(c8, t9);
    StripTrailingKeep(c7, t8);
    StripTrailingKeep(c6, t7);
    StripTrailingKeep(c5, t6);
    StripTrailingKeep(c4, t5);
    StripTrailingKeep(c3, t4);
    StripTrailingKeep(c2, t3);
  }

  lemma Row17Chars(u: UnicodeDb)
    requires NfkdFixesAscii(u)
    ensures Slugify(['_'] + ([' '] + (['-'] + (['s'] + (['t'] + (['r'] + (['i'] + (['p'] + (['-'] + (['m'] + (['i'] + (['x'] + (['e'] + (['d'] + (['-'] + (['v'] + (['a'] + (['l'] + (['u'] + (['e'] + ([' '] + (['_'] + (['-'] + [])))))))))))))))))))))), false, u)
         == [AsciiLowerChar('s')] + ([AsciiLowerChar('t')] + ([AsciiLowerChar('r')] + ([AsciiLowerChar('i')] + ([AsciiLowerChar('p')] + (['-'] + ([AsciiLowerChar('m')] + ([AsciiLowerChar('i')] + ([AsciiLowerChar('x')] + ([AsciiLowerChar('e')] + ([AsciiLowerChar('d')] + (['-'] + ([AsciiLowerChar('v')] + ([AsciiLowerChar('a')] + ([AsciiLowerChar('l')] + ([AsciiLowerChar('u')] + ([AsciiLowerChar('e')] + []))))))))))))))))
  {
    Row17Lower('_', ' ', '-', 's', 't', 'r', 'i', 'p', '-', 'm', 'i', 'x', 'e', 'd', '-', 'v', 'a', 'l', 'u', 'e', ' ', '_', '-');
    Row17Keep(AsciiLowerChar('_'), AsciiLowerChar(' '), AsciiLowerChar('-'), AsciiLowerChar('s'), AsciiLowerChar('t'), AsciiLowerChar('r'), AsciiLowerChar('i'), AsciiLowerChar('p'), AsciiLowerChar('-'), AsciiLowerChar('m'), AsciiLowerChar('i'), AsciiLowerChar('x'), AsciiLowerChar('e'), AsciiLowerChar('d'), AsciiLowerChar('-'), AsciiLowerChar('v'), AsciiLowerChar('a'), AsciiLowerChar('l'), AsciiLowerChar('u'), AsciiLowerChar('e'), AsciiLowerChar(' '), AsciiLowerChar('_'), AsciiLowerChar('-'), AsciiClasses);
    Row17Collapse(AsciiLowerChar('_'), AsciiLowerChar(' '), AsciiLowerChar('-'), AsciiLowerChar('s'), AsciiLowerChar('t'), AsciiLowerChar('r'), AsciiLowerChar('i'), AsciiLowerChar('p'), AsciiLowerChar('-'), AsciiLowerChar('m'), AsciiLowerChar('i'), AsciiLowerChar('x'), AsciiLowerChar('e'), AsciiLowerChar('d'), AsciiLowerChar('-'), AsciiLowerChar('v'), AsciiLowerChar('a'), AsciiLowerChar('l'), AsciiLowerChar('u'), AsciiLowerChar('e'), AsciiLowerChar(' '), AsciiLowerChar('_'), AsciiLowerChar('-'), AsciiClasses);
    Row17Strip(AsciiLowerChar('_'), '-', AsciiLowerChar('s'), AsciiLowerChar('t'), AsciiLowerChar('r'), AsciiLowerChar('i'), AsciiLowerChar('p'), '-', AsciiLowerChar('m'), AsciiLowerChar('i'), AsciiLowerChar('x'), AsciiLowerChar('e'), AsciiLowerChar('d'), '-', AsciiLowerChar('v'), AsciiLowerChar('a'), AsciiLowerChar('l'), AsciiLowerChar('u'), AsciiLowerChar('e'), '-', AsciiLowerChar('_'), '-');
    AsciiSlugifyOfAscii(['_'] + ([' '] + (['-'] + (['s'] + (['t'] + (['r'] + (['i'] + (['p'] + (['-'] + (['m'] + (['i'] + (['x'] + (['e'] + (['d'] + (['-'] + (['v'] + (['a'] + (['l'] + (['u'] + (['e'] + ([' '] + (['_'] + (['-'] + [])))))))))))))))))))))), u);
  }

  lemma Row17Input()
    ensures "_ -strip-mixed-value _-"
         == ['_'] + ([' '] + (['-'] + (['s'] + (['t'] + (['r'] + (['i'] + (['p'] + (['-'] + (['m'] + (['i'] + (['x'] + (['e'] + (['d'] + (['-'] + (['v'] + (['a'] + (['l'] + (['u'] + (['e'] + ([' '] + (['_'] + (['-'] + []))))))))))))))))))))))
  {
    var s, t := "_ -strip-mixed-value _-", ['_'] + ([' '] + (['-'] + (['s'] + (['t'] + (['r'] + (['i'] + (['p'] + (['-'] + (['m'] + (['i'] + (['x'] + (['e'] + (['d'] + (['-'] + (['v'] + (['a'] + (['l'] + (['u'] + (['e'] + ([' '] + (['_'] + (['-'] + []))))))))))))))))))))));
    assert |s| == |t| == 23;
    forall i | 0 <= i < 4 ensures s[i] == t[i] {
    }
    forall i | 4 <= i < 8 ensures s[i] == t[i] {
    }
    forall i | 8 <= i < 12 ensures s[i] == t[i] {
    }
    forall i | 12 <= i < 16 ensures s[i] == t[i] {
    }
    forall i | 16 <= i < 20 ensures s[i] == t[i] {
    }
    forall i | 20 <= i < 23 ensures s[i] == t[i] {
    }
  }

  lemma SlugTestRow17(u: UnicodeDb)
    requires NfkdFixesAscii(u)
    ensures Slugify("_ -strip-mixed-value _-", false, u) == "strip-mixed-value"
  {
    Row17Input();
    Row17Chars(u);
    Row16Output();
  }

  // tests/test_utils.py:18: "spam & ıçüş" becomes "spam-ıçüş" with `allow_unicode`.

  lemma Row18Keep(c0: char, c1: char, c2: char, c3: char, c4: char, c5: char, c6: char, c7: char, c8: char, c9: char, c10: char, k: CharClasses)
    requires IsSlugSourceChar(c0, k) && IsSlugSourceChar(c1, k) && IsSlugSourceChar(c2, k)
      && IsSlugSourceChar(c3, k) && IsSlugSourceChar(c4, k)
      && !IsSlugSourceChar(c5, k) && IsSlugSourceChar(c6, k)
      && IsSlugSourceChar(c7, k) && IsSlugSourceChar(c8, k) && IsSlugSourceChar(c9, k)
      && IsSlugSourceChar(c10, k)
    ensures KeepSlugSource([c0] + ([c1] + ([c2] + ([c3] + ([c4] + ([c5] + ([c6] + ([c7] + ([c8] + ([c9] + ([c10] + [])))))))))), k)
         == [c0] + ([c1] + ([c2] + ([c3] + ([c4] + ([c6] + ([c7] + ([c8] + ([c9] + ([c10] + [])))))))))
  {
    var t11: string := [];
    var t10 := [c10] + t11;
    var t9 := [c9] + t10;
    var t8 := [c8] + t9;
    var t7 := [c7] + t8;
    var t6 := [c6] + t7;
    var t5 := [c5] + t6;
    var t4 := [c4] + t5;
    var t3 := [c3] + t4;
    var t2 := [c2] + t3;
    var t1 := [c1] + t2;
    var t0 := [c0] + t1;
    KeepKept(c0, t1, k);
    KeepKept(c1, t2, k);
    KeepKept(c2, t3, k);
    KeepKept(c3, t4, k);
    KeepKept(c4, t5, k);
    KeepDropped(c5, t6, k);
    KeepKept(c6, t7, k);
    KeepKept(c7, t8, k);
    KeepKept(c8, t9, k);
    KeepKept(c9, t10, k);
    KeepKept(c10, t11, k);
  }

  lemma Row18Collapse(c0: char, c1: char, c2: char, c3: char, c4: char, c5: char, c6: char, c7: char, c8: char, c9: char, k: CharClasses)
    requires !IsSeparator(c0, k) && !IsSeparator(c1, k) && !IsSeparator(c2, k)
      && !IsSeparator(c3, k) && IsSeparator(c4, k) && IsSeparator(c5, k)
      && !IsSeparator(c6, k) && !IsSeparator(c7, k) && !IsSeparator(c8, k)
      && !IsSeparator(c9, k)
    ensures CollapseRun([c0] + ([c1] + ([c2] + ([c3] + ([c4] + ([c5] + ([c6] + ([c7] + ([c8] + ([c9] + []))))))))), k, false)
         == [c0] + ([c1] + ([c2] + ([c3] + (['-'] + ([c6] + ([c7] + ([c8] + ([c9] + []))))))))
  {
    var t10: string := [];
    var t9 := [c9] + t10;
    var t8 := [c8] + t9;
    var t7 := [c7] + t8;
    var t6 := [c6] + t7;
    var t5 := [c5] + t6;
    var t4 := [c4] + t5;
    var t3 := [c3] + t4;
    var t2 := [c2] + t3;
    var t1 := [c1] + t2;
    var t0 := [c0] + t1;
    CollapseWord(c0, t1, k, false);
    CollapseWord(c1, t2, k, false);
    CollapseWord(c2, t3, k, false);
    CollapseWord(c3, t4, k, false);
    CollapseRunStart(c4, t5, k);
    CollapseRunRest(c5, t6, k);
    CollapseWord(c6, t7, k, true);
    CollapseWord(c7, t8, k, false);
    CollapseWord(c8, t9, k, false);
    CollapseWord(c9, t10, k, false);
  }

  lemma Row18Strip(c0: char, c1: char, c2: char, c3: char, c4: char, c5: char, c6: char, c7: char, c8: char)
    requires !IsStripChar(c0) && !IsStripChar(c8)
    ensures Strip([c0] + ([c1] + ([c2] + ([c3] + ([c4] + ([c5] + ([c6] + ([c7] + ([c8] + [])))))))))
         == [c0] + ([c1] + ([c2] + ([c3] + ([c4] + ([c5] + ([c6] + ([c7] + ([c8] + []))))))))
  {
    var t9: string := [];
    var t8 := [c8] + t9;
    var t7 := [c7] + t8;
    var t6 := [c6] + t7;
    var t5 := [c5] + t6;
    var t4 := [c4] + t5;
    var t3 := [c3] + t4;
    var t2 := [c2] + t3;
    var t1 := [c1] + t2;
    var t0 := [c0] + t1;
    StripLeadingStop(c0, t1);
    StripTrailingStop(c8, t9);
    StripTrailingKeep(c7, t8);
    StripTrailingKeep(c6, t7);
    StripTrailingKeep(c5, t6);
    StripTrailingKeep(c4, t5);
    StripTrailingKeep(c3, t4);
    StripTrailingKeep(c2, t3);
    StripTrailingKeep(c1, t2);
    StripTrailingKeep(c0, t1);
  }

  lemma Row18Chars(u: UnicodeDb)
    requires u.lower(u.nfkc(['s'] + (['p'] + (['a'] + (['m'] + ([' '] + (['&'] + ([' '] + (['ı'] + (['ç'] + (['ü'] + (['ş'] + [])))))))))))) == ['s'] + (['p'] + (['a'] + (['m'] + ([' '] + (['&'] + ([' '] + (['ı'] + (['ç'] + (['ü'] + (['ş'] + []))))))))))
    requires u.isWord('s') && !u.isSpace('s') && u.isWord('p') && !u.isSpace('p')
      && u.isWord('a') && !u.isSpace('a') && u.isWord('m') && !u.isSpace('m')
      && u.isSpace(' ') && !u.isWord('&') && !u.isSpace('&')
      && u.isWord('ı') && !u.isSpace('ı') && u.isWord('ç') && !u.isSpace('ç')
      && u.isWord('ü') && !u.isSpace('ü') && u.isWord('ş') && !u.isSpace('ş')
    ensures Slugify(['s'] + (['p'] + (['a'] + (['m'] + ([' '] + (['&'] + ([' '] + (['ı'] + (['ç'] + (['ü'] + (['ş'] + [])))))))))), true, u)
         == ['s'] + (['p'] + (['a'] + (['m'] + (['-'] + (['ı'] + (['ç'] + (['ü'] + (['ş'] + []))))))))
  {
    Row18Keep('s', 'p', 'a', 'm', ' ', '&', ' ', 'ı', 'ç', 'ü', 'ş', ClassesFor(true, u));
    Row18Collapse('s', 'p', 'a', 'm', ' ', ' ', 'ı', 'ç', 'ü', 'ş', ClassesFor(true, u));
    Row18Strip('s', 'p', 'a', 'm', '-', 'ı', 'ç', 'ü', 'ş');
  }

  lemma Row18Input()
    ensures "spam & ıçüş"
         == ['s'] + (['p'] + (['a'] + (['m'] + ([' '] + (['&'] + ([' '] + (['ı'] + (['ç'] + (['ü'] + (['ş'] + []))))))))))
  {
    var s, t := "spam & ıçüş", ['s'] + (['p'] + (['a'] + (['m'] + ([' '] + (['&'] + ([' '] + (['ı'] + (['ç'] + (['ü'] + (['ş'] + []))))))))));
    assert |s| == |t| == 11;
    forall i | 0 <= i < 4 ensures s[i] == t[i] {
    }
    forall i | 4 <= i < 8 ensures s[i] == t[i] {
    }
    forall i | 8 <= i < 11 ensures s[i] == t[i] {
    }
  }

  lemma Row18Output()
    ensures "spam-ıçüş"
         == ['s'] + (['p'] + (['a'] + (['m'] + (['-'] + (['ı'] + (['ç'] + (['ü'] + (['ş'] + []))))))))
  {
    var s, t := "spam-ıçüş", ['s'] + (['p'] + (['a'] + (['m'] + (['-'] + (['ı'] + (['ç'] + (['ü'] + (['ş'] + []))))))));
    assert |s| == |t| == 9;
    forall i | 0 <= i < 4 ensures s[i] == t[i] {
    }
    forall i | 4 <= i < 8 ensures s[i] == t[i] {
    }
    forall i | 8 <= i < 9 ensures s[i] == t[i] {
    }
  }

  lemma SlugTestRow18(u: UnicodeDb)
    requires u.lower(u.nfkc("spam & ıçüş")) == "spam & ıçüş"
    requires u.isWord('s') && !u.isSpace('s') && u.isWord('p') && !u.isSpace('p')
      && u.isWord('a') && !u.isSpace('a') && u.isWord('m') && !u.isSpace('m')
      && u.isSpace(' ') && !u.isWord('&') && !u.isSpace('&')
      && u.isWord('ı') && !u.isSpace('ı') && u.isWord('ç') && !u.isSpace('ç')
      && u.isWord('ü') && !u.isSpace('ü') && u.isWord('ş') && !u.isSpace('ş')
    ensures Slugify("spam & ıçüş", true, u) == "spam-ıçüş"
  {
    Row18Input();
    Row18Chars(u);
    Row18Output();
  }

  // tests/test_utils.py:19: "foo ıç bar" becomes "foo-ıç-bar" with `allow_unicode`.

  lemma Row19Keep(c0: char, c1: char, c2: char, c3: char, c4: char, c5: char, c6: char, c7: char, c8: char, c9: char, k: CharClasses)
    requires IsSlugSourceChar(c0, k) && IsSlugSourceChar(c1, k) && IsSlugSourceChar(c2, k)
      && IsSlugSourceChar(c3, k) && IsSlugSourceChar(c4, k) && IsSlugSourceChar(c5, k)
      && IsSlugSourceChar(c6, k) && IsSlugSourceChar(c7, k) && IsSlugSourceChar(c8, k)
      && IsSlugSourceChar(c9, k)
    ensures KeepSlugSource([c0] + ([c1] + ([c2] + ([c3] + ([c4] + ([c5] + ([c6] + ([c7] + ([c8] + ([c9] + []))))))))), k)
         == [c0] + ([c1] + ([c2] + ([c3] + ([c4] + ([c5] + ([c6] + ([c7] + ([c8] + ([c9] + [])))))))))
  {
    var t10: string := [];
    var t9 := [c9] + t10;
    var t8 := [c8] + t9;
    var t7 := [c7] + t8;
    var t6 := [c6] + t7;
    var t5 := [c5] + t6;
    var t4 := [c4] + t5;
    var t3 := [c3] + t4;
    var t2 := [c2] + t3;
    var t1 := [c1] + t2;
    var t0 := [c0] + t1;
    KeepKept(c0, t1, k);
    KeepKept(c1, t2, k);
    KeepKept(c2, t3, k);
    KeepKept(c3, t4, k);
    KeepKept(c4, t5, k);
    KeepKept(c5, t6, k);
    KeepKept(c6, t7, k);
    KeepKept(c7, t8, k);
    KeepKept(c8, t9, k);
    KeepKept(c9, t10, k);
  }

  lemma Row19Collapse(c0: char, c1: char, c2: char, c3: char, c4: char, c5: char, c6: char, c7: char, c8: char, c9: char, k: CharClasses)
    requires !IsSeparator(c0, k) && !IsSeparator(c1, k) && !IsSeparator(c2, k)
      && IsSeparator(c3, k) && !IsSeparator(c4, k) && !IsSeparator(c5, k)
      && IsSeparator(c6, k) && !IsSeparator(c7, k) && !IsSeparator(c8, k)
      && !IsSeparator(c9, k)
    ensures CollapseRun([c0] + ([c1] + ([c2] + ([c3] + ([c4] + ([c5] + ([c6] + ([c7] + ([c8] + ([c9] + []))))))))), k, false)
         == [c0] + ([c1] + ([c2] + (['-'] + ([c4] + ([c5] + (['-'] + ([c7] + ([c8] + ([c9] + [])))))))))
  {
    var t10: string := [];
    var t9 := [c9] + t10;
    var t8 := [c8] + t9;
    var t7 := [c7] + t8;
    var t6 := [c6] + t7;
    var t5 := [c5] + t6;
    var t4 := [c4] + t5;
    var t3 := [c3] + t4;
    var t2 := [c2] + t3;
    var t1 := [c1] + t2;
    var t0 := [c0] + t1;
    CollapseWord(c0, t1, k, false);
    CollapseWord(c1, t2, k, false);
    CollapseWord(c2, t3, k, false);
    CollapseRunStart(c3, t4, k);
    CollapseWord(c4, t5, k, true);
    CollapseWord(c5, t6, k, false);
    CollapseRunStart(c6, t7, k);
    CollapseWord(c7, t8, k, true);
    CollapseWord(c8, t9, k, false);
    CollapseWord(c9, t10, k, false);
  }

  lemma Row19Strip(c0: char, c1: char, c2: char, c3: char, c4: char, c5: char, c6: char, c7: char, c8: char, c9: char)
    requires !IsStripChar(c0) && !IsStripChar(c9)
    ensures Strip([c0] + ([c1] + ([c2] + ([c3] + ([c4] + ([c5] + ([c6] + ([c7] + ([c8] + ([c9] + []))))))))))
         == [c0] + ([c1] + ([c2] + ([c3] + ([c4] + ([c5] + ([c6] + ([c7] + ([c8] + ([c9] + [])))))))))
  {
    var t10: string := [];
    var t9 := [c9] + t10;
    var t8 := [c8] + t9;
    var t7 := [c7] + t8;
    var t6 := [c6] + t7;
    var t5 := [c5] + t6;
    var t4 := [c4] + t5;
    var t3 := [c3] + t4;
    var t2 := [c2] + t3;
    var t1 := [c1] + t2;
    var t0 := [c0] + t1;
    StripLeadingStop(c0, t1);
    StripTrailingStop(c9, t10);
    StripTrailingKeep(c8, t9);
    StripTrailingKeep(c7, t8);
    StripTrailingKeep(c6, t7);
    StripTrailingKeep(c5, t6);
    StripTrailingKeep(c4, t5);
    StripTrailingKeep(c3, t4);
    StripTrailingKeep(c2, t3);
    StripTrailingKeep(c1, t2);
    StripTrailingKeep(c0, t1);
  }

  lemma Row19Chars(u: UnicodeDb)
    requires u.lower(u.nfkc(['f'] + (['o'] + (['o'] + ([' '] + (['ı'] + (['ç'] + ([' '] + (['b'] + (['a'] + (['r'] + []))))))))))) == ['f'] + (['o'] + (['o'] + ([' '] + (['ı'] + (['ç'] + ([' '] + (['b'] + (['a'] + (['r'] + [])))))))))
    requires u.isWord('f') && !u.isSpace('f') && u.isWord('o') && !u.isSpace('o')
      && u.isSpace(' ') && u.isWord('ı') && !u.isSpace('ı')
      && u.isWord('ç') && !u.isSpace('ç') && u.isWord('b') && !u.isSpace('b')
      && u.isWord('a') && !u.isSpace('a') && u.isWord('r') && !u.isSpace('r')
    ensures Slugify(['f'] + (['o'] + (['o'] + ([' '] + (['ı'] + (['ç'] + ([' '] + (['b'] + (['a'] + (['r'] + []))))))))), true, u)
         == ['f'] + (['o'] + (['o'] + (['-'] + (['ı'] + (['ç'] + (['-'] + (['b'] + (['a'] + (['r'] + [])))))))))
  {
    Row19Keep('f', 'o', 'o', ' ', 'ı', 'ç', ' ', 'b', 'a', 'r', ClassesFor(true, u));
    Row19Collapse('f', 'o', 'o', ' ', 'ı', 'ç', ' ', 'b', 'a', 'r', ClassesFor(true, u));
    Row19Strip('f', 'o', 'o', '-', 'ı', 'ç', '-', 'b', 'a', 'r');
  }

  lemma Row19Input()
    ensures "foo ıç bar"
         == ['f'] + (['o'] + (['o'] + ([' '] + (['ı'] + (['ç'] + ([' '] + (['b'] + (['a'] + (['r'] + [])))))))))
  {
    var s, t := "foo ıç bar", ['f'] + (['o'] + (['o'] + ([' '] + (['ı'] + (['ç'] + ([' '] + (['b'] + (['a'] + (['r'] + [])))))))));
    assert |s| == |t| == 10;
    forall i | 0 <= i < 4 ensures s[i] == t[i] {
    }
    forall i | 4 <= i < 8 ensures s[i] == t[i] {
    }
    forall i | 8 <= i < 10 ensures s[i] == t[i] {
    }
  }

  lemma Row19Output()
    ensures "foo-ıç-bar"
         == ['f'] + (['o'] + (['o'] + (['-'] + (['ı'] + (['ç'] + (['-'] + (['b'] + (['a'] + (['r'] + [])))))))))
  {
    var s, t := "foo-ıç-bar", ['f'] + (['o'] + (['o'] + (['-'] + (['ı'] + (['ç'] + (['-'] + (['b'] + (['a'] + (['r'] + [])))))))));
    assert |s| == |t| == 10;
    forall i | 0 <= i < 4 ensures s[i] == t[i] {
    }
    forall i | 4 <= i < 8 ensures s[i] == t[i] {
    }
    forall i | 8 <= i < 10 ensures s[i] == t[i] {
    }
  }

  lemma SlugTestRow19(u: UnicodeDb)
    requires u.lower(u.nfkc("foo ıç bar")) == "foo ıç bar"
    requires u.isWord('f') && !u.isSpace('f') && u.isWord('o') && !u.isSpace('o')
      && u.isSpace(' ') && u.isWord('ı') && !u.isSpace('ı')
      && u.isWord('ç') && !u.isSpace('ç') && u.isWord('b') && !u.isSpace('b')
      && u.isWord('a') && !u.isSpace('a') && u.isWord('r') && !u.isSpace('r')
    ensures Slugify("foo ıç bar", true, u) == "foo-ıç-bar"
  {
    Row19Input();
    Row19Chars(u);
    Row19Output();
  }

  // tests/test_utils.py:20: "    foo ıç bar" becomes "foo-ıç-bar" with `allow_unicode`.

  lemma Row20Keep(c0: char, c1: char, c2: char, c3: char, c4: char, c5: char, c6: char, c7: char, c8: char, c9: char, c10: char, c11: char, c12: char, c13: char, k: CharClasses)
    requires IsSlugSourceChar(c0, k) && IsSlugSourceChar(c1, k) && IsSlugSourceChar(c2, k)
      && IsSlugSourceChar(c3, k) && IsSlugSourceChar(c4, k) && IsSlugSourceChar(c5, k)
      && IsSlugSourceChar(c6, k) && IsSlugSourceChar(c7, k) && IsSlugSourceChar(c8, k)
      && IsSlugSourceChar(c9, k) && IsSlugSourceChar(c10, k)
      && IsSlugSourceChar(c11, k) && IsSlugSourceChar(c12, k)
      && IsSlugSourceChar(c13, k)
    ensures KeepSlugSource([c0] + ([c1] + ([c2] + ([c3] + ([c4] + ([c5] + ([c6] + ([c7] + ([c8] + ([c9] + ([c10] + ([c11] + ([c12] + ([c13] + []))))))))))))), k)
         == [c0] + ([c1] + ([c2] + ([c3] + ([c4] + ([c5] + ([c6] + ([c7] + ([c8] + ([c9] + ([c10] + ([c11] + ([c12] + ([c13] + [])))))))))))))
  {
    var t14: string := [];
    var t13 := [c13] + t14;
    var t12 := [c12] + t13;
    var t11 := [c11] + t12;
    var t10 := [c10] + t11;
    var t9 := [c9] + t10;
    var t8 := [c8] + t9;
    var t7 := [c7] + t8;
    var t6 := [c6] + t7;
    var t5 := [c5] + t6;
    var t4 := [c4] + t5;
    var t3 := [c3] + t4;
    var t2 := [c2] + t3;
    var t1 := [c1] + t2;
    var t0 := [c0] + t1;
    KeepKept(c0, t1, k);
    KeepKept(c1, t2, k);
    KeepKept(c2, t3, k);
    KeepKept(c3, t4, k);
    KeepKept(c4, t5, k);
    KeepKept(c5, t6, k);
    KeepKept(c6, t7, k);
    KeepKept(c7, t8, k);
    KeepKept(c8, t9, k);
    KeepKept(c9, t10, k);
    KeepKept(c10, t11, k);
    KeepKept(c11, t12, k);
    KeepKept(c12, t13, k);
    KeepKept(c13, t14, k);
  }

  lemma Row20Collapse(c0: char, c1: char, c2: char, c3: char, c4: char, c5: char, c6: char, c7: char, c8: char, c9: char, c10: char, c11: char, c12: char, c13: char, k: CharClasses)
    requires IsSeparator(c0, k) && IsSeparator(c1, k) && IsSeparator(c2, k)
      && IsSeparator(c3, k) && !IsSeparator(c4, k) && !IsSeparator(c5, k)
      && !IsSeparator(c6, k) && IsSeparator(c7, k) && !IsSeparator(c8, k)
      && !IsSeparator(c9, k) && IsSeparator(c10, k) && !IsSeparator(c11, k)
      && !IsSeparator(c12, k) && !IsSeparator(c13, k)
    ensures CollapseRun([c0] + ([c1] + ([c2] + ([c3] + ([c4] + ([c5] + ([c6] + ([c7] + ([c8] + ([c9] + ([c10] + ([c11] + ([c12] + ([c13] + []))))))))))))), k, false)
         == ['-'] + ([c4] + ([c5] + ([c6] + (['-'] + ([c8] + ([c9] + (['-'] + ([c11] + ([c12] + ([c13] + []))))))))))
  {
    var t14: string := [];
    var t13 := [c13] + t14;
    var t12 := [c12] + t13;
    var t11 := [c11] + t12;
    var t10 := [c10] + t11;
    var t9 := [c9] + t10;
    var t8 := [c8] + t9;
    var t7 := [c7] + t8;
    var t6 := [c6] + t7;
    var t5 := [c5] + t6;
    var t4 := [c4] + t5;
    var t3 := [c3] + t4;
    var t2 := [c2] + t3;
    var t1 := [c1] + t2;
    var t0 := [c0] + t1;
    CollapseRunStart(c0, t1, k);
    CollapseRunRest(c1, t2, k);
    CollapseRunRest(c2, t3, k);
    CollapseRunRest(c3, t4, k);
    CollapseWord(c4, t5, k, true);
    CollapseWord(c5, t6, k, false);
    CollapseWord(c6, t7, k, false);
    CollapseRunStart(c7, t8, k);
    CollapseWord(c8, t9, k, true);
    CollapseWord(c9, t10, k, false);
    CollapseRunStart(c10, t11, k);
    CollapseWord(c11, t12, k, true);
    CollapseWord(c12, t13, k, false);
    CollapseWord(c13, t14, k, false);
  }

  lemma Row20Strip(c0: char, c1: char, c2: char, c3: char, c4: char, c5: char, c6: char, c7: char, c8: char, c9: char, c10: char)
    requires IsStripChar(c0) && !IsStripChar(c1) && !IsStripChar(c10)
    ensures Strip([c0] + ([c1] + ([c2] + ([c3] + ([c4] + ([c5] + ([c6] + ([c7] + ([c8] + ([c9] + ([c10] + [])))))))))))
         == [c1] + ([c2] + ([c3] + ([c4] + ([c5] + ([c6] + ([c7] + ([c8] + ([c9] + ([c10] + [])))))))))
  {
    var t11: string := [];
    var t10 := [c10] + t11;
    var t9 := [c9] + t10;
    var t8 := [c8] + t9;
    var t7 := [c7] + t8;
    var t6 := [c6] + t7;
    var t5 := [c5] + t6;
    var t4 := [c4] + t5;
    var t3 := [c3] + t4;
    var t2 := [c2] + t3;
    var t1 := [c1] + t2;
    var t0 := [c0] + t1;
    StripLeadingSkip(c0, t1);
    StripLeadingStop(c1, t2);
    StripTrailingStop(c10, t11);
    StripTrailingKeep(c9, t10);
    StripTrailingKeep(c8, t9);
    StripTrailingKeep(c7, t8);
    StripTrailingKeep(c6, t7);
    StripTrailingKeep(c5, t6);
    StripTrailingKeep(c4, t5);
    StripTrailingKeep(c3, t4);
    StripTrailingKeep(c2, t3);
    StripTrailingKeep(c1, t2);
  }

  lemma Row20Chars(u: UnicodeDb)
    requires u.lower(u.nfkc([' '] + ([' '] + ([' '] + ([' '] + (['f'] + (['o'] + (['o'] + ([' '] + (['ı'] + (['ç'] + ([' '] + (['b'] + (['a'] + (['r'] + []))))))))))))))) == [' '] + ([' '] + ([' '] + ([' '] + (['f'] + (['o'] + (['o'] + ([' '] + (['ı'] + (['ç'] + ([' '] + (['b'] + (['a'] + (['r'] + [])))))))))))))
    requires u.isSpace(' ') && u.isWord('f') && !u.isSpace('f')
      && u.isWord('o') && !u.isSpace('o') && u.isWord('ı') && !u.isSpace('ı')
      && u.isWord('ç') && !u.isSpace('ç') && u.isWord('b') && !u.isSpace('b')
      && u.isWord('a') && !u.isSpace('a') && u.isWord('r') && !u.isSpace('r')
    ensures Slugify([' '] + ([' '] + ([' '] + ([' '] + (['f'] + (['o'] + (['o'] + ([' '] + (['ı'] + (['ç'] + ([' '] + (['b'] + (['a'] + (['r'] + []))))))))))))), true, u)
         == ['f'] + (['o'] + (['o'] + (['-'] + (['ı'] + (['ç'] + (['-'] + (['b'] + (['a'] + (['r'] + [])))))))))
  {
    Row20Keep(' ', ' ', ' ', ' ', 'f', 'o', 'o', ' ', 'ı', 'ç', ' ', 'b', 'a', 'r', ClassesFor(true, u));
    Row20Collapse(' ', ' ', ' ', ' ', 'f', 'o', 'o', ' ', 'ı', 'ç', ' ', 'b', 'a', 'r', ClassesFor(true, u));
    Row20Strip('-', 'f', 'o', 'o', '-', 'ı', 'ç', '-', 'b', 'a', 'r');
  }

  lemma Row20Input()
    ensures "    foo ıç bar"
         == [' '] + ([' '] + ([' '] + ([' '] + (['f'] + (['o'] + (['o'] + ([' '] + (['ı'] + (['ç'] + ([' '] + (['b'] + (['a'] + (['r'] + [])))))))))))))
  {
    var s, t := "    foo ıç bar", [' '] + ([' '] + ([' '] + ([' '] + (['f'] + (['o'] + (['o'] + ([' '] + (['ı'] + (['ç'] + ([' '] + (['b'] + (['a'] + (['r'] + [])))))))))))));
    assert |s| == |t| == 14;
    forall i | 0 <= i < 4 ensures s[i] == t[i] {
    }
    forall i | 4 <= i < 8 ensures s[i] == t[i] {
    }
    forall i | 8 <= i < 12 ensures s[i] == t[i] {
    }
    forall i | 12 <= i < 14 ensures s[i] == t[i] {
    }
  }

  lemma SlugTestRow20(u: UnicodeDb)
    requires u.lower(u.nfkc("    foo ıç bar")) == "    foo ıç bar"
    requires u.isSpace(' ') && u.isWord('f') && !u.isSpace('f')
      && u.isWord('o') && !u.isSpace('o') && u.isWord('ı') && !u.isSpace('ı')
      && u.isWord('ç') && !u.isSpace('ç') && u.isWord('b') && !u.isSpace('b')
      && u.isWord('a') && !u.isSpace('a') && u.isWord('r') && !u.isSpace('r')
    ensures Slugify("    foo ıç bar", true, u) == "foo-ıç-bar"
  {
    Row20Input();
    Row20Chars(u);
    Row19Output();
  }

  // tests/test_utils.py:21: "你好" becomes "你好" with `allow_unicode`.

  lemma Row21Keep(c0: char, c1: char, k: CharClasses)
    requires IsSlugSourceChar(c0, k) && IsSlugSourceChar(c1, k)
    ensures KeepSlugSource([c0] + ([c1] + []), k)
         == [c0] + ([c1] + [])
  {
    var t2: string := [];
    var t1 := [c1] + t2;
    var t0 := [c0] + t1;
    KeepKept(c0, t1, k);
    KeepKept(c1, t2, k);
  }

  lemma Row21Collapse(c0: char, c1: char, k: CharClasses)
    requires !IsSeparator(c0, k) && !IsSeparator(c1, k)
    ensures CollapseRun([c0] + ([c1] + []), k, false)
         == [c0] + ([c1] + [])
  {
    var t2: string := [];
    var t1 := [c1] + t2;
    var t0 := [c0] + t1;
    CollapseWord(c0, t1, k, false);
    CollapseWord(c1, t2, k, false);
  }

  lemma Row21Strip(c0: char, c1: char)
    requires !IsStripChar(c0) && !IsStripChar(c1)
    ensures Strip([c0] + ([c1] + []))
         == [c0] + ([c1] + [])
  {
    var t2: string := [];
    var t1 := [c1] + t2;
    var t0 := [c0] + t1;
    StripLeadingStop(c0, t1);
    StripTrailingStop(c1, t2);
    StripTrailingKeep(c0, t1);
  }

  lemma Row21Chars(u: UnicodeDb)
    requires u.lower(u.nfkc(['你'] + (['好'] + []))) == ['你'] + (['好'] + [])
    requires u.isWord('你') && !u.isSpace('你') && u.isWord('好') && !u.isSpace('好')
    ensures Slugify(['你'] + (['好'] + []), true, u)
         == ['你'] + (['好'] + [])
  {
    Row21Keep('你', '好', ClassesFor(true, u));
    Row21Collapse('你', '好', ClassesFor(true, u));
    Row21Strip('你', '好');
  }

  lemma Row21Input()
    ensures "你好"
         == ['你'] + (['好'] + [])
  {
    var s, t := "你好", ['你'] + (['好'] + []);
    assert |s| == |t| == 2;
    forall i | 0 <= i < 2 ensures s[i] == t[i] {
    }
  }

  lemma SlugTestRow21(u: UnicodeDb)
    requires u.lower(u.nfkc("你好")) == "你好"
    requires u.isWord('你') && !u.isSpace('你') && u.isWord('好') && !u.isSpace('好')
    ensures Slugify("你好", true, u) == "你好"
  {
    Row21Input();
    Row21Chars(u);
  }

  // tests/test_utils.py:22: "İstanbul" becomes "istanbul" with `allow_unicode`.

  lemma Row22Keep(c0: char, c1: char, c2: char, c3: char, c4: char, c5: char, c6: char, c7: char, c8: char, k: CharClasses)
    requires IsSlugSourceChar(c0, k) && !IsSlugSourceChar(c1, k) && IsSlugSourceChar(c2, k)
      && IsSlugSourceChar(c3, k) && IsSlugSourceChar(c4, k) && IsSlugSourceChar(c5, k)
      && IsSlugSourceChar(c6, k) && IsSlugSourceChar(c7, k) && IsSlugSourceChar(c8, k)
    ensures KeepSlugSource([c0] + ([c1] + ([c2] + ([c3] + ([c4] + ([c5] + ([c6] + ([c7] + ([c8] + [])))))))), k)
         == [c0] + ([c2] + ([c3] + ([c4] + ([c5] + ([c6] + ([c7] + ([c8] + [])))))))
  {
    var t9: string := [];
    var t8 := [c8] + t9;
    var t7 := [c7] + t8;
    var t6 := [c6] + t7;
    var t5 := [c5] + t6;
    var t4 := [c4] + t5;
    var t3 := [c3] + t4;
    var t2 := [c2] + t3;
    var t1 := [c1] + t2;
    var t0 := [c0] + t1;
    KeepKept(c0, t1, k);
    KeepDropped(c1, t2, k);
    KeepKept(c2, t3, k);
    KeepKept(c3, t4, k);
    KeepKept(c4, t5, k);
    KeepKept(c5, t6, k);
    KeepKept(c6, t7, k);
    KeepKept(c7, t8, k);
    KeepKept(c8, t9, k);
  }

  lemma Row22Collapse(c0: char, c1: char, c2: char, c3: char, c4: char, c5: char, c6: char, c7: char, k: CharClasses)
    requires !IsSeparator(c0, k) && !IsSeparator(c1, k) && !IsSeparator(c2, k)
      && !IsSeparator(c3, k) && !IsSeparator(c4, k) && !IsSeparator(c5, k)
      && !IsSeparator(c6, k) && !IsSeparator(c7, k)
    ensures CollapseRun([c0] + ([c1] + ([c2] + ([c3] + ([c4] + ([c5] + ([c6] + ([c7] + []))))))), k, false)
         == [c0] + ([c1] + ([c2] + ([c3] + ([c4] + ([c5] + ([c6] + ([c7] + [])))))))
  {
    var t8: string := [];
    var t7 := [c7] + t8;
    var t6 := [c6] + t7;
    var t5 := [c5] + t6;
    var t4 := [c4] + t5;
    var t3 := [c3] + t4;
    var t2 := [c2] + t3;
    var t1 := [c1] + t2;
    var t0 := [c0] + t1;
    CollapseWord(c0, t1, k, false);
    CollapseWord(c1, t2, k, false);
    CollapseWord(c2, t3, k, false);
    CollapseWord(c3, t4, k, false);
    CollapseWord(c4, t5, k, false);
    CollapseWord(c5, t6, k, false);
    CollapseWord(c6, t7, k, false);
    CollapseWord(c7, t8, k, false);
  }

  lemma Row22Strip(c0: char, c1: char, c2: char, c3: char, c4: char, c5: char, c6: char, c7: char)
    requires !IsStripChar(c0) && !IsStripChar(c7)
    ensures Strip([c0] + ([c1] + ([c2] + ([c3] + ([c4] + ([c5] + ([c6] + ([c7] + []))))))))
         == [c0] + ([c1] + ([c2] + ([c3] + ([c4] + ([c5] + ([c6] + ([c7] + [])))))))
  {
    var t8: string := [];
    var t7 := [c7] + t8;
    var t6 := [c6] + t7;
    var t5 := [c5] + t6;
    var t4 := [c4] + t5;
    var t3 := [c3] + t4;
    var t2 := [c2] + t3;
    var t1 := [c1] + t2;
    var t0 := [c0] + t1;
    StripLeadingStop(c0, t1);
    StripTrailingStop(c7, t8);
    StripTrailingKeep(c6, t7);
    StripTrailingKeep(c5, t6);
    StripTrailingKeep(c4, t5);
    StripTrailingKeep(c3, t4);
    StripTrailingKeep(c2, t3);
    StripTrailingKeep(c1, t2);
    StripTrailingKeep(c0, t1);
  }

  lemma Row22Chars(u: UnicodeDb)
    requires u.lower(u.nfkc(['İ'] + (['s'] + (['t'] + (['a'] + (['n'] + (['b'] + (['u'] + (['l'] + []))))))))) == ['i'] + (['\U{0307}'] + (['s'] + (['t'] + (['a'] + (['n'] + (['b'] + (['u'] + (['l'] + []))))))))
    requires u.isWord('i') && !u.isSpace('i')
      && !u.isWord('\U{0307}') && !u.isSpace('\U{0307}')
      && u.isWord('s') && !u.isSpace('s') && u.isWord('t') && !u.isSpace('t')
      && u.isWord('a') && !u.isSpace('a') && u.isWord('n') && !u.isSpace('n')
      && u.isWord('b') && !u.isSpace('b') && u.isWord('u') && !u.isSpace('u')
      && u.isWord('l') && !u.isSpace('l')
    ensures Slugify(['İ'] + (['s'] + (['t'] + (['a'] + (['n'] + (['b'] + (['u'] + (['l'] + []))))))), true, u)
         == ['i'] + (['s'] + (['t'] + (['a'] + (['n'] + (['b'] + (['u'] + (['l'] + [])))))))
  {
    Row22Keep('i', '\U{0307}', 's', 't', 'a', 'n', 'b', 'u', 'l', ClassesFor(true, u));
    Row22Collapse('i', 's', 't', 'a', 'n', 'b', 'u', 'l', ClassesFor(true, u));
    Row22Strip('i', 's', 't', 'a', 'n', 'b', 'u', 'l');
  }

  lemma Row22Input()
    ensures "İstanbul"
         == ['İ'] + (['s'] + (['t'] + (['a'] + (['n'] + (['b'] + (['u'] + (['l'] + [])))))))
  {
    var s, t := "İstanbul", ['İ'] + (['s'] + (['t'] + (['a'] + (['n'] + (['b'] + (['u'] + (['l'] + [])))))));
    assert |s| == |t| == 8;
    forall i | 0 <= i < 8 ensures s[i] == t[i] {
    }
  }

  lemma Row22Prepared()
    ensures "i\U{0307}stanbul"
         == ['i'] + (['\U{0307}'] + (['s'] + (['t'] + (['a'] + (['n'] + (['b'] + (['u'] + (['l'] + []))))))))
  {
    var s, t := "i\U{0307}stanbul", ['i'] + (['\U{0307}'] + (['s'] + (['t'] + (['a'] + (['n'] + (['b'] + (['u'] + (['l'] + []))))))));
    assert |s| == |t| == 9;
    forall i | 0 <= i < 4 ensures s[i] == t[i] {
    }
    forall i | 4 <= i < 8 ensures s[i] == t[i] {
    }
    forall i | 8 <= i < 9 ensures s[i] == t[i] {
    }
  }

  lemma Row22Output()
    ensures "istanbul"
         == ['i'] + (['s'] + (['t'] + (['a'] + (['n'] + (['b'] + (['u'] + (['l'] + [])))))))
  {
    var s, t := "istanbul", ['i'] + (['s'] + (['t'] + (['a'] + (['n'] + (['b'] + (['u'] + (['l'] + [])))))));
    assert |s| == |t| == 8;
    forall i | 0 <= i < 8 ensures s[i] == t[i] {
    }
  }

  lemma SlugTestRow22(u: UnicodeDb)
    requires u.lower(u.nfkc("İstanbul")) == "i\U{0307}stanbul"
    requires u.isWord('i') && !u.isSpace('i')
      && !u.isWord('\U{0307}') && !u.isSpace('\U{0307}')
      && u.isWord('s') && !u.isSpace('s') && u.isWord('t') && !u.isSpace('t')
      && u.isWord('a') && !u.isSpace('a') && u.isWord('n') && !u.isSpace('n')
      && u.isWord('b') && !u.isSpace('b') && u.isWord('u') && !u.isSpace('u')
      && u.isWord('l') && !u.isSpace('l')
    ensures Slugify("İstanbul", true, u) == "istanbul"
  {
    Row22Input();
    Row22Prepared();
    Row22Chars(u);
    Row22Output();
  }

  // The same test string in ASCII mode (utils.py:31-33): NFKD splits `İ`
  // into `I` and U+0307, the ASCII encoding drops U+0307 and the
  // lowercasing turns `I` into `i`, so ASCII mode gives "istanbul" too.

  lemma EncodeKept(c: char, t: string)
    requires IsAsciiChar(c)
    ensures EncodeAsciiIgnore([c] + t) == [c] + EncodeAsciiIgnore(t)
  {
    assert ([c] + t)[1..] == t;
  }

  lemma EncodeDropped(c: char, t: string)
    requires !IsAsciiChar(c)
    ensures EncodeAsciiIgnore([c] + t) == EncodeAsciiIgnore(t)
  {
    assert ([c] + t)[1..] == t;
  }

  lemma IstanbulEncoded(rest: string)
    requires IsAscii(rest)
    ensures EncodeAsciiIgnore(['I'] + (['\U{0307}'] + rest)) == ['I'] + rest
  {
    EncodeAsciiIgnoreKeepsAscii(rest);
    EncodeDropped('\U{0307}', rest);
    EncodeKept('I', ['\U{0307}'] + rest);
  }

  lemma IstanbulInput()
    ensures "I\U{0307}stanbul"
         == ['I'] + (['\U{0307}'] + (['s'] + (['t'] + (['a'] + (['n'] + (['b'] + (['u'] + (['l'] + []))))))))
  {
    var s, t := "I\U{0307}stanbul", ['I'] + (['\U{0307}'] + (['s'] + (['t'] + (['a'] + (['n'] + (['b'] + (['u'] + (['l'] + []))))))));
    assert |s| == |t| == 9;
    forall i | 0 <= i < 4 ensures s[i] == t[i] {
    }
    forall i | 4 <= i < 8 ensures s[i] == t[i] {
    }
    forall i | 8 <= i < 9 ensures s[i] == t[i] {
    }
  }

  lemma IstanbulIsSlug()
    ensures IsSlug("istanbul")
  {
  }

  lemma IstanbulRestAscii(rest: string)
    requires rest == ['s'] + (['t'] + (['a'] + (['n'] + (['b'] + (['u'] + (['l'] + []))))))
    ensures IsAscii(rest)
  {
    AsciiCons('l', []);
    AsciiCons('u', ['l'] + []);
    AsciiCons('b', ['u'] + (['l'] + []));
    AsciiCons('n', ['b'] + (['u'] + (['l'] + [])));
    AsciiCons('a', ['n'] + (['b'] + (['u'] + (['l'] + []))));
    AsciiCons('t', ['a'] + (['n'] + (['b'] + (['u'] + (['l'] + [])))));
    AsciiCons('s', ['t'] + (['a'] + (['n'] + (['b'] + (['u'] + (['l'] + []))))));
  }

  lemma IstanbulEncodedText()
    ensures "Istanbul" == ['I'] + (['s'] + (['t'] + (['a'] + (['n'] + (['b'] + (['u'] + (['l'] + [])))))))
  {
    var s, t := "Istanbul", ['I'] + (['s'] + (['t'] + (['a'] + (['n'] + (['b'] + (['u'] + (['l'] + [])))))));
    assert |s| == |t| == 8;
    forall i | 0 <= i < 8 ensures s[i] == t[i] {
    }
  }

  lemma IstanbulLower()
    ensures AsciiLower("Istanbul") == "istanbul"
  {
    var s, t := AsciiLower("Istanbul"), "istanbul";
    assert |s| == |t| == 8;
    forall i | 0 <= i < 8 ensures s[i] == t[i] {
    }
  }

  lemma IstanbulPrepared(u: UnicodeDb)
    requires u.nfkd("İstanbul") == "I\U{0307}stanbul"
    ensures Prepared("İstanbul", false, u) == "istanbul"
  {
    var rest := ['s'] + (['t'] + (['a'] + (['n'] + (['b'] + (['u'] + (['l'] + []))))));
    IstanbulInput();
    IstanbulRestAscii(rest);
    IstanbulEncoded(rest);
    IstanbulEncodedText();
    IstanbulLower();
  }

  lemma SlugAsciiIstanbul(u: UnicodeDb)
    requires u.nfkd("İstanbul") == "I\U{0307}stanbul"
    ensures Slugify("İstanbul", false, u) == "istanbul"
  {
    IstanbulPrepared(u);
    IstanbulIsSlug();
    LowerFixesSlug("istanbul");
    PipelineFixesSlug("istanbul");
  }
}
