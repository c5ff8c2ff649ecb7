/** Configs as they are stored: every text is put into normal form first, the variants of a
    swept config included, and the family of a config is hashed through its normal form. */
module StoredConfigs {
  import opened Prelude
  import opened Text
  import opened ConfigText
  import opened Hashing

  // ---- What a normal form looks like ------------------------------------------------------

  /** No line ends in whitespace. */
  ghost predicate CleanEnds(x: string) {
    forall i :: 0 < i < |x| && x[i] == '\n' && x[i - 1] != '\n' ==> x[i - 1] !in SPACES
  }

  ghost predicate IsStored(x: string) {
    && '\r' !in x && CleanEnds(x)
    && |x| >= 2 && x[0] !in SPACES && x[|x| - 2] !in SPACES && x[|x| - 1] == '\n'
  }

  lemma {:induction false} CleanRest(x: string)
    requires CleanEnds(x) && x != ""
    ensures CleanEnds(x[1..])
  {
    forall i | 0 < i < |x[1..]| && x[1..][i] == '\n' && x[1..][i - 1] != '\n' ensures x[1..][i - 1] !in SPACES {
      assert x[i + 1] == x[1..][i] && x[i] == x[1..][i - 1];
    }
  }

  lemma {:induction false} FirstLineIsEmptyIff(t: string)
    ensures SplitLF(t)[0] == "" <==> t == "" || t[0] == '\n'
  {
  }

  lemma {:induction false} CleanLinesAreTight(t: string)
    requires CleanEnds(t) && Tight(if t != "" && t[|t| - 1] == '\n' then "" else t)
    ensures AllTight(SplitLF(t))
    decreases |t|
  {
    if t != "" {
      CleanRest(t);
      CleanLinesAreTight(t[1..]);
      FirstLineIsEmptyIff(t[1..]);
    }
  }

  lemma {:induction false} JoinOfSplit(t: string)
    ensures JoinLF(SplitLF(t)) == t
    decreases |t|
  {
    if t != "" { JoinOfSplit(t[1..]); }
  }

  lemma {:induction false} TightLinesStay(lines: seq<string>)
    requires AllTight(lines)
    ensures Stripped(lines) == lines
  {
    forall i | 0 <= i < |lines| ensures TrimRight(lines[i], SPACES) == lines[i] {
      if lines[i] != "" { NothingToKeep(lines[i]); }
    }
  }

  lemma {:induction false} TrimmedOfEnding(x: string)
    requires IsStored(x)
    ensures Trim(x, SPACES) + LF == x
  {
    var y := x[..|x| - 1];
    assert x == "" + y + "\n";
    TrimIs("", y, "\n", SPACES);
  }

  /** Such a text is its own normal form. */
  lemma {:induction false} StoredIsNormal(x: string)
    requires IsStored(x)
    ensures NormalizeYaml(x) == x
  {
    NothingToUnify(x);
    CleanLinesAreTight(x);
    TightLinesStay(SplitLF(x));
    JoinOfSplit(x);
    TrimmedOfEnding(x);
  }

  lemma {:induction false} CleanJoin(a: string, b: string)
    requires '\n' !in a && Tight(a) && CleanEnds(b)
    ensures CleanEnds(a + "\n" + b)
  {
    var x := a + "\n" + b;
    forall i | 0 < i < |x| && x[i] == '\n' && x[i - 1] != '\n' ensures x[i - 1] !in SPACES {
      if i > |a| + 1 { assert x[i] == b[i - |a| - 1] && x[i - 1] == b[i - |a| - 2]; }
    }
  }

  lemma {:induction false} CleanLines(c: seq<string>)
    requires NoLF(c) && AllTight(c) && c != []
    ensures CleanEnds(JoinLF(c) + "\n")
    decreases |c|
  {
    if |c| == 1 {
      CleanJoin(c[0], "");
      assert c[0] + "\n" + "" == c[0] + "\n";
    } else {
      CleanLines(c[1..]);
      CleanJoin(c[0], JoinLF(c[1..]) + "\n");
      assert JoinLF(c) + "\n" == c[0] + "\n" + (JoinLF(c[1..]) + "\n");
    }
  }

  lemma {:induction false} JoinStartsWith(c: seq<string>)
    requires c != [] && c[0] != ""
    ensures JoinLF(c) != "" && JoinLF(c)[0] == c[0][0]
  {
  }

  /** Every normal form is such a text, except that of a blank one. */
  lemma {:induction false} NormalIsStored(t: string)
    ensures NormalizeYaml(t) == LF || IsStored(NormalizeYaml(t))
  {
    var c := Canonical(t);
    NormalFormIs(t);
    CanonicalIsCanonical(t);
    if c != [] {
      CleanLines(c);
      JoinStartsWith(c);
      JoinEnds(c);
      JoinHasNoCR(c);
    }
  }

  // ---- Variants of a stored config -----------------------------------------------------------

  lemma {:induction false} SplicedIsClean(a: string, v: string, w: string, b: string)
    requires CleanEnds(a + v + b) && w != "" && forall i :: 0 <= i < |w| ==> w[i] !in SPACES
    ensures CleanEnds(a + w + b)
  {
    var s, x := a + v + b, a + w + b;
    forall i | 0 < i < |x| && x[i] == '\n' && x[i - 1] != '\n' ensures x[i - 1] !in SPACES {
      if i < |a| {
        assert s[i] == x[i] && s[i - 1] == x[i - 1];
      } else if i == |a| + |w| {
        assert x[i - 1] == w[|w| - 1];
      } else if i > |a| + |w| {
        var j := i - |w| + |v|;
        assert s[j] == x[i] && s[j - 1] == x[i - 1];
      }
    }
  }

  lemma {:induction false} SplicedIsStored(a: string, v: string, w: string, b: string)
    requires IsStored(a + v + b) && a != "" && b != "" && w != "" && forall i :: 0 <= i < |w| ==> w[i] !in SPACES
    ensures IsStored(a + w + b)
  {
    var s, x := a + v + b, a + w + b;
    SplicedIsClean(a, v, w, b);
    assert x[0] == s[0] == a[0];
    assert x[|x| - 1] == s[|s| - 1] == b[|b| - 1];
    if |b| >= 2 {
      assert x[|x| - 2] == s[|s| - 2] == b[|b| - 2];
    } else {
      assert x[|x| - 2] == w[|w| - 1];
    }
    forall i | 0 <= i < |x| ensures x[i] != '\r' {
      if i < |a| {
        assert s[i] == x[i];
      } else if i < |a| + |w| {
        assert x[i] == w[i - |a|];
      } else {
        assert s[i - |w| + |v|] == x[i];
      }
    }
  }

  lemma {:induction false} DigitsAreNoSpaces(n: nat)
    ensures forall i :: 0 <= i < |Digits(n)| ==> Digits(n)[i] !in SPACES
  {
  }

  lemma {:induction false} BesideTheValue(t: string)
    requires |Matching(Split(t))| == 1 && Terminated(t)
    ensures Before(t) != "" && Behind(t) != ""
  {
    var lines := Split(t);
    var i := Matching(lines)[0];
    SplitIsProper(t);
    OnlyMatchIs(lines, i);
    MatchIsFound(lines[i].body);
    LastEnding(lines);
    assert ProperAt(lines, i);
  }

  /** The line that is added to a config without one. */
  function AddedLine(n: nat): string {
    KEY + ": " + Digits(n) + LF
  }

  lemma {:induction false} AddedLineIsStored(n: nat)
    ensures IsStored(AddedLine(n))
  {
    var y := AddedLine(n);
    DigitsAreNoSpaces(n);
    assert y[0] == KEY[0] && y[|y| - 2] == Digits(n)[|Digits(n)| - 1];
    forall i | 0 <= i < |y| - 1 ensures y[i] != '\n' && y[i] != '\r' {
      if i < |KEY| {
        assert y[i] == KEY[i];
      } else if i < |KEY| + 2 {
        assert y[i] == ": "[i - |KEY|];
      } else {
        assert y[i] == Digits(n)[i - |KEY| - 2];
      }
    }
  }

  lemma {:induction false} StoredConcat(a: string, b: string)
    requires IsStored(a) && IsStored(b)
    ensures IsStored(a + b)
  {
    var x := a + b;
    forall i | 0 < i < |x| && x[i] == '\n' && x[i - 1] != '\n' ensures x[i - 1] !in SPACES {
      if i > |a| { assert x[i] == b[i - |a|] && x[i - 1] == b[i - |a| - 1]; }
    }
  }

  lemma {:induction false} AppendedIs(s: string, n: nat)
    requires s != "" && s[|s| - 1] == '\n' && '\r' !in s
    ensures Appended(s, n) == s + AddedLine(n)
  {
    assert |s| >= 2 ==> s[|s| - 2..][0] == s[|s| - 2];
    assert s + (KEY + ": " + Digits(n)) + LF == s + (KEY + ": " + Digits(n) + LF);
  }

  /** A variant of a stored config is stored as it is. */
  lemma {:induction false} VariantIsStored(s: string, n: nat)
    requires IsStored(s) && n >= 1 && |Matching(Split(s))| <= 1
    ensures Variant(s, n).Edited? && IsStored(Variant(s, n).text)
  {
    if Matching(Split(s)) == [] {
      AppendedIs(s, n);
      AddedLineIsStored(n);
      StoredConcat(s, AddedLine(n));
    } else {
      ValueIsReplaced(s, n);
      BesideTheValue(s);
      DigitsAreNoSpaces(n);
      SplicedIsStored(Before(s), OldValue(s), Digits(n), Behind(s));
    }
  }

  // ---- Families ---------------------------------------------------------------------------------

  lemma {:induction false} BlankHasNoLines()
    ensures Canonical("") == [] && Canonical(LF) == []
  {
    NothingToUnify("");
    NothingToUnify(LF);
    EmptyNormalForm();
    assert Stripped([""]) == [""] && [""][1..] == [];
  }

  lemma {:induction false} BlankLineInFront(y: string)
    requires IsStored(y)
    ensures NormalizeYaml(LF + y) == NormalizeYaml(y)
  {
    NothingToUnify(y);
    NothingToUnify(LF + y);
    assert "" + "\n" + y == LF + y;
    SplitOfLine("", y);
    var lines := Stripped([""] + SplitLF(y));
    assert lines[0] == "" && lines[1..] == Stripped(SplitLF(y));
    NormalFormIs(y);
    NormalFormIs(LF + y);
  }

  lemma {:induction false} BlankSetsNothing()
    ensures Matching(Split(LF)) == [] && Matching(Split("")) == []
  {
    assert Split(LF) == [Line("", LF)] + Split("");
    assert !SetsKey("") by {
      if SetsKey("") { MatchIsFound(""); }
    }
    WhereNone(Marks(Split(LF), SetsKey));
    WhereNone(Marks(Split(""), SetsKey));
  }

  lemma {:induction false} BlankConfigKeepsItsFamily(n: nat)
    requires n >= 1
    ensures Variant(LF, n).Edited?
    ensures NormalizeYaml(Family(NormalizeYaml(Variant(LF, n).text))) == NormalizeYaml(Family(LF))
  {
    var y := AddedLine(n);
    BlankSetsNothing();
    AppendedIs(LF, n);
    AddedLineIsStored(n);
    BlankLineInFront(y);
    StoredIsNormal(y);
    assert "" + (KEY + ": " + Digits(n)) + LF == y;
    assert Variant("", n) == Edited(y);
    FamilyOfVariant("", n);
    BlankHasNoLines();
    NormalFormIs("");
    NormalFormIs(LF);
  }

  /** Main result: whatever a config was written like, each width of it that a sweep stores
      has the family of the stored config itself, through both normal forms. */
  lemma {:induction false} StoredVariantKeepsItsFamily(t: string, n: nat)
    requires n >= 1 && |Matching(Split(NormalizeYaml(t)))| <= 1
    ensures var s := NormalizeYaml(t);
            && Variant(s, n).Edited?
            && NormalizeYaml(Family(NormalizeYaml(Variant(s, n).text))) == NormalizeYaml(Family(s))
  {
    var s := NormalizeYaml(t);
    NormalIsStored(t);
    if s == LF {
      BlankConfigKeepsItsFamily(n);
    } else {
      VariantIsStored(s, n);
      StoredIsNormal(Variant(s, n).text);
      FamilyIsKeptIff(s, n, n);
    }
  }
}
