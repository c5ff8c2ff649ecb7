/** Content addressing. Two texts are one config exactly when their normal forms are equal,
    so the normal form decides what counts as the same config. The name a config gets in a
    downloads folder is lossy, and made by a loop that must end. */
module Hashing {
  import opened Prelude
  import opened Text

  // ---- Lines separated by LF -------------------------------------------------------------

  /** `t.split("\n")`: one more line than there are newlines. */
  function SplitLF(t: string): (r: seq<string>)
    ensures r != []
    decreases |t|
  {
    if t == "" then [""]
    else
      var rest := SplitLF(t[1..]);
      if t[0] == '\n' then [""] + rest else [[t[0]] + rest[0]] + rest[1..]
  }

  function JoinLF(lines: seq<string>): string
    decreases |lines|
  {
    if lines == [] then "" else if |lines| == 1 then lines[0] else lines[0] + "\n" + JoinLF(lines[1..])
  }

  ghost predicate NoLF(lines: seq<string>) {
    forall i :: 0 <= i < |lines| ==> '\n' !in lines[i]
  }

  lemma {:induction false} SplitOfLine(a: string, b: string)
    requires '\n' !in a
    ensures SplitLF(a + "\n" + b) == [a] + SplitLF(b)
    decreases |a|
  {
    var t := a + "\n" + b;
    if a == "" {
      assert t[1..] == b;
    } else {
      assert t[0] == a[0] && t[1..] == a[1..] + "\n" + b;
      SplitOfLine(a[1..], b);
      assert [a[0]] + a[1..] == a;
    }
  }

  lemma {:induction false} SplitOfLast(a: string)
    requires '\n' !in a
    ensures SplitLF(a) == [a]
    decreases |a|
  {
    if a != "" {
      SplitOfLast(a[1..]);
      assert [a[0]] + a[1..] == a;
    }
  }

  lemma {:induction false} SplitHasNoLF(t: string)
    ensures NoLF(SplitLF(t))
    decreases |t|
  {
    if t != "" { SplitHasNoLF(t[1..]); }
  }

  // ---- The normal form -------------------------------------------------------------------

  function Unified(t: string): string {
    Replace(Replace(t, CRLF, LF), CR, LF)
  }

  function Stripped(lines: seq<string>): (r: seq<string>)
    ensures |r| == |lines| && forall i :: 0 <= i < |r| ==> r[i] == TrimRight(lines[i], SPACES)
  {
    seq(|lines|, i requires 0 <= i < |lines| => TrimRight(lines[i], SPACES))
  }

  function NormalizeYaml(t: string): string {
    Trim(JoinLF(Stripped(SplitLF(Unified(t)))), SPACES) + LF
  }

  /** Blank lines dropped at the front, and the indentation of the first line that stays. */
  function FromFirst(lines: seq<string>): seq<string>
    decreases |lines|
  {
    if lines == [] then []
    else
      var first := TrimLeft(lines[0], SPACES);
      if first == "" then FromFirst(lines[1..]) else [first] + lines[1..]
  }

  /** Blank lines dropped at the back. */
  function ToLast(lines: seq<string>): (r: seq<string>)
    ensures r != [] ==> r[|r| - 1] != ""
    decreases |lines|
  {
    if lines == [] then [] else if lines[|lines| - 1] == "" then ToLast(lines[..|lines| - 1]) else lines
  }

  /** What a text says, line by line: the reference for the normal form. */
  function Canonical(t: string): seq<string> {
    ToLast(FromFirst(Stripped(SplitLF(Unified(t)))))
  }

  // ---- Stripping a joined text -------------------------------------------------------------

  ghost predicate Tight(s: string) {
    s != "" ==> s[|s| - 1] !in SPACES
  }

  ghost predicate AllTight(lines: seq<string>) {
    forall i :: 0 <= i < |lines| ==> Tight(lines[i])
  }

  lemma {:induction false} LeadSkips(a: string, b: string)
    requires AllIn(a, SPACES)
    ensures TrimLeft(a + b, SPACES) == TrimLeft(b, SPACES)
    decreases |a|
  {
    if a == "" {
      assert a + b == b;
    } else {
      assert (a + b)[1..] == a[1..] + b;
      LeadSkips(a[1..], b);
      assert (a + b)[Lead(a + b, SPACES)..] == (a[1..] + b)[Lead(a[1..] + b, SPACES)..];
    }
  }

  lemma {:induction false} LeadStops(a: string, b: string)
    requires TrimLeft(a, SPACES) != ""
    ensures TrimLeft(a + b, SPACES) == TrimLeft(a, SPACES) + b
  {
    var k := Lead(a, SPACES);
    assert a + b == a[..k] + (a[k..] + b);
    assert (a[k..] + b)[0] == a[k];
    LeadSkips(a[..k], a[k..] + b);
    assert Lead(a[k..] + b, SPACES) == 0;
  }

  lemma {:induction false} BlankLine(s: string)
    requires TrimLeft(s, SPACES) == ""
    ensures AllIn(s, SPACES)
  {
    assert Lead(s, SPACES) == |s|;
  }

  /** Stripping a joined text at the front drops its blank lines and one indentation. */
  lemma {:induction false} FrontOfJoin(lines: seq<string>)
    ensures TrimLeft(JoinLF(lines), SPACES) == JoinLF(FromFirst(lines))
    decreases |lines|
  {
    if lines != [] {
      var first := TrimLeft(lines[0], SPACES);
      if first == "" {
        BlankLine(lines[0]);
        FrontOfJoin(lines[1..]);
        if |lines| == 1 {
          assert lines[1..] == [];
        } else {
          LeadSkips(lines[0] + "\n", JoinLF(lines[1..]));
        }
      } else if |lines| > 1 {
        var rest := "\n" + JoinLF(lines[1..]);
        LeadStops(lines[0], rest);
        assert JoinLF(lines) == lines[0] + rest;
        assert ([first] + lines[1..])[1..] == lines[1..];
        assert JoinLF([first] + lines[1..]) == first + rest;
      } else {
        assert [first] + lines[1..] == [first];
      }
    }
  }

  lemma {:induction false} JoinMore(lines: seq<string>, l: string)
    requires lines != []
    ensures JoinLF(lines + [l]) == JoinLF(lines) + "\n" + l
    decreases |lines|
  {
    if |lines| == 1 {
      assert (lines + [l])[1..] == [l];
    } else {
      assert (lines + [l])[1..] == lines[1..] + [l];
      JoinMore(lines[1..], l);
      assert lines[0] + "\n" + (JoinLF(lines[1..]) + "\n" + l) == lines[0] + "\n" + JoinLF(lines[1..]) + "\n" + l;
    }
  }

  lemma {:induction false} KeptSkips(a: string)
    ensures TrimRight(a + "\n", SPACES) == TrimRight(a, SPACES)
  {
    var s := a + "\n";
    assert s[|s| - 1] == '\n' && s[..|s| - 1] == a;
  }

  lemma {:induction false} NothingToKeep(s: string)
    requires s != "" && s[|s| - 1] !in SPACES
    ensures TrimRight(s, SPACES) == s
  {
  }

  lemma {:induction false} JoinEnds(lines: seq<string>)
    requires lines != [] && lines[|lines| - 1] != ""
    ensures JoinLF(lines) != "" && JoinLF(lines)[|JoinLF(lines)| - 1] == lines[|lines| - 1][|lines[|lines| - 1]| - 1]
    decreases |lines|
  {
    if |lines| > 1 { JoinEnds(lines[1..]); }
  }

  /** Stripping at the back drops the blank lines there. */
  lemma {:induction false} BackOfJoin(lines: seq<string>)
    requires AllTight(lines)
    ensures TrimRight(JoinLF(lines), SPACES) == JoinLF(ToLast(lines))
    decreases |lines|
  {
    if lines != [] {
      var last := |lines| - 1;
      if lines[last] == "" {
        BackOfJoin(lines[..last]);
        if last > 0 {
          assert lines == lines[..last] + [""];
          JoinMore(lines[..last], "");
          assert JoinLF(lines) == JoinLF(lines[..last]) + "\n";
          KeptSkips(JoinLF(lines[..last]));
        }
      } else {
        JoinEnds(lines);
        NothingToKeep(JoinLF(lines));
      }
    }
  }

  lemma {:induction false} StrippedAreTight(lines: seq<string>)
    ensures AllTight(Stripped(lines)) && AllTight(FromFirst(Stripped(lines)))
  {
    FromFirstIsTight(Stripped(lines));
  }

  lemma {:induction false} FromFirstIsTight(lines: seq<string>)
    requires AllTight(lines)
    ensures AllTight(FromFirst(lines))
    decreases |lines|
  {
    if lines != [] && TrimLeft(lines[0], SPACES) == "" {
      FromFirstIsTight(lines[1..]);
    }
  }

  /** The normal form is the text's canonical lines, each ended by LF. */
  lemma {:induction false} NormalFormIs(t: string)
    ensures NormalizeYaml(t) == JoinLF(Canonical(t)) + LF
  {
    var lines := Stripped(SplitLF(Unified(t)));
    FrontOfJoin(lines);
    StrippedAreTight(SplitLF(Unified(t)));
    BackOfJoin(FromFirst(lines));
  }

  // ---- Normalizing again ---------------------------------------------------------------------

  ghost predicate NoCR(lines: seq<string>) {
    forall i :: 0 <= i < |lines| ==> '\r' !in lines[i]
  }

  /** What every canonical form is like. */
  ghost predicate IsCanonical(c: seq<string>) {
    && NoLF(c) && NoCR(c) && AllTight(c)
    && (c != [] ==> c[0] != "" && c[0][0] !in SPACES && c[|c| - 1] != "")
  }

  lemma {:induction false} CRIsReplaced(t: string)
    ensures '\r' !in Replace(t, CR, LF)
    decreases |t|
  {
    if |t| >= 1 {
      CRIsReplaced(t[1..]);
      assert t[..1] == [t[0]];
    }
  }

  lemma {:induction false} SplitHasNoCR(t: string)
    requires '\r' !in t
    ensures NoCR(SplitLF(t))
    decreases |t|
  {
    if t != "" { SplitHasNoCR(t[1..]); }
  }

  lemma {:induction false} FromFirstIsCanonical(lines: seq<string>)
    requires NoLF(lines) && NoCR(lines) && AllTight(lines)
    ensures var f := FromFirst(lines);
            NoLF(f) && NoCR(f) && AllTight(f) && (f != [] ==> f[0] != "" && f[0][0] !in SPACES)
    decreases |lines|
  {
    if lines != [] {
      if TrimLeft(lines[0], SPACES) == "" { FromFirstIsCanonical(lines[1..]); }
    }
  }

  lemma {:induction false} ToLastIsPrefix(lines: seq<string>)
    ensures ToLast(lines) <= lines && (lines != [] && lines[0] != "" ==> ToLast(lines) != [])
    decreases |lines|
  {
    if lines != [] && lines[|lines| - 1] == "" { ToLastIsPrefix(lines[..|lines| - 1]); }
  }

  lemma {:induction false} CanonicalIsCanonical(t: string)
    ensures IsCanonical(Canonical(t))
  {
    var u := Unified(t);
    CRIsReplaced(Replace(t, CRLF, LF));
    SplitHasNoLF(u);
    SplitHasNoCR(u);
    var lines := Stripped(SplitLF(u));
    StrippedAreTight(SplitLF(u));
    forall i | 0 <= i < |lines| ensures '\n' !in lines[i] && '\r' !in lines[i] {
      assert lines[i] <= SplitLF(u)[i];
    }
    FromFirstIsCanonical(lines);
    ToLastIsPrefix(FromFirst(lines));
  }

  lemma {:induction false} SplitOfJoin(c: seq<string>)
    requires NoLF(c) && c != []
    ensures SplitLF(JoinLF(c) + "\n") == c + [""]
    decreases |c|
  {
    if |c| == 1 {
      assert c[0] + "\n" + "" == c[0] + "\n";
      SplitOfLine(c[0], "");
    } else {
      SplitOfJoin(c[1..]);
      assert JoinLF(c) + "\n" == c[0] + "\n" + (JoinLF(c[1..]) + "\n");
      SplitOfLine(c[0], JoinLF(c[1..]) + "\n");
      assert [c[0]] + (c[1..] + [""]) == c + [""];
    }
  }

  lemma {:induction false} JoinHasNoCR(c: seq<string>)
    requires NoCR(c)
    ensures '\r' !in JoinLF(c)
    decreases |c|
  {
    if |c| > 1 { JoinHasNoCR(c[1..]); }
  }

  lemma {:induction false} NothingToUnify(t: string)
    requires '\r' !in t
    ensures Unified(t) == t
  {
    forall i: nat ensures !OccursAt(CRLF, t, i) && !OccursAt(CR, t, i) {
      assert i + 2 <= |t| ==> t[i..i + 2][0] == t[i];
      assert i + 1 <= |t| ==> t[i..i + 1][0] == t[i];
    }
    AbsentIsUnchanged(t, CRLF, LF);
    AbsentIsUnchanged(t, CR, LF);
  }

  lemma {:induction false} CanonicalStays(c: seq<string>)
    requires IsCanonical(c) && c != []
    ensures ToLast(FromFirst(Stripped(c + [""]))) == c
  {
    var lines := c + [""];
    forall i | 0 <= i < |lines| ensures TrimRight(lines[i], SPACES) == lines[i] {
      if i < |c| && c[i] != "" { NothingToKeep(c[i]); }
    }
    assert Stripped(lines) == lines;
    assert lines[0] == c[0] && Lead(c[0], SPACES) == 0;
    assert [c[0]] + lines[1..] == lines;
    assert lines[..|lines| - 1] == c;
  }

  /** The normal form says what the text says. */
  lemma {:induction false} NormalFormKeepsTheLines(t: string)
    ensures Canonical(NormalizeYaml(t)) == Canonical(t)
  {
    var c := Canonical(t);
    NormalFormIs(t);
    CanonicalIsCanonical(t);
    JoinHasNoCR(c);
    NothingToUnify(JoinLF(c) + "\n");
    if c == [] {
      EmptyNormalForm();
    } else {
      SplitOfJoin(c);
      CanonicalStays(c);
    }
  }

  lemma {:induction false} EmptyNormalForm()
    ensures ToLast(FromFirst(Stripped(SplitLF("\n")))) == []
  {
    SplitOfLine("", "");
    assert "" + "\n" + "" == "\n";
    var lines := Stripped(["", ""]);
    assert lines == ["", ""];
    assert lines[1..] == [""] && [""][1..] == [];
  }

  /** Normalizing twice is normalizing once; and two texts have the same normal form, and so
      the same hash input, exactly when their canonical lines agree. */
  lemma {:induction false} NormalizationIsIdempotent(t: string, u: string)
    ensures NormalizeYaml(NormalizeYaml(t)) == NormalizeYaml(t)
    ensures NormalizeYaml(t) == NormalizeYaml(u) <==> Canonical(t) == Canonical(u)
  {
    NormalFormKeepsTheLines(t);
    NormalFormKeepsTheLines(u);
    NormalFormIs(t);
    NormalFormIs(u);
    NormalFormIs(NormalizeYaml(t));
  }

  // ---- What does not matter ---------------------------------------------------------------------

  function Bodies(lines: seq<Line>): (r: seq<string>)
    ensures |r| == |lines| && forall i :: 0 <= i < |r| ==> r[i] == lines[i].body
  {
    seq(|lines|, i requires 0 <= i < |lines| => lines[i].body)
  }

  lemma {:induction false} ReplaceStep(c: char, t: string, s: string)
    requires s != "" && c != s[0]
    ensures Replace([c] + t, s, LF) == [c] + Replace(t, s, LF)
  {
    var u := [c] + t;
    assert u[1..] == t;
    assert |u| >= |s| ==> u[..|s|][0] == c;
  }

  lemma {:induction false} ReplaceSkips(a: string, b: string, s: string)
    requires s != "" && s[0] == '\r' && '\r' !in a
    ensures Replace(a + b, s, LF) == a + Replace(b, s, LF)
    decreases |a|
  {
    if a == "" {
      assert a + b == b;
    } else {
      ReplaceSkips(a[1..], b, s);
      ReplaceStep(a[0], a[1..] + b, s);
      Uncons(a, b);
      Uncons(a, Replace(b, s, LF));
    }
  }

  lemma {:induction false} Uncons(a: string, b: string)
    requires a != ""
    ensures [a[0]] + (a[1..] + b) == a + b
  {
  }

  lemma {:induction false} UnifiedSkips(a: string, b: string)
    requires '\r' !in a
    ensures Unified(a + b) == a + Unified(b)
  {
    ReplaceSkips(a, b, CRLF);
    ReplaceSkips(a, Replace(b, CRLF, LF), CR);
  }

  lemma {:induction false} ReplaceOne(s: string, b: string)
    requires s != ""
    ensures Replace(s + b, s, LF) == LF + Replace(b, s, LF)
  {
    assert (s + b)[..|s|] == s && (s + b)[|s|..] == b;
  }

  lemma {:induction false} LoneCR(b: string)
    requires b != "" ==> b[0] != '\n'
    ensures Replace(CR + b, CRLF, LF) == CR + Replace(b, CRLF, LF)
  {
    var t := CR + b;
    assert |t| >= 2 ==> t[..2][1] == b[0];
    assert t[1..] == b;
  }

  lemma {:induction false} UnifiedEnding(e: string, rest: string)
    requires e == LF || e == CR || e == CRLF
    requires e == CR && rest != "" ==> rest[0] != '\n'
    ensures Unified(e + rest) == LF + Unified(rest)
  {
    var r := Replace(rest, CRLF, LF);
    if e == LF {
      UnifiedSkips(LF, rest);
    } else if e == CRLF {
      ReplaceOne(CRLF, rest);
      ReplaceSkips(LF, r, CR);
    } else {
      LoneCR(rest);
      ReplaceOne(CR, r);
    }
  }

  lemma {:induction false} UnifiedLine(l: Line, rest: string)
    requires Unbroken(l.body) && (l.ending == LF || l.ending == CR || l.ending == CRLF)
    requires l.ending == CR && rest != "" ==> rest[0] != '\n'
    ensures Unified(l.body + l.ending + rest) == l.body + "\n" + Unified(rest)
  {
    var tail := l.ending + rest;
    assert l.body + l.ending + rest == l.body + tail;
    UnifiedSkips(l.body, tail);
    UnifiedEnding(l.ending, rest);
    assert l.body + (LF + Unified(rest)) == l.body + "\n" + Unified(rest);
  }

  /** The lines the hash sees are the lines of the text, whatever their endings. */
  lemma {:induction false} LinesSeen(lines: seq<Line>)
    requires Proper(lines)
    ensures SplitLF(Unified(Join(lines))) ==
      Bodies(lines) + if lines == [] || lines[|lines| - 1].ending != "" then [""] else []
    decreases |lines|
  {
    if lines != [] {
      var l := lines[0];
      assert ProperAt(lines, 0);
      ProperRest(lines);
      var rest := lines[1..];
      assert Bodies(lines) == [l.body] + Bodies(rest);
      if l.ending == "" {
        assert Join(lines) == l.body;
        NothingToUnify(l.body);
        SplitOfLast(l.body);
      } else {
        LinesSeen(rest);
        if rest != [] { JoinStarts(rest); }
        UnifiedLine(l, Join(rest));
        SplitOfLine(l.body, Unified(Join(rest)));
      }
    }
  }

  lemma {:induction false} TrailingBlankIsDropped(lines: seq<string>)
    ensures ToLast(FromFirst(lines + [""])) == ToLast(FromFirst(lines))
    decreases |lines|
  {
    if lines == [] {
      assert lines + [""] == [""] && [""][1..] == [];
    } else {
      var first := TrimLeft(lines[0], SPACES);
      assert (lines + [""])[1..] == lines[1..] + [""];
      if first == "" {
        TrailingBlankIsDropped(lines[1..]);
      } else {
        var f := [first] + lines[1..];
        assert [first] + (lines[1..] + [""]) == f + [""];
        assert (f + [""])[..|f|] == f;
      }
    }
  }

  lemma {:induction false} CanonicalOfLines(lines: seq<Line>)
    requires Proper(lines)
    ensures Canonical(Join(lines)) == ToLast(FromFirst(Stripped(Bodies(lines))))
  {
    LinesSeen(lines);
    var b := Bodies(lines);
    assert Stripped(b + [""]) == Stripped(b) + [""];
    assert b + [] == b;
    TrailingBlankIsDropped(Stripped(b));
  }

  /** What counts of a text: its lines without trailing whitespace, without blank lines at
      either end, and without the indentation of the first. */
  function Said(t: string): seq<string> {
    ToLast(FromFirst(Stripped(Bodies(Split(t)))))
  }

  /** Two texts have the same normal form exactly when they say the same. In particular line
      endings and trailing whitespace do not matter. */
  lemma {:induction false} SameNormalFormIff(a: string, b: string)
    ensures NormalizeYaml(a) == NormalizeYaml(b) <==> Said(a) == Said(b)
    ensures Stripped(Bodies(Split(a))) == Stripped(Bodies(Split(b))) ==> NormalizeYaml(a) == NormalizeYaml(b)
  {
    SplitIsProper(a);
    SplitIsProper(b);
    CanonicalOfLines(Split(a));
    CanonicalOfLines(Split(b));
    NormalizationIsIdempotent(a, b);
  }

  lemma {:induction false} SplitAfterBlanks(w: string, u: string)
    requires '\n' !in w
    ensures SplitLF(w + u) == [w + SplitLF(u)[0]] + SplitLF(u)[1..]
    decreases |w|
  {
    if w == "" {
      assert w + u == u && w + SplitLF(u)[0] == SplitLF(u)[0];
      assert [SplitLF(u)[0]] + SplitLF(u)[1..] == SplitLF(u);
    } else {
      SplitAfterBlanks(w[1..], u);
      assert (w + u)[1..] == w[1..] + u && (w + u)[0] == w[0];
      assert [w[0]] + (w[1..] + SplitLF(u)[0]) == w + SplitLF(u)[0];
    }
  }

  lemma {:induction false} TrimBoth(w: string, l: string)
    requires AllIn(w, SPACES)
    ensures TrimLeft(TrimRight(w + l, SPACES), SPACES) == TrimLeft(TrimRight(l, SPACES), SPACES)
  {
    var k := Kept(l, SPACES);
    var tail := l[k..];
    assert AllIn(tail, SPACES);
    assert l == l[..k] + tail;
    if k > 0 {
      assert w + l == (w + l[..k]) + tail;
      TrimRightIs(w + l[..k], tail, SPACES);
      LeadSkips(w, l[..k]);
    } else {
      assert AllIn(w + l, SPACES);
      assert w + l == "" + (w + l);
      TrimRightIs("", w + l, SPACES);
      assert TrimRight(l, SPACES) == "" && TrimRight(w + l, SPACES) == "";
    }
  }

  /** The indentation of the first line is lost, which the source calls insignificant. */
  lemma {:induction false} FirstIndentationIsLost(w: string, t: string)
    requires AllIn(w, BLANKS)
    ensures NormalizeYaml(w + t) == NormalizeYaml(t)
  {
    var lines := SplitLF(Unified(t));
    UnifiedSkips(w, t);
    SplitAfterBlanks(w, Unified(t));
    assert SplitLF(Unified(w + t)) == [w + lines[0]] + lines[1..];
    IndentedStart(w, lines);
    NormalFormIs(w + t);
    NormalFormIs(t);
  }

  lemma {:induction false} IndentedStart(w: string, lines: seq<string>)
    requires AllIn(w, SPACES) && lines != []
    ensures FromFirst(Stripped([w + lines[0]] + lines[1..])) == FromFirst(Stripped(lines))
  {
    var indented := Stripped([w + lines[0]] + lines[1..]);
    var plain := Stripped(lines);
    TrimBoth(w, lines[0]);
    assert indented[1..] == plain[1..];
  }

  // ---- Names -----------------------------------------------------------------------------------------

  predicate IsWordChar(c: char) {
    'a' <= c <= 'z' || '0' <= c <= '9' || c == '_' || c == '-'
  }

  function Lower(c: char): char {
    if 'A' <= c <= 'Z' then c - 'A' + 'a' else c
  }

  function Mapped(s: string): (r: string)
    ensures |r| == |s| && forall i :: 0 <= i < |r| ==> IsWordChar(r[i])
  {
    seq(|s|, i requires 0 <= i < |s| => if IsWordChar(Lower(s[i])) then Lower(s[i]) else '-')
  }

  const DASH: string := "-"
  const DASHES: string := "--"
  const SLUG_LIMIT: nat := 60

  /** Every run of dashes made one. */
  function Collapsed(s: string): (r: string)
    ensures s != "" ==> r != "" && r[0] == s[0]
    ensures forall c :: c in r ==> c in s
    decreases |s|
  {
    if |s| < 2 then s
    else if s[0] == '-' && s[1] == '-' then Collapsed(s[1..])
    else [s[0]] + Collapsed(s[1..])
  }

  ghost predicate NoDoubleDash(s: string) {
    forall i :: 0 <= i < |s| - 1 ==> !(s[i] == '-' && s[i + 1] == '-')
  }

  lemma {:induction false} CollapsedHasSingles(s: string)
    ensures NoDoubleDash(Collapsed(s)) && |Collapsed(s)| <= |s|
    decreases |s|
  {
    if |s| >= 2 { CollapsedHasSingles(s[1..]); }
  }

  lemma {:induction false} SinglesStay(s: string)
    requires NoDoubleDash(s)
    ensures Collapsed(s) == s
    decreases |s|
  {
    if |s| >= 2 {
      SinglesStay(s[1..]);
      assert [s[0]] + s[1..] == s;
    }
  }

  lemma {:induction false} CollapseCons(c: char, a: string, b: string)
    requires Collapsed(a) == Collapsed(b)
    ensures Collapsed([c] + a) == Collapsed([c] + b)
  {
    assert ([c] + a)[1..] == a && ([c] + b)[1..] == b;
    if a != "" && b != "" {
      assert a[0] == Collapsed(a)[0] == b[0];
    }
  }

  /** Replacing each pair of dashes by one does not change what the runs collapse to. */
  lemma {:induction false} ReplacingKeepsCollapsed(s: string)
    ensures Collapsed(Replace(s, DASHES, DASH)) == Collapsed(s)
    ensures OccursAt(DASHES, s, 0) ==> |Replace(s, DASHES, DASH)| < |s|
    ensures |Replace(s, DASHES, DASH)| <= |s|
    decreases |s|
  {
    if |s| >= 2 {
      if s[..2] == DASHES {
        ReplacingKeepsCollapsed(s[2..]);
        CollapseCons('-', Replace(s[2..], DASHES, DASH), s[2..]);
        assert s[1..] == ['-'] + s[2..];
      } else {
        ReplacingKeepsCollapsed(s[1..]);
        CollapseCons(s[0], Replace(s[1..], DASHES, DASH), s[1..]);
        assert [s[0]] + s[1..] == s;
      }
    }
  }

  lemma {:induction false} ReplacingShortens(s: string, i: nat)
    requires OccursAt(DASHES, s, i)
    ensures |Replace(s, DASHES, DASH)| < |s|
    decreases |s|
  {
    ReplacingKeepsCollapsed(s);
    if s[..2] != DASHES {
      assert i > 0 by { assert s[0..2] == s[..2]; }
      assert s[1..][i - 1..i + 1] == s[i..i + 2];
      ReplacingShortens(s[1..], i - 1);
    }
  }

  function Cut(slug: string): string {
    var cut := if |slug| > SLUG_LIMIT then slug[..SLUG_LIMIT] else slug;
    if cut == "" then "config" else cut
  }

  function Slug(text: string): string {
    Cut(Collapsed(Trim(Mapped(Trim(text, SPACES)), DASH)))
  }

  ghost predicate IsName(s: string) {
    (forall i :: 0 <= i < |s| ==> IsWordChar(s[i])) && (s != "" ==> s[0] != '-') && NoDoubleDash(s)
  }

  lemma {:induction false} CutIsAName(slug: string)
    requires IsName(slug)
    ensures IsName(Cut(slug)) && 0 < |Cut(slug)| <= SLUG_LIMIT
  {
  }

  /** A name is not empty, at most sixty word characters, and has neither a leading nor a
      doubled dash. A trailing one can be left by the cut. */
  lemma {:induction false} SlugIsAName(text: string)
    ensures IsName(Slug(text)) && 0 < |Slug(text)| <= SLUG_LIMIT
  {
    var mapped := Mapped(Trim(text, SPACES));
    var trimmed := Trim(mapped, DASH);
    TrimmedWord(mapped);
    CollapsedHasSingles(trimmed);
    CollapsedWord(trimmed);
    CutIsAName(Collapsed(trimmed));
  }

  lemma {:induction false} TrimmedWord(s: string)
    requires forall i :: 0 <= i < |s| ==> IsWordChar(s[i])
    ensures var r := Trim(s, DASH); (forall i :: 0 <= i < |r| ==> IsWordChar(r[i])) && (r != "" ==> r[0] != '-')
  {
    var l := TrimLeft(s, DASH);
    assert forall i :: 0 <= i < |l| ==> l[i] == s[i + Lead(s, DASH)];
    assert l != "" ==> l[0] !in DASH;
    assert '-' in DASH;
  }

  lemma {:induction false} CollapsedWord(s: string)
    requires forall i :: 0 <= i < |s| ==> IsWordChar(s[i])
    ensures forall i :: 0 <= i < |Collapsed(s)| ==> IsWordChar(Collapsed(s)[i])
  {
    forall i | 0 <= i < |Collapsed(s)| ensures IsWordChar(Collapsed(s)[i]) {
      assert Collapsed(s)[i] in s;
    }
  }

  lemma {:induction false} WordsMapToThemselves(s: string)
    requires forall i :: 0 <= i < |s| ==> IsWordChar(s[i])
    ensures Mapped(s) == s
  {
  }

  lemma {:induction false} SlugOfMapped(s: string)
    requires s != "" && Trim(s, SPACES) == s && Trim(Mapped(s), DASH) == Mapped(s) && NoDoubleDash(Mapped(s))
    ensures Slug(s) == if |s| <= 60 then Mapped(s) else Mapped(s)[..60]
  {
    SinglesStay(Mapped(s));
  }

  /** A text that is a name already, and does not end with a dash, is its own name, up to the
      sixtieth character. */
  lemma {:induction false} NamesAreKept(s: string)
    requires IsName(s) && s != "" && s[|s| - 1] != '-'
    ensures Slug(s) == if |s| <= 60 then s else s[..60]
  {
    assert IsWordChar(s[0]) && IsWordChar(s[|s| - 1]);
    TrimNothing(s, SPACES);
    WordsMapToThemselves(s);
    TrimNothing(s, DASH);
    SlugOfMapped(s);
  }

  /** A text without a letter, a digit or an underscore is called "config". */
  lemma {:induction false} NamelessIsConfig(s: string)
    requires forall i :: 0 <= i < |s| ==> !IsLetterOrDigit(s[i]) && s[i] != '_'
    ensures Slug(s) == "config"
  {
    var inner := Trim(s, SPACES);
    forall i | 0 <= i < |inner| ensures Mapped(inner)[i] == '-' {
      TrimmedFrom(s, SPACES, inner[i]);
    }
    AllTrimmed(Mapped(inner), DASH);
  }

  lemma {:induction false} TrimmedFrom(s: string, chars: string, c: char)
    requires c in Trim(s, chars)
    ensures c in s
  {
  }

  lemma {:induction false} AllTrimmed(s: string, chars: string)
    requires forall i :: 0 <= i < |s| ==> s[i] in chars
    ensures Trim(s, chars) == ""
  {
  }

  predicate IsLetterOrDigit(c: char) {
    'a' <= c <= 'z' || 'A' <= c <= 'Z' || '0' <= c <= '9'
  }

  /** A character of a name: capitals lowered, digits and underscores kept, others a dash. */
  predicate Becomes(c: char, d: char) {
    if 'A' <= c <= 'Z' then d as int == c as int + 32
    else if 'a' <= c <= 'z' || '0' <= c <= '9' || c == '_' then d == c
    else d == '-'
  }

  predicate NoTwoOthers(s: string) {
    forall i :: 0 <= i < |s| - 1 ==> IsLetterOrDigit(s[i]) || IsLetterOrDigit(s[i + 1])
  }

  lemma {:induction false} MappedBecomes(s: string)
    requires NoTwoOthers(s)
    ensures forall i :: 0 <= i < |s| ==> Becomes(s[i], Mapped(s)[i])
    ensures NoDoubleDash(Mapped(s))
  {
  }

  /** The name of a text with a letter or digit at both ends and no two other characters next to
      each other: as long, and changed character by character. */
  lemma {:induction false} WordsAreDashed(s: string)
    requires 0 < |s| <= 60 && IsLetterOrDigit(s[0]) && IsLetterOrDigit(s[|s| - 1])
    requires NoTwoOthers(s)
    ensures |Slug(s)| == |s| && forall i :: 0 <= i < |s| ==> Becomes(s[i], Slug(s)[i])
  {
    assert s[0] !in SPACES && s[|s| - 1] !in SPACES;
    TrimNothing(s, SPACES);
    MappedBecomes(s);
    assert Becomes(s[0], Mapped(s)[0]) && Becomes(s[|s| - 1], Mapped(s)[|s| - 1]);
    TrimNothing(Mapped(s), DASH);
    SlugOfMapped(s);
  }

  /** The loop that replaces double dashes ends, and leaves the collapsed name. */
  method SlugOf(text: string) returns (slug: string)
    ensures slug == Slug(text)
  {
    slug := Trim(Mapped(Trim(text, SPACES)), DASH);
    ghost var start := slug;
    var at := FindDashes(slug);
    while at.Some?
      invariant Collapsed(slug) == Collapsed(start)
      invariant at.Some? ==> OccursAt(DASHES, slug, at.value)
      invariant at.None? ==> NoDoubleDash(slug)
      decreases |slug|
    {
      ReplacingKeepsCollapsed(slug);
      ReplacingShortens(slug, at.value);
      slug := Replace(slug, DASHES, DASH);
      at := FindDashes(slug);
    }
    SinglesStay(slug);
    slug := if |slug| > SLUG_LIMIT then slug[..SLUG_LIMIT] else slug;
    if slug == "" { slug := "config"; }
  }

  /** Is there a double dash, and where is the first? */
  method FindDashes(s: string) returns (at: Option<nat>)
    ensures at.Some? ==> OccursAt(DASHES, s, at.value) && forall j :: 0 <= j < at.value ==> !OccursAt(DASHES, s, j)
    ensures at.None? <==> NoDoubleDash(s)
  {
    for i := 0 to |s|
      invariant forall j :: 0 <= j < i ==> !OccursAt(DASHES, s, j)
    {
      if i + 2 <= |s| && s[i..i + 2] == DASHES {
        assert s[i] == '-' && s[i + 1] == '-';
        return Some(i);
      }
    }
    forall i | 0 <= i < |s| - 1 ensures !(s[i] == '-' && s[i + 1] == '-') {
      assert !OccursAt(DASHES, s, i);
      assert s[i..i + 2] == [s[i], s[i + 1]];
    }
    at := None;
  }
}
