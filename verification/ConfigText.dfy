/** The one line of a config the planner edits: `tensor-parallel-size`. Everything else in
    the text is opaque and must survive byte for byte. The same line is read back by the
    planner and by the agent, and leaving it out gives the family that the widths of one
    configuration share. */
module ConfigText {
  import opened Prelude
  import opened Text

  // ---- The line ---------------------------------------------------------------------------

  datatype TpLine = TpLine(key: string, sep: string, value: string, trail: string)

  const KEY: string := "tensor-parallel-size"

  /** The key, with a dash or an underscore for each of its dashes. */
  predicate IsKey(s: string) {
    |s| == 20 && forall i :: 0 <= i < 20 ==> s[i] == KEY[i] || (s[i] == '_' && KEY[i] == '-')
  }

  predicate ColonAt(s: string, colon: nat) {
    colon < |s| && s[colon] == ':' && AllIn(s[..colon], BLANKS) && AllIn(s[colon + 1..], BLANKS)
  }

  ghost predicate IsSeparator(s: string) {
    exists colon: nat :: ColonAt(s, colon)
  }

  predicate CommentAt(s: string, hash: nat) {
    hash <= |s| && AllIn(s[..hash], BLANKS) && (hash < |s| ==> s[hash] == '#')
  }

  ghost predicate IsTrail(s: string) {
    exists hash: nat :: CommentAt(s, hash)
  }

  function Show(m: TpLine): string {
    m.key + m.sep + m.value + m.trail
  }

  predicate StartsWithBlank(s: string) {
    s != "" && s[0] in BLANKS
  }

  predicate EndsWithBlank(s: string) {
    s != "" && s[|s| - 1] in BLANKS
  }

  /** What the pattern means: a key at column zero, a separator as wide as it goes, a value
      as narrow as it goes, and blanks or a comment to the end of the line. */
  ghost predicate Denotes(m: TpLine, body: string) {
    && body == Show(m) && IsKey(m.key)
    && IsSeparator(m.sep) && !StartsWithBlank(m.value + m.trail)
    && '#' !in m.value && !EndsWithBlank(m.value) && IsTrail(m.trail)
  }

  function HashAt(s: string): (h: nat)
    ensures h <= |s| && '#' !in s[..h] && (h < |s| ==> s[h] == '#')
    decreases |s|
  {
    if s == "" || s[0] == '#' then 0
    else
      var h := 1 + HashAt(s[1..]);
      assert s[..h] == [s[0]] + s[1..][..h - 1];
      h
  }

  /** How long the separator is. */
  function SepLength(rest: string): (k: Option<nat>)
    ensures k.Some? ==> k.value <= |rest|
  {
    var colon := Lead(rest, BLANKS);
    if colon == |rest| || rest[colon] != ':' then None else Some(colon + 1 + Lead(rest[colon + 1..], BLANKS))
  }

  function Value(content: string): (v: string)
    ensures v <= content
  {
    TrimRight(content[..HashAt(content)], BLANKS)
  }

  function MatchTp(body: string): Option<TpLine> {
    if |body| < 20 || !IsKey(body[..20]) then None
    else
      var rest := body[20..];
      var k := SepLength(rest);
      if k.None? then None
      else
        var content := rest[k.value..];
        var value := Value(content);
        Some(TpLine(body[..20], rest[..k.value], value, content[|value|..]))
  }

  lemma {:induction false} HashIsAt(a: string, b: string)
    requires '#' !in a && (b != "" ==> b[0] == '#')
    ensures HashAt(a + b) == |a|
    decreases |a|
  {
    if a == "" {
      assert a + b == b;
    } else {
      assert (a + b)[0] == a[0] && (a + b)[1..] == a[1..] + b;
      HashIsAt(a[1..], b);
    }
  }

  lemma {:induction false} LeadIs(a: string, b: string, chars: string)
    requires AllIn(a, chars) && (b != "" ==> b[0] !in chars)
    ensures Lead(a + b, chars) == |a|
  {
    assert forall i :: 0 <= i < |a| ==> (a + b)[i] == a[i];
    assert b != "" ==> (a + b)[|a|] == b[0];
  }

  lemma {:induction false} SepFinds(sep: string, content: string)
    requires IsSeparator(sep) && !StartsWithBlank(content)
    ensures SepLength(sep + content) == Some(|sep|)
  {
    var colon: nat :| ColonAt(sep, colon);
    var rest := sep + content;
    var fromColon := sep[colon..] + content;
    assert rest == sep[..colon] + fromColon && fromColon[0] == ':';
    LeadIs(sep[..colon], fromColon, BLANKS);
    assert rest[colon] == ':';
    assert rest[colon + 1..] == sep[colon + 1..] + content;
    LeadIs(sep[colon + 1..], content, BLANKS);
  }

  lemma {:induction false} SepIsFound(rest: string)
    requires SepLength(rest).Some?
    ensures var k := SepLength(rest).value; !StartsWithBlank(rest[k..]) && IsSeparator(rest[..k])
  {
    var colon := Lead(rest, BLANKS);
    var b := Lead(rest[colon + 1..], BLANKS);
    CutTwice(rest, colon + 1, b);
    ColonStays(rest, colon, colon + 1 + b);
    assert ColonAt(rest[..colon + 1 + b], colon);
  }

  lemma {:induction false} ColonStays(rest: string, colon: nat, k: nat)
    requires colon < k <= |rest|
    ensures rest[..k][..colon] == rest[..colon] && rest[..k][colon] == rest[colon]
  {
  }

  lemma {:induction false} CutTwice(s: string, i: nat, b: nat)
    requires i + b <= |s|
    ensures s[i + b..] == s[i..][b..] && s[..i + b][i..] == s[i..][..b]
  {
  }

  lemma {:induction false} ValueFinds(value: string, trail: string)
    requires '#' !in value && !EndsWithBlank(value) && IsTrail(trail)
    ensures Value(value + trail) == value
  {
    var hash: nat :| CommentAt(trail, hash);
    var blanks := trail[..hash];
    var comment := trail[hash..];
    assert '#' !in blanks;
    assert value + trail == (value + blanks) + comment;
    HashIsAt(value + blanks, comment);
    assert (value + trail)[..|value + blanks|] == value + blanks;
    TrimRightIs(value, blanks, BLANKS);
  }

  lemma {:induction false} ValueIsFound(content: string)
    ensures var v := Value(content); '#' !in v && !EndsWithBlank(v) && IsTrail(content[|v|..])
  {
    var h := HashAt(content);
    var k := Kept(content[..h], BLANKS);
    assert Value(content) == content[..k];
    assert forall i :: k <= i < h ==> content[..h][i] == content[i];
    assert CommentAt(content[k..], h - k);
  }

  lemma {:induction false} Regroup(a: string, b: string, c: string, d: string)
    ensures a + b + c + d == a + (b + (c + d))
  {
  }

  lemma {:induction false} CutAt(a: string, b: string)
    ensures (a + b)[..|a|] == a && (a + b)[|a|..] == b
  {
  }

  lemma {:induction false} MatchFinds(body: string, m: TpLine)
    requires Denotes(m, body)
    ensures MatchTp(body) == Some(m)
  {
    var content := m.value + m.trail;
    var rest := m.sep + content;
    Regroup(m.key, m.sep, m.value, m.trail);
    CutAt(m.key, rest);
    CutAt(m.value, m.trail);
    CutAt(m.sep, content);
    SepFinds(m.sep, content);
    ValueFinds(m.value, m.trail);
  }

  lemma {:induction false} PartsDenote(key: string, sep: string, content: string)
    requires IsKey(key) && IsSeparator(sep) && !StartsWithBlank(content)
    ensures var v := Value(content); Denotes(TpLine(key, sep, v, content[|v|..]), key + (sep + content))
  {
    var v := Value(content);
    ValueIsFound(content);
    Rejoin(content, |v|);
    Regroup(key, sep, v, content[|v|..]);
  }

  lemma {:induction false} MatchIsFound(body: string)
    requires MatchTp(body).Some?
    ensures Denotes(MatchTp(body).value, body)
  {
    var rest := body[20..];
    var k := SepLength(rest).value;
    SepIsFound(rest);
    PartsDenote(body[..20], rest[..k], rest[k..]);
    Rejoin(rest, k);
    Rejoin(body, 20);
  }

  lemma {:induction false} Rejoin(s: string, k: nat)
    requires k <= |s|
    ensures s[..k] + s[k..] == s
  {
  }

  /** The parse is the only one with the widest separator and the narrowest value. */
  lemma {:induction false} MatchIff(body: string, m: TpLine)
    ensures MatchTp(body) == Some(m) <==> Denotes(m, body)
  {
    if Denotes(m, body) { MatchFinds(body, m); }
    if MatchTp(body) == Some(m) { MatchIsFound(body); }
  }

  function WithValue(m: TpLine, n: nat): TpLine {
    m.(value := Digits(n))
  }

  lemma {:induction false} RewriteDenotes(m: TpLine, body: string, n: nat)
    requires Denotes(m, body)
    ensures Denotes(WithValue(m, n), Show(WithValue(m, n)))
  {
    var d := Digits(n);
    assert (d + m.trail)[0] == d[0];
    assert IsDigit(d[0]) && IsDigit(d[|d| - 1]);
    assert '#' !in d;
  }

  /** Writing a number over the value changes the value and nothing else. */
  lemma {:induction false} RewriteKeepsTheRest(body: string, n: nat)
    requires MatchTp(body).Some?
    ensures MatchTp(Show(WithValue(MatchTp(body).value, n))) == Some(WithValue(MatchTp(body).value, n))
  {
    MatchIsFound(body);
    var m := MatchTp(body).value;
    RewriteDenotes(m, body, n);
    MatchFinds(Show(WithValue(m, n)), WithValue(m, n));
  }

  // ---- The text -----------------------------------------------------------------------------

  predicate SetsKey(body: string) {
    MatchTp(body).Some?
  }

  predicate IsTp(l: Line) {
    SetsKey(l.body)
  }

  /** Which lines have a body that satisfies `f`. */
  function Marks(lines: seq<Line>, f: string -> bool): (m: seq<bool>)
    ensures |m| == |lines| && forall i {:trigger m[i]} :: 0 <= i < |m| ==> m[i] == f(lines[i].body)
  {
    seq(|lines|, i requires 0 <= i < |lines| => f(lines[i].body))
  }

  /** The positions of the marks, in order. */
  function Where(marks: seq<bool>): (at: seq<nat>)
    ensures |at| <= |marks|
    decreases |marks|
  {
    if marks == [] then []
    else
      var last := |marks| - 1;
      if marks[last] then Where(marks[..last]) + [last] else Where(marks[..last])
  }

  /** The lines that set the key, by index. */
  function Matching(lines: seq<Line>): (at: seq<nat>)
    ensures |at| <= |lines|
  {
    Where(Marks(lines, SetsKey))
  }

  lemma {:induction false} WhereIs(marks: seq<bool>, i: nat)
    ensures i in Where(marks) <==> i < |marks| && marks[i]
    decreases |marks|
  {
    if marks != [] {
      var last := |marks| - 1;
      WhereIs(marks[..last], i);
      assert Where(marks) == Where(marks[..last]) + if marks[last] then [last] else [];
    }
  }

  lemma {:induction false} WhereAscends(marks: seq<bool>, a: nat, b: nat)
    requires b < |Where(marks)|
    ensures Where(marks)[b] < |marks|
    ensures a < b ==> Where(marks)[a] < Where(marks)[b]
    decreases |marks|
  {
    var last := |marks| - 1;
    var before := Where(marks[..last]);
    if b < |before| {
      WhereAscends(marks[..last], a, b);
    } else if a < b {
      WhereAscends(marks[..last], a, a);
    }
  }

  lemma {:induction false} WhereNone(marks: seq<bool>)
    ensures Where(marks) == [] <==> forall j :: 0 <= j < |marks| ==> !marks[j]
    decreases |marks|
  {
    if marks != [] {
      WhereNone(marks[..|marks| - 1]);
    }
  }

  lemma {:induction false} WhereOnce(marks: seq<bool>, i: nat)
    ensures Where(marks) == [i] <==> OnlyMarked(marks, i)
    decreases |marks|
  {
    if marks != [] {
      var last := |marks| - 1;
      var init := marks[..last];
      assert forall j :: 0 <= j < last ==> init[j] == marks[j];
      if marks[last] {
        WhereNone(init);
        assert Where(marks)[|Where(init)|] == last;
      } else {
        WhereOnce(init, i);
        assert Where(marks) == Where(init);
      }
    }
  }

  ghost predicate OnlyMarked(marks: seq<bool>, i: nat) {
    i < |marks| && marks[i] && forall j :: 0 <= j < |marks| && marks[j] ==> j == i
  }

  /** Line `i` sets the key and no other does. */
  ghost predicate OnlyTp(lines: seq<Line>, i: nat) {
    OnlyMarked(Marks(lines, SetsKey), i)
  }

  lemma {:induction false} OnlyMatchIs(lines: seq<Line>, i: nat)
    ensures Matching(lines) == [i] <==> OnlyTp(lines, i)
    ensures OnlyTp(lines, i) ==> i < |lines| && IsTp(lines[i])
  {
    WhereOnce(Marks(lines, SetsKey), i);
    if OnlyTp(lines, i) {
      assert Marks(lines, SetsKey)[i];
    }
  }

  datatype EditError = TooSmall(size: int) | SetMoreThanOnce(at: seq<nat>)

  datatype Edit = Edited(text: string) | Refused(error: EditError)

  predicate Terminated(t: string) {
    t != "" && (t[|t| - 1] == '\n' || t[|t| - 1] == '\r')
  }

  function Newline(t: string): string {
    if |t| >= 2 && t[|t| - 2..] == CRLF then CRLF else LF
  }

  function Rewritten(l: Line, n: nat): Line
    requires IsTp(l)
  {
    Line(Show(WithValue(MatchTp(l.body).value, n)), l.ending)
  }

  function Appended(t: string, n: nat): string {
    (if t == "" || Terminated(t) then t else t + Newline(t)) + (KEY + ": " + Digits(n)) + Newline(t)
  }

  function Variant(t: string, n: int): Edit {
    var lines := Split(t);
    var at := Matching(lines);
    if n < 1 then Refused(TooSmall(n))
    else if |at| > 1 then Refused(SetMoreThanOnce(at))
    else if at == [] then Edited(Appended(t, n))
    else
      OnlyMatchIs(lines, at[0]);
      Edited(Join(lines[at[0] := Rewritten(lines[at[0]], n)]))
  }

  const QUOTES: string := "\"'"

  function ValueOf(l: Line): Option<int>
    requires IsTp(l)
  {
    ParseInt(Trim(Trim(MatchTp(l.body).value.value, SPACES), QUOTES))
  }

  /** The first line whose body satisfies `f`. */
  function FirstWhere(lines: seq<Line>, f: string -> bool): (i: nat)
    ensures i <= |lines| && (i < |lines| ==> f(lines[i].body))
    ensures forall j :: 0 <= j < i ==> !f(lines[j].body)
    decreases |lines|
  {
    if lines == [] || f(lines[0].body) then 0 else 1 + FirstWhere(lines[1..], f)
  }

  /** The first line that sets the key. */
  function FirstTp(lines: seq<Line>): (i: nat)
    ensures i <= |lines| && (i < |lines| ==> IsTp(lines[i]))
  {
    FirstWhere(lines, SetsKey)
  }

  /** The first line that sets the key decides. */
  function ReadLines(lines: seq<Line>): Option<int> {
    if FirstTp(lines) < |lines| then ValueOf(lines[FirstTp(lines)]) else None
  }

  function ReadTp(t: string): Option<int> {
    ReadLines(Split(t))
  }

  function Without(lines: seq<Line>, i: nat): seq<Line>
    requires i < |lines|
  {
    lines[..i] + lines[i + 1..]
  }

  /** The text without its line, which is what two widths of one configuration share. */
  function Family(t: string): string {
    var lines := Split(t);
    var at := Matching(lines);
    if |at| != 1 then t
    else
      OnlyMatchIs(lines, at[0]);
      Join(Without(lines, at[0]))
  }

  // ---- Lines of an edited text -----------------------------------------------------------------

  lemma {:induction false} JoinAppend(a: seq<Line>, b: seq<Line>)
    ensures Join(a + b) == Join(a) + Join(b)
    decreases |a|
  {
    if a == [] {
      assert a + b == b;
    } else {
      assert (a + b)[1..] == a[1..] + b;
      JoinAppend(a[1..], b);
    }
  }

  lemma {:induction false} JoinAround(lines: seq<Line>, i: nat)
    requires i < |lines|
    ensures Join(lines) == Join(lines[..i]) + (lines[i].body + lines[i].ending + Join(lines[i + 1..]))
  {
    assert lines == lines[..i] + lines[i..];
    JoinAppend(lines[..i], lines[i..]);
    assert lines[i..][1..] == lines[i + 1..];
  }

  lemma {:induction false} LastEnding(lines: seq<Line>)
    requires Proper(lines) && lines != []
    ensures Terminated(Join(lines)) <==> lines[|lines| - 1].ending != ""
  {
    var i := |lines| - 1;
    assert ProperAt(lines, i);
    JoinAround(lines, i);
    var l := lines[i];
    var t := Join(lines);
    assert Join(lines[i + 1..]) == "";
    assert t == Join(lines[..i]) + (l.body + l.ending);
    var tail := l.body + l.ending;
    assert t[|t| - 1] == tail[|tail| - 1];
    if l.ending == "" {
      assert tail == l.body;
    } else {
      assert tail[|tail| - 1] == l.ending[|l.ending| - 1];
    }
  }

  function NewKey(n: nat, newline: string): Line {
    Line(KEY + ": " + Digits(n), newline)
  }

  lemma {:induction false} DigitsAreUnbroken(n: nat)
    ensures Unbroken(Digits(n))
  {
  }

  lemma {:induction false} UnbrokenParts(a: string, b: string)
    ensures Unbroken(a + b) <==> Unbroken(a) && Unbroken(b)
  {
    if '\n' in a { assert '\n' in a + b; }
    if '\r' in a { assert '\r' in a + b; }
    if '\n' in b { assert '\n' in a + b; }
    if '\r' in b { assert '\r' in a + b; }
  }

  lemma {:induction false} KeyIsKey()
    ensures IsKey(KEY) && Unbroken(KEY) && ':' !in KEY
  {
  }

  lemma {:induction false} PlainLine(n: nat)
    ensures var m := TpLine(KEY, ": ", Digits(n), ""); Denotes(m, Show(m))
  {
    KeyIsKey();
    assert ColonAt(": ", 0);
    assert CommentAt("", 0);
    assert Digits(n) + "" == Digits(n);
  }

  lemma {:induction false} NewKeyIsTp(n: nat, newline: string)
    ensures MatchTp(NewKey(n, newline).body) == Some(TpLine(KEY, ": ", Digits(n), ""))
    ensures Unbroken(NewKey(n, newline).body)
  {
    var m := TpLine(KEY, ": ", Digits(n), "");
    PlainLine(n);
    MatchFinds(Show(m), m);
    NoTrail(KEY + ": " + Digits(n));
    KeyIsKey();
    DigitsAreUnbroken(n);
    UnbrokenParts(KEY, ": ");
    UnbrokenParts(KEY + ": ", Digits(n));
  }

  lemma {:induction false} NoTrail(s: string)
    ensures s + "" == s
  {
  }

  lemma {:induction false} RewrittenIsTp(l: Line, n: nat)
    requires IsTp(l) && Unbroken(l.body)
    ensures MatchTp(Rewritten(l, n).body) == Some(WithValue(MatchTp(l.body).value, n))
    ensures Unbroken(Rewritten(l, n).body) && Rewritten(l, n).body != ""
  {
    var m := MatchTp(l.body).value;
    MatchIsFound(l.body);
    RewriteKeepsTheRest(l.body, n);
    DigitsAreUnbroken(n);
    UnbrokenParts(m.key, m.sep);
    UnbrokenParts(m.key + m.sep, m.value);
    UnbrokenParts(m.key + m.sep + m.value, m.trail);
    UnbrokenParts(m.key + m.sep, Digits(n));
    UnbrokenParts(m.key + m.sep + Digits(n), m.trail);
  }

  /** The lines with the last one terminated. */
  function Closed(lines: seq<Line>, newline: string): seq<Line> {
    if lines != [] && lines[|lines| - 1].ending == ""
    then lines[|lines| - 1 := Line(lines[|lines| - 1].body, newline)]
    else lines
  }

  function EditedLines(t: string, n: nat): seq<Line>
    requires |Matching(Split(t))| <= 1
  {
    var lines := Split(t);
    var at := Matching(lines);
    if at == [] then Closed(lines, Newline(t)) + [NewKey(n, Newline(t))]
    else
      OnlyMatchIs(lines, at[0]);
      lines[at[0] := Rewritten(lines[at[0]], n)]
  }

  lemma {:induction false} ReplacedIsProper(lines: seq<Line>, i: nat, l: Line)
    requires Proper(lines) && i < |lines| && Unbroken(l.body) && l.body != "" && l.ending == lines[i].ending
    ensures Proper(lines[i := l])
  {
    var after := lines[i := l];
    forall j | 0 <= j < |after| ensures ProperAt(after, j) {
      assert ProperAt(lines, j) && ProperAt(lines, i);
    }
  }

  lemma {:induction false} ClosedIsProper(lines: seq<Line>, newline: string, l: Line)
    requires Proper(lines) && (newline == LF || newline == CRLF)
    requires Unbroken(l.body) && l.body != "" && l.ending == newline
    ensures Proper(Closed(lines, newline)) && Proper(Closed(lines, newline) + [l])
  {
    var closed := Closed(lines, newline);
    var after := closed + [l];
    forall j | 0 <= j < |after| ensures ProperAt(after, j) && (j < |closed| ==> ProperAt(closed, j)) {
      if j < |lines| {
        assert ProperAt(lines, j);
        assert j + 1 < |lines| ==> ProperAt(lines, j + 1);
      }
    }
  }

  lemma {:induction false} JoinSnoc(lines: seq<Line>, l: Line)
    ensures Join(lines + [l]) == Join(lines) + (l.body + l.ending)
  {
    JoinAppend(lines, [l]);
    NoTrail(l.body + l.ending);
    assert [l][1..] == [];
  }

  lemma {:induction false} ClosingJoins(init: seq<Line>, body: string, newline: string)
    ensures Join(init + [Line(body, newline)]) == Join(init + [Line(body, "")]) + newline
  {
    JoinSnoc(init, Line(body, newline));
    JoinSnoc(init, Line(body, ""));
    NoTrail(body);
    assert Join(init) + (body + newline) == (Join(init) + body) + newline;
  }

  lemma {:induction false} CloseLast(lines: seq<Line>, newline: string)
    requires lines != [] && lines[|lines| - 1].ending == ""
    ensures Join(Closed(lines, newline)) == Join(lines) + newline
  {
    var last := |lines| - 1;
    assert lines == lines[..last] + [Line(lines[last].body, "")];
    assert Closed(lines, newline) == lines[..last] + [Line(lines[last].body, newline)];
    ClosingJoins(lines[..last], lines[last].body, newline);
  }

  lemma {:induction false} ClosedJoins(t: string, newline: string)
    ensures Join(Closed(Split(t), newline)) == if t == "" || Terminated(t) then t else t + newline
  {
    var lines := Split(t);
    SplitIsProper(t);
    if lines != [] {
      LastEnding(lines);
      if lines[|lines| - 1].ending == "" { CloseLast(lines, newline); }
    }
  }

  lemma {:induction false} EditedLinesAreProper(t: string, n: nat)
    requires |Matching(Split(t))| <= 1
    ensures Proper(EditedLines(t, n))
  {
    var lines := Split(t);
    var at := Matching(lines);
    SplitIsProper(t);
    if at == [] {
      NewKeyIsTp(n, Newline(t));
      ClosedIsProper(lines, Newline(t), NewKey(n, Newline(t)));
    } else {
      OnlyMatchIs(lines, at[0]);
      assert ProperAt(lines, at[0]);
      RewrittenIsTp(lines[at[0]], n);
      ReplacedIsProper(lines, at[0], Rewritten(lines[at[0]], n));
    }
  }

  lemma {:induction false} AppendedJoins(t: string, n: nat)
    requires Matching(Split(t)) == []
    ensures Join(EditedLines(t, n)) == Appended(t, n)
  {
    var added := NewKey(n, Newline(t));
    var closed := Closed(Split(t), Newline(t));
    ClosedJoins(t, Newline(t));
    JoinSnoc(closed, added);
    assert Join(closed) + (added.body + added.ending) == Join(closed) + added.body + added.ending;
  }

  /** An edited text splits into the lines the edit made. */
  lemma {:induction false} EditedTextSplits(t: string, n: nat)
    requires n >= 1 && |Matching(Split(t))| <= 1
    ensures Variant(t, n) == Edited(Join(EditedLines(t, n)))
    ensures Split(Join(EditedLines(t, n))) == EditedLines(t, n)
  {
    EditedLinesAreProper(t, n);
    SplitJoin(EditedLines(t, n));
    if Matching(Split(t)) == [] { AppendedJoins(t, n); }
  }

  /** Where no line sets the key, one is added after the text, ended like its last line: with
      CRLF after CRLF and with LF otherwise, and a last line that is not ended is ended first. */
  lemma {:induction false} AddedInStyle(t: string, n: nat)
    requires n >= 1 && Matching(Split(t)) == []
    ensures LastTwo(t) == "\r\n" ==> Variant(t, n) == Edited(t + "tensor-parallel-size: " + Digits(n) + "\r\n")
    ensures t == "" || (LastTwo(t) != "\r\n" && t[|t| - 1] in "\r\n") ==>
              Variant(t, n) == Edited(t + "tensor-parallel-size: " + Digits(n) + "\n")
    ensures t != "" && t[|t| - 1] !in "\r\n" ==>
              Variant(t, n) == Edited(t + "\n" + "tensor-parallel-size: " + Digits(n) + "\n")
  {
    var gap, newline := if t == "" || t[|t| - 1] in "\r\n" then "" else "\n", if LastTwo(t) == "\r\n" then "\r\n" else "\n";
    EndingIs(t);
    AppendedText(t, gap, newline, n);
    assert t + "" == t;
  }

  function LastTwo(t: string): string {
    if |t| < 2 then t else t[|t| - 2..]
  }

  lemma {:induction false} EndingIs(t: string)
    ensures Newline(t) == if LastTwo(t) == "\r\n" then "\r\n" else "\n"
    ensures Terminated(t) <==> t != "" && t[|t| - 1] in "\r\n"
    ensures LastTwo(t) == "\r\n" ==> Terminated(t)
  {
    if LastTwo(t) == "\r\n" { assert LastTwo(t)[1] == t[|t| - 1]; }
  }

  lemma {:induction false} AppendedText(t: string, gap: string, newline: string, n: nat)
    requires Newline(t) == newline && gap == (if t == "" || Terminated(t) then "" else newline)
    ensures Appended(t, n) == t + gap + "tensor-parallel-size: " + Digits(n) + newline
  {
    assert KEY + ": " == "tensor-parallel-size: ";
  }

  // ---- Laws of the edit ------------------------------------------------------------------------------

  lemma {:induction false} WhereTwice(marks: seq<bool>)
    ensures |Where(marks)| > 1 <==> exists i, j :: 0 <= i < j < |marks| && marks[i] && marks[j]
  {
    var at := Where(marks);
    if |at| > 1 {
      WhereAscends(marks, 0, 1);
      WhereIs(marks, at[0]);
      WhereIs(marks, at[1]);
      assert marks[at[0]] && marks[at[1]];
    } else if at == [] {
      WhereNone(marks);
    } else {
      WhereOnce(marks, at[0]);
    }
  }

  /** An edit is refused exactly for a size below one or a text that sets the key on two
      lines. */
  lemma {:induction false} EditIsRefusedIff(t: string, n: int)
    ensures Variant(t, n).Refused? <==>
      n < 1 || exists i, j :: 0 <= i < j < |Split(t)| && IsTp(Split(t)[i]) && IsTp(Split(t)[j])
  {
    var lines := Split(t);
    var m := Marks(lines, SetsKey);
    WhereTwice(m);
    assert forall i :: 0 <= i < |lines| ==> m[i] == IsTp(lines[i]);
  }

  /** Where the edited text sets the key. */
  function EditedAt(t: string): nat
    requires |Matching(Split(t))| <= 1
  {
    if Matching(Split(t)) == [] then |Split(t)| else Matching(Split(t))[0]
  }

  /** The value the edited line had, and its parts. */
  function EditedPart(t: string, n: nat): TpLine
    requires |Matching(Split(t))| <= 1
  {
    var lines := Split(t);
    if Matching(lines) == [] then TpLine(KEY, ": ", Digits(n), "")
    else
      OnlyMatchIs(lines, Matching(lines)[0]);
      WithValue(MatchTp(lines[Matching(lines)[0]].body).value, n)
  }

  lemma {:induction false} ClosingKeepsBodies(lines: seq<Line>, newline: string)
    ensures |Closed(lines, newline)| == |lines|
    ensures forall j :: 0 <= j < |lines| ==> Closed(lines, newline)[j].body == lines[j].body
  {
  }

  lemma {:induction false} MarksOfCons(lines: seq<Line>, l: Line, f: string -> bool)
    ensures Marks(lines + [l], f) == Marks(lines, f) + [f(l.body)]
  {
    var m := Marks(lines + [l], f);
    assert forall j :: 0 <= j < |lines| ==> m[j] == Marks(lines, f)[j];
    assert m[|lines|] == f(l.body);
  }

  lemma {:induction false} MarksOfUpdate(lines: seq<Line>, i: nat, l: Line, f: string -> bool)
    requires i < |lines|
    ensures Marks(lines[i := l], f) == Marks(lines, f)[i := f(l.body)]
  {
    var m := Marks(lines[i := l], f);
    assert forall j :: 0 <= j < |lines| && j != i ==> m[j] == Marks(lines, f)[j];
    assert m[i] == f(l.body);
  }

  lemma {:induction false} MarksOfClosed(lines: seq<Line>, newline: string, f: string -> bool)
    ensures Marks(Closed(lines, newline), f) == Marks(lines, f)
  {
    var m := Marks(Closed(lines, newline), f);
    assert forall j :: 0 <= j < |lines| ==> m[j] == Marks(lines, f)[j];
  }

  lemma {:induction false} EditedLineIsTheOnlyOne(t: string, n: nat)
    requires |Matching(Split(t))| <= 1
    ensures EditedAt(t) < |EditedLines(t, n)|
    ensures MatchTp(EditedLines(t, n)[EditedAt(t)].body) == Some(EditedPart(t, n))
    ensures OnlyTp(EditedLines(t, n), EditedAt(t))
  {
    var lines := Split(t);
    var i := EditedAt(t);
    SplitIsProper(t);
    if Matching(lines) == [] {
      var added := NewKey(n, Newline(t));
      var closed := Closed(lines, Newline(t));
      WhereNone(Marks(lines, SetsKey));
      MarksOfClosed(lines, Newline(t), SetsKey);
      NewKeyIsTp(n, Newline(t));
      MarksOfCons(closed, added, SetsKey);
      assert |closed| == |lines| && EditedLines(t, n) == closed + [added];
    } else {
      OnlyMatchIs(lines, i);
      assert ProperAt(lines, i);
      RewrittenIsTp(lines[i], n);
      MarksOfUpdate(lines, i, Rewritten(lines[i], n), SetsKey);
    }
  }

  lemma {:induction false} FirstWhereIs(lines: seq<Line>, i: nat, f: string -> bool)
    requires OnlyMarked(Marks(lines, f), i)
    ensures FirstWhere(lines, f) == i
  {
    var m := Marks(lines, f);
    var k := FirstWhere(lines, f);
    assert m[i] == f(lines[i].body);
    assert k < |lines| ==> m[k];
  }

  lemma {:induction false} ReadsTheFirst(lines: seq<Line>, i: nat)
    requires OnlyTp(lines, i)
    ensures i < |lines| && IsTp(lines[i]) && ReadLines(lines) == ValueOf(lines[i])
  {
    FirstWhereIs(lines, i, SetsKey);
    assert Marks(lines, SetsKey)[i];
  }

  lemma {:induction false} DigitsReadBack(n: nat)
    ensures ParseInt(Trim(Trim(Digits(n), SPACES), QUOTES)) == Some(n)
  {
    var d := Digits(n);
    assert IsDigit(d[0]) && IsDigit(d[|d| - 1]);
    TrimNothing(d, SPACES);
    TrimNothing(d, QUOTES);
    DigitsParse(n);
  }

  /** Reading a variant gives the size that was written. */
  lemma {:induction false} VariantReadsBack(t: string, n: nat)
    requires n >= 1 && |Matching(Split(t))| <= 1
    ensures Variant(t, n).Edited? && ReadTp(Variant(t, n).text) == Some(n)
  {
    EditedTextSplits(t, n);
    EditedLineIsTheOnlyOne(t, n);
    ReadsTheFirst(EditedLines(t, n), EditedAt(t));
    DigitsReadBack(n);
  }

  lemma {:induction false} RewritingNewKey(n: nat, m: nat, newline: string)
    requires IsTp(NewKey(n, newline))
    ensures Rewritten(NewKey(n, newline), m) == NewKey(m, newline)
  {
    NewKeyIsTp(n, newline);
    NoTrail(KEY + ": " + Digits(m));
  }

  lemma {:induction false} RewritingTwice(l: Line, n: nat, m: nat)
    requires IsTp(l) && IsTp(Rewritten(l, n))
    ensures Rewritten(Rewritten(l, n), m) == Rewritten(l, m)
  {
    RewriteKeepsTheRest(l.body, n);
  }

  lemma {:induction false} UpdateTwice(lines: seq<Line>, i: nat, a: Line, b: Line)
    requires i < |lines|
    ensures lines[i := a][i := b] == lines[i := b]
  {
  }

  lemma {:induction false} UpdateLast(lines: seq<Line>, a: Line, b: Line)
    ensures (lines + [a])[|lines| := b] == lines + [b]
  {
  }

  lemma {:induction false} RewritingAgain(t: string, n: nat, m: nat)
    requires |Matching(Split(t))| <= 1 && EditedAt(t) < |EditedLines(t, n)| && IsTp(EditedLines(t, n)[EditedAt(t)])
    ensures var once := EditedLines(t, n);
            once[EditedAt(t) := Rewritten(once[EditedAt(t)], m)] == EditedLines(t, m)
  {
    var lines := Split(t);
    if Matching(lines) == [] {
      var newline := Newline(t);
      var added := NewKey(n, newline);
      ClosingKeepsBodies(lines, newline);
      assert EditedLines(t, n)[EditedAt(t)] == added;
      RewritingNewKey(n, m, newline);
      UpdateLast(Closed(lines, newline), added, NewKey(m, newline));
    } else {
      var i := EditedAt(t);
      OnlyMatchIs(lines, i);
      RewritingTwice(lines[i], n, m);
      UpdateTwice(lines, i, Rewritten(lines[i], n), Rewritten(lines[i], m));
    }
  }

  /** A second edit overwrites the first. */
  lemma {:induction false} SecondEditOverwrites(t: string, n: nat, m: nat)
    requires n >= 1 && m >= 1 && |Matching(Split(t))| <= 1
    ensures Variant(t, n).Edited? && Variant(Variant(t, n).text, m) == Variant(t, m)
  {
    var once := EditedLines(t, n);
    EditedTextSplits(t, n);
    EditedTextSplits(t, m);
    EditedLineIsTheOnlyOne(t, n);
    OnlyMatchIs(once, EditedAt(t));
    RewritingAgain(t, n, m);
  }

  // ---- What an edit keeps --------------------------------------------------------------------------

  function Before(t: string): string
    requires |Matching(Split(t))| == 1
  {
    var i := Matching(Split(t))[0];
    OnlyMatchIs(Split(t), i);
    var m := MatchTp(Split(t)[i].body).value;
    Join(Split(t)[..i]) + m.key + m.sep
  }

  function OldValue(t: string): string
    requires |Matching(Split(t))| == 1
  {
    var i := Matching(Split(t))[0];
    OnlyMatchIs(Split(t), i);
    MatchTp(Split(t)[i].body).value.value
  }

  function Behind(t: string): string
    requires |Matching(Split(t))| == 1
  {
    var i := Matching(Split(t))[0];
    OnlyMatchIs(Split(t), i);
    MatchTp(Split(t)[i].body).value.trail + Split(t)[i].ending + Join(Split(t)[i + 1..])
  }

  lemma {:induction false} RegroupLine(a: string, k: string, s: string, v: string, tr: string, e: string, r: string)
    ensures a + ((k + s + v + tr) + e + r) == (a + k + s) + v + (tr + e + r)
  {
  }

  lemma {:induction false} JoinAtKey(lines: seq<Line>, i: nat)
    requires i < |lines| && IsTp(lines[i])
    ensures var m := MatchTp(lines[i].body).value;
            Join(lines) == (Join(lines[..i]) + m.key + m.sep) + m.value + (m.trail + lines[i].ending + Join(lines[i + 1..]))
  {
    var m := MatchTp(lines[i].body).value;
    JoinAround(lines, i);
    MatchIsFound(lines[i].body);
    RegroupLine(Join(lines[..i]), m.key, m.sep, m.value, m.trail, lines[i].ending, Join(lines[i + 1..]));
  }

  lemma {:induction false} AroundUpdate(lines: seq<Line>, i: nat, l: Line)
    requires i < |lines|
    ensures lines[i := l][..i] == lines[..i] && lines[i := l][i + 1..] == lines[i + 1..]
    ensures Without(lines[i := l], i) == Without(lines, i)
  {
  }

  lemma {:induction false} KeyIsRewritten(lines: seq<Line>, i: nat, n: nat)
    requires i < |lines| && IsTp(lines[i])
    ensures var m := MatchTp(lines[i].body).value;
            Join(lines[i := Rewritten(lines[i], n)]) ==
              (Join(lines[..i]) + m.key + m.sep) + Digits(n) + (m.trail + lines[i].ending + Join(lines[i + 1..]))
  {
    var once := lines[i := Rewritten(lines[i], n)];
    RewriteKeepsTheRest(lines[i].body, n);
    AroundUpdate(lines, i, Rewritten(lines[i], n));
    JoinAtKey(once, i);
  }

  lemma {:induction false} ValueIsReplaced(t: string, n: nat)
    requires n >= 1 && |Matching(Split(t))| == 1
    ensures t == Before(t) + OldValue(t) + Behind(t)
    ensures Variant(t, n) == Edited(Before(t) + Digits(n) + Behind(t))
  {
    var lines := Split(t);
    var i := Matching(lines)[0];
    SplitIsProper(t);
    OnlyMatchIs(lines, i);
    JoinAtKey(lines, i);
    KeyIsRewritten(lines, i, n);
  }

  lemma {:induction false} AppendedKeeps(t: string, n: nat)
    ensures t <= Appended(t, n)
  {
  }

  /** Every byte outside the value survives: the edit replaces one stretch of the text, or
      adds behind all of it. */
  lemma {:induction false} OnlyTheValueChanges(t: string, n: nat)
    requires n >= 1 && |Matching(Split(t))| <= 1
    ensures Matching(Split(t)) != [] ==>
      t == Before(t) + OldValue(t) + Behind(t) && Variant(t, n) == Edited(Before(t) + Digits(n) + Behind(t))
    ensures Matching(Split(t)) == [] ==> Variant(t, n).Edited? && t <= Variant(t, n).text
  {
    if Matching(Split(t)) == [] { AppendedKeeps(t, n); } else { ValueIsReplaced(t, n); }
  }

  lemma {:induction false} WithoutLast(lines: seq<Line>, l: Line)
    ensures Without(lines + [l], |lines|) == lines
  {
  }

  lemma {:induction false} FamilyOfVariant(t: string, n: nat)
    requires n >= 1 && |Matching(Split(t))| <= 1
    ensures Variant(t, n).Edited?
    ensures Family(Variant(t, n).text) ==
      if Matching(Split(t)) == [] then Join(Closed(Split(t), Newline(t))) else Family(t)
  {
    var lines := Split(t);
    var once := EditedLines(t, n);
    var i := EditedAt(t);
    EditedTextSplits(t, n);
    EditedLineIsTheOnlyOne(t, n);
    OnlyMatchIs(once, i);
    assert Family(Variant(t, n).text) == Join(Without(once, i));
    if Matching(lines) == [] {
      WithoutLast(Closed(lines, Newline(t)), NewKey(n, Newline(t)));
    } else {
      OnlyMatchIs(lines, i);
      AroundUpdate(lines, i, Rewritten(lines[i], n));
    }
  }

  /** All widths of one text are one family; it is the family of the text itself exactly when
      the text sets the key, is empty, or ends with a line terminator. */
  lemma {:induction false} FamilyIsKeptIff(t: string, n: nat, m: nat)
    requires n >= 1 && m >= 1 && |Matching(Split(t))| <= 1
    ensures Variant(t, n).Edited? && Variant(t, m).Edited?
    ensures Family(Variant(t, n).text) == Family(Variant(t, m).text)
    ensures Family(Variant(t, n).text) == Family(t) <==> Matching(Split(t)) != [] || t == "" || Terminated(t)
  {
    FamilyOfVariant(t, n);
    FamilyOfVariant(t, m);
    if Matching(Split(t)) == [] {
      ClosedJoins(t, Newline(t));
      assert |t + Newline(t)| > |t|;
    }
  }

  /** The family of a text that sets the key once is the text without that line: nothing else
      goes. */
  lemma {:induction false} OnlyItsLineGoes(t: string, i: nat)
    requires OnlyTp(Split(t), i)
    ensures var lines := Split(t);
            && i < |lines|
            && t == Join(lines[..i]) + (lines[i].body + lines[i].ending + Join(lines[i + 1..]))
            && Family(t) == Join(lines[..i]) + Join(lines[i + 1..])
  {
    var lines := Split(t);
    SplitIsProper(t);
    OnlyMatchIs(lines, i);
    JoinAround(lines, i);
    JoinAppend(lines[..i], lines[i + 1..]);
  }

  // ---- The agent's reader ------------------------------------------------------------------------------

  function ColonIndex(s: string): (c: nat)
    ensures c <= |s| && ':' !in s[..c] && (c < |s| ==> s[c] == ':')
    decreases |s|
  {
    if s == "" || s[0] == ':' then 0
    else
      var c := 1 + ColonIndex(s[1..]);
      assert s[..c] == [s[0]] + s[1..][..c - 1];
      c
  }

  function Underscored(s: string): (r: string)
    ensures |r| == |s| && forall i :: 0 <= i < |s| ==> r[i] == if s[i] == '-' then '_' else s[i]
  {
    seq(|s|, i requires 0 <= i < |s| => if s[i] == '-' then '_' else s[i])
  }

  const TP_NAME: string := "tensor_parallel_size"
  const PP_NAME: string := "pipeline_parallel_size"

  /** The number a line gives to a name; indentation is ignored, comments and quotes are not. */
  function LineDeclares(body: string, name: string): Option<int> {
    NumberFor(ParseDeclaration(body), name)
  }

  /** A line partitioned at its first colon, if it has one. */
  datatype Declaration = NoColon | Declaration(name: string, number: Option<int>)

  function ParseDeclaration(body: string): Declaration {
    var c := ColonIndex(body);
    if c == |body| then NoColon else Declaration(Underscored(Trim(body[..c], SPACES)), ParseInt(body[c + 1..]))
  }

  function NumberFor(d: Declaration, name: string): Option<int> {
    if d.Declaration? && d.name == name then d.number else None
  }

  function LastOf(lines: seq<Line>, f: string -> Option<int>): Option<int>
    decreases |lines|
  {
    if lines == [] then None
    else
      var last := f(lines[|lines| - 1].body);
      if last.Some? then last else LastOf(lines[..|lines| - 1], f)
  }

  function Declares(name: string): string -> Option<int> {
    body => LineDeclares(body, name)
  }

  /** The last line that declares a number wins. */
  function Declared(lines: seq<Line>, name: string): Option<int> {
    LastOf(lines, Declares(name))
  }

  lemma {:induction false} LastAround(lines: seq<Line>, i: nat, f: string -> Option<int>)
    requires i < |lines|
    ensures LastOf(lines, f) ==
      if LastOf(lines[i + 1..], f).Some? then LastOf(lines[i + 1..], f)
      else if f(lines[i].body).Some? then f(lines[i].body)
      else LastOf(lines[..i], f)
    decreases |lines|
  {
    var last := |lines| - 1;
    if i < last {
      LastAround(lines[..last], i, f);
      assert lines[i + 1..][..last - i - 1] == lines[..last][i + 1..];
      assert lines[..last][..i] == lines[..i];
      assert lines[i + 1..][last - i - 1] == lines[last];
    } else {
      assert lines[i + 1..] == [] && lines[..last] == lines[..i];
    }
  }

  lemma {:induction false} ColonIs(a: string, b: string)
    requires ':' !in a && b != "" && b[0] == ':'
    ensures ColonIndex(a + b) == |a|
    decreases |a|
  {
    if a == "" {
      assert a + b == b;
    } else {
      assert (a + b)[0] == a[0] && (a + b)[1..] == a[1..] + b;
      ColonIs(a[1..], b);
    }
  }

  lemma {:induction false} KeyIsNamed(key: string)
    requires IsKey(key)
    ensures ':' !in key && Trim(key, SPACES) == key && Underscored(key) == TP_NAME
  {
    KeyIsKey();
    assert forall i :: 0 <= i < 20 ==> TP_NAME[i] == if KEY[i] == '-' then '_' else KEY[i];
    TrimNothing(key, SPACES);
  }

  lemma {:induction false} NameOfPadded(key: string, blanks: string)
    requires IsKey(key) && AllIn(blanks, BLANKS)
    ensures Underscored(Trim(key + blanks, SPACES)) == TP_NAME && ':' !in key + blanks
  {
    KeyIsNamed(key);
    assert key[0] == KEY[0] && key[19] == KEY[19];
    assert AllIn(blanks, SPACES);
    TrimIs("", key, blanks, SPACES);
    assert "" + key + blanks == key + blanks;
  }

  lemma {:induction false} NumberAndTrail(before: string, n: nat, trail: string)
    requires AllIn(before, BLANKS) && IsTrail(trail)
    ensures ParseInt(before + Digits(n) + trail) == if '#' in trail then None else Some(n)
  {
    var hash: nat :| CommentAt(trail, hash);
    if '#' in trail {
      assert '#' in before + Digits(n) + trail;
      CommentsAreNoNumbers(before + Digits(n) + trail);
    } else {
      assert hash == |trail| && trail[..hash] == trail;
      assert AllIn(before, SPACES) && AllIn(trail, SPACES);
      DigitsParseBack(before, n, trail);
    }
  }

  lemma {:induction false} LineOf(key: string, blanks: string, before: string, value: string, trail: string)
    requires IsKey(key) && AllIn(blanks, BLANKS)
    ensures LineDeclares((key + blanks) + (":" + (before + value + trail)), TP_NAME) == ParseInt(before + value + trail)
  {
    var a := key + blanks;
    var b := ":" + (before + value + trail);
    NameOfPadded(key, blanks);
    ColonIs(a, b);
    CutAt(a, b);
    assert (a + b)[|a| + 1..] == before + value + trail;
  }

  lemma {:induction false} SeparatorIs(sep: string) returns (blanks: string, before: string)
    requires IsSeparator(sep)
    ensures sep == blanks + ":" + before && AllIn(blanks, BLANKS) && AllIn(before, BLANKS)
  {
    var colon: nat :| ColonAt(sep, colon);
    blanks, before := sep[..colon], sep[colon + 1..];
  }

  lemma {:induction false} RegroupKey(k: string, a: string, b: string, v: string, tr: string)
    ensures k + (a + ":" + b) + v + tr == (k + a) + (":" + (b + v + tr))
  {
  }

  /** The pipeline size's name, with a dash or an underscore for each of its underscores. */
  predicate IsPipelineKey(key: string) {
    var name := "pipeline_parallel_size";
    |key| == |name| && forall i :: 0 <= i < |key| ==> key[i] == name[i] || (key[i] == '-' && name[i] == '_')
  }

  lemma {:induction false} PipelineNameIs()
    ensures |PP_NAME| == 22 && ':' !in PP_NAME && '-' !in PP_NAME
  {
  }

  lemma {:induction false} PipelineKeyIs(key: string)
    requires IsPipelineKey(key)
    ensures Underscored(key) == PP_NAME && ':' !in key && key != "" && key[0] == 'p' && key[|key| - 1] == 'e'
  {
    PipelineNameIs();
    assert forall i :: 0 <= i < 22 ==> PP_NAME[i] in PP_NAME;
  }

  lemma {:induction false} PipelineIsNamed(indent: string, key: string, gap: string)
    requires IsPipelineKey(key) && AllIn(indent, SPACES) && AllIn(gap, SPACES)
    ensures Underscored(Trim(indent + key + gap, SPACES)) == PP_NAME && ':' !in indent + key + gap
  {
    PipelineKeyIs(key);
    TrimIs(indent, key, gap, SPACES);
  }

  lemma {:induction false} ColonAfter(a: string, number: string)
    requires ':' !in a
    ensures var body := a + (":" + number);
            && ColonIndex(body) == |a| < |body| && body[..|a|] == a && body[|a| + 1..] == number
  {
    ColonIs(a, ":" + number);
  }

  lemma {:induction false} ParsedAt(body: string, a: string, number: string)
    requires ColonIndex(body) == |a| < |body| && body[..|a|] == a && body[|a| + 1..] == number
    ensures ParseDeclaration(body) == Declaration(Underscored(Trim(a, SPACES)), ParseInt(number))
  {
  }

  lemma {:induction false} NamedLineIsRead(lines: seq<Line>, i: nat, name: string, other: string, n: nat)
    requires i < |lines| && ParseDeclaration(lines[i].body) == Declaration(name, Some(n)) && name != other
    ensures var later := Declared(lines[i + 1..], name);
            Declared(lines, name) == if later.Some? then later else Some(n)
    ensures LineDeclares(lines[i].body, other) == None
  {
    LastAround(lines, i, Declares(name));
  }

  /** A line that gives the pipeline size in either spelling, indented or not, is read as that
      unless a later one is, and says nothing about the tensor size. */
  lemma {:induction false} PipelineSizeIsRead(lines: seq<Line>, i: nat, indent: string, key: string, gap: string,
                                              before: string, n: nat, after: string)
    requires IsPipelineKey(key) && AllIn(indent, SPACES) && AllIn(gap, SPACES) && AllIn(before, SPACES) && AllIn(after, SPACES)
    requires i < |lines| && lines[i].body == (indent + key + gap) + (":" + (before + Digits(n) + after))
    ensures var later := Declared(lines[i + 1..], PP_NAME);
            Declared(lines, PP_NAME) == if later.Some? then later else Some(n)
    ensures LineDeclares(lines[i].body, TP_NAME) == None
  {
    PipelineIsNamed(indent, key, gap);
    ColonAfter(indent + key + gap, before + Digits(n) + after);
    ParsedAt(lines[i].body, indent + key + gap, before + Digits(n) + after);
    DigitsParseBack(before, n, after);
    NamesDiffer();
    NamedLineIsRead(lines, i, PP_NAME, TP_NAME, n);
  }

  lemma {:induction false} NamesDiffer()
    ensures TP_NAME != PP_NAME
  {
    assert TP_NAME[0] != PP_NAME[0];
  }

  /** The agent reads an edited line exactly when it carries no comment. */
  lemma {:induction false} AgentReadsLineIff(m: TpLine, body: string, n: nat)
    requires Denotes(m, body)
    ensures LineDeclares(Show(WithValue(m, n)), TP_NAME) == if '#' in m.trail then None else Some(n)
  {
    var blanks, before := SeparatorIs(m.sep);
    LineOf(m.key, blanks, before, Digits(n), m.trail);
    NumberAndTrail(before, n, m.trail);
    RegroupKey(m.key, blanks, before, Digits(n), m.trail);
  }

  /** What the agent makes of an edited text: a later line it reads wins, a trailing comment
      hides the size that was written, and otherwise it reads what the planner wrote. */
  lemma {:induction false} AgentReadsVariant(t: string, n: nat)
    requires n >= 1 && |Matching(Split(t))| <= 1
    ensures Variant(t, n).Edited?
    ensures var lines := Split(Variant(t, n).text);
            var i := EditedAt(t);
            && i < |lines|
            && Declared(lines, TP_NAME) ==
                 if Declared(lines[i + 1..], TP_NAME).Some? then Declared(lines[i + 1..], TP_NAME)
                 else if '#' in EditedPart(t, n).trail then Declared(lines[..i], TP_NAME)
                 else Some(n)
  {
    EditedTextSplits(t, n);
    EditedLineIsTheOnlyOne(t, n);
    var lines := EditedLines(t, n);
    var i := EditedAt(t);
    LastAround(lines, i, Declares(TP_NAME));
    MatchIsFound(lines[i].body);
    AgentReadsLineIff(EditedPart(t, n), lines[i].body, n);
    assert WithValue(EditedPart(t, n), n) == EditedPart(t, n);
  }

  /** When no other line declares the size, the agent agrees with the planner about an edited
      text exactly when the edited line has no trailing comment. */
  lemma {:induction false} VariantReadersAgreeIff(t: string, n: nat)
    requires n >= 1 && |Matching(Split(t))| <= 1
    requires var lines := EditedLines(t, n);
             var i := EditedAt(t);
             i < |lines| ==> Declared(lines[i + 1..], TP_NAME) == None && Declared(lines[..i], TP_NAME) == None
    ensures Variant(t, n).Edited?
    ensures Declared(Split(Variant(t, n).text), TP_NAME) == ReadTp(Variant(t, n).text) <==> '#' !in EditedPart(t, n).trail
  {
    EditedTextSplits(t, n);
    AgentReadsVariant(t, n);
    VariantReadsBack(t, n);
  }

  // ---- Two readers of any text ----------------------------------------------------------------------------

  predicate Quoted(v: string) {
    v != "" && (v[0] == '"' || v[0] == '\'' || v[|v| - 1] == '"' || v[|v| - 1] == '\'')
  }

  /** A line both readers take the same way: no comment behind the value and no quote around it. */
  predicate IsPlain(m: TpLine) {
    '#' !in m.trail && !Quoted(m.value)
  }

  lemma {:induction false} QuotedIsNoNumber(v: string)
    requires Quoted(v)
    ensures ParseSigned(v) == None
  {
    assert !IsDigit('"') && !IsDigit('\'') && '"' !in "_+-" && '\'' !in "_+-";
  }

  lemma {:induction false} EndsAreNoSpace(m: TpLine, body: string)
    requires Denotes(m, body) && Unbroken(body) && m.value != ""
    ensures m.value[0] !in SPACES && m.value[|m.value| - 1] !in SPACES
  {
    UnbrokenParts(m.key, m.sep);
    UnbrokenParts(m.key + m.sep, m.value);
    UnbrokenParts(m.key + m.sep + m.value, m.trail);
    assert (m.value + m.trail)[0] == m.value[0];
    assert m.value[0] in m.value && m.value[|m.value| - 1] in m.value;
  }

  /** What the agent parses: everything behind the colon, trimmed. */
  lemma {:induction false} AgentParses(before: string, v: string, trail: string)
    requires AllIn(before, BLANKS) && IsTrail(trail)
    requires v != "" ==> v[0] !in SPACES && v[|v| - 1] !in SPACES
    ensures ParseInt(before + v + trail) == if '#' in trail then None else ParseSigned(v)
  {
    var hash: nat :| CommentAt(trail, hash);
    if '#' in trail {
      assert '#' in before + v + trail;
      CommentsAreNoNumbers(before + v + trail);
    } else {
      assert hash == |trail| && trail[..hash] == trail;
      assert AllIn(before, SPACES) && AllIn(trail, SPACES);
      if v != "" {
        TrimIs(before, v, trail, SPACES);
      } else {
        TrimAll(before + v + trail, SPACES);
      }
    }
  }

  lemma {:induction false} TrimAll(s: string, chars: string)
    requires AllIn(s, chars)
    ensures Trim(s, chars) == ""
  {
    assert Lead(s, chars) == |s|;
  }

  /** What the planner parses: the value without its quotes. */
  lemma {:induction false} PlannerParses(v: string)
    requires v != "" ==> v[0] !in SPACES && v[|v| - 1] !in SPACES
    ensures !Quoted(v) ==> ParseInt(Trim(Trim(v, SPACES), QUOTES)) == ParseSigned(v)
  {
    if v != "" { TrimNothing(v, SPACES); }
    if v != "" && !Quoted(v) { TrimNothing(v, QUOTES); }
  }

  lemma {:induction false} Unquoted(v: string, quote: string, number: string)
    requires v == quote + number + quote && |quote| == 1 && (quote[0] == '"' || quote[0] == '\'')
    requires number != "" && IsDigit(number[0]) && IsDigit(number[|number| - 1])
    ensures Trim(Trim(v, SPACES), QUOTES) == number
  {
    assert v[0] == quote[0] && v[|v| - 1] == quote[0];
    TrimNothing(v, SPACES);
    TrimIs(quote, number, quote, QUOTES);
  }

  lemma {:induction false} PlainDigitsParse(n: nat)
    ensures ParseInt(Digits(n)) == Some(n)
  {
    DigitsParseBack("", n, "");
    assert "" + Digits(n) + "" == Digits(n);
  }

  /** The planner reads a size between quotes of either kind. */
  lemma {:induction false} QuotedSizeIsRead(l: Line, quote: string, n: nat)
    requires IsTp(l) && MatchTp(l.body).value.value == quote + Digits(n) + quote && (quote == "\"" || quote == "'")
    ensures ValueOf(l) == Some(n)
  {
    Unquoted(MatchTp(l.body).value.value, quote, Digits(n));
    PlainDigitsParse(n);
  }

  /** The agent reads a line that sets the key as the planner does when it is plain, and not at
      all when it carries a comment or quotes. */
  lemma {:induction false} AgentLineIs(body: string)
    requires Unbroken(body) && SetsKey(body)
    ensures var m := MatchTp(body).value;
            LineDeclares(body, TP_NAME) == if IsPlain(m) then ParseInt(Trim(Trim(m.value, SPACES), QUOTES)) else None
  {
    var m := MatchTp(body).value;
    MatchIsFound(body);
    if m.value != "" { EndsAreNoSpace(m, body); }
    var blanks, before := SeparatorIs(m.sep);
    LineOf(m.key, blanks, before, m.value, m.trail);
    RegroupKey(m.key, blanks, before, m.value, m.trail);
    AgentParses(before, m.value, m.trail);
    PlannerParses(m.value);
    if Quoted(m.value) { QuotedIsNoNumber(m.value); }
  }

  lemma {:induction false} AgentReadsAround(lines: seq<Line>, i: nat)
    requires i < |lines| && IsTp(lines[i]) && Unbroken(lines[i].body)
    ensures var later := Declared(lines[i + 1..], TP_NAME);
            Declared(lines, TP_NAME) ==
              if later.Some? then later
              else if IsPlain(MatchTp(lines[i].body).value) && ValueOf(lines[i]).Some? then ValueOf(lines[i])
              else Declared(lines[..i], TP_NAME)
  {
    LastAround(lines, i, Declares(TP_NAME));
    AgentLineIs(lines[i].body);
  }

  /** How a line that sets the key at `i` lets the readers agree: a later declaration is what
      the planner read there, or there is none and the line is plain and a number, or what is
      declared before it is what the planner read. */
  predicate AgreeAround(lines: seq<Line>, i: nat)
    requires i < |lines| && IsTp(lines[i])
  {
    var later := Declared(lines[i + 1..], TP_NAME);
    if later.Some? then later == ValueOf(lines[i])
    else (IsPlain(MatchTp(lines[i].body).value) && ValueOf(lines[i]).Some?) || Declared(lines[..i], TP_NAME) == ValueOf(lines[i])
  }

  lemma {:induction false} AgreeAroundIff(lines: seq<Line>, i: nat)
    requires i < |lines| && IsTp(lines[i]) && Unbroken(lines[i].body)
    ensures Declared(lines, TP_NAME) == ValueOf(lines[i]) <==> AgreeAround(lines, i)
  {
    AgentReadsAround(lines, i);
  }

  /** Main result: on any text, planner and agent agree about the size exactly when no line sets
      the key and none declares it, or they agree around the first line that sets it. */
  lemma {:induction false} ReadersAgreeIff(t: string)
    ensures var lines := Split(t);
            var i := FirstTp(lines);
            Declared(lines, TP_NAME) == ReadTp(t) <==>
              if i == |lines| then Declared(lines, TP_NAME) == None else AgreeAround(lines, i)
  {
    var lines := Split(t);
    if FirstTp(lines) < |lines| {
      SplitIsProper(t);
      assert ProperAt(lines, FirstTp(lines));
      AgreeAroundIff(lines, FirstTp(lines));
    }
  }

  lemma {:induction false} AgreeAroundLone(lines: seq<Line>, i: nat)
    requires i < |lines| && IsTp(lines[i])
    requires Declared(lines[..i], TP_NAME) == None && Declared(lines[i + 1..], TP_NAME) == None
    ensures AgreeAround(lines, i) <==> IsPlain(MatchTp(lines[i].body).value) || ValueOf(lines[i]) == None
  {
  }

  /** When the planner's line is the only one that could declare a size, they agree exactly
      when it is plain, or is no number to either. */
  lemma {:induction false} LoneLineReadersAgreeIff(t: string, i: nat)
    requires i == FirstTp(Split(t)) < |Split(t)|
    requires Declared(Split(t)[..i], TP_NAME) == None && Declared(Split(t)[i + 1..], TP_NAME) == None
    ensures Declared(Split(t), TP_NAME) == ReadTp(t) <==>
      IsPlain(MatchTp(Split(t)[i].body).value) || ValueOf(Split(t)[i]) == None
  {
    ReadersAgreeIff(t);
    AgreeAroundLone(Split(t), i);
  }

  // ---- As the source computes them ---------------------------------------------------------------------

  lemma {:induction false} WhereOneMore(marks: seq<bool>, i: nat)
    requires i < |marks|
    ensures Where(marks[..i + 1]) == Where(marks[..i]) + if marks[i] then [i] else []
  {
    assert marks[..i + 1][..i] == marks[..i];
  }

  /** The indices of the lines that set the key. */
  method CollectMatches(lines: seq<Line>) returns (matches: seq<nat>)
    ensures matches == Matching(lines)
  {
    ghost var marks := Marks(lines, SetsKey);
    matches := [];
    for i := 0 to |lines|
      invariant matches == Where(marks[..i])
    {
      WhereOneMore(marks, i);
      if SetsKey(lines[i].body) {
        matches := matches + [i];
      }
    }
    assert marks[..|lines|] == marks;
  }

  method TensorParallelVariant(yaml: string, size: int) returns (r: Edit)
    ensures r == Variant(yaml, size)
  {
    if size < 1 { return Refused(TooSmall(size)); }
    var lines := Split(yaml);
    var matches := CollectMatches(lines);
    if |matches| > 1 { return Refused(SetMoreThanOnce(matches)); }
    if matches == [] {
      var newline := if |yaml| >= 2 && yaml[|yaml| - 2..] == CRLF then CRLF else LF;
      var prefix := if yaml == "" || Terminated(yaml) then yaml else yaml + newline;
      return Edited(prefix + (KEY + ": " + Digits(size)) + newline);
    }
    var index := matches[0];
    OnlyMatchIs(lines, index);
    var m := MatchTp(lines[index].body).value;
    lines := lines[index := Line(m.key + m.sep + Digits(size) + m.trail, lines[index].ending)];
    r := Edited(Join(lines));
  }

  /** The first line whose body satisfies `f`, or the number of lines. */
  method FindFirst(lines: seq<Line>, f: string -> bool) returns (i: nat)
    ensures i == FirstWhere(lines, f)
  {
    i := 0;
    while i < |lines| && !f(lines[i].body)
      invariant i <= FirstWhere(lines, f)
    {
      i := i + 1;
    }
  }

  method ReadTensorParallelSize(yaml: string) returns (r: Option<int>)
    ensures r == ReadTp(yaml)
  {
    var lines := Split(yaml);
    var i := FindFirst(lines, SetsKey);
    r := if i < |lines| then ValueOf(lines[i]) else None;
  }

  method ConfigFamilyText(yaml: string) returns (r: string)
    ensures r == Family(yaml)
  {
    var lines := Split(yaml);
    var matches := CollectMatches(lines);
    if |matches| != 1 { return yaml; }
    OnlyMatchIs(lines, matches[0]);
    lines := lines[..matches[0]] + lines[matches[0] + 1..];
    r := Join(lines);
  }

  lemma {:induction false} LastOneMore(lines: seq<Line>, i: nat, f: string -> Option<int>)
    requires i < |lines|
    ensures LastOf(lines[..i + 1], f) == if f(lines[i].body).Some? then f(lines[i].body) else LastOf(lines[..i], f)
  {
    assert lines[..i + 1][..i] == lines[..i];
  }

  /** What one line makes of the numbers known so far under two names. */
  method KeepDeclared(d: Declaration, tpName: string, ppName: string, tp: Option<int>, pp: Option<int>)
      returns (tp': Option<int>, pp': Option<int>)
    ensures tp' == if NumberFor(d, tpName).Some? then NumberFor(d, tpName) else tp
    ensures pp' == if NumberFor(d, ppName).Some? then NumberFor(d, ppName) else pp
  {
    tp', pp' := tp, pp;
    if d.NoColon? || d.number.None? { return; }
    if d.name == tpName { tp' := d.number; }
    if d.name == ppName { pp' := d.number; }
  }

  method DeclaredParallelism(yaml: string) returns (tp: Option<int>, pp: Option<int>)
    ensures tp == Declared(Split(yaml), TP_NAME) && pp == Declared(Split(yaml), PP_NAME)
  {
    tp, pp := None, None;
    var lines := Split(yaml);
    for i := 0 to |lines|
      invariant tp == LastOf(lines[..i], Declares(TP_NAME)) && pp == LastOf(lines[..i], Declares(PP_NAME))
    {
      LastOneMore(lines, i, Declares(TP_NAME));
      LastOneMore(lines, i, Declares(PP_NAME));
      tp, pp := KeepDeclared(ParseDeclaration(lines[i].body), TP_NAME, PP_NAME, tp, pp);
    }
    assert lines[..|lines|] == lines;
  }
}
