/** Strings as the source handles them: stripping and decimal numbers, splitting a text into
    lines and joining them, finding and replacing. Nothing here knows about configs, logs or
    names; the modules that do build on it. */
module Text {
  import opened Prelude

  // ---- Stripping ------------------------------------------------------------------------

  const BLANKS: string := " \t"
  const SPACES: string := " \t\r\n"

  /** How many characters to drop at the front. */
  function Lead(s: string, chars: string): (k: nat)
    ensures k <= |s| && (k < |s| ==> s[k] !in chars)
    ensures forall i :: 0 <= i < k ==> s[i] in chars
    decreases |s|
  {
    if s != "" && s[0] in chars then 1 + Lead(s[1..], chars) else 0
  }

  /** How many characters to keep when dropping at the back. */
  function Kept(s: string, chars: string): (k: nat)
    ensures k <= |s| && (k > 0 ==> s[k - 1] !in chars)
    ensures forall i :: k <= i < |s| ==> s[i] in chars
    decreases |s|
  {
    if s != "" && s[|s| - 1] in chars then Kept(s[..|s| - 1], chars) else |s|
  }

  function TrimLeft(s: string, chars: string): string {
    s[Lead(s, chars)..]
  }

  function TrimRight(s: string, chars: string): string {
    s[..Kept(s, chars)]
  }

  function Trim(s: string, chars: string): string {
    TrimRight(TrimLeft(s, chars), chars)
  }

  predicate AllIn(s: string, chars: string) {
    forall i :: 0 <= i < |s| ==> s[i] in chars
  }

  /** Stripping finds the middle of a string that has one. */
  lemma {:induction false} TrimLeftIs(a: string, b: string, chars: string)
    requires AllIn(a, chars) && (b != "" ==> b[0] !in chars)
    ensures TrimLeft(a + b, chars) == b
  {
    assert forall i :: 0 <= i < |a| ==> (a + b)[i] == a[i];
    assert b != "" ==> (a + b)[|a|] == b[0];
    assert Lead(a + b, chars) == |a|;
  }

  lemma {:induction false} TrimRightIs(a: string, b: string, chars: string)
    requires AllIn(b, chars) && (a != "" ==> a[|a| - 1] !in chars)
    ensures TrimRight(a + b, chars) == a
  {
    assert forall i :: |a| <= i < |a + b| ==> (a + b)[i] == b[i - |a|];
    assert a != "" ==> (a + b)[|a| - 1] == a[|a| - 1];
    assert Kept(a + b, chars) == |a|;
  }

  lemma {:induction false} TrimIs(a: string, b: string, c: string, chars: string)
    requires AllIn(a, chars) && AllIn(c, chars) && b != "" && b[0] !in chars && b[|b| - 1] !in chars
    ensures Trim(a + b + c, chars) == b
  {
    assert a + b + c == a + (b + c);
    TrimLeftIs(a, b + c, chars);
    TrimRightIs(b, c, chars);
  }

  lemma {:induction false} TrimNothing(s: string, chars: string)
    requires s != "" && s[0] !in chars && s[|s| - 1] !in chars
    ensures Trim(s, chars) == s
  {
  }

  // ---- Decimal numbers ------------------------------------------------------------------

  predicate IsDigit(c: char) {
    '0' <= c <= '9'
  }

  function Digits(n: nat): (s: string)
    ensures s != "" && forall i :: 0 <= i < |s| ==> IsDigit(s[i])
  {
    if n < 10 then [n as char + '0'] else Digits(n / 10) + [(n % 10) as char + '0']
  }

  /** Digits, with single underscores allowed between them. */
  function ParseNat(s: string): (r: Option<nat>)
    ensures r.Some? ==> forall i :: 0 <= i < |s| ==> IsDigit(s[i]) || s[i] == '_'
    decreases |s|
  {
    if s == "" || !IsDigit(s[|s| - 1]) then None
    else
      var d := (s[|s| - 1] - '0') as nat;
      var rest := s[..|s| - 1];
      if rest == "" then Some(d)
      else
        var head := ParseNat(if rest[|rest| - 1] == '_' then rest[..|rest| - 1] else rest);
        if head.None? then None else Some(10 * head.value + d)
  }

  function ParseSigned(t: string): (r: Option<int>)
    ensures r.Some? ==> forall i :: 0 <= i < |t| ==> IsDigit(t[i]) || t[i] in "_+-"
  {
    if t != "" && t[0] in "+-" then
      var magnitude := ParseNat(t[1..]);
      if magnitude.None? then None
      else
        assert forall i :: 1 <= i < |t| ==> t[i] == t[1..][i - 1];
        Some(if t[0] == '-' then -(magnitude.value as int) else magnitude.value)
    else
      var magnitude := ParseNat(t);
      if magnitude.None? then None else Some(magnitude.value)
  }

  /** `int(s)`: surrounding whitespace and one sign are accepted. */
  function ParseInt(s: string): Option<int> {
    ParseSigned(Trim(s, SPACES))
  }

  lemma {:induction false} TrimKeeps(s: string, chars: string, c: char)
    requires c in s && c !in chars
    ensures c in Trim(s, chars)
  {
    var l := TrimLeft(s, chars);
    var i :| 0 <= i < |s| && s[i] == c;
    assert l[i - Lead(s, chars)] == c;
    assert TrimRight(l, chars)[i - Lead(s, chars)] == c;
  }

  lemma {:induction false} CommentsAreNoNumbers(s: string)
    requires '#' in s
    ensures ParseInt(s) == None
  {
    TrimKeeps(s, SPACES, '#');
  }

  lemma {:induction false} DigitsParse(n: nat)
    ensures ParseNat(Digits(n)) == Some(n)
  {
    if n >= 10 {
      DigitsParse(n / 10);
      assert Digits(n)[..|Digits(n)| - 1] == Digits(n / 10);
      assert Digits(n)[|Digits(n)| - 1] == (n % 10) as char + '0';
    }
  }

  lemma {:induction false} DigitsParseBack(a: string, n: nat, c: string)
    requires AllIn(a, SPACES) && AllIn(c, SPACES)
    ensures ParseInt(a + Digits(n) + c) == Some(n)
  {
    TrimIs(a, Digits(n), c, SPACES);
    DigitsParse(n);
    assert Digits(n)[0] !in "+-";
  }

  /** A sign in front of a number is read. */
  lemma {:induction false} SignedDigits(a: string, sign: char, n: nat, c: string)
    requires AllIn(a, SPACES) && AllIn(c, SPACES) && (sign == '-' || sign == '+')
    ensures ParseInt(a + ([sign] + Digits(n)) + c) == Some(if sign == '-' then -(n as int) else n)
  {
    DigitsParse(n);
    var t := [sign] + Digits(n);
    assert t[1..] == Digits(n) && t[|t| - 1] == Digits(n)[|Digits(n)| - 1];
    TrimIs(a, t, c, SPACES);
  }

  /** Digits at both ends, and single underscores at most between them. */
  predicate IsNumeral(s: string) {
    && s != "" && '0' <= s[0] <= '9' && '0' <= s[|s| - 1] <= '9'
    && (forall i :: 0 <= i < |s| ==> '0' <= s[i] <= '9' || s[i] == '_')
    && forall i :: 0 <= i < |s| - 1 ==> !(s[i] == '_' && s[i + 1] == '_')
  }

  function WithoutUnderscores(s: string): string
    decreases |s|
  {
    if s == "" then ""
    else WithoutUnderscores(s[..|s| - 1]) + if s[|s| - 1] == '_' then "" else [s[|s| - 1]]
  }

  function MoreDigits(head: Option<nat>, c: char): Option<nat>
    requires IsDigit(c)
  {
    if head.None? then None else Some(10 * head.value + (c - '0') as nat)
  }

  lemma {:induction false} ParseStep(s: string, head: string)
    requires |s| > 1 && IsDigit(s[|s| - 1])
    requires head == if s[|s| - 2] == '_' then s[..|s| - 2] else s[..|s| - 1]
    ensures ParseNat(s) == MoreDigits(ParseNat(head), s[|s| - 1])
  {
    var rest := s[..|s| - 1];
    assert rest[..|rest| - 1] == s[..|s| - 2];
  }

  /** Which strings are numbers, and that underscores do not change the number. */
  lemma {:induction false} NumeralIff(s: string)
    ensures ParseNat(s).Some? <==> IsNumeral(s)
    ensures IsNumeral(s) ==> ParseNat(s) == ParseNat(WithoutUnderscores(s))
    decreases |s|
  {
    if |s| > 1 && IsDigit(s[|s| - 1]) {
      var head := if s[|s| - 2] == '_' then s[..|s| - 2] else s[..|s| - 1];
      NumeralIff(head);
      HeadNumeral(s, head);
      ParseStep(s, head);
      if IsNumeral(s) { NumeralWithout(s, head); }
    } else if |s| == 1 {
      assert WithoutUnderscores(s) == if s[0] == '_' then "" else s by { assert s[..0] == ""; }
    }
  }

  lemma {:induction false} NumeralWithout(s: string, head: string)
    requires |s| > 1 && IsDigit(s[|s| - 1]) && IsNumeral(head)
    requires head == if s[|s| - 2] == '_' then s[..|s| - 2] else s[..|s| - 1]
    ensures ParseNat(WithoutUnderscores(s)) == MoreDigits(ParseNat(WithoutUnderscores(head)), s[|s| - 1])
  {
    WithoutLast(s, head);
    var u := WithoutUnderscores(head);
    assert (u + [s[|s| - 1]])[..|u|] == u;
    ParseStep(u + [s[|s| - 1]], u);
  }

  lemma {:induction false} HeadNumeral(s: string, head: string)
    requires |s| > 1 && IsDigit(s[|s| - 1])
    requires head == if s[|s| - 2] == '_' then s[..|s| - 2] else s[..|s| - 1]
    ensures IsNumeral(s) <==> IsNumeral(head)
  {
    assert forall i :: 0 <= i < |head| ==> head[i] == s[i];
    if IsNumeral(head) {
      assert head[|head| - 1] != '_';
      forall i | 0 <= i < |s| - 1 ensures !(s[i] == '_' && s[i + 1] == '_') {
        if i + 1 < |head| { assert !(head[i] == '_' && head[i + 1] == '_'); }
      }
    }
    if IsNumeral(s) && s[|s| - 2] == '_' {
      assert |head| > 0 && s[|s| - 3] != '_';
    }
  }

  lemma {:induction false} WithoutLast(s: string, head: string)
    requires |s| > 1 && s[|s| - 1] != '_' && head != ""
    requires head == if s[|s| - 2] == '_' then s[..|s| - 2] else s[..|s| - 1]
    ensures WithoutUnderscores(s) == WithoutUnderscores(head) + [s[|s| - 1]]
    ensures IsNumeral(head) ==> WithoutUnderscores(head) != "" && !(WithoutUnderscores(head)[|WithoutUnderscores(head)| - 1] == '_')
  {
    var rest := s[..|s| - 1];
    assert rest[..|rest| - 1] == s[..|s| - 2];
  }

  // ---- Lines ------------------------------------------------------------------------------

  /** A line and the terminator it keeps; the last line may have none. */
  datatype Line = Line(body: string, ending: string)

  const LF: string := "\n"
  const CR: string := "\r"
  const CRLF: string := "\r\n"

  predicate Unbroken(s: string) {
    '\n' !in s && '\r' !in s
  }

  function BreakAt(t: string): (k: nat)
    ensures k <= |t| && Unbroken(t[..k]) && (k < |t| ==> t[k] == '\n' || t[k] == '\r')
    decreases |t|
  {
    if t == "" || t[0] == '\n' || t[0] == '\r' then 0
    else
      var k := 1 + BreakAt(t[1..]);
      assert t[..k] == [t[0]] + t[1..][..k - 1];
      k
  }

  /** The terminator a text starts with. */
  function Ending(t: string): (e: string)
    ensures e <= t && (e == "" || e == LF || e == CR || e == CRLF)
    ensures e == "" <==> t == "" || (t[0] != '\n' && t[0] != '\r')
  {
    if t == "" then ""
    else if t[0] == '\n' then LF
    else if t[0] == '\r' then if |t| > 1 && t[1] == '\n' then CRLF else CR
    else ""
  }

  function Split(t: string): (lines: seq<Line>)
    decreases |t|
  {
    if t == "" then []
    else
      var k := BreakAt(t);
      var e := Ending(t[k..]);
      [Line(t[..k], e)] + Split(t[k + |e|..])
  }

  function Join(lines: seq<Line>): string
    decreases |lines|
  {
    if lines == [] then "" else lines[0].body + lines[0].ending + Join(lines[1..])
  }

  /** Lines that a text can have: only the last may be unterminated, and then it is not
      empty; a bare CR is not followed by an empty line that starts with LF. */
  ghost predicate Proper(lines: seq<Line>) {
    forall i :: 0 <= i < |lines| ==> ProperAt(lines, i)
  }

  ghost predicate ProperAt(lines: seq<Line>, i: nat)
    requires i < |lines|
  {
    var l := lines[i];
    && Unbroken(l.body)
    && (l.ending == "" || l.ending == LF || l.ending == CR || l.ending == CRLF)
    && (l.ending == "" ==> i == |lines| - 1 && l.body != "")
    && (l.ending == CR && i + 1 < |lines| ==> lines[i + 1] != Line("", LF))
  }

  lemma {:induction false} ProperRest(lines: seq<Line>)
    requires Proper(lines) && lines != []
    ensures Proper(lines[1..])
  {
    forall i | 0 <= i < |lines[1..]| ensures ProperAt(lines[1..], i) {
      assert ProperAt(lines, i + 1);
    }
  }

  lemma {:induction false} ProperCons(l: Line, rest: seq<Line>)
    requires Proper(rest) && Unbroken(l.body) && (l.ending == "" || l.ending == LF || l.ending == CR || l.ending == CRLF)
    requires l.ending == "" ==> rest == [] && l.body != ""
    requires l.ending == CR && rest != [] ==> rest[0] != Line("", LF)
    ensures Proper([l] + rest)
  {
    var lines := [l] + rest;
    forall i | 0 <= i < |lines| ensures ProperAt(lines, i) {
      if i > 0 {
        assert ProperAt(rest, i - 1);
      }
    }
  }

  lemma {:induction false} SplitStarts(t: string)
    requires t != ""
    ensures Split(t) != [] && (Split(t)[0] == Line("", LF) ==> t[0] == '\n')
  {
    var k := BreakAt(t);
    assert t[0..] == t;
  }

  lemma {:induction false} SplitIsProper(t: string)
    ensures Proper(Split(t)) && Join(Split(t)) == t
    decreases |t|
  {
    if t != "" {
      var k := BreakAt(t);
      var e := Ending(t[k..]);
      var rest := t[k + |e|..];
      assert t[..k] + e + rest == t by {
        assert t[k..][..|e|] == e;
      }
      SplitIsProper(rest);
      var l := Line(t[..k], e);
      if e == CR && rest != "" {
        assert rest[0] == t[k..][1];
        SplitStarts(rest);
      }
      ProperCons(l, Split(rest));
      assert ([l] + Split(rest))[1..] == Split(rest);
    }
  }

  lemma {:induction false} BreakIsAt(body: string, rest: string)
    requires Unbroken(body) && (rest != "" ==> rest[0] == '\n' || rest[0] == '\r')
    ensures BreakAt(body + rest) == |body|
    decreases |body|
  {
    if body != "" {
      assert (body + rest)[0] == body[0] && (body + rest)[1..] == body[1..] + rest;
      BreakIsAt(body[1..], rest);
    } else {
      assert body + rest == rest;
    }
  }

  lemma {:induction false} EndingIs(e: string, rest: string)
    requires e == LF || e == CR || e == CRLF
    requires e == CR && rest != "" ==> rest[0] != '\n'
    ensures Ending(e + rest) == e
  {
    var t := e + rest;
    assert t[0] == e[0];
    assert |t| > 1 ==> t[1] == if |e| > 1 then e[1] else rest[0];
  }

  lemma {:induction false} SplitOneMore(l: Line, rest: string)
    requires Unbroken(l.body) && (l.ending == LF || l.ending == CR || l.ending == CRLF)
    requires l.ending == CR && rest != "" ==> rest[0] != '\n'
    ensures Split(l.body + l.ending + rest) == [l] + Split(rest)
  {
    var tail := l.ending + rest;
    var t := l.body + tail;
    assert l.body + l.ending + rest == t;
    EndingIs(l.ending, rest);
    assert tail[0] == l.ending[0];
    BreakIsAt(l.body, tail);
    assert t[..|l.body|] == l.body && t[|l.body|..] == tail;
    assert t[|l.body| + |l.ending|..] == rest;
    assert Split(t) == [Line(t[..|l.body|], Ending(t[|l.body|..]))] + Split(t[|l.body| + |l.ending|..]);
  }

  /** Splitting undoes joining. */
  lemma {:induction false} SplitJoin(lines: seq<Line>)
    requires Proper(lines)
    ensures Split(Join(lines)) == lines
    decreases |lines|
  {
    if lines != [] {
      var l := lines[0];
      assert ProperAt(lines, 0);
      ProperRest(lines);
      assert [l] + lines[1..] == lines;
      if l.ending == "" {
        assert Join(lines[1..]) == "";
        BreakIsAt(l.body, "");
        assert l.body + "" + "" == l.body && l.body + "" == l.body;
        assert Split(l.body) == [l] + Split("");
      } else {
        SplitJoin(lines[1..]);
        if lines[1..] != [] { JoinStarts(lines[1..]); }
        SplitOneMore(l, Join(lines[1..]));
      }
    }
  }

  lemma {:induction false} JoinStarts(lines: seq<Line>)
    requires Proper(lines) && lines != []
    ensures Join(lines) != "" && (Join(lines)[0] == '\n' ==> lines[0] == Line("", LF))
  {
    assert ProperAt(lines, 0);
    var l := lines[0];
    if l.body != "" {
      assert Join(lines)[0] == l.body[0];
    } else {
      assert Join(lines)[0] == l.ending[0];
    }
  }

  // ---- Finding and replacing ------------------------------------------------------------

  /** Leftmost, non-overlapping replacement of every occurrence. */
  function Replace(t: string, s: string, into: string): string
    requires s != ""
    decreases |t|
  {
    if |t| < |s| then t
    else if t[..|s|] == s then into + Replace(t[|s|..], s, into)
    else [t[0]] + Replace(t[1..], s, into)
  }

  predicate OccursAt(s: string, t: string, i: nat) {
    i + |s| <= |t| && t[i..i + |s|] == s
  }

  ghost predicate Occurs(s: string, t: string) {
    exists i: nat :: OccursAt(s, t, i)
  }

  lemma {:induction false} OccursAfter(q: string, head: string, rest: string, i: nat)
    requires i >= |head| && OccursAt(q, head + rest, i)
    ensures OccursAt(q, rest, i - |head|)
  {
    assert (head + rest)[i..i + |q|] == rest[i - |head|..i - |head| + |q|];
  }

  lemma {:induction false} OccursBefore(q: string, head: string, rest: string, i: nat)
    requires OccursAt(q, rest, i)
    ensures OccursAt(q, head + rest, |head| + i)
  {
    assert (head + rest)[|head| + i..|head| + i + |q|] == rest[i..i + |q|];
  }

  lemma {:induction false} AbsentIsUnchanged(t: string, s: string, into: string)
    requires s != "" && !Occurs(s, t)
    ensures Replace(t, s, into) == t
    decreases |t|
  {
    if |t| >= |s| {
      assert !OccursAt(s, t, 0);
      assert [t[0]] + t[1..] == t;
      forall p: nat ensures !OccursAt(s, t[1..], p) {
        if OccursAt(s, t[1..], p) { OccursBefore(s, [t[0]], t[1..], p); }
      }
      AbsentIsUnchanged(t[1..], s, into);
    }
  }
}
