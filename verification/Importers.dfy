/** Reading the parameters of a sweep point back out of its directory name. The name is the
    only record of them, and the dash that separates two parameters may also stand inside a
    value, so what can be recovered depends on the values. */
module Importers {
  import opened Prelude

  // ---- Splitting a segment -------------------------------------------------------------

  predicate IdentStart(c: char) {
    'a' <= c <= 'z' || 'A' <= c <= 'Z' || c == '_'
  }

  predicate IdentChar(c: char) {
    IdentStart(c) || '0' <= c <= '9' || c == '.'
  }

  predicate IsIdent(s: string) {
    s != "" && IdentStart(s[0]) && forall i :: 0 <= i < |s| ==> IdentChar(s[i])
  }

  /** A key: letters, digits, underscores and dots, and neither a digit nor a dot in front. */
  predicate IsKey(s: string) {
    && s != "" && !('0' <= s[0] <= '9') && s[0] != '.'
    && forall i :: 0 <= i < |s| ==>
         'a' <= s[i] <= 'z' || 'A' <= s[i] <= 'Z' || '0' <= s[i] <= '9' || s[i] == '_' || s[i] == '.'
  }

  lemma {:induction false} IdentIsKey(s: string)
    ensures IsIdent(s) <==> IsKey(s)
  {
  }

  /** How far identifier characters reach. */
  function Reach(s: string): (k: nat)
    ensures k <= |s| && (k < |s| ==> !IdentChar(s[k]))
    ensures forall i :: 0 <= i < k ==> IdentChar(s[i])
    decreases |s|
  {
    if s != "" && IdentChar(s[0]) then 1 + Reach(s[1..]) else 0
  }

  /** An identifier and an equals sign come next. */
  predicate KeyAhead(s: string) {
    s != "" && IdentStart(s[0]) && Reach(s) < |s| && s[Reach(s)] == '='
  }

  /** A key comes next exactly when some key is followed by an equals sign. */
  lemma {:induction false} KeyAheadIff(s: string)
    ensures KeyAhead(s) <==> exists k :: 0 <= k < |s| && s[k] == '=' && IsKey(s[..k])
  {
    var r := Reach(s);
    if KeyAhead(s) {
      assert forall i :: 0 <= i < r ==> s[..r][i] == s[i];
      IdentIsKey(s[..r]);
    }
    if k :| 0 <= k < |s| && s[k] == '=' && IsKey(s[..k]) {
      IdentIsKey(s[..k]);
      assert forall i :: 0 <= i < k ==> s[..k][i] == s[i] && IdentChar(s[i]);
      assert r == k;
    }
  }

  /** Split at every dash that a key follows. */
  function Pieces(s: string): (r: seq<string>)
    ensures r != [] && r[0] <= s
    decreases |s|
  {
    if s == "" then [""]
    else
      var rest := Pieces(s[1..]);
      if s[0] == '-' && KeyAhead(s[1..]) then [""] + rest else [[s[0]] + rest[0]] + rest[1..]
  }

  function JoinDash(parts: seq<string>): string
    requires parts != []
    decreases |parts|
  {
    if |parts| == 1 then parts[0] else parts[0] + "-" + JoinDash(parts[1..])
  }

  /** No dash in `s` is followed by a key. */
  ghost predicate Whole(s: string) {
    forall i :: 0 <= i < |s| && s[i] == '-' ==> !KeyAhead(s[i + 1..])
  }

  /** Splitting loses no character. */
  lemma {:induction false} RejoiningGivesTheSegment(s: string)
    ensures JoinDash(Pieces(s)) == s
    decreases |s|
  {
    if s != "" {
      var rest := Pieces(s[1..]);
      RejoiningGivesTheSegment(s[1..]);
      if s[0] == '-' && KeyAhead(s[1..]) {
        assert ([""] + rest)[1..] == rest;
        assert "" + "-" + s[1..] == s;
      } else {
        var parts := [[s[0]] + rest[0]] + rest[1..];
        assert parts[1..] == rest[1..];
        assert [s[0]] + s[1..] == s;
      }
    }
  }

  lemma {:induction false} KeyStaysAhead(s: string, t: string)
    requires s <= t && KeyAhead(s)
    ensures KeyAhead(t)
  {
    var k := Reach(s);
    assert forall i :: 0 <= i <= k ==> t[i] == s[i];
    assert Reach(t) == k;
  }

  lemma {:induction false} KeyEndsAtDash(s: string, t: string)
    ensures KeyAhead(s + "-" + t) <==> KeyAhead(s)
  {
    var u := s + "-" + t;
    assert forall i :: 0 <= i < |s| ==> u[i] == s[i];
    assert u[|s|] == '-';
    assert Reach(u) == Reach(s);
  }

  lemma {:induction false} PiecesAreWhole(s: string, j: nat)
    requires j < |Pieces(s)|
    ensures Whole(Pieces(s)[j])
    decreases |s|
  {
    if s != "" {
      var rest := Pieces(s[1..]);
      if s[0] == '-' && KeyAhead(s[1..]) {
        if j > 0 { PiecesAreWhole(s[1..], j - 1); }
      } else if j > 0 {
        PiecesAreWhole(s[1..], j);
        assert Pieces(s)[j] == rest[j];
      } else {
        PiecesAreWhole(s[1..], 0);
        var p := [s[0]] + rest[0];
        forall i | 0 <= i < |p| && p[i] == '-' ensures !KeyAhead(p[i + 1..]) {
          assert p[i + 1..] == rest[0][i..];
          if i == 0 && KeyAhead(rest[0]) {
            KeyStaysAhead(rest[0], s[1..]);
          }
        }
      }
    }
  }

  lemma {:induction false} WholeRest(s: string)
    requires Whole(s) && s != ""
    ensures Whole(s[1..]) && (s[0] == '-' ==> !KeyAhead(s[1..]))
  {
    forall i | 0 <= i < |s[1..]| && s[1..][i] == '-' ensures !KeyAhead(s[1..][i + 1..]) {
      assert s[1..][i + 1..] == s[i + 1 + 1..];
    }
  }

  lemma {:induction false} WholeIsOnePiece(s: string)
    requires Whole(s)
    ensures Pieces(s) == [s]
    decreases |s|
  {
    if s != "" {
      WholeRest(s);
      WholeIsOnePiece(s[1..]);
      assert [s[0]] + s[1..] == s;
    }
  }

  lemma {:induction false} PiecesCons(c: char, tail: string)
    requires !(c == '-' && KeyAhead(tail))
    ensures Pieces([c] + tail) == [[c] + Pieces(tail)[0]] + Pieces(tail)[1..]
  {
    assert ([c] + tail)[1..] == tail;
  }

  lemma {:induction false} FirstPieceCons(c: char, tail: string, first: string, rest: seq<string>)
    requires !(c == '-' && KeyAhead(tail)) && Pieces(tail) == [first] + rest
    ensures Pieces([c] + tail) == [[c] + first] + rest
  {
    PiecesCons(c, tail);
  }

  lemma {:induction false} WholeAhead(s: string, t: string)
    requires Whole(s) && s != ""
    ensures Whole(s[1..]) && !(s[0] == '-' && KeyAhead(s[1..] + "-" + t))
  {
    WholeRest(s);
    KeyEndsAtDash(s[1..], t);
  }

  lemma {:induction false} Cons(s: string, t: string)
    requires s != ""
    ensures [s[0]] + (s[1..] + "-" + t) == s + "-" + t && [s[0]] + s[1..] == s
  {
  }

  lemma {:induction false} WholeThenKey(s: string, t: string)
    requires Whole(s) && KeyAhead(t)
    ensures Pieces(s + "-" + t) == [s] + Pieces(t)
    decreases |s|
  {
    if s == "" {
      assert ("-" + t)[1..] == t && "" + "-" + t == "-" + t;
    } else {
      WholeAhead(s, t);
      WholeThenKey(s[1..], t);
      FirstPieceCons(s[0], s[1..] + "-" + t, s[1..], Pieces(t));
      Cons(s, t);
    }
  }

  lemma {:induction false} WholeSuffix(s: string, k: nat)
    requires Whole(s) && k <= |s|
    ensures Whole(s[k..])
  {
    forall i | 0 <= i < |s[k..]| && s[k..][i] == '-' ensures !KeyAhead(s[k..][i + 1..]) {
      assert s[k..][i + 1..] == s[k + i + 1..];
    }
  }

  lemma {:induction false} WholePrefix(s: string, k: nat)
    requires Whole(s) && k <= |s|
    ensures Whole(s[..k])
  {
    forall i | 0 <= i < k && s[..k][i] == '-' ensures !KeyAhead(s[..k][i + 1..]) {
      if KeyAhead(s[..k][i + 1..]) {
        assert s[..k][i + 1..] <= s[i + 1..];
        KeyStaysAhead(s[..k][i + 1..], s[i + 1..]);
      }
    }
  }

  // ---- Parameters ------------------------------------------------------------------------

  /** A part that is not `key=value` is kept as a flag under its own text. */
  datatype Param = Flag | Text(value: string)

  datatype Entry = Entry(key: string, param: Param)

  /** The pattern's dot matches no newline, and its end may stand before a last one. */
  function ParsePart(part: string): Entry {
    if !KeyAhead(part) then Entry(part, Flag)
    else
      var key := part[..Reach(part)];
      var value := part[Reach(part) + 1..];
      if '\n' !in value then Entry(key, Text(value))
      else if '\n' !in value[..|value| - 1] then Entry(key, Text(value[..|value| - 1]))
      else Entry(part, Flag)
  }

  function ToMap(parts: seq<string>): map<string, Param>
    decreases |parts|
  {
    if parts == [] then map[]
    else
      var e := ParsePart(parts[|parts| - 1]);
      ToMap(parts[..|parts| - 1])[e.key := e.param]
  }

  function ParseParams(segment: string): map<string, Param> {
    if segment == "" then map[] else ToMap(Pieces(segment))
  }

  /** A parameter as the tool wrote it. */
  datatype Pair = Pair(key: string, value: string)

  predicate Keyed(ps: seq<Pair>) {
    && (forall i :: 0 <= i < |ps| ==> IsIdent(ps[i].key))
    && (forall i, j :: 0 <= i < j < |ps| ==> ps[i].key != ps[j].key)
  }

  function Show(p: Pair): string {
    p.key + "=" + p.value
  }

  function Shows(ps: seq<Pair>): (r: seq<string>)
    ensures |r| == |ps| && forall i :: 0 <= i < |r| ==> r[i] == Show(ps[i])
  {
    seq(|ps|, i requires 0 <= i < |ps| => Show(ps[i]))
  }

  function Print(ps: seq<Pair>): string {
    if ps == [] then "" else JoinDash(Shows(ps))
  }

  function Recorded(ps: seq<Pair>): map<string, Param>
    decreases |ps|
  {
    if ps == [] then map[]
    else Recorded(ps[..|ps| - 1])[ps[|ps| - 1].key := Text(ps[|ps| - 1].value)]
  }

  /** A value that survives: no dash in it is followed by a key, and it has no newline. */
  ghost predicate Plain(v: string) {
    Whole(v) && '\n' !in v
  }

  ghost predicate AllPlain(ps: seq<Pair>) {
    forall i :: 0 <= i < |ps| ==> Plain(ps[i].value)
  }

  lemma {:induction false} ShownKey(p: Pair)
    requires IsIdent(p.key)
    ensures Reach(Show(p)) == |p.key| && KeyAhead(Show(p))
  {
    var s := Show(p);
    assert forall i :: 0 <= i < |p.key| ==> s[i] == p.key[i];
    assert s[|p.key|] == '=';
  }

  lemma {:induction false} ShownParses(p: Pair)
    requires IsIdent(p.key) && '\n' !in p.value
    ensures ParsePart(Show(p)) == Entry(p.key, Text(p.value))
  {
    ShownKey(p);
    assert Show(p)[..|p.key|] == p.key && Show(p)[|p.key| + 1..] == p.value;
  }

  lemma {:induction false} PartOf(p: Pair)
    requires IsIdent(p.key)
    ensures ParsePart(Show(p)) ==
      if '\n' !in p.value then Entry(p.key, Text(p.value))
      else if '\n' !in p.value[..|p.value| - 1] then Entry(p.key, Text(p.value[..|p.value| - 1]))
      else Entry(Show(p), Flag)
  {
    ShownKey(p);
    assert Show(p)[..|p.key|] == p.key && Show(p)[|p.key| + 1..] == p.value;
  }

  /** What is made of one part: a key and its value, of which a last newline is dropped; and the
      whole part as a flag when a newline stands anywhere else. */
  lemma {:induction false} PartIs(key: string, value: string, more: string)
    requires IsKey(key) && '\n' !in value
    ensures ParsePart(key + "=" + value) == Entry(key, Text(value))
    ensures ParsePart(key + "=" + (value + "\n")) == Entry(key, Text(value))
    ensures more != "" ==> var part := key + "=" + (value + "\n" + more); ParsePart(part) == Entry(part, Flag)
  {
    IdentIsKey(key);
    PartOf(Pair(key, value));
    EndsInNewline(value);
    PartOf(Pair(key, value + "\n"));
    if more != "" {
      NewlineInside(value, more);
      PartOf(Pair(key, value + "\n" + more));
    }
  }

  lemma {:induction false} EndsInNewline(value: string)
    ensures var v := value + "\n"; '\n' in v && v[..|v| - 1] == value
  {
    assert (value + "\n")[|value|] == '\n';
  }

  lemma {:induction false} NewlineInside(value: string, more: string)
    requires more != ""
    ensures var v := value + "\n" + more; '\n' in v && '\n' in v[..|v| - 1]
  {
    var v := value + "\n" + more;
    assert v[..|v| - 1][|value|] == '\n';
    assert v[|value|] == '\n';
  }

  /** A part without a key is a flag. */
  lemma {:induction false} KeylessIsFlag(part: string)
    requires forall k :: 0 <= k < |part| && part[k] == '=' ==> !IsKey(part[..k])
    ensures ParsePart(part) == Entry(part, Flag)
  {
    KeyAheadIff(part);
  }

  lemma {:induction false} ShownIsWhole(p: Pair)
    requires IsIdent(p.key) && Whole(p.value)
    ensures Whole(Show(p))
  {
    var s := Show(p);
    forall i | 0 <= i < |s| && s[i] == '-' ensures !KeyAhead(s[i + 1..]) {
      DashIsInValue(p, i);
      var at := i - |p.key| - 1;
      assert s[i + 1..] == p.value[at + 1..];
    }
  }

  lemma {:induction false} KeyStartsJoin(ps: seq<Pair>)
    requires Keyed(ps) && ps != []
    ensures Show(ps[0]) <= JoinDash(Shows(ps)) && KeyAhead(JoinDash(Shows(ps)))
  {
    ShownKey(ps[0]);
    KeyStaysAhead(Show(ps[0]), JoinDash(Shows(ps)));
  }

  lemma {:induction false} PrintedPieces(ps: seq<Pair>)
    requires Keyed(ps) && AllPlain(ps) && ps != []
    ensures Pieces(JoinDash(Shows(ps))) == Shows(ps)
    decreases |ps|
  {
    ShownIsWhole(ps[0]);
    if |ps| == 1 {
      WholeIsOnePiece(Show(ps[0]));
    } else {
      var rest := ps[1..];
      assert Shows(ps)[1..] == Shows(rest);
      PrintedPieces(rest);
      KeyStartsJoin(rest);
      WholeThenKey(Show(ps[0]), JoinDash(Shows(rest)));
      assert [Show(ps[0])] + Shows(rest) == Shows(ps);
    }
  }

  lemma {:induction false} ShownMap(ps: seq<Pair>)
    requires Keyed(ps) && AllPlain(ps)
    ensures ToMap(Shows(ps)) == Recorded(ps)
    decreases |ps|
  {
    if ps != [] {
      var last := |ps| - 1;
      assert Shows(ps) == Shows(ps[..last]) + [Show(ps[last])];
      ShownMap(ps[..last]);
      ShownParses(ps[last]);
      OneMorePart(Shows(ps[..last]), Show(ps[last]), Entry(ps[last].key, Text(ps[last].value)));
    }
  }

  lemma {:induction false} OneMorePart(parts: seq<string>, part: string, e: Entry)
    requires ParsePart(part) == e
    ensures ToMap(parts + [part]) == ToMap(parts)[e.key := e.param]
  {
    assert (parts + [part])[..|parts|] == parts;
  }

  lemma {:induction false} RecordedKeepsEach(ps: seq<Pair>, j: nat)
    requires Keyed(ps) && j < |ps|
    ensures ps[j].key in Recorded(ps) && Recorded(ps)[ps[j].key] == Text(ps[j].value)
    decreases |ps|
  {
    if j < |ps| - 1 {
      RecordedKeepsEach(ps[..|ps| - 1], j);
    }
  }

  lemma {:induction false} ParsedIsPlain(part: string)
    requires Whole(part) && ParsePart(part).param.Text?
    ensures Plain(ParsePart(part).param.value)
  {
    var value := part[Reach(part) + 1..];
    WholeSuffix(part, Reach(part) + 1);
    if '\n' in value { WholePrefix(value, |value| - 1); }
  }

  lemma {:induction false} MapIsPlain(parts: seq<string>, key: string)
    requires forall j :: 0 <= j < |parts| ==> Whole(parts[j])
    requires key in ToMap(parts) && ToMap(parts)[key].Text?
    ensures Plain(ToMap(parts)[key].value)
    decreases |parts|
  {
    var last := |parts| - 1;
    if ParsePart(parts[last]).key == key {
      ParsedIsPlain(parts[last]);
    } else {
      MapIsPlain(parts[..last], key);
    }
  }

  /** Only plain values can come out of a segment. */
  lemma {:induction false} OnlyPlainComesOut(segment: string, ps: seq<Pair>)
    requires Keyed(ps) && ParseParams(segment) == Recorded(ps)
    ensures AllPlain(ps)
  {
    forall i | 0 <= i < |ps| ensures Plain(ps[i].value) {
      RecordedKeepsEach(ps, i);
      forall j | 0 <= j < |Pieces(segment)| ensures Whole(Pieces(segment)[j]) {
        PiecesAreWhole(segment, j);
      }
      MapIsPlain(Pieces(segment), ps[i].key);
    }
  }

  /** Printed parameters are recovered, key by key and text by text, exactly when every
      value is plain. */
  lemma {:induction false} ParametersRoundTripIff(ps: seq<Pair>)
    requires Keyed(ps)
    ensures ParseParams(Print(ps)) == Recorded(ps) <==> AllPlain(ps)
  {
    if AllPlain(ps) && ps != [] {
      KeyStartsJoin(ps);
      PrintedPieces(ps);
      ShownMap(ps);
    }
    if ParseParams(Print(ps)) == Recorded(ps) {
      OnlyPlainComesOut(Print(ps), ps);
    }
  }

  // ---- Directory names ---------------------------------------------------------------------

  const SERVE_MARKER: string := "SERVE--"
  const BENCH_MARKER: string := "-BENCH--"

  datatype Names = Named(serve: map<string, Param>, bench: map<string, Param>) | NotASweepPoint | NoBenchSection

  /** Where `m` first stands in `s`, or the length of `s`. */
  function FirstAt(m: string, s: string): (k: nat)
    ensures k <= |s| && (k < |s| ==> m <= s[k..])
    decreases |s|
  {
    if s == "" || m <= s then 0 else 1 + FirstAt(m, s[1..])
  }

  function ParseName(name: string): Names {
    if !(SERVE_MARKER <= name) then NotASweepPoint
    else
      var body := name[|SERVE_MARKER|..];
      var k := FirstAt(BENCH_MARKER, body);
      if k == |body| then NoBenchSection
      else
        Named(ParseParams(body[..k]), ParseParams(body[k..][|BENCH_MARKER|..]))
  }

  function PrintName(serve: seq<Pair>, bench: seq<Pair>): string {
    SERVE_MARKER + (Print(serve) + (BENCH_MARKER + Print(bench)))
  }

  /** The serve part would be cut early: the marker stands in it, or runs out of it. */
  ghost predicate CutsEarly(s: string) {
    (exists p: nat :: p <= |s| && BENCH_MARKER <= s[p..]) || (|s| >= 7 && s[|s| - 7..] == "-BENCH-")
  }

  lemma {:induction false} FirstIs(m: string, s: string, k: nat)
    requires k <= |s| && m != "" && m <= s[k..] && forall p :: 0 <= p < k ==> !(m <= s[p..])
    ensures FirstAt(m, s) == k
    decreases |s|
  {
    assert s[0..] == s;
    if k > 0 {
      assert s[1..][k - 1..] == s[k..];
      forall p | 0 <= p < k - 1 ensures !(m <= s[1..][p..]) {
        assert s[1..][p..] == s[p + 1..];
      }
      FirstIs(m, s[1..], k - 1);
    }
  }

  lemma {:induction false} OneB(i: nat)
    requires i < 8 && BENCH_MARKER[i] == BENCH_MARKER[1]
    ensures i == 1
  {
  }

  /** The marker overlaps itself in a single dash, so an earlier one is inside the serve part
      or uses exactly the first dash of the real one. */
  lemma {:induction false} EarlierMarker(s: string, rest: string, p: nat)
    requires p < |s| && BENCH_MARKER <= (s + (BENCH_MARKER + rest))[p..]
    ensures CutsEarly(s)
  {
    var u := s + (BENCH_MARKER + rest);
    var d := |s| - p;
    assert forall i :: 0 <= i < 8 ==> u[p + i] == u[p..][i] == BENCH_MARKER[i];
    assert forall i :: 0 <= i < 8 ==> u[|s| + i] == BENCH_MARKER[i];
    if d >= 8 {
      assert s[p..][..8] == BENCH_MARKER;
    } else {
      assert u[|s| + 1] == BENCH_MARKER[1];
      if d < 7 {
        assert BENCH_MARKER[d + 1] == u[p + (d + 1)];
        OneB(d + 1);
      }
      assert forall i :: 0 <= i < 7 ==> s[p + i] == u[p + i] == BENCH_MARKER[i];
      assert s[p..] == BENCH_MARKER[..7];
      assert BENCH_MARKER[..7] == "-BENCH-";
    }
  }

  lemma {:induction false} MarkerAfter(s: string, rest: string)
    requires !CutsEarly(s)
    ensures FirstAt(BENCH_MARKER, s + (BENCH_MARKER + rest)) == |s|
  {
    var u := s + (BENCH_MARKER + rest);
    assert u[|s|..] == BENCH_MARKER + rest;
    forall p | 0 <= p < |s| ensures !(BENCH_MARKER <= u[p..]) {
      if BENCH_MARKER <= u[p..] { EarlierMarker(s, rest, p); }
    }
    FirstIs(BENCH_MARKER, u, |s|);
  }

  lemma {:induction false} FirstIsFirst(m: string, s: string, p: nat)
    requires p < |s| && m <= s[p..]
    ensures FirstAt(m, s) <= p
    decreases |s|
  {
    assert s[0..] == s;
    if p > 0 && !(m <= s) {
      assert s[1..][p - 1..] == s[p..];
      FirstIsFirst(m, s[1..], p - 1);
    }
  }

  /** Which directory names are not read: those without the serve marker in front, and those
      without the bench marker anywhere after it. */
  lemma {:induction false} NameIsReadIff(name: string)
    ensures ParseName(name).NotASweepPoint? <==> !("SERVE--" <= name)
    ensures ParseName(name).NoBenchSection? <==>
      "SERVE--" <= name && forall p :: 7 <= p <= |name| ==> !("-BENCH--" <= name[p..])
  {
    if "SERVE--" <= name {
      var body := name[7..];
      var k := FirstAt(BENCH_MARKER, body);
      assert forall p :: 7 <= p <= |name| ==> name[p..] == body[p - 7..];
      if k < |body| {
        assert name[k + 7..] == body[k..];
      } else {
        forall p | 7 <= p <= |name| ensures !("-BENCH--" <= name[p..]) {
          if p - 7 < |body| && BENCH_MARKER <= body[p - 7..] { FirstIsFirst(BENCH_MARKER, body, p - 7); }
        }
      }
    }
  }

  lemma {:induction false} MarkerStays(s: string, p: nat, t: string)
    requires p <= |s| && BENCH_MARKER <= s[p..]
    ensures BENCH_MARKER <= (s + t)[p..]
  {
    assert (s + t)[p..] == s[p..] + t;
    assert forall i :: 0 <= i < |s[p..]| ==> (s[p..] + t)[i] == s[p..][i];
  }

  lemma {:induction false} EndOverlaps(s: string, rest: string)
    requires |s| >= 7 && s[|s| - 7..] == "-BENCH-"
    ensures BENCH_MARKER <= (s + (BENCH_MARKER + rest))[|s| - 7..]
  {
    var u := s + (BENCH_MARKER + rest);
    var p := |s| - 7;
    assert forall i :: 0 <= i < 7 ==> u[p + i] == s[p..][i];
    assert u[p + 7] == u[|s|] == BENCH_MARKER[0];
    assert forall i :: 0 <= i < 8 ==> u[p..][i] == u[p + i] == BENCH_MARKER[i];
  }

  lemma {:induction false} MarkerCutsEarly(s: string, rest: string)
    requires CutsEarly(s)
    ensures FirstAt(BENCH_MARKER, s + (BENCH_MARKER + rest)) < |s|
  {
    var u := s + (BENCH_MARKER + rest);
    if |s| >= 7 && s[|s| - 7..] == "-BENCH-" {
      var p := |s| - 7;
      EndOverlaps(s, rest);
      FirstIsFirst(BENCH_MARKER, u, p);
    } else {
      var p: nat :| p <= |s| && BENCH_MARKER <= s[p..];
      MarkerStays(s, p, BENCH_MARKER + rest);
      FirstIsFirst(BENCH_MARKER, u, p);
    }
  }

  // ---- A name cut early is read wrong --------------------------------------------------------

  ghost predicate IsCut(ps: seq<Pair>, s: string, i: nat, x: string) {
    i < |ps| && |x| < |ps[i].value| && Plain(x) && Pieces(s) == Shows(ps[..i] + [Pair(ps[i].key, x)])
  }

  lemma {:induction false} PrintMore(ps: seq<Pair>)
    requires |ps| > 1
    ensures Print(ps) == Show(ps[0]) + "-" + Print(ps[1..])
  {
    assert Shows(ps)[1..] == Shows(ps[1..]);
  }

  lemma {:induction false} ShowCut(p: Pair, j: nat)
    requires |p.key| < j <= |Show(p)|
    ensures Show(p)[..j] == Show(Pair(p.key, p.value[..j - |p.key| - 1]))
  {
  }

  lemma {:induction false} DashIsInValue(p: Pair, j: nat)
    requires IsIdent(p.key) && j < |Show(p)| && Show(p)[j] == '-'
    ensures j > |p.key|
  {
    assert '-' !in p.key;
    assert Show(p)[..|p.key|] == p.key && Show(p)[|p.key|] == '=';
    assert forall i :: 0 <= i < |p.key| ==> Show(p)[i] in p.key;
  }

  lemma {:induction false} OneShown(p: Pair)
    requires IsIdent(p.key) && Whole(p.value)
    ensures Pieces(Show(p)) == Shows([p])
  {
    ShownIsWhole(p);
    WholeIsOnePiece(Show(p));
  }

  lemma {:induction false} CutInFirst(ps: seq<Pair>, p: nat)
    requires Keyed(ps) && AllPlain(ps) && ps != [] && p < |Show(ps[0])| && Show(ps[0])[p] == '-'
    ensures p > |ps[0].key| && IsCut(ps, Show(ps[0])[..p], 0, ps[0].value[..p - |ps[0].key| - 1])
  {
    DashIsInValue(ps[0], p);
    var j := p - |ps[0].key| - 1;
    var x := ps[0].value[..j];
    WholePrefix(ps[0].value, j);
    ShowCut(ps[0], p);
    OneShown(Pair(ps[0].key, x));
    assert ps[..0] + [Pair(ps[0].key, x)] == [Pair(ps[0].key, x)];
  }

  lemma {:induction false} CutStartsWithKey(ps: seq<Pair>, cut: string, i: nat, x: string)
    requires Keyed(ps) && IsCut(ps, cut, i, x)
    ensures KeyAhead(cut)
  {
    var first := (ps[..i] + [Pair(ps[i].key, x)])[0];
    assert Pieces(cut)[0] == Show(first);
    ShownKey(first);
    KeyStaysAhead(Show(first), cut);
  }

  lemma {:induction false} CutInRest(ps: seq<Pair>, cut: string, i: nat, x: string)
    requires Keyed(ps) && AllPlain(ps) && |ps| > 1 && Keyed(ps[1..]) && IsCut(ps[1..], cut, i, x)
    ensures IsCut(ps, Show(ps[0]) + "-" + cut, i + 1, x)
  {
    CutStartsWithKey(ps[1..], cut, i, x);
    ShownIsWhole(ps[0]);
    WholeThenKey(Show(ps[0]), cut);
    var kept, all := ps[1..][..i] + [Pair(ps[1..][i].key, x)], ps[..i + 1] + [Pair(ps[i + 1].key, x)];
    assert all == [ps[0]] + kept;
    assert Shows(all) == [Show(ps[0])] + Shows(kept);
  }

  /** Cut at a dash that no key follows, a print holds every parameter before some `i` and
      only the start of the value of that one. */
  lemma {:induction false} CutPieces(ps: seq<Pair>, p: nat) returns (i: nat, x: string)
    requires Keyed(ps) && AllPlain(ps) && p < |Print(ps)| && Print(ps)[p] == '-' && !KeyAhead(Print(ps)[p + 1..])
    ensures IsCut(ps, Print(ps)[..p], i, x)
    decreases |ps|
  {
    var s := Print(ps);
    var first := Show(ps[0]);
    if p < |first| {
      KeyStartsJoin(ps);
      assert s[..p] == first[..p] && s[p] == first[p];
      CutInFirst(ps, p);
      i, x := 0, ps[0].value[..p - |ps[0].key| - 1];
    } else {
      var rest := ps[1..];
      var q := AfterFirst(ps, p);
      i, x := CutPieces(rest, q);
      CutInRest(ps, Print(rest)[..q], i, x);
      i := i + 1;
    }
  }

  lemma {:induction false} JointAt(a: string, b: string)
    ensures (a + "-" + b)[|a|] == '-' && (a + "-" + b)[|a| + 1..] == b
  {
  }

  lemma {:induction false} JointAfter(a: string, b: string, q: nat)
    requires q < |b|
    ensures var s := a + "-" + b;
            s[|a| + 1 + q] == b[q] && s[|a| + 1 + q + 1..] == b[q + 1..] && s[..|a| + 1 + q] == a + "-" + b[..q]
  {
  }

  lemma {:induction false} AfterFirst(ps: seq<Pair>, p: nat) returns (q: nat)
    requires Keyed(ps) && ps != [] && |Show(ps[0])| <= p < |Print(ps)| && !KeyAhead(Print(ps)[p + 1..])
    ensures |ps| > 1 && q < |Print(ps[1..])| && Print(ps[1..])[q] == Print(ps)[p]
    ensures Print(ps[1..])[q + 1..] == Print(ps)[p + 1..]
    ensures Print(ps)[..p] == Show(ps[0]) + "-" + Print(ps[1..])[..q]
  {
    var s := Print(ps);
    var first := Show(ps[0]);
    assert |ps| > 1;
    var rest := Print(ps[1..]);
    PrintMore(ps);
    KeyStartsJoin(ps[1..]);
    JointAt(first, rest);
    q := p - |first| - 1;
    JointAfter(first, rest, q);
  }

  lemma {:induction false} CutIsNotRecorded(ps: seq<Pair>, s: string, i: nat, x: string)
    requires Keyed(ps) && AllPlain(ps) && IsCut(ps, s, i, x)
    ensures ParseParams(s) != Recorded(ps)
  {
    var kept := ps[..i] + [Pair(ps[i].key, x)];
    assert Keyed(kept) && AllPlain(kept);
    ShownMap(kept);
    RecordedKeepsEach(ps, i);
    RecordedKeepsEach(kept, i);
  }

  /** What the marker's first dash could be in a print: never a separator. */
  lemma {:induction false} MarkerIsNoSeparator(s: string, rest: string, p: nat)
    requires p < |s| && BENCH_MARKER <= (s + (BENCH_MARKER + rest))[p..]
    ensures s[p] == '-' && !KeyAhead(s[p + 1..])
  {
    var u := s + (BENCH_MARKER + rest);
    assert forall j :: 0 <= j < 8 ==> u[p + j] == u[p..][j] == BENCH_MARKER[j];
    assert u[p + 0] == '-';
    var t := u[p + 1..];
    assert forall j :: 0 <= j < 7 ==> t[j] == BENCH_MARKER[j + 1];
    assert forall j :: 0 <= j < 5 ==> IdentChar(t[j]);
    assert t[5] == '-';
    assert Reach(t) == 5 && !KeyAhead(t);
    assert t == s[p + 1..] + (BENCH_MARKER + rest);
    assert u[p] == s[p];
    if KeyAhead(s[p + 1..]) { KeyStaysAhead(s[p + 1..], t); }
  }

  lemma {:induction false} NameBody(serve: seq<Pair>, bench: seq<Pair>)
    ensures SERVE_MARKER <= PrintName(serve, bench)
    ensures PrintName(serve, bench)[|SERVE_MARKER|..] == Print(serve) + (BENCH_MARKER + Print(bench))
  {
  }

  lemma {:induction false} EarlyCutMisreads(serve: seq<Pair>, bench: seq<Pair>)
    requires Keyed(serve) && CutsEarly(Print(serve))
    ensures ParseName(PrintName(serve, bench)) != Named(Recorded(serve), Recorded(bench))
  {
    var s, rest := Print(serve), Print(bench);
    var body := s + (BENCH_MARKER + rest);
    var k := FirstAt(BENCH_MARKER, body);
    NameBody(serve, bench);
    MarkerCutsEarly(s, rest);
    assert body[..k] == s[..k];
    if ParseParams(s[..k]) == Recorded(serve) {
      OnlyPlainComesOut(s[..k], serve);
      MarkerIsNoSeparator(s, rest, k);
      var i, x := CutPieces(serve, k);
      CutIsNotRecorded(serve, s[..k], i, x);
    }
  }

  lemma {:induction false} UncutNameReads(serve: seq<Pair>, bench: seq<Pair>)
    requires !CutsEarly(Print(serve))
    ensures ParseName(PrintName(serve, bench)) == Named(ParseParams(Print(serve)), ParseParams(Print(bench)))
  {
    var s, rest := Print(serve), Print(bench);
    var body := s + (BENCH_MARKER + rest);
    NameBody(serve, bench);
    MarkerAfter(s, rest);
    assert body[..|s|] == s && body[|s|..] == BENCH_MARKER + rest;
    assert body[|s|..][|BENCH_MARKER|..] == rest;
  }

  /** A printed name is read back, every key and every value text, exactly when all values
      are plain and the serve part does not cut the name early. */
  lemma {:induction false} NameRoundTripIff(serve: seq<Pair>, bench: seq<Pair>)
    requires Keyed(serve) && Keyed(bench)
    ensures ParseName(PrintName(serve, bench)) == Named(Recorded(serve), Recorded(bench)) <==>
      AllPlain(serve) && AllPlain(bench) && !CutsEarly(Print(serve))
  {
    if CutsEarly(Print(serve)) {
      EarlyCutMisreads(serve, bench);
    } else {
      UncutNameReads(serve, bench);
      ParametersRoundTripIff(serve);
      ParametersRoundTripIff(bench);
    }
  }

  // ---- As the source computes them -----------------------------------------------------------------

  method ParseParameters(segment: string) returns (params: map<string, Param>)
    ensures params == ParseParams(segment)
  {
    if segment == "" { return map[]; }
    var parts := Pieces(segment);
    params := map[];
    for i := 0 to |parts|
      invariant params == ToMap(parts[..i])
    {
      assert parts[..i + 1][..i] == parts[..i];
      var e := ParsePart(parts[i]);
      params := params[e.key := e.param];
    }
    assert parts[..|parts|] == parts;
  }
}
