/** Log redaction: registered secrets are replaced by a marker, longest first. */
module Redaction {
  import opened Prelude
  import opened Text

  const MARKER: string := "[redacted]"
  const MIN_SECRET_LENGTH: nat := 8

  // ---- Replacement --------------------------------------------------------------------

  /** `s` laid over the marker, starting `d` characters into it, agrees wherever both have one. */
  predicate Agrees(s: string, d: int) {
    forall k :: 0 <= k < |MARKER| && 0 <= k - d < |s| ==> MARKER[k] == s[k - d]
  }

  /** No placement of `s` that shares a character with a marker agrees with it. */
  ghost predicate TouchFree(s: string) {
    forall d :: -|s| < d < |MARKER| ==> !Agrees(s, d)
  }

  lemma {:induction false} ReachingAgrees(q: string, j: nat, rest: string)
    requires j < |q| && q[j..] <= MARKER + rest
    ensures Agrees(q, -(j as int))
  {
    forall k | 0 <= k < |MARKER| && 0 <= k + j < |q| ensures MARKER[k] == q[k + j] {
      assert (MARKER + rest)[k] == q[j..][k];
    }
  }

  /** If what follows the first `j` characters of `q` starts the replaced text, it starts the
      text itself, since it cannot reach into a marker. */
  lemma {:induction false} PrefixSurvives(t: string, s: string, q: string, j: nat)
    requires s != "" && TouchFree(q) && j <= |q| && q[j..] <= Replace(t, s, MARKER)
    ensures q[j..] <= t
    decreases |t|
  {
    var r := Replace(t, s, MARKER);
    if j < |q| && |t| >= |s| {
      if t[..|s|] == s {
        ReachingAgrees(q, j, Replace(t[|s|..], s, MARKER));
      } else {
        assert r[0] == q[j..][0] && r[1..] == Replace(t[1..], s, MARKER);
        assert q[j + 1..] == q[j..][1..];
        PrefixSurvives(t[1..], s, q, j + 1);
      }
    }
  }

  lemma {:induction false} AgreesInsideMarker(q: string, rest: string, i: nat)
    requires i < |MARKER| && OccursAt(q, MARKER + rest, i)
    ensures Agrees(q, i)
  {
    var r := MARKER + rest;
    forall k | 0 <= k < |MARKER| && 0 <= k - i < |q| ensures MARKER[k] == q[k - i] {
      assert r[i..i + |q|][k - i] == r[k];
    }
  }

  /** A replacement creates no occurrence of a touch-free string, and leaves none of what it
      replaces. */
  lemma {:induction false} NothingNew(t: string, s: string, q: string, i: nat)
    requires s != "" && q != "" && TouchFree(q) && OccursAt(q, Replace(t, s, MARKER), i)
    ensures Occurs(q, t) && q != s
    decreases |t|
  {
    if |t| < |s| {
      assert OccursAt(q, t, i);
    } else if t[..|s|] == s {
      var rest := Replace(t[|s|..], s, MARKER);
      if i < |MARKER| {
        AgreesInsideMarker(q, rest, i);
      } else {
        OccursAfter(q, MARKER, rest, i);
        NothingNew(t[|s|..], s, q, i - |MARKER|);
        var p: nat :| OccursAt(q, t[|s|..], p);
        OccursBefore(q, t[..|s|], t[|s|..], p);
        assert t[..|s|] + t[|s|..] == t;
      }
    } else if i == 0 {
      assert q[0..] == q;
      PrefixSurvives(t, s, q, 0);
      assert OccursAt(q, t, 0);
    } else {
      OccursAfter(q, [t[0]], Replace(t[1..], s, MARKER), i);
      NothingNew(t[1..], s, q, i - 1);
      var p: nat :| OccursAt(q, t[1..], p);
      OccursBefore(q, [t[0]], t[1..], p);
      assert [t[0]] + t[1..] == t;
    }
  }

  // ---- Scrubbing ------------------------------------------------------------------------

  function ReplaceEach(t: string, order: seq<string>): string
    requires "" !in order
    decreases |order|
  {
    if order == [] then t else ReplaceEach(Replace(t, order[0], MARKER), order[1..])
  }

  /** Secrets that may be registered. */
  ghost predicate Registrable(secrets: set<string>) {
    forall s :: s in secrets ==> |s| >= MIN_SECRET_LENGTH
  }

  ghost predicate Clean(secrets: set<string>, t: string) {
    forall s :: s in secrets ==> !Occurs(s, t)
  }

  function Elements(order: seq<string>): set<string> {
    set i | 0 <= i < |order| :: order[i]
  }

  lemma {:induction false} ElementsAre(order: seq<string>)
    ensures forall s :: s in order <==> s in Elements(order)
  {
  }

  /** A string stays absent through further replacements. */
  lemma {:induction false} StaysAbsent(t: string, order: seq<string>, q: string)
    requires "" !in order && q != "" && TouchFree(q) && !Occurs(q, t)
    ensures !Occurs(q, ReplaceEach(t, order))
    decreases |order|
  {
    if order != [] {
      var t' := Replace(t, order[0], MARKER);
      if Occurs(q, t') {
        var i: nat :| OccursAt(q, t', i);
        NothingNew(t, order[0], q, i);
      }
      StaysAbsent(t', order[1..], q);
    }
  }

  /** Whatever the order, no touch-free secret is left. */
  lemma {:induction false} NoSecretIsLeft(t: string, order: seq<string>)
    requires "" !in order && forall s :: s in order ==> TouchFree(s)
    ensures Clean(Elements(order), ReplaceEach(t, order))
    decreases |order|
  {
    if order != [] {
      var s := order[0];
      var t' := Replace(t, s, MARKER);
      if Occurs(s, t') {
        var i: nat :| OccursAt(s, t', i);
        NothingNew(t, s, s, i);
      }
      StaysAbsent(t', order[1..], s);
      NoSecretIsLeft(t', order[1..]);
      assert Elements(order) == {s} + Elements(order[1..]);
    }
  }

  lemma {:induction false} CleanTextIsUnchanged(t: string, order: seq<string>)
    requires "" !in order && Clean(Elements(order), t)
    ensures ReplaceEach(t, order) == t
    decreases |order|
  {
    if order != [] {
      assert order[0] in Elements(order);
      AbsentIsUnchanged(t, order[0], MARKER);
      assert Elements(order) == {order[0]} + Elements(order[1..]);
      CleanTextIsUnchanged(t, order[1..]);
    }
  }

  /** Scrubbing leaves a text alone exactly when it holds no secret, and scrubbing again, in
      whatever order, changes nothing more. */
  lemma {:induction false} ScrubbingIsIdempotent(t: string, order: seq<string>, again: seq<string>)
    requires "" !in order && (forall s :: s in order ==> TouchFree(s)) && Elements(again) == Elements(order)
    ensures "" !in again
    ensures ReplaceEach(ReplaceEach(t, order), again) == ReplaceEach(t, order)
    ensures ReplaceEach(t, order) == t <==> Clean(Elements(order), t)
  {
    ElementsAre(order);
    ElementsAre(again);
    NoSecretIsLeft(t, order);
    CleanTextIsUnchanged(ReplaceEach(t, order), again);
    if Clean(Elements(order), t) {
      CleanTextIsUnchanged(t, order);
    }
  }

  // ---- Which secrets are safe -------------------------------------------------------------

  predicate Bracketless(s: string) {
    '[' !in s && ']' !in s
  }

  lemma {:induction false} OnlyTheWordAgreesInside(s: string)
    requires |s| == 8 && Agrees(s, 1)
    ensures s == "redacted"
  {
    forall k | 0 <= k < 8 ensures s[k] == "redacted"[k] {
      assert MARKER[k + 1] == s[k + 1 - 1];
    }
  }

  lemma {:induction false} BracketlessIsTouchFree(s: string)
    requires |s| >= MIN_SECRET_LENGTH && Bracketless(s) && s != "redacted"
    ensures TouchFree(s)
  {
    forall d | -|s| < d < |MARKER| ensures !Agrees(s, d) {
      if d <= 0 {
        assert MARKER[0] != s[0 - d];
      } else if d + |s| >= |MARKER| {
        assert MARKER[9] != s[9 - d];
      } else {
        assert d == 1 && |s| == 8;
        if Agrees(s, 1) { OnlyTheWordAgreesInside(s); }
      }
    }
  }

  lemma {:induction false} NeedsRoom(s: string, t: string)
    requires |s| >= |t| && s != t
    ensures !Occurs(s, t)
  {
    assert t[0..|t|] == t;
  }

  lemma {:induction false} MarkerIsKept(order: seq<string>)
    requires "" !in order && forall s :: s in order ==> TouchFree(s)
    ensures ReplaceEach(MARKER, order) == MARKER
    decreases |order|
  {
    if order != [] {
      assert MARKER + "" == MARKER && order[0] != "" && TouchFree(order[0]);
      forall i: nat ensures !OccursAt(order[0], MARKER, i) {
        if OccursAt(order[0], MARKER, i) { AgreesInsideMarker(order[0], "", i); }
      }
      AbsentIsUnchanged(MARKER, order[0], MARKER);
      MarkerIsKept(order[1..]);
    }
  }

  ghost predicate Distinct(order: seq<string>) {
    forall i, j :: 0 <= i < j < |order| ==> order[i] != order[j]
  }

  lemma {:induction false} RedactedBecomesTheMarker(order: seq<string>)
    requires "redacted" in order && Distinct(order)
    requires forall s :: s in order ==> |s| >= MIN_SECRET_LENGTH && Bracketless(s)
    ensures ReplaceEach("redacted", order) == MARKER
    decreases |order|
  {
    if order[0] == "redacted" {
      assert "redacted"[..8] == "redacted" && "redacted"[8..] == "";
      assert Replace("", "redacted", MARKER) == "" && MARKER + "" == MARKER;
      assert Replace("redacted", "redacted", MARKER) == MARKER;
      forall s | s in order[1..] ensures TouchFree(s) { BracketlessIsTouchFree(s); }
      MarkerIsKept(order[1..]);
    } else {
      NeedsRoom(order[0], "redacted");
      AbsentIsUnchanged("redacted", order[0], MARKER);
      RedactedBecomesTheMarker(order[1..]);
    }
  }

  /** For secrets without brackets, scrubbing protects every secret in every text exactly
      when the marker's own word is not one of them. */
  lemma {:induction false} ScrubProtectsIff(order: seq<string>)
    requires Distinct(order)
    requires forall s :: s in order ==> |s| >= MIN_SECRET_LENGTH && Bracketless(s)
    ensures (forall t :: Clean(Elements(order), ReplaceEach(t, order))) <==> "redacted" !in order
  {
    if "redacted" in order {
      RedactedBecomesTheMarker(order);
      assert OccursAt("redacted", MARKER, 1);
      assert "redacted" in Elements(order);
      assert !Clean(Elements(order), ReplaceEach("redacted", order));
    } else {
      forall s | s in order ensures TouchFree(s) { BracketlessIsTouchFree(s); }
      forall t: string ensures Clean(Elements(order), ReplaceEach(t, order)) {
        NoSecretIsLeft(t, order);
      }
    }
  }

  // ---- One secret of any shape ---------------------------------------------------------------

  /** The first place `s` is found in the first `k` characters of `s` followed by `s`. */
  predicate FirstFoundAt(s: string, k: nat)
    requires k <= |s|
  {
    forall p :: 0 <= p < k ==> !OccursAt(s, s[..k] + s, p)
  }

  /** A secret that survives its own replacement in some text: it starts inside a marker it
      agrees with, or it runs into one from text that does not already contain it sooner. */
  predicate Leaky(s: string) {
    || (exists d :: 0 <= d < |MARKER| && Agrees(s, d))
    || (exists k :: 0 < k < |s| && Agrees(s, -k) && FirstFoundAt(s, k))
  }

  ghost predicate NotFoundBefore(s: string, j: nat, t: string)
    requires j <= |s|
  {
    forall p :: 0 <= p < j ==> !OccursAt(s, s[..j] + t, p)
  }

  lemma {:induction false} MarkerReached(s: string, j: nat, t: string, rest: string)
    requires 0 < j < |s| <= |t| && t[..|s|] == s && s[j..] <= MARKER + rest && NotFoundBefore(s, j, t)
    ensures Leaky(s)
  {
    ReachingAgrees(s, j, rest);
    forall p | 0 <= p < j ensures !OccursAt(s, s[..j] + s, p) {
      assert (s[..j] + t)[p..p + |s|] == (s[..j] + s)[p..p + |s|];
      assert !OccursAt(s, s[..j] + t, p);
    }
    assert FirstFoundAt(s, j);
  }

  lemma {:induction false} StartCompletes(s: string, j: nat, t: string)
    requires j <= |s| && s[j..] <= t
    ensures OccursAt(s, s[..j] + t, 0)
  {
    assert (s[..j] + t)[0..|s|] == s[..j] + s[j..];
  }

  lemma {:induction false} ScanOn(s: string, j: nat, t: string)
    requires j < |s| <= |t| && s[j] == t[0] && t[..|s|] != s && NotFoundBefore(s, j, t)
    ensures NotFoundBefore(s, j + 1, t[1..])
  {
    var text := s[..j] + t;
    assert text[j..j + |s|] == t[..|s|];
    assert s[..j + 1] + t[1..] == text;
    forall p | 0 <= p < j + 1 ensures !OccursAt(s, text, p) {
      assert p < j ==> !OccursAt(s, s[..j] + t, p);
    }
  }

  /** `s[..j]` was scanned and copied, and what follows is the rest of an `s`. */
  lemma {:induction false} SelfOccurrenceLeaks(t: string, s: string, j: nat)
    requires 0 < j <= |s| && s[j..] <= Replace(t, s, MARKER) && NotFoundBefore(s, j, t)
    ensures Leaky(s)
    decreases |t|
  {
    var r := Replace(t, s, MARKER);
    if j == |s| || |t| < |s| {
      StartCompletes(s, j, t);
    } else if t[..|s|] == s {
      MarkerReached(s, j, t, Replace(t[|s|..], s, MARKER));
    } else {
      assert r[0] == s[j..][0] && r[1..] == Replace(t[1..], s, MARKER);
      assert s[j + 1..] == s[j..][1..];
      ScanOn(s, j, t);
      SelfOccurrenceLeaks(t[1..], s, j + 1);
    }
  }

  lemma {:induction false} CopiedStart(t: string, s: string)
    requires s != "" && |t| >= |s| && t[..|s|] != s && OccursAt(s, Replace(t, s, MARKER), 0)
    ensures Leaky(s)
  {
    var rest := Replace(t[1..], s, MARKER);
    var r := [t[0]] + rest;
    assert r[0..|s|] == s && r[1..] == rest;
    assert s[0] == t[0] && s[1..] == rest[..|s| - 1];
    assert s[..1] + t[1..] == t;
    SelfOccurrenceLeaks(t[1..], s, 1);
  }

  lemma {:induction false} LeftoverLeaks(t: string, s: string, i: nat)
    requires s != "" && OccursAt(s, Replace(t, s, MARKER), i)
    ensures Leaky(s)
    decreases |t|
  {
    if |t| < |s| {
      assert false;
    } else if t[..|s|] == s {
      var rest := Replace(t[|s|..], s, MARKER);
      if i < |MARKER| {
        AgreesInsideMarker(s, rest, i);
      } else {
        OccursAfter(s, MARKER, rest, i);
        LeftoverLeaks(t[|s|..], s, i - |MARKER|);
      }
    } else if i == 0 {
      CopiedStart(t, s);
    } else {
      OccursAfter(s, [t[0]], Replace(t[1..], s, MARKER), i);
      LeftoverLeaks(t[1..], s, i - 1);
    }
  }

  /** Text in which `s` is first found at `k`, and what replacing it there gives. */
  lemma {:induction false} ReplaceFirst(u: string, s: string, v: string)
    requires s != "" && |v| < |s| && forall p :: 0 <= p < |u| ==> !OccursAt(s, u + s, p)
    ensures Replace(u + s + v, s, MARKER) == u + MARKER + v
    decreases |u|
  {
    var t := u + s + v;
    if u == [] {
      assert t[..|s|] == s && t[|s|..] == v;
    } else {
      assert !OccursAt(s, u + s, 0);
      assert t[..|s|] == (u + s)[0..0 + |s|];
      assert t[1..] == u[1..] + s + v;
      forall p | 0 <= p < |u[1..]| ensures !OccursAt(s, u[1..] + s, p) {
        assert (u + s)[p + 1..p + 1 + |s|] == (u[1..] + s)[p..p + |s|];
        assert !OccursAt(s, u + s, p + 1);
      }
      ReplaceFirst(u[1..], s, v);
      assert [t[0]] + (u[1..] + MARKER + v) == u + MARKER + v;
    }
  }

  lemma {:induction false} MarkerCompletes(s: string, k: nat, d: nat, v: string)
    requires s != "" && k < |s| && d < |MARKER| && (k == 0 || d == 0) && Agrees(s, d - k)
    requires v == if k + |MARKER| - d >= |s| then "" else s[k + |MARKER| - d..]
    ensures OccursAt(s, s[..k] + MARKER + v, d)
  {
    var r := s[..k] + MARKER + v;
    forall i | 0 <= i < |s| ensures r[d + i] == s[i] {
      if k <= i < k + |MARKER| - d {
        assert MARKER[i + d - k] == s[i + d - k - (d - k)];
      }
    }
    assert r[d..d + |s|] == s;
  }

  lemma {:induction false} LeakyLeaks(s: string, k: nat, d: nat) returns (t: string)
    requires s != "" && k < |s| && d < |MARKER| && (k == 0 || d == 0) && Agrees(s, d - k) && FirstFoundAt(s, k)
    ensures Occurs(s, Replace(t, s, MARKER))
  {
    var v := if k + |MARKER| - d >= |s| then "" else s[k + |MARKER| - d..];
    ReplaceFirst(s[..k], s, v);
    t := s[..k] + s + v;
    MarkerCompletes(s, k, d, v);
  }

  ghost predicate Protects(s: string, t: string)
    requires s != ""
  {
    !Occurs(s, Replace(t, s, MARKER))
  }

  lemma {:induction false} SomeTextLeaks(s: string) returns (t: string)
    requires s != "" && Leaky(s)
    ensures !Protects(s, t)
  {
    if d :| 0 <= d < |MARKER| && Agrees(s, d) {
      t := LeakyLeaks(s, 0, d);
    } else {
      var k :| 0 < k < |s| && Agrees(s, -k) && FirstFoundAt(s, k);
      t := LeakyLeaks(s, k, 0);
    }
  }

  /** A lone secret never survives, in any text, exactly when it is not leaky. */
  lemma {:induction false} LoneSecretProtectedIff(s: string)
    requires s != ""
    ensures (forall t :: Protects(s, t)) <==> !Leaky(s)
  {
    if Leaky(s) {
      var t := SomeTextLeaks(s);
      assert !Protects(s, t);
    } else {
      forall t: string ensures Protects(s, t) {
        forall i: nat ensures !OccursAt(s, Replace(t, s, MARKER), i) {
          if OccursAt(s, Replace(t, s, MARKER), i) { LeftoverLeaks(t, s, i); }
        }
      }
    }
  }

  // ---- What is kept ------------------------------------------------------------------------------

  /** Replacing the markers back restores a text that had no opening bracket. */
  lemma {:induction false} ReplacementIsReversible(t: string, s: string)
    requires s != "" && '[' !in t
    ensures Replace(Replace(t, s, MARKER), MARKER, s) == t
    decreases |t|
  {
    if |t| < |s| {
      forall i: nat ensures !OccursAt(MARKER, t, i) {
        assert i + |MARKER| <= |t| ==> t[i..i + |MARKER|][0] == t[i];
      }
      AbsentIsUnchanged(t, MARKER, s);
    } else if t[..|s|] == s {
      var rest := Replace(t[|s|..], s, MARKER);
      ReplacementIsReversible(t[|s|..], s);
      assert (MARKER + rest)[..|MARKER|] == MARKER && (MARKER + rest)[|MARKER|..] == rest;
      assert s + t[|s|..] == t;
    } else {
      var rest := Replace(t[1..], s, MARKER);
      ReplacementIsReversible(t[1..], s);
      var r := [t[0]] + rest;
      assert r[1..] == rest;
      if |r| >= |MARKER| {
        assert r[..|MARKER|][0] == t[0];
      }
    }
  }

  // ---- The process-wide registry -----------------------------------------------------------------

  ghost predicate LongestFirst(order: seq<string>) {
    forall i, j :: 0 <= i < j < |order| ==> |order[i]| >= |order[j]|
  }

  ghost predicate IsOrder(order: seq<string>, secrets: set<string>) {
    Distinct(order) && LongestFirst(order) && Elements(order) == secrets
  }

  lemma {:induction false} LongestExists(secrets: set<string>)
    requires secrets != {}
    ensures exists s :: s in secrets && forall o :: o in secrets ==> |o| <= |s|
    decreases |secrets|
  {
    var s :| s in secrets;
    if secrets != {s} {
      LongestExists(secrets - {s});
      var l :| l in secrets - {s} && forall o :: o in secrets - {s} ==> |o| <= |l|;
      var longest := if |l| >= |s| then l else s;
      assert longest in secrets && forall o :: o in secrets ==> |o| <= |longest|;
    }
  }

  lemma {:induction false} ReplaceOneMore(t: string, order: seq<string>, s: string)
    requires "" !in order && s != ""
    ensures "" !in order + [s]
    ensures ReplaceEach(t, order + [s]) == Replace(ReplaceEach(t, order), s, MARKER)
    decreases |order|
  {
    if order == [] {
      assert (order + [s])[1..] == [];
    } else {
      ReplaceOneMore(Replace(t, order[0], MARKER), order[1..], s);
      assert (order + [s])[1..] == order[1..] + [s];
    }
  }

  lemma {:induction false} ElementsOfMore(order: seq<string>, s: string)
    ensures Elements(order + [s]) == Elements(order) + {s}
  {
    ElementsAre(order);
    ElementsAre(order + [s]);
  }

  /** The secrets already replaced, longest first, and the shorter ones still to come. */
  ghost predicate Replaced(order: seq<string>, rest: set<string>, secrets: set<string>) {
    && "" !in order && rest <= secrets && IsOrder(order, secrets - rest)
    && forall s, i :: s in rest && 0 <= i < |order| ==> |s| <= |order[i]|
  }

  lemma {:induction false} ReplacedOneMore(order: seq<string>, rest: set<string>, secrets: set<string>, s: string)
    requires Replaced(order, rest, secrets) && s in rest && s != "" && forall o :: o in rest ==> |o| <= |s|
    ensures Replaced(order + [s], rest - {s}, secrets)
  {
    ElementsOfMore(order, s);
    ElementsAre(order);
    assert secrets - (rest - {s}) == (secrets - rest) + {s};
    assert forall i :: 0 <= i < |order| ==> order[i] in secrets - rest;
  }

  class LogRedactor {
    var secrets: set<string>

    ghost predicate Valid()
      reads this
    {
      Registrable(secrets)
    }

    constructor ()
      ensures Valid() && secrets == {}
    {
      secrets := {};
    }

    /** Adds every value long enough to be substituted safely; empty ones are skipped, short
        ones refused and counted. */
    method Redact(values: seq<Option<string>>) returns (warnings: nat)
      requires Valid()
      modifies this
      ensures Valid()
      ensures forall s :: s in secrets <==> s in old(secrets) || (Some(s) in values && |s| >= 8)
      ensures warnings == 0 <==> forall v :: v in values ==> v.None? || v.value == "" || v.value in secrets
    {
      warnings := 0;
      for i := 0 to |values|
        invariant Valid()
        invariant forall s :: s in secrets <==> s in old(secrets) || (Some(s) in values[..i] && |s| >= MIN_SECRET_LENGTH)
        invariant warnings == 0 <==> forall v :: v in values[..i] ==> v.None? || v.value == "" || v.value in secrets
      {
        var v := values[i];
        assert values[..i + 1] == values[..i] + [v];
        if v == None || v == Some("") { continue; }
        if |v.value| < MIN_SECRET_LENGTH {
          warnings := warnings + 1;
          continue;
        }
        secrets := secrets + {v.value};
      }
      assert values[..|values|] == values;
    }

    /** Every registered secret replaced, longest first; ties come in any order. */
    method Scrub(text: string) returns (r: string)
      requires Valid()
      ensures exists order :: "" !in order && IsOrder(order, secrets) && r == ReplaceEach(text, order)
      ensures (forall s :: s in secrets ==> TouchFree(s)) ==> Clean(secrets, r)
      ensures Clean(secrets, text) ==> r == text
    {
      r := text;
      var rest := secrets;
      ghost var order: seq<string> := [];
      while rest != {}
        invariant Replaced(order, rest, secrets)
        invariant r == ReplaceEach(text, order)
        decreases |rest|
      {
        LongestExists(rest);
        var secret :| secret in rest && forall o :: o in rest ==> |o| <= |secret|;
        ReplaceOneMore(text, order, secret);
        ReplacedOneMore(order, rest, secrets, secret);
        r := Replace(r, secret, MARKER);
        rest := rest - {secret};
        order := order + [secret];
      }
      assert IsOrder(order, secrets) by { assert secrets - rest == secrets; }
      ElementsAre(order);
      if forall s :: s in secrets ==> TouchFree(s) { NoSecretIsLeft(text, order); }
      if Clean(secrets, text) { CleanTextIsUnchanged(text, order); }
    }
  }
}
