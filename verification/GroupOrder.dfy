/** The order groups are shown in: the fullest comparison first. */
module GroupOrder {
  import opened Prelude
  import opened Grouping

  /** What a group is called. */
  function Label(k: Comparability): string {
    k.hostName
    + (if k.gpuModel.Some? && k.gpuModel.value != "" then SEPARATOR + k.gpuModel.value else "")
    + SEPARATOR + (if k.engineVersion.Some? && k.engineVersion.value != "" then "vLLM " + k.engineVersion.value else "vLLM unknown")
    + (if k.clientLocation != "loopback" then SEPARATOR + k.clientLocation + " client" else "")
  }

  const SEPARATOR: string := " \U{00b7} "

  /** Strings character by character, a prefix before what it is a prefix of. */
  predicate AtMost(a: string, b: string)
    decreases |a|
  {
    a == "" || (b != "" && (a[0] < b[0] || (a[0] == b[0] && AtMost(a[1..], b[1..]))))
  }

  lemma {:induction false} AtMostTotal(a: string, b: string)
    ensures AtMost(a, b) || AtMost(b, a)
    decreases |a|
  {
    if a != "" && b != "" { AtMostTotal(a[1..], b[1..]); }
  }

  lemma {:induction false} AtMostTransitive(a: string, b: string, c: string)
    requires AtMost(a, b) && AtMost(b, c)
    ensures AtMost(a, c)
    decreases |a|
  {
    if a != "" && a[0] == b[0] == c[0] { AtMostTransitive(a[1..], b[1..], c[1..]); }
  }

  /** More runs first, then by label. */
  predicate Leads(g: Group, h: Group) {
    || RunCount(g.points) > RunCount(h.points)
    || (RunCount(g.points) == RunCount(h.points) && AtMost(Label(g.key), Label(h.key)))
  }

  lemma {:induction false} LeadsTotal(g: Group, h: Group)
    ensures Leads(g, h) || Leads(h, g)
  {
    AtMostTotal(Label(g.key), Label(h.key));
  }

  lemma {:induction false} LeadsTransitive(f: Group, g: Group, h: Group)
    requires Leads(f, g) && Leads(g, h)
    ensures Leads(f, h)
  {
    if RunCount(f.points) == RunCount(g.points) == RunCount(h.points) {
      AtMostTransitive(Label(f.key), Label(g.key), Label(h.key));
    }
  }

  predicate InOrder(groups: seq<Group>) {
    forall i, j :: 0 <= i < j < |groups| ==> Leads(groups[i], groups[j])
  }

  /** A stable insertion. */
  function Insert(g: Group, groups: seq<Group>): (r: seq<Group>)
    ensures |r| == |groups| + 1 && forall x :: x in r <==> x == g || x in groups
    decreases |groups|
  {
    if groups == [] || Leads(g, groups[0]) then [g] + groups
    else
      assert groups == [groups[0]] + groups[1..];
      [groups[0]] + Insert(g, groups[1..])
  }

  function Arranged(groups: seq<Group>): (r: seq<Group>)
    ensures |r| == |groups| && forall x :: x in r <==> x in groups
    decreases |groups|
  {
    if groups == [] then []
    else
      assert groups == [groups[0]] + groups[1..];
      Insert(groups[0], Arranged(groups[1..]))
  }

  lemma {:induction false} ConsInOrder(g: Group, rest: seq<Group>)
    requires InOrder(rest) && forall h :: h in rest ==> Leads(g, h)
    ensures InOrder([g] + rest)
  {
    forall j | 0 <= j < |rest| ensures Leads(g, rest[j]) { assert rest[j] in rest; }
  }

  lemma {:induction false} InsertInOrder(g: Group, groups: seq<Group>)
    requires InOrder(groups)
    ensures InOrder(Insert(g, groups))
    decreases |groups|
  {
    if groups == [] {
      assert Insert(g, groups) == [g];
    } else {
      var first, rest := groups[0], groups[1..];
      forall h | h in rest ensures Leads(first, h) {
        var j :| 0 <= j < |rest| && rest[j] == h;
        assert Leads(groups[0], groups[j + 1]);
      }
      if Leads(g, first) {
        forall h | h in groups ensures Leads(g, h) {
          if h != first { LeadsTransitive(g, first, h); }
        }
        ConsInOrder(g, groups);
      } else {
        LeadsTotal(g, first);
        InsertInOrder(g, rest);
        ConsInOrder(first, Insert(g, rest));
      }
    }
  }

  lemma {:induction false} ArrangedInOrder(groups: seq<Group>)
    ensures InOrder(Arranged(groups))
    decreases |groups|
  {
    if groups != [] {
      ArrangedInOrder(groups[1..]);
      InsertInOrder(groups[0], Arranged(groups[1..]));
    }
  }

  lemma {:induction false} InsertDistinct(g: Group, groups: seq<Group>)
    requires DistinctGroups(groups) && forall h :: h in groups ==> h.key != g.key
    ensures DistinctGroups(Insert(g, groups))
    decreases |groups|
  {
    if groups != [] && !Leads(g, groups[0]) {
      var rest := Insert(g, groups[1..]);
      InsertDistinct(g, groups[1..]);
      forall j | 0 <= j < |rest| ensures rest[j].key != groups[0].key {
        assert rest[j] in rest;
        if rest[j] != g {
          var k :| 0 <= k < |groups[1..]| && groups[1..][k] == rest[j];
          assert groups[0].key != groups[k + 1].key;
        }
      }
    }
  }

  lemma {:induction false} ArrangedDistinct(groups: seq<Group>)
    requires DistinctGroups(groups)
    ensures DistinctGroups(Arranged(groups))
    decreases |groups|
  {
    if groups != [] {
      ArrangedDistinct(groups[1..]);
      forall h | h in Arranged(groups[1..]) ensures h.key != groups[0].key {
        var k :| 0 <= k < |groups[1..]| && groups[1..][k] == h;
        assert groups[0].key != groups[k + 1].key;
      }
      InsertDistinct(groups[0], Arranged(groups[1..]));
    }
  }

  lemma {:induction false} ArrangedAreGroups(rs: seq<Record>, groups: seq<Group>)
    requires GroupsOf(rs, groups)
    ensures GroupsOf(rs, Arranged(groups))
  {
    var r := Arranged(groups);
    ArrangedDistinct(groups);
    forall i | 0 <= i < |r|
      ensures PointsOf(Filter(rs, Has<Comparability>(ComparabilityOf, r[i].key)), r[i].points) && r[i].points != []
    {
      assert r[i] in r;
      var k :| 0 <= k < |groups| && groups[k] == r[i];
    }
    forall x | x in rs ensures exists i :: 0 <= i < |r| && r[i].key == ComparabilityOf(x) {
      var k :| 0 <= k < |groups| && groups[k].key == ComparabilityOf(x);
      assert groups[k] in r;
      var i :| 0 <= i < |r| && r[i] == groups[k];
    }
  }

  /** One label stands before another exactly when it is a prefix of it or has the smaller
      character where they first differ. */
  lemma {:induction false} AtMostIff(a: string, b: string)
    ensures AtMost(a, b) <==> a <= b || exists n :: 0 <= n < |a| && n < |b| && a[..n] == b[..n] && a[n] < b[n]
    decreases |a|
  {
    if a != "" && b != "" && a[0] == b[0] {
      AtMostIff(a[1..], b[1..]);
      FirstDifference(a, b);
    } else if a != "" && b != "" {
      assert a[..0] == b[..0];
    }
  }

  lemma {:induction false} FirstDifference(a: string, b: string)
    requires a != "" && b != "" && a[0] == b[0]
    ensures a <= b <==> a[1..] <= b[1..]
    ensures (exists n :: 0 <= n < |a| && n < |b| && a[..n] == b[..n] && a[n] < b[n]) <==>
            (exists n :: 0 <= n < |a[1..]| && n < |b[1..]| && a[1..][..n] == b[1..][..n] && a[1..][n] < b[1..][n])
  {
    assert a == [a[0]] + a[1..] && b == [b[0]] + b[1..];
    if n :| 0 <= n < |a| && n < |b| && a[..n] == b[..n] && a[n] < b[n] {
      assert n > 0 && a[1..][..n - 1] == a[..n][1..] && b[1..][..n - 1] == b[..n][1..];
      assert a[1..][n - 1] == a[n] && b[1..][n - 1] == b[n];
    }
    if n :| 0 <= n < |a[1..]| && n < |b[1..]| && a[1..][..n] == b[1..][..n] && a[1..][n] < b[1..][n] {
      assert a[..n + 1] == [a[0]] + a[1..][..n] && b[..n + 1] == [b[0]] + b[1..][..n];
      assert a[n + 1] == a[1..][n] && b[n + 1] == b[1..][n];
    }
  }

  /** How a label reads, by what is known of the host, and what is not. */
  lemma {:induction false} LabelReads(host: nat, name: string, gpu: string, version: string, client: string)
    requires gpu != "" && version != "" && client != "loopback"
    ensures Label(Comparability(host, name, Some(gpu), Some(version), "loopback")) ==
              name + " \U{00b7} " + gpu + " \U{00b7} " + ("vLLM " + version)
    ensures Label(Comparability(host, name, None, Some(version), client)) ==
              name + " \U{00b7} " + ("vLLM " + version) + (" \U{00b7} " + client + " client")
    ensures Label(Comparability(host, name, Some(gpu), None, "loopback")) == name + " \U{00b7} " + gpu + " \U{00b7} vLLM unknown"
    ensures Label(Comparability(host, name, Some(""), Some(""), "loopback")) == name + " \U{00b7} vLLM unknown"
  {
    SeparatedParts(name, gpu, "vLLM " + version);
    SeparatedParts(name, gpu, "vLLM unknown");
  }

  lemma {:induction false} SeparatedParts(a: string, b: string, c: string)
    ensures a + (SEPARATOR + b) + SEPARATOR + c + "" == a + SEPARATOR + b + SEPARATOR + c
    ensures a + "" + SEPARATOR + c == a + SEPARATOR + c
  {
  }

  /** The groups of the records, the one with the most runs first, and among equals by label. */
  method BuildGroups(rs: seq<Record>) returns (groups: seq<Group>)
    ensures GroupsOf(rs, groups)
    ensures forall i, j :: 0 <= i < j < |groups| ==>
      RunCount(groups[i].points) > RunCount(groups[j].points)
      || (RunCount(groups[i].points) == RunCount(groups[j].points) && AtMost(Label(groups[i].key), Label(groups[j].key)))
  {
    var collected := CollectGroups(rs);
    groups := Arranged(collected);
    ArrangedAreGroups(rs, collected);
    ArrangedInOrder(collected);
  }
}
