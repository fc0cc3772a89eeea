// Collapsing rows for display: flows by destination, port usage by protocol and port, and the traffic direction of a group.

/** Rows collected under text keys, in the order in which the keys were first met. */
module Tallies {

  datatype Table<G> = Table(order: seq<string>, at: map<string, G>)

  function Insert<R, G>(t: Table<G>, r: R, key: R -> string, first: R -> G, merge: (G, R) -> G): Table<G> {
    var k := key(r);
    if k in t.at then Table(t.order, t.at[k := merge(t.at[k], r)])
    else Table(t.order + [k], t.at[k := first(r)])
  }

  function Gather<R, G>(rows: seq<R>, key: R -> string, first: R -> G, merge: (G, R) -> G): Table<G> {
    if rows == [] then Table([], map[])
    else Insert(Gather(rows[..|rows| - 1], key, first, merge), rows[|rows| - 1], key, first, merge)
  }

  /** The rows with one key, in order. */
  function Members<R>(rows: seq<R>, key: R -> string, k: string): seq<R> {
    if rows == [] then []
    else
      var rest := Members(rows[..|rows| - 1], key, k);
      if key(rows[|rows| - 1]) == k then rest + [rows[|rows| - 1]] else rest
  }

  function Fold<R, G>(rows: seq<R>, first: R -> G, merge: (G, R) -> G): G
    requires rows != []
  {
    if |rows| == 1 then first(rows[0])
    else merge(Fold(rows[..|rows| - 1], first, merge), rows[|rows| - 1])
  }

  ghost predicate Distinct(order: seq<string>) {
    forall i, j :: 0 <= i < j < |order| ==> order[i] != order[j]
  }

  ghost predicate Indexed<G>(t: Table<G>) {
    Distinct(t.order) && forall k :: k in t.order <==> k in t.at
  }

  lemma InsertIndexed<R, G>(t: Table<G>, r: R, key: R -> string, first: R -> G, merge: (G, R) -> G)
    requires Indexed(t)
    ensures Indexed(Insert(t, r, key, first, merge))
  {
    var k := key(r);
    if k !in t.at {
      assert k !in t.order;
    }
  }

  /** Every key met has one group, and the group is the fold of exactly the rows with that key. */
  lemma {:induction false} GatherExact<R, G>(rows: seq<R>, key: R -> string, first: R -> G, merge: (G, R) -> G, k: string)
    ensures var t := Gather(rows, key, first, merge); var ms := Members(rows, key, k);
      Indexed(t) && (k in t.at <==> ms != []) && (k in t.at ==> t.at[k] == Fold(ms, first, merge))
  {
    if rows != [] {
      var init, r := rows[..|rows| - 1], rows[|rows| - 1];
      GatherExact(init, key, first, merge, k);
      InsertIndexed(Gather(init, key, first, merge), r, key, first, merge);
      var ms := Members(init, key, k);
      assert (ms + [r])[..|ms|] == ms;
    }
  }

  lemma {:induction false} MembersMatch<R>(rows: seq<R>, key: R -> string, k: string)
    ensures forall r :: r in Members(rows, key, k) ==> key(r) == k
    ensures forall i :: 0 <= i < |rows| && key(rows[i]) == k ==> rows[i] in Members(rows, key, k)
  {
    if rows != [] {
      MembersMatch(rows[..|rows| - 1], key, k);
    }
  }

  lemma {:induction false} MembersFrom<R>(rows: seq<R>, key: R -> string, k: string)
    ensures forall r :: r in Members(rows, key, k) ==> r in rows
  {
    if rows != [] {
      MembersFrom(rows[..|rows| - 1], key, k);
      assert rows == rows[..|rows| - 1] + [rows[|rows| - 1]];
    }
  }

  // ----- Totals ----------------------------------------------------------------------

  function SumOf<R>(rows: seq<R>, v: R -> int): int {
    if rows == [] then 0 else SumOf(rows[..|rows| - 1], v) + v(rows[|rows| - 1])
  }

  function Values<G>(t: Table<G>, order: seq<string>): (r: seq<G>)
    requires forall k :: k in order ==> k in t.at
    ensures |r| == |order|
  {
    if order == [] then [] else Values(t, order[..|order| - 1]) + [t.at[order[|order| - 1]]]
  }

  lemma {:induction false} ValuesAt<G>(t: Table<G>, order: seq<string>, i: nat)
    requires (forall k :: k in order ==> k in t.at) && i < |order|
    ensures order[i] in t.at && Values(t, order)[i] == t.at[order[i]]
  {
    if i < |order| - 1 { ValuesAt(t, order[..|order| - 1], i); }
  }

  /** The groups, in order. */
  function Groups<R, G>(rows: seq<R>, key: R -> string, first: R -> G, merge: (G, R) -> G): seq<G> {
    var t := Gather(rows, key, first, merge);
    GatherExact(rows, key, first, merge, "");
    Values(t, t.order)
  }

  lemma {:induction false} ValuesSame<G>(s: Table<G>, t: Table<G>, order: seq<string>)
    requires forall k :: k in order ==> k in s.at && k in t.at && s.at[k] == t.at[k]
    ensures Values(s, order) == Values(t, order)
  {
    if order != [] { ValuesSame(s, t, order[..|order| - 1]); }
  }

  /** Changing one group changes the total by what that group changed. */
  lemma {:induction false} SumPut<G>(t: Table<G>, order: seq<string>, k: string, g: G, w: G -> int)
    requires Distinct(order) && k in order && forall j :: j in order ==> j in t.at
    ensures SumOf(Values(Table(t.order, t.at[k := g]), order), w) == SumOf(Values(t, order), w) - w(t.at[k]) + w(g)
  {
    var n := |order| - 1;
    var u := Table(t.order, t.at[k := g]);
    var vs, us := Values(t, order), Values(u, order);
    assert vs[..n] == Values(t, order[..n]) && us[..n] == Values(u, order[..n]);
    if order[n] == k {
      assert k !in order[..n];
      ValuesSame(t, u, order[..n]);
    } else {
      SumPut(t, order[..n], k, g, w);
    }
  }

  lemma SumInsert<R, G>(t: Table<G>, r: R, key: R -> string, first: R -> G, merge: (G, R) -> G, v: R -> int, w: G -> int)
    requires Indexed(t)
    requires w(first(r)) == v(r)
    requires key(r) in t.at ==> w(merge(t.at[key(r)], r)) == w(t.at[key(r)]) + v(r)
    ensures var u := Insert(t, r, key, first, merge);
      Indexed(u) && SumOf(Values(u, u.order), w) == SumOf(Values(t, t.order), w) + v(r)
  {
    InsertIndexed(t, r, key, first, merge);
    var k, u := key(r), Insert(t, r, key, first, merge);
    if k in t.at {
      SumPut(t, t.order, k, merge(t.at[k], r), w);
    } else {
      assert k !in t.order && u.order[..|t.order|] == t.order;
      ValuesSame(t, u, t.order);
      assert Values(u, u.order)[..|t.order|] == Values(t, t.order);
    }
  }

  /** Conservation: a measure that every merge adds up has the same total over the groups as over the rows. */
  lemma {:induction false} SumKept<R, G>(rows: seq<R>, key: R -> string, first: R -> G, merge: (G, R) -> G, v: R -> int, w: G -> int)
    requires forall r {:trigger first(r)} :: w(first(r)) == v(r)
    requires forall g, r {:trigger merge(g, r)} :: w(merge(g, r)) == w(g) + v(r)
    ensures SumOf(Groups(rows, key, first, merge), w) == SumOf(rows, v)
  {
    GatherExact(rows, key, first, merge, "");
    if rows != [] {
      var init, r := rows[..|rows| - 1], rows[|rows| - 1];
      SumKept(init, key, first, merge, v, w);
      GatherExact(init, key, first, merge, "");
      var t := Gather(init, key, first, merge);
      SumStep(t, r, key, first, merge, v, w);
      assert Gather(rows, key, first, merge) == Insert(t, r, key, first, merge);
    }
  }

  lemma SumStep<R, G>(t: Table<G>, r: R, key: R -> string, first: R -> G, merge: (G, R) -> G, v: R -> int, w: G -> int)
    requires Indexed(t)
    requires forall r {:trigger first(r)} :: w(first(r)) == v(r)
    requires forall g, r {:trigger merge(g, r)} :: w(merge(g, r)) == w(g) + v(r)
    ensures var u := Insert(t, r, key, first, merge);
      Indexed(u) && SumOf(Values(u, u.order), w) == SumOf(Values(t, t.order), w) + v(r)
  {
    assert w(first(r)) == v(r);
    if key(r) in t.at {
      var g := t.at[key(r)];
      assert w(merge(g, r)) == w(g) + v(r);
    }
    SumInsert(t, r, key, first, merge, v, w);
  }

  /** v is a member's value, and no member's is below it. */
  ghost predicate Least<R>(v: int, rows: seq<R>, f: R -> int) {
    (exists i :: 0 <= i < |rows| && f(rows[i]) == v) && forall i :: 0 <= i < |rows| ==> v <= f(rows[i])
  }

  ghost predicate Greatest<R>(v: int, rows: seq<R>, f: R -> int) {
    (exists i :: 0 <= i < |rows| && f(rows[i]) == v) && forall i :: 0 <= i < |rows| ==> f(rows[i]) <= v
  }

  lemma LeastSnoc<R>(v: int, rows: seq<R>, r: R, f: R -> int)
    requires Least(v, rows, f)
    ensures Least(if f(r) < v then f(r) else v, rows + [r], f)
  {
    var all := rows + [r];
    var i :| 0 <= i < |rows| && f(rows[i]) == v;
    assert all[i] == rows[i] && all[|rows|] == r;
  }

  lemma GreatestSnoc<R>(v: int, rows: seq<R>, r: R, f: R -> int)
    requires Greatest(v, rows, f)
    ensures Greatest(if f(r) > v then f(r) else v, rows + [r], f)
  {
    var all := rows + [r];
    var i :| 0 <= i < |rows| && f(rows[i]) == v;
    assert all[i] == rows[i] && all[|rows|] == r;
  }
}

/** Which kinds of traffic a bucket or a group has seen. */
module Traffic {
  import opened Tables

  datatype View = Unseen | Only(scope: Scope) | Mixed

  datatype Counts = Counts(internal: int, outbound: int, inbound: int, external: int) {
    ghost predicate Valid() {
      internal >= 0 && outbound >= 0 && inbound >= 0 && external >= 0
    }

    function Plus(c: Counts): Counts {
      Counts(internal + c.internal, outbound + c.outbound, inbound + c.inbound, external + c.external)
    }

    /** The bucket's own summary. */
    method Scope() returns (v: View)
      ensures v == DeriveScope(this)
    {
      var seen := 0;
      v := Unseen;
      if internal > 0 {
        seen := seen + 1;
        v := Only(Internal);
      }
      if outbound > 0 {
        seen := seen + 1;
        v := Only(Outbound);
      }
      if inbound > 0 {
        seen := seen + 1;
        v := Only(Inbound);
      }
      if external > 0 {
        seen := seen + 1;
        v := Only(External);
      }
      if seen > 1 {
        v := Mixed;
      }
    }
  }

  function One(n: int): int {
    if n > 0 then 1 else 0
  }

  /** The dashboard's summary of four counters. */
  function DeriveScope(c: Counts): View {
    var seen := One(c.internal) + One(c.outbound) + One(c.inbound) + One(c.external);
    if seen == 0 then Unseen
    else if seen > 1 then Mixed
    else if c.internal > 0 then Only(Internal)
    else if c.outbound > 0 then Only(Outbound)
    else if c.inbound > 0 then Only(Inbound)
    else Only(External)
  }

  function Counter(c: Counts, s: Scope): int {
    match s
    case Internal => c.internal
    case Outbound => c.outbound
    case Inbound => c.inbound
    case External => c.external
  }

  /** The summary names one kind exactly when that kind's counter alone is positive; it is unseen exactly when none is, and
      mixed exactly when two are. */
  lemma SummaryIff(c: Counts, s: Scope)
    ensures DeriveScope(c) == Only(s)
      <==> Counter(c, s) > 0 && forall other :: other != s ==> Counter(c, other) <= 0
    ensures DeriveScope(c) == Unseen <==> forall any :: Counter(c, any) <= 0
    ensures DeriveScope(c) == Mixed <==> exists a, b :: a != b && Counter(c, a) > 0 && Counter(c, b) > 0
  {
    assert Counter(c, Internal) == c.internal && Counter(c, Outbound) == c.outbound;
    assert Counter(c, Inbound) == c.inbound && Counter(c, External) == c.external;
  }

  /** The least view above two, with Unseen at the bottom and Mixed at the top. */
  function Join(a: View, b: View): View {
    if a == Unseen || a == b then b
    else if b == Unseen then a
    else Mixed
  }

  predicate Below(a: View, b: View) {
    a == Unseen || a == b || b == Mixed
  }

  /** Join is the least upper bound. */
  lemma JoinIsLeast(a: View, b: View, c: View)
    ensures Below(Join(a, b), c) <==> Below(a, c) && Below(b, c)
    ensures Join(a, b) == Join(b, a) && Join(Join(a, b), c) == Join(a, Join(b, c)) && Join(a, a) == a
  {
  }

  /** Adding counters joins what they summarise. */
  lemma PlusJoins(a: Counts, b: Counts)
    requires a.Valid() && b.Valid()
    ensures DeriveScope(a.Plus(b)) == Join(DeriveScope(a), DeriveScope(b))
  {
  }
}

module Grouping {
  import opened Tables
  import opened Keys
  import opened Risk
  import opened Ruleset
  import opened Tallies
  import opened Traffic

  // ----- Flows by destination --------------------------------------------------------

  datatype FlowRow = FlowRow(s: Session, r: RiskResult)

  datatype FlowGroup = FlowGroup(
    protocol: string, originSrc: string, originDst: string, dstPort: int,
    count: int, txBytes: int, rxBytes: int, firstSeen: int, lastSeen: int, risk: RiskResult)

  function FlowKey(f: FlowRow): string {
    f.s.protocol + "|" + f.s.originSrc + "|" + f.s.originDst + "|" + Text.Itoa(f.s.dstPort)
  }

  function FirstFlow(f: FlowRow): FlowGroup {
    FlowGroup(f.s.protocol, f.s.originSrc, f.s.originDst, f.s.dstPort, 1, f.s.txBytes, f.s.rxBytes,
              f.s.firstSeen, f.s.lastSeen, f.r)
  }

  function MergeFlow(g: FlowGroup, f: FlowRow): FlowGroup {
    g.(count := g.count + 1, txBytes := g.txBytes + f.s.txBytes, rxBytes := g.rxBytes + f.s.rxBytes,
       firstSeen := if f.s.firstSeen < g.firstSeen then f.s.firstSeen else g.firstSeen,
       lastSeen := if f.s.lastSeen > g.lastSeen then f.s.lastSeen else g.lastSeen,
       risk := if f.r.score > g.risk.score then f.r else g.risk)
  }

  function FlowTx(f: FlowRow): int { f.s.txBytes }
  function FlowRx(f: FlowRow): int { f.s.rxBytes }
  function FlowFirst(f: FlowRow): int { f.s.firstSeen }
  function FlowLast(f: FlowRow): int { f.s.lastSeen }
  function FlowScore(f: FlowRow): int { f.r.score }

  method GroupFlows(rows: seq<FlowRow>) returns (groups: seq<FlowGroup>)
    ensures groups == Groups(rows, FlowKey, FirstFlow, MergeFlow)
  {
    var order: seq<string>, at: map<string, FlowGroup> := [], map[];
    for i := 0 to |rows|
      invariant Table(order, at) == Gather(rows[..i], FlowKey, FirstFlow, MergeFlow)
    {
      assert rows[..i + 1][..i] == rows[..i];
      var f := rows[i];
      var key := FlowKey(f);
      if key !in at {
        order := order + [key];
        at := at[key := FirstFlow(f)];
      } else {
        var merged := AddFlow(at[key], f);
        at := at[key := merged];
      }
    }
    assert rows[..|rows|] == rows;
    GatherExact(rows, FlowKey, FirstFlow, MergeFlow, "");
    groups := Values(Table(order, at), order);
  }

  method AddFlow(g0: FlowGroup, f: FlowRow) returns (g: FlowGroup)
    ensures g == MergeFlow(g0, f)
  {
    g := g0.(count := g0.count + 1);
    g := g.(txBytes := g.txBytes + f.s.txBytes);
    g := g.(rxBytes := g.rxBytes + f.s.rxBytes);
    if f.s.firstSeen < g.firstSeen { g := g.(firstSeen := f.s.firstSeen); }
    if f.s.lastSeen > g.lastSeen { g := g.(lastSeen := f.s.lastSeen); }
    if f.r.score > g.risk.score { g := g.(risk := f.r); }
  }

  predicate SameFlow(g: FlowGroup, f: FlowRow) {
    g.protocol == f.s.protocol && g.originSrc == f.s.originSrc && g.originDst == f.s.originDst && g.dstPort == f.s.dstPort
  }

  /** What a group shows of its members. */
  ghost predicate FlowSummary(g: FlowGroup, ms: seq<FlowRow>) {
    && ms != [] && SameFlow(g, ms[0])
    && g.count == |ms|
    && g.txBytes == SumOf(ms, FlowTx)
    && g.rxBytes == SumOf(ms, FlowRx)
    && Least(g.firstSeen, ms, FlowFirst)
    && Greatest(g.lastSeen, ms, FlowLast)
    && Greatest(g.risk.score, ms, FlowScore)
    && (exists i :: 0 <= i < |ms| && ms[i].r == g.risk)
  }

  lemma FlowSummarySnoc(g: FlowGroup, ms: seq<FlowRow>, f: FlowRow)
    requires FlowSummary(g, ms)
    ensures FlowSummary(MergeFlow(g, f), ms + [f])
  {
    var all := ms + [f];
    assert all[..|ms|] == ms && all[|ms|] == f;
    LeastSnoc(g.firstSeen, ms, f, FlowFirst);
    GreatestSnoc(g.lastSeen, ms, f, FlowLast);
    GreatestSnoc(g.risk.score, ms, f, FlowScore);
    var i :| 0 <= i < |ms| && ms[i].r == g.risk;
    assert all[i].r == g.risk;
  }

  lemma {:induction false} FlowFold(ms: seq<FlowRow>)
    requires ms != []
    ensures FlowSummary(Fold(ms, FirstFlow, MergeFlow), ms)
  {
    var n := |ms| - 1;
    if n == 0 {
      assert ms[..0] == [];
    } else {
      FlowFold(ms[..n]);
      FlowSummarySnoc(Fold(ms[..n], FirstFlow, MergeFlow), ms[..n], ms[n]);
      assert ms == ms[..n] + [ms[n]];
    }
  }

  /** Keys of rows whose addresses hold no pipe agree exactly when the grouped columns do. */
  lemma FlowKeyExact(f: FlowRow, g: FlowRow)
    requires PipeFree(f.s.originSrc) && PipeFree(f.s.originDst) && PipeFree(g.s.originSrc) && PipeFree(g.s.originDst)
    ensures FlowKey(f) == FlowKey(g)
      <==> f.s.protocol == g.s.protocol && f.s.originSrc == g.s.originSrc && f.s.originDst == g.s.originDst
           && f.s.dstPort == g.s.dstPort
  {
    if FlowKey(f) == FlowKey(g) {
      var f2, g2 := f.s.protocol + "|" + f.s.originSrc, g.s.protocol + "|" + g.s.originSrc;
      var f3, g3 := f2 + "|" + f.s.originDst, g2 + "|" + g.s.originDst;
      assert PipeFree(Text.Itoa(f.s.dstPort)) && PipeFree(Text.Itoa(g.s.dstPort));
      SplitLast(f3, Text.Itoa(f.s.dstPort), g3, Text.Itoa(g.s.dstPort), '|');
      SplitLast(f2, f.s.originDst, g2, g.s.originDst, '|');
      SplitLast(f.s.protocol, f.s.originSrc, g.s.protocol, g.s.originSrc, '|');
      Text.ItoaInjective(f.s.dstPort, g.s.dstPort);
    }
  }

  /** Grouping flows: one group per key, in order of first appearance, each the summary of exactly its rows; rows, bytes up
      and bytes down are all accounted for once. */
  lemma FlowGroupsExact(rows: seq<FlowRow>)
    ensures var t := Gather(rows, FlowKey, FirstFlow, MergeFlow); var gs := Groups(rows, FlowKey, FirstFlow, MergeFlow);
      && Distinct(t.order) && |gs| == |t.order|
      && (forall i :: 0 <= i < |gs| ==> FlowSummary(gs[i], Members(rows, FlowKey, t.order[i])))
      && SumOf(gs, GroupCount) == |rows|
      && SumOf(gs, GroupTx) == SumOf(rows, FlowTx)
      && SumOf(gs, GroupRx) == SumOf(rows, FlowRx)
  {
    var t := Gather(rows, FlowKey, FirstFlow, MergeFlow);
    GatherExact(rows, FlowKey, FirstFlow, MergeFlow, "");
    forall i | 0 <= i < |t.order| ensures FlowSummary(Values(t, t.order)[i], Members(rows, FlowKey, t.order[i])) {
      GatherExact(rows, FlowKey, FirstFlow, MergeFlow, t.order[i]);
      ValuesAt(t, t.order, i);
      FlowFold(Members(rows, FlowKey, t.order[i]));
    }
    SumKept(rows, FlowKey, FirstFlow, MergeFlow, FlowOne, GroupCount);
    SumOnes(rows);
    SumKept(rows, FlowKey, FirstFlow, MergeFlow, FlowTx, GroupTx);
    SumKept(rows, FlowKey, FirstFlow, MergeFlow, FlowRx, GroupRx);
  }

  /** For rows without pipes in their addresses a group holds exactly the rows of its protocol, addresses and port. */
  lemma FlowGroupHolds(rows: seq<FlowRow>, i: nat, j: nat)
    requires forall k :: 0 <= k < |rows| ==> PipeFree(rows[k].s.originSrc) && PipeFree(rows[k].s.originDst)
    requires i < |Groups(rows, FlowKey, FirstFlow, MergeFlow)| && j < |rows|
    ensures var t := Gather(rows, FlowKey, FirstFlow, MergeFlow); var g := Groups(rows, FlowKey, FirstFlow, MergeFlow)[i];
      i < |t.order| && (rows[j] in Members(rows, FlowKey, t.order[i]) <==> SameFlow(g, rows[j]))
  {
    var t := Gather(rows, FlowKey, FirstFlow, MergeFlow);
    var g := Groups(rows, FlowKey, FirstFlow, MergeFlow)[i];
    var k := t.order[i];
    var ms := Members(rows, FlowKey, k);
    assert ms != [] && SameFlow(g, ms[0]) by {
      FlowGroupsExact(rows);
    }
    assert rows[j] in ms <==> FlowKey(rows[j]) == k by {
      MembersMatch(rows, FlowKey, k);
    }
    assert ms[0] in rows && FlowKey(ms[0]) == k by {
      MembersMatch(rows, FlowKey, k);
      MembersFrom(rows, FlowKey, k);
      assert ms[0] in ms;
    }
    FlowKeyExact(ms[0], rows[j]);
  }

  function FlowOne(f: FlowRow): int { 1 }
  function GroupCount(g: FlowGroup): int { g.count }
  function GroupTx(g: FlowGroup): int { g.txBytes }
  function GroupRx(g: FlowGroup): int { g.rxBytes }

  lemma {:induction false} SumOnes(rows: seq<FlowRow>)
    ensures SumOf(rows, FlowOne) == |rows|
  {
    if rows != [] { SumOnes(rows[..|rows| - 1]); }
  }

  /** A group's risk is one the scorer gave: its bucket still is the bucket of its score. */
  lemma FlowRiskScored(g: FlowGroup, ms: seq<FlowRow>)
    requires FlowSummary(g, ms) && forall i :: 0 <= i < |ms| ==> Scored(ms[i].r)
    ensures Scored(g.risk)
  {
  }

  // ----- Port usage by protocol and port ---------------------------------------------

  datatype PortGroup = PortGroup(
    protocol: string, dstPort: int, applications: seq<Candidate>,
    sampleCount: int, distinctDstIPs: int, totalBytes: int, firstSeen: int, lastSeen: int, risk: RiskResult, counts: Counts)

  function PortKey(c: Candidate): string {
    c.u.bucket.protocol + "|" + Text.Itoa(c.u.bucket.dstPort)
  }

  /** Port keys agree exactly when protocol and port do, whatever strings the protocols are. */
  lemma PortKeyExact(c: Candidate, d: Candidate)
    ensures PortKey(c) == PortKey(d)
      <==> c.u.bucket.protocol == d.u.bucket.protocol && c.u.bucket.dstPort == d.u.bucket.dstPort
  {
    if PortKey(c) == PortKey(d) {
      var m, n := c.u.bucket.dstPort, d.u.bucket.dstPort;
      assert PipeFree(Text.Itoa(m)) && PipeFree(Text.Itoa(n));
      SplitLast(c.u.bucket.protocol, Text.Itoa(m), d.u.bucket.protocol, Text.Itoa(n), '|');
      Text.ItoaInjective(m, n);
    }
  }

  function CountsOf(u: Usage): Counts {
    Counts(u.internalCount, u.outboundCount, u.inboundCount, u.externalCount)
  }

  /** A group before its first row: no risk, and that row's times. */
  function EmptyPort(c: Candidate): PortGroup {
    PortGroup(c.u.bucket.protocol, c.u.bucket.dstPort, [], 0, 0, 0, c.u.usage.firstSeen, c.u.usage.lastSeen,
              RiskResult(0, Low), Counts(0, 0, 0, 0))
  }

  function MergePort(g: PortGroup, c: Candidate): PortGroup {
    var u := c.u.usage;
    g.(applications := g.applications + [c],
       sampleCount := g.sampleCount + u.sampleCount,
       distinctDstIPs := g.distinctDstIPs + u.distinctDstIPs,
       totalBytes := g.totalBytes + u.totalBytes,
       counts := g.counts.Plus(CountsOf(u)),
       firstSeen := if u.firstSeen < g.firstSeen then u.firstSeen else g.firstSeen,
       lastSeen := if u.lastSeen > g.lastSeen then u.lastSeen else g.lastSeen,
       risk := if c.r.score > g.risk.score then c.r else g.risk)
  }

  function FirstPort(c: Candidate): PortGroup {
    MergePort(EmptyPort(c), c)
  }

  function Samples(c: Candidate): int { c.u.usage.sampleCount }
  function Sessions(s: Scope): Candidate -> int { (c: Candidate) => c.u.usage.ScopeCount(s) }
  function Bytes(c: Candidate): int { c.u.usage.totalBytes }
  function Destinations(c: Candidate): int { c.u.usage.distinctDstIPs }
  function First(c: Candidate): int { c.u.usage.firstSeen }
  function Last(c: Candidate): int { c.u.usage.lastSeen }
  function Score(c: Candidate): int { c.r.score }

  method GroupByPort(rows: seq<Candidate>) returns (groups: seq<PortGroup>, scopes: seq<View>)
    ensures groups == Groups(rows, PortKey, FirstPort, MergePort)
    ensures |scopes| == |groups| && forall i :: 0 <= i < |groups| ==> scopes[i] == DeriveScope(groups[i].counts)
  {
    var order: seq<string>, at: map<string, PortGroup> := [], map[];
    for i := 0 to |rows|
      invariant Table(order, at) == Gather(rows[..i], PortKey, FirstPort, MergePort)
    {
      assert rows[..i + 1][..i] == rows[..i];
      var u := rows[i];
      var key := PortKey(u);
      var g := EmptyPort(u);
      if key !in at {
        order := order + [key];
      } else {
        g := at[key];
      }
      var merged := AddPort(g, u);
      at := at[key := merged];
    }
    assert rows[..|rows|] == rows;
    GatherExact(rows, PortKey, FirstPort, MergePort, "");
    groups := Values(Table(order, at), order);
    scopes := seq(|groups|, i requires 0 <= i < |groups| => DeriveScope(groups[i].counts));
  }

  method AddPort(g0: PortGroup, c: Candidate) returns (g: PortGroup)
    ensures g == MergePort(g0, c)
  {
    g := g0.(applications := g0.applications + [c]);
    g := g.(sampleCount := g.sampleCount + c.u.usage.sampleCount);
    g := g.(distinctDstIPs := g.distinctDstIPs + c.u.usage.distinctDstIPs);
    g := g.(totalBytes := g.totalBytes + c.u.usage.totalBytes);
    g := g.(counts := g.counts.Plus(CountsOf(c.u.usage)));
    if c.u.usage.firstSeen < g.firstSeen { g := g.(firstSeen := c.u.usage.firstSeen); }
    if c.u.usage.lastSeen > g.lastSeen { g := g.(lastSeen := c.u.usage.lastSeen); }
    if c.r.score > g.risk.score { g := g.(risk := c.r); }
  }

  /** The least view above all members' own. */
  function JoinAll(ms: seq<Candidate>): View {
    if ms == [] then Unseen else Join(JoinAll(ms[..|ms| - 1]), DeriveScope(CountsOf(ms[|ms| - 1].u.usage)))
  }

  ghost predicate Rated(c: Candidate) {
    Scored(c.r) && CountsOf(c.u.usage).Valid()
  }

  /** What a group shows of its members. */
  ghost predicate PortSummary(g: PortGroup, ms: seq<Candidate>) {
    && ms != [] && g.protocol == ms[0].u.bucket.protocol && g.dstPort == ms[0].u.bucket.dstPort
    && g.applications == ms
    && g.sampleCount == SumOf(ms, Samples)
    && g.totalBytes == SumOf(ms, Bytes)
    && g.distinctDstIPs == SumOf(ms, Destinations)
    && (forall s :: Counter(g.counts, s) == SumOf(ms, Sessions(s)))
    && Least(g.firstSeen, ms, First)
    && Greatest(g.lastSeen, ms, Last)
  }

  /** Its risk is the highest of theirs, in that score's own bucket, and its direction is the join of theirs. */
  ghost predicate PortJudgement(g: PortGroup, ms: seq<Candidate>) {
    && Greatest(g.risk.score, ms, Score) && Scored(g.risk)
    && g.counts.Valid() && DeriveScope(g.counts) == JoinAll(ms)
  }

  lemma PortSummarySnoc(g: PortGroup, ms: seq<Candidate>, c: Candidate)
    requires PortSummary(g, ms)
    ensures PortSummary(MergePort(g, c), ms + [c])
  {
    assert (ms + [c])[..|ms|] == ms;
    LeastSnoc(g.firstSeen, ms, c, First);
    GreatestSnoc(g.lastSeen, ms, c, Last);
  }

  lemma PortJudgementSnoc(g: PortGroup, ms: seq<Candidate>, c: Candidate)
    requires PortJudgement(g, ms) && Rated(c)
    ensures PortJudgement(MergePort(g, c), ms + [c])
  {
    assert (ms + [c])[..|ms|] == ms;
    GreatestSnoc(g.risk.score, ms, c, Score);
    PlusJoins(g.counts, CountsOf(c.u.usage));
  }

  lemma FirstPortFits(c: Candidate)
    ensures PortSummary(FirstPort(c), [c])
    ensures Rated(c) ==> PortJudgement(FirstPort(c), [c])
  {
    assert [c][..0] == [] && [c][0] == c;
    PlusZero(CountsOf(c.u.usage));
  }

  lemma PlusZero(c: Counts)
    ensures Counts(0, 0, 0, 0).Plus(c) == c
  {
  }

  lemma {:induction false} PortFold(ms: seq<Candidate>)
    requires ms != []
    ensures PortSummary(Fold(ms, FirstPort, MergePort), ms)
  {
    var n := |ms| - 1;
    if n == 0 {
      assert ms == [ms[0]];
      FirstPortFits(ms[0]);
    } else {
      var init, g := ms[..n], Fold(ms[..n], FirstPort, MergePort);
      PortFold(init);
      assert PortSummary(MergePort(g, ms[n]), ms) by {
        assert ms == init + [ms[n]];
        PortSummarySnoc(g, init, ms[n]);
      }
    }
  }

  lemma {:induction false} PortFoldJudged(ms: seq<Candidate>)
    requires ms != [] && forall i :: 0 <= i < |ms| ==> Rated(ms[i])
    ensures PortJudgement(Fold(ms, FirstPort, MergePort), ms)
  {
    var n := |ms| - 1;
    if n == 0 {
      assert ms == [ms[0]];
      FirstPortFits(ms[0]);
    } else {
      var init, g := ms[..n], Fold(ms[..n], FirstPort, MergePort);
      assert forall i :: 0 <= i < n ==> init[i] == ms[i];
      PortFoldJudged(init);
      assert PortJudgement(MergePort(g, ms[n]), ms) by {
        assert ms == init + [ms[n]];
        PortJudgementSnoc(g, init, ms[n]);
      }
    }
  }

  lemma {:induction false} MembersRated(rows: seq<Candidate>, k: string)
    requires forall i :: 0 <= i < |rows| ==> Rated(rows[i])
    ensures forall i :: 0 <= i < |Members(rows, PortKey, k)| ==> Rated(Members(rows, PortKey, k)[i])
  {
    if rows != [] {
      var init := rows[..|rows| - 1];
      assert forall i :: 0 <= i < |init| ==> init[i] == rows[i];
      MembersRated(init, k);
    }
  }

  function PortCount(g: PortGroup): int { |g.applications| }
  function PortSamples(g: PortGroup): int { g.sampleCount }
  function PortBytes(g: PortGroup): int { g.totalBytes }

  /** Grouping port usage: one group per protocol and port, each the summary of exactly its buckets, nothing lost or
      counted twice. */
  lemma PortGroupsExact(rows: seq<Candidate>)
    ensures var t := Gather(rows, PortKey, FirstPort, MergePort); var gs := Groups(rows, PortKey, FirstPort, MergePort);
      && Distinct(t.order) && |gs| == |t.order|
      && (forall i :: 0 <= i < |gs| ==> PortSummary(gs[i], Members(rows, PortKey, t.order[i])))
      && SumOf(gs, PortCount) == |rows|
      && SumOf(gs, PortSamples) == SumOf(rows, Samples)
      && SumOf(gs, PortBytes) == SumOf(rows, Bytes)
  {
    var t := Gather(rows, PortKey, FirstPort, MergePort);
    GatherExact(rows, PortKey, FirstPort, MergePort, "");
    forall i | 0 <= i < |t.order| ensures PortSummary(Values(t, t.order)[i], Members(rows, PortKey, t.order[i])) {
      GatherExact(rows, PortKey, FirstPort, MergePort, t.order[i]);
      ValuesAt(t, t.order, i);
      PortFold(Members(rows, PortKey, t.order[i]));
    }
    SumKept(rows, PortKey, FirstPort, MergePort, PortOne, PortCount);
    PortOnes(rows);
    SumKept(rows, PortKey, FirstPort, MergePort, Samples, PortSamples);
    SumKept(rows, PortKey, FirstPort, MergePort, Bytes, PortBytes);
  }

  function PortOne(c: Candidate): int { 1 }

  lemma {:induction false} PortOnes(rows: seq<Candidate>)
    ensures SumOf(rows, PortOne) == |rows|
  {
    if rows != [] { PortOnes(rows[..|rows| - 1]); }
  }

  /** For scored rows every group's bucket is the bucket of its own score, its score the highest of its members', and the
      direction derived from its counters is the join of its members'. */
  lemma PortGroupsJudged(rows: seq<Candidate>, i: nat)
    requires forall j :: 0 <= j < |rows| ==> Rated(rows[j])
    requires i < |Groups(rows, PortKey, FirstPort, MergePort)|
    ensures var g := Groups(rows, PortKey, FirstPort, MergePort)[i]; PortJudgement(g, g.applications)
  {
    var t := Gather(rows, PortKey, FirstPort, MergePort);
    GatherExact(rows, PortKey, FirstPort, MergePort, "");
    var k := t.order[i];
    GatherExact(rows, PortKey, FirstPort, MergePort, k);
    ValuesAt(t, t.order, i);
    MembersRated(rows, k);
    PortFold(Members(rows, PortKey, k));
    PortFoldJudged(Members(rows, PortKey, k));
  }

  // ----- Distinct destinations of a group --------------------------------------------

  ghost function Union(ms: seq<Candidate>, ips: Candidate -> set<string>): set<string> {
    if ms == [] then {} else Union(ms[..|ms| - 1], ips) + ips(ms[|ms| - 1])
  }

  ghost predicate Apart(ms: seq<Candidate>, ips: Candidate -> set<string>) {
    ms == [] || (Apart(ms[..|ms| - 1], ips) && Union(ms[..|ms| - 1], ips) !! ips(ms[|ms| - 1]))
  }

  /** When every bucket counts its destinations exactly, the group's sum bounds the number of different destinations from
      above, and meets it exactly when no destination is shared between the group's buckets. */
  lemma {:induction false} DestinationsBound(ms: seq<Candidate>, ips: Candidate -> set<string>)
    requires forall i :: 0 <= i < |ms| ==> ms[i].u.usage.distinctDstIPs == |ips(ms[i])|
    ensures |Union(ms, ips)| <= SumOf(ms, Destinations)
    ensures |Union(ms, ips)| == SumOf(ms, Destinations) <==> Apart(ms, ips)
  {
    if ms != [] {
      var n := |ms| - 1;
      DestinationsBound(ms[..n], ips);
      var u, d := Union(ms[..n], ips), ips(ms[n]);
      assert |u + d| == |u| + |d| - |u * d|;
      if |u * d| == 0 {
        forall x | x in u ensures x !in d {
          assert x !in u * d;
        }
      }
    }
  }
}
