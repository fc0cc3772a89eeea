// The search over flow_sessions: a list of clauses with positional arguments, a count and a page.

module Search {
  import opened Base
  import opened Text
  import opened Tables
  import opened Sorting

  datatype Filter = Filter(
    fw: string, protocol: string, originSrc: string, originDst: string, srcPort: int, dstPort: int,
    direction: string, application: string, tcpState: string, hostName: string, openOnly: bool, scope: string,
    since: Option<int>, until: Option<int>, minBytes: int, limit: int, offset: int)

  // ----- Clauses and what they mean ---------------------------------------------------

  datatype Column =
    | FirewallId | Protocol | OriginSrc | OriginDst | SrcPort | DstPort | Direction | Application | TcpState | HostName
    | LastSeen | TotalBytes   // TotalBytes is the expression (tx_bytes + rx_bytes)

  datatype Op = Equals | Like | AtLeast | AtMost

  datatype Clause =
    | Compare(column: Column, op: Op)          // one placeholder
    | ClosedIsNull
    | Privacy(src: bool, dst: bool)

  datatype Value = Txt(s: string) | Num(n: int)

  function Read(row: Session, c: Column): Value {
    match c
    case FirewallId => Txt(row.fw)
    case Protocol => Txt(row.protocol)
    case OriginSrc => Txt(row.originSrc)
    case OriginDst => Txt(row.originDst)
    case SrcPort => Num(row.srcPort)
    case DstPort => Num(row.dstPort)
    case Direction => Txt(row.direction)
    case Application => Txt(row.application)
    case TcpState => Txt(row.tcpState)
    case HostName => Txt(row.hostName)
    case LastSeen => Num(row.lastSeen)
    case TotalBytes => Num(row.txBytes + row.rxBytes)
  }

  function Holes(c: Clause): nat {
    if c.Compare? then 1 else 0
  }

  function AllHoles(where: seq<Clause>): nat {
    if where == [] then 0 else AllHoles(where[..|where| - 1]) + Holes(where[|where| - 1])
  }

  predicate Compared(v: Value, op: Op, a: Value) {
    match op
    case Equals => v == a
    case Like => v.Txt? && a.Txt? && LikeMatch(a.s, v.s)
    case AtLeast => v.Num? && a.Num? && v.n >= a.n
    case AtMost => v.Num? && a.Num? && v.n <= a.n
  }

  predicate Test(c: Clause, args: seq<Value>, row: Session)
    requires |args| == Holes(c)
  {
    match c
    case Compare(column, op) => Compared(Read(row, column), op, args[0])
    case ClosedIsNull => row.closedAt == None
    case Privacy(src, dst) => row.isSrcPrivate == src && row.isDstPrivate == dst
  }

  datatype Query = Query(where: seq<Clause>, args: seq<Value>)

  /** The conjunction of the clauses, each reading its arguments off the list in order; None when arguments are
      missing or left over. */
  function Eval(q: Query, row: Session): Option<bool>
    decreases |q.where|
  {
    if q.where == [] then (if q.args == [] then Some(true) else None)
    else
      var n, c := |q.where| - 1, q.where[|q.where| - 1];
      if |q.args| < Holes(c) then None
      else
        var k := |q.args| - Holes(c);
        match Eval(Query(q.where[..n], q.args[..k]), row)
        case None => None
        case Some(b) => Some(b && Test(c, q.args[k..], row))
  }

  // ----- SQLite's LIKE ---------------------------------------------------------------

  predicate SameLetter(a: char, b: char) {
    UpperChar(a) == UpperChar(b)
  }

  /** `%` stands for any text, `_` for any one character, other characters for themselves in either ASCII case. */
  predicate LikeMatch(p: string, t: string)
    decreases |p| + |t|
  {
    if p == [] then t == []
    else if p[0] == '%' then LikeMatch(p[1..], t) || (t != [] && LikeMatch(p, t[1..]))
    else t != [] && (p[0] == '_' || SameLetter(p[0], t[0])) && LikeMatch(p[1..], t[1..])
  }

  /** One character or the two cases of one ASCII letter. */
  predicate AnyCase(a: char, b: char) {
    || a == b
    || ('a' <= a <= 'z' && b as int == a as int - 32)
    || ('a' <= b <= 'z' && a as int == b as int - 32)
  }

  lemma SameLetterIff(a: char, b: char)
    ensures SameLetter(a, b) <==> AnyCase(a, b)
  {
  }

  predicate Starts(t: string, s: string) {
    |s| <= |t| && forall i :: 0 <= i < |s| ==> AnyCase(s[i], t[i])
  }

  /** t holds s somewhere, in any case. */
  ghost predicate Contains(t: string, s: string) {
    exists k :: 0 <= k <= |t| && Starts(t[k..], s)
  }

  predicate Wildcard(c: char) {
    c == '%' || c == '_'
  }

  predicate Literal(s: string) {
    forall c :: c in s ==> !Wildcard(c)
  }

  lemma {:induction false} LikeAnything(t: string)
    ensures LikeMatch("%", t)
    decreases |t|
  {
    assert "%"[1..] == [];
    if t != [] { LikeAnything(t[1..]); }
  }

  lemma {:induction false} LikePrefix(s: string, t: string)
    requires Literal(s)
    ensures LikeMatch(s + "%", t) <==> Starts(t, s)
    decreases |s|
  {
    var p := s + "%";
    if s == [] {
      assert p == "%";
      LikeAnything(t);
    } else {
      assert p[0] == s[0] && s[0] in s && p[1..] == s[1..] + "%";
      if t != [] {
        LikePrefix(s[1..], t[1..]);
        SameLetterIff(s[0], t[0]);
        if Starts(t[1..], s[1..]) && AnyCase(s[0], t[0]) {
          forall i | 0 <= i < |s| ensures AnyCase(s[i], t[i]) {
            if i > 0 { assert s[1..][i - 1] == s[i] && t[1..][i - 1] == t[i]; }
          }
        }
      }
    }
  }

  lemma {:induction false} LikeInner(s: string, t: string)
    requires Literal(s)
    ensures LikeMatch("%" + s + "%", t) <==> Contains(t, s)
    decreases |t|
  {
    var p := "%" + s + "%";
    assert p[1..] == s + "%";
    LikePrefix(s, t);
    assert t[0..] == t;
    if t != [] {
      LikeInner(s, t[1..]);
      if Contains(t[1..], s) {
        var k :| 0 <= k <= |t| - 1 && Starts(t[1..][k..], s);
        assert t[k + 1..] == t[1..][k..];
      }
      if Contains(t, s) && !Starts(t, s) {
        var k :| 0 <= k <= |t| && Starts(t[k..], s);
        assert k > 0;
        assert t[1..][k - 1..] == t[k..];
      }
    } else if Contains(t, s) {
      var k :| 0 <= k <= |t| && Starts(t[k..], s);
    }
  }

  /** A text the pattern matches although it does not hold the filter's text: each wildcard filled with a letter. */
  function Filled(s: string): (t: string)
    ensures |t| == |s|
    ensures forall i :: 0 <= i < |s| ==> t[i] == if Wildcard(s[i]) then 'x' else s[i]
  {
    seq(|s|, i requires 0 <= i < |s| => if Wildcard(s[i]) then 'x' else s[i])
  }

  lemma {:induction false} FilledMatches(s: string)
    ensures LikeMatch(s + "%", Filled(s))
  {
    if s == [] {
      assert s + "%" == "%";
      LikeAnything(Filled(s));
    } else {
      FilledMatches(s[1..]);
      var p, t := s + "%", Filled(s);
      assert p[1..] == s[1..] + "%" && t[1..] == Filled(s[1..]);
      if s[0] == '%' {
        assert LikeMatch(p[1..], t[1..]);
        LikeSkips(p, t);
      }
    }
  }

  lemma LikeSkips(p: string, t: string)
    requires p != [] && p[0] == '%' && t != [] && LikeMatch(p[1..], t[1..])
    ensures LikeMatch(p, t)
  {
    assert LikeMatch(p, t[1..]);
  }

  /** The filter fields documented as substring matches are: LIKE finds exactly the texts that hold the field, in any
      case, if and only if the field itself holds neither % nor _. */
  lemma SubstringIff(s: string)
    ensures Literal(s) <==> forall t :: LikeMatch("%" + s + "%", t) <==> Contains(t, s)
  {
    if Literal(s) {
      forall t ensures LikeMatch("%" + s + "%", t) <==> Contains(t, s) {
        LikeInner(s, t);
      }
    } else {
      var t := Filled(s);
      FilledMatches(s);
      var p := "%" + s + "%";
      assert p[1..] == s + "%";
      assert LikeMatch(p, t);
      var c :| c in s && Wildcard(c);
      var i :| 0 <= i < |s| && s[i] == c;
      forall k | 0 <= k <= |t| ensures !Starts(t[k..], s) {
        if k == 0 {
          assert t[0..] == t && !AnyCase(s[i], t[i]);
        }
      }
      assert !Contains(t, s);
      assert !(LikeMatch("%" + s + "%", t) <==> Contains(t, s));
    }
  }

  // ----- Building the query ----------------------------------------------------------

  function Begin(f: Filter): Query {
    Query([Compare(FirewallId, Equals)], [Txt(f.fw)])
  }

  function With(q: Query, on: bool, c: Clause, args: seq<Value>): Query {
    if on then Query(q.where + [c], q.args + args) else q
  }

  function Around(s: string): Value {
    Txt("%" + s + "%")
  }

  function WithAddress(q: Query, f: Filter): Query {
    var q1 := With(q, f.protocol != "", Compare(Protocol, Equals), [Txt(ToUpper(f.protocol))]);
    var q2 := With(q1, f.originSrc != "", Compare(OriginSrc, Like), [Around(f.originSrc)]);
    With(q2, f.originDst != "", Compare(OriginDst, Like), [Around(f.originDst)])
  }

  function WithRoute(q: Query, f: Filter): Query {
    var q1 := With(q, f.srcPort != 0, Compare(SrcPort, Equals), [Num(f.srcPort)]);
    var q2 := With(q1, f.dstPort != 0, Compare(DstPort, Equals), [Num(f.dstPort)]);
    With(q2, f.direction != "", Compare(Direction, Equals), [Txt(f.direction)])
  }

  function WithText(q: Query, f: Filter): Query {
    var q1 := With(q, f.application != "", Compare(Application, Equals), [Txt(f.application)]);
    var q2 := With(q1, f.tcpState != "", Compare(TcpState, Equals), [Txt(f.tcpState)]);
    With(q2, f.hostName != "", Compare(HostName, Like), [Around(f.hostName)])
  }

  function WithTimes(q: Query, f: Filter): Query {
    var q1 := With(q, f.openOnly, ClosedIsNull, []);
    var q2 := With(q1, f.since.Some?, Compare(LastSeen, AtLeast), [Num(Unix(f.since.GetOr(0)))]);
    With(q2, f.until.Some?, Compare(LastSeen, AtMost), [Num(Unix(f.until.GetOr(0)))])
  }

  function WithBytes(q: Query, f: Filter): Query {
    With(q, f.minBytes > 0, Compare(TotalBytes, AtLeast), [Num(f.minBytes)])
  }

  function WithScope(q: Query, f: Filter): Query {
    var p := ScopeClause(f.scope);
    if p.Some? then With(q, true, p.value, []) else q
  }

  function Build(f: Filter): Query {
    WithScope(WithBytes(WithTimes(WithText(WithRoute(WithAddress(Begin(f), f), f), f), f), f), f)
  }

  function ScopeClause(scope: string): Option<Clause> {
    if scope == "internal" then Some(Privacy(true, true))
    else if scope == "outbound" then Some(Privacy(true, false))
    else if scope == "inbound" then Some(Privacy(false, true))
    else if scope == "external" then Some(Privacy(false, false))
    else None
  }

  // ----- What the query selects ------------------------------------------------------

  function ScopeName(s: Scope): string {
    match s
    case Internal => "internal"
    case Outbound => "outbound"
    case Inbound => "inbound"
    case External => "external"
  }

  predicate IsScope(s: string) {
    s == "internal" || s == "outbound" || s == "inbound" || s == "external"
  }

  predicate AddressHolds(f: Filter, row: Session) {
    && row.fw == f.fw
    && (f.protocol != "" ==> row.protocol == ToUpper(f.protocol))
    && (f.originSrc != "" ==> LikeMatch("%" + f.originSrc + "%", row.originSrc))
    && (f.originDst != "" ==> LikeMatch("%" + f.originDst + "%", row.originDst))
  }

  predicate RouteHolds(f: Filter, row: Session) {
    && (f.srcPort != 0 ==> row.srcPort == f.srcPort)
    && (f.dstPort != 0 ==> row.dstPort == f.dstPort)
    && (f.direction != "" ==> row.direction == f.direction)
  }

  predicate TextHolds(f: Filter, row: Session) {
    && (f.application != "" ==> row.application == f.application)
    && (f.tcpState != "" ==> row.tcpState == f.tcpState)
    && (f.hostName != "" ==> LikeMatch("%" + f.hostName + "%", row.hostName))
  }

  predicate TimesHold(f: Filter, row: Session) {
    && (f.openOnly ==> row.closedAt == None)
    && (f.since.Some? ==> Unix(f.since.value) <= row.lastSeen)
    && (f.until.Some? ==> row.lastSeen <= Unix(f.until.value))
  }

  predicate BytesHold(f: Filter, row: Session) {
    f.minBytes > 0 ==> f.minBytes <= row.txBytes + row.rxBytes
  }

  predicate ScopeHolds(f: Filter, row: Session) {
    IsScope(f.scope) ==> ScopeName(ClassifyScope(row.isSrcPrivate, row.isDstPrivate)) == f.scope
  }

  /** Every set field holds of the row, within the one firewall. */
  predicate Selected(f: Filter, row: Session) {
    && AddressHolds(f, row) && RouteHolds(f, row) && TextHolds(f, row) && TimesHold(f, row)
    && BytesHold(f, row) && ScopeHolds(f, row)
  }

  /** A query that means b on a row, extended, means b and the new clause. */
  lemma WithMeans(q: Query, on: bool, c: Clause, args: seq<Value>, row: Session, b: bool)
    requires Eval(q, row) == Some(b) && |args| == Holes(c)
    ensures Eval(With(q, on, c, args), row) == Some(b && (on ==> Test(c, args, row)))
  {
    if on {
      var r := With(q, on, c, args);
      assert r.where[..|q.where|] == q.where;
      assert r.args[..|q.args|] == q.args && r.args[|q.args|..] == args;
    }
  }

  lemma BeginMeans(f: Filter, row: Session)
    ensures Eval(Begin(f), row) == Some(row.fw == f.fw)
  {
    var q := Begin(f);
    assert q.where[..0] == [] && q.args[..0] == [] && q.args[0..] == q.args;
    assert Eval(Query(q.where[..0], q.args[..0]), row) == Some(true);
  }

  lemma Grow(q: Query, on: bool, c: Clause, args: seq<Value>, row: Session, b: bool, holds: bool)
    returns (r: Query, d: bool)
    requires Eval(q, row) == Some(b) && |args| == Holes(c)
    requires Test(c, args, row) <==> holds
    ensures r == With(q, on, c, args) && Eval(r, row) == Some(d) && d == (b && (on ==> holds))
  {
    WithMeans(q, on, c, args, row, b);
    r, d := With(q, on, c, args), b && (on ==> holds);
  }

  lemma GrowLike(q: Query, column: Column, s: string, row: Session, b: bool, cell: string) returns (r: Query, d: bool)
    requires Eval(q, row) == Some(b) && Read(row, column) == Txt(cell)
    ensures r == With(q, s != "", Compare(column, Like), [Around(s)])
    ensures Eval(r, row) == Some(d) && d == (b && (s != "" ==> LikeMatch("%" + s + "%", cell)))
  {
    r, d := Grow(q, s != "", Compare(column, Like), [Around(s)], row, b, LikeMatch("%" + s + "%", cell));
  }

  lemma AddressMeans(q0: Query, f: Filter, row: Session)
    requires Eval(q0, row) == Some(row.fw == f.fw)
    ensures Eval(WithAddress(q0, f), row) == Some(AddressHolds(f, row))
  {
    var q, b := Grow(q0, f.protocol != "", Compare(Protocol, Equals), [Txt(ToUpper(f.protocol))], row, row.fw == f.fw,
                     row.protocol == ToUpper(f.protocol));
    q, b := GrowLike(q, OriginSrc, f.originSrc, row, b, row.originSrc);
    q, b := GrowLike(q, OriginDst, f.originDst, row, b, row.originDst);
  }

  lemma RouteMeans(q0: Query, f: Filter, row: Session, before: bool)
    requires Eval(q0, row) == Some(before)
    ensures Eval(WithRoute(q0, f), row) == Some(before && RouteHolds(f, row))
  {
    var q, b := Grow(q0, f.srcPort != 0, Compare(SrcPort, Equals), [Num(f.srcPort)], row, before, row.srcPort == f.srcPort);
    q, b := Grow(q, f.dstPort != 0, Compare(DstPort, Equals), [Num(f.dstPort)], row, b, row.dstPort == f.dstPort);
    q, b := Grow(q, f.direction != "", Compare(Direction, Equals), [Txt(f.direction)], row, b, row.direction == f.direction);
  }

  lemma TextMeans(q0: Query, f: Filter, row: Session, before: bool)
    requires Eval(q0, row) == Some(before)
    ensures Eval(WithText(q0, f), row) == Some(before && TextHolds(f, row))
  {
    var q, b := Grow(q0, f.application != "", Compare(Application, Equals), [Txt(f.application)], row, before,
                     row.application == f.application);
    q, b := Grow(q, f.tcpState != "", Compare(TcpState, Equals), [Txt(f.tcpState)], row, b, row.tcpState == f.tcpState);
    q, b := GrowLike(q, HostName, f.hostName, row, b, row.hostName);
  }

  lemma TimesMeans(q0: Query, f: Filter, row: Session, before: bool)
    requires Eval(q0, row) == Some(before)
    ensures Eval(WithTimes(q0, f), row) == Some(before && TimesHold(f, row))
  {
    var since, until := Unix(f.since.GetOr(0)), Unix(f.until.GetOr(0));
    var q, b := Grow(q0, f.openOnly, ClosedIsNull, [], row, before, row.closedAt == None);
    q, b := Grow(q, f.since.Some?, Compare(LastSeen, AtLeast), [Num(since)], row, b, since <= row.lastSeen);
    q, b := Grow(q, f.until.Some?, Compare(LastSeen, AtMost), [Num(until)], row, b, row.lastSeen <= until);
  }

  lemma EndMeans(q0: Query, f: Filter, row: Session, before: bool)
    requires Eval(q0, row) == Some(before)
    ensures Eval(WithScope(WithBytes(q0, f), f), row) == Some(before && BytesHold(f, row) && ScopeHolds(f, row))
  {
    var q, b := Grow(q0, f.minBytes > 0, Compare(TotalBytes, AtLeast), [Num(f.minBytes)], row, before,
                     f.minBytes <= row.txBytes + row.rxBytes);
    var p := ScopeClause(f.scope);
    if p.Some? {
      WithMeans(q, true, p.value, [], row, b);
      ScopeMeans(f.scope, row);
    }
  }

  /** Compiling a filter preserves its meaning: read with its positional arguments the clause list uses up every argument
      and selects exactly the rows on which all set fields hold, the scope one meaning what ClassifyScope says. */
  lemma BuildMeans(f: Filter, row: Session)
    ensures Eval(Build(f), row) == Some(Selected(f, row))
  {
    BeginMeans(f, row);
    AddressMeans(Begin(f), f, row);
    RestMeans(WithAddress(Begin(f), f), f, row, AddressHolds(f, row));
  }

  lemma RestMeans(q: Query, f: Filter, row: Session, a: bool)
    requires Eval(q, row) == Some(a)
    ensures Eval(WithScope(WithBytes(WithTimes(WithText(WithRoute(q, f), f), f), f), f), row)
         == Some(a && RouteHolds(f, row) && TextHolds(f, row) && TimesHold(f, row) && BytesHold(f, row) && ScopeHolds(f, row))
  {
    var b := a && RouteHolds(f, row);
    var c := b && TextHolds(f, row);
    var d := c && TimesHold(f, row);
    RouteMeans(q, f, row, a);
    TextMeans(WithRoute(q, f), f, row, b);
    TimesMeans(WithText(WithRoute(q, f), f), f, row, c);
    EndMeans(WithTimes(WithText(WithRoute(q, f), f), f), f, row, d);
  }

  /** The four scope clauses split the rows as ClassifyScope does. */
  lemma ScopeMeans(scope: string, row: Session)
    ensures ScopeClause(scope).Some? <==> IsScope(scope)
    ensures IsScope(scope) ==>
      (Test(ScopeClause(scope).value, [], row) <==> ScopeName(ClassifyScope(row.isSrcPrivate, row.isDstPrivate)) == scope)
  {
  }

  /** Stored protocols keep the device's case while the filter is upper-cased: a row whose protocol equals the filter in
      some case is found exactly when the row's protocol is in upper case. */
  lemma ProtocolFoundIff(f: Filter, row: Session)
    requires f.protocol != "" && ToUpper(row.protocol) == ToUpper(f.protocol)
    requires Selected(f.(protocol := ""), row)
    ensures Eval(Build(f), row) == Some(true) <==> row.protocol == ToUpper(row.protocol)
  {
    BuildMeans(f, row);
  }

  // ----- The SQL text ----------------------------------------------------------------

  function Sql(c: Clause): string {
    match c
    case Compare(column, op) => ColumnSql(column) + OpSql(op) + "?"
    case ClosedIsNull => "closed_at IS NULL"
    case Privacy(src, dst) => "is_src_private = " + Bit(src) + " AND is_dst_private = " + Bit(dst)
  }

  function Bit(b: bool): string {
    if b then "1" else "0"
  }

  function OpSql(op: Op): string {
    match op
    case Equals => " = "
    case Like => " LIKE "
    case AtLeast => " >= "
    case AtMost => " <= "
  }

  function ColumnSql(c: Column): string {
    match c
    case FirewallId => "firewall_id"
    case Protocol => "protocol"
    case OriginSrc => "origin_src"
    case OriginDst => "origin_dst"
    case SrcPort => "src_port"
    case DstPort => "dst_port"
    case Direction => "direction"
    case Application => "application"
    case TcpState => "tcp_state"
    case HostName => "host_name"
    case LastSeen => "last_seen"
    case TotalBytes => "(tx_bytes + rx_bytes)"
  }

  function WhereSql(where: seq<Clause>): string {
    if where == [] then ""
    else if |where| == 1 then Sql(where[0])
    else WhereSql(where[..|where| - 1]) + " AND " + Sql(where[|where| - 1])
  }

  lemma SqlHoles(c: Clause)
    ensures Count(Sql(c), '?') == Holes(c)
  {
    if c.Compare? {
      NoHole(c.column, c.op);
      CompareHoles(ColumnSql(c.column), OpSql(c.op));
    } else {
      NoHoles(c);
    }
  }

  lemma NoHoles(c: Clause)
    requires !c.Compare?
    ensures Count(Sql(c), '?') == 0
  {
    var text := Sql(c);
    assert '?' !in text;
    CountZero(text, '?');
  }

  lemma CompareHoles(column: string, op: string)
    requires '?' !in column && '?' !in op
    ensures Count(column + op + "?", '?') == 1
  {
    CountZero(column + op, '?');
    CountConcat(column + op, "?", '?');
    OneHole();
  }

  lemma OneHole()
    ensures Count("?", '?') == 1
  {
    assert "?"[1..] == "";
  }

  lemma NoHole(column: Column, op: Op)
    ensures '?' !in ColumnSql(column) && '?' !in OpSql(op)
  {
  }

  lemma {:induction false} WhereHoles(where: seq<Clause>)
    ensures Count(WhereSql(where), '?') == AllHoles(where)
  {
    if |where| == 1 {
      SqlHoles(where[0]);
      assert where[..0] == [];
    } else if |where| > 1 {
      var init, c := where[..|where| - 1], where[|where| - 1];
      WhereHoles(init);
      SqlHoles(c);
      CountConcat(WhereSql(init), " AND ", '?');
      CountZero(" AND ", '?');
      CountConcat(WhereSql(init) + " AND ", Sql(c), '?');
    }
  }

  lemma {:induction false} EvalUsesAll(q: Query, row: Session)
    requires Eval(q, row).Some?
    ensures |q.args| == AllHoles(q.where)
    decreases |q.where|
  {
    if q.where != [] {
      var n, c := |q.where| - 1, q.where[|q.where| - 1];
      EvalUsesAll(Query(q.where[..n], q.args[..|q.args| - Holes(c)]), row);
    }
  }

  /** The statement's text holds exactly one question mark per argument. */
  lemma PlaceholdersMatch(f: Filter)
    ensures Count(WhereSql(Build(f).where), '?') == |Build(f).args|
  {
    var row := Session("", "", "", "", "", 0, 0, "", 0, "", "", "", "", 0, 0, 0, 0, 0, false, false, 0, 0, 0, None);
    BuildMeans(f, row);
    EvalUsesAll(Build(f), row);
    WhereHoles(Build(f).where);
  }

  // ----- Count and page --------------------------------------------------------------

  /** The rows a query selects, in table order. */
  function Select(table: seq<Session>, q: Query): seq<Session> {
    if table == [] then []
    else
      var rest := Select(table[..|table| - 1], q);
      var row := table[|table| - 1];
      if Eval(q, row) == Some(true) then rest + [row] else rest
  }

  function Recency(row: Session): Key {
    Key(row.lastSeen, 0)
  }

  function Limit(f: Filter): (n: int)
    ensures if 1 <= f.limit <= 1000 then n == f.limit else n == 200
  {
    if f.limit <= 0 || f.limit > 1000 then 200 else f.limit
  }

  function Page(rows: seq<Session>, offset: int, limit: nat): seq<Session> {
    var from := Min(Max(offset, 0), |rows|);
    rows[from..Min(from + limit, |rows|)]
  }

  /** Both statements of a search share one query; ties of recency come in table order. */
  method SearchSessions(table: seq<Session>, f: Filter) returns (page: seq<Session>, total: nat)
    ensures total == |Select(table, Build(f))|
    ensures page == Page(StableSort(Select(table, Build(f)), Recency), f.offset, Limit(f))
  {
    var where: seq<Clause>, args: seq<Value> := [], [];
    where := where + [Compare(FirewallId, Equals)];
    args := args + [Txt(f.fw)];
    assert Query(where, args) == Begin(f);
    where, args := AddText(f, where, args);
    where, args := AddState(f, where, args);
    total := CountRows(table, Query(where, args));
    var limit := f.limit;
    if limit <= 0 || limit > 1000 {
      limit := 200;
    }
    page := FetchPage(table, Query(where, args), f.offset, limit);
  }

  method AddText(f: Filter, where0: seq<Clause>, args0: seq<Value>) returns (where: seq<Clause>, args: seq<Value>)
    ensures Query(where, args) == WithText(WithRoute(WithAddress(Query(where0, args0), f), f), f)
  {
    where, args := where0, args0;
    if f.protocol != "" {
      where := where + [Compare(Protocol, Equals)];
      args := args + [Txt(ToUpper(f.protocol))];
    }
    if f.originSrc != "" {
      where := where + [Compare(OriginSrc, Like)];
      args := args + [Txt("%" + f.originSrc + "%")];
    }
    if f.originDst != "" {
      where := where + [Compare(OriginDst, Like)];
      args := args + [Txt("%" + f.originDst + "%")];
    }
    if f.srcPort != 0 {
      where := where + [Compare(SrcPort, Equals)];
      args := args + [Num(f.srcPort)];
    }
    if f.dstPort != 0 {
      where := where + [Compare(DstPort, Equals)];
      args := args + [Num(f.dstPort)];
    }
    if f.direction != "" {
      where := where + [Compare(Direction, Equals)];
      args := args + [Txt(f.direction)];
    }
    if f.application != "" {
      where := where + [Compare(Application, Equals)];
      args := args + [Txt(f.application)];
    }
    if f.tcpState != "" {
      where := where + [Compare(TcpState, Equals)];
      args := args + [Txt(f.tcpState)];
    }
    if f.hostName != "" {
      where := where + [Compare(HostName, Like)];
      args := args + [Txt("%" + f.hostName + "%")];
    }
  }

  method AddState(f: Filter, where0: seq<Clause>, args0: seq<Value>) returns (where: seq<Clause>, args: seq<Value>)
    ensures Query(where, args) == WithScope(WithBytes(WithTimes(Query(where0, args0), f), f), f)
  {
    where, args := where0, args0;
    if f.openOnly {
      where := where + [ClosedIsNull];
    }
    assert args + [] == args;
    if f.since.Some? {
      where := where + [Compare(LastSeen, AtLeast)];
      args := args + [Num(Unix(f.since.value))];
    }
    if f.until.Some? {
      where := where + [Compare(LastSeen, AtMost)];
      args := args + [Num(Unix(f.until.value))];
    }
    if f.minBytes > 0 {
      where := where + [Compare(TotalBytes, AtLeast)];
      args := args + [Num(f.minBytes)];
    }
    assert args + [] == args;
    if f.scope == "internal" {
      where := where + [Privacy(true, true)];
    } else if f.scope == "outbound" {
      where := where + [Privacy(true, false)];
    } else if f.scope == "inbound" {
      where := where + [Privacy(false, true)];
    } else if f.scope == "external" {
      where := where + [Privacy(false, false)];
    }
  }

  method CountRows(table: seq<Session>, q: Query) returns (n: nat)
    ensures n == |Select(table, q)|
  {
    n := 0;
    for i := 0 to |table|
      invariant n == |Select(table[..i], q)|
    {
      assert table[..i + 1][..i] == table[..i];
      if Eval(q, table[i]) == Some(true) {
        n := n + 1;
      }
    }
    assert table[..|table|] == table;
  }

  method FetchPage(table: seq<Session>, q: Query, offset: int, limit: nat) returns (out: seq<Session>)
    ensures out == Page(StableSort(Select(table, q), Recency), offset, limit)
  {
    var rows := Page(StableSort(Select(table, q), Recency), offset, limit);
    out := [];
    for i := 0 to |rows|
      invariant out == rows[..i]
    {
      out := out + [rows[i]];
    }
  }

  lemma {:induction false} SelectMembers(table: seq<Session>, q: Query)
    ensures forall row :: row in Select(table, q) <==> row in table && Eval(q, row) == Some(true)
  {
    if table != [] {
      assert table == table[..|table| - 1] + [table[|table| - 1]];
      SelectMembers(table[..|table| - 1], q);
    }
  }

  /** What a search returns: only rows of the one firewall that meet the filter, newest first, with the total counting
      all of them. */
  lemma SearchIsSound(table: seq<Session>, f: Filter)
    ensures var all := StableSort(Select(table, Build(f)), Recency);
      && |all| == |Select(table, Build(f))|
      && (forall row :: row in all <==> row in table && Selected(f, row))
      && (forall i, j :: 0 <= i < j < |all| ==> all[i].lastSeen >= all[j].lastSeen)
  {
    var found := Select(table, Build(f));
    var all := StableSort(found, Recency);
    StableSortSorts(found, Recency);
    SelectMembers(table, Build(f));
    assert |multiset(all)| == |all| && |multiset(found)| == |found|;
    forall row ensures row in all <==> row in table && Selected(f, row) {
      BuildMeans(f, row);
      assert row in all <==> row in multiset(all);
      assert row in found <==> row in multiset(found);
    }
    forall i, j | 0 <= i < j < |all| ensures all[i].lastSeen >= all[j].lastSeen {
      assert !Before(Recency(all[j]), Recency(all[i]));
    }
  }

  function Pages(rows: seq<Session>, limit: nat, n: nat): seq<Session> {
    if n == 0 then [] else Pages(rows, limit, n - 1) + Page(rows, (n - 1) * limit, limit)
  }

  lemma PageNext(rows: seq<Session>, limit: nat, from: nat)
    ensures rows[..Min(from, |rows|)] + Page(rows, from, limit) == rows[..Min(from + limit, |rows|)]
  {
  }

  /** Walking the pages one limit at a time meets every match exactly once, in order. */
  lemma {:induction false} PagesCover(rows: seq<Session>, limit: nat, n: nat)
    ensures Pages(rows, limit, n) == rows[..Min(n * limit, |rows|)]
  {
    if n > 0 {
      var from := (n - 1) * limit;
      assert n * limit == from + limit;
      PagesCover(rows, limit, n - 1);
      PageNext(rows, limit, from);
    }
  }
}
