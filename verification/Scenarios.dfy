// Inputs within reach at which the program does not do what its documentation says.

module Scenarios {
  import opened Base
  import opened Text
  import opened Flows
  import opened Tables
  import opened Keys
  import T = Tracker
  import S = Search
  import N = Nse
  import H = History
  import R = Ruleset
  import O = Sorting
  import opened Risk
  import opened Sums
  import C = Conservation
  import F = Failures

  const ANY: S.Filter :=
    S.Filter("f", "", "", "", 0, 0, "", "", "", "", false, "", None, None, 0, 0, 0)

  /** The tables after a poller's first poll, which meets one flow. */
  function AfterOne(env: T.Env, f: Flow): Db {
    T.Run(env, T.START, [T.Load("f", 0, true), T.Observe("f", f, 0, T.ALL_CALLS)]).db
  }

  lemma OnePoll(env: T.Env, f: Flow)
    ensures AfterOne(env, f).sessions == map[1 := T.NewSession(env, "f", SessionKey(f), f, 0)]
  {
    var a, b := T.Load("f", 0, true), T.Observe("f", f, 0, T.ALL_CALLS);
    assert [a, b][..1] == [a] && [a][..0] == [];
    assert T.LoadOpen(EMPTY, "f", 0) == map[];
    var w := T.Step(env, T.START, a);
    assert T.Run(env, T.START, [a]) == w;
    assert w.db == EMPTY && w.pollers["f"].open == map[];
    assert T.Run(env, T.START, [a, b]) == T.Step(env, w, b);
    H.StartEffect(env, w, b);
  }

  /** There is such a device row as the next lemmas speak of. */
  lemma LowerCaseRow() returns (f: Flow)
    ensures N.WellFormed(f) && f.protocol == "tcp"
  {
    f := Flow("tcp", "", "", "", "", "", 0, 0, 0, 0, "", "", "", "", "", "");
    N.ListedInLowerCase();
  }

  lemma OneParsed(f: Flow) returns (raw: string)
    requires N.WellFormed(f)
    ensures N.Parse(raw) == [f]
  {
    var rows := [f];
    raw := N.Print(rows, " ");
    N.PrintParses(rows, " ");
  }

  lemma OneStored(env: T.Env, f: Flow) returns (row: Session)
    ensures AfterOne(env, f).sessions == map[1 := row] && row.fw == "f" && row.protocol == f.protocol
  {
    row := T.NewSession(env, "f", SessionKey(f), f, 0);
    OnePoll(env, f);
  }

  /** A device that writes "tcp": some output of it parses to the row, and one poll stores it as it is. */
  lemma LowerCaseStored(env: T.Env, f: Flow) returns (raw: string, row: Session)
    requires N.WellFormed(f) && f.protocol == "tcp"
    ensures N.Parse(raw) == [f] && AfterOne(env, f).sessions == map[1 := row]
    ensures row.fw == "f" && row.protocol == "tcp"
  {
    raw := OneParsed(f);
    row := OneStored(env, f);
  }

  /** A search for the protocol, however it is written, does not find such a row, while the search without it does. */
  lemma LowerCaseMissed(row: Session, protocol: string)
    requires row.fw == "f" && row.protocol == "tcp" && ToUpper(protocol) == "TCP"
    ensures S.Eval(S.Build(ANY), row) == Some(true)
    ensures S.Eval(S.Build(ANY.(protocol := protocol)), row) == Some(false)
  {
    UpperTcp(protocol);
    S.BuildMeans(ANY, row);
    S.BuildMeans(ANY.(protocol := protocol), row);
  }

  lemma UpperTcp(protocol: string)
    requires ToUpper(protocol) == "TCP"
    ensures protocol != "" && ToUpper(protocol) != "tcp"
  {
    assert "TCP"[0] != "tcp"[0];
  }

  /** Two applications on one port, one of them approved: the preview's rule for the other covers both. */
  lemma ApprovedCovered(u: Usage, x: Approval, score: R.PortUsage -> RiskResult, opts: R.Options)
    requires u.sampleCount >= R.WithDefaults(opts).minSampleCount && forall v :: score(v) == RiskResult(60, High)
    ensures var a, b := Bucket("f", "TCP", 443, "web"), Bucket("f", "TCP", 443, "doh");
      var usage := [R.PortUsage(a, u), R.PortUsage(b, u)];
      var o := R.WithDefaults(opts);
      !R.Spares(R.Rules(O.StableSort(R.Candidates(usage, ApprovedKeys(map[a := x], "f"), score, o), R.Urgency), o), a)
  {
    var a, b := Bucket("f", "TCP", 443, "web"), Bucket("f", "TCP", 443, "doh");
    var usage := [R.PortUsage(a, u), R.PortUsage(b, u)];
    var o, approved := R.WithDefaults(opts), ApprovedKeys(map[a := x], "f");
    LookupExact(map[a := x], "f", "TCP", 443, "doh");
    assert usage[1] in usage && R.Wanted(usage[1], approved, score, o) && !R.Clear(b, a);
    R.PreviewSparesIff(usage, approved, score, opts, a);
  }

  // ----- Growth counted twice --------------------------------------------------------

  /** A run so far, with its account of the firewall. */
  ghost predicate Stands(env: T.Env, events: seq<T.Event>, w: T.World, l: F.Ledger) {
    T.Run(env, T.START, events) == w && F.Books(env, events, "f") == l
  }

  lemma Then(env: T.Env, events: seq<T.Event>, w: T.World, l: F.Ledger, e: T.Event)
    requires Stands(env, events, w, l)
    ensures Stands(env, events + [e], T.Step(env, w, e), F.Book(w, e, "f", l))
  {
    var more := events + [e];
    assert more[..|more| - 1] == events;
  }

  function Firsts(f: Flow): seq<T.Event> {
    [T.Load("f", 0, true)] + [T.Observe("f", f, 0, T.ALL_CALLS)]
  }

  lemma FirstReading(env: T.Env, f: Flow) returns (w: T.World, l: F.Ledger)
    ensures Stands(env, Firsts(f), w, l) && Polling(w, SessionKey(f), T.TrackedOf(1, f, 0))
    ensures l == F.Ledger(map[1 := f.Bytes()], 0, 0, 0)
  {
    var a, b := T.Load("f", 0, true), T.Observe("f", f, 0, T.ALL_CALLS);
    Then(env, [], T.START, F.BLANK, a);
    assert [] + [a] == [a];
    w, l := T.Step(env, T.START, a), F.Book(T.START, a, "f", F.BLANK);
    assert T.LoadOpen(EMPTY, "f", 0) == map[];
    assert F.Found(EMPTY, "f", 0) == map[];
    assert w.db == EMPTY && w.pollers["f"].open == map[] && l == F.BLANK;
    Then(env, [a], w, l, b);
    F.TakenOpen(env, w, b);
    F.BookReadings(w, b, l);
    w, l := T.Step(env, w, b), F.Book(w, b, "f", l);
  }

  /** The poller tracks one session, and is not in the way of a prune. */
  predicate Polling(w: T.World, key: string, t: T.Tracked) {
    "f" in w.pollers && w.pollers["f"].clock == 0 && w.pruner.Idle? && w.pollers["f"].open == map[key := t]
  }

  /** The growth reaches the bucket, but the poller does not learn of it. */
  lemma LostReading(env: T.Env, events: seq<T.Event>, w: T.World, l: F.Ledger, f: Flow, g: Flow) returns (v: T.World, m: F.Ledger)
    requires Stands(env, events, w, l) && Polling(w, SessionKey(f), T.TrackedOf(1, f, 0))
    requires SessionKey(g) == SessionKey(f) && g.tcpState != f.tcpState && f.Bytes() < g.Bytes()
    ensures Stands(env, events + [T.Observe("f", g, 0, 2)], v, m) && Polling(v, SessionKey(f), T.TrackedOf(1, f, 0))
    ensures m == l.(excess := l.excess + g.Bytes() - f.Bytes())
  {
    var e := T.Observe("f", g, 0, 2);
    v, m := T.Step(env, w, e), F.Book(w, e, "f", l);
    Then(env, events, w, l, e);
    F.TakenOpen(env, w, e);
  }

  /** The next reading adds it once more. */
  lemma NextReading(env: T.Env, events: seq<T.Event>, w: T.World, l: F.Ledger, f: Flow, g: Flow) returns (v: T.World, m: F.Ledger)
    requires Stands(env, events, w, l) && Polling(w, SessionKey(f), T.TrackedOf(1, f, 0))
    requires SessionKey(g) == SessionKey(f) && g.tcpState != f.tcpState && f.Bytes() < g.Bytes()
    ensures Stands(env, events + [T.Observe("f", g, 0, T.ALL_CALLS)], v, m)
    ensures Polling(v, SessionKey(f), T.TrackedOf(1, g, 0)) && m == l.(readings := l.readings[1 := g.Bytes()])
  {
    var e := T.Observe("f", g, 0, T.ALL_CALLS);
    v, m := T.Step(env, w, e), F.Book(w, e, "f", l);
    Then(env, events, w, l, e);
    F.TakenOpen(env, w, e);
  }

  lemma ThreeReadings(env: T.Env, f: Flow, g: Flow) returns (events: seq<T.Event>, w: T.World, l: F.Ledger)
    requires SessionKey(g) == SessionKey(f) && g.tcpState != f.tcpState && f.Bytes() < g.Bytes()
    ensures events == Firsts(f) + [T.Observe("f", g, 0, 2)] + [T.Observe("f", g, 0, T.ALL_CALLS)]
    ensures Stands(env, events, w, l) && Polling(w, SessionKey(f), T.TrackedOf(1, g, 0))
    ensures l == F.Ledger(map[1 := g.Bytes()], 0, g.Bytes() - f.Bytes(), 0)
  {
    events := Firsts(f);
    w, l := FirstReading(env, f);
    w, l := LostReading(env, events, w, l, f, g);
    events := events + [T.Observe("f", g, 0, 2)];
    w, l := NextReading(env, events, w, l, f, g);
    events := events + [T.Observe("f", g, 0, T.ALL_CALLS)];
  }

  lemma OneReading(bytes: int)
    ensures SumBy(map[1 := bytes], F.Amount) == bytes
  {
    SumPut(map[], F.Amount, 1, bytes);
    assert map[][1 := bytes] == map[1 := bytes];
  }

  /** One sample call fails, for a session whose counter has grown by d and whose state has changed: when the counter has
      been read again the buckets hold d more than it shows. */
  lemma CountedTwice(env: T.Env, f: Flow, d: nat, state: string) returns (events: seq<T.Event>)
    requires FirstBatch(env.scan) && d > 0 && state != f.tcpState
    ensures var g := f.(tcpState := state, txBytes := f.txBytes + d); var w := T.Run(env, T.START, events);
      && events == Firsts(f) + [T.Observe("f", g, 0, 2)] + [T.Observe("f", g, 0, T.ALL_CALLS)]
      && F.Books(env, events, "f").excess == d
      && Polling(w, SessionKey(f), T.TrackedOf(1, g, 0))
      && SumBy(w.db.usage, C.BytesIn(C.OfFirewall("f"))) == g.Bytes() + d
  {
    var g := f.(tcpState := state, txBytes := f.txBytes + d);
    var w, l;
    events, w, l := ThreeReadings(env, f, g);
    OneReading(g.Bytes());
    F.BytesWithFailures(env, events, "f");
  }
}
