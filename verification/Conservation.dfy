// The permanent rollup against the full history: bytes, session counts, scopes and destinations.

module Conservation {
  import opened Base
  import opened Sums
  import opened Text
  import opened Flows
  import opened Tables
  import opened TableFacts
  import opened Tracker
  import opened Effects
  import opened History
  import opened Chronicle

  // ----- Bytes -----------------------------------------------------------------------

  /** The bytes of every bucket a predicate selects. */
  function BytesIn(p: Bucket -> bool): (Bucket, Usage) -> int {
    (b: Bucket, u: Usage) => if p(b) then u.totalBytes else 0
  }

  /** What one history adds to the buckets a predicate selects: its first reading and every later growth,
      each to the bucket the flow was tagged with at that moment. */
  function Contribution(fw: string, obs: seq<Obs>, p: Bucket -> bool): int {
    if obs == [] then 0
    else
      var init, o := obs[..|obs| - 1], Last(obs);
      var added := if init == [] then Reading(o) else Max(Reading(o) - Reading(Last(init)), 0);
      var b := Bucket(fw, o.flow.protocol, ParseInt(o.flow.dstPort), o.flow.application);
      Contribution(fw, init, p) + (if p(b) then added else 0)
  }

  function ContribIn(p: Bucket -> bool): (int, Trace) -> int {
    (id: int, t: Trace) => Contribution(t.fw, t.obs, p)
  }

  lemma BumpBytes(db: Db, b: Bucket, ip: string, at: int, d: int, isNew: bool, scope: Scope, p: Bucket -> bool)
    ensures SumBy(Bump(db, b, ip, at, d, isNew, scope).usage, BytesIn(p))
         == SumBy(db.usage, BytesIn(p)) + (if p(b) then d else 0)
  {
    var after := Bump(db, b, ip, at, d, isNew, scope);
    assert after.usage == db.usage[b := after.usage[b]];
    assert after.usage[b].totalBytes == (if b in db.usage then db.usage[b].totalBytes else 0) + d;
    SumPut(db.usage, BytesIn(p), b, after.usage[b]);
  }

  /** What one observation adds to its bucket, given how many store calls succeed. */
  function Added(w: World, e: Event): int
    requires e.Observe? && e.fw in w.pollers
  {
    var open, key := w.pollers[e.fw].open, SessionKey(e.flow);
    if key in open then (if e.calls >= 2 then Delta(open[key].Bytes(), e.flow.Bytes()) else 0)
    else if e.calls >= 3 then e.flow.Bytes() else 0
  }

  lemma ObserveBytes(env: Env, w: World, e: Event, p: Bucket -> bool)
    requires Enabled(w, e) && e.Observe?
    ensures SumBy(Step(env, w, e).db.usage, BytesIn(p))
         == SumBy(w.db.usage, BytesIn(p)) + (if p(BucketOf(e.fw, e.flow)) then Added(w, e) else 0)
  {
    var open, key, b, scope := w.pollers[e.fw].open, SessionKey(e.flow), BucketOf(e.fw, e.flow), ScopeOf(env, e.flow);
    assert Step(env, w, e).db.usage == BumpedBy(env, w, e).usage by { ObserveRollup(env, w, e); }
    if key in open {
      var delta := Delta(open[key].Bytes(), e.flow.Bytes());
      BumpBytes(w.db, b, e.flow.originDst, e.now, delta, false, scope, p);
    } else {
      var bytes := e.flow.Bytes();
      BumpBytes(w.db, b, e.flow.originDst, e.now, bytes, true, scope, p);
    }
  }

  ghost predicate Balanced(w: World, p: Bucket -> bool) {
    SumBy(w.db.usage, BytesIn(p)) == SumBy(w.hist, ContribIn(p))
  }

  lemma NewContribution(t: Trace, o: Obs, p: Bucket -> bool)
    requires t.obs == [o]
    ensures Contribution(t.fw, t.obs, p) == if p(BucketOf(t.fw, o.flow)) then o.flow.Bytes() else 0
  {
    assert t.obs[..0] == [];
  }

  lemma StartBalanced(env: Env, w: World, e: Event, p: Bucket -> bool)
    requires Recorded(w) && Balanced(w, p) && Enabled(w, e) && e.Clean() && e.Observe?
    requires SessionKey(e.flow) !in w.pollers[e.fw].open
    ensures Balanced(Step(env, w, e), p)
  {
    var o := Obs(e.flow, e.now, Some(Start));
    var t := Trace(e.fw, SessionKey(e.flow), [o], None);
    assert Step(env, w, e).hist == w.hist[w.db.lastId + 1 := t] by { StartEffect(env, w, e); }
    SumPut(w.hist, ContribIn(p), w.db.lastId + 1, t);
    NewContribution(t, o, p);
    ObserveBytes(env, w, e, p);
  }

  /** The history a clean observation of a tracked session extends. */
  lemma Extended(env: Env, w: World, e: Event) returns (id: int, o: Obs)
    requires Cached(w) && Recorded(w) && Enabled(w, e) && e.Clean() && e.Observe?
    requires SessionKey(e.flow) in w.pollers[e.fw].open
    ensures id in w.hist && w.hist[id].fw == e.fw && w.hist[id].obs != [] && o.flow == e.flow
    ensures Step(env, w, e).hist == w.hist[id := w.hist[id].(obs := w.hist[id].obs + [o])]
    ensures w.pollers[e.fw].open[SessionKey(e.flow)].Bytes() == Last(w.hist[id].obs).flow.Bytes()
  {
    var k := w.pollers[e.fw].open[SessionKey(e.flow)];
    id, o := k.id, Obs(e.flow, e.now, LogEvent(k, e.flow, e.now));
    assert CacheEntry(w.db, e.fw, SessionKey(e.flow), k);
    assert RowOk(w.db.sessions[id], w.hist[id]);
    ContinueEffect(env, w, e);
  }

  lemma MoreContribution(fw: string, obs: seq<Obs>, o: Obs, p: Bucket -> bool)
    requires obs != []
    ensures Contribution(fw, obs + [o], p) == Contribution(fw, obs, p)
         + (if p(BucketOf(fw, o.flow)) then Delta(Last(obs).flow.Bytes(), o.flow.Bytes()) else 0)
  {
    LastOfAppend(obs, o);
  }

  lemma ContinueBalanced(env: Env, w: World, e: Event, p: Bucket -> bool)
    requires Cached(w) && Recorded(w) && Balanced(w, p) && Enabled(w, e) && e.Clean() && e.Observe?
    requires SessionKey(e.flow) in w.pollers[e.fw].open
    ensures Balanced(Step(env, w, e), p)
  {
    var id, o := Extended(env, w, e);
    var t := w.hist[id];
    SumPut(w.hist, ContribIn(p), id, t.(obs := t.obs + [o]));
    MoreContribution(t.fw, t.obs, o, p);
    ObserveBytes(env, w, e, p);
  }

  lemma StepBalanced(env: Env, w: World, e: Event, p: Bucket -> bool)
    requires Cached(w) && Recorded(w) && Balanced(w, p) && e.Clean()
    ensures Balanced(Step(env, w, e), p)
  {
    if Enabled(w, e) {
      if e.Observe? {
        if SessionKey(e.flow) in w.pollers[e.fw].open { ContinueBalanced(env, w, e, p); } else { StartBalanced(env, w, e, p); }
      } else if e.Close? {
        var v := Step(env, w, e);
        SumSame(w.hist, ContribIn(p), v.hist, ContribIn(p));
      }
    }
  }

  /** For any set of buckets and any clean run, restarts, prunes and tag changes included: their bytes are
      exactly what the histories contributed to them. With a single bucket this is the per-bucket law. */
  lemma {:induction false} BytesExact(env: Env, events: seq<Event>, p: Bucket -> bool)
    requires FirstBatch(env.scan) && Clean(events)
    ensures Balanced(Run(env, START, events), p)
  {
    if events != [] {
      var n := |events| - 1;
      BytesExact(env, events[..n], p);
      StartFaithful(env);
      RunFaithful(env, START, events[..n]);
      StepBalanced(env, Run(env, START, events[..n]), events[n], p);
    }
  }

  // ----- The firewall-wide law -------------------------------------------------------

  function OfFirewall(fw: string): Bucket -> bool {
    (b: Bucket) => b.fw == fw
  }

  /** The sum of all backward steps of a session's counter. */
  function Backward(obs: seq<Obs>): nat {
    if |obs| <= 1 then 0
    else Backward(obs[..|obs| - 1]) + Max(Reading(Last(obs[..|obs| - 1])) - Reading(Last(obs)), 0)
  }

  ghost predicate NeverFell(obs: seq<Obs>) {
    forall i, j :: 0 <= i && j == i + 1 && j < |obs| ==> Reading(obs[i]) <= Reading(obs[j])
  }

  lemma {:induction false} BackwardZero(obs: seq<Obs>)
    ensures Backward(obs) == 0 <==> NeverFell(obs)
  {
    if |obs| > 1 {
      var init := obs[..|obs| - 1];
      BackwardZero(init);
      assert forall i :: 0 <= i < |init| ==> init[i] == obs[i];
      assert Last(init) == obs[|obs| - 2];
    }
  }

  /** The growth a session contributed telescopes to its last reading plus what its counter lost on the way. */
  lemma {:induction false} Telescope(fw: string, obs: seq<Obs>, g: string)
    requires obs != []
    ensures Contribution(fw, obs, OfFirewall(g)) == if fw == g then Reading(Last(obs)) + Backward(obs) else 0
  {
    if |obs| == 1 {
      assert Contribution(fw, obs[..0], OfFirewall(g)) == 0;
    } else {
      Telescope(fw, obs[..|obs| - 1], g);
    }
  }

  function LastAndLost(fw: string): (int, Trace) -> int {
    (id: int, t: Trace) => if t.fw == fw && t.obs != [] then Reading(Last(t.obs)) + Backward(t.obs) else 0
  }

  function LastOnly(fw: string): (int, Trace) -> int {
    (id: int, t: Trace) => if t.fw == fw && t.obs != [] then Reading(Last(t.obs)) else 0
  }

  /** Byte conservation: over any clean run the bytes of a firewall's buckets are the last readings of every session
      it ever had plus all backward counter steps; never less than the last readings, and equal to them exactly when
      no counter ever fell. */
  lemma ByteConservation(env: Env, events: seq<Event>, fw: string)
    requires FirstBatch(env.scan) && Clean(events)
    ensures var w := Run(env, START, events);
      var total := SumBy(w.db.usage, BytesIn(OfFirewall(fw)));
      && total == SumBy(w.hist, LastAndLost(fw))
      && SumBy(w.hist, LastOnly(fw)) <= total
      && (total == SumBy(w.hist, LastOnly(fw))
          <==> forall id :: id in w.hist && w.hist[id].fw == fw ==> NeverFell(w.hist[id].obs))
  {
    BytesExact(env, events, OfFirewall(fw));
    StartFaithful(env);
    RunFaithful(env, START, events);
    Totals(Run(env, START, events).hist, fw);
  }

  /** The same law on the histories alone. */
  lemma Totals(hist: map<int, Trace>, fw: string)
    requires forall id :: id in hist ==> TraceOk(hist[id])
    ensures SumBy(hist, ContribIn(OfFirewall(fw))) == SumBy(hist, LastAndLost(fw))
    ensures SumBy(hist, LastOnly(fw)) <= SumBy(hist, LastAndLost(fw))
    ensures SumBy(hist, LastAndLost(fw)) == SumBy(hist, LastOnly(fw))
      <==> forall id :: id in hist && hist[id].fw == fw ==> NeverFell(hist[id].obs)
  {
    forall id | id in hist
      ensures ContribIn(OfFirewall(fw))(id, hist[id]) == LastAndLost(fw)(id, hist[id])
      ensures LastOnly(fw)(id, hist[id]) <= LastAndLost(fw)(id, hist[id])
      ensures LastOnly(fw)(id, hist[id]) == LastAndLost(fw)(id, hist[id])
         <==> (hist[id].fw == fw ==> NeverFell(hist[id].obs))
    {
      assert TraceOk(hist[id]);
      Telescope(hist[id].fw, hist[id].obs, fw);
      BackwardZero(hist[id].obs);
    }
    SumSame(hist, ContribIn(OfFirewall(fw)), hist, LastAndLost(fw));
    SumAtMost(hist, LastOnly(fw), LastAndLost(fw));
    if SumBy(hist, LastAndLost(fw)) == SumBy(hist, LastOnly(fw)) {
      forall id | id in hist && hist[id].fw == fw ensures NeverFell(hist[id].obs) {
        assert LastOnly(fw)(id, hist[id]) == LastAndLost(fw)(id, hist[id]);
      }
    }
    if forall id :: id in hist && hist[id].fw == fw ==> NeverFell(hist[id].obs) {
      forall id | id in hist ensures LastOnly(fw)(id, hist[id]) == LastAndLost(fw)(id, hist[id]) { }
    }
  }

  // ----- Session counts and scopes ---------------------------------------------------

  /** Traffic of this kind, by whether source and destination are private. */
  predicate Runs(s: Scope, src: bool, dst: bool) {
    match s
    case Internal => src && dst
    case Outbound => src && !dst
    case Inbound => !src && dst
    case External => !src && !dst
  }

  /** The session's first flow falls into this bucket, column by column, and is of this kind. */
  predicate Started(env: Env, t: Trace, b: Bucket, s: Scope) {
    t.obs != [] &&
    var f := t.obs[0].flow;
    && b.fw == t.fw && b.protocol == f.protocol && b.dstPort == ParseInt(f.dstPort) && b.application == f.application
    && Runs(s, env.isPrivate(f.originSrc), env.isPrivate(f.originDst))
  }

  function StartedIn(env: Env, b: Bucket, s: Scope): (int, Trace) -> int {
    (id: int, t: Trace) => if Started(env, t, b, s) then 1 else 0
  }

  function ScopeTotal(usage: map<Bucket, Usage>, b: Bucket, s: Scope): int {
    if b in usage then usage[b].ScopeCount(s) else 0
  }

  lemma BumpCounts(db: Db, b: Bucket, ip: string, at: int, d: int, isNew: bool, scope: Scope, c: Bucket, s: Scope)
    ensures ScopeTotal(Bump(db, b, ip, at, d, isNew, scope).usage, c, s)
         == ScopeTotal(db.usage, c, s) + (if isNew && c == b && s == scope then 1 else 0)
  {
  }

  ghost predicate Counts(env: Env, w: World, b: Bucket, s: Scope) {
    ScopeTotal(w.db.usage, b, s) == SumBy(w.hist, StartedIn(env, b, s))
  }

  /** A session counts once, when it starts. */
  lemma ObserveCounts(env: Env, w: World, e: Event, b: Bucket, s: Scope)
    requires Enabled(w, e) && e.Clean() && e.Observe?
    ensures var starts := SessionKey(e.flow) !in w.pollers[e.fw].open && BucketOf(e.fw, e.flow) == b && ScopeOf(env, e.flow) == s;
      ScopeTotal(Step(env, w, e).db.usage, b, s) == ScopeTotal(w.db.usage, b, s) + (if starts then 1 else 0)
  {
    var open, key, c, scope := w.pollers[e.fw].open, SessionKey(e.flow), BucketOf(e.fw, e.flow), ScopeOf(env, e.flow);
    assert Step(env, w, e).db.usage == BumpedBy(env, w, e).usage by { ObserveRollup(env, w, e); }
    if key in open {
      var delta := Delta(open[key].Bytes(), e.flow.Bytes());
      BumpCounts(w.db, c, e.flow.originDst, e.now, delta, false, scope, b, s);
    } else {
      var bytes := e.flow.Bytes();
      BumpCounts(w.db, c, e.flow.originDst, e.now, bytes, true, scope, b, s);
    }
  }

  lemma ContinueCounts(env: Env, w: World, e: Event, b: Bucket, s: Scope)
    requires Cached(w) && Recorded(w) && Counts(env, w, b, s) && Enabled(w, e) && e.Clean() && e.Observe?
    requires SessionKey(e.flow) in w.pollers[e.fw].open
    ensures Counts(env, Step(env, w, e), b, s)
  {
    var id, o := Extended(env, w, e);
    var u := w.hist[id].(obs := w.hist[id].obs + [o]);
    assert u.obs[0] == w.hist[id].obs[0];
    SumPut(w.hist, StartedIn(env, b, s), id, u);
    ObserveCounts(env, w, e, b, s);
  }

  lemma StartCounts(env: Env, w: World, e: Event, b: Bucket, s: Scope)
    requires Recorded(w) && Counts(env, w, b, s) && Enabled(w, e) && e.Clean() && e.Observe?
    requires SessionKey(e.flow) !in w.pollers[e.fw].open
    ensures Counts(env, Step(env, w, e), b, s)
  {
    var t := Trace(e.fw, SessionKey(e.flow), [Obs(e.flow, e.now, Some(Start))], None);
    assert Step(env, w, e).hist == w.hist[w.db.lastId + 1 := t] by { StartEffect(env, w, e); }
    SumPut(w.hist, StartedIn(env, b, s), w.db.lastId + 1, t);
    ObserveCounts(env, w, e, b, s);
  }

  lemma StepCounts(env: Env, w: World, e: Event, b: Bucket, s: Scope)
    requires Cached(w) && Recorded(w) && Counts(env, w, b, s) && e.Clean()
    ensures Counts(env, Step(env, w, e), b, s)
  {
    if Enabled(w, e) {
      if e.Observe? {
        if SessionKey(e.flow) in w.pollers[e.fw].open { ContinueCounts(env, w, e, b, s); } else { StartCounts(env, w, e, b, s); }
      } else if e.Close? {
        SumSame(w.hist, StartedIn(env, b, s), Step(env, w, e).hist, StartedIn(env, b, s));
      }
    }
  }

  /** Each scope counter of each bucket is exactly the number of sessions, pruned ones included, that started
      in that bucket with that scope. */
  lemma {:induction false} ScopeCountsExact(env: Env, events: seq<Event>, b: Bucket, s: Scope)
    requires FirstBatch(env.scan) && Clean(events)
    ensures Counts(env, Run(env, START, events), b, s)
  {
    if events != [] {
      var n := |events| - 1;
      ScopeCountsExact(env, events[..n], b, s);
      StartFaithful(env);
      RunFaithful(env, START, events[..n]);
      StepCounts(env, Run(env, START, events[..n]), events[n], b, s);
    }
  }

  // ----- Laws of the tables alone, failing store calls included -----------------------

  function DstOf(dst: map<DstKey, int>, b: Bucket): set<DstKey> {
    set d | d in dst && d.bucket == b
  }

  /** A bucket's own arithmetic: sessions are the sum of the scopes, destinations are counted once each, and no
      destination is recorded without its bucket. */
  ghost predicate Tallied(db: Db) {
    RollupTallies(db.usage, db.dst)
  }

  ghost predicate RollupTallies(usage: map<Bucket, Usage>, dst: map<DstKey, int>) {
    && (forall b :: b in usage ==> BucketTallied(usage, dst, b))
    && (forall d :: d in dst ==> d.bucket in usage)
  }

  predicate BucketTallied(usage: map<Bucket, Usage>, dst: map<DstKey, int>, b: Bucket)
    requires b in usage
  {
    var u := usage[b];
    && u.sampleCount == u.internalCount + u.outboundCount + u.inboundCount + u.externalCount
    && u.distinctDstIPs == |DstOf(dst, b)|
  }

  lemma BumpTallied(db: Db, b: Bucket, ip: string, at: int, delta: int, isNew: bool, scope: Scope)
    requires Tallied(db)
    ensures Tallied(Bump(db, b, ip, at, delta, isNew, scope))
  {
    var after := Bump(db, b, ip, at, delta, isNew, scope);
    forall c | c in after.usage ensures BucketTallied(after.usage, after.dst, c) {
      if c == b {
        BumpedBucket(db, b, ip, at, delta, isNew, scope);
      } else {
        assert BucketTallied(db.usage, db.dst, c);
        assert DstOf(after.dst, c) == DstOf(db.dst, c);
      }
    }
  }

  /** One destination more, if it is new. */
  lemma DstGrows(dst: map<DstKey, int>, b: Bucket, ip: string, at: int)
    ensures DstKey(b, ip) !in dst ==> |DstOf(dst[DstKey(b, ip) := at], b)| == |DstOf(dst, b)| + 1
  {
    var d := DstKey(b, ip);
    assert DstOf(dst[d := at], b) == DstOf(dst, b) + {d};
  }

  lemma BumpedBucket(db: Db, b: Bucket, ip: string, at: int, delta: int, isNew: bool, scope: Scope)
    requires Tallied(db)
    ensures var after := Bump(db, b, ip, at, delta, isNew, scope); BucketTallied(after.usage, after.dst, b)
  {
    DstGrows(db.dst, b, ip, Unix(at));
    if b in db.usage { assert BucketTallied(db.usage, db.dst, b); } else { assert DstOf(db.dst, b) == {}; }
  }

  lemma StepTallied(env: Env, w: World, e: Event)
    requires Tallied(w.db)
    ensures Tallied(Step(env, w, e).db)
  {
    if Enabled(w, e) && e.Observe? {
      var open, key, b, scope := w.pollers[e.fw].open, SessionKey(e.flow), BucketOf(e.fw, e.flow), ScopeOf(env, e.flow);
      ObserveRollup(env, w, e);
      if key in open {
        var delta := Delta(open[key].Bytes(), e.flow.Bytes());
        BumpTallied(w.db, b, e.flow.originDst, e.now, delta, false, scope);
      } else {
        var bytes := e.flow.Bytes();
        BumpTallied(w.db, b, e.flow.originDst, e.now, bytes, true, scope);
      }
    } else {
      assert SameRollup(Step(env, w, e).db, w.db);
    }
  }

  /** From an empty database, whatever fails on the way: in every bucket the session count is the sum of the four
      scope counters and the destination count is the number of recorded destinations. */
  lemma {:induction false} RollupTallied(env: Env, events: seq<Event>)
    ensures Tallied(Run(env, START, events).db)
  {
    if events != [] {
      var n := |events| - 1;
      RollupTallied(env, events[..n]);
      StepTallied(env, Run(env, START, events[..n]), events[n]);
    }
  }

  // ----- Destinations against history ------------------------------------------------

  /** Some observation of some session, whether or not its rows still exist, went to this destination. */
  ghost predicate Reached(hist: map<int, Trace>, d: DstKey) {
    exists id :: id in hist && Visits(hist[id], d)
  }

  function Visited(t: Trace): set<DstKey> {
    set o | o in t.obs ::
      DstKey(Bucket(t.fw, o.flow.protocol, ParseInt(o.flow.dstPort), o.flow.application), o.flow.originDst)
  }

  predicate Visits(t: Trace, d: DstKey) {
    d in Visited(t)
  }

  lemma VisitedAppend(t: Trace, o: Obs)
    ensures Visited(t.(obs := t.obs + [o])) == Visited(t) + {DstKey(BucketOf(t.fw, o.flow), o.flow.originDst)}
  {
  }

  /** One history gains one destination. */
  lemma ReachedPut(hist: map<int, Trace>, id: int, t: Trace, gained: DstKey, d: DstKey)
    requires Visited(t) == (if id in hist then Visited(hist[id]) else {}) + {gained}
    ensures Reached(hist[id := t], d) <==> Reached(hist, d) || d == gained
  {
    var h := hist[id := t];
    if Reached(hist, d) {
      var j :| j in hist && Visits(hist[j], d);
      assert j in h && Visits(h[j], d);
    }
    if d == gained { assert id in h && Visits(h[id], d); }
    if Reached(h, d) && d != gained {
      var j :| j in h && Visits(h[j], d);
      assert j in hist && Visits(hist[j], d);
    }
  }

  lemma ObserveDst(env: Env, w: World, e: Event, d: DstKey)
    requires Enabled(w, e) && e.Clean() && e.Observe?
    ensures d in Step(env, w, e).db.dst <==> d in w.db.dst || d == DstKey(BucketOf(e.fw, e.flow), e.flow.originDst)
  {
    ObserveRollup(env, w, e);
  }

  lemma ObserveReached(env: Env, w: World, e: Event, d: DstKey)
    requires Cached(w) && Recorded(w) && Enabled(w, e) && e.Clean() && e.Observe?
    ensures Reached(Step(env, w, e).hist, d) <==> Reached(w.hist, d) || d == DstKey(BucketOf(e.fw, e.flow), e.flow.originDst)
  {
    var gained := DstKey(BucketOf(e.fw, e.flow), e.flow.originDst);
    if SessionKey(e.flow) in w.pollers[e.fw].open {
      var id, o := Extended(env, w, e);
      VisitedAppend(w.hist[id], o);
      ReachedPut(w.hist, id, w.hist[id].(obs := w.hist[id].obs + [o]), gained, d);
    } else {
      var o := Obs(e.flow, e.now, Some(Start));
      var t := Trace(e.fw, SessionKey(e.flow), [o], None);
      assert Step(env, w, e).hist == w.hist[w.db.lastId + 1 := t] by { StartEffect(env, w, e); }
      VisitedAppend(t.(obs := []), o);
      assert [] + [o] == [o];
      ReachedPut(w.hist, w.db.lastId + 1, t, gained, d);
    }
  }

  lemma CloseReached(env: Env, w: World, e: Event, d: DstKey)
    requires Enabled(w, e) && e.Close?
    ensures Reached(Step(env, w, e).hist, d) <==> Reached(w.hist, d)
  {
    var v := Step(env, w, e);
    forall j | j in w.hist ensures j in v.hist && (Visits(v.hist[j], d) <==> Visits(w.hist[j], d)) {
      assert v.hist[j].obs == w.hist[j].obs && v.hist[j].fw == w.hist[j].fw;
    }
  }

  lemma StepReached(env: Env, w: World, e: Event, d: DstKey)
    requires Cached(w) && Recorded(w) && e.Clean() && (d in w.db.dst <==> Reached(w.hist, d))
    ensures d in Step(env, w, e).db.dst <==> Reached(Step(env, w, e).hist, d)
  {
    if Enabled(w, e) {
      if e.Observe? {
        ObserveDst(env, w, e, d);
        ObserveReached(env, w, e, d);
      }
      else if e.Close? { CloseReached(env, w, e, d); }
    }
  }

  /** The destinations recorded for a bucket are exactly those its traffic ever went to. */
  lemma {:induction false} DestinationsExact(env: Env, events: seq<Event>, d: DstKey)
    requires FirstBatch(env.scan) && Clean(events)
    ensures var w := Run(env, START, events); d in w.db.dst <==> Reached(w.hist, d)
  {
    if events != [] {
      var n := |events| - 1;
      DestinationsExact(env, events[..n], d);
      StartFaithful(env);
      RunFaithful(env, START, events[..n]);
      StepReached(env, Run(env, START, events[..n]), events[n], d);
    }
  }

  // ----- Event rows against the rollup -------------------------------------------------

  /** The event row's own columns name a bucket and a destination the rollup has. */
  predicate Filed(db: Db, s: Sample) {
    var b := Bucket(s.fw, s.protocol, s.dstPort, s.application);
    b in db.usage && DstKey(b, s.originDst) in db.dst
  }

  ghost predicate AllFiled(db: Db) {
    forall s :: s in db.samples ==> Filed(db, s)
  }

  /** A clean observation writes one event row at most, and it shows the flow. */
  lemma FlowSamples(env: Env, fw: string, st: PollState, f: Flow, key: string, now: int, calls: nat)
    requires calls >= ALL_CALLS
    ensures var v := ApplyFlow(env, fw, st, f, key, now, calls);
      v.db.samples == st.db.samples
      || exists id, kind :: v.db.samples == st.db.samples + [SampleOf(id, fw, kind, now, f)]
  {
    if key in st.open {
      var t := st.open[key];
      var log, kind := LogRow(fw, t, f, now), LogEvent(t, f, now);
      assert log.Some? ==> log.value == SampleOf(t.id, fw, kind.value, now, f);
    } else {
      assert StartFlow(env, fw, st, f, key, now, calls).db.samples
          == st.db.samples + [SampleOf(st.db.lastId + 1, fw, Start, now, f)];
    }
  }

  lemma BumpFiles(a: Db, b: Bucket, ip: string, at: int, d: int, isNew: bool, scope: Scope)
    ensures var v := Bump(a, b, ip, at, d, isNew, scope);
      a.usage.Keys + {b} == v.usage.Keys && a.dst.Keys + {DstKey(b, ip)} == v.dst.Keys
  {
  }

  lemma MoreFiled(a: Db, v: Db, s: Sample)
    requires AllFiled(a) && (v.samples == a.samples || v.samples == a.samples + [s])
    requires a.usage.Keys <= v.usage.Keys && a.dst.Keys <= v.dst.Keys && Filed(v, s)
    ensures AllFiled(v)
  {
    forall x | x in v.samples ensures Filed(v, x) {
      if x in a.samples { assert Filed(a, x); }
    }
  }

  lemma ObserveFiled(env: Env, w: World, e: Event)
    requires AllFiled(w.db) && Enabled(w, e) && e.Clean() && e.Observe?
    ensures AllFiled(Step(env, w, e).db)
  {
    var key, f, v := SessionKey(e.flow), e.flow, Step(env, w, e);
    var b, scope := BucketOf(e.fw, f), ScopeOf(env, f);
    FlowSamples(env, e.fw, View(w, e.fw), f, key, e.now, e.calls);
    var id, kind := 0, Start;
    if v.db.samples != w.db.samples {
      id, kind :| v.db.samples == w.db.samples + [SampleOf(id, e.fw, kind, e.now, f)];
    }
    assert SameRollup(v.db, BumpedBy(env, w, e)) by { ObserveRollup(env, w, e); }
    var open := w.pollers[e.fw].open;
    if key in open {
      BumpFiles(w.db, b, f.originDst, e.now, Delta(open[key].Bytes(), f.Bytes()), false, scope);
    } else {
      BumpFiles(w.db, b, f.originDst, e.now, f.Bytes(), true, scope);
    }
    MoreFiled(w.db, v.db, SampleOf(id, e.fw, kind, e.now, f));
  }

  lemma FewerFiled(a: Db, v: Db)
    requires AllFiled(a) && v.usage == a.usage && v.dst == a.dst && forall s :: s in v.samples ==> s in a.samples
    ensures AllFiled(v)
  {
  }

  lemma StepFiled(env: Env, w: World, e: Event)
    requires AllFiled(w.db) && e.Clean()
    ensures AllFiled(Step(env, w, e).db)
  {
    if Enabled(w, e) {
      if e.Observe? {
        ObserveFiled(env, w, e);
      } else {
        if e.PruneSamples? { DropMembers(w.db.samples, env.scan(Eligible(w.db, w.pruner.cut))); }
        FewerFiled(w.db, Step(env, w, e).db);
      }
    }
  }

  /** Over any clean run every event row belongs to a bucket of the rollup by its own protocol, port and application, and
      its destination is recorded there. */
  lemma {:induction false} SamplesFiled(env: Env, events: seq<Event>)
    requires Clean(events)
    ensures AllFiled(Run(env, START, events).db)
  {
    if events != [] {
      var n := |events| - 1;
      SamplesFiled(env, events[..n]);
      StepFiled(env, Run(env, START, events[..n]), events[n]);
    }
  }
}
