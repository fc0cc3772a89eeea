// When a bucket was first and last seen, against the full history.

module Times {
  import opened Base
  import opened Text
  import opened Flows
  import opened Tables
  import opened Tracker
  import opened Effects
  import opened History
  import opened Chronicle

  /** Observation i of a session counted into this bucket. */
  predicate Sees(t: Trace, i: int, b: Bucket) {
    0 <= i < |t.obs| &&
    var f := t.obs[i].flow;
    b.fw == t.fw && b.protocol == f.protocol && b.dstPort == ParseInt(f.dstPort) && b.application == f.application
  }

  ghost predicate SeenAt(hist: map<int, Trace>, b: Bucket, at: int) {
    exists id, i :: id in hist && Sees(hist[id], i, b) && Unix(hist[id].obs[i].at) == at
  }

  /** First and last seen are the times of the first and the last observation counted into the bucket, which was updated
      then. */
  ghost predicate BucketTimes(hist: map<int, Trace>, b: Bucket, u: Usage) {
    && SeenAt(hist, b, u.firstSeen) && SeenAt(hist, b, u.lastSeen) && u.updatedAt == u.lastSeen
    && forall id, i :: id in hist && Sees(hist[id], i, b) ==> u.firstSeen <= Unix(hist[id].obs[i].at) <= u.lastSeen
  }

  ghost predicate Timed(usage: map<Bucket, Usage>, hist: map<int, Trace>) {
    && (forall b :: b in usage ==> BucketTimes(hist, b, usage[b]))
    && (forall id, i, b :: id in hist && Sees(hist[id], i, b) ==> b in usage)
  }

  /** A bump moves the times of its one bucket only. */
  ghost predicate Touched(before: map<Bucket, Usage>, after: map<Bucket, Usage>, b: Bucket, at: int) {
    && after.Keys == before.Keys + {b}
    && (forall c :: c in before && c != b ==> after[c] == before[c])
    && after[b].lastSeen == after[b].updatedAt == Unix(at)
    && after[b].firstSeen == (if b in before then before[b].firstSeen else Unix(at))
  }

  lemma BumpTouches(db: Db, b: Bucket, ip: string, at: int, delta: int, isNew: bool, scope: Scope)
    ensures Touched(db.usage, Bump(db, b, ip, at, delta, isNew, scope).usage, b, at)
  {
  }

  lemma UsageEffect(env: Env, w: World, e: Event)
    requires Enabled(w, e) && e.Clean() && e.Observe?
    ensures Touched(w.db.usage, Step(env, w, e).db.usage, BucketOf(e.fw, e.flow), e.now)
  {
    var open, key, b, scope := w.pollers[e.fw].open, SessionKey(e.flow), BucketOf(e.fw, e.flow), ScopeOf(env, e.flow);
    assert Step(env, w, e).db.usage == BumpedBy(env, w, e).usage by { ObserveRollup(env, w, e); }
    if key in open {
      var delta := Delta(open[key].Bytes(), e.flow.Bytes());
      BumpTouches(w.db, b, e.flow.originDst, e.now, delta, false, scope);
    } else {
      var bytes := e.flow.Bytes();
      BumpTouches(w.db, b, e.flow.originDst, e.now, bytes, true, scope);
    }
  }

  lemma {:induction false} Earlier(obs: seq<Obs>, i: nat)
    requires HistoryOk(obs) && i < |obs|
    ensures obs[i].at <= Last(obs).at
  {
    if i < |obs| - 1 {
      assert Follows(Last(obs[..|obs| - 1]), Last(obs));
      Earlier(obs[..|obs| - 1], i);
    }
  }

  lemma SeenBefore(w: World, id: int, i: int, b: Bucket, now: int)
    requires Recorded(w) && id in w.hist && Sees(w.hist[id], i, b) && b.fw in w.pollers && w.pollers[b.fw].clock <= now
    ensures Unix(w.hist[id].obs[i].at) <= Unix(now)
  {
    assert TraceOk(w.hist[id]) && OnClock(w.pollers, w.hist[id]);
    Earlier(w.hist[id].obs, i);
    UnixMonotone(w.hist[id].obs[i].at, now);
  }

  /** One history grows by an observation at `now`, later than all that went before it in its bucket. */
  lemma TimesPut(hist: map<int, Trace>, id: int, t: Trace, b: Bucket, c: Bucket, u: Usage, v: Usage, now: int)
    requires t.obs != [] && BucketOf(t.fw, Last(t.obs).flow) == b && Last(t.obs).at == now
    requires if id in hist then t.fw == hist[id].fw && t.obs[..|t.obs| - 1] == hist[id].obs else |t.obs| == 1
    requires c != b ==> BucketTimes(hist, c, u) && v == u
    requires c == b ==> v.lastSeen == v.updatedAt == Unix(now)
    requires c == b && SeenAt(hist, b, v.firstSeen) ==>
      forall j, i :: j in hist && Sees(hist[j], i, b) ==> v.firstSeen <= Unix(hist[j].obs[i].at) <= Unix(now)
    requires c == b && !SeenAt(hist, b, v.firstSeen) ==>
      v.firstSeen == Unix(now) && forall j, i :: j in hist ==> !Sees(hist[j], i, b)
    ensures BucketTimes(hist[id := t], c, v)
  {
    var after, k := hist[id := t], |t.obs| - 1;
    forall at | SeenAt(hist, c, at) ensures SeenAt(after, c, at) {
      var j, i :| j in hist && Sees(hist[j], i, c) && Unix(hist[j].obs[i].at) == at;
      if j == id { assert t.obs[..k][i] == t.obs[i]; }
      assert j in after && Sees(after[j], i, c);
    }
    if c == b {
      assert id in after && Sees(after[id], k, b);
      if SeenAt(hist, b, v.firstSeen) {
        var j, i :| j in hist && Sees(hist[j], i, b) && Unix(hist[j].obs[i].at) == v.firstSeen;
      }
    }
    forall j, i | j in after && Sees(after[j], i, c) ensures v.firstSeen <= Unix(after[j].obs[i].at) <= v.lastSeen {
      if j != id || i < k {
        if j == id { assert t.obs[..k][i] == t.obs[i]; }
        assert j in hist && Sees(hist[j], i, c);
      } else {
        assert c == b;
      }
    }
  }

  /** t is the history of one session with one observation more, or of a new one. */
  ghost predicate Grown(hist: map<int, Trace>, id: int, t: Trace) {
    && t.obs != []
    && if id in hist then t.fw == hist[id].fw && t.obs[..|t.obs| - 1] == hist[id].obs else |t.obs| == 1
  }

  lemma TouchedTimes(w: World, usage: map<Bucket, Usage>, id: int, t: Trace, b: Bucket, now: int, c: Bucket)
    requires Recorded(w) && Timed(w.db.usage, w.hist) && Touched(w.db.usage, usage, b, now)
    requires b.fw in w.pollers && w.pollers[b.fw].clock <= now
    requires Grown(w.hist, id, t) && BucketOf(t.fw, Last(t.obs).flow) == b && Last(t.obs).at == now
    requires c in usage
    ensures BucketTimes(w.hist[id := t], c, usage[c])
  {
    forall j, i | j in w.hist && Sees(w.hist[j], i, b) ensures Unix(w.hist[j].obs[i].at) <= Unix(now) {
      SeenBefore(w, j, i, b, now);
    }
    if c in w.db.usage {
      assert BucketTimes(w.hist, c, w.db.usage[c]);
      TimesPut(w.hist, id, t, b, c, w.db.usage[c], usage[c], now);
    } else {
      TimesPut(w.hist, id, t, b, c, usage[c], usage[c], now);
    }
  }

  lemma TouchedBuckets(before: map<Bucket, Usage>, usage: map<Bucket, Usage>, hist: map<int, Trace>, id: int, t: Trace,
                       b: Bucket, now: int, after: map<int, Trace>)
    requires Timed(before, hist) && after == hist[id := t] && Touched(before, usage, b, now)
    requires Grown(hist, id, t) && BucketOf(t.fw, Last(t.obs).flow) == b
    ensures forall j, i, c :: j in after && Sees(after[j], i, c) ==> c in usage
  {
    forall j, i, c | j in after && Sees(after[j], i, c) ensures c in usage {
      if j == id && i == |t.obs| - 1 {
        assert c == b;
      } else {
        if j == id { assert t.obs[..|t.obs| - 1][i] == t.obs[i]; }
        assert Sees(hist[j], i, c);
      }
    }
  }

  lemma TouchedTimed(w: World, usage: map<Bucket, Usage>, id: int, t: Trace, b: Bucket, now: int)
    requires Recorded(w) && Timed(w.db.usage, w.hist) && Touched(w.db.usage, usage, b, now)
    requires b.fw in w.pollers && w.pollers[b.fw].clock <= now
    requires Grown(w.hist, id, t) && BucketOf(t.fw, Last(t.obs).flow) == b && Last(t.obs).at == now
    ensures Timed(usage, w.hist[id := t])
  {
    TouchedBuckets(w.db.usage, usage, w.hist, id, t, b, now, w.hist[id := t]);
    forall c | c in usage ensures BucketTimes(w.hist[id := t], c, usage[c]) {
      TouchedTimes(w, usage, id, t, b, now, c);
    }
  }

  lemma ObserveTimed(env: Env, w: World, e: Event, id: int, t: Trace)
    requires Recorded(w) && Timed(w.db.usage, w.hist) && Enabled(w, e) && e.Clean() && e.Observe?
    requires Grown(w.hist, id, t) && t.fw == e.fw && Last(t.obs).flow == e.flow && Last(t.obs).at == e.now
    ensures Timed(Step(env, w, e).db.usage, w.hist[id := t])
  {
    UsageEffect(env, w, e);
    TouchedTimed(w, Step(env, w, e).db.usage, id, t, BucketOf(e.fw, e.flow), e.now);
  }

  lemma SameTimed(usage: map<Bucket, Usage>, hist: map<int, Trace>, after: map<int, Trace>)
    requires Timed(usage, hist) && after.Keys == hist.Keys
    requires forall id :: id in hist ==> after[id].fw == hist[id].fw && after[id].obs == hist[id].obs
    ensures Timed(usage, after)
  {
    forall b | b in usage ensures BucketTimes(after, b, usage[b]) {
      assert BucketTimes(hist, b, usage[b]);
      forall at | SeenAt(hist, b, at) ensures SeenAt(after, b, at) {
        var j, i :| j in hist && Sees(hist[j], i, b) && Unix(hist[j].obs[i].at) == at;
        assert j in after && Sees(after[j], i, b);
      }
      forall j, i | j in after && Sees(after[j], i, b)
        ensures usage[b].firstSeen <= Unix(after[j].obs[i].at) <= usage[b].lastSeen {
        assert j in hist && Sees(hist[j], i, b);
      }
    }
    forall j, i, b | j in after && Sees(after[j], i, b) ensures b in usage {
      assert j in hist && Sees(hist[j], i, b);
    }
  }

  /** The history one clean observation leaves. */
  lemma OneMore(env: Env, w: World, e: Event) returns (id: int, t: Trace)
    requires Cached(w) && Recorded(w) && Enabled(w, e) && e.Clean() && e.Observe?
    ensures Step(env, w, e).hist == w.hist[id := t] && Grown(w.hist, id, t)
    ensures t.fw == e.fw && Last(t.obs).flow == e.flow && Last(t.obs).at == e.now
  {
    if SessionKey(e.flow) in w.pollers[e.fw].open {
      var k := w.pollers[e.fw].open[SessionKey(e.flow)];
      assert CacheEntry(w.db, e.fw, SessionKey(e.flow), k);
      assert RowOk(w.db.sessions[k.id], w.hist[k.id]);
      var o := Obs(e.flow, e.now, LogEvent(k, e.flow, e.now));
      id, t := k.id, w.hist[k.id].(obs := w.hist[k.id].obs + [o]);
      ContinueEffect(env, w, e);
      LastOfAppend(w.hist[k.id].obs, o);
    } else {
      id, t := w.db.lastId + 1, Trace(e.fw, SessionKey(e.flow), [Obs(e.flow, e.now, Some(Start))], None);
      StartEffect(env, w, e);
    }
  }

  lemma StepTimed(env: Env, w: World, e: Event)
    requires Cached(w) && Recorded(w) && Timed(w.db.usage, w.hist) && Enabled(w, e) && e.Clean()
    ensures Timed(Step(env, w, e).db.usage, Step(env, w, e).hist)
  {
    if e.Observe? {
      var id, t := OneMore(env, w, e);
      ObserveTimed(env, w, e, id, t);
    } else {
      SameTimed(w.db.usage, w.hist, Step(env, w, e).hist);
    }
  }

  /** Over any clean run, with any number of firewalls, restarts and prunes: a bucket exists exactly when some observation was
      counted into it, and its first and last seen are the times of the first and the last of them, although an upsert
      only ever sees its own time. */
  lemma {:induction false} TimesExact(env: Env, events: seq<Event>)
    requires FirstBatch(env.scan) && Clean(events)
    ensures var w := Run(env, START, events); Timed(w.db.usage, w.hist)
  {
    if events != [] {
      var n := |events| - 1;
      TimesExact(env, events[..n]);
      var w, e := Run(env, START, events[..n]), events[n];
      assert Cached(w) && Recorded(w) by {
        StartFaithful(env);
        RunFaithful(env, START, events[..n]);
      }
      if Enabled(w, e) { StepTimed(env, w, e); }
    }
  }

  // ----- When a destination was first seen ---------------------------------------------

  /** Observation i of a session went to this destination of this bucket. */
  predicate Went(t: Trace, i: int, d: DstKey) {
    Sees(t, i, d.bucket) && t.obs[i].flow.originDst == d.ip
  }

  ghost predicate WentAt(hist: map<int, Trace>, d: DstKey, at: int) {
    exists id, i :: id in hist && Went(hist[id], i, d) && Unix(hist[id].obs[i].at) == at
  }

  /** This is the time of the first observation that went there. */
  ghost predicate FirstWent(hist: map<int, Trace>, d: DstKey, at: int) {
    WentAt(hist, d, at) && forall id, i :: id in hist && Went(hist[id], i, d) ==> at <= Unix(hist[id].obs[i].at)
  }

  ghost predicate DstTimed(dst: map<DstKey, int>, hist: map<int, Trace>) {
    && (forall d :: d in dst ==> FirstWent(hist, d, dst[d]))
    && (forall id, i, d :: id in hist && Went(hist[id], i, d) ==> d in dst)
  }

  lemma OldWent(hist: map<int, Trace>, id: int, t: Trace, d: DstKey, at: int)
    requires Grown(hist, id, t) && FirstWent(hist, d, at)
    requires Went(t, |t.obs| - 1, d) ==> at <= Unix(Last(t.obs).at)
    ensures FirstWent(hist[id := t], d, at)
  {
    var after, k := hist[id := t], |t.obs| - 1;
    var j, i :| j in hist && Went(hist[j], i, d) && Unix(hist[j].obs[i].at) == at;
    if j == id { assert t.obs[..k][i] == t.obs[i]; }
    assert j in after && Went(after[j], i, d);
    forall j, i | j in after && Went(after[j], i, d) ensures at <= Unix(after[j].obs[i].at) {
      if j != id || i < k {
        if j == id { assert t.obs[..k][i] == t.obs[i]; }
        assert j in hist && Went(hist[j], i, d);
      }
    }
  }

  lemma EarlierWent(hist: map<int, Trace>, id: int, t: Trace, i: int, d: DstKey)
    requires Grown(hist, id, t) && 0 <= i < |t.obs| - 1
    ensures id in hist && (Went(t, i, d) <==> Went(hist[id], i, d))
  {
    assert t.obs[..|t.obs| - 1][i] == t.obs[i];
  }

  lemma NewWent(hist: map<int, Trace>, id: int, t: Trace, d: DstKey)
    requires Grown(hist, id, t) && Went(t, |t.obs| - 1, d) && forall j, i :: j in hist ==> !Went(hist[j], i, d)
    ensures FirstWent(hist[id := t], d, Unix(Last(t.obs).at))
  {
    var after, k := hist[id := t], |t.obs| - 1;
    assert id in after && Went(after[id], k, d);
    forall j, i | j in after && Went(after[j], i, d) ensures j == id && i == k {
      if j == id && i < k { EarlierWent(hist, id, t, i, d); }
    }
  }

  /** One observation more, and its destination recorded unless it was there. */
  lemma DstTimedPut(w: World, id: int, t: Trace, d: DstKey, now: int)
    requires Recorded(w) && DstTimed(w.db.dst, w.hist) && Grown(w.hist, id, t) && Last(t.obs).at == now
    requires var f := Last(t.obs).flow;
      d == DstKey(Bucket(t.fw, f.protocol, ParseInt(f.dstPort), f.application), f.originDst)
    requires d.bucket.fw in w.pollers && w.pollers[d.bucket.fw].clock <= now
    ensures DstTimed(if d in w.db.dst then w.db.dst else w.db.dst[d := Unix(now)], w.hist[id := t])
  {
    var after := if d in w.db.dst then w.db.dst else w.db.dst[d := Unix(now)];
    forall c | c in after ensures FirstWent(w.hist[id := t], c, after[c]) {
      if c in w.db.dst {
        var j, i :| j in w.hist && Went(w.hist[j], i, c) && Unix(w.hist[j].obs[i].at) == w.db.dst[c];
        if c == d { SeenBefore(w, j, i, d.bucket, now); }
        OldWent(w.hist, id, t, c, w.db.dst[c]);
      } else {
        NewWent(w.hist, id, t, d);
      }
    }
    var hist := w.hist[id := t];
    forall j, i, c | j in hist && Went(hist[j], i, c) ensures c in after {
      if j != id || i < |t.obs| - 1 {
        if j == id { assert t.obs[..|t.obs| - 1][i] == t.obs[i]; }
        assert Went(w.hist[j], i, c);
      }
    }
  }

  lemma DstEffect(env: Env, w: World, e: Event)
    requires Enabled(w, e) && e.Clean() && e.Observe?
    ensures var d := DstKey(BucketOf(e.fw, e.flow), e.flow.originDst);
      Step(env, w, e).db.dst == if d in w.db.dst then w.db.dst else w.db.dst[d := Unix(e.now)]
  {
    assert Step(env, w, e).db.dst == BumpedBy(env, w, e).dst by { ObserveRollup(env, w, e); }
  }

  lemma ObserveDstTimed(env: Env, w: World, e: Event, id: int, t: Trace)
    requires Recorded(w) && DstTimed(w.db.dst, w.hist) && Enabled(w, e) && e.Clean() && e.Observe?
    requires Grown(w.hist, id, t) && t.fw == e.fw && Last(t.obs).flow == e.flow && Last(t.obs).at == e.now
    ensures DstTimed(Step(env, w, e).db.dst, w.hist[id := t])
  {
    DstEffect(env, w, e);
    DstTimedPut(w, id, t, DstKey(BucketOf(e.fw, e.flow), e.flow.originDst), e.now);
  }

  lemma SameDstTimed(dst: map<DstKey, int>, hist: map<int, Trace>, after: map<int, Trace>)
    requires DstTimed(dst, hist) && after.Keys == hist.Keys
    requires forall id :: id in hist ==> after[id].fw == hist[id].fw && after[id].obs == hist[id].obs
    ensures DstTimed(dst, after)
  {
    forall d | d in dst ensures FirstWent(after, d, dst[d]) {
      var j, i :| j in hist && Went(hist[j], i, d) && Unix(hist[j].obs[i].at) == dst[d];
      assert j in after && Went(after[j], i, d);
      forall j, i | j in after && Went(after[j], i, d) ensures dst[d] <= Unix(after[j].obs[i].at) {
        assert j in hist && Went(hist[j], i, d);
      }
    }
    forall j, i, d | j in after && Went(after[j], i, d) ensures d in dst {
      assert j in hist && Went(hist[j], i, d);
    }
  }

  lemma StepDstTimed(env: Env, w: World, e: Event)
    requires Cached(w) && Recorded(w) && DstTimed(w.db.dst, w.hist) && Enabled(w, e) && e.Clean()
    ensures DstTimed(Step(env, w, e).db.dst, Step(env, w, e).hist)
  {
    if e.Observe? {
      var id, t := OneMore(env, w, e);
      ObserveDstTimed(env, w, e, id, t);
    } else {
      SameDstTimed(w.db.dst, w.hist, Step(env, w, e).hist);
    }
  }

  /** Over any clean run a destination recorded for a bucket carries the time of the first observation that went there. */
  lemma {:induction false} DestinationTimes(env: Env, events: seq<Event>)
    requires FirstBatch(env.scan) && Clean(events)
    ensures var w := Run(env, START, events); DstTimed(w.db.dst, w.hist)
  {
    if events != [] {
      var n := |events| - 1;
      DestinationTimes(env, events[..n]);
      var w, e := Run(env, START, events[..n]), events[n];
      assert Cached(w) && Recorded(w) by {
        StartFaithful(env);
        RunFaithful(env, START, events[..n]);
      }
      if Enabled(w, e) { StepDstTimed(env, w, e); }
    }
  }
}
