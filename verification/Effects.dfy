// What one observed flow does to the rollup, whichever of its store calls succeed.

module Effects {
  import opened Base
  import opened Flows
  import opened Tables
  import opened Tracker

  predicate SameRollup(a: Db, b: Db) {
    a.usage == b.usage && a.dst == b.dst
  }

  /** A bump looks at the rollup only. */
  lemma BumpRollup(a: Db, c: Db, b: Bucket, ip: string, at: int, delta: int, isNew: bool, scope: Scope)
    requires SameRollup(a, c)
    ensures SameRollup(Bump(a, b, ip, at, delta, isNew, scope), Bump(c, b, ip, at, delta, isNew, scope))
  {
  }

  lemma LogRollup(db: Db, log: Option<Sample>)
    ensures log.Some? ==> SameRollup(InsertSample(db, log.value), db)
  {
  }

  lemma ExtendRollup(st: PollState, key: string, id: int, u: Refresh, b: Bucket, ip: string, now: int, delta: int,
                     scope: Scope, log: Option<Sample>, next: Tracked, calls: nat)
    ensures SameRollup(Extend(st, key, id, u, b, ip, now, delta, scope, log, next, calls).db,
                       if calls >= 2 then Bump(st.db, b, ip, now, delta, false, scope) else st.db)
  {
    var db1 := UpdateSession(st.db, id, u);
    assert SameRollup(db1, st.db);
    if calls >= 2 {
      BumpRollup(db1, st.db, b, ip, now, delta, false, scope);
      LogRollup(Bump(db1, b, ip, now, delta, false, scope), log);
    }
  }

  lemma BeginRollup(st: PollState, key: string, row: Session, s: Sample, b: Bucket, ip: string, now: int, bytes: int,
                    scope: Scope, next: Tracked, asks: seq<Ask>, calls: nat)
    ensures SameRollup(Begin(st, key, row, s, b, ip, now, bytes, scope, next, asks, calls).db,
                       if calls >= 3 then Bump(st.db, b, ip, now, bytes, true, scope) else st.db)
  {
    var db2 := InsertSample(InsertSession(st.db, row), s);
    assert SameRollup(db2, st.db);
    if calls >= 3 { BumpRollup(db2, st.db, b, ip, now, bytes, true, scope); }
  }

  /** The tables with the one bump a flow makes, if the calls get that far. */
  function Bumped(env: Env, fw: string, st: PollState, f: Flow, key: string, now: int, calls: nat): Db {
    var b, scope := BucketOf(fw, f), ScopeOf(env, f);
    if key in st.open then
      if calls >= 2 then Bump(st.db, b, f.originDst, now, Delta(st.open[key].Bytes(), f.Bytes()), false, scope) else st.db
    else
      if calls >= 3 then Bump(st.db, b, f.originDst, now, f.Bytes(), true, scope) else st.db
  }

  lemma ContinueRollup(env: Env, fw: string, st: PollState, f: Flow, key: string, now: int, calls: nat)
    requires key in st.open
    ensures SameRollup(ContinueFlow(env, fw, st, f, key, now, calls).db, Bumped(env, fw, st, f, key, now, calls))
  {
    var t := st.open[key];
    var u, b, delta, scope := RefreshOf(f, now), BucketOf(fw, f), Delta(t.Bytes(), f.Bytes()), ScopeOf(env, f);
    var log, next := LogRow(fw, t, f, now), NextTracked(t, f, now);
    ExtendRollup(st, key, t.id, u, b, f.originDst, now, delta, scope, log, next, calls);
  }

  lemma StartRollup(env: Env, fw: string, st: PollState, f: Flow, key: string, now: int, calls: nat)
    requires key !in st.open
    ensures SameRollup(StartFlow(env, fw, st, f, key, now, calls).db, Bumped(env, fw, st, f, key, now, calls))
  {
    var id := st.db.lastId + 1;
    var row, s, next := NewSession(env, fw, key, f, now), SampleOf(id, fw, Start, now, f), TrackedOf(id, f, now);
    var b, scope, bytes, asks := BucketOf(fw, f), ScopeOf(env, f), f.Bytes(), Asks(env, fw, f);
    BeginRollup(st, key, row, s, b, f.originDst, now, bytes, scope, next, asks, calls);
  }

  lemma FlowRollup(env: Env, fw: string, st: PollState, f: Flow, key: string, now: int, calls: nat)
    ensures SameRollup(ApplyFlow(env, fw, st, f, key, now, calls).db, Bumped(env, fw, st, f, key, now, calls))
  {
    if key in st.open { ContinueRollup(env, fw, st, f, key, now, calls); } else { StartRollup(env, fw, st, f, key, now, calls); }
  }

  /** The same for one event of a run. */
  function BumpedBy(env: Env, w: World, e: Event): Db
    requires e.Observe? && e.fw in w.pollers
  {
    Bumped(env, e.fw, View(w, e.fw), e.flow, SessionKey(e.flow), e.now, e.calls)
  }

  lemma ObserveRollup(env: Env, w: World, e: Event)
    requires Enabled(w, e) && e.Observe?
    ensures SameRollup(Step(env, w, e).db, BumpedBy(env, w, e))
  {
    FlowRollup(env, e.fw, View(w, e.fw), e.flow, SessionKey(e.flow), e.now, e.calls);
  }
}
