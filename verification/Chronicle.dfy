// The invariant of clean runs, step by step, and what it says about every session ever created.

module Chronicle {
  import opened Base
  import opened Flows
  import opened Tables
  import opened TableFacts
  import opened Tracker
  import opened Pruning
  import opened History

  // ----- Histories -------------------------------------------------------------------

  /** One more observation of a tracked session keeps its history well formed. */
  lemma TraceAppend(t: Trace, k: Tracked, f: Flow, now: int)
    requires TraceOk(t) && t.closedAt == None
    requires k.tcpState == Last(t.obs).flow.tcpState && LastLogAt(t.obs) <= k.lastSampleAt
    requires Last(t.obs).at <= now
    ensures var log := LogEvent(k, f, now); var u := t.(obs := t.obs + [Obs(f, now, log)]);
      TraceOk(u) && Last(u.obs) == Obs(f, now, log) && u.obs[0] == t.obs[0]
      && LastLogAt(u.obs) == (if log.Some? then now else LastLogAt(t.obs))
  {
    var o := Obs(f, now, LogEvent(k, f, now));
    LastOfAppend(t.obs, o);
    var u := t.(obs := t.obs + [o]);
    assert Follows(Last(t.obs), o);
    assert HistoryOk(u.obs);
    assert Beats(u.obs) == Beats(t.obs) + (if o.logged == Some(Heartbeat) then 1 else 0);
    assert LastLogAt(u.obs) == if o.logged.Some? then now else LastLogAt(t.obs);
  }

  // ----- Rows and histories ----------------------------------------------------------

  lemma TracesPut(hist: map<int, Trace>, pollers: map<string, Poller>, id: int, t: Trace, fw: string, p: Poller)
    requires TracesOk(hist, pollers)
    requires fw in pollers ==> pollers[fw].clock <= p.clock
    requires TraceOk(t) && OnClock(pollers[fw := p], t)
    ensures TracesOk(hist[id := t], pollers[fw := p])
  {
    var h, q := hist[id := t], pollers[fw := p];
    forall j | j in h ensures TraceOk(h[j]) && OnClock(q, h[j]) {
      if j != id { assert TraceOk(hist[j]) && OnClock(pollers, hist[j]); }
    }
  }

  lemma RowsPut(sessions: map<int, Session>, hist: map<int, Trace>, id: int, s: Session, t: Trace)
    requires RowsOk(sessions, hist) && RowOk(s, t)
    ensures RowsOk(sessions[id := s], hist[id := t])
  {
    var rows, h := sessions[id := s], hist[id := t];
    forall j | j in rows ensures j in h && RowOk(rows[j], h[j]) {
      if j != id { assert RowOk(sessions[j], hist[j]); }
    }
  }

  lemma SampledPut(hist: map<int, Trace>, pollers: map<string, Poller>, id: int, t: Trace, fw: string, key: string, p: Poller, k: Tracked)
    requires Sampled(hist, pollers) && fw in pollers && p.open == pollers[fw].open[key := k]
    requires k.id == id && SampledBy(map[id := t], p.since, k) && p.since == pollers[fw].since
    requires forall g, j :: g in pollers && j in pollers[g].open && (g != fw || j != key) ==> pollers[g].open[j].id != id
    ensures Sampled(hist[id := t], pollers[fw := p])
  {
    var h, q := hist[id := t], pollers[fw := p];
    forall g, j | g in q && j in q[g].open ensures SampledBy(h, q[g].since, q[g].open[j]) {
      if g != fw || j != key {
        assert SampledBy(hist, pollers[g].since, pollers[g].open[j]);
      }
    }
  }

  lemma NewTraceOk(t: Trace, f: Flow, now: int)
    requires t.obs == [Obs(f, now, Some(Start))] && t.closedAt == None
    ensures TraceOk(t) && LastLogAt(t.obs) == now
  {
    assert Beats(t.obs[..0]) == 0;
  }

  lemma StartRecorded(env: Env, w: World, e: Event)
    requires Cached(w) && Recorded(w) && Enabled(w, e) && e.Clean() && e.Observe?
    requires SessionKey(e.flow) !in w.pollers[e.fw].open
    ensures Recorded(Step(env, w, e))
  {
    var id, key, v := w.db.lastId + 1, SessionKey(e.flow), Step(env, w, e);
    var row, k := NewSession(env, e.fw, key, e.flow, e.now), TrackedOf(id, e.flow, e.now);
    var p := Poller(w.pollers[e.fw].open[key := k], e.now, w.pollers[e.fw].since);
    var t := Trace(e.fw, key, [Obs(e.flow, e.now, Some(Start))], None);
    NewTraceOk(t, e.flow, e.now);
    assert v.db.sessions == w.db.sessions[id := row] && v.db.lastId == id && v.hist == w.hist[id := t]
           && v.pollers == w.pollers[e.fw := p] by {
      StartEffect(env, w, e);
    }
    RecordedAdd(w, v, row, t, e.fw, key, p);
  }

  /** A new row with its history and its map entry keeps the record. */
  lemma RecordedAdd(w: World, v: World, row: Session, t: Trace, fw: string, key: string, p: Poller)
    requires Recorded(w) && fw in w.pollers && w.pollers[fw].clock <= p.clock && p.since == w.pollers[fw].since
    requires var id := w.db.lastId + 1;
      && v.db.sessions == w.db.sessions[id := row] && v.db.lastId == id && v.hist == w.hist[id := t]
      && v.pollers == w.pollers[fw := p]
      && key in p.open && p.open == w.pollers[fw].open[key := p.open[key]] && p.open[key].id == id
      && SampledBy(map[id := t], p.since, p.open[key])
    requires RowOk(row, t) && TraceOk(t) && OnClock(w.pollers[fw := p], t)
    ensures Recorded(v)
  {
    var id := w.db.lastId + 1;
    TracesPut(w.hist, w.pollers, id, t, fw, p);
    RowsPut(w.db.sessions, w.hist, id, row, t);
    forall g, j | g in w.pollers && j in w.pollers[g].open ensures w.pollers[g].open[j].id != id {
      assert SampledBy(w.hist, w.pollers[g].since, w.pollers[g].open[j]);
    }
    SampledPut(w.hist, w.pollers, id, t, fw, key, p, p.open[key]);
    assert Numbered(v.db, v.hist);
  }

  /** What one more observation of a tracked session makes of its row, its history and the map entry. */
  lemma ContinuePieces(env: Env, w: World, e: Event) returns (id: int, row: Session, u: Trace, p: Poller)
    requires Cached(w) && Recorded(w) && Enabled(w, e) && e.Clean() && e.Observe?
    requires SessionKey(e.flow) in w.pollers[e.fw].open
    ensures id == w.pollers[e.fw].open[SessionKey(e.flow)].id && id in w.db.sessions && id in w.hist
    ensures var v := Step(env, w, e);
      && v.db.sessions == w.db.sessions[id := row] && v.db.lastId == w.db.lastId && v.hist == w.hist[id := u]
      && v.pollers == w.pollers[e.fw := p]
    ensures RowOk(row, u) && TraceOk(u) && u.closedAt == None && OnClock(w.pollers[e.fw := p], u)
    ensures w.pollers[e.fw].clock <= p.clock && p.since == w.pollers[e.fw].since
    ensures var key := SessionKey(e.flow);
      key in p.open && p.open == w.pollers[e.fw].open[key := p.open[key]] && p.open[key].id == id
      && SampledBy(map[id := u], p.since, p.open[key])
  {
    var key := SessionKey(e.flow);
    var k := w.pollers[e.fw].open[key];
    assert CacheEntry(w.db, e.fw, key, k) && SampledBy(w.hist, w.pollers[e.fw].since, k);
    var s, t := w.db.sessions[k.id], w.hist[k.id];
    assert RowOk(s, t) && TraceOk(t) && OnClock(w.pollers, t);
    var log := LogEvent(k, e.flow, e.now);
    id, row := k.id, Refreshed(s, RefreshOf(e.flow, e.now));
    u := t.(obs := t.obs + [Obs(e.flow, e.now, log)]);
    var next := TrackedOf(k.id, e.flow, if log.Some? then e.now else k.lastSampleAt);
    p := Poller(w.pollers[e.fw].open[key := next], e.now, w.pollers[e.fw].since);
    TraceAppend(t, k, e.flow, e.now);
    RowAppend(s, t, e.flow, e.now, log);
    ContinueEffect(env, w, e);
  }

  lemma ContinueRecorded(env: Env, w: World, e: Event)
    requires Cached(w) && Recorded(w) && Enabled(w, e) && e.Clean() && e.Observe?
    requires SessionKey(e.flow) in w.pollers[e.fw].open
    ensures Recorded(Step(env, w, e))
  {
    var id, row, u, p := ContinuePieces(env, w, e);
    OnlyOneTracks(w, e.fw, SessionKey(e.flow));
    RecordedPut(w, Step(env, w, e), id, row, u, e.fw, SessionKey(e.flow), p);
  }

  /** Exchanging one row, its history and its map entry for well-formed ones keeps the record. */
  lemma RecordedPut(w: World, v: World, id: int, row: Session, u: Trace, fw: string, key: string, p: Poller)
    requires Recorded(w) && id in w.hist && id in w.db.sessions && fw in w.pollers
    requires v.db.sessions == w.db.sessions[id := row] && v.db.lastId == w.db.lastId && v.hist == w.hist[id := u]
    requires v.pollers == w.pollers[fw := p] && w.pollers[fw].clock <= p.clock && p.since == w.pollers[fw].since
    requires RowOk(row, u) && TraceOk(u) && OnClock(w.pollers[fw := p], u)
    requires key in p.open && p.open == w.pollers[fw].open[key := p.open[key]] && p.open[key].id == id
    requires SampledBy(map[id := u], p.since, p.open[key])
    requires forall g, j :: g in w.pollers && j in w.pollers[g].open && (g != fw || j != key) ==> w.pollers[g].open[j].id != id
    ensures Recorded(v)
  {
    TracesPut(w.hist, w.pollers, id, u, fw, p);
    RowsPut(w.db.sessions, w.hist, id, row, u);
    SampledPut(w.hist, w.pollers, id, u, fw, key, p, p.open[key]);
    NumberedKept(w, v, id);
  }

  lemma RowAppend(s: Session, t: Trace, f: Flow, now: int, log: Option<EventKind>)
    requires RowOk(s, t) && t.closedAt == None
    ensures RowOk(Refreshed(s, RefreshOf(f, now)), t.(obs := t.obs + [Obs(f, now, log)]))
  {
    assert (t.obs + [Obs(f, now, log)])[0] == t.obs[0];
  }

  /** No two map entries, of any pollers, lead to one row. */
  lemma OnlyOneTracks(w: World, fw: string, key: string)
    requires Cached(w) && fw in w.pollers && key in w.pollers[fw].open
    ensures forall g, j :: g in w.pollers && j in w.pollers[g].open && (g != fw || j != key) ==>
      w.pollers[g].open[j].id != w.pollers[fw].open[key].id
  {
    var k := w.pollers[fw].open[key];
    assert CacheEntry(w.db, fw, key, k);
    forall g, j | g in w.pollers && j in w.pollers[g].open && (g != fw || j != key)
      ensures w.pollers[g].open[j].id != k.id
    {
      assert CacheEntry(w.db, g, j, w.pollers[g].open[j]);
    }
  }

  lemma NumberedKept(w: World, v: World, id: int)
    requires Numbered(w.db, w.hist) && id in w.hist && id in w.db.sessions
    requires v.db.lastId == w.db.lastId && v.db.sessions.Keys == w.db.sessions.Keys && v.hist.Keys == w.hist.Keys
    requires forall j :: j in w.hist && j != id ==> v.hist[j].closedAt == w.hist[j].closedAt
    ensures Numbered(v.db, v.hist)
  {
  }

  lemma LoadRecorded(env: Env, w: World, e: Event)
    requires Sound(env, w) && Cached(w) && Recorded(w) && Enabled(w, e) && e.Load? && e.ok
    ensures Recorded(Step(env, w, e))
  {
    LoadCached(env, w, e);
    var v := Step(env, w, e);
    forall id | id in v.hist ensures TraceOk(v.hist[id]) && OnClock(v.pollers, v.hist[id]) {
      assert TraceOk(w.hist[id]) && OnClock(w.pollers, w.hist[id]);
    }
    forall fw, k | fw in v.pollers && k in v.pollers[fw].open ensures SampledBy(v.hist, v.pollers[fw].since, v.pollers[fw].open[k]) {
      if fw == e.fw {
        LoadSampled(w, v, e, k);
      } else {
        assert SampledBy(w.hist, w.pollers[fw].since, w.pollers[fw].open[k]);
      }
    }
  }

  /** A restarted poller takes "now" for the last event of every session, which is not too early. */
  lemma LoadSampled(w: World, v: World, e: Event, k: string)
    requires Recorded(w) && Cached(v) && e.Load? && Enabled(w, e) && v.hist == w.hist && v.db == w.db
    requires v.pollers == w.pollers[e.fw := Poller(LoadOpen(w.db, e.fw, e.now), e.now, e.now)]
    requires k in v.pollers[e.fw].open
    ensures SampledBy(v.hist, v.pollers[e.fw].since, v.pollers[e.fw].open[k])
  {
    var t := v.pollers[e.fw].open[k];
    assert CacheEntry(v.db, e.fw, k, t);
    assert RowOk(w.db.sessions[t.id], w.hist[t.id]);
    assert TraceOk(w.hist[t.id]) && OnClock(w.pollers, w.hist[t.id]);
    assert t.lastSampleAt == e.now;
  }

  /** The rows a close names have their histories, of the same firewall. */
  lemma DoomedKnown(w: World, e: Event)
    requires Cached(w) && Recorded(w) && e.Close? && e.fw in w.pollers
    ensures forall id :: id in DoomedIds(w.pollers[e.fw].open, e.seen, e.failed) ==>
      id in w.hist && id in w.db.sessions && w.hist[id].fw == e.fw
  {
    forall id | id in DoomedIds(w.pollers[e.fw].open, e.seen, e.failed)
      ensures id in w.hist && id in w.db.sessions && w.hist[id].fw == e.fw
    {
      var k :| k in Doomed(w.pollers[e.fw].open, e.seen, e.failed) && w.pollers[e.fw].open[k].id == id;
      assert CacheEntry(w.db, e.fw, k, w.pollers[e.fw].open[k]);
      assert RowOk(w.db.sessions[id], w.hist[id]);
    }
  }

  /** What a close does to rows, histories and map. */
  lemma CloseEffect(env: Env, w: World, e: Event)
    requires Enabled(w, e) && e.Close?
    ensures var v := Step(env, w, e); var ids := DoomedIds(w.pollers[e.fw].open, e.seen, e.failed);
      && v.db.lastId == w.db.lastId && v.hist == ClosedTraces(w.hist, ids, e.now)
      && v.db.sessions == ClosedRows(w.db.sessions, ids, e.now)
      && v.pollers == w.pollers[e.fw := Poller(w.pollers[e.fw].open - Doomed(w.pollers[e.fw].open, e.seen, e.failed), e.now,
                                               w.pollers[e.fw].since)]
  {
  }

  function ClosedRows(sessions: map<int, Session>, ids: set<int>, now: int): map<int, Session> {
    map id | id in sessions :: if id in ids then sessions[id].(closedAt := Some(Unix(now))) else sessions[id]
  }

  lemma ClosedRowsOk(sessions: map<int, Session>, hist: map<int, Trace>, ids: set<int>, now: int)
    requires RowsOk(sessions, hist)
    ensures RowsOk(ClosedRows(sessions, ids, now), ClosedTraces(hist, ids, now))
  {
    var rows, h := ClosedRows(sessions, ids, now), ClosedTraces(hist, ids, now);
    forall j | j in rows ensures j in h && RowOk(rows[j], h[j]) {
      assert RowOk(sessions[j], hist[j]);
    }
  }

  lemma ClosedSampled(w: World, fw: string, gone: set<string>, ids: set<int>, now: int)
    requires Sampled(w.hist, w.pollers) && fw in w.pollers
    ensures var p := Poller(w.pollers[fw].open - gone, now, w.pollers[fw].since);
      Sampled(ClosedTraces(w.hist, ids, now), w.pollers[fw := p])
  {
    var p := Poller(w.pollers[fw].open - gone, now, w.pollers[fw].since);
    var h, q := ClosedTraces(w.hist, ids, now), w.pollers[fw := p];
    forall g, k | g in q && k in q[g].open ensures SampledBy(h, q[g].since, q[g].open[k]) {
      assert SampledBy(w.hist, w.pollers[g].since, w.pollers[g].open[k]);
    }
  }

  lemma CloseRecorded(env: Env, w: World, e: Event)
    requires Cached(w) && Recorded(w) && Enabled(w, e) && e.Close?
    ensures Recorded(Step(env, w, e))
  {
    var open := w.pollers[e.fw].open;
    var ids, gone := DoomedIds(open, e.seen, e.failed), Doomed(open, e.seen, e.failed);
    DoomedKnown(w, e);
    CloseEffect(env, w, e);
    ClosedTracesOk(w, Step(env, w, e), ids, e.fw, e.now);
    ClosedRowsOk(w.db.sessions, w.hist, ids, e.now);
    ClosedSampled(w, e.fw, gone, ids, e.now);
  }

  lemma ClosedTracesOk(w: World, v: World, ids: set<int>, fw: string, now: int)
    requires TracesOk(w.hist, w.pollers) && v.hist == ClosedTraces(w.hist, ids, now)
    requires fw in w.pollers && w.pollers[fw].clock <= now && v.pollers.Keys == w.pollers.Keys
    requires v.pollers[fw].clock == now && forall g :: g in w.pollers && g != fw ==> v.pollers[g] == w.pollers[g]
    requires forall id :: id in ids ==> id in w.hist && w.hist[id].fw == fw
    ensures TracesOk(v.hist, v.pollers)
  {
    forall j | j in v.hist ensures TraceOk(v.hist[j]) && OnClock(v.pollers, v.hist[j]) {
      assert TraceOk(w.hist[j]) && OnClock(w.pollers, w.hist[j]);
      assert v.hist[j].obs == w.hist[j].obs && v.hist[j].key == w.hist[j].key;
    }
  }

  lemma PruneRecorded(env: Env, w: World, e: Event)
    requires Sound(env, w) && Recorded(w) && Enabled(w, e) && !e.ByPoller()
    ensures Recorded(Step(env, w, e))
  {
    var v := Step(env, w, e);
    assert v.hist == w.hist && v.pollers == w.pollers && v.db.lastId == w.db.lastId;
    forall id | id in v.db.sessions ensures id in v.hist && RowOk(v.db.sessions[id], v.hist[id]) {
      assert RowOk(w.db.sessions[id], w.hist[id]);
    }
    if e.PruneSessions? {
      assert TakesFirst(env.scan, Eligible(w.db, w.pruner.cut));
      forall id | id in w.hist && w.hist[id].closedAt == None ensures id in v.db.sessions {
        assert RowOk(w.db.sessions[id], w.hist[id]);
      }
    }
  }

  lemma StepRecorded(env: Env, w: World, e: Event)
    requires Sound(env, w) && Cached(w) && Recorded(w) && Enabled(w, e) && e.Clean()
    ensures Recorded(Step(env, w, e))
  {
    if e.Load? { LoadRecorded(env, w, e); }
    else if e.Observe? {
      if SessionKey(e.flow) in w.pollers[e.fw].open { ContinueRecorded(env, w, e); } else { StartRecorded(env, w, e); }
    }
    else if e.Close? { CloseRecorded(env, w, e); }
    else { PruneRecorded(env, w, e); }
  }

  // ----- The event log ---------------------------------------------------------------

  lemma StartLogged(env: Env, w: World, e: Event)
    requires Sound(env, w) && Recorded(w) && Logged(w) && Enabled(w, e) && e.Clean() && e.Observe?
    requires SessionKey(e.flow) !in w.pollers[e.fw].open
    ensures Logged(Step(env, w, e))
  {
    StartEffect(env, w, e);
    var v := Step(env, w, e);
    var id := w.db.lastId + 1;
    var s := SampleOf(id, e.fw, Start, e.now, e.flow);
    forall j | j in v.db.sessions && j !in v.wiped && j in v.hist
      ensures SamplesOf(v.db.samples, j) == LogOf(j, v.hist[j].fw, v.hist[j].obs)
    {
      SamplesOfAppend(w.db.samples, s, j);
      if j == id {
        NoSamplesOf(w.db, id);
        assert v.hist[id].obs[..0] == [];
      }
    }
  }

  lemma NoSamplesOf(db: Db, id: int)
    requires Anchored(db) && id !in db.sessions
    ensures SamplesOf(db.samples, id) == []
  {
    SamplesOfNone(db.samples, id);
    assert forall i :: 0 <= i < |db.samples| ==> db.samples[i] in db.samples;
  }

  lemma ContinueLogged(env: Env, w: World, e: Event)
    requires Sound(env, w) && Cached(w) && Recorded(w) && Logged(w) && Enabled(w, e) && e.Clean() && e.Observe?
    requires SessionKey(e.flow) in w.pollers[e.fw].open
    ensures Logged(Step(env, w, e))
  {
    var key, v := SessionKey(e.flow), Step(env, w, e);
    var k := w.pollers[e.fw].open[key];
    assert CacheEntry(w.db, e.fw, key, k);
    var s, t := w.db.sessions[k.id], w.hist[k.id];
    assert RowOk(s, t);
    var log := LogEvent(k, e.flow, e.now);
    var row, o := Refreshed(s, RefreshOf(e.flow, e.now)), Obs(e.flow, e.now, log);
    assert v.db.sessions == w.db.sessions[k.id := row] && v.db.lastId == w.db.lastId && v.wiped == w.wiped
           && v.hist == w.hist[k.id := t.(obs := t.obs + [o])]
           && v.db.samples == w.db.samples + (if log.Some? then [SampleOf(k.id, e.fw, log.value, e.now, e.flow)] else []) by {
      ContinueEffect(env, w, e);
    }
    LoggedPut(w, v, k.id, row, t, e.fw, o);
  }

  /** One more observation of a row, with the sample it calls for, keeps the log. */
  lemma LoggedPut(w: World, v: World, id: int, row: Session, t: Trace, fw: string, o: Obs)
    requires Logged(w) && IsOpen(w.db, id) && id in w.hist && w.hist[id] == t && t.fw == fw
    requires v.db.sessions == w.db.sessions[id := row] && v.db.lastId == w.db.lastId && v.wiped == w.wiped
    requires v.hist == w.hist[id := t.(obs := t.obs + [o])]
    requires v.db.samples == w.db.samples + (if o.logged.Some? then [SampleOf(id, fw, o.logged.value, o.at, o.flow)] else [])
    ensures Logged(v)
  {
    forall j | j in v.db.sessions && j !in v.wiped && j in v.hist
      ensures SamplesOf(v.db.samples, j) == LogOf(j, v.hist[j].fw, v.hist[j].obs)
    {
      if o.logged.Some? { SamplesOfAppend(w.db.samples, SampleOf(id, fw, o.logged.value, o.at, o.flow), j); }
      else { assert v.db.samples == w.db.samples; }
      if j == id { LastOfAppend(t.obs, o); }
    }
    forall j | j in v.wiped ensures j <= v.db.lastId && !IsOpen(v.db, j) {
      assert j != id;
    }
  }

  lemma CloseLogged(env: Env, w: World, e: Event)
    requires Logged(w) && Recorded(w) && Enabled(w, e) && e.Close?
    ensures Logged(Step(env, w, e))
  {
    var v := Step(env, w, e);
    forall j | j in v.db.sessions && j !in v.wiped && j in v.hist
      ensures SamplesOf(v.db.samples, j) == LogOf(j, v.hist[j].fw, v.hist[j].obs)
    {
      assert v.hist[j].obs == w.hist[j].obs && v.hist[j].fw == w.hist[j].fw;
    }
  }

  lemma PruneLogged(env: Env, w: World, e: Event)
    requires FirstBatch(env.scan) && Logged(w) && IdsBelow(w.db)
    requires Enabled(w, e) && !e.ByPoller()
    ensures Logged(Step(env, w, e))
  {
    match e
    case PruneSamples =>
      var batch := env.scan(Eligible(w.db, w.pruner.cut));
      assert TakesFirst(env.scan, Eligible(w.db, w.pruner.cut));
      WipeLogged(w, Step(env, w, e), batch);
    case PruneSessions =>
      FewerRowsLogged(w, Step(env, w, e), env.scan(Eligible(w.db, w.pruner.cut)));
    case PruneStart(_) =>
      FewerRowsLogged(w, Step(env, w, e), {});
    case PruneFails =>
      FewerRowsLogged(w, Step(env, w, e), {});
  }

  lemma FewerRowsLogged(w: World, v: World, batch: set<int>)
    requires Logged(w) && v.wiped == w.wiped && v.hist == w.hist
    requires v.db == w.db || v.db == DeleteSessions(w.db, batch)
    ensures Logged(v)
  {
  }

  lemma WipeLogged(w: World, v: World, batch: set<int>)
    requires Logged(w) && forall id :: id in batch ==> id <= w.db.lastId && !IsOpen(w.db, id)
    requires v.db == DeleteSamples(w.db, batch) && v.hist == w.hist && v.wiped == w.wiped + batch
    ensures Logged(v)
  {
    forall j | j in v.db.sessions && j !in v.wiped && j in v.hist
      ensures SamplesOf(v.db.samples, j) == LogOf(j, v.hist[j].fw, v.hist[j].obs)
    {
      SamplesOfDrop(w.db.samples, batch, j);
    }
  }

  lemma StepLogged(env: Env, w: World, e: Event)
    requires Sound(env, w) && Cached(w) && Recorded(w) && Logged(w) && Enabled(w, e) && e.Clean()
    ensures Logged(Step(env, w, e))
  {
    if e.Observe? {
      if SessionKey(e.flow) in w.pollers[e.fw].open { ContinueLogged(env, w, e); } else { StartLogged(env, w, e); }
    }
    else if e.Close? { CloseLogged(env, w, e); }
    else if !e.Load? { PruneLogged(env, w, e); }
  }

  // ----- Lifetimes -------------------------------------------------------------------

  lemma StartDisjoint(env: Env, w: World, e: Event)
    requires Cached(w) && Recorded(w) && Disjoint(w) && Enabled(w, e) && e.Clean() && e.Observe?
    requires SessionKey(e.flow) !in w.pollers[e.fw].open
    ensures Disjoint(Step(env, w, e))
  {
    StartEffect(env, w, e);
    var v := Step(env, w, e);
    var id := w.db.lastId + 1;
    forall i, j | i in v.hist && j in v.hist && i < j && SameFlow(v.hist[i], v.hist[j])
      ensures Precedes(v.hist[i], v.hist[j])
    {
      if j == id {
        var t := w.hist[i];
        if t.closedAt == None {
          assert RowOk(w.db.sessions[i], t) && IsOpen(w.db, i);
        }
      } else {
        assert i in w.hist && j in w.hist && SameFlow(w.hist[i], w.hist[j]);
      }
    }
  }

  lemma ContinueDisjoint(env: Env, w: World, e: Event)
    requires Cached(w) && Recorded(w) && Disjoint(w) && Enabled(w, e) && e.Clean() && e.Observe?
    requires SessionKey(e.flow) in w.pollers[e.fw].open
    ensures Disjoint(Step(env, w, e))
  {
    var k := w.pollers[e.fw].open[SessionKey(e.flow)];
    assert CacheEntry(w.db, e.fw, SessionKey(e.flow), k);
    assert TraceOk(w.hist[k.id]);
    ContinueEffect(env, w, e);
    var v := Step(env, w, e);
    forall i, j | i in v.hist && j in v.hist && i < j && SameFlow(v.hist[i], v.hist[j])
      ensures Precedes(v.hist[i], v.hist[j])
    {
      assert i in w.hist && j in w.hist && SameFlow(w.hist[i], w.hist[j]);
      assert Precedes(w.hist[i], w.hist[j]) && TraceOk(w.hist[j]);
      assert v.hist[j].obs[0] == w.hist[j].obs[0];
    }
  }

  lemma CloseDisjoint(env: Env, w: World, e: Event)
    requires Cached(w) && Recorded(w) && Disjoint(w) && Enabled(w, e) && e.Close?
    ensures Disjoint(Step(env, w, e))
  {
    var v := Step(env, w, e);
    var ids := DoomedIds(w.pollers[e.fw].open, e.seen, e.failed);
    forall i, j | i in v.hist && j in v.hist && i < j && SameFlow(v.hist[i], v.hist[j])
      ensures Precedes(v.hist[i], v.hist[j])
    {
      assert i in w.hist && j in w.hist && SameFlow(w.hist[i], w.hist[j]);
      assert Precedes(w.hist[i], w.hist[j]);
      assert i in w.db.sessions ==> RowOk(w.db.sessions[i], w.hist[i]) && !IsOpen(w.db, i);
      assert forall k :: k in w.pollers[e.fw].open ==> CacheEntry(w.db, e.fw, k, w.pollers[e.fw].open[k]);
      assert i !in ids;
    }
  }

  lemma StepDisjoint(env: Env, w: World, e: Event)
    requires Cached(w) && Recorded(w) && Disjoint(w) && Enabled(w, e) && e.Clean()
    ensures Disjoint(Step(env, w, e))
  {
    if e.Observe? {
      if SessionKey(e.flow) in w.pollers[e.fw].open { ContinueDisjoint(env, w, e); } else { StartDisjoint(env, w, e); }
    } else if e.Close? {
      CloseDisjoint(env, w, e);
    } else {
      assert Step(env, w, e).hist == w.hist;
    }
  }

  // ----- Every clean run -------------------------------------------------------------

  lemma StepFaithful(env: Env, w: World, e: Event)
    requires Faithful(env, w) && e.Clean()
    ensures Faithful(env, Step(env, w, e))
  {
    if Enabled(w, e) {
      if e.ByPoller() { PollerStepSound(env, w, e); } else { PruneStepSound(env, w, e); }
      StepCached(env, w, e);
      StepRecorded(env, w, e);
      StepLogged(env, w, e);
      StepDisjoint(env, w, e);
    }
  }

  lemma {:induction false} RunFaithful(env: Env, w: World, events: seq<Event>)
    requires Faithful(env, w) && Clean(events)
    ensures Faithful(env, Run(env, w, events))
  {
    if events != [] {
      var n := |events| - 1;
      RunFaithful(env, w, events[..n]);
      StepFaithful(env, Run(env, w, events[..n]), events[n]);
    }
  }

  lemma StartFaithful(env: Env)
    requires FirstBatch(env.scan)
    ensures Faithful(env, START)
  {
  }
}
