// Runs without failing store calls: the tables, the pollers' maps and the full history of every session agree.

module History {
  import opened Base
  import opened Flows
  import opened Tables
  import opened Tracker
  import opened Pruning

  // ----- One session's history -------------------------------------------------------

  function Last(obs: seq<Obs>): Obs
    requires obs != []
  {
    obs[|obs| - 1]
  }

  /** The counter total an observation read: bytes both ways. */
  function Reading(o: Obs): int {
    o.flow.txBytes + o.flow.rxBytes
  }

  /** The event rows a history calls for. */
  function LogOf(id: int, fw: string, obs: seq<Obs>): seq<Sample> {
    if obs == [] then []
    else
      var rest := LogOf(id, fw, obs[..|obs| - 1]);
      var o := Last(obs);
      if o.logged.Some? then rest + [SampleOf(id, fw, o.logged.value, o.at, o.flow)] else rest
  }

  function Beats(obs: seq<Obs>): nat {
    if obs == [] then 0
    else Beats(obs[..|obs| - 1]) + (if Last(obs).logged == Some(Heartbeat) then 1 else 0)
  }

  /** When the last event row was written. */
  function LastLogAt(obs: seq<Obs>): int
    requires obs != []
  {
    if Last(obs).logged.Some? || |obs| == 1 then Last(obs).at else LastLogAt(obs[..|obs| - 1])
  }

  /** A session starts with a start event and then logs a state change exactly when the state changed. */
  ghost predicate HistoryOk(obs: seq<Obs>) {
    && obs != []
    && (if |obs| == 1 then Last(obs).logged == Some(Start)
        else HistoryOk(obs[..|obs| - 1]) && Follows(Last(obs[..|obs| - 1]), Last(obs)))
  }

  predicate Follows(a: Obs, b: Obs) {
    && a.at <= b.at
    && b.logged != Some(Start)
    && (b.logged == Some(StateChange) <==> b.flow.tcpState != a.flow.tcpState)
  }

  ghost predicate TraceOk(t: Trace) {
    && HistoryOk(t.obs)
    && (t.closedAt.Some? ==> Last(t.obs).at <= t.closedAt.value)
    && HEARTBEAT * Beats(t.obs) <= LastLogAt(t.obs) - t.obs[0].at
    && LastLogAt(t.obs) <= Last(t.obs).at
  }

  predicate RowOk(s: Session, t: Trace) {
    t.obs != [] &&
    var first, last := t.obs[0], Last(t.obs);
    && s.fw == t.fw && s.key == t.key && s.sampleCount == |t.obs|
    && s.firstSeen == Unix(first.at) && s.lastSeen == Unix(last.at)
    && s.tcpState == last.flow.tcpState && s.txBytes == last.flow.txBytes && s.rxBytes == last.flow.rxBytes
    && s.protocol == first.flow.protocol && s.application == last.flow.application
    && s.closedAt == (if t.closedAt.Some? then Some(Unix(t.closedAt.value)) else None)
  }

  // ----- The invariant ---------------------------------------------------------------

  /** The poller's map is a cache of the open rows: same keys, ids, counters and state, one open row per key. */
  ghost predicate Cached(w: World) {
    && (forall fw :: fw in w.pollers ==> w.pollers[fw].since <= w.pollers[fw].clock)
    && Entries(w.db, w.pollers)
    && Covered(w.db, w.pollers)
  }

  ghost predicate Entries(db: Db, pollers: map<string, Poller>) {
    forall fw, k :: fw in pollers && k in pollers[fw].open ==> CacheEntry(db, fw, k, pollers[fw].open[k])
  }

  ghost predicate Covered(db: Db, pollers: map<string, Poller>) {
    forall id :: IsOpen(db, id) ==> CoveredRow(pollers, db.sessions[id], id)
  }

  predicate CoveredRow(pollers: map<string, Poller>, s: Session, id: int) {
    s.fw in pollers && s.key in pollers[s.fw].open && pollers[s.fw].open[s.key].id == id
  }

  predicate CacheEntry(db: Db, fw: string, key: string, t: Tracked) {
    && Tracks(db, fw, key, t.id)
    && t.txBytes == db.sessions[t.id].txBytes && t.rxBytes == db.sessions[t.id].rxBytes
    && t.tcpState == db.sessions[t.id].tcpState
  }

  /** Every session ever created has its history, and rows that still exist say what it says. */
  ghost predicate Recorded(w: World) {
    Numbered(w.db, w.hist) && TracesOk(w.hist, w.pollers) && RowsOk(w.db.sessions, w.hist) && Sampled(w.hist, w.pollers)
  }

  ghost predicate Numbered(db: Db, hist: map<int, Trace>) {
    && 0 <= db.lastId
    && (forall id :: id in hist <==> 1 <= id <= db.lastId)
    && (forall id :: id in hist && hist[id].closedAt == None ==> id in db.sessions)
  }

  ghost predicate TracesOk(hist: map<int, Trace>, pollers: map<string, Poller>) {
    forall id :: id in hist ==> TraceOk(hist[id]) && OnClock(pollers, hist[id])
  }

  ghost predicate RowsOk(sessions: map<int, Session>, hist: map<int, Trace>) {
    forall id :: id in sessions ==> id in hist && RowOk(sessions[id], hist[id])
  }

  ghost predicate Sampled(hist: map<int, Trace>, pollers: map<string, Poller>) {
    forall fw, k :: fw in pollers && k in pollers[fw].open ==> SampledBy(hist, pollers[fw].since, pollers[fw].open[k])
  }

  predicate OnClock(pollers: map<string, Poller>, t: Trace) {
    && t.fw in pollers && t.obs != []
    && Last(t.obs).at <= pollers[t.fw].clock
    && (t.closedAt.Some? ==> t.closedAt.value <= pollers[t.fw].clock)
  }

  /** A poller counts its five minutes from the session's last event, or from its own start if that is later;
      every observation that found them over wrote an event. */
  predicate SampledBy(hist: map<int, Trace>, since: int, t: Tracked) {
    && t.id in hist && hist[t.id].obs != []
    && t.lastSampleAt == Max(LastLogAt(hist[t.id].obs), since)
    && Last(hist[t.id].obs).at - t.lastSampleAt < HEARTBEAT
  }

  /** The event log of every row the pruner has not begun to delete is the one its history calls for. */
  ghost predicate Logged(w: World) {
    && (forall id :: id in w.db.sessions && id !in w.wiped && id in w.hist ==>
          SamplesOf(w.db.samples, id) == LogOf(id, w.hist[id].fw, w.hist[id].obs))
    && (forall id :: id in w.wiped ==> id <= w.db.lastId && !IsOpen(w.db, id))
  }

  /** Sessions that share a key do not overlap in time. */
  ghost predicate Disjoint(w: World) {
    forall i, j :: i in w.hist && j in w.hist && i < j && SameFlow(w.hist[i], w.hist[j]) ==>
                     Precedes(w.hist[i], w.hist[j])
  }

  predicate SameFlow(a: Trace, b: Trace) {
    a.fw == b.fw && a.key == b.key
  }

  predicate Precedes(a: Trace, b: Trace) {
    a.closedAt.Some? && (b.obs != [] ==> a.closedAt.value <= b.obs[0].at)
  }

  ghost predicate Faithful(env: Env, w: World) {
    Sound(env, w) && Cached(w) && Recorded(w) && Logged(w) && Disjoint(w)
  }

  // ----- The effect of one clean event -----------------------------------------------

  lemma StartEffect(env: Env, w: World, e: Event)
    requires Enabled(w, e) && e.Clean() && e.Observe?
    requires SessionKey(e.flow) !in w.pollers[e.fw].open
    ensures
      var v := Step(env, w, e); var id := w.db.lastId + 1; var key := SessionKey(e.flow);
      && v.db.sessions == w.db.sessions[id := NewSession(env, e.fw, key, e.flow, e.now)]
      && v.db.lastId == id
      && v.db.samples == w.db.samples + [SampleOf(id, e.fw, Start, e.now, e.flow)]
      && v.hist == w.hist[id := Trace(e.fw, key, [Obs(e.flow, e.now, Some(Start))], None)]
      && v.pollers == w.pollers[e.fw := Poller(w.pollers[e.fw].open[key := TrackedOf(id, e.flow, e.now)], e.now, w.pollers[e.fw].since)]
      && v.wiped == w.wiped && v.pruner == w.pruner
  {
  }

  lemma ContinueEffect(env: Env, w: World, e: Event)
    requires Enabled(w, e) && e.Clean() && e.Observe?
    requires SessionKey(e.flow) in w.pollers[e.fw].open
    requires w.pollers[e.fw].open[SessionKey(e.flow)].id in w.db.sessions
    ensures
      var v := Step(env, w, e); var key := SessionKey(e.flow); var t := w.pollers[e.fw].open[key];
      var log := LogEvent(t, e.flow, e.now);
      && v.db.sessions == w.db.sessions[t.id := Refreshed(w.db.sessions[t.id], RefreshOf(e.flow, e.now))]
      && v.db.lastId == w.db.lastId
      && v.db.samples == w.db.samples + (if log.Some? then [SampleOf(t.id, e.fw, log.value, e.now, e.flow)] else [])
      && (t.id in w.hist ==> v.hist == w.hist[t.id := w.hist[t.id].(obs := w.hist[t.id].obs + [Obs(e.flow, e.now, log)])])
      && v.pollers == w.pollers[e.fw := Poller(
           w.pollers[e.fw].open[key := TrackedOf(t.id, e.flow, if log.Some? then e.now else t.lastSampleAt)],
           e.now, w.pollers[e.fw].since)]
      && v.wiped == w.wiped && v.pruner == w.pruner
  {
  }

  lemma LastOfAppend(obs: seq<Obs>, o: Obs)
    ensures (obs + [o])[..|obs|] == obs && Last(obs + [o]) == o
  {
  }

  // ----- The cache -------------------------------------------------------------------

  lemma StartCached(env: Env, w: World, e: Event)
    requires Sound(env, w) && Cached(w) && Enabled(w, e) && e.Clean() && e.Observe?
    requires SessionKey(e.flow) !in w.pollers[e.fw].open
    ensures Cached(Step(env, w, e))
  {
    StartEffect(env, w, e);
    var v := Step(env, w, e);
    forall fw, k | fw in v.pollers && k in v.pollers[fw].open
      ensures CacheEntry(v.db, fw, k, v.pollers[fw].open[k])
    {
      if fw != e.fw || k != SessionKey(e.flow) {
        assert CacheEntry(w.db, fw, k, w.pollers[fw].open[k]);
      }
    }
    forall id | IsOpen(v.db, id)
      ensures CoveredRow(v.pollers, v.db.sessions[id], id)
    {
      if id != v.db.lastId { assert IsOpen(w.db, id); }
    }
  }

  lemma ContinueRows(env: Env, w: World, e: Event)
    requires Enabled(w, e) && e.Clean() && e.Observe?
    requires SessionKey(e.flow) in w.pollers[e.fw].open
    requires CacheEntry(w.db, e.fw, SessionKey(e.flow), w.pollers[e.fw].open[SessionKey(e.flow)])
    ensures
      var v := Step(env, w, e); var key := SessionKey(e.flow); var id := w.pollers[e.fw].open[key].id;
      && v.pollers.Keys == w.pollers.Keys && v.db.sessions.Keys == w.db.sessions.Keys
      && v.pollers[e.fw].open.Keys == w.pollers[e.fw].open.Keys
      && (forall g :: g in w.pollers && g != e.fw ==> v.pollers[g] == w.pollers[g])
      && (forall k :: k in w.pollers[e.fw].open && k != key ==> v.pollers[e.fw].open[k] == w.pollers[e.fw].open[k])
      && (forall j :: j in w.db.sessions && j != id ==> v.db.sessions[j] == w.db.sessions[j])
      && CacheEntry(v.db, e.fw, key, v.pollers[e.fw].open[key]) && v.pollers[e.fw].open[key].id == id
      && v.pollers[e.fw].since == w.pollers[e.fw].since && w.pollers[e.fw].clock <= v.pollers[e.fw].clock
  {
    ContinueEffect(env, w, e);
  }

  lemma ContinueCached(env: Env, w: World, e: Event)
    requires Cached(w) && Enabled(w, e) && e.Clean() && e.Observe?
    requires SessionKey(e.flow) in w.pollers[e.fw].open
    ensures Cached(Step(env, w, e))
  {
    var key := SessionKey(e.flow);
    assert CacheEntry(w.db, e.fw, key, w.pollers[e.fw].open[key]);
    ContinueRows(env, w, e);
    OthersCached(w, Step(env, w, e), e.fw, key, w.pollers[e.fw].open[key].id);
  }

  /** Changing one tracked session and its row together keeps the cache exact. */
  lemma OthersCached(w: World, v: World, fw: string, key: string, id: int)
    requires Cached(w) && fw in w.pollers && key in w.pollers[fw].open && w.pollers[fw].open[key].id == id
    requires v.pollers.Keys == w.pollers.Keys && v.db.sessions.Keys == w.db.sessions.Keys
    requires v.pollers[fw].open.Keys == w.pollers[fw].open.Keys
    requires forall g :: g in w.pollers && g != fw ==> v.pollers[g] == w.pollers[g]
    requires forall k :: k in w.pollers[fw].open && k != key ==> v.pollers[fw].open[k] == w.pollers[fw].open[k]
    requires forall j :: j in w.db.sessions && j != id ==> v.db.sessions[j] == w.db.sessions[j]
    requires CacheEntry(v.db, fw, key, v.pollers[fw].open[key]) && v.pollers[fw].open[key].id == id
    requires v.pollers[fw].since == w.pollers[fw].since && w.pollers[fw].clock <= v.pollers[fw].clock
    ensures Cached(v)
  {
    assert CacheEntry(w.db, fw, key, w.pollers[fw].open[key]);
    forall g, k | g in v.pollers && k in v.pollers[g].open
      ensures CacheEntry(v.db, g, k, v.pollers[g].open[k])
    {
      if g != fw || k != key {
        assert CacheEntry(w.db, g, k, w.pollers[g].open[k]);
        assert w.pollers[g].open[k].id != id && v.pollers[g].open[k] == w.pollers[g].open[k];
      }
    }
    forall j | IsOpen(v.db, j)
      ensures CoveredRow(v.pollers, v.db.sessions[j], j)
    {
      if j != id { assert IsOpen(w.db, j) && CoveredRow(w.pollers, w.db.sessions[j], j); }
    }
  }

  lemma LoadCached(env: Env, w: World, e: Event)
    requires Sound(env, w) && Cached(w) && Enabled(w, e) && e.Load? && e.ok
    ensures Cached(Step(env, w, e))
    ensures e.fw in w.pollers ==>
      (&& LoadOpen(w.db, e.fw, e.now).Keys == w.pollers[e.fw].open.Keys
       && forall k :: k in w.pollers[e.fw].open ==>
            LoadOpen(w.db, e.fw, e.now)[k] == w.pollers[e.fw].open[k].(lastSampleAt := e.now))
  {
    var open := LoadOpen(w.db, e.fw, e.now);
    ScanOpenFinds(w.db, e.fw, Max(w.db.lastId, 0));
    var v := Step(env, w, e);
    forall k | k in open ensures CacheEntry(v.db, e.fw, k, open[k]) { }
    forall id | IsOpen(v.db, id) && v.db.sessions[id].fw == e.fw
      ensures var s := v.db.sessions[id]; s.key in open && open[s.key].id == id
    {
      var s := v.db.sessions[id];
      assert s.key in open && IsOpen(v.db, open[s.key].id);
    }
    if e.fw in w.pollers {
      forall k | k in w.pollers[e.fw].open
        ensures k in open && open[k] == w.pollers[e.fw].open[k].(lastSampleAt := e.now)
      {
        assert CacheEntry(w.db, e.fw, k, w.pollers[e.fw].open[k]);
      }
      forall k | k in open ensures k in w.pollers[e.fw].open { }
    }
  }

  lemma CloseCached(env: Env, w: World, e: Event)
    requires Sound(env, w) && Cached(w) && Enabled(w, e) && e.Close?
    ensures Cached(Step(env, w, e))
  {
    var v := Step(env, w, e);
    var open := w.pollers[e.fw].open;
    var doomed := Doomed(open, e.seen, e.failed);
    var ids := DoomedIds(open, e.seen, e.failed);
    assert forall fw, k :: fw in w.pollers && k in w.pollers[fw].open ==> CacheEntry(w.db, fw, k, w.pollers[fw].open[k]);
    forall fw, k | fw in v.pollers && k in v.pollers[fw].open
      ensures CacheEntry(v.db, fw, k, v.pollers[fw].open[k])
    {
      assert CacheEntry(w.db, fw, k, w.pollers[fw].open[k]);
      assert w.pollers[fw].open[k].id !in ids;
    }
    forall id | IsOpen(v.db, id)
      ensures CoveredRow(v.pollers, v.db.sessions[id], id)
    {
      assert IsOpen(w.db, id);
      var s := v.db.sessions[id];
      assert id !in ids;
      if s.fw == e.fw { assert s.key !in doomed; }
    }
  }

  lemma PruneCached(env: Env, w: World, e: Event)
    requires Sound(env, w) && Cached(w) && Enabled(w, e) && !e.ByPoller()
    ensures Cached(Step(env, w, e))
  {
    var v := Step(env, w, e);
    if !e.PruneStart? { assert TakesFirst(env.scan, Eligible(w.db, w.pruner.cut)); }
    forall fw, k | fw in v.pollers && k in v.pollers[fw].open
      ensures CacheEntry(v.db, fw, k, v.pollers[fw].open[k])
    {
      assert CacheEntry(w.db, fw, k, w.pollers[fw].open[k]);
    }
    assert forall id :: IsOpen(v.db, id) ==> IsOpen(w.db, id);
  }

  lemma StepCached(env: Env, w: World, e: Event)
    requires Sound(env, w) && Cached(w) && Recorded(w) && Enabled(w, e) && e.Clean()
    ensures Cached(Step(env, w, e))
  {
    if e.Load? { LoadCached(env, w, e); }
    else if e.Observe? {
      if SessionKey(e.flow) in w.pollers[e.fw].open { ContinueCached(env, w, e); } else { StartCached(env, w, e); }
    }
    else if e.Close? { CloseCached(env, w, e); }
    else { PruneCached(env, w, e); }
  }
}
