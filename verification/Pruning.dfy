// The two-statement prune loop against pollers that keep working between its statements.
// Everything here holds although store calls may fail (`calls` below ALL_CALLS, keys that fail to close).

module Pruning {
  import opened Base
  import opened Flows
  import opened Tables
  import opened TableFacts
  import opened Batches
  import opened Tracker

  // ----- What a poller may do to the tables, call by call ----------------------------

  /** What pollers guarantee the pruner: closed rows stay as they are, rows that appear or change are
      out of the cutoff's reach, and samples are only ever added, for rows that were not closed. */
  ghost predicate Rely(a: Db, b: Db, cut: int) {
    && a.lastId <= b.lastId
    && (forall id :: id in a.sessions ==> id in b.sessions)
    && (forall id :: id in a.sessions && a.sessions[id].closedAt.Some? ==> b.sessions[id] == a.sessions[id])
    && (forall id :: id in b.sessions && !(id in a.sessions && a.sessions[id].closedAt.Some?) ==> Safe(b.sessions[id], cut))
    && (forall id :: id in b.sessions && id !in a.sessions ==> a.lastId < id <= b.lastId)
    && |a.samples| <= |b.samples| && b.samples[..|a.samples|] == a.samples
    && (forall i :: |a.samples| <= i < |b.samples| ==>
          b.samples[i].sessionId in b.sessions
          && !(b.samples[i].sessionId in a.sessions && a.sessions[b.samples[i].sessionId].closedAt.Some?))
  }

  lemma RelyTransitive(a: Db, b: Db, c: Db, cut: int)
    requires Rely(a, b, cut) && Rely(b, c, cut)
    ensures Rely(a, c, cut)
  {
    assert c.samples[..|a.samples|] == c.samples[..|b.samples|][..|a.samples|];
    forall i | |a.samples| <= i < |c.samples|
      ensures c.samples[i].sessionId in c.sessions
      ensures !(c.samples[i].sessionId in a.sessions && a.sessions[c.samples[i].sessionId].closedAt.Some?)
    {
      if i < |b.samples| {
        assert c.samples[i] == c.samples[..|b.samples|][i] == b.samples[i];
      }
    }
  }

  /** Open rows stay open, under the same firewall and key. */
  ghost predicate KeepsOpen(a: Db, b: Db) {
    forall id :: IsOpen(a, id) ==> Tracks(b, a.sessions[id].fw, a.sessions[id].key, id)
  }

  lemma InsertSessionRely(db: Db, s: Session, cut: int)
    requires IdsBelow(db)
    ensures Rely(db, InsertSession(db, s), cut) && KeepsOpen(db, InsertSession(db, s))
  {
  }

  lemma UpdateSessionRely(db: Db, id: int, u: Refresh, cut: int)
    requires IsOpen(db, id)
    ensures Rely(db, UpdateSession(db, id, u), cut) && KeepsOpen(db, UpdateSession(db, id, u))
  {
  }

  lemma InsertSampleRely(db: Db, s: Sample, cut: int)
    requires IsOpen(db, s.sessionId)
    ensures Rely(db, InsertSample(db, s), cut) && KeepsOpen(db, InsertSample(db, s))
  {
  }

  lemma BumpRely(db: Db, b: Bucket, ip: string, at: int, d: int, isNew: bool, scope: Scope, cut: int)
    ensures Rely(db, Bump(db, b, ip, at, d, isNew, scope), cut) && KeepsOpen(db, Bump(db, b, ip, at, d, isNew, scope))
  {
  }

  /** Interference of that kind leaves the pruner's candidates, and their samples, alone. */
  lemma RelyKeepsEligible(a: Db, b: Db, cut: int)
    requires Rely(a, b, cut)
    ensures Eligible(b, cut) == Eligible(a, cut)
    ensures forall id :: id in Eligible(a, cut) ==> b.sessions[id] == a.sessions[id]
    ensures forall ids :: ids <= Eligible(a, cut) ==> CountIn(b.samples, ids) == CountIn(a.samples, ids)
    ensures forall ids :: ids <= Eligible(a, cut) ==> References(b.samples, ids) == References(a.samples, ids)
  {
    forall id ensures id in Eligible(b, cut) <==> id in Eligible(a, cut) {
      assert id in b.sessions && id !in a.sessions ==> Safe(b.sessions[id], cut);
    }
    forall ids | ids <= Eligible(a, cut)
      ensures CountIn(b.samples, ids) == CountIn(a.samples, ids)
      ensures References(b.samples, ids) == References(a.samples, ids)
    {
      var extra := b.samples[|a.samples|..];
      assert b.samples == a.samples + extra;
      forall s | s in extra ensures s.sessionId !in ids {
        var i :| 0 <= i < |extra| && extra[i] == s;
        assert b.samples[|a.samples| + i] == s;
      }
      CountInExtra(a.samples, extra, ids);
      CountNone(a.samples, ids);
      CountNone(b.samples, ids);
    }
  }

  // ----- What holds in every run, failing store calls included ------------------------

  ghost predicate IdsBelow(db: Db) {
    0 <= db.lastId && forall id :: id in db.sessions ==> 1 <= id <= db.lastId
  }

  /** A poller's map names open rows of its own firewall, each under the row's own key. */
  ghost predicate TracksOpen(db: Db, fw: string, open: map<string, Tracked>) {
    forall k :: k in open ==> Tracks(db, fw, k, open[k].id)
  }

  predicate Tracks(db: Db, fw: string, key: string, id: int) {
    IsOpen(db, id) && db.sessions[id].fw == fw && db.sessions[id].key == key
  }

  ghost predicate Anchored(db: Db) {
    forall s :: s in db.samples ==> s.sessionId in db.sessions
  }

  /** Between its two statements the pruner's batch has no samples left. */
  ghost predicate BatchBare(env: Env, db: Db, p: Pruner) {
    p.Mid? ==> !References(db.samples, env.scan(Eligible(db, p.cut)))
  }

  ghost predicate Sound(env: Env, w: World) {
    && FirstBatch(env.scan)
    && IdsBelow(w.db)
    && Anchored(w.db)
    && (forall fw :: fw in w.pollers ==> TracksOpen(w.db, fw, w.pollers[fw].open))
    && BatchBare(env, w.db, w.pruner)
    && !w.pruner.Failed?
    && (w.pruner.Done? ==> Eligible(w.db, w.pruner.cut) == {})
  }

  /** Two keys never lead to one row: tracked ids are distinct. */
  lemma TrackedDistinct(db: Db, fw: string, open: map<string, Tracked>, j: string, k: string)
    requires TracksOpen(db, fw, open) && j in open && k in open && open[j].id == open[k].id
    ensures j == k
  {
  }

  lemma {:induction false} ScanOpenFinds(db: Db, fw: string, n: nat)
    ensures forall k :: k in ScanOpen(db, fw, n) ==>
              var id := ScanOpen(db, fw, n)[k];
              1 <= id <= n && IsOpen(db, id) && db.sessions[id].fw == fw && db.sessions[id].key == k
    ensures forall id :: 1 <= id <= n && IsOpen(db, id) && db.sessions[id].fw == fw ==>
              db.sessions[id].key in ScanOpen(db, fw, n) && ScanOpen(db, fw, n)[db.sessions[id].key] >= id
  {
    if n > 0 { ScanOpenFinds(db, fw, n - 1); }
  }

  lemma LoadTracksOpen(db: Db, fw: string, now: int)
    ensures TracksOpen(db, fw, LoadOpen(db, fw, now))
  {
    ScanOpenFinds(db, fw, Max(db.lastId, 0));
  }

  /** Any number of successful calls of one applyFlow keeps the guarantee: a tracked session... */
  lemma ExtendRely(st: PollState, key: string, id: int, u: Refresh, b: Bucket, ip: string, now: int, delta: int,
                   scope: Scope, log: Option<Sample>, next: Tracked, calls: nat, cut: int)
    requires IsOpen(st.db, id) && (log.Some? ==> log.value.sessionId == id)
    ensures var v := Extend(st, key, id, u, b, ip, now, delta, scope, log, next, calls);
      Rely(st.db, v.db, cut) && KeepsOpen(st.db, v.db)
  {
    var db1 := UpdateSession(st.db, id, u);
    var db2 := Bump(db1, b, ip, now, delta, false, scope);
    if calls == 1 {
      UpdateSessionRely(st.db, id, u, cut);
    } else if calls > 1 {
      assert Rely(st.db, db2, cut) && KeepsOpen(st.db, db2) by {
        UpdateSessionRely(st.db, id, u, cut);
        BumpRely(db1, b, ip, now, delta, false, scope, cut);
        RelyTransitive(st.db, db1, db2, cut);
      }
      if calls > 2 && log.Some? {
        InsertSampleRely(db2, log.value, cut);
        RelyTransitive(st.db, db2, InsertSample(db2, log.value), cut);
      }
    }
  }

  /** The guarantee, and a row for the key once the third call has succeeded. */
  ghost predicate Grown(a: Db, b: Db, fw: string, key: string, calls: nat, cut: int) {
    Rely(a, b, cut) && KeepsOpen(a, b) && (calls > 2 ==> Tracks(b, fw, key, a.lastId + 1))
  }

  /** ... or a new one. */
  lemma BeginRely(st: PollState, key: string, row: Session, s: Sample, b: Bucket, ip: string, now: int, bytes: int,
                  scope: Scope, next: Tracked, asks: seq<Ask>, calls: nat, cut: int)
    requires IdsBelow(st.db) && s.sessionId == st.db.lastId + 1
    ensures Grown(st.db, Begin(st, key, row, s, b, ip, now, bytes, scope, next, asks, calls).db, row.fw, row.key, calls, cut)
  {
    var db1 := InsertSession(st.db, row);
    var db2 := InsertSample(db1, s);
    var db3 := Bump(db2, b, ip, now, bytes, true, scope);
    if calls > 0 {
      InsertSessionRely(st.db, row, cut);
      if calls == 2 {
        InsertSampleRely(db1, s, cut);
        RelyTransitive(st.db, db1, db2, cut);
      } else if calls > 2 {
        assert Rely(db1, db3, cut) && KeepsOpen(db1, db3) by {
          InsertSampleRely(db1, s, cut);
          BumpRely(db2, b, ip, now, bytes, true, scope, cut);
          RelyTransitive(db1, db2, db3, cut);
        }
        RelyTransitive(st.db, db1, db3, cut);
      }
    }
  }

  lemma ContinueFlowRely(env: Env, fw: string, st: PollState, f: Flow, key: string, now: int, calls: nat, cut: int)
    requires key in st.open && IsOpen(st.db, st.open[key].id)
    ensures var v := ContinueFlow(env, fw, st, f, key, now, calls);
      Rely(st.db, v.db, cut) && KeepsOpen(st.db, v.db)
  {
    var t := st.open[key];
    ExtendRely(st, key, t.id, RefreshOf(f, now), BucketOf(fw, f), f.originDst, now, Delta(t.Bytes(), f.Bytes()),
               ScopeOf(env, f), LogRow(fw, t, f, now), NextTracked(t, f, now), calls, cut);
  }

  lemma StartFlowRely(env: Env, fw: string, st: PollState, f: Flow, key: string, now: int, calls: nat, cut: int)
    requires IdsBelow(st.db)
    ensures Grown(st.db, StartFlow(env, fw, st, f, key, now, calls).db, fw, key, calls, cut)
  {
    var id := st.db.lastId + 1;
    var row, first := NewSession(env, fw, key, f, now), SampleOf(id, fw, Start, now, f);
    assert row.fw == fw && row.key == key && first.sessionId == id;
    var b, bytes, scope, next, asks := BucketOf(fw, f), f.Bytes(), ScopeOf(env, f), TrackedOf(id, f, now), Asks(env, fw, f);
    assert StartFlow(env, fw, st, f, key, now, calls)
        == Begin(st, key, row, first, b, f.originDst, now, bytes, scope, next, asks, calls);
    BeginRely(st, key, row, first, b, f.originDst, now, bytes, scope, next, asks, calls, cut);
  }

  lemma ContinueOpen(env: Env, fw: string, st: PollState, f: Flow, key: string, now: int, calls: nat)
    requires key in st.open
    ensures var open := ContinueFlow(env, fw, st, f, key, now, calls).open;
      open.Keys == st.open.Keys && forall k :: k in open ==> open[k].id == st.open[k].id
  {
  }

  lemma StartOpen(env: Env, fw: string, st: PollState, f: Flow, key: string, now: int, calls: nat)
    ensures var open := StartFlow(env, fw, st, f, key, now, calls).open;
      open == st.open || (calls > 2 && open == st.open[key := TrackedOf(st.db.lastId + 1, f, now)])
  {
  }

  lemma TracksSame(a: Db, b: Db, fw: string, open: map<string, Tracked>, after: map<string, Tracked>)
    requires KeepsOpen(a, b) && TracksOpen(a, fw, open)
    requires after.Keys == open.Keys && forall k :: k in after ==> after[k].id == open[k].id
    ensures TracksOpen(b, fw, after)
  {
    forall k | k in after ensures Tracks(b, fw, k, after[k].id) {
      assert Tracks(a, fw, k, open[k].id);
    }
  }

  lemma TracksNew(a: Db, b: Db, fw: string, open: map<string, Tracked>, key: string, t: Tracked)
    requires KeepsOpen(a, b) && TracksOpen(a, fw, open) && Tracks(b, fw, key, t.id)
    ensures TracksOpen(b, fw, open[key := t])
  {
    var after := open[key := t];
    forall k | k in after ensures Tracks(b, fw, k, after[k].id) {
      if k != key { assert Tracks(a, fw, k, open[k].id); }
    }
  }

  lemma ContinueTracks(env: Env, fw: string, st: PollState, f: Flow, key: string, now: int, calls: nat, cut: int)
    requires TracksOpen(st.db, fw, st.open) && key in st.open
    ensures var v := ContinueFlow(env, fw, st, f, key, now, calls);
      Rely(st.db, v.db, cut) && KeepsOpen(st.db, v.db) && TracksOpen(v.db, fw, v.open)
  {
    assert Tracks(st.db, fw, key, st.open[key].id);
    ContinueFlowRely(env, fw, st, f, key, now, calls, cut);
    ContinueOpen(env, fw, st, f, key, now, calls);
    var v := ContinueFlow(env, fw, st, f, key, now, calls);
    TracksSame(st.db, v.db, fw, st.open, v.open);
  }

  lemma StartTracks(env: Env, fw: string, st: PollState, f: Flow, key: string, now: int, calls: nat, cut: int)
    requires IdsBelow(st.db) && TracksOpen(st.db, fw, st.open)
    ensures var v := StartFlow(env, fw, st, f, key, now, calls);
      Rely(st.db, v.db, cut) && KeepsOpen(st.db, v.db) && TracksOpen(v.db, fw, v.open)
  {
    StartFlowRely(env, fw, st, f, key, now, calls, cut);
    StartOpen(env, fw, st, f, key, now, calls);
    var v, t := StartFlow(env, fw, st, f, key, now, calls), TrackedOf(st.db.lastId + 1, f, now);
    if v.open == st.open {
      TracksSame(st.db, v.db, fw, st.open, v.open);
    } else {
      TracksNew(st.db, v.db, fw, st.open, key, t);
    }
  }

  lemma ApplyFlowRely(env: Env, fw: string, st: PollState, f: Flow, key: string, now: int, calls: nat, cut: int)
    requires IdsBelow(st.db) && TracksOpen(st.db, fw, st.open)
    ensures var v := ApplyFlow(env, fw, st, f, key, now, calls);
      Rely(st.db, v.db, cut) && KeepsOpen(st.db, v.db) && TracksOpen(v.db, fw, v.open)
  {
    if key in st.open {
      ContinueTracks(env, fw, st, f, key, now, calls, cut);
    } else {
      StartTracks(env, fw, st, f, key, now, calls, cut);
    }
  }

  lemma CloseMissingRely(fw: string, st: PollState, seen: set<string>, failed: set<string>, now: int, cut: int)
    requires IdsBelow(st.db) && TracksOpen(st.db, fw, st.open)
    ensures cut <= Unix(now) ==> Rely(st.db, CloseMissing(st, seen, failed, now).db, cut)
    ensures TracksOpen(CloseMissing(st, seen, failed, now).db, fw, CloseMissing(st, seen, failed, now).open)
    ensures forall g: string, open: map<string, Tracked> :: g != fw && TracksOpen(st.db, g, open) ==>
              TracksOpen(CloseMissing(st, seen, failed, now).db, g, open)
  {
    assert forall k :: k in st.open ==> Tracks(st.db, fw, k, st.open[k].id);
    forall g: string, open: map<string, Tracked>, k: string | g != fw && TracksOpen(st.db, g, open) && k in open
      ensures Tracks(CloseMissing(st, seen, failed, now).db, g, k, open[k].id)
    {
      assert Tracks(st.db, g, k, open[k].id);
    }
  }

  // ----- One step --------------------------------------------------------------------

  lemma PollerStepRely(env: Env, w: World, e: Event, cut: int)
    requires Sound(env, w) && e.ByPoller() && Enabled(w, e) && cut <= Unix(e.now)
    ensures Rely(w.db, Step(env, w, e).db, cut)
  {
    if e.Observe? {
      ApplyFlowRely(env, e.fw, View(w, e.fw), e.flow, SessionKey(e.flow), e.now, e.calls, cut);
    } else if e.Close? {
      CloseMissingRely(e.fw, View(w, e.fw), e.seen, e.failed, e.now, cut);
    }
  }

  lemma RelyKeepsSound(a: Db, b: Db, cut: int)
    requires Rely(a, b, cut) && IdsBelow(a) && Anchored(a)
    ensures IdsBelow(b) && Anchored(b)
  {
    forall s | s in b.samples ensures s.sessionId in b.sessions {
      var i :| 0 <= i < |b.samples| && b.samples[i] == s;
      if i < |a.samples| { assert b.samples[..|a.samples|][i] == s; assert s in a.samples; }
    }
  }

  lemma PollerStepTracks(env: Env, w: World, e: Event)
    requires Sound(env, w) && e.ByPoller() && Enabled(w, e)
    ensures var v := Step(env, w, e); forall fw :: fw in v.pollers ==> TracksOpen(v.db, fw, v.pollers[fw].open)
  {
    var v := Step(env, w, e);
    match e
    case Load(fw, now, _) =>
      LoadTracksOpen(w.db, fw, now);
    case Observe(fw, f, now, calls) =>
      ApplyFlowRely(env, fw, View(w, fw), f, SessionKey(f), now, calls, Unix(now));
      forall g | g in v.pollers && g != fw ensures TracksOpen(v.db, g, v.pollers[g].open) {
        assert forall k :: k in w.pollers[g].open ==> Tracks(w.db, g, k, w.pollers[g].open[k].id);
      }
    case Close(fw, seen, failed, now) =>
      CloseMissingRely(fw, View(w, fw), seen, failed, now, Unix(now));
  }

  lemma PollerStepSound(env: Env, w: World, e: Event)
    requires Sound(env, w) && e.ByPoller() && Enabled(w, e)
    ensures Sound(env, Step(env, w, e))
  {
    var v := Step(env, w, e);
    assert v.pruner == w.pruner;
    PollerStepRely(env, w, e, Unix(e.now));
    RelyKeepsSound(w.db, v.db, Unix(e.now));
    PollerStepTracks(env, w, e);
    if !w.pruner.Idle? { PollerStepRely(env, w, e, w.pruner.cut); }
    PrunerStands(env, w.db, v.db, w.pruner);
  }

  lemma PrunerStands(env: Env, a: Db, b: Db, p: Pruner)
    requires IdsBelow(a) && Anchored(a) && BatchBare(env, a, p) && (p.Done? ==> Eligible(a, p.cut) == {})
    requires FirstBatch(env.scan) && (!p.Idle? ==> Rely(a, b, p.cut))
    ensures BatchBare(env, b, p) && (p.Done? ==> Eligible(b, p.cut) == {})
  {
    if !p.Idle? {
      RelyKeepsEligible(a, b, p.cut);
      assert TakesFirst(env.scan, Eligible(a, p.cut));
    }
  }

  /** What a statement of the pruner leaves as it is. */
  ghost predicate Untouched(w: World, v: World, id: int) {
    && v.db.usage == w.db.usage && v.db.dst == w.db.dst && v.db.lastId == w.db.lastId
    && v.pollers == w.pollers && v.asked == w.asked && v.hist == w.hist
    && (id in v.db.sessions <==> id in w.db.sessions)
    && (id in w.db.sessions ==> v.db.sessions[id] == w.db.sessions[id])
    && SamplesOf(v.db.samples, id) == SamplesOf(w.db.samples, id)
  }

  lemma SamplesUntouched(env: Env, w: World, id: int)
    requires FirstBatch(env.scan) && w.pruner.Head? && id !in Eligible(w.db, w.pruner.cut)
    ensures Untouched(w, Step(env, w, PruneSamples), id)
  {
    var batch := env.scan(Eligible(w.db, w.pruner.cut));
    assert TakesFirst(env.scan, Eligible(w.db, w.pruner.cut));
    SamplesEffect(env, w);
    DropUntouched(w, Step(env, w, PruneSamples), batch, id);
  }

  lemma DropUntouched(w: World, v: World, batch: set<int>, id: int)
    requires v.db == DeleteSamples(w.db, batch) && id !in batch
    requires v.pollers == w.pollers && v.asked == w.asked && v.hist == w.hist
    ensures Untouched(w, v, id)
  {
    SamplesOfDrop(w.db.samples, batch, id);
  }

  /** What the first statement does. */
  lemma SamplesEffect(env: Env, w: World)
    requires w.pruner.Head?
    ensures var v := Step(env, w, PruneSamples); var batch := env.scan(Eligible(w.db, w.pruner.cut)); var p := w.pruner;
      && v.pollers == w.pollers && v.asked == w.asked && v.hist == w.hist
      && v.db == DeleteSamples(w.db, batch)
      && v.pruner == Mid(p.cut, p.sessions, p.samples + |w.db.samples| - |v.db.samples|, p.rounds)
  {
  }

  lemma SessionsUntouched(env: Env, w: World, id: int)
    requires FirstBatch(env.scan) && w.pruner.Mid? && id !in Eligible(w.db, w.pruner.cut)
    ensures Untouched(w, Step(env, w, PruneSessions), id)
  {
    assert TakesFirst(env.scan, Eligible(w.db, w.pruner.cut));
    SessionsEffect(env, w);
  }

  /** What the second statement does: nothing but fail, or delete its batch of rows. */
  lemma SessionsEffect(env: Env, w: World)
    requires w.pruner.Mid?
    ensures var v := Step(env, w, PruneSessions); var batch := env.scan(Eligible(w.db, w.pruner.cut)); var p := w.pruner;
      && v.pollers == w.pollers && v.asked == w.asked && v.hist == w.hist
      && v.db == (if v.pruner.Failed? then w.db else DeleteSessions(w.db, batch))
      && v.pruner == if References(w.db.samples, batch) then Failed(p.cut, p.sessions, p.samples, p.rounds)
                     else if |batch| < BATCH then Done(p.cut, p.sessions + |batch|, p.samples, p.rounds + 1)
                     else Head(p.cut, p.sessions + |batch|, p.samples, p.rounds + 1)
  {
  }

  /** The pruner's statements leave everything alone that the cutoff does not reach. */
  lemma PruneTouchesOnlyEligible(env: Env, w: World, e: Event, id: int)
    requires FirstBatch(env.scan) && !e.ByPoller() && Enabled(w, e)
    requires (e.PruneSamples? || e.PruneSessions?) ==> !Overdue(w.db, id, w.pruner.cut)
    ensures Untouched(w, Step(env, w, e), id)
  {
    if e.PruneSamples? || e.PruneSessions? { EligibleIff(w.db, w.pruner.cut); }
    if e.PruneSamples? { SamplesUntouched(env, w, id); }
    else if e.PruneSessions? { SessionsUntouched(env, w, id); }
  }

  lemma PruneSamplesSound(env: Env, w: World)
    requires Sound(env, w) && w.pruner.Head?
    ensures Sound(env, Step(env, w, PruneSamples))
  {
    var v := Step(env, w, PruneSamples);
    var batch := env.scan(Eligible(w.db, w.pruner.cut));
    DropMembers(w.db.samples, batch);
    assert Eligible(v.db, w.pruner.cut) == Eligible(w.db, w.pruner.cut);
    assert forall i :: 0 <= i < |v.db.samples| ==> v.db.samples[i] in v.db.samples;
    forall fw | fw in v.pollers ensures TracksOpen(v.db, fw, v.pollers[fw].open) {
      assert forall k :: k in w.pollers[fw].open ==> Tracks(w.db, fw, k, w.pollers[fw].open[k].id);
    }
  }

  lemma PruneSessionsSound(env: Env, w: World)
    requires Sound(env, w) && w.pruner.Mid?
    ensures Sound(env, Step(env, w, PruneSessions))
  {
    var v := Step(env, w, PruneSessions);
    var eligible := Eligible(w.db, w.pruner.cut);
    var batch := env.scan(eligible);
    assert TakesFirst(env.scan, eligible);
    assert Eligible(v.db, w.pruner.cut) == eligible - batch;
    assert |eligible - batch| == |eligible| - |batch|;
    DeleteSessionsSound(w.db, batch);
    forall fw | fw in v.pollers ensures TracksOpen(v.db, fw, v.pollers[fw].open) {
      DeleteSessionsTracks(w.db, batch, fw, w.pollers[fw].open);
    }
  }

  lemma DeleteSessionsSound(db: Db, batch: set<int>)
    requires IdsBelow(db) && Anchored(db) && !References(db.samples, batch)
    ensures IdsBelow(DeleteSessions(db, batch)) && Anchored(DeleteSessions(db, batch))
  {
    forall s | s in db.samples ensures s.sessionId !in batch {
      var i :| 0 <= i < |db.samples| && db.samples[i] == s;
    }
  }

  lemma DeleteSessionsTracks(db: Db, batch: set<int>, fw: string, open: map<string, Tracked>)
    requires TracksOpen(db, fw, open) && forall id :: id in batch ==> !IsOpen(db, id)
    ensures TracksOpen(DeleteSessions(db, batch), fw, open)
  {
    assert forall k :: k in open ==> Tracks(db, fw, k, open[k].id);
  }

  lemma PruneStepSound(env: Env, w: World, e: Event)
    requires Sound(env, w) && !e.ByPoller() && Enabled(w, e)
    ensures Sound(env, Step(env, w, e))
  {
    match e
    case PruneSamples => PruneSamplesSound(env, w);
    case PruneSessions => PruneSessionsSound(env, w);
    case PruneStart(_) =>
    case PruneFails =>
  }

  /** Every run keeps it, failing loads, poller calls and prune statements included: each sample refers to a session that
      exists, each tracked key to an open row of its own, and no prune is ever refused by the foreign key. */
  lemma {:induction false} RunSound(env: Env, w: World, events: seq<Event>)
    requires Sound(env, w)
    ensures Sound(env, Run(env, w, events))
  {
    if events != [] {
      var n := |events| - 1;
      RunSound(env, w, events[..n]);
      var v := Run(env, w, events[..n]);
      if Enabled(v, events[n]) {
        if events[n].ByPoller() { PollerStepSound(env, v, events[n]); } else { PruneStepSound(env, v, events[n]); }
      }
    }
  }

  lemma StartSound(env: Env)
    requires FirstBatch(env.scan)
    ensures Sound(env, START)
  {
  }

  /** So it holds of every run from the empty database. */
  lemma AlwaysSound(env: Env, events: seq<Event>)
    requires FirstBatch(env.scan)
    ensures Sound(env, Run(env, START, events))
  {
    StartSound(env);
    RunSound(env, START, events);
  }

  // ----- A whole prune, interleaved with anything ------------------------------------

  /** How far the prune that began in world `a` has come in world `w`: what it has deleted and what it
      still has to delete always make up what was eligible when it began. */
  ghost predicate Progress(a: World, w: World, cut: int) {
    var e0 := Eligible(a.db, cut);
    var e := Eligible(w.db, cut);
    && (w.pruner.Head? || w.pruner.Mid? || w.pruner.Done? || w.pruner.Aborted?)
    && w.pruner.cut == cut
    && e <= e0
    && (forall id :: id in e0 && id !in e ==> id !in w.db.sessions)
    && a.db.lastId <= w.db.lastId
    && w.pruner.sessions + |e| == |e0|
    && w.pruner.samples + CountIn(w.db.samples, e) == CountIn(a.db.samples, e0)
    && (w.pruner.Done? ==> e == {} && w.pruner.rounds == |e0| / BATCH + 1)
    && (!w.pruner.Done? ==> w.pruner.sessions == BATCH * w.pruner.rounds)
    && (forall id :: id in a.db.sessions && id !in e0 ==> id in w.db.sessions)
    && (forall s :: s in a.db.samples && s.sessionId !in e0 ==> s in w.db.samples)
  }

  /** What a prune begun in `a` has done when it returns, pollers at work all the while: every row that was closed before the
      cutoff is gone and none such is left, every other row and its samples are there, and the counts are exact. */
  ghost predicate Finished(a: World, w: World, cut: int) {
    var due := set id | id in a.db.sessions && Overdue(a.db, id, cut);
    && w.pruner.Done?
    && (forall id :: id in w.db.sessions ==> Safe(w.db.sessions[id], cut))
    && (forall id :: id in a.db.sessions ==> (id in w.db.sessions <==> Safe(a.db.sessions[id], cut)))
    && (forall s :: s in a.db.samples && !Overdue(a.db, s.sessionId, cut) ==> s in w.db.samples)
    && w.pruner.sessions == |due| && w.pruner.samples == CountIn(a.db.samples, due)
    && w.pruner.rounds == |due| / 5000 + 1
  }

  lemma DoneIsFinished(env: Env, a: World, w: World, cut: int)
    requires Progress(a, w, cut) && w.pruner.Done?
    ensures Finished(a, w, cut)
  {
    EligibleIff(a.db, cut);
    EligibleIff(w.db, cut);
    assert Eligible(a.db, cut) == set id | id in a.db.sessions && Overdue(a.db, id, cut);
    DropNothing(w.db.samples);
    forall id | id in w.db.sessions ensures Safe(w.db.sessions[id], cut) {
      assert id !in Eligible(w.db, cut);
    }
  }

  lemma PollerKeepsProgress(env: Env, a: World, w: World, e: Event, cut: int)
    requires Sound(env, a) && Sound(env, w) && Progress(a, w, cut) && e.ByPoller() && Enabled(w, e)
    ensures Progress(a, Step(env, w, e), cut)
  {
    PollerStepRely(env, w, e, cut);
    RelyKeepsEligible(w.db, Step(env, w, e).db, cut);
  }

  lemma SamplesGone(a: World, w: World, v: World, batch: set<int>, cut: int)
    requires Progress(a, w, cut) && w.pruner.Head? && v.db == DeleteSamples(w.db, batch) && batch <= Eligible(w.db, cut)
    requires var p := w.pruner; v.pruner == Mid(p.cut, p.sessions, p.samples + |w.db.samples| - |v.db.samples|, p.rounds)
    ensures Progress(a, v, cut)
  {
    var eligible := Eligible(w.db, cut);
    CountDrop(w.db.samples, batch, eligible);
    DropMembers(w.db.samples, batch);
    assert Eligible(v.db, cut) == eligible;
  }

  lemma SamplesKeepProgress(env: Env, a: World, w: World, cut: int)
    requires Sound(env, w) && Progress(a, w, cut) && w.pruner.Head?
    ensures Progress(a, Step(env, w, PruneSamples), cut)
  {
    var v, batch := Step(env, w, PruneSamples), env.scan(Eligible(w.db, cut));
    assert TakesFirst(env.scan, Eligible(w.db, cut));
    SamplesEffect(env, w);
    SamplesGone(a, w, v, batch, cut);
  }

  lemma SessionsKeepProgress(env: Env, a: World, w: World, cut: int)
    requires Sound(env, w) && Progress(a, w, cut) && w.pruner.Mid?
    ensures Progress(a, Step(env, w, PruneSessions), cut)
  {
    var v, eligible := Step(env, w, PruneSessions), Eligible(w.db, cut);
    var batch := env.scan(eligible);
    assert TakesFirst(env.scan, eligible);
    SessionsEffect(env, w);
    RowsGone(a, w, v, batch, cut);
  }

  lemma RowsGone(a: World, w: World, v: World, batch: set<int>, cut: int)
    requires Progress(a, w, cut) && w.pruner.Mid? && v.db == DeleteSessions(w.db, batch)
    requires batch <= Eligible(w.db, cut) && |batch| == Min(|Eligible(w.db, cut)|, BATCH)
    requires !References(w.db.samples, batch)
    requires var p := w.pruner;
      v.pruner == if |batch| < BATCH then Done(p.cut, p.sessions + |batch|, p.samples, p.rounds + 1)
                  else Head(p.cut, p.sessions + |batch|, p.samples, p.rounds + 1)
    ensures Progress(a, v, cut)
  {
    var eligible := Eligible(w.db, cut);
    assert Eligible(v.db, cut) == eligible - batch;
    assert |eligible - batch| == |eligible| - |batch|;
    CountMinus(w.db.samples, batch, eligible);
    if |batch| < BATCH {
      RoundCount(|Eligible(a.db, cut)|, w.pruner.rounds, |batch|);
    }
  }

  lemma PruneKeepsProgress(env: Env, a: World, w: World, e: Event, cut: int)
    requires Sound(env, w) && Progress(a, w, cut)
    requires (e.PruneSamples? || e.PruneSessions? || e.PruneFails?) && Enabled(w, e)
    ensures Progress(a, Step(env, w, e), cut)
  {
    if e.PruneSamples? { SamplesKeepProgress(env, a, w, cut); }
    else if e.PruneSessions? { SessionsKeepProgress(env, a, w, cut); }
  }

  lemma RoundCount(total: nat, rounds: nat, last: nat)
    requires total == BATCH * rounds + last && last < BATCH
    ensures total / BATCH == rounds
  {
  }

  /** PruneOlderThan under any interleaving of its statements with pollers, restarts and failing store calls: at every
      moment, also when one of its own statements fails and ends it, the counts are exact and what is gone and what is
      left make up what was eligible; when it comes to its end it took |eligible| / 5000 + 1 rounds and left nothing. */
  lemma {:induction false} PruneInterleaved(env: Env, a: World, events: seq<Event>, cut: int)
    requires Sound(env, a) && a.pruner == Head(cut, 0, 0, 0)
    requires forall e :: e in events ==> !e.PruneStart?
    ensures Progress(a, Run(env, a, events), cut)
    ensures Sound(env, Run(env, a, events))
    ensures Run(env, a, events).pruner.Done? ==> Finished(a, Run(env, a, events), cut)
  {
    RunSound(env, a, events);
    if events != [] {
      var n := |events| - 1;
      assert events[n] in events;
      PruneInterleaved(env, a, events[..n], cut);
      var v := Run(env, a, events[..n]);
      if Enabled(v, events[n]) {
        if events[n].ByPoller() {
          PollerKeepsProgress(env, a, v, events[n], cut);
        } else {
          PruneKeepsProgress(env, a, v, events[n], cut);
        }
      }
    }
    if Run(env, a, events).pruner.Done? { DoneIsFinished(env, a, Run(env, a, events), cut); }
  }

  /** The loop ends: a round that is not the last removes exactly 5000 eligible sessions. */
  lemma NonFinalRound(env: Env, w: World)
    requires Sound(env, w) && w.pruner.Mid?
    ensures var v := Step(env, w, PruneSessions);
      && !v.pruner.Failed?
      && (v.pruner.Head? ==> |Eligible(v.db, w.pruner.cut)| == |Eligible(w.db, w.pruner.cut)| - 5000)
      && (v.pruner.Done? <==> |Eligible(w.db, w.pruner.cut)| < 5000)
  {
    var eligible := Eligible(w.db, w.pruner.cut);
    var batch := env.scan(eligible);
    assert TakesFirst(env.scan, eligible);
    var v := Step(env, w, PruneSessions);
    assert Eligible(v.db, w.pruner.cut) == eligible - batch;
    assert |eligible - batch| == |eligible| - |batch|;
  }

  /** Why both statements must scan in one order: when every eligible session still has a sample, the second
      delete passes the foreign key exactly when it picks only sessions the first one picked. */
  lemma SecondDeleteSucceedsIff(db: Db, first: set<int>, second: set<int>)
    requires forall id :: id in second ==> SamplesOf(db.samples, id) != []
    ensures !References(DeleteSamples(db, first).samples, second) <==> (forall id :: id in second ==> id in first)
  {
    var left := DropSamples(db.samples, first);
    DropMembers(db.samples, first);
    if id :| id in second && id !in first {
      SamplesOfNone(db.samples, id);
      var i :| 0 <= i < |db.samples| && db.samples[i].sessionId in {id};
      assert db.samples[i] in left;
      var j :| 0 <= j < |left| && left[j] == db.samples[i];
      assert left[j].sessionId in second;
    } else {
      forall i | 0 <= i < |left| ensures left[i].sessionId !in second {
        assert left[i] in left;
      }
    }
  }

  // ----- One call or its statements ----------------------------------------------------

  /** The deletes of so many rounds, and one more if `half`. */
  function Deletes(rounds: nat, half: bool): seq<Event>
    decreases rounds, half
  {
    if half then Deletes(rounds, false) + [PruneSamples]
    else if rounds == 0 then [] else Deletes(rounds - 1, true) + [PruneSessions]
  }

  function Prunes(cut: int, rounds: nat, half: bool): seq<Event> {
    [PruneStart(cut)] + Deletes(rounds, half)
  }

  /** Where those deletes lead from `w`: what PruneAt says of the tables and of both counts, and nothing else changes. */
  ghost predicate Reaches(env: Env, w: World, v: World, cut: int, rounds: nat, half: bool) {
    var p := PruneAt(env.scan, w.db, cut, rounds, half);
    && v.db == p.db && v.pollers == w.pollers && v.asked == w.asked && v.hist == w.hist
    && v.pruner == if half then Mid(cut, p.sessions, p.samples, rounds)
                   else if rounds == PruneRounds(w.db, cut) then Done(cut, p.sessions, p.samples, rounds)
                   else Head(cut, p.sessions, p.samples, rounds)
  }

  lemma FirstReaches(env: Env, w: World, v: World, cut: int, rounds: nat)
    requires Reaches(env, w, v, cut, rounds, false) && rounds < PruneRounds(w.db, cut)
    ensures Reaches(env, w, Step(env, v, PruneSamples), cut, rounds, true)
  {
    SamplesEffect(env, v);
  }

  lemma SecondReaches(env: Env, w: World, v: World, cut: int, rounds: nat)
    requires Reaches(env, w, v, cut, rounds, true) && rounds < PruneRounds(w.db, cut) && Sound(env, v)
    ensures Reaches(env, w, Step(env, v, PruneSessions), cut, rounds + 1, false)
  {
    SessionsEffect(env, v);
    ShortBatch(env.scan, w.db, cut, rounds);
  }

  lemma DeletesSnoc(env: Env, w: World, cut: int, rounds: nat)
    ensures Run(env, w, Prunes(cut, rounds, true)) == Step(env, Run(env, w, Prunes(cut, rounds, false)), PruneSamples)
    ensures Run(env, w, Prunes(cut, rounds + 1, false)) == Step(env, Run(env, w, Prunes(cut, rounds, true)), PruneSessions)
  {
    var a, b, c := Prunes(cut, rounds, false), Prunes(cut, rounds, true), Prunes(cut, rounds + 1, false);
    assert b == a + [PruneSamples] && b[..|b| - 1] == a;
    assert c == b + [PruneSessions] && c[..|c| - 1] == b;
  }

  lemma StartReaches(env: Env, w: World, cut: int)
    requires !w.pruner.Head? && !w.pruner.Mid?
    ensures Reaches(env, w, Run(env, w, Prunes(cut, 0, false)), cut, 0, false)
  {
    var es := Prunes(cut, 0, false);
    assert es == [PruneStart(cut)] && es[..0] == [];
  }

  lemma {:induction false} DeletesReach(env: Env, w: World, cut: int, rounds: nat, half: bool)
    requires Sound(env, w) && !w.pruner.Head? && !w.pruner.Mid?
    requires rounds <= PruneRounds(w.db, cut) && (half ==> rounds < PruneRounds(w.db, cut))
    ensures Reaches(env, w, Run(env, w, Prunes(cut, rounds, half)), cut, rounds, half)
    decreases rounds, half
  {
    if half {
      DeletesReach(env, w, cut, rounds, false);
      DeletesSnoc(env, w, cut, rounds);
      FirstReaches(env, w, Run(env, w, Prunes(cut, rounds, false)), cut, rounds);
    } else if rounds > 0 {
      var n := rounds - 1;
      DeletesReach(env, w, cut, n, true);
      DeletesSnoc(env, w, cut, n);
      RunSound(env, w, Prunes(cut, n, true));
      SecondReaches(env, w, Run(env, w, Prunes(cut, n, true)), cut, n);
    } else {
      StartReaches(env, w, cut);
    }
  }

  lemma FailsReached(env: Env, w: World, v: World, cut: int, rounds: nat, half: bool)
    requires Reaches(env, w, v, cut, rounds, half) && (half ==> rounds < PruneRounds(w.db, cut))
    ensures var p := PruneAt(env.scan, w.db, cut, rounds, half);
      && (v.pruner.Done? <==> rounds == PruneRounds(w.db, cut))
      && (!v.pruner.Done? ==> Step(env, v, PruneFails) == v.(pruner := Aborted(cut, p.sessions, p.samples, rounds)))
  {
  }

  /** PruneOlderThan is what its statements do when nothing comes between them, however far it gets: see PruneAt in the
      contract of the method. A statement that fails changes no table. */
  lemma PruneIsItsDeletes(env: Env, w: World, cut: int, rounds: nat, half: bool)
    requires Sound(env, w) && !w.pruner.Head? && !w.pruner.Mid?
    requires rounds <= PruneRounds(w.db, cut) && (half ==> rounds < PruneRounds(w.db, cut))
    ensures var v := Run(env, w, Prunes(cut, rounds, half)); var p := PruneAt(env.scan, w.db, cut, rounds, half);
      && Reaches(env, w, v, cut, rounds, half)
      && (v.pruner.Done? <==> rounds == PruneRounds(w.db, cut))
      && (!v.pruner.Done? ==> Step(env, v, PruneFails) == v.(pruner := Aborted(cut, p.sessions, p.samples, rounds)))
  {
    DeletesReach(env, w, cut, rounds, half);
    FailsReached(env, w, Run(env, w, Prunes(cut, rounds, half)), cut, rounds, half);
  }
}
