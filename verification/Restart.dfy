// Restarting a poller between any two events changes nothing later but the timing of heartbeats.

module Restart {
  import opened Base
  import opened Flows
  import opened Tables
  import opened Tracker
  import opened Pruning
  import opened History

  /** The event log without its heartbeats. */
  function Strip(samples: seq<Sample>): seq<Sample> {
    if samples == [] then []
    else
      var rest := Strip(samples[..|samples| - 1]);
      var last := samples[|samples| - 1];
      if last.kind == Heartbeat then rest else rest + [last]
  }

  lemma StripAppend(samples: seq<Sample>, s: Sample)
    ensures Strip(samples + [s]) == Strip(samples) + (if s.kind == Heartbeat then [] else [s])
  {
    assert (samples + [s])[..|samples|] == samples;
  }

  lemma DropAppend(samples: seq<Sample>, s: Sample, ids: set<int>)
    ensures DropSamples(samples + [s], ids) == DropSamples(samples, ids) + (if s.sessionId in ids then [] else [s])
  {
    assert (samples + [s])[..|samples|] == samples;
  }

  lemma {:induction false} StripDrop(samples: seq<Sample>, ids: set<int>)
    ensures Strip(DropSamples(samples, ids)) == DropSamples(Strip(samples), ids)
  {
    if samples != [] {
      var init, last := samples[..|samples| - 1], samples[|samples| - 1];
      StripDrop(init, ids);
      StripAppend(DropSamples(init, ids), last);
      DropAppend(Strip(init), last, ids);
    }
  }

  // ----- Two worlds that differ in heartbeats only ------------------------------------

  predicate SameTables(a: Db, b: Db) {
    && a.sessions == b.sessions && a.lastId == b.lastId && a.usage == b.usage && a.dst == b.dst
    && Strip(a.samples) == Strip(b.samples)
  }

  predicate SameTracked(a: Tracked, b: Tracked) {
    a.id == b.id && a.txBytes == b.txBytes && a.rxBytes == b.rxBytes && a.tcpState == b.tcpState
  }

  ghost predicate SameOpen(a: map<string, Tracked>, b: map<string, Tracked>) {
    a.Keys == b.Keys && forall k :: k in a ==> SameTracked(a[k], b[k])
  }

  predicate SamePruner(a: Pruner, b: Pruner) {
    && (a.Idle? <==> b.Idle?) && (a.Head? <==> b.Head?) && (a.Mid? <==> b.Mid?) && (a.Done? <==> b.Done?)
    && (!a.Idle? && !b.Idle? ==> a.cut == b.cut && a.sessions == b.sessions && a.rounds == b.rounds)
  }

  /** `a` restarted the poller of `fw` at time t, `b` did not. */
  ghost predicate Twins(a: World, b: World, fw: string, t: int) {
    && SameTables(a.db, b.db) && a.asked == b.asked && SamePruner(a.pruner, b.pruner)
    && a.pollers.Keys == b.pollers.Keys
    && (forall g :: g in a.pollers ==> SameOpen(a.pollers[g].open, b.pollers[g].open))
    && (forall g :: g in a.pollers && g != fw ==> a.pollers[g].clock == b.pollers[g].clock)
    && (fw in a.pollers ==> a.pollers[fw].clock == Max(b.pollers[fw].clock, t))
  }

  ghost predicate After(e: Event, fw: string, t: int) {
    e.ByPoller() && e.fw == fw ==> t <= e.now
  }

  lemma TwinsEnabled(a: World, b: World, e: Event, fw: string, t: int)
    requires Twins(a, b, fw, t) && After(e, fw, t)
    ensures Enabled(a, e) <==> Enabled(b, e)
  {
  }

  // ----- Steps -----------------------------------------------------------------------

  lemma InsertTwins(a: Db, b: Db, s: Session)
    requires SameTables(a, b)
    ensures SameTables(InsertSession(a, s), InsertSession(b, s))
  {
  }

  lemma UpdateTwins(a: Db, b: Db, id: int, u: Refresh)
    requires SameTables(a, b)
    ensures SameTables(UpdateSession(a, id, u), UpdateSession(b, id, u))
  {
  }

  lemma BumpTwins(a: Db, b: Db, c: Bucket, ip: string, at: int, d: int, isNew: bool, scope: Scope)
    requires SameTables(a, b)
    ensures SameTables(Bump(a, c, ip, at, d, isNew, scope), Bump(b, c, ip, at, d, isNew, scope))
  {
  }

  /** Both worlds may log the same event, and either may log a heartbeat of its own. */
  lemma SampleTwins(a: Db, b: Db, s: Option<Sample>, r: Option<Sample>)
    requires SameTables(a, b) && (s == r || ((s.Some? ==> s.value.kind == Heartbeat) && (r.Some? ==> r.value.kind == Heartbeat)))
    ensures SameTables(if s.Some? then InsertSample(a, s.value) else a, if r.Some? then InsertSample(b, r.value) else b)
  {
    if s.Some? { StripAppend(a.samples, s.value); }
    if r.Some? { StripAppend(b.samples, r.value); }
  }

  ghost predicate SameState(a: PollState, b: PollState) {
    SameTables(a.db, b.db) && SameOpen(a.open, b.open) && a.asked == b.asked
  }

  lemma ExtendWhole(st: PollState, key: string, id: int, u: Refresh, c: Bucket, ip: string, now: int, delta: int,
                    scope: Scope, log: Option<Sample>, next: Tracked, calls: nat)
    requires calls >= ALL_CALLS
    ensures Extend(st, key, id, u, c, ip, now, delta, scope, log, next, calls)
         == PollState(WithLog(Bump(UpdateSession(st.db, id, u), c, ip, now, delta, false, scope), log),
                      st.open[key := next], st.asked)
  {
  }

  lemma ExtendTwins(a: PollState, b: PollState, key: string, id: int, u: Refresh, c: Bucket, ip: string, now: int,
                    delta: int, scope: Scope, s: Option<Sample>, r: Option<Sample>, m: Tracked, n: Tracked, calls: nat)
    requires SameState(a, b) && SameTracked(m, n) && calls >= ALL_CALLS
    requires s == r || ((s.Some? ==> s.value.kind == Heartbeat) && (r.Some? ==> r.value.kind == Heartbeat))
    ensures SameState(Extend(a, key, id, u, c, ip, now, delta, scope, s, m, calls),
                      Extend(b, key, id, u, c, ip, now, delta, scope, r, n, calls))
  {
    var x := Bump(UpdateSession(a.db, id, u), c, ip, now, delta, false, scope);
    var y := Bump(UpdateSession(b.db, id, u), c, ip, now, delta, false, scope);
    assert SameTables(x, y) by {
      UpdateTwins(a.db, b.db, id, u);
      BumpTwins(UpdateSession(a.db, id, u), UpdateSession(b.db, id, u), c, ip, now, delta, false, scope);
    }
    FinishTwins(a, b, x, y, key, s, r, m, n);
    ExtendWhole(a, key, id, u, c, ip, now, delta, scope, s, m, calls);
    ExtendWhole(b, key, id, u, c, ip, now, delta, scope, r, n, calls);
  }

  function WithLog(db: Db, log: Option<Sample>): Db {
    if log.Some? then InsertSample(db, log.value) else db
  }

  lemma FinishTwins(a: PollState, b: PollState, x: Db, y: Db, key: string, s: Option<Sample>, r: Option<Sample>,
                    m: Tracked, n: Tracked)
    requires SameState(a, b) && SameTables(x, y) && SameTracked(m, n)
    requires s == r || ((s.Some? ==> s.value.kind == Heartbeat) && (r.Some? ==> r.value.kind == Heartbeat))
    ensures SameState(PollState(WithLog(x, s), a.open[key := m], a.asked), PollState(WithLog(y, r), b.open[key := n], b.asked))
  {
    SampleTwins(x, y, s, r);
    PutTwins(a.open, b.open, key, m, n);
  }

  lemma PutTwins(a: map<string, Tracked>, b: map<string, Tracked>, key: string, m: Tracked, n: Tracked)
    requires SameOpen(a, b) && SameTracked(m, n)
    ensures SameOpen(a[key := m], b[key := n])
  {
  }

  lemma TablesTwins(a: Db, b: Db, row: Session, s: Sample, c: Bucket, ip: string, now: int, bytes: int, scope: Scope)
    requires SameTables(a, b)
    ensures SameTables(Bump(InsertSample(InsertSession(a, row), s), c, ip, now, bytes, true, scope),
                       Bump(InsertSample(InsertSession(b, row), s), c, ip, now, bytes, true, scope))
  {
    var a1, b1 := InsertSession(a, row), InsertSession(b, row);
    var a2, b2 := InsertSample(a1, s), InsertSample(b1, s);
    assert SameTables(a2, b2) by {
      InsertTwins(a, b, row);
      SampleTwins(a1, b1, Some(s), Some(s));
    }
    BumpTwins(a2, b2, c, ip, now, bytes, true, scope);
  }

  lemma StateTwins(a: PollState, b: PollState, x: Db, y: Db, key: string, next: Tracked, asks: seq<Ask>)
    requires SameState(a, b) && SameTables(x, y)
    ensures SameState(PollState(x, a.open[key := next], a.asked + asks), PollState(y, b.open[key := next], b.asked + asks))
  {
    PutTwins(a.open, b.open, key, next, next);
  }

  lemma BeginWhole(st: PollState, key: string, row: Session, s: Sample, c: Bucket, ip: string, now: int, bytes: int,
                   scope: Scope, next: Tracked, asks: seq<Ask>, calls: nat)
    requires calls >= ALL_CALLS
    ensures Begin(st, key, row, s, c, ip, now, bytes, scope, next, asks, calls)
         == PollState(Bump(InsertSample(InsertSession(st.db, row), s), c, ip, now, bytes, true, scope), st.open[key := next],
                      st.asked + asks)
  {
  }

  lemma BeginTwins(a: PollState, b: PollState, key: string, row: Session, s: Sample, c: Bucket, ip: string, now: int,
                   bytes: int, scope: Scope, next: Tracked, asks: seq<Ask>, calls: nat)
    requires SameState(a, b) && calls >= ALL_CALLS
    ensures SameState(Begin(a, key, row, s, c, ip, now, bytes, scope, next, asks, calls),
                      Begin(b, key, row, s, c, ip, now, bytes, scope, next, asks, calls))
  {
    TablesTwins(a.db, b.db, row, s, c, ip, now, bytes, scope);
    var x := Bump(InsertSample(InsertSession(a.db, row), s), c, ip, now, bytes, true, scope);
    var y := Bump(InsertSample(InsertSession(b.db, row), s), c, ip, now, bytes, true, scope);
    StateTwins(a, b, x, y, key, next, asks);
    BeginWhole(a, key, row, s, c, ip, now, bytes, scope, next, asks, calls);
    BeginWhole(b, key, row, s, c, ip, now, bytes, scope, next, asks, calls);
  }

  lemma LogTwins(fw: string, m: Tracked, n: Tracked, f: Flow, now: int)
    requires SameTracked(m, n)
    ensures var x, y := LogRow(fw, m, f, now), LogRow(fw, n, f, now);
      x == y || ((x.Some? ==> x.value.kind == Heartbeat) && (y.Some? ==> y.value.kind == Heartbeat))
    ensures SameTracked(NextTracked(m, f, now), NextTracked(n, f, now))
  {
  }

  lemma OpenTwins(a: map<string, Tracked>, b: map<string, Tracked>, key: string)
    requires SameOpen(a, b) && key in a
    ensures key in b && SameTracked(a[key], b[key]) && a[key].id == b[key].id && a[key].Bytes() == b[key].Bytes()
  {
  }

  lemma ContinueTwins(env: Env, fw: string, a: PollState, b: PollState, f: Flow, key: string, now: int, calls: nat)
    requires SameState(a, b) && calls >= ALL_CALLS && key in a.open
    ensures SameState(ContinueFlow(env, fw, a, f, key, now, calls), ContinueFlow(env, fw, b, f, key, now, calls))
  {
    OpenTwins(a.open, b.open, key);
    var m, n := a.open[key], b.open[key];
    var u, c, delta, scope := RefreshOf(f, now), BucketOf(fw, f), Delta(m.Bytes(), f.Bytes()), ScopeOf(env, f);
    var x, y, mm, nn := LogRow(fw, m, f, now), LogRow(fw, n, f, now), NextTracked(m, f, now), NextTracked(n, f, now);
    LogTwins(fw, m, n, f, now);
    ExtendTwins(a, b, key, m.id, u, c, f.originDst, now, delta, scope, x, y, mm, nn, calls);
  }

  lemma StartTwins(env: Env, fw: string, a: PollState, b: PollState, f: Flow, key: string, now: int, calls: nat)
    requires SameState(a, b) && calls >= ALL_CALLS
    ensures SameState(StartFlow(env, fw, a, f, key, now, calls), StartFlow(env, fw, b, f, key, now, calls))
  {
    var id := a.db.lastId + 1;
    var row, first := NewSession(env, fw, key, f, now), SampleOf(id, fw, Start, now, f);
    var bytes, next := f.Bytes(), TrackedOf(id, f, now);
    BeginTwins(a, b, key, row, first, BucketOf(fw, f), f.originDst, now, bytes, ScopeOf(env, f), next, Asks(env, fw, f), calls);
    assert b.db.lastId + 1 == id;
  }

  lemma ApplyFlowTwins(env: Env, fw: string, a: PollState, b: PollState, f: Flow, key: string, now: int, calls: nat)
    requires SameState(a, b) && calls >= ALL_CALLS
    ensures SameState(ApplyFlow(env, fw, a, f, key, now, calls), ApplyFlow(env, fw, b, f, key, now, calls))
  {
    if key in a.open {
      ContinueTwins(env, fw, a, b, f, key, now, calls);
    } else {
      StartTwins(env, fw, a, b, f, key, now, calls);
    }
  }

  lemma ObserveTwins(env: Env, a: World, b: World, e: Event, fw: string, t: int)
    requires Twins(a, b, fw, t) && After(e, fw, t) && e.Clean() && e.Observe? && Enabled(a, e) && Enabled(b, e)
    ensures Twins(Step(env, a, e), Step(env, b, e), fw, t)
  {
    ApplyFlowTwins(env, e.fw, View(a, e.fw), View(b, e.fw), e.flow, SessionKey(e.flow), e.now, e.calls);
  }

  lemma CloseMissingTwins(a: PollState, b: PollState, seen: set<string>, failed: set<string>, now: int)
    requires SameTables(a.db, b.db) && SameOpen(a.open, b.open)
    ensures var x := CloseMissing(a, seen, failed, now); var y := CloseMissing(b, seen, failed, now);
      SameTables(x.db, y.db) && SameOpen(x.open, y.open)
  {
    assert Doomed(a.open, seen, failed) == Doomed(b.open, seen, failed);
    var doomed := Doomed(a.open, seen, failed);
    assert forall k :: k in doomed ==> SameTracked(a.open[k], b.open[k]);
    assert (set k | k in doomed :: a.open[k].id) == (set k | k in doomed :: b.open[k].id);
  }

  lemma CloseTwins(env: Env, a: World, b: World, e: Event, fw: string, t: int)
    requires Twins(a, b, fw, t) && After(e, fw, t) && e.Close? && Enabled(a, e) && Enabled(b, e)
    ensures Twins(Step(env, a, e), Step(env, b, e), fw, t)
  {
    CloseMissingTwins(View(a, e.fw), View(b, e.fw), e.seen, e.failed, e.now);
  }

  lemma {:induction false} ScanSame(a: Db, b: Db, fw: string, n: nat)
    requires a.sessions == b.sessions
    ensures ScanOpen(a, fw, n) == ScanOpen(b, fw, n)
  {
    if n > 0 { ScanSame(a, b, fw, n - 1); }
  }

  lemma LoadTwins(env: Env, a: World, b: World, e: Event, fw: string, t: int)
    requires Twins(a, b, fw, t) && After(e, fw, t) && e.Load? && e.ok && Enabled(a, e) && Enabled(b, e)
    ensures Twins(Step(env, a, e), Step(env, b, e), fw, t)
  {
    ScanSame(a.db, b.db, e.fw, Max(a.db.lastId, 0));
    assert LoadOpen(a.db, e.fw, e.now) == LoadOpen(b.db, e.fw, e.now);
  }

  lemma PruneTwins(env: Env, a: World, b: World, e: Event, fw: string, t: int)
    requires Twins(a, b, fw, t) && !e.ByPoller() && Enabled(a, e) && Enabled(b, e)
    requires BatchBare(env, a.db, a.pruner) && BatchBare(env, b.db, b.pruner)
    ensures Twins(Step(env, a, e), Step(env, b, e), fw, t)
  {
    if !e.PruneStart? {
      var batch := env.scan(Eligible(a.db, a.pruner.cut));
      assert Eligible(b.db, b.pruner.cut) == Eligible(a.db, a.pruner.cut);
      StripDrop(a.db.samples, batch);
      StripDrop(b.db.samples, batch);
    }
  }

  lemma StepTwins(env: Env, a: World, b: World, e: Event, fw: string, t: int)
    requires Twins(a, b, fw, t) && After(e, fw, t) && e.Clean() && Enabled(a, e) && Enabled(b, e)
    requires BatchBare(env, a.db, a.pruner) && BatchBare(env, b.db, b.pruner)
    ensures Twins(Step(env, a, e), Step(env, b, e), fw, t)
  {
    match e
    case Observe(_, _, _, _) => ObserveTwins(env, a, b, e, fw, t);
    case Close(_, _, _, _) => CloseTwins(env, a, b, e, fw, t);
    case Load(_, _, _) => LoadTwins(env, a, b, e, fw, t);
    case PruneStart(_) => PruneTwins(env, a, b, e, fw, t);
    case PruneSamples => PruneTwins(env, a, b, e, fw, t);
    case PruneFails => PruneTwins(env, a, b, e, fw, t);
    case PruneSessions => PruneTwins(env, a, b, e, fw, t);
  }

  lemma {:induction false} RunTwins(env: Env, a: World, b: World, events: seq<Event>, fw: string, t: int)
    requires Twins(a, b, fw, t) && Sound(env, a) && Sound(env, b) && Clean(events)
    requires forall e :: e in events ==> After(e, fw, t)
    ensures Twins(Run(env, a, events), Run(env, b, events), fw, t)
  {
    if events != [] {
      var n := |events| - 1;
      assert events[n] in events && events[n].Clean() && After(events[n], fw, t);
      RunTwins(env, a, b, events[..n], fw, t);
      var x, y := Run(env, a, events[..n]), Run(env, b, events[..n]);
      assert BatchBare(env, x.db, x.pruner) by { RunSound(env, a, events[..n]); }
      assert BatchBare(env, y.db, y.pruner) by { RunSound(env, b, events[..n]); }
      TwinsEnabled(x, y, events[n], fw, t);
      if Enabled(x, events[n]) {
        StepTwins(env, x, y, events[n], fw, t);
      }
    }
  }

  /** A poller restarted at time t, wherever in a run: from then on sessions, rollup, lookup requests, the map up to
      event times, and every start and state-change event are those of the run without the restart. */
  lemma RestartTransparent(env: Env, w: World, fw: string, t: int, events: seq<Event>)
    requires Faithful(env, w) && fw in w.pollers && Enabled(w, Load(fw, t, true)) && Clean(events)
    requires forall e :: e in events ==> After(e, fw, t)
    ensures var a := Run(env, Step(env, w, Load(fw, t, true)), events); var b := Run(env, w, events);
      && a.db.sessions == b.db.sessions && a.db.lastId == b.db.lastId
      && a.db.usage == b.db.usage && a.db.dst == b.db.dst && a.asked == b.asked
      && Strip(a.db.samples) == Strip(b.db.samples)
      && (forall g :: g in b.pollers ==> g in a.pollers && SameOpen(a.pollers[g].open, b.pollers[g].open))
  {
    var v := Step(env, w, Load(fw, t, true));
    LoadCached(env, w, Load(fw, t, true));
    assert Twins(v, w, fw, t) by {
      forall k | k in v.pollers[fw].open ensures SameTracked(v.pollers[fw].open[k], w.pollers[fw].open[k]) {
        assert v.pollers[fw].open[k] == w.pollers[fw].open[k].(lastSampleAt := t);
      }
    }
    PollerStepSound(env, w, Load(fw, t, true));
    RunTwins(env, v, w, events, fw, t);
  }
}
