// What clean runs guarantee about the event log, its size, each poll's diff, and the separation of firewalls.

module SessionLaws {
  import opened Base
  import opened Flows
  import opened Tables
  import opened Tracker
  import opened Pruning
  import opened History
  import opened Chronicle

  // ----- The event log loses no state ------------------------------------------------

  /** A list with adjacent repeats collapsed: an element equal to the one before it is dropped. */
  function Collapse<T(==)>(s: seq<T>): seq<T> {
    if s == [] then [] else Push(Collapse(s[..|s| - 1]), s[|s| - 1])
  }

  function Push<T(==)>(c: seq<T>, x: T): seq<T> {
    if c != [] && c[|c| - 1] == x then c else c + [x]
  }

  function StatesSeen(obs: seq<Obs>): seq<string> {
    if obs == [] then [] else StatesSeen(obs[..|obs| - 1]) + [Last(obs).flow.tcpState]
  }

  function StatesLogged(samples: seq<Sample>): seq<string> {
    if samples == [] then [] else StatesLogged(samples[..|samples| - 1]) + [samples[|samples| - 1].tcpState]
  }

  lemma CollapseAppend<T>(s: seq<T>, x: T)
    ensures Collapse(s + [x]) == Push(Collapse(s), x)
  {
    assert (s + [x])[..|s|] == s;
  }

  lemma StatesLoggedAppend(samples: seq<Sample>, s: Sample)
    ensures StatesLogged(samples + [s]) == StatesLogged(samples) + [s.tcpState]
  {
    assert (samples + [s])[..|samples|] == samples;
  }

  /** The states of the observations that were logged. */
  function StatesKept(obs: seq<Obs>): seq<string> {
    if obs == [] then []
    else
      var rest := StatesKept(obs[..|obs| - 1]);
      if Last(obs).logged.Some? then rest + [Last(obs).flow.tcpState] else rest
  }

  lemma {:induction false} LogStates(id: int, fw: string, obs: seq<Obs>)
    ensures StatesLogged(LogOf(id, fw, obs)) == StatesKept(obs)
  {
    if obs != [] {
      var init, o := obs[..|obs| - 1], Last(obs);
      LogStates(id, fw, init);
      if o.logged.Some? {
        StatesLoggedAppend(LogOf(id, fw, init), SampleOf(id, fw, o.logged.value, o.at, o.flow));
      }
    }
  }

  lemma {:induction false} KeptStatesSuffice(obs: seq<Obs>)
    requires HistoryOk(obs)
    ensures var c := Collapse(StatesSeen(obs));
      c != [] && c[|c| - 1] == Last(obs).flow.tcpState && Collapse(StatesKept(obs)) == c
  {
    var init, x := obs[..|obs| - 1], Last(obs).flow.tcpState;
    CollapseAppend(StatesSeen(init), x);
    if |obs| == 1 {
      assert StatesSeen(init) == [] && StatesKept(init) == [];
    } else {
      KeptStatesSuffice(init);
      assert Follows(Last(init), Last(obs));
      if Last(obs).logged.Some? {
        CollapseAppend(StatesKept(init), x);
      }
    }
  }

  lemma CollapseLast<T>(s: seq<T>)
    ensures s == [] <==> Collapse(s) == []
    ensures s != [] ==> var c := Collapse(s); c[|c| - 1] == s[|s| - 1]
  {
  }

  /** For every session row whose log the pruner has not begun to delete, across any restarts: the logged states with
      repeats collapsed are the observed states with repeats collapsed, and the last one is the row's. */
  lemma LogLosesNoState(env: Env, events: seq<Event>, id: int)
    requires FirstBatch(env.scan) && Clean(events)
    requires var w := Run(env, START, events); id in w.db.sessions && id !in w.wiped
    ensures var w := Run(env, START, events);
      var log := SamplesOf(w.db.samples, id);
      && id in w.hist && log != []
      && Collapse(StatesLogged(log)) == Collapse(StatesSeen(w.hist[id].obs))
      && log[|log| - 1].tcpState == w.db.sessions[id].tcpState
  {
    RunRow(env, events, id);
    TraceStates(id, Run(env, START, events).hist[id]);
  }

  lemma TraceStates(id: int, t: Trace)
    requires TraceOk(t)
    ensures var log := LogOf(id, t.fw, t.obs);
      && log != [] && Collapse(StatesLogged(log)) == Collapse(StatesSeen(t.obs))
      && log[|log| - 1].tcpState == Last(t.obs).flow.tcpState
  {
    LogStates(id, t.fw, t.obs);
    KeptStatesSuffice(t.obs);
    CollapseLast(StatesKept(t.obs));
    StatesLoggedLast(LogOf(id, t.fw, t.obs));
  }

  lemma StatesLoggedLast(samples: seq<Sample>)
    ensures samples == [] <==> StatesLogged(samples) == []
    ensures samples != [] ==> var s := StatesLogged(samples); s[|s| - 1] == samples[|samples| - 1].tcpState
  {
  }

  lemma RunRow(env: Env, events: seq<Event>, id: int)
    requires FirstBatch(env.scan) && Clean(events)
    requires var w := Run(env, START, events); id in w.db.sessions && id !in w.wiped
    ensures var w := Run(env, START, events);
      && id in w.hist && TraceOk(w.hist[id]) && RowOk(w.db.sessions[id], w.hist[id])
      && SamplesOf(w.db.samples, id) == LogOf(id, w.hist[id].fw, w.hist[id].obs)
  {
    StartFaithful(env);
    RunFaithful(env, START, events);
  }

  // ----- How fast the log grows ------------------------------------------------------

  /** State changes between adjacent observations. */
  function Changes(obs: seq<Obs>): nat {
    if |obs| <= 1 then 0
    else Changes(obs[..|obs| - 1])
         + (if Last(obs).flow.tcpState != Last(obs[..|obs| - 1]).flow.tcpState then 1 else 0)
  }

  lemma {:induction false} LogSize(id: int, fw: string, obs: seq<Obs>)
    requires HistoryOk(obs)
    ensures |LogOf(id, fw, obs)| == 1 + Changes(obs) + Beats(obs)
  {
    var init := obs[..|obs| - 1];
    if |obs| == 1 {
      assert LogOf(id, fw, init) == [] && Beats(init) == 0;
    } else {
      LogSize(id, fw, init);
      assert Follows(Last(init), Last(obs));
      if Last(obs).logged.Some? {
        match Last(obs).logged.value
        case Start =>
        case StateChange =>
        case Heartbeat =>
      }
    }
  }

  const FIVE_MINUTES: int := 300_000_000_000

  /** However many polls saw a session, and across restarts, its log holds one start event, one event per observed
      state change, and at most one heartbeat per full five minutes of its life. */
  lemma LogGrowthBound(env: Env, events: seq<Event>, id: int)
    requires FirstBatch(env.scan) && Clean(events)
    requires var w := Run(env, START, events); id in w.db.sessions && id !in w.wiped
    ensures var w := Run(env, START, events);
      && id in w.hist && w.hist[id].obs != []
      && var obs := w.hist[id].obs;
         |SamplesOf(w.db.samples, id)| <= 1 + Changes(obs) + (Last(obs).at - obs[0].at) / FIVE_MINUTES
  {
    RunRow(env, events, id);
    TraceLogBound(id, Run(env, START, events).hist[id]);
  }

  lemma TraceLogBound(id: int, t: Trace)
    requires TraceOk(t)
    ensures |LogOf(id, t.fw, t.obs)| <= 1 + Changes(t.obs) + (Last(t.obs).at - t.obs[0].at) / FIVE_MINUTES
  {
    LogSize(id, t.fw, t.obs);
    FloorBound(Beats(t.obs), Last(t.obs).at - t.obs[0].at);
  }

  lemma FloorBound(n: nat, span: int)
    requires FIVE_MINUTES * n <= span
    ensures n <= span / FIVE_MINUTES
  {
  }

  /** Within one poller process, when a tracked session's next event is written, less than five minutes plus the gap
      since its previous observation have passed since its last event or the start of the process. */
  lemma EventGap(env: Env, events: seq<Event>, e: Event)
    requires FirstBatch(env.scan) && Clean(events) && e.Observe? && e.Clean()
    requires Enabled(Run(env, START, events), e)
    requires SessionKey(e.flow) in Run(env, START, events).pollers[e.fw].open
    ensures var w := Run(env, START, events);
      var t := w.pollers[e.fw].open[SessionKey(e.flow)];
      && t.id in w.hist && w.hist[t.id].obs != []
      && var obs := w.hist[t.id].obs;
         var sinceEvent := e.now - Max(LastLogAt(obs), w.pollers[e.fw].since);
         && sinceEvent < FIVE_MINUTES + (e.now - Last(obs).at)
         && (LogEvent(t, e.flow, e.now) == None
             <==> e.flow.tcpState == Last(obs).flow.tcpState && sinceEvent < FIVE_MINUTES)
  {
    assert HEARTBEAT == FIVE_MINUTES;
    StartFaithful(env);
    RunFaithful(env, START, events);
    var w := Run(env, START, events);
    var t := w.pollers[e.fw].open[SessionKey(e.flow)];
    assert SampledBy(w.hist, w.pollers[e.fw].since, t);
    assert CacheEntry(w.db, e.fw, SessionKey(e.flow), t);
    assert RowOk(w.db.sessions[t.id], w.hist[t.id]);
  }

  // ----- Lifetimes -------------------------------------------------------------------

  /** Two sessions of one flow never overlap, and a row counts the observations applied to it. */
  lemma LifetimesDisjoint(env: Env, events: seq<Event>)
    requires FirstBatch(env.scan) && Clean(events)
    ensures var w := Run(env, START, events);
      && (forall i, j :: i in w.hist && j in w.hist && i < j && SameFlow(w.hist[i], w.hist[j]) ==>
            (&& w.hist[i].closedAt.Some? && w.hist[i].obs != [] && w.hist[j].obs != []
             && Last(w.hist[i].obs).at <= w.hist[i].closedAt.value <= w.hist[j].obs[0].at))
      && (forall id :: id in w.db.sessions ==> id in w.hist && w.db.sessions[id].sampleCount == |w.hist[id].obs|)
  {
    StartFaithful(env);
    RunFaithful(env, START, events);
    var w := Run(env, START, events);
    forall i, j | i in w.hist && j in w.hist && i < j && SameFlow(w.hist[i], w.hist[j])
      ensures w.hist[i].closedAt.Some? && w.hist[i].obs != [] && w.hist[j].obs != []
      ensures Last(w.hist[i].obs).at <= w.hist[i].closedAt.value <= w.hist[j].obs[0].at
    {
      assert TraceOk(w.hist[i]) && TraceOk(w.hist[j]) && Precedes(w.hist[i], w.hist[j]);
    }
    forall id | id in w.db.sessions ensures id in w.hist && w.db.sessions[id].sampleCount == |w.hist[id].obs| {
      assert RowOk(w.db.sessions[id], w.hist[id]);
    }
  }

  // ----- One poll is an exact diff ---------------------------------------------------

  /** The events of one poll: flow i gets as far as calls[i] says, and closing fails for the keys in `failed`. */
  function PollEvents(fw: string, flows: seq<Flow>, now: int, calls: seq<nat>, failed: set<string>): seq<Event>
    requires |calls| == |flows|
  {
    Observes(fw, flows, now, calls) + [Close(fw, Keys(flows), failed, now)]
  }

  function Observes(fw: string, flows: seq<Flow>, now: int, calls: seq<nat>): (es: seq<Event>)
    requires |calls| == |flows|
    ensures |es| == |flows|
  {
    seq(|flows|, i requires 0 <= i < |flows| => Observe(fw, flows[i], now, calls[i]))
  }

  function AllCalls(n: nat): (calls: seq<nat>)
    ensures |calls| == n && forall i :: 0 <= i < n ==> calls[i] == ALL_CALLS
  {
    seq(n, i => ALL_CALLS)
  }

  ghost predicate Ready(w: World, fw: string, now: int) {
    fw in w.pollers && w.pollers[fw].clock <= now && (w.pruner.Idle? || w.pruner.cut <= Unix(now))
  }

  lemma ObserveView(env: Env, w: World, e: Event)
    requires e.Observe? && Ready(w, e.fw, e.now)
    ensures var v := Step(env, w, e);
      && Ready(v, e.fw, e.now)
      && View(v, e.fw) == ApplyFlow(env, e.fw, View(w, e.fw), e.flow, SessionKey(e.flow), e.now, e.calls)
  {
  }

  lemma CloseView(env: Env, w: World, fw: string, seen: set<string>, failed: set<string>, now: int)
    requires Ready(w, fw, now)
    ensures var v := Step(env, w, Close(fw, seen, failed, now));
      Ready(v, fw, now) && View(v, fw) == CloseMissing(View(w, fw), seen, failed, now)
  {
  }

  lemma {:induction false} ObservesRun(env: Env, w: World, fw: string, flows: seq<Flow>, now: int, calls: seq<nat>)
    requires Ready(w, fw, now) && |calls| == |flows|
    ensures var v := Run(env, w, Observes(fw, flows, now, calls));
      Ready(v, fw, now) && View(v, fw) == ApplyFlows(env, fw, View(w, fw), flows, now, calls)
  {
    var es := Observes(fw, flows, now, calls);
    if flows != [] {
      var n := |flows| - 1;
      assert es[..n] == Observes(fw, flows[..n], now, calls[..n]);
      ObservesRun(env, w, fw, flows[..n], now, calls[..n]);
      ObserveView(env, Run(env, w, es[..n]), es[n]);
    }
  }

  /** The events of a poll do what ApplyPoll does, whatever calls fail. */
  lemma PollIsItsEvents(env: Env, w: World, fw: string, flows: seq<Flow>, now: int, calls: seq<nat>, failed: set<string>)
    requires Ready(w, fw, now) && |calls| == |flows|
    ensures var v := Run(env, w, PollEvents(fw, flows, now, calls, failed));
      Ready(v, fw, now) && View(v, fw) == ApplyPoll(env, fw, View(w, fw), flows, now, calls, failed)
  {
    var es, seen := PollEvents(fw, flows, now, calls, failed), Keys(flows);
    assert es[..|es| - 1] == Observes(fw, flows, now, calls) && es[|es| - 1] == Close(fw, seen, failed, now);
    ObservesRun(env, w, fw, flows, now, calls);
    CloseView(env, Run(env, w, Observes(fw, flows, now, calls)), fw, seen, failed, now);
  }

  /** The keys of the flows none of whose calls failed. */
  function Completed(flows: seq<Flow>, calls: seq<nat>): set<string>
    requires |calls| == |flows|
  {
    set i | 0 <= i < |flows| && calls[i] >= ALL_CALLS :: SessionKey(flows[i])
  }

  lemma ApplyFlowKeys(env: Env, fw: string, st: PollState, f: Flow, key: string, now: int, calls: nat)
    ensures ApplyFlow(env, fw, st, f, key, now, calls).open.Keys
         == if calls >= ALL_CALLS then st.open.Keys + {key} else st.open.Keys
  {
  }

  lemma CompletedSnoc(flows: seq<Flow>, calls: seq<nat>, n: nat)
    requires |calls| == |flows| == n + 1
    ensures Completed(flows, calls)
         == Completed(flows[..n], calls[..n]) + if calls[n] >= ALL_CALLS then {SessionKey(flows[n])} else {}
  {
    var a, b := Completed(flows, calls), Completed(flows[..n], calls[..n]);
    forall k | k in a ensures k in b || (calls[n] >= ALL_CALLS && k == SessionKey(flows[n])) {
      var i :| 0 <= i < |flows| && calls[i] >= ALL_CALLS && SessionKey(flows[i]) == k;
      if i < n { assert flows[..n][i] == flows[i] && calls[..n][i] == calls[i]; }
    }
    forall k | k in b ensures k in a {
      var i :| 0 <= i < n && calls[..n][i] >= ALL_CALLS && SessionKey(flows[..n][i]) == k;
      assert calls[i] >= ALL_CALLS && SessionKey(flows[i]) == k;
    }
  }

  lemma {:induction false} ApplyFlowsKeys(env: Env, fw: string, st: PollState, flows: seq<Flow>, now: int, calls: seq<nat>)
    requires |calls| == |flows|
    ensures ApplyFlows(env, fw, st, flows, now, calls).open.Keys == st.open.Keys + Completed(flows, calls)
  {
    if flows != [] {
      var n := |flows| - 1;
      ApplyFlowsKeys(env, fw, st, flows[..n], now, calls[..n]);
      CompletedSnoc(flows, calls, n);
      ApplyFlowKeys(env, fw, ApplyFlows(env, fw, st, flows[..n], now, calls[..n]), flows[n], SessionKey(flows[n]), now, calls[n]);
    }
  }

  /** What is tracked after a poll: of the keys tracked before and those whose calls all succeeded, the ones the batch
      showed and the ones whose closing failed. */
  lemma PollKeys(env: Env, fw: string, st: PollState, flows: seq<Flow>, now: int, calls: seq<nat>, failed: set<string>)
    requires |calls| == |flows|
    ensures ApplyPoll(env, fw, st, flows, now, calls, failed).open.Keys
         == (st.open.Keys + Completed(flows, calls)) * (Keys(flows) + failed)
  {
    ApplyFlowsKeys(env, fw, st, flows, now, calls);
  }

  function OpenKeys(db: Db, fw: string): set<string> {
    set id | id in db.sessions && db.sessions[id].closedAt == None && db.sessions[id].fw == fw :: db.sessions[id].key
  }

  lemma AllCompleted(flows: seq<Flow>)
    ensures Completed(flows, AllCalls(|flows|)) == Keys(flows)
  {
    var calls := AllCalls(|flows|);
    forall k | k in Keys(flows) ensures k in Completed(flows, calls) {
      var f :| f in flows && SessionKey(f) == k;
      var i :| 0 <= i < |flows| && flows[i] == f;
      assert calls[i] >= ALL_CALLS;
    }
  }

  /** After a poll without failures the open sessions, in memory and in the store, are exactly those the batch showed.
      Holds for any batch, repeated keys included. */
  lemma PollIsExactDiff(env: Env, w: World, fw: string, flows: seq<Flow>, now: int)
    requires Faithful(env, w) && Ready(w, fw, now)
    ensures var v := Run(env, w, PollEvents(fw, flows, now, AllCalls(|flows|), {}));
      && Faithful(env, v) && Ready(v, fw, now)
      && v.pollers[fw].open.Keys == Keys(flows)
      && OpenKeys(v.db, fw) == Keys(flows)
  {
    var es := PollEvents(fw, flows, now, AllCalls(|flows|), {});
    CleanPoll(env, w, fw, flows, now);
    RunFaithful(env, w, es);
    OpenKeysTracked(Run(env, w, es), fw);
  }

  lemma CleanPoll(env: Env, w: World, fw: string, flows: seq<Flow>, now: int)
    requires Ready(w, fw, now)
    ensures var es := PollEvents(fw, flows, now, AllCalls(|flows|), {}); var v := Run(env, w, es);
      Clean(es) && Ready(v, fw, now) && v.pollers[fw].open.Keys == Keys(flows)
  {
    var calls := AllCalls(|flows|);
    PollIsItsEvents(env, w, fw, flows, now, calls, {});
    PollKeys(env, fw, View(w, fw), flows, now, calls, {});
    AllCompleted(flows);
  }

  /** In any clean run the store's open keys of a firewall are its poller's keys. */
  lemma OpenKeysTracked(w: World, fw: string)
    requires Cached(w) && fw in w.pollers
    ensures OpenKeys(w.db, fw) == w.pollers[fw].open.Keys
  {
    forall k | k in OpenKeys(w.db, fw) ensures k in w.pollers[fw].open {
      var id :| IsOpen(w.db, id) && w.db.sessions[id].fw == fw && w.db.sessions[id].key == k;
      assert CoveredRow(w.pollers, w.db.sessions[id], id);
    }
    forall k | k in w.pollers[fw].open ensures k in OpenKeys(w.db, fw) {
      assert CacheEntry(w.db, fw, k, w.pollers[fw].open[k]);
    }
  }

  // ----- Firewalls are never merged --------------------------------------------------

  /** Whatever a poller does, failing store calls included, every row, bucket, destination and sample of every other
      firewall stays as it is. */
  lemma FirewallsApart(env: Env, w: World, e: Event, other: string)
    requires Sound(env, w) && e.ByPoller() && e.fw != other
    ensures var v := Step(env, w, e);
      && (forall id :: id in w.db.sessions && w.db.sessions[id].fw == other ==>
            id in v.db.sessions && v.db.sessions[id] == w.db.sessions[id])
      && (forall id :: id in v.db.sessions && v.db.sessions[id].fw == other ==> id in w.db.sessions)
      && (forall b: Bucket :: b.fw == other ==> Lookup(v.db.usage, b) == Lookup(w.db.usage, b))
      && (forall d: DstKey :: d.bucket.fw == other ==> (d in v.db.dst <==> d in w.db.dst))
      && (forall s :: s in v.db.samples && s.fw == other ==> s in w.db.samples)
      && (forall s :: s in w.db.samples ==> s in v.db.samples)
      && (other in w.pollers ==> other in v.pollers && v.pollers[other] == w.pollers[other])
  {
    var v := Step(env, w, e);
    if Enabled(w, e) && e.Observe? {
      var key := SessionKey(e.flow);
      if key in w.pollers[e.fw].open {
        var t := w.pollers[e.fw].open[key];
        assert Tracks(w.db, e.fw, key, t.id);
        ExtendApart(View(w, e.fw), key, t.id, RefreshOf(e.flow, e.now), BucketOf(e.fw, e.flow), e.flow.originDst, e.now,
                    Delta(t.Bytes(), e.flow.Bytes()), ScopeOf(env, e.flow), LogRow(e.fw, t, e.flow, e.now),
                    NextTracked(t, e.flow, e.now), e.calls, other);
      } else {
        var id := w.db.lastId + 1;
        BeginApart(View(w, e.fw), key, NewSession(env, e.fw, key, e.flow, e.now), SampleOf(id, e.fw, Start, e.now, e.flow),
                   BucketOf(e.fw, e.flow), e.flow.originDst, e.now, e.flow.Bytes(), ScopeOf(env, e.flow),
                   TrackedOf(id, e.flow, e.now), Asks(env, e.fw, e.flow), e.calls, other);
      }
    } else if Enabled(w, e) && e.Close? {
      assert forall k :: k in w.pollers[e.fw].open ==> Tracks(w.db, e.fw, k, w.pollers[e.fw].open[k].id);
    }
  }

  ghost predicate Apart(a: Db, b: Db, other: string) {
    && (forall id :: id in a.sessions && a.sessions[id].fw == other ==> id in b.sessions && b.sessions[id] == a.sessions[id])
    && (forall id :: id in b.sessions && b.sessions[id].fw == other ==> id in a.sessions)
    && (forall c: Bucket :: c.fw == other ==> Lookup(b.usage, c) == Lookup(a.usage, c))
    && (forall d: DstKey :: d.bucket.fw == other ==> (d in b.dst <==> d in a.dst))
    && (forall s :: s in b.samples && s.fw == other ==> s in a.samples)
    && (forall s :: s in a.samples ==> s in b.samples)
  }

  lemma ExtendApart(st: PollState, key: string, id: int, u: Refresh, b: Bucket, ip: string, now: int, delta: int,
                    scope: Scope, log: Option<Sample>, next: Tracked, calls: nat, other: string)
    requires IsOpen(st.db, id) && st.db.sessions[id].fw != other && b.fw != other
    requires log.Some? ==> log.value.fw != other
    ensures Apart(st.db, Extend(st, key, id, u, b, ip, now, delta, scope, log, next, calls).db, other)
  {
    var db1 := UpdateSession(st.db, id, u);
    assert Apart(st.db, db1, other);
    BumpApart(st.db, db1, b, ip, now, delta, false, scope, other);
    if log.Some? { SampleApart(st.db, Bump(db1, b, ip, now, delta, false, scope), log.value, other); }
  }

  lemma BeginApart(st: PollState, key: string, row: Session, s: Sample, b: Bucket, ip: string, now: int, bytes: int,
                   scope: Scope, next: Tracked, asks: seq<Ask>, calls: nat, other: string)
    requires IdsBelow(st.db) && row.fw != other && s.fw != other && b.fw != other
    ensures Apart(st.db, Begin(st, key, row, s, b, ip, now, bytes, scope, next, asks, calls).db, other)
  {
    var db1 := InsertSession(st.db, row);
    assert Apart(st.db, db1, other);
    SampleApart(st.db, db1, s, other);
    BumpApart(st.db, InsertSample(db1, s), b, ip, now, bytes, true, scope, other);
  }

  lemma SampleApart(a: Db, b: Db, s: Sample, other: string)
    requires Apart(a, b, other) && s.fw != other
    ensures Apart(a, InsertSample(b, s), other)
  {
  }

  lemma BumpApart(a: Db, b: Db, c: Bucket, ip: string, at: int, d: int, isNew: bool, scope: Scope, other: string)
    requires Apart(a, b, other) && c.fw != other
    ensures Apart(a, Bump(b, c, ip, at, d, isNew, scope), other)
  {
  }
}
