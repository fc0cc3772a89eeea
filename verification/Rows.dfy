// What a session row shows of the flows it was made from, column by column, over whole runs.

module Rows {
  import opened Base
  import opened Text
  import opened Flows
  import opened Keys
  import opened Tables
  import opened Tracker
  import opened History
  import opened Chronicle

  /** The columns set once, by the first flow. */
  predicate FromFirst(env: Env, s: Session, f: Flow) {
    && s.key == SessionKey(f) && s.protocol == f.protocol
    && s.originSrc == f.originSrc && s.originDst == f.originDst
    && s.srcPort == ParseInt(f.srcPort) && s.dstPort == ParseInt(f.dstPort)
    && s.natedIP == f.natedIP && s.natedPort == ParseInt(f.natedPort)
    && s.isSrcPrivate == env.isPrivate(f.originSrc) && s.isDstPrivate == env.isPrivate(f.originDst)
  }

  /** The columns every flow refreshes. */
  predicate FromLast(s: Session, f: Flow) {
    && s.tcpState == f.tcpState && s.direction == f.direction && s.application == f.application
    && s.hostName == f.hostName && s.ttlLast == ParseInt(f.ttl)
    && s.txPackets == f.txPackets && s.txBytes == f.txBytes && s.rxPackets == f.rxPackets && s.rxBytes == f.rxBytes
  }

  /** All columns of an event row. */
  predicate Shows(s: Sample, id: int, fw: string, o: Obs) {
    && s.sessionId == id && s.fw == fw && Some(s.kind) == o.logged && s.seenAt == Unix(o.at)
    && s.protocol == o.flow.protocol && s.originSrc == o.flow.originSrc && s.originDst == o.flow.originDst
    && s.srcPort == ParseInt(o.flow.srcPort) && s.dstPort == ParseInt(o.flow.dstPort)
    && s.natedIP == o.flow.natedIP && s.natedPort == ParseInt(o.flow.natedPort)
    && s.tcpState == o.flow.tcpState && s.direction == o.flow.direction && s.application == o.flow.application
    && s.hostName == o.flow.hostName && s.ttl == ParseInt(o.flow.ttl)
    && s.txPackets == o.flow.txPackets && s.txBytes == o.flow.txBytes
    && s.rxPackets == o.flow.rxPackets && s.rxBytes == o.flow.rxBytes
  }

  /** Every observation of a session carries its key. */
  ghost predicate Keyed(obs: seq<Obs>, key: string) {
    obs == [] || (Keyed(obs[..|obs| - 1], key) && SessionKey(Last(obs).flow) == key)
  }

  predicate Detail(env: Env, s: Session, obs: seq<Obs>) {
    obs != [] && FromFirst(env, s, obs[0].flow) && FromLast(s, Last(obs).flow)
  }

  ghost predicate Detailed(env: Env, w: World) {
    && (forall id :: id in w.db.sessions && id in w.hist ==> Detail(env, w.db.sessions[id], w.hist[id].obs))
    && (forall id :: id in w.hist ==> Keyed(w.hist[id].obs, w.hist[id].key))
  }

  lemma NewDetail(env: Env, fw: string, key: string, f: Flow, now: int)
    requires key == SessionKey(f)
    ensures var obs := [Obs(f, now, Some(Start))];
      Detail(env, NewSession(env, fw, key, f, now), obs) && Keyed(obs, key)
  {
    var obs := [Obs(f, now, Some(Start))];
    assert Keyed(obs[..0], key);
    assert Keyed(obs, key);
  }

  lemma StartDetailed(env: Env, w: World, e: Event)
    requires Detailed(env, w) && Enabled(w, e) && e.Clean() && e.Observe?
    requires SessionKey(e.flow) !in w.pollers[e.fw].open
    ensures Detailed(env, Step(env, w, e))
  {
    var v := Step(env, w, e);
    var row := NewSession(env, e.fw, SessionKey(e.flow), e.flow, e.now);
    StartEffect(env, w, e);
    NewDetail(env, e.fw, SessionKey(e.flow), e.flow, e.now);
    PutDetailed(env, w, v, w.db.lastId + 1, row, Trace(e.fw, SessionKey(e.flow), [Obs(e.flow, e.now, Some(Start))], None));
  }

  lemma PutDetailed(env: Env, w: World, v: World, id: int, s: Session, t: Trace)
    requires Detailed(env, w) && Detail(env, s, t.obs) && Keyed(t.obs, t.key)
    requires v.db.sessions == w.db.sessions[id := s] && v.hist == w.hist[id := t]
    ensures Detailed(env, v)
  {
  }

  lemma MoreDetail(env: Env, s: Session, obs: seq<Obs>, f: Flow, now: int, log: Option<EventKind>)
    requires Detail(env, s, obs)
    ensures Detail(env, Refreshed(s, RefreshOf(f, now)), obs + [Obs(f, now, log)])
  {
    assert (obs + [Obs(f, now, log)])[0] == obs[0];
  }

  lemma ContinueDetailed(env: Env, w: World, e: Event)
    requires Cached(w) && Recorded(w) && Detailed(env, w) && Enabled(w, e) && e.Clean() && e.Observe?
    requires SessionKey(e.flow) in w.pollers[e.fw].open
    ensures Detailed(env, Step(env, w, e))
  {
    var v, key := Step(env, w, e), SessionKey(e.flow);
    var k := w.pollers[e.fw].open[key];
    assert CacheEntry(w.db, e.fw, key, k);
    var s, t := w.db.sessions[k.id], w.hist[k.id];
    assert RowOk(s, t) && Keyed(t.obs, t.key);
    ContinueEffect(env, w, e);
    var o := Obs(e.flow, e.now, LogEvent(k, e.flow, e.now));
    MoreDetail(env, s, t.obs, e.flow, e.now, o.logged);
    LastOfAppend(t.obs, o);
    PutDetailed(env, w, v, k.id, Refreshed(s, RefreshOf(e.flow, e.now)), t.(obs := t.obs + [o]));
  }

  lemma CloseDetailed(env: Env, w: World, e: Event)
    requires Detailed(env, w) && Enabled(w, e) && e.Close?
    ensures Detailed(env, Step(env, w, e))
  {
    var v := Step(env, w, e);
    forall id | id in v.hist ensures id in w.hist && v.hist[id].obs == w.hist[id].obs && v.hist[id].key == w.hist[id].key {
    }
    forall id | id in v.db.sessions && id in v.hist ensures Detail(env, v.db.sessions[id], v.hist[id].obs) {
      assert Detail(env, w.db.sessions[id], w.hist[id].obs);
    }
  }

  lemma OtherDetailed(env: Env, w: World, e: Event)
    requires Detailed(env, w) && Enabled(w, e) && !e.Observe?
    ensures Detailed(env, Step(env, w, e))
  {
    if e.Close? {
      CloseDetailed(env, w, e);
    } else {
      var v := Step(env, w, e);
      assert v.hist == w.hist;
      forall id | id in v.db.sessions ensures id in w.db.sessions && v.db.sessions[id] == w.db.sessions[id] {
      }
    }
  }

  lemma {:induction false} RunDetailed(env: Env, events: seq<Event>)
    requires FirstBatch(env.scan) && Clean(events)
    ensures Detailed(env, Run(env, START, events))
  {
    if events != [] {
      var n := |events| - 1;
      RunDetailed(env, events[..n]);
      var w, e := Run(env, START, events[..n]), events[n];
      assert Faithful(env, w) by {
        StartFaithful(env);
        RunFaithful(env, START, events[..n]);
      }
      if Enabled(w, e) {
        if !e.Observe? { OtherDetailed(env, w, e); }
        else if SessionKey(e.flow) in w.pollers[e.fw].open { ContinueDetailed(env, w, e); }
        else { StartDetailed(env, w, e); }
      }
    }
  }

  /** After any clean run every session row, open or closed, shows its first flow in the columns that identify it and its
      last flow in the others, whatever polls, restarts and prunes came between. */
  lemma RowsExact(env: Env, events: seq<Event>, id: int)
    requires FirstBatch(env.scan) && Clean(events) && id in Run(env, START, events).db.sessions
    ensures var w := Run(env, START, events);
      && id in w.hist && w.hist[id].obs != []
      && FromFirst(env, w.db.sessions[id], w.hist[id].obs[0].flow)
      && FromLast(w.db.sessions[id], Last(w.hist[id].obs).flow)
  {
    RunDetailed(env, events);
    StartFaithful(env);
    RunFaithful(env, START, events);
    var w := Run(env, START, events);
    assert RowOk(w.db.sessions[id], w.hist[id]);
  }

  lemma {:induction false} KeyedAt(obs: seq<Obs>, key: string, i: nat)
    requires Keyed(obs, key) && i < |obs|
    ensures SessionKey(obs[i].flow) == key
  {
    if i < |obs| - 1 {
      assert obs[..|obs| - 1][i] == obs[i];
      KeyedAt(obs[..|obs| - 1], key, i);
    }
  }

  predicate PlainEnds(f: Flow) {
    PipeFree(f.originSrc) && PipeFree(f.originDst) && PipeFree(f.srcPort) && PipeFree(f.dstPort)
  }

  /** A session never mixes connections: all its flows, when free of pipes as parsed ones are, agree on protocol, addresses
      and ports, so the row's addresses and ports are those of each of them. */
  lemma OneConnection(env: Env, events: seq<Event>, id: int, i: nat)
    requires FirstBatch(env.scan) && Clean(events)
    requires var w := Run(env, START, events);
      id in w.db.sessions && id in w.hist && i < |w.hist[id].obs| && PlainEnds(w.hist[id].obs[0].flow)
      && PlainEnds(w.hist[id].obs[i].flow)
    ensures var w := Run(env, START, events); var s, f := w.db.sessions[id], w.hist[id].obs[i].flow;
      && ToUpper(s.protocol) == ToUpper(f.protocol) && s.originSrc == f.originSrc && s.originDst == f.originDst
      && s.srcPort == ParseInt(f.srcPort) && s.dstPort == ParseInt(f.dstPort)
  {
    RunDetailed(env, events);
    RowsExact(env, events, id);
    var t := Run(env, START, events).hist[id];
    KeyedAt(t.obs, t.key, 0);
    KeyedAt(t.obs, t.key, i);
    SessionKeyExact(t.obs[0].flow, t.obs[i].flow);
  }

  lemma {:induction false} LogShows(id: int, fw: string, obs: seq<Obs>, j: nat) returns (i: nat)
    requires j < |LogOf(id, fw, obs)|
    ensures i < |obs| && Shows(LogOf(id, fw, obs)[j], id, fw, obs[i])
  {
    var n := |obs| - 1;
    var rest := LogOf(id, fw, obs[..n]);
    if j < |rest| {
      i := LogShows(id, fw, obs[..n], j);
    } else {
      i := n;
    }
  }

  /** Every event row of a session whose log the pruner has not begun to delete shows, in all columns, an observation of
      that session and the kind of event it was. */
  lemma SamplesExact(env: Env, events: seq<Event>, id: int, j: nat)
    requires FirstBatch(env.scan) && Clean(events)
    requires var w := Run(env, START, events);
      id in w.db.sessions && id !in w.wiped && j < |SamplesOf(w.db.samples, id)|
    ensures var w := Run(env, START, events);
      && id in w.hist
      && exists i :: 0 <= i < |w.hist[id].obs| && Shows(SamplesOf(w.db.samples, id)[j], id, w.hist[id].fw, w.hist[id].obs[i])
  {
    StartFaithful(env);
    RunFaithful(env, START, events);
    var w := Run(env, START, events);
    var i := LogShows(id, w.hist[id].fw, w.hist[id].obs, j);
  }
}
