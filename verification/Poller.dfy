// The poller as an object: its map of open sessions, diffed against each batch of flows and kept in step with the store.

module Pollers {
  import opened Base
  import opened Flows
  import opened Stores
  import P = Tracker

  /** What the poller remembers of one open session; updated in place from poll to poll. */
  class TrackedSession {
    const sessionID: int
    var txBytes: int
    var rxBytes: int
    var tcpState: string
    var lastSampleAt: int

    constructor (id: int, tx: int, rx: int, state: string, at: int)
      ensures Value() == P.Tracked(id, tx, rx, state, at)
    {
      sessionID, txBytes, rxBytes, tcpState, lastSampleAt := id, tx, rx, state, at;
    }

    function Value(): P.Tracked
      reads this
    {
      P.Tracked(sessionID, txBytes, rxBytes, tcpState, lastSampleAt)
    }
  }

  class Poller {
    const fw: string
    const env: P.Env
    const store: Store
    var open: map<string, TrackedSession>
    var asked: seq<P.Ask>   // the calls made to the reputation callback
    ghost var repr: set<TrackedSession>
    ghost var tracked: map<string, P.Tracked>   // what the objects in the map say

    /** The map leads to this poller's own objects, no two keys share one, and `tracked` is their content. */
    ghost predicate Valid()
      reads this, repr
    {
      && open.Keys == tracked.Keys
      && (forall k :: k in open ==> open[k] in repr && open[k].Value() == tracked[k])
      && (forall j, k :: j in open && k in open && j != k ==> open[j] != open[k])
    }

    ghost function View(): P.PollState
      reads this, store
    {
      P.PollState(store.State(), tracked, asked)
    }

    constructor (fw: string, env: P.Env, store: Store)
      ensures Valid() && repr == {} && View() == P.PollState(store.State(), map[], [])
      ensures this.fw == fw && this.env == env && this.store == store
    {
      this.fw, this.env, this.store := fw, env, store;
      open, asked, repr, tracked := map[], [], {}, map[];
    }

    /** A restart: a fresh poller picks up every session the store still has open, or none when the store fails. */
    method LoadOpenSessions(now: int) returns (ok: bool)
      requires Valid() && 0 <= store.lastId
      modifies this`open, this`repr, this`tracked
      ensures Valid() && fresh(repr - old(repr))
      ensures tracked == if ok then old(tracked) + P.LoadOpen(store.State(), fw, now) else old(tracked)
    {
      var rows;
      ok, rows := store.OpenSessions(fw);
      if !ok {
        return;
      }
      var todo := rows.Keys;
      while todo != {}
        invariant todo <= rows.Keys && Valid() && fresh(repr - old(repr))
        invariant tracked == old(tracked) + Loaded(rows, rows.Keys - todo, now)
        decreases |todo|
      {
        var key :| key in todo;
        LoadedOneMore(old(tracked), rows, todo, key, now);
        todo := todo - {key};
        var r := rows[key];
        var t := new TrackedSession(r.id, r.row.txBytes, r.row.rxBytes, r.row.tcpState, now);
        Put(key, t);
      }
      AllLoaded(store.State(), fw, rows, now);
    }

    method Put(key: string, t: TrackedSession)
      requires Valid() && t !in repr
      modifies this`open, this`repr, this`tracked
      ensures Valid() && repr == old(repr) + {t}
      ensures tracked == old(tracked)[key := t.Value()]
    {
      open, repr, tracked := open[key := t], repr + {t}, tracked[key := t.Value()];
    }

    /** One observed flow: open a session, or extend the tracked one. `calls` is how many store calls succeeded. */
    method ApplyFlow(f: Flow, key: string, now: int) returns (ok: bool, ghost calls: nat)
      requires Valid()
      modifies this, store, repr
      ensures Valid() && fresh(repr - old(repr))
      ensures View() == P.ApplyFlow(env, fw, old(View()), f, key, now, calls)
      ensures ok <==> calls == P.ALL_CALLS
    {
      if key !in open {
        ok, calls := StartFlow(f, key, now);
      } else {
        ok, calls := ContinueFlow(f, key, now);
      }
    }

    method StartFlow(f: Flow, key: string, now: int) returns (ok: bool, ghost calls: nat)
      requires Valid() && key !in open
      modifies this, store
      ensures Valid() && fresh(repr - old(repr))
      ensures View() == P.StartFlow(env, fw, old(View()), f, key, now, calls)
      ensures ok <==> calls == P.ALL_CALLS
    {
      var id;
      ok, id, calls := RecordStart(f, key, now);
      if !ok { return; }
      Track(f, key, id, now);
    }

    /** Only a session whose store calls all succeeded is looked up and tracked. */
    method Track(f: Flow, key: string, id: int, now: int)
      requires Valid()
      modifies this
      ensures Valid() && fresh(repr - old(repr))
      ensures tracked == old(tracked)[key := P.TrackedOf(id, f, now)] && asked == old(asked) + P.Asks(env, fw, f)
    {
      RequestLookup(f);
      var t := new TrackedSession(id, f.txBytes, f.rxBytes, f.tcpState, now);
      Put(key, t);
    }

    /** The store calls of a new session: its row, its first sample, its bucket. */
    method RecordStart(f: Flow, key: string, now: int) returns (ok: bool, id: int, ghost calls: nat)
      modifies store
      ensures store.State() == P.StartFlow(env, fw, old(View()), f, key, now, calls).db
      ensures calls <= P.ALL_CALLS && (ok <==> calls == P.ALL_CALLS) && (ok ==> id == old(store.lastId) + 1)
    {
      calls := 0;
      ok, id := store.InsertSession(P.NewSession(env, fw, key, f, now));
      if !ok { return; }
      calls := 1;
      ok := store.InsertSample(P.SampleOf(id, fw, T.Start, now, f));
      if !ok { return; }
      calls := 2;
      ok := store.BumpPortUsage(P.BucketOf(fw, f), f.originDst, now, f.Bytes(), true, P.ScopeOf(env, f));
      if !ok { return; }
      calls := 3;
    }

    method RequestLookup(f: Flow)
      modifies this`asked
      ensures asked == old(asked) + P.Asks(env, fw, f)
    {
      if !env.isPrivate(f.originDst) {
        asked := asked + [P.Ask(fw, f.originDst, 0)];
      }
    }

    method ContinueFlow(f: Flow, key: string, now: int) returns (ok: bool, ghost calls: nat)
      requires Valid() && key in open
      modifies this`tracked, store, repr
      ensures Valid() && View() == P.ContinueFlow(env, fw, old(View()), f, key, now, calls)
      ensures ok <==> calls == P.ALL_CALLS
    {
      var t := open[key];
      ok, calls := RecordReading(t, f, now);
      if !ok { return; }
      var sampledAt;
      ok, sampledAt := LogReading(t, f, now);
      if !ok { return; }
      calls := 3;
      Refresh(key, f, sampledAt);
    }

    /** The first two store calls for a tracked session: its row, and its bucket with the growth since the last reading. */
    method RecordReading(t: TrackedSession, f: Flow, now: int) returns (ok: bool, ghost calls: nat)
      modifies store
      ensures store.State() == Read(old(store.State()), env, fw, t.Value(), f, now, calls)
      ensures calls <= 2 && (ok <==> calls == 2)
    {
      calls := 0;
      var delta := f.Bytes() - (t.txBytes + t.rxBytes);
      if delta < 0 {
        delta := 0;
      }
      ok := store.UpdateSession(t.sessionID, P.RefreshOf(f, now));
      if !ok { return; }
      calls := 1;
      ok := store.BumpPortUsage(P.BucketOf(fw, f), f.originDst, now, delta, false, P.ScopeOf(env, f));
      if !ok { return; }
      calls := 2;
    }

    /** A change of state or a due heartbeat adds a row to the event log. */
    method LogReading(t: TrackedSession, f: Flow, now: int) returns (ok: bool, sampledAt: int)
      modifies store
      ensures var log := P.LogRow(fw, t.Value(), f, now);
        && store.State() == (if ok && log.Some? then T.InsertSample(old(store.State()), log.value) else old(store.State()))
        && (!ok ==> log.Some?)
        && (ok ==> P.TrackedOf(t.sessionID, f, sampledAt) == P.NextTracked(t.Value(), f, now))
    {
      var stateChanged := f.tcpState != t.tcpState;
      var dueForHeartbeat := now - t.lastSampleAt >= P.HEARTBEAT;
      ok, sampledAt := true, t.lastSampleAt;
      if stateChanged || dueForHeartbeat {
        var kind := if stateChanged then T.StateChange else T.Heartbeat;
        ok := store.InsertSample(P.SampleOf(t.sessionID, fw, kind, now, f));
        if !ok { return; }
        sampledAt := now;
      }
    }

    /** The tracked object takes over the reading, in place. */
    method Refresh(key: string, f: Flow, sampledAt: int)
      requires Valid() && key in open
      modifies this`tracked, open[key]
      ensures Valid() && tracked == old(tracked)[key := P.TrackedOf(old(tracked)[key].id, f, sampledAt)]
    {
      var t := open[key];
      t.txBytes, t.rxBytes, t.tcpState, t.lastSampleAt := f.txBytes, f.rxBytes, f.tcpState, sampledAt;
      tracked := tracked[key := t.Value()];
    }

    /** Close what the batch no longer shows, in whatever order the map is walked. `failed` are the keys whose close
        statement failed; they stay tracked. */
    method CloseMissing(seen: set<string>, now: int) returns (ghost failed: set<string>)
      requires Valid()
      modifies this`open, this`tracked, store
      ensures Valid()
      ensures View() == P.CloseMissing(old(View()), seen, failed, now)
    {
      failed := {};
      ghost var before := View();
      ghost var gone: set<string> := {};
      var todo := open.Keys;
      NothingClosed(before, now);
      while todo != {}
        invariant Valid() && todo <= open.Keys && failed !! todo
        invariant gone == P.Doomed(before.open, seen, failed) - todo
        invariant View() == Partly(before, gone, now)
        decreases |todo|
      {
        var key :| key in todo;
        DoomedOneLess(before.open, seen, failed, todo, key);
        todo := todo - {key};
        if key !in seen {
          var ok := CloseOne(key, now);
          if ok {
            PartlyOneMore(before, gone, key, now);
            gone := gone + {key};
          } else {
            failed := failed + {key};
          }
        }
      }
      CloseAll(before, seen, failed, now);
    }

    /** Close one tracked session; if the statement fails it stays tracked. */
    method CloseOne(key: string, now: int) returns (ok: bool)
      requires Valid() && key in open
      modifies this`open, this`tracked, store
      ensures Valid() && old(open.Keys) - {key} <= open.Keys
      ensures View() == if ok then CloseTracked(old(View()), key, now) else old(View())
    {
      ok := store.CloseSession(open[key].sessionID, now);
      if ok {
        open, tracked := open - {key}, tracked - {key};
      }
    }

    /** One poll. Without failing store calls (every entry of `calls` complete, `failed` empty) this is the exact diff. */
    method ApplyPoll(flows: seq<Flow>, now: int) returns (ghost calls: seq<nat>, ghost failed: set<string>)
      requires Valid()
      modifies this, store, repr
      ensures Valid() && fresh(repr - old(repr))
      ensures |calls| == |flows|
      ensures View() == P.ApplyPoll(env, fw, old(View()), flows, now, calls, failed)
    {
      var seen;
      seen, calls := ApplyFlows(flows, now);
      failed := CloseMissing(seen, now);
    }

    method ApplyFlows(flows: seq<Flow>, now: int) returns (seen: set<string>, ghost calls: seq<nat>)
      requires Valid()
      modifies this, store, repr
      ensures Valid() && fresh(repr - old(repr))
      ensures |calls| == |flows| && seen == P.Keys(flows)
      ensures View() == P.ApplyFlows(env, fw, old(View()), flows, now, calls)
    {
      seen, calls := {}, [];
      for i := 0 to |flows|
        invariant Valid() && fresh(repr - old(repr))
        invariant |calls| == i && seen == P.Keys(flows[..i])
        invariant View() == P.ApplyFlows(env, fw, old(View()), flows[..i], now, calls)
      {
        var key := SessionKey(flows[i]);
        seen := seen + {key};
        var ok; ghost var n;
        ok, n := ApplyFlow(flows[i], key, now);
        ApplyOneMore(env, fw, old(View()), flows, i, now, calls, n);
        calls := calls + [n];
      }
      assert flows[..|flows|] == flows;
    }
  }

  /** The tables after the first store calls for a reading. */
  function Read(db: T.Db, env: P.Env, fw: string, t: P.Tracked, f: Flow, now: int, calls: nat): T.Db {
    if calls == 0 then db
    else
      var db1 := T.UpdateSession(db, t.id, P.RefreshOf(f, now));
      if calls == 1 then db1
      else T.Bump(db1, P.BucketOf(fw, f), f.originDst, now, P.Delta(t.Bytes(), f.Bytes()), false, P.ScopeOf(env, f))
  }

  lemma ApplyOneMore(env: P.Env, fw: string, st: P.PollState, flows: seq<Flow>, i: nat, now: int, calls: seq<nat>, n: nat)
    requires i < |flows| && |calls| == i
    ensures P.Keys(flows[..i + 1]) == P.Keys(flows[..i]) + {SessionKey(flows[i])}
    ensures P.ApplyFlows(env, fw, st, flows[..i + 1], now, calls + [n])
         == P.ApplyFlow(env, fw, P.ApplyFlows(env, fw, st, flows[..i], now, calls), flows[i], SessionKey(flows[i]), now, n)
  {
    var prefix, more := flows[..i + 1], calls + [n];
    assert prefix[..i] == flows[..i] && prefix == flows[..i] + [flows[i]] && more[..i] == calls;
  }

  /** The three ways one key is settled: seen, failed, or closed. */
  lemma DoomedOneLess(open: map<string, P.Tracked>, seen: set<string>, failed: set<string>, todo: set<string>, key: string)
    requires key in open && key in todo && failed !! todo
    ensures var gone := P.Doomed(open, seen, failed) - todo;
      && (key in seen ==> P.Doomed(open, seen, failed) - (todo - {key}) == gone)
      && P.Doomed(open, seen, failed + {key}) - (todo - {key}) == gone
      && (key !in seen ==> P.Doomed(open, seen, failed) - (todo - {key}) == gone + {key})
  {
  }

  function CloseTracked(st: P.PollState, key: string, now: int): P.PollState {
    if key in st.open
    then st.(db := T.CloseSession(st.db, st.open[key].id, now), open := st.open - {key})
    else st
  }

  /** The state once the sessions tracked under some keys have been closed. */
  function Partly(st: P.PollState, gone: set<string>, now: int): P.PollState
    requires gone <= st.open.Keys
  {
    P.PollState(Closed(st, gone, now), st.open - gone, st.asked)
  }

  lemma NothingClosed(st: P.PollState, now: int)
    ensures Partly(st, {}, now) == st
  {
    assert Closed(st, {}, now) == st.db;
    assert st.open - {} == st.open;
  }

  lemma PartlyOneMore(st: P.PollState, gone: set<string>, key: string, now: int)
    requires gone <= st.open.Keys && key in st.open && key !in gone
    ensures CloseTracked(Partly(st, gone, now), key, now) == Partly(st, gone + {key}, now)
  {
    ClosedOneMore(st, gone, key, now);
    assert st.open - gone - {key} == st.open - (gone + {key});
  }

  lemma CloseAll(st: P.PollState, seen: set<string>, failed: set<string>, now: int)
    ensures P.CloseMissing(st, seen, failed, now) == Partly(st, P.Doomed(st.open, seen, failed) - {}, now)
  {
    assert P.Doomed(st.open, seen, failed) - {} == P.Doomed(st.open, seen, failed);
  }

  function Loaded(rows: map<string, Found>, keys: set<string>, now: int): map<string, P.Tracked>
    requires keys <= rows.Keys
  {
    map k | k in keys :: Resumed(rows[k], now)
  }

  lemma LoadedOneMore(before: map<string, P.Tracked>, rows: map<string, Found>, todo: set<string>, key: string, now: int)
    requires key in todo && key in rows
    ensures before + Loaded(rows, rows.Keys - (todo - {key}), now)
         == (before + Loaded(rows, rows.Keys - todo, now))[key := Resumed(rows[key], now)]
  {
  }

  lemma AllLoaded(db: T.Db, fw: string, rows: map<string, Found>, now: int)
    requires 0 <= db.lastId && rows.Keys == T.ScanOpen(db, fw, db.lastId).Keys
    requires forall k :: k in rows ==>
               var id := T.ScanOpen(db, fw, db.lastId)[k]; id in db.sessions && rows[k] == Found(id, db.sessions[id])
    ensures Loaded(rows, rows.Keys - {}, now) == P.LoadOpen(db, fw, now)
  {
  }

  function Resumed(r: Found, now: int): P.Tracked {
    P.Tracked(r.id, r.row.txBytes, r.row.rxBytes, r.row.tcpState, now)
  }

  /** The tables once the sessions tracked under some keys have been closed. */
  function Closed(st: P.PollState, keys: set<string>, now: int): T.Db
    requires keys <= st.open.Keys
  {
    var ids := set k | k in keys :: st.open[k].id;
    st.db.(sessions := map id | id in st.db.sessions ::
      if id in ids then st.db.sessions[id].(closedAt := Some(T.Unix(now))) else st.db.sessions[id])
  }

  lemma ClosedOneMore(st: P.PollState, keys: set<string>, key: string, now: int)
    requires keys <= st.open.Keys && key in st.open
    ensures Closed(st, keys + {key}, now) == T.CloseSession(Closed(st, keys, now), st.open[key].id, now)
  {
    var ids := set k | k in keys :: st.open[k].id;
    assert (set k | k in keys + {key} :: st.open[k].id) == ids + {st.open[key].id};
    assert Closed(st, keys + {key}, now).sessions == T.CloseSession(Closed(st, keys, now), st.open[key].id, now).sessions;
  }
}
