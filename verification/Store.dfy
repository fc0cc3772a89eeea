// The store as an object: tables held in fields, one method per call. A call may fail, and then it changes nothing.

module Stores {
  import opened Base
  import T = Tables
  import opened TableFacts
  import opened Batches

  /** A row as OpenSessions returns it. */
  datatype Found = Found(id: int, row: T.Session)

  class Store {
    var sessions: map<int, T.Session>
    var lastId: int
    var samples: seq<T.Sample>
    var usage: map<T.Bucket, T.Usage>
    var dst: map<T.DstKey, int>
    const scan: T.Scan

    function State(): T.Db
      reads this
    {
      T.Db(sessions, lastId, samples, usage, dst)
    }

    constructor (scan: T.Scan)
      ensures State() == T.EMPTY && this.scan == scan
    {
      sessions, lastId, samples, usage, dst := map[], 0, [], map[], map[];
      this.scan := scan;
    }

    // ----- flow_sessions -------------------------------------------------------------

    method InsertSession(s: T.Session) returns (ok: bool, id: int)
      modifies this
      ensures ok ==> State() == T.InsertSession(old(State()), s) && id == State().lastId
      ensures !ok ==> State() == old(State())
    {
      ok, id := *, 0;
      if ok {
        lastId := lastId + 1;
        id := lastId;
        sessions := sessions[id := s.(closedAt := None)];
      }
    }

    method UpdateSession(id: int, u: T.Refresh) returns (ok: bool)
      modifies this
      ensures State() == if ok then T.UpdateSession(old(State()), id, u) else old(State())
    {
      ok := *;
      if ok && id in sessions {
        sessions := sessions[id := T.Refreshed(sessions[id], u)];
      }
    }

    method CloseSession(id: int, at: int) returns (ok: bool)
      modifies this
      ensures State() == if ok then T.CloseSession(old(State()), id, at) else old(State())
    {
      ok := *;
      if ok && id in sessions {
        sessions := sessions[id := sessions[id].(closedAt := Some(T.Unix(at)))];
      }
    }

    /** Rows come in id order; a later row takes the place of an earlier one with the same key. */
    method OpenSessions(fw: string) returns (ok: bool, rows: map<string, Found>)
      requires 0 <= lastId
      ensures !ok ==> rows == map[]
      ensures ok ==> rows.Keys == T.ScanOpen(State(), fw, lastId).Keys
      ensures ok ==> forall k :: k in rows ==>
                var id := T.ScanOpen(State(), fw, lastId)[k];
                id in sessions && rows[k] == Found(id, sessions[id])
    {
      ok, rows := *, map[];
      if !ok {
        return;
      }
      for id := 1 to lastId + 1
        invariant rows.Keys == T.ScanOpen(State(), fw, id - 1).Keys
        invariant forall k :: k in rows ==>
                    var i := T.ScanOpen(State(), fw, id - 1)[k];
                    i in sessions && rows[k] == Found(i, sessions[i])
      {
        if id in sessions && sessions[id].closedAt == None && sessions[id].fw == fw {
          rows := rows[sessions[id].key := Found(id, sessions[id])];
        }
      }
    }

    // ----- flow_samples --------------------------------------------------------------

    /** Refused when the session does not exist: the foreign key. */
    method InsertSample(s: T.Sample) returns (ok: bool)
      modifies this
      ensures ok ==> T.SampleAllowed(old(State()), s)
      ensures State() == if ok then T.InsertSample(old(State()), s) else old(State())
    {
      ok := *;
      ok := ok && s.sessionId in sessions;
      if ok {
        samples := samples + [s];
      }
    }

    // ----- port_usage ----------------------------------------------------------------

    method BumpPortUsage(b: T.Bucket, ip: string, at: int, byteDelta: int, isNew: bool, scope: T.Scope) returns (ok: bool)
      modifies this
      ensures State() == if ok then T.Bump(old(State()), b, ip, at, byteDelta, isNew, scope) else old(State())
    {
      ok := *;
      if ok {
        var now := T.Unix(at);
        usage := usage[b := T.Upsert(T.Lookup(usage, b), now, byteDelta, isNew, scope)];
        var d := T.DstKey(b, ip);
        if d !in dst {
          dst := dst[d := now];
          usage := usage[b := usage[b].(distinctDstIPs := usage[b].distinctDstIPs + 1)];
        }
      }
    }

    // ----- Pruning -------------------------------------------------------------------

    method DeleteSamplesOf(ids: set<int>) returns (ok: bool, n: int)
      modifies this
      ensures State() == if ok then T.DeleteSamples(old(State()), ids) else old(State())
      ensures n == if ok then CountIn(old(samples), ids) else 0
    {
      ok, n := *, 0;
      if ok {
        CountDrop(samples, ids, ids);
        var kept := T.DropSamples(samples, ids);
        n := |samples| - |kept|;
        samples := kept;
      }
    }

    /** Refused when a sample still names one of the rows: the foreign key. */
    method DeleteSessionRows(ids: set<int>) returns (ok: bool, n: int)
      modifies this
      ensures State() == if ok then T.DeleteSessions(old(State()), ids) else old(State())
      ensures n == if ok then |ids| else 0
      ensures ok ==> !T.References(old(samples), ids)
    {
      ok, n := *, 0;
      ok := ok && !T.References(samples, ids);
      if ok {
        n := |ids|;
        sessions := sessions - ids;
      }
    }

    /** The first delete of a round. */
    method PruneSamples(cut: int, ghost p: T.Prune) returns (ok: bool, n: int)
      requires State() == p.db
      modifies this
      ensures T.Prune(State(), p.sessions, p.samples + n) == if ok then T.FirstDelete(scan, p, cut) else p
    {
      var batch := scan(T.Eligible(State(), cut));
      ok, n := DeleteSamplesOf(batch);
      CountDrop(old(samples), batch, batch);
    }

    /** The second. */
    method PruneRows(cut: int, ghost p: T.Prune) returns (ok: bool, n: int)
      requires State() == p.db
      modifies this
      ensures T.Prune(State(), p.sessions + n, p.samples) == if ok then T.SecondDelete(scan, p, cut) else p
      ensures ok ==> n == |scan(T.Eligible(p.db, cut))|
    {
      ok, n := DeleteSessionRows(scan(T.Eligible(State(), cut)));
    }

    /** Batch after batch, samples first, until a batch comes back short; `rounds` and `half` say how many deletes succeeded.
        On success exactly the closed sessions older than the cutoff and their samples are gone, and both counts are exact;
        on an error nothing else was touched. */
    method PruneOlderThan(cut: int)
      returns (ok: bool, sessionsDeleted: int, samplesDeleted: int, ghost rounds: nat, ghost half: bool)
      requires T.FirstBatch(scan)
      modifies this
      ensures T.Prune(State(), sessionsDeleted, samplesDeleted) == T.PruneAt(scan, old(State()), cut, rounds, half)
      ensures rounds <= T.PruneRounds(old(State()), cut) && (ok <==> rounds == T.PruneRounds(old(State()), cut))
      ensures ok ==> !half
      ensures Spared(old(State()), State(), cut)
      ensures ok ==> Pruned(old(State()), State(), cut, sessionsDeleted, samplesDeleted)
    {
      ghost var before := State();
      ghost var p := T.Prune(before, 0, 0);
      sessionsDeleted, samplesDeleted, rounds, half := 0, 0, 0, false;
      while true
        invariant T.Prune(State(), sessionsDeleted, samplesDeleted) == p == T.PruneAt(scan, before, cut, rounds, false)
        invariant rounds < T.PruneRounds(before, cut) && !half
        decreases T.PruneRounds(before, cut) - rounds
      {
        ShortBatch(scan, before, cut, rounds);
        var n;
        ok, n := PruneSamples(cut, p);
        if !ok {
          break;
        }
        samplesDeleted, half, p := samplesDeleted + n, true, T.FirstDelete(scan, p, cut);
        ok, n := PruneRows(cut, p);
        if !ok {
          break;
        }
        sessionsDeleted, rounds, half, p := sessionsDeleted + n, rounds + 1, false, T.SecondDelete(scan, p, cut);
        if n < T.BATCH {
          break;
        }
      }
      assert T.Prune(State(), sessionsDeleted, samplesDeleted) == T.PruneAt(scan, before, cut, rounds, half);
      PruneMeans(scan, before, cut, rounds, half);
    }
  }
}
