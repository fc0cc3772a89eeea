// What the poller does to the tables and to its map of open sessions, as functions on values.
// `calls` is how many store calls of one applyFlow succeed: it stops at the first that fails.

module Tracker {
  import opened Base
  import opened Text
  import opened Flows
  import opened Tables

  const HEARTBEAT: int := 5 * 60 * SECOND

  /** The parts of the program whose inside is not modelled. */
  datatype Env = Env(isPrivate: string -> bool, scan: Scan)

  datatype Tracked = Tracked(id: int, txBytes: int, rxBytes: int, tcpState: string, lastSampleAt: int)
  {
    function Bytes(): int {
      txBytes + rxBytes
    }
  }

  /** One request for a reputation lookup, as the poller hands it to its callback. */
  datatype Ask = Ask(fw: string, ip: string, priority: int)

  datatype PollState = PollState(db: Db, open: map<string, Tracked>, asked: seq<Ask>)

  const ALL_CALLS: nat := 3

  // ----- Rows made from a flow -------------------------------------------------------

  function BucketOf(fw: string, f: Flow): Bucket {
    Bucket(fw, f.protocol, ParseInt(f.dstPort), f.application)
  }

  function ScopeOf(env: Env, f: Flow): Scope {
    ClassifyScope(env.isPrivate(f.originSrc), env.isPrivate(f.originDst))
  }

  function NewSession(env: Env, fw: string, key: string, f: Flow, now: int): Session {
    Session(fw, key, f.protocol, f.originSrc, f.originDst, ParseInt(f.srcPort), ParseInt(f.dstPort),
            f.natedIP, ParseInt(f.natedPort), f.tcpState, f.direction, f.application, f.hostName, ParseInt(f.ttl),
            f.txPackets, f.txBytes, f.rxPackets, f.rxBytes,
            env.isPrivate(f.originSrc), env.isPrivate(f.originDst), Unix(now), Unix(now), 1, None)
  }

  function RefreshOf(f: Flow, now: int): Refresh {
    Refresh(f.tcpState, f.direction, f.application, f.hostName, ParseInt(f.ttl),
            f.txPackets, f.txBytes, f.rxPackets, f.rxBytes, Unix(now))
  }

  function SampleOf(id: int, fw: string, kind: EventKind, now: int, f: Flow): Sample {
    Sample(id, fw, kind, Unix(now), f.protocol, f.originSrc, f.originDst, ParseInt(f.srcPort), ParseInt(f.dstPort),
           f.natedIP, ParseInt(f.natedPort), f.tcpState, f.direction, f.application, f.hostName, ParseInt(f.ttl),
           f.txPackets, f.txBytes, f.rxPackets, f.rxBytes)
  }

  function TrackedOf(id: int, f: Flow, lastSampleAt: int): Tracked {
    Tracked(id, f.txBytes, f.rxBytes, f.tcpState, lastSampleAt)
  }

  /** A lookup is asked for exactly when the destination is public. */
  function Asks(env: Env, fw: string, f: Flow): seq<Ask> {
    if env.isPrivate(f.originDst) then [] else [Ask(fw, f.originDst, 0)]
  }

  // ----- applyFlow -------------------------------------------------------------------

  function ApplyFlow(env: Env, fw: string, st: PollState, f: Flow, key: string, now: int, calls: nat): PollState {
    if key in st.open then ContinueFlow(env, fw, st, f, key, now, calls) else StartFlow(env, fw, st, f, key, now, calls)
  }

  function StartFlow(env: Env, fw: string, st: PollState, f: Flow, key: string, now: int, calls: nat): PollState {
    var id := st.db.lastId + 1;
    Begin(st, key, NewSession(env, fw, key, f, now), SampleOf(id, fw, Start, now, f),
          BucketOf(fw, f), f.originDst, now, f.Bytes(), ScopeOf(env, f), TrackedOf(id, f, now),
          Asks(env, fw, f), calls)
  }

  /** The calls for a session not yet tracked, in order; only after the last does the poller track it. */
  function Begin(st: PollState, key: string, row: Session, s: Sample, b: Bucket, ip: string, now: int, bytes: int,
                 scope: Scope, next: Tracked, asks: seq<Ask>, calls: nat): PollState {
    if calls == 0 then st
    else
      var db1 := InsertSession(st.db, row);
      if calls == 1 then st.(db := db1)
      else
        var db2 := InsertSample(db1, s);
        if calls == 2 then st.(db := db2)
        else PollState(Bump(db2, b, ip, now, bytes, true, scope), st.open[key := next], st.asked + asks)
  }

  /** A counter that went backwards counts as a fresh baseline. */
  function Delta(before: int, after: int): int {
    Max(after - before, 0)
  }

  /** Which event, if any, an observation of a tracked session adds to its log. */
  function LogEvent(t: Tracked, f: Flow, now: int): Option<EventKind> {
    if f.tcpState != t.tcpState then Some(StateChange)
    else if now - t.lastSampleAt >= HEARTBEAT then Some(Heartbeat)
    else None
  }

  function LogRow(fw: string, t: Tracked, f: Flow, now: int): Option<Sample> {
    match LogEvent(t, f, now)
    case None => None
    case Some(kind) => Some(SampleOf(t.id, fw, kind, now, f))
  }

  function NextTracked(t: Tracked, f: Flow, now: int): Tracked {
    TrackedOf(t.id, f, if LogEvent(t, f, now).Some? then now else t.lastSampleAt)
  }

  function ContinueFlow(env: Env, fw: string, st: PollState, f: Flow, key: string, now: int, calls: nat): PollState
    requires key in st.open
  {
    var t := st.open[key];
    Extend(st, key, t.id, RefreshOf(f, now), BucketOf(fw, f), f.originDst, now, Delta(t.Bytes(), f.Bytes()), ScopeOf(env, f),
           LogRow(fw, t, f, now), NextTracked(t, f, now), calls)
  }

  /** The calls for a tracked session, in order; only after the last does the poller refresh what it tracks. */
  function Extend(st: PollState, key: string, id: int, u: Refresh, b: Bucket, ip: string, now: int, delta: int,
                  scope: Scope, log: Option<Sample>, next: Tracked, calls: nat): PollState {
    if calls == 0 then st
    else
      var db1 := UpdateSession(st.db, id, u);
      if calls == 1 then st.(db := db1)
      else
        var db2 := Bump(db1, b, ip, now, delta, false, scope);
        if log.None? then st.(db := db2, open := st.open[key := next])
        else if calls == 2 then st.(db := db2)
        else st.(db := InsertSample(db2, log.value), open := st.open[key := next])
  }

  // ----- closeMissing and loadOpenSessions -------------------------------------------

  /** The tracked keys closeMissing removes: not seen, and the CLOSE statement did not fail. */
  function Doomed(open: map<string, Tracked>, seen: set<string>, failed: set<string>): set<string> {
    set k | k in open && k !in seen && k !in failed
  }

  function CloseMissing(st: PollState, seen: set<string>, failed: set<string>, now: int): PollState {
    var doomed := Doomed(st.open, seen, failed);
    var ids := set k | k in doomed :: st.open[k].id;
    st.(db := st.db.(sessions := map id | id in st.db.sessions ::
                      if id in ids then st.db.sessions[id].(closedAt := Some(Unix(now))) else st.db.sessions[id]),
        open := st.open - doomed)
  }

  function Resume(db: Db, id: int, now: int): Tracked
    requires id in db.sessions
  {
    Tracked(id, db.sessions[id].txBytes, db.sessions[id].rxBytes, db.sessions[id].tcpState, now)
  }

  /** A fresh poller's map: one entry per open session row of its firewall. */
  function LoadOpen(db: Db, fw: string, now: int): map<string, Tracked> {
    var m := ScanOpen(db, fw, Max(db.lastId, 0));
    map k | k in m && m[k] in db.sessions :: Resume(db, m[k], now)
  }

  // ----- ApplyPoll -------------------------------------------------------------------

  function ApplyFlows(env: Env, fw: string, st: PollState, flows: seq<Flow>, now: int, calls: seq<nat>): PollState
    requires |calls| == |flows|
  {
    if flows == [] then st
    else
      var n := |flows| - 1;
      ApplyFlow(env, fw, ApplyFlows(env, fw, st, flows[..n], now, calls[..n]), flows[n], SessionKey(flows[n]), now, calls[n])
  }

  function Keys(flows: seq<Flow>): set<string> {
    set f | f in flows :: SessionKey(f)
  }

  /** One batch of flows: apply each in turn, then close what the batch no longer shows. */
  function ApplyPoll(env: Env, fw: string, st: PollState, flows: seq<Flow>, now: int,
                     calls: seq<nat>, failed: set<string>): PollState
    requires |calls| == |flows|
  {
    CloseMissing(ApplyFlows(env, fw, st, flows, now, calls), Keys(flows), failed, now)
  }

  // ----- Whole runs ------------------------------------------------------------------

  /** One thing a poll showed about one session, and what the event log recorded of it. */
  datatype Obs = Obs(flow: Flow, at: int, logged: Option<EventKind>)

  /** Everything that ever happened to one session row; it outlives the row. */
  datatype Trace = Trace(fw: string, key: string, obs: seq<Obs>, closedAt: Option<int>)

  /** Where PruneOlderThan stands: before its first delete, between its two deletes, or returned; Failed when the foreign
      key refused the second delete, Aborted when a statement failed for a reason of its own. */
  datatype Pruner =
    | Idle
    | Head(cut: int, sessions: int, samples: int, rounds: nat)
    | Mid(cut: int, sessions: int, samples: int, rounds: nat)
    | Done(cut: int, sessions: int, samples: int, rounds: nat)
    | Failed(cut: int, sessions: int, samples: int, rounds: nat)
    | Aborted(cut: int, sessions: int, samples: int, rounds: nat)

  /** A poller process: its map, the time of its latest poll, and when it was started. */
  datatype Poller = Poller(open: map<string, Tracked>, clock: int, since: int)

  datatype World = World(
    db: Db, pollers: map<string, Poller>, asked: seq<Ask>, pruner: Pruner,
    hist: map<int, Trace>, wiped: set<int>)

  const START: World := World(EMPTY, map[], [], Idle, map[], {})

  datatype Event =
    | Load(fw: string, now: int, ok: bool)                           // a poller (re)starts; it goes on if its load fails
    | Observe(fw: string, flow: Flow, now: int, calls: nat)          // one applyFlow
    | Close(fw: string, seen: set<string>, failed: set<string>, now: int) // the end of a poll
    | PruneStart(cut: int)
    | PruneSamples
    | PruneSessions
    | PruneFails                                                     // the next of the two statements fails
  {
    predicate ByPoller() {
      Load? || Observe? || Close?
    }

    /** No store call of a poller fails. */
    predicate Clean() {
      (Load? ==> ok) && (Observe? ==> calls >= ALL_CALLS) && (Close? ==> failed == {})
    }
  }

  /** A poller's clock does not go back, and no poll is older than the cutoff of a prune. */
  predicate Enabled(w: World, e: Event) {
    match e
    case Load(fw, now, _) => (fw in w.pollers ==> w.pollers[fw].clock <= now) && (w.pruner.Idle? || w.pruner.cut <= Unix(now))
    case Observe(fw, _, now, _) => fw in w.pollers && w.pollers[fw].clock <= now && (w.pruner.Idle? || w.pruner.cut <= Unix(now))
    case Close(fw, _, _, now) => fw in w.pollers && w.pollers[fw].clock <= now && (w.pruner.Idle? || w.pruner.cut <= Unix(now))
    case PruneStart(_) => !w.pruner.Head? && !w.pruner.Mid?
    case PruneSamples => w.pruner.Head?
    case PruneSessions => w.pruner.Mid?
    case PruneFails => w.pruner.Head? || w.pruner.Mid?
  }

  function View(w: World, fw: string): PollState
    requires fw in w.pollers
  {
    PollState(w.db, w.pollers[fw].open, w.asked)
  }

  function Observed(w: World, fw: string, f: Flow, key: string, now: int): map<int, Trace>
    requires fw in w.pollers
  {
    var open := w.pollers[fw].open;
    if key in open then
      var id := open[key].id;
      if id in w.hist then
        w.hist[id := w.hist[id].(obs := w.hist[id].obs + [Obs(f, now, LogEvent(open[key], f, now))])]
      else w.hist
    else w.hist[w.db.lastId + 1 := Trace(fw, key, [Obs(f, now, Some(Start))], None)]
  }

  function ClosedTraces(hist: map<int, Trace>, ids: set<int>, now: int): map<int, Trace> {
    map id | id in hist :: if id in ids then hist[id].(closedAt := Some(now)) else hist[id]
  }

  function DoomedIds(open: map<string, Tracked>, seen: set<string>, failed: set<string>): set<int> {
    set k | k in Doomed(open, seen, failed) :: open[k].id
  }

  /** An event that cannot happen leaves the world as it is. */
  function Step(env: Env, w: World, e: Event): World {
    if !Enabled(w, e) then w
    else match e
      case Load(fw, now, ok) =>
        w.(pollers := w.pollers[fw := Poller(if ok then LoadOpen(w.db, fw, now) else map[], now, now)])
      case Observe(fw, f, now, calls) =>
        var key := SessionKey(f);
        var st := ApplyFlow(env, fw, View(w, fw), f, key, now, calls);
        w.(db := st.db, asked := st.asked, pollers := w.pollers[fw := Poller(st.open, now, w.pollers[fw].since)],
           hist := Observed(w, fw, f, key, now))
      case Close(fw, seen, failed, now) =>
        var st := CloseMissing(View(w, fw), seen, failed, now);
        w.(db := st.db, pollers := w.pollers[fw := Poller(st.open, now, w.pollers[fw].since)],
           hist := ClosedTraces(w.hist, DoomedIds(w.pollers[fw].open, seen, failed), now))
      case PruneStart(cut) =>
        w.(pruner := Head(cut, 0, 0, 0))
      case PruneFails =>
        var p := w.pruner;
        w.(pruner := Aborted(p.cut, p.sessions, p.samples, p.rounds))
      case PruneSamples =>
        var p := w.pruner;
        var batch := env.scan(Eligible(w.db, p.cut));
        var db := DeleteSamples(w.db, batch);
        w.(db := db, wiped := w.wiped + batch,
           pruner := Mid(p.cut, p.sessions, p.samples + |w.db.samples| - |db.samples|, p.rounds))
      case PruneSessions =>
        var p := w.pruner;
        var batch := env.scan(Eligible(w.db, p.cut));
        if References(w.db.samples, batch) then w.(pruner := Failed(p.cut, p.sessions, p.samples, p.rounds))
        else
          w.(db := DeleteSessions(w.db, batch),
             pruner := if |batch| < BATCH then Done(p.cut, p.sessions + |batch|, p.samples, p.rounds + 1)
                       else Head(p.cut, p.sessions + |batch|, p.samples, p.rounds + 1))
  }

  function Run(env: Env, w: World, events: seq<Event>): World {
    if events == [] then w
    else Step(env, Run(env, w, events[..|events| - 1]), events[|events| - 1])
  }

  predicate Clean(events: seq<Event>) {
    forall e :: e in events ==> e.Clean()
  }
}
