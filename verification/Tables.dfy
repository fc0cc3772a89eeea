// The database tables as one immutable value, and one function per statement the program runs.
// Each function is the effect of the statement when it succeeds.

module Tables {
  import opened Base

  // ----- Time ------------------------------------------------------------------------

  // Instants are nanoseconds since the Unix epoch; the tables keep whole seconds.
  const SECOND: int := 1_000_000_000

  function Unix(t: int): int {
    t / SECOND
  }

  /** The tables' clock counts whole seconds. */
  lemma UnixFloor(t: int)
    ensures Unix(t) * 1_000_000_000 <= t < (Unix(t) + 1) * 1_000_000_000
  {
  }

  lemma UnixMonotone(a: int, b: int)
    requires a <= b
    ensures Unix(a) <= Unix(b)
  {
  }

  // ----- Rows ------------------------------------------------------------------------

  datatype Session = Session(
    fw: string, key: string, protocol: string, originSrc: string, originDst: string,
    srcPort: int, dstPort: int, natedIP: string, natedPort: int,
    tcpState: string, direction: string, application: string, hostName: string, ttlLast: int,
    txPackets: int, txBytes: int, rxPackets: int, rxBytes: int,
    isSrcPrivate: bool, isDstPrivate: bool,
    firstSeen: int, lastSeen: int, sampleCount: int, closedAt: Option<int>)

  /** The columns UpdateSession refreshes. */
  datatype Refresh = Refresh(
    tcpState: string, direction: string, application: string, hostName: string, ttlLast: int,
    txPackets: int, txBytes: int, rxPackets: int, rxBytes: int, lastSeen: int)

  datatype EventKind = Start | StateChange | Heartbeat

  datatype Sample = Sample(
    sessionId: int, fw: string, kind: EventKind, seenAt: int,
    protocol: string, originSrc: string, originDst: string, srcPort: int, dstPort: int,
    natedIP: string, natedPort: int, tcpState: string, direction: string,
    application: string, hostName: string, ttl: int,
    txPackets: int, txBytes: int, rxPackets: int, rxBytes: int)

  datatype Scope = Internal | Outbound | Inbound | External

  function ClassifyScope(srcPrivate: bool, dstPrivate: bool): Scope {
    if srcPrivate && dstPrivate then Internal
    else if srcPrivate then Outbound
    else if dstPrivate then Inbound
    else External
  }

  /** The UNIQUE key of port_usage. */
  datatype Bucket = Bucket(fw: string, protocol: string, dstPort: int, application: string)

  datatype Usage = Usage(
    firstSeen: int, lastSeen: int, sampleCount: int, totalBytes: int, distinctDstIPs: int, updatedAt: int,
    internalCount: int, outboundCount: int, inboundCount: int, externalCount: int)
  {
    function ScopeCount(s: Scope): int {
      match s
      case Internal => internalCount
      case Outbound => outboundCount
      case Inbound => inboundCount
      case External => externalCount
    }
  }

  /** The PRIMARY KEY of port_usage_dst_ips. */
  datatype DstKey = DstKey(bucket: Bucket, ip: string)

  datatype Db = Db(
    sessions: map<int, Session>,   // flow_sessions by id
    lastId: int,                   // the AUTOINCREMENT high-water mark
    samples: seq<Sample>,          // flow_samples in insertion order
    usage: map<Bucket, Usage>,     // port_usage
    dst: map<DstKey, int>)         // port_usage_dst_ips with first_seen

  const EMPTY: Db := Db(map[], 0, [], map[], map[])

  // ----- flow_sessions ---------------------------------------------------------------

  /** A new row is always open; its id is one no row ever had. */
  function InsertSession(db: Db, s: Session): Db {
    var id := db.lastId + 1;
    db.(sessions := db.sessions[id := s.(closedAt := None)], lastId := id)
  }

  function Refreshed(s: Session, u: Refresh): Session {
    s.(tcpState := u.tcpState, direction := u.direction, application := u.application,
       hostName := u.hostName, ttlLast := u.ttlLast,
       txPackets := u.txPackets, txBytes := u.txBytes, rxPackets := u.rxPackets, rxBytes := u.rxBytes,
       lastSeen := u.lastSeen, sampleCount := s.sampleCount + 1)
  }

  /** An UPDATE whose WHERE names a missing id changes nothing. */
  function UpdateSession(db: Db, id: int, u: Refresh): Db {
    if id in db.sessions then db.(sessions := db.sessions[id := Refreshed(db.sessions[id], u)]) else db
  }

  function CloseSession(db: Db, id: int, at: int): Db {
    if id in db.sessions then db.(sessions := db.sessions[id := db.sessions[id].(closedAt := Some(Unix(at)))]) else db
  }

  predicate IsOpen(db: Db, id: int) {
    id in db.sessions && db.sessions[id].closedAt == None
  }

  /** The scan behind OpenSessions, over ids 1..n: among rows sharing a key the last one wins. */
  function ScanOpen(db: Db, fw: string, n: nat): map<string, int> {
    if n == 0 then map[]
    else
      var m := ScanOpen(db, fw, n - 1);
      if IsOpen(db, n) && db.sessions[n].fw == fw then m[db.sessions[n].key := n] else m
  }

  // ----- flow_samples ----------------------------------------------------------------

  /** The foreign key: a sample must name an existing session. */
  predicate SampleAllowed(db: Db, s: Sample) {
    s.sessionId in db.sessions
  }

  function InsertSample(db: Db, s: Sample): Db {
    db.(samples := db.samples + [s])
  }

  function SamplesOf(samples: seq<Sample>, id: int): seq<Sample> {
    if samples == [] then []
    else
      var rest := SamplesOf(samples[..|samples| - 1], id);
      var last := samples[|samples| - 1];
      if last.sessionId == id then rest + [last] else rest
  }

  /** The samples that remain when those of the given sessions are deleted. */
  function DropSamples(samples: seq<Sample>, ids: set<int>): seq<Sample> {
    if samples == [] then []
    else
      var rest := DropSamples(samples[..|samples| - 1], ids);
      var last := samples[|samples| - 1];
      if last.sessionId in ids then rest else rest + [last]
  }

  predicate References(samples: seq<Sample>, ids: set<int>) {
    exists i :: 0 <= i < |samples| && samples[i].sessionId in ids
  }

  // ----- Pruning ---------------------------------------------------------------------

  const BATCH: nat := 5000

  function Eligible(db: Db, cut: int): set<int> {
    set id | id in db.sessions && db.sessions[id].closedAt.Some? && db.sessions[id].closedAt.value < cut
  }

  function DeleteSamples(db: Db, ids: set<int>): Db {
    db.(samples := DropSamples(db.samples, ids))
  }

  function DeleteSessions(db: Db, ids: set<int>): Db {
    db.(sessions := db.sessions - ids)
  }

  /** The scan order behind `SELECT id ... LIMIT 5000`: which rows of a set of matches come first. */
  type Scan = set<int> -> set<int>

  ghost predicate FirstBatch(scan: Scan) {
    forall e :: TakesFirst(scan, e)
  }

  predicate TakesFirst(scan: Scan, e: set<int>) {
    scan(e) <= e && |scan(e)| == Min(|e|, BATCH)
  }

  /** The tables during a prune, with both counts so far. */
  datatype Prune = Prune(db: Db, sessions: int, samples: int)

  /** The first delete of a round: the samples of the first batch of eligible sessions. */
  function FirstDelete(scan: Scan, p: Prune, cut: int): Prune {
    var after := DeleteSamples(p.db, scan(Eligible(p.db, cut)));
    Prune(after, p.sessions, p.samples + |p.db.samples| - |after.samples|)
  }

  /** The second: the same sub-select, now for the rows. */
  function SecondDelete(scan: Scan, p: Prune, cut: int): Prune {
    var batch := scan(Eligible(p.db, cut));
    Prune(DeleteSessions(p.db, batch), p.sessions + |batch|, p.samples)
  }

  /** Where PruneOlderThan stands after so many rounds, and one more delete if `half`, when none has failed. */
  function PruneAt(scan: Scan, db: Db, cut: int, rounds: nat, half: bool): Prune
    decreases rounds, half
  {
    if half then FirstDelete(scan, PruneAt(scan, db, cut, rounds, false), cut)
    else if rounds == 0 then Prune(db, 0, 0)
    else SecondDelete(scan, PruneAt(scan, db, cut, rounds - 1, true), cut)
  }

  /** The rounds it takes unless a delete fails: until a batch comes back short. */
  function PruneRounds(db: Db, cut: int): nat {
    |Eligible(db, cut)| / BATCH + 1
  }

  // ----- port_usage and port_usage_dst_ips -------------------------------------------

  function Counted(s: Option<Scope>, which: Scope): int {
    if s == Some(which) then 1 else 0
  }

  /** The upsert of one port_usage row; `isNew` and the scope count sessions, not polls. */
  function Upsert(row: Option<Usage>, now: int, byteDelta: int, isNew: bool, scope: Scope): Usage {
    var s := if isNew then Some(scope) else None;
    var n := if isNew then 1 else 0;
    match row
    case None =>
      Usage(now, now, n, byteDelta, 0, now,
            Counted(s, Internal), Counted(s, Outbound), Counted(s, Inbound), Counted(s, External))
    case Some(u) =>
      u.(lastSeen := now, sampleCount := u.sampleCount + n, totalBytes := u.totalBytes + byteDelta, updatedAt := now,
         internalCount := u.internalCount + Counted(s, Internal),
         outboundCount := u.outboundCount + Counted(s, Outbound),
         inboundCount := u.inboundCount + Counted(s, Inbound),
         externalCount := u.externalCount + Counted(s, External))
  }

  function Lookup(usage: map<Bucket, Usage>, b: Bucket): Option<Usage> {
    if b in usage then Some(usage[b]) else None
  }

  /** BumpPortUsage, one transaction: upsert the bucket, then record the destination if it is new. */
  function Bump(db: Db, b: Bucket, ip: string, at: int, byteDelta: int, isNew: bool, scope: Scope): Db {
    var now := Unix(at);
    var u := Upsert(Lookup(db.usage, b), now, byteDelta, isNew, scope);
    var d := DstKey(b, ip);
    if d in db.dst then db.(usage := db.usage[b := u])
    else db.(usage := db.usage[b := u.(distinctDstIPs := u.distinctDstIPs + 1)], dst := db.dst[d := now])
  }
}
