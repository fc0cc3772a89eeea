// The lookup queue with every tick and every request taken as one step: no address waits while it is cached, and none
// waits for ever.

module QueueLaws {
  import opened Base
  import opened Tables
  import opened Reputation
  import opened Budget

  /** `served` are the addresses whose lookup was not refused, in order. */
  datatype Line = Line(rep: Rep, clock: int, served: seq<string>)

  datatype Act =
    | Ask(fw: string, ip: string, priority: int, now: int)
    | Look(i: nat, outcome: Outcome, now: int)
    | Peek(now: int)

  /** The item a tick pops: some item nothing is ahead of. */
  predicate Allowed(m: Settings, s: Line, a: Act) {
    s.clock <= a.now && (a.Look? && s.rep.queue != [] ==> IsNext(s.rep.queue, a.i))
  }

  predicate Serves(m: Settings, s: Line, a: Act) {
    a.Look? && Looks(m, s.rep, DateOf(a.now)) && a.i < |s.rep.queue| && !a.outcome.RateLimited?
  }

  function Do(m: Settings, s: Line, a: Act): Line {
    if !Allowed(m, s, a) then s
    else match a
      case Ask(fw, ip, priority, now) =>
        s.(rep := Enqueue(s.rep, fw, ip, priority, now), clock := now)
      case Look(i, outcome, now) =>
        s.(rep := Tick(m, s.rep, DateOf(now), i, outcome, now), clock := now,
           served := if Serves(m, s, a) then s.served + [s.rep.queue[i].ip] else s.served)
      case Peek(now) =>
        s.(rep := Status(s.rep, DateOf(now), m.dailyBudget), clock := now)
  }

  function DoAll(m: Settings, s: Line, acts: seq<Act>): Line {
    if acts == [] then s else Do(m, DoAll(m, s, acts[..|acts| - 1]), acts[|acts| - 1])
  }

  // ----- Queued means not cached -----------------------------------------------------

  ghost predicate QueueOk(s: Line) {
    Distinct(s.rep.queue) && forall ip :: Queued(s.rep.queue, ip) ==> !Cached(s.rep, ip, s.clock)
  }

  lemma DoQueueOk(m: Settings, s: Line, a: Act)
    requires QueueOk(s)
    ensures QueueOk(Do(m, s, a))
  {
    if Allowed(m, s, a) {
      match a
      case Ask(fw, ip, priority, now) => InsertKeeps(s.rep, ip, fw, priority, now);
      case Peek(_) =>
      case Look(i, outcome, now) =>
        if Looks(m, s.rep, DateOf(now)) {
          var item := s.rep.queue[i];
          RemoveKeeps(s.rep.queue, i);
          if outcome.RateLimited? {
            InsertKeeps(s.rep.(queue := RemoveAt(s.rep.queue, i)), item.ip, item.fw, item.priority + 1, now);
          }
        }
    }
  }

  /** Over any run with a clock that does not go back, no address is queued twice and none is queued while a cache row
      for it is still good. */
  lemma {:induction false} NeverQueuedWhileCached(m: Settings, s: Line, acts: seq<Act>)
    requires QueueOk(s)
    ensures QueueOk(DoAll(m, s, acts))
  {
    if acts != [] {
      NeverQueuedWhileCached(m, s, acts[..|acts| - 1]);
      DoQueueOk(m, DoAll(m, s, acts[..|acts| - 1]), acts[|acts| - 1]);
    }
  }

  // ----- A verdict is honoured -------------------------------------------------------

  /** How long the answer to a lookup is good for: an answer that decides nothing is kept as briefly as a failure. */
  function Lifetime(m: Settings, o: Outcome): int
    requires !o.RateLimited?
  {
    if o.Answer? && o.verdict.classification !in {"", "unknown"} then m.cacheTTL else m.negativeTTL
  }

  /** A lookup that was not refused leaves a row for its address that is good to the second its lifetime ends, and only an
      answer leaves one without an error. */
  lemma ServedIsCached(m: Settings, s: Line, a: Act, until: int)
    requires Allowed(m, s, a) && Serves(m, s, a)
    ensures var ip := s.rep.queue[a.i].ip; var t := Do(m, s, a);
      && (Cached(t.rep, ip, until) <==> until <= Unix(a.now + Lifetime(m, a.outcome)) * 1_000_000_000)
      && t.rep.cache[ip].checkedAt == Unix(a.now)
      && (a.outcome.Answer? ==> t.rep.cache[ip].verdict == a.outcome.verdict && t.rep.cache[ip].lookupError == "")
      && (a.outcome.Failure? ==> t.rep.cache[ip].lookupError == a.outcome.message
                                 && t.rep.cache[ip].verdict == Verdict("", false, false, "", "", "", ""))
      && forall other :: other != ip && other in s.rep.cache ==>
           other in t.rep.cache && t.rep.cache[other] == s.rep.cache[other]
  {
  }

  lemma DoHonours(m: Settings, s: Line, a: Act, ip: string)
    requires QueueOk(s) && Cached(s.rep, ip, s.clock) && Cached(s.rep, ip, Do(m, s, a).clock)
    ensures var t := Do(m, s, a);
      && s.clock <= t.clock && ip in t.rep.cache && t.rep.cache[ip] == s.rep.cache[ip]
      && (t.served == s.served || (t.served != [] && t.served == s.served + [t.served[|t.served| - 1]]
                                   && t.served[|t.served| - 1] != ip))
  {
    assert !Queued(s.rep.queue, ip);
  }

  /** While the row for an address is good it is neither replaced nor is the address queued or looked up again, whatever
      is asked for: no two lookups are spent on one verdict. */
  lemma {:induction false} VerdictHonoured(m: Settings, s: Line, acts: seq<Act>, ip: string)
    requires QueueOk(s) && Cached(s.rep, ip, DoAll(m, s, acts).clock)
    ensures var t := DoAll(m, s, acts);
      && QueueOk(t) && s.clock <= t.clock && |s.served| <= |t.served|
      && ip in t.rep.cache && t.rep.cache[ip] == s.rep.cache[ip]
      && !Queued(t.rep.queue, ip) && ip !in t.served[|s.served|..]
  {
    if acts == [] {
      assert s.served[|s.served|..] == [];
    } else {
      var n := |acts| - 1;
      var u := DoAll(m, s, acts[..n]);
      var t := Do(m, u, acts[n]);
      assert u.clock <= t.clock;
      VerdictHonoured(m, s, acts[..n], ip);
      DoHonours(m, u, acts[n], ip);
      DoQueueOk(m, u, acts[n]);
      if t.served != u.served {
        assert t.served[|s.served|..] == u.served[|s.served|..] + [t.served[|t.served| - 1]];
      }
    }
  }

  // ----- No starvation ---------------------------------------------------------------

  /** Only the last address refused has priority. Requests of one second are common: one poll makes one for every new
      public destination it meets. */
  ghost predicate Tame(q: seq<Item>) {
    && Distinct(q)
    && (forall i :: 0 <= i < |q| ==> q[i].priority >= 0)
    && (forall i, j :: 0 <= i < |q| && 0 <= j < |q| && i != j ==> !(q[i].priority > 0 && q[j].priority > 0))
  }

  /** Pollers ask with priority 0, a constant of theirs. */
  predicate Plain(a: Act) {
    a.Ask? ==> a.priority == 0
  }

  /** The items that may be looked up before x: those it is not ahead of. */
  function Wait(q: seq<Item>, x: Item): nat {
    if q == [] then 0
    else
      var y := q[|q| - 1];
      Wait(q[..|q| - 1], x) + (if y.ip != x.ip && !Ahead(x, y) then 1 else 0)
  }

  lemma WaitAppend(q: seq<Item>, y: Item, x: Item)
    ensures Wait(q + [y], x) == Wait(q, x) + (if y.ip != x.ip && !Ahead(x, y) then 1 else 0)
  {
    assert (q + [y])[..|q|] == q;
  }

  lemma {:induction false} WaitRemove(q: seq<Item>, i: nat, x: Item)
    requires i < |q|
    ensures Wait(RemoveAt(q, i), x) == Wait(q, x) - (if q[i].ip != x.ip && !Ahead(x, q[i]) then 1 else 0)
  {
    var n := |q| - 1;
    if i == n {
      assert RemoveAt(q, i) == q[..n];
    } else {
      assert RemoveAt(q, i) == RemoveAt(q[..n], i) + [q[n]];
      WaitAppend(RemoveAt(q[..n], i), q[n], x);
      WaitRemove(q[..n], i, x);
    }
  }

  lemma {:induction false} WaitNone(q: seq<Item>, x: Item)
    requires forall j :: 0 <= j < |q| ==> q[j].ip == x.ip || Ahead(x, q[j])
    ensures Wait(q, x) == 0
  {
    if q != [] {
      assert forall j :: 0 <= j < |q| - 1 ==> q[..|q| - 1][j] == q[j];
      WaitNone(q[..|q| - 1], x);
    }
  }

  /** The choice the ordering leaves: besides one next item exactly those of its priority and second may be popped. */
  lemma NextIff(q: seq<Item>, i: nat, j: nat)
    requires IsNext(q, i) && j < |q|
    ensures IsNext(q, j) <==> q[j].priority == q[i].priority && q[j].enqueuedAt == q[i].enqueuedAt
  {
    assert !Ahead(q[j], q[i]);
  }

  lemma TameInsert(r: Rep, ip: string, fw: string, now: int)
    requires Tame(r.queue)
    ensures Tame(Insert(r, ip, fw, 0, now).queue)
  {
    InsertKeeps(r, ip, fw, 0, now);
  }

  lemma TameRemove(q: seq<Item>, i: nat)
    requires Tame(q) && i < |q|
    ensures Tame(RemoveAt(q, i))
    ensures IsNext(q, i) ==> forall j :: 0 <= j < |RemoveAt(q, i)| ==> RemoveAt(q, i)[j].priority == 0
  {
    var r := RemoveAt(q, i);
    assert Distinct(r) by { RemoveKeeps(q, i); }
    assert forall j :: 0 <= j < |r| ==> r[j] == q[if j < i then j else j + 1];
    if IsNext(q, i) {
      forall j | 0 <= j < |r| ensures r[j].priority == 0 {
        assert !Ahead(r[j], q[i]);
      }
    }
  }

  function Refused(x: Item, now: int): Item {
    Item(x.ip, x.fw, Unix(now), x.priority + 1)
  }

  /** A refused address goes to the front, whatever the times in the queue: it is the only one with priority, every other
      item stays behind it, and it is the only possible next pop. */
  lemma RefusedIsNext(q: seq<Item>, i: nat, now: int)
    requires Tame(q) && IsNext(q, i)
    ensures var r := RemoveAt(q, i) + [Refused(q[i], now)];
      && Insert(Rep(map[], RemoveAt(q, i), None), q[i].ip, q[i].fw, q[i].priority + 1, now).queue == r
      && Tame(r)
      && (forall j :: 0 <= j < |r| - 1 ==> r[j].ip != q[i].ip && Ahead(r[|r| - 1], r[j]))
      && forall j :: 0 <= j < |r| ==> (IsNext(r, j) <==> j == |r| - 1)
  {
    TameRemove(q, i);
    RemoveKeeps(q, i);
    var rest := RemoveAt(q, i);
    var r := rest + [Refused(q[i], now)];
    assert forall j :: 0 <= j < |rest| ==> r[j] == rest[j] && r[j].ip != q[i].ip;
    assert forall j :: 0 <= j < |rest| ==> Ahead(r[|r| - 1], r[j]);
  }

  /** The queued item of an address. */
  function ItemOf(q: seq<Item>, ip: string): Option<Item> {
    if q == [] then None
    else if q[|q| - 1].ip == ip then Some(q[|q| - 1]) else ItemOf(q[..|q| - 1], ip)
  }

  lemma {:induction false} ItemOfFinds(q: seq<Item>, i: nat)
    requires Distinct(q) && i < |q|
    ensures ItemOf(q, q[i].ip) == Some(q[i])
  {
    if i < |q| - 1 {
      assert q[..|q| - 1][i] == q[i] && q[|q| - 1].ip != q[i].ip;
      ItemOfFinds(q[..|q| - 1], i);
    }
  }

  /** How many items may be looked up before this address. */
  function Waiting(q: seq<Item>, ip: string): nat {
    match ItemOf(q, ip)
    case None => 0
    case Some(x) => Wait(q, x)
  }

  /** The address either has priority, so that no plain request can overtake or tie with it, or still carries its second. */
  ghost predicate Holds(q: seq<Item>, ip: string, second: int) {
    exists k :: 0 <= k < |q| && q[k].ip == ip && (q[k].priority > 0 || q[k].enqueuedAt == second)
  }

  /** A request accepted no later than the given second. */
  predicate Rival(s: Line, a: Act, second: int) {
    a.Ask? && s.clock <= a.now && Accepts(s.rep, a.ip, a.now) && Unix(a.now) <= second
  }

  function Rivals(m: Settings, s: Line, acts: seq<Act>, second: int): nat {
    if acts == [] then 0
    else
      var n := |acts| - 1;
      Rivals(m, s, acts[..n], second) + (if Rival(DoAll(m, s, acts[..n]), acts[n], second) then 1 else 0)
  }

  lemma WaitAfterAsk(r: Rep, ip: string, fw: string, now: int, k: nat, second: int)
    requires Tame(r.queue) && k < |r.queue| && (r.queue[k].priority > 0 || r.queue[k].enqueuedAt == second)
    ensures var q := Insert(r, ip, fw, 0, now).queue; var x := r.queue[k];
      && Holds(q, x.ip, second)
      && Waiting(q, x.ip) <= Waiting(r.queue, x.ip) + (if !Queued(r.queue, ip) && Unix(now) <= second then 1 else 0)
  {
    var q := Insert(r, ip, fw, 0, now).queue;
    InsertKeeps(r, ip, fw, 0, now);
    assert q[k] == r.queue[k];
    ItemOfFinds(r.queue, k);
    ItemOfFinds(q, k);
    if !Queued(r.queue, ip) {
      WaitAppend(r.queue, Item(ip, fw, Unix(now), 0), r.queue[k]);
    }
  }

  lemma WaitAfterService(q: seq<Item>, i: nat, k: nat, second: int)
    requires Tame(q) && IsNext(q, i) && k < |q| && k != i && (q[k].priority > 0 || q[k].enqueuedAt == second)
    ensures Holds(RemoveAt(q, i), q[k].ip, second)
    ensures Waiting(RemoveAt(q, i), q[k].ip) == Waiting(q, q[k].ip) - 1
  {
    var j := if k < i then k else k - 1;
    var r := RemoveAt(q, i);
    RemoveKeeps(q, i);
    assert r[j] == q[k];
    ItemOfFinds(q, k);
    ItemOfFinds(r, j);
    WaitRemove(q, i, q[k]);
    assert !Ahead(q[k], q[i]);
  }

  lemma WaitAfterRefusal(q: seq<Item>, i: nat, now: int, k: nat, second: int)
    requires Tame(q) && IsNext(q, i) && k < |q| && (q[k].priority > 0 || q[k].enqueuedAt == second)
    ensures var r := RemoveAt(q, i) + [Refused(q[i], now)];
      Holds(r, q[k].ip, second) && Waiting(r, q[k].ip) <= Waiting(q, q[k].ip)
  {
    var rest, y := RemoveAt(q, i), Refused(q[i], now);
    var r := rest + [y];
    RefusedIsNext(q, i, now);
    ItemOfFinds(q, k);
    if k == i {
      assert r[|r| - 1] == y;
      ItemOfFinds(r, |r| - 1);
      WaitNone(r, y);
    } else {
      var j := if k < i then k else k - 1;
      assert r[j] == q[k];
      ItemOfFinds(r, j);
      WaitRemove(q, i, q[k]);
      WaitAppend(rest, y, q[k]);
      assert !Ahead(q[k], q[i]);
    }
  }

  /** One step serves the address, or leaves it queued with as many fewer ahead of it as it served and at most one more for
      a rival accepted. */
  lemma DoWait(m: Settings, s: Line, a: Act, ip: string, second: int)
    requires Tame(s.rep.queue) && Plain(a) && Holds(s.rep.queue, ip, second)
    ensures var t := Do(m, s, a);
      || t.served == s.served + [ip]
      || (Holds(t.rep.queue, ip, second)
          && Waiting(t.rep.queue, ip) + |t.served|
             <= Waiting(s.rep.queue, ip) + |s.served| + (if Rival(s, a, second) then 1 else 0))
  {
    var q := s.rep.queue;
    var k :| 0 <= k < |q| && q[k].ip == ip && (q[k].priority > 0 || q[k].enqueuedAt == second);
    if Allowed(m, s, a) {
      match a
      case Ask(fw, other, _, now) =>
        if !Cached(s.rep, other, now) { WaitAfterAsk(s.rep, other, fw, now, k, second); }
      case Peek(_) =>
      case Look(i, outcome, now) =>
        if Looks(m, s.rep, DateOf(now)) && (outcome.RateLimited? || i != k) { LookWait(m, s, i, outcome, now, k, second); }
    }
  }

  lemma LookWait(m: Settings, s: Line, i: nat, outcome: Outcome, now: int, k: nat, second: int)
    requires Tame(s.rep.queue) && Looks(m, s.rep, DateOf(now)) && IsNext(s.rep.queue, i)
    requires k < |s.rep.queue| && (s.rep.queue[k].priority > 0 || s.rep.queue[k].enqueuedAt == second)
    requires outcome.RateLimited? || i != k
    ensures var q := Tick(m, s.rep, DateOf(now), i, outcome, now).queue; var ip := s.rep.queue[k].ip;
      && Holds(q, ip, second)
      && Waiting(q, ip) + (if outcome.RateLimited? then 0 else 1) <= Waiting(s.rep.queue, ip)
  {
    if outcome.RateLimited? {
      WaitAfterRefusal(s.rep.queue, i, now, k, second);
      RemoveKeeps(s.rep.queue, i);
    } else {
      WaitAfterService(s.rep.queue, i, k, second);
    }
  }

  lemma DoTame(m: Settings, s: Line, a: Act)
    requires Tame(s.rep.queue) && Plain(a)
    ensures Tame(Do(m, s, a).rep.queue)
  {
    if Allowed(m, s, a) {
      match a
      case Ask(fw, ip, priority, now) =>
        if Accepts(s.rep, ip, now) { TameInsert(s.rep, ip, fw, now); }
      case Peek(_) =>
      case Look(i, outcome, now) =>
        if Looks(m, s.rep, DateOf(now)) {
          LookTame(m, s, i, outcome, now);
        }
    }
  }

  lemma LookTame(m: Settings, s: Line, i: nat, outcome: Outcome, now: int)
    requires Tame(s.rep.queue) && Looks(m, s.rep, DateOf(now)) && IsNext(s.rep.queue, i)
    ensures Tame(Tick(m, s.rep, DateOf(now), i, outcome, now).queue)
  {
    if outcome.RateLimited? {
      RefusedIsNext(s.rep.queue, i, now);
      RemoveKeeps(s.rep.queue, i);
    } else {
      TameRemove(s.rep.queue, i);
    }
  }

  /** No starvation, ties included: from any point of any run of priority-0 requests an address is served, or is still
      queued and the lookups served since, added to the items that may still come before it, are no more than the items
      that could at first, plus the requests accepted no later than its own second. Refusals and status reads cost it
      nothing. */
  lemma {:induction false} NoStarvation(m: Settings, s: Line, acts: seq<Act>, ip: string, second: int)
    requires Tame(s.rep.queue) && Holds(s.rep.queue, ip, second) && forall a :: a in acts ==> Plain(a)
    ensures var t := DoAll(m, s, acts);
      && Tame(t.rep.queue)
      && |s.served| <= |t.served|
      && (ip in t.served[|s.served|..]
          || (Holds(t.rep.queue, ip, second)
              && Waiting(t.rep.queue, ip) + (|t.served| - |s.served|)
                 <= Waiting(s.rep.queue, ip) + Rivals(m, s, acts, second)))
  {
    if acts != [] {
      var n := |acts| - 1;
      assert acts[n] in acts;
      NoStarvation(m, s, acts[..n], ip, second);
      var u := DoAll(m, s, acts[..n]);
      DoTame(m, u, acts[n]);
      DoServes(m, u, acts[n], ip, second, |s.served|);
    }
  }

  lemma DoServes(m: Settings, u: Line, a: Act, ip: string, second: int, from: nat)
    requires Tame(u.rep.queue) && Plain(a) && from <= |u.served|
    requires ip in u.served[from..] || Holds(u.rep.queue, ip, second)
    ensures var t := Do(m, u, a);
      && from <= |t.served|
      && (ip in t.served[from..]
          || (Holds(t.rep.queue, ip, second) && ip !in u.served[from..]
              && Waiting(t.rep.queue, ip) + |t.served|
                 <= Waiting(u.rep.queue, ip) + |u.served| + (if Rival(u, a, second) then 1 else 0)))
  {
    var t := Do(m, u, a);
    var before := u.served[from..];
    if ip in before {
      var i :| 0 <= i < |before| && before[i] == ip;
      assert t.served[from..][i] == ip;
    } else {
      DoWait(m, u, a, ip, second);
      if t.served == u.served + [ip] {
        assert t.served[from..] == before + [ip];
      }
    }
  }

  /** The bound itself: an address that k items could come before is served by the time k + 1 lookups that were not refused
      have been made, and one more for every request accepted no later than its own second. */
  lemma ServedInTime(m: Settings, s: Line, acts: seq<Act>, i: nat)
    requires Tame(s.rep.queue) && i < |s.rep.queue| && forall a :: a in acts ==> Plain(a)
    requires var x := s.rep.queue[i];
      |DoAll(m, s, acts).served| > |s.served| + Wait(s.rep.queue, x) + Rivals(m, s, acts, x.enqueuedAt)
    ensures s.rep.queue[i].ip in DoAll(m, s, acts).served[|s.served|..]
  {
    ItemOfFinds(s.rep.queue, i);
    NoStarvation(m, s, acts, s.rep.queue[i].ip, s.rep.queue[i].enqueuedAt);
  }

  lemma {:induction false} NoRivals(m: Settings, s: Line, acts: seq<Act>, second: int)
    requires forall a :: a in acts && a.Ask? ==> second < Unix(a.now)
    ensures Rivals(m, s, acts, second) == 0
  {
    if acts != [] {
      assert acts[|acts| - 1] in acts;
      NoRivals(m, s, acts[..|acts| - 1], second);
    }
  }

  // ----- One step or many ------------------------------------------------------------

  /** A request is what its two store calls do when nothing comes between them, whichever of them fail. One that is dropped
      leaves nothing to file. */
  lemma EnqueueIsItsCalls(m: Settings, s: Sys, fw: string, ip: string, priority: int, now: int, asked: bool, filed: bool)
    ensures var t := Run(m, s, [Consult(fw, ip, priority, now, asked), File(|s.asking|, now, filed)]);
      && t.rep == EnqueueWith(s.rep, fw, ip, priority, now, asked, filed)
      && t.asking == s.asking && t.worker == s.worker && t.today == s.today
      && t.admitted == s.admitted && t.free == s.free && t.windows == s.windows && t.looked == s.looked
  {
    var a, b := Consult(fw, ip, priority, now, asked), File(|s.asking|, now, filed);
    assert [a, b][..1] == [a] && [a][..0] == [];
    assert Run(m, s, [a]) == Step(m, s, a);
    assert Run(m, s, [a, b]) == Step(m, Step(m, s, a), b);
    if asked && Cached(s.rep, ip, now) {
      assert Step(m, s, a) == s && Step(m, s, b) == s;
    } else {
      var p := Pending(fw, ip, priority);
      assert Step(m, s, a) == s.(asking := s.asking + [p]);
      LastFiled(m, s, p, now, filed);
    }
  }

  lemma LastFiled(m: Settings, s: Sys, p: Pending, now: int, filed: bool)
    ensures var t := Step(m, s.(asking := s.asking + [p]), File(|s.asking|, now, filed));
      && t.rep == (if filed then Insert(s.rep, p.ip, p.fw, p.priority, now) else s.rep)
      && t.asking == s.asking && t.worker == s.worker && t.today == s.today
      && t.admitted == s.admitted && t.free == s.free && t.windows == s.windows && t.looked == s.looked
  {
    var more := s.asking + [p];
    assert more[..|s.asking|] + more[|s.asking| + 1..] == s.asking;
  }

  /** The store calls of one tick, in order, and which of them fail. */
  function TickEvents(today: int, i: nat, o: Outcome, now: int, f: Faults): seq<Event> {
    [Check(today, !f.status), Pop(i, !f.pop), Lookup(o)]
    + (if o.RateLimited? then [Pin(!f.charge), Requeue(now, !f.keep)] else [Put(now, !f.keep), ChargeOne(!f.charge)])
  }

  lemma Run5(m: Settings, s: Sys, a: Event, b: Event, c: Event, d: Event, e: Event)
    ensures Run(m, s, [a, b, c, d, e]) == Step(m, Step(m, Step(m, Step(m, Step(m, s, a), b), c), d), e)
  {
    var es := [a, b, c, d, e];
    assert es[..4] == [a, b, c, d] && es[..4][..3] == [a, b, c] && es[..4][..3][..2] == [a, b];
    assert es[..4][..3][..2][..1] == [a] && es[..4][..3][..2][..1][..0] == [];
    assert Run(m, s, [a]) == Step(m, s, a);
    assert Run(m, s, [a, b]) == Step(m, Run(m, s, [a]), b);
    assert Run(m, s, [a, b, c]) == Step(m, Run(m, s, [a, b]), c);
    assert Run(m, s, [a, b, c, d]) == Step(m, Run(m, s, [a, b, c]), d);
  }

  /** A tick is what its store calls do when nothing comes between them, whichever of them fail. */
  lemma TickIsItsCalls(m: Settings, s: Sys, today: int, i: nat, o: Outcome, now: int, f: Faults)
    requires s.worker.Idle? && s.today <= today && (s.rep.queue == [] || IsNext(s.rep.queue, i))
    ensures var t := Run(m, s, TickEvents(today, i, o, now, f));
      t.rep == TickWith(m, s.rep, today, i, o, now, f) && t.worker.Idle?
  {
    if o.RateLimited? {
      RefusedTick(m, s, today, i, o, now, f);
    } else {
      SettledTick(m, s, today, i, o, now, f);
    }
  }

  /** After check and pop the worker holds the item, or the tick is over. */
  lemma TickHead(m: Settings, s: Sys, today: int, i: nat, f: Faults)
    requires s.worker.Idle? && s.today <= today && (s.rep.queue == [] || IsNext(s.rep.queue, i))
    ensures var t := Step(m, Step(m, s, Check(today, !f.status)), Pop(i, !f.pop));
      var r := Status(s.rep, today, m.dailyBudget);
      if f.status || r.rate.value.used >= r.rate.value.budget || f.pop || i >= |s.rep.queue|
      then t.worker.Idle? && t.rep == (if f.status then s.rep else r)
      else t.worker == Holding(today, s.rep.queue[i]) && t.rep == r.(queue := RemoveAt(s.rep.queue, i))
  {
  }

  lemma SettledTick(m: Settings, s: Sys, today: int, i: nat, o: Outcome, now: int, f: Faults)
    requires s.worker.Idle? && s.today <= today && (s.rep.queue == [] || IsNext(s.rep.queue, i)) && !o.RateLimited?
    ensures var t := Run(m, s, TickEvents(today, i, o, now, f));
      t.rep == TickWith(m, s.rep, today, i, o, now, f) && t.worker.Idle?
  {
    var a, b, d, e := Check(today, !f.status), Pop(i, !f.pop), Put(now, !f.keep), ChargeOne(!f.charge);
    var h := Step(m, Step(m, s, a), b);
    assert TickEvents(today, i, o, now, f) == [a, b, Lookup(o), d, e];
    Run5(m, s, a, b, Lookup(o), d, e);
    TickHead(m, s, today, i, f);
    if h.worker.Idle? { TickOver(m, h, Lookup(o), d, e); } else { TickPuts(m, h, o, now, f); }
  }

  lemma RefusedTick(m: Settings, s: Sys, today: int, i: nat, o: Outcome, now: int, f: Faults)
    requires s.worker.Idle? && s.today <= today && (s.rep.queue == [] || IsNext(s.rep.queue, i)) && o.RateLimited?
    ensures var t := Run(m, s, TickEvents(today, i, o, now, f));
      t.rep == TickWith(m, s.rep, today, i, o, now, f) && t.worker.Idle?
  {
    var a, b, d, e := Check(today, !f.status), Pop(i, !f.pop), Pin(!f.charge), Requeue(now, !f.keep);
    var h := Step(m, Step(m, s, a), b);
    assert TickEvents(today, i, o, now, f) == [a, b, Lookup(o), d, e];
    Run5(m, s, a, b, Lookup(o), d, e);
    TickHead(m, s, today, i, f);
    if h.worker.Idle? { TickOver(m, h, Lookup(o), d, e); } else { TickRefuses(m, h, now, f); }
  }

  /** A tick that ended early: the later calls do not happen. */
  lemma TickOver(m: Settings, s: Sys, c: Event, d: Event, e: Event)
    requires s.worker.Idle? && c.Lookup? && (d.Pin? || d.Put?) && (e.Requeue? || e.ChargeOne?)
    ensures Step(m, Step(m, Step(m, s, c), d), e) == s
  {
  }

  lemma TickPuts(m: Settings, s: Sys, o: Outcome, now: int, f: Faults)
    requires s.worker.Holding? && !o.RateLimited?
    ensures var t := Step(m, Step(m, Step(m, s, Lookup(o)), Put(now, !f.keep)), ChargeOne(!f.charge));
      t.worker.Idle? && t.rep == AfterAnswer(m, s.rep, s.worker.item, o, now, f)
  {
  }

  lemma TickRefuses(m: Settings, s: Sys, now: int, f: Faults)
    requires s.worker.Holding?
    ensures var t := Step(m, Step(m, Step(m, s, Lookup(RateLimited)), Pin(!f.charge)), Requeue(now, !f.keep));
      t.worker.Idle? && t.rep == AfterRefusal(s.rep, s.worker.item, now, f)
  {
  }
}
