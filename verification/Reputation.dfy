// The reputation tables of one provider: cache, durable queue and daily rate-limit row, one function per store call.

module Reputation {
  import opened Base
  import opened Tables

  const DAY: int := 86_400 * SECOND

  /** The UTC date of an instant, as a day number. */
  function DateOf(now: int): int {
    now / DAY
  }

  datatype Verdict = Verdict(classification: string, isNoise: bool, isRIOT: bool,
                             name: string, link: string, message: string, rawJSON: string)

  const NO_VERDICT: Verdict := Verdict("", false, false, "", "", "", "")

  datatype CacheRow = CacheRow(verdict: Verdict, lookupError: string, checkedAt: int, expiresAt: int)

  datatype Item = Item(ip: string, fw: string, enqueuedAt: int, priority: int)

  datatype Rate = Rate(date: int, used: int, budget: int)

  datatype Rep = Rep(cache: map<string, CacheRow>, queue: seq<Item>, rate: Option<Rate>)

  // ----- Cache -----------------------------------------------------------------------

  /** A row counts until the clock is past its expiry second. */
  predicate Cached(r: Rep, ip: string, now: int) {
    ip in r.cache && now <= r.cache[ip].expiresAt * SECOND
  }

  function PutReputation(r: Rep, ip: string, row: CacheRow): Rep {
    r.(cache := r.cache[ip := row])
  }

  // ----- Queue -----------------------------------------------------------------------

  predicate Queued(q: seq<Item>, ip: string) {
    exists i :: 0 <= i < |q| && q[i].ip == ip
  }

  /** INSERT OR IGNORE on the unique address. */
  function Insert(r: Rep, ip: string, fw: string, priority: int, now: int): Rep {
    if Queued(r.queue, ip) then r else r.(queue := r.queue + [Item(ip, fw, Unix(now), priority)])
  }

  /** ORDER BY priority DESC, enqueued_at ASC. */
  predicate Ahead(a: Item, b: Item) {
    a.priority > b.priority || (a.priority == b.priority && a.enqueuedAt < b.enqueuedAt)
  }

  predicate IsNext(q: seq<Item>, i: nat) {
    i < |q| && forall j :: 0 <= j < |q| ==> !Ahead(q[j], q[i])
  }

  function RemoveAt(q: seq<Item>, i: nat): seq<Item>
    requires i < |q|
  {
    q[..i] + q[i + 1..]
  }

  // ----- Rate limit ------------------------------------------------------------------

  /** The row RateLimitStatus leaves behind: made if missing, reset on a new date. */
  function Window(r: Rep, today: int, dailyBudget: int): Rate {
    if r.rate == None || r.rate.value.date != today then Rate(today, 0, dailyBudget) else r.rate.value
  }

  function Status(r: Rep, today: int, dailyBudget: int): Rep {
    r.(rate := Some(Window(r, today, dailyBudget)))
  }

  /** One more used call, or all of them when the provider says so. */
  function Charge(r: Rep, exhausted: bool): Rep {
    match r.rate
    case None => r
    case Some(w) => r.(rate := Some(w.(used := if exhausted then w.budget else w.used + 1)))
  }

  // ----- What the manager does with them ---------------------------------------------

  datatype Settings = Settings(dailyBudget: int, cacheTTL: int, negativeTTL: int)

  /** NewManager replaces a budget that is not positive by ten. */
  function NewManager(dailyBudget: int, cacheTTL: int, negativeTTL: int): (m: Settings)
    ensures m.dailyBudget >= 1 && (dailyBudget >= 1 ==> m.dailyBudget == dailyBudget)
    ensures dailyBudget <= 0 ==> m.dailyBudget == 10
    ensures m.cacheTTL == cacheTTL && m.negativeTTL == negativeTTL
  {
    Settings(if dailyBudget <= 0 then 10 else dailyBudget, cacheTTL, negativeTTL)
  }

  datatype Outcome = Answer(verdict: Verdict) | Failure(message: string) | RateLimited

  predicate Accepts(r: Rep, ip: string, now: int) {
    !Cached(r, ip, now) && !Queued(r.queue, ip)
  }

  /** A request is dropped when a fresh verdict is cached; the queue drops a repeat. */
  function Enqueue(r: Rep, fw: string, ip: string, priority: int, now: int): Rep {
    EnqueueWith(r, fw, ip, priority, now, true, true)
  }

  /** `asked` and `filed` say which of the two store calls succeed; a failing cache read counts as a miss. */
  function EnqueueWith(r: Rep, fw: string, ip: string, priority: int, now: int, asked: bool, filed: bool): Rep {
    if (asked && Cached(r, ip, now)) || !filed then r else Insert(r, ip, fw, priority, now)
  }

  /** The cache row for a lookup that was not refused. */
  function RowFor(m: Settings, o: Outcome, now: int): CacheRow
    requires !o.RateLimited?
  {
    match o
    case Failure(msg) => CacheRow(NO_VERDICT, msg, Unix(now), Unix(now + m.negativeTTL))
    case Answer(v) =>
      var ttl := if v.classification == "" || v.classification == "unknown" then m.negativeTTL else m.cacheTTL;
      CacheRow(v, "", Unix(now), Unix(now + ttl))
  }

  /** Which store calls of one tick fail; `keep` is the one that caches the verdict or queues a refused address again. */
  datatype Faults = Faults(status: bool, pop: bool, keep: bool, charge: bool)

  const NO_FAULTS: Faults := Faults(false, false, false, false)

  /** A refused lookup: the count is pinned, the address queued again. */
  function AfterRefusal(r: Rep, x: Item, now: int, f: Faults): Rep {
    var pinned := if f.charge then r else Charge(r, true);
    if f.keep then pinned else Insert(pinned, x.ip, x.fw, x.priority + 1, now)
  }

  /** Any other lookup: the cache row, then the charge. */
  function AfterAnswer(m: Settings, r: Rep, x: Item, o: Outcome, now: int, f: Faults): Rep
    requires !o.RateLimited?
  {
    var kept := if f.keep then r else PutReputation(r, x.ip, RowFor(m, o, now));
    if f.charge then kept else Charge(kept, false)
  }

  /** One tick with no other store call in between: `i` is the queue position popped, `o` what the provider said. A failing
      status or pop ends it; a failing charge, cache row or requeue is logged and passed over. */
  function TickWith(m: Settings, r: Rep, today: int, i: nat, o: Outcome, now: int, f: Faults): Rep {
    var r1 := if f.status then r else Status(r, today, m.dailyBudget);
    if f.status || r1.rate.value.used >= r1.rate.value.budget || f.pop || i >= |r1.queue| then r1
    else
      var item := r1.queue[i];
      var r2 := r1.(queue := RemoveAt(r1.queue, i));
      if o.RateLimited? then AfterRefusal(r2, item, now, f) else AfterAnswer(m, r2, item, o, now, f)
  }

  function Tick(m: Settings, r: Rep, today: int, i: nat, o: Outcome, now: int): Rep {
    TickWith(m, r, today, i, o, now, NO_FAULTS)
  }

  /** The tick got past the budget check and found an item. */
  predicate Looks(m: Settings, r: Rep, today: int) {
    var w := Window(r, today, m.dailyBudget);
    w.used < w.budget && r.queue != []
  }
}
