// The lookup worker, store call by store call, while pollers enqueue and the dashboard reads the status.

module Budget {
  import opened Base
  import opened Tables
  import opened Reputation

  /** Where the one worker stands inside tick. `date` is the day its budget check saw. */
  datatype Worker =
    | Idle
    | Checked(date: int)
    | Holding(date: int, item: Item)
    | Called(date: int, item: Item, outcome: Outcome)   // the provider has been called
    | Pinned(item: Item)                                // refused and charged, to be queued again
    | Stored(date: int)                                 // the cache call is over, to be charged

  /** A request between its two store calls: the cache was asked and had nothing, the queue has not been told yet. */
  datatype Pending = Pending(fw: string, ip: string, priority: int)

  /** `admitted` counts provider calls by the date their check saw, `free` those among them whose charge was lost, `windows`
      the budget of each date's window. `waiting` are the accepted addresses without a cache row written since, `lost` those
      of them that fell out of the queue without a verdict, `looked` every address looked up. */
  datatype Sys = Sys(
    rep: Rep, worker: Worker, asking: seq<Pending>, today: int,
    admitted: map<int, int>, free: map<int, nat>, windows: map<int, int>,
    waiting: set<string>, lost: set<string>, looked: set<string>)

  /** One store call each, `ok` says whether it succeeded; Stop is the end of the process, after which a new one works on
      with the same tables. */
  datatype Event =
    | Consult(fw: string, ip: string, priority: int, now: int, ok: bool)
    | File(k: nat, now: int, ok: bool)
    | GetStatus(today: int, ok: bool)
    | Check(today: int, ok: bool)
    | Pop(i: nat, ok: bool)
    | Lookup(outcome: Outcome)
    | Pin(ok: bool)                      // IncrementRateLimit, exhausted
    | Requeue(now: int, ok: bool)
    | Put(now: int, ok: bool)
    | ChargeOne(ok: bool)                // IncrementRateLimit
    | Stop
  {
    predicate Clean() {
      !Stop? && (!Lookup? ==> ok)
    }
  }

  predicate Enabled(s: Sys, e: Event) {
    match e
    case Consult(_, _, _, _, _) => true
    case File(k, _, _) => k < |s.asking|
    case GetStatus(today, _) => s.today <= today
    case Check(today, _) => s.worker.Idle? && s.today <= today
    case Pop(i, _) => s.worker.Checked? && (s.rep.queue == [] || IsNext(s.rep.queue, i))
    case Lookup(_) => s.worker.Holding?
    case Pin(_) => s.worker.Called? && s.worker.outcome.RateLimited?
    case Requeue(_, _) => s.worker.Pinned?
    case Put(_, _) => s.worker.Called? && !s.worker.outcome.RateLimited?
    case ChargeOne(_) => s.worker.Stored?
    case Stop => true
  }

  function Opened(s: Sys, m: Settings, today: int): Sys {
    var rep := Status(s.rep, today, m.dailyBudget);
    s.(rep := rep, today := today, windows := s.windows[today := rep.rate.value.budget])
  }

  function Bumped(free: map<int, nat>, date: int): map<int, nat> {
    free[date := GetOr(free, date, 0) + 1]
  }

  /** A call whose charge does not reach the rate-limit row. */
  function Freed(s: Sys, date: int): Sys {
    s.(free := Bumped(s.free, date))
  }

  /** The address in hand is dropped; it is lost unless it is queued a second time. */
  function Dropped(s: Sys, ip: string): Sys {
    if ip in s.waiting && !Queued(s.rep.queue, ip) then s.(lost := s.lost + {ip}) else s
  }

  function Stopped(s: Sys): Sys {
    var t := s.(worker := Idle, asking := []);
    var u := if s.worker.Called? || s.worker.Stored? then Freed(t, s.worker.date) else t;
    if HasItem(s.worker) then Dropped(u, s.worker.item.ip) else u
  }

  /** An event that cannot happen leaves the system as it is. */
  function Step(m: Settings, s: Sys, e: Event): Sys {
    if !Enabled(s, e) then s
    else match e
      case Consult(fw, ip, priority, now, ok) =>
        if ok && Cached(s.rep, ip, now) then s else s.(asking := s.asking + [Pending(fw, ip, priority)])
      case File(k, now, ok) =>
        var p := s.asking[k];
        var t := s.(asking := s.asking[..k] + s.asking[k + 1..]);
        if !ok || Queued(s.rep.queue, p.ip) then t
        else t.(rep := Insert(s.rep, p.ip, p.fw, p.priority, now), waiting := s.waiting + {p.ip}, lost := s.lost - {p.ip})
      case GetStatus(today, ok) => if ok then Opened(s, m, today) else s
      case Check(today, ok) =>
        if !ok then s
        else
          var t := Opened(s, m, today);
          if t.rep.rate.value.used >= t.rep.rate.value.budget then t else t.(worker := Checked(today))
      case Pop(i, ok) =>
        if !ok || i >= |s.rep.queue| then s.(worker := Idle)
        else s.(rep := s.rep.(queue := RemoveAt(s.rep.queue, i)), worker := Holding(s.worker.date, s.rep.queue[i]))
      case Lookup(outcome) =>
        s.(worker := Called(s.worker.date, s.worker.item, outcome), looked := s.looked + {s.worker.item.ip},
           admitted := s.admitted[s.worker.date := GetOr(s.admitted, s.worker.date, 0) + 1])
      case Pin(ok) =>
        var t := s.(worker := Pinned(s.worker.item));
        if ok then t.(rep := Charge(s.rep, true)) else Freed(t, s.worker.date)
      case Requeue(now, ok) =>
        var t := s.(worker := Idle);
        if ok then t.(rep := Insert(s.rep, s.worker.item.ip, s.worker.item.fw, s.worker.item.priority + 1, now))
        else Dropped(t, s.worker.item.ip)
      case Put(now, ok) =>
        var t := s.(worker := Stored(s.worker.date));
        if ok then
          t.(rep := PutReputation(s.rep, s.worker.item.ip, RowFor(m, s.worker.outcome, now)),
             waiting := s.waiting - {s.worker.item.ip}, lost := s.lost - {s.worker.item.ip})
        else Dropped(t, s.worker.item.ip)
      case ChargeOne(ok) =>
        var t := s.(worker := Idle);
        if ok then t.(rep := Charge(s.rep, false)) else Freed(t, s.worker.date)
      case Stop => Stopped(s)
  }

  function Run(m: Settings, s: Sys, events: seq<Event>): Sys {
    if events == [] then s else Step(m, Run(m, s, events[..|events| - 1]), events[|events| - 1])
  }

  // ----- Budget safety ---------------------------------------------------------------

  /** The worker passed its check and has not yet charged. */
  predicate InFlight(w: Worker) {
    w.Checked? || w.Holding? || w.Called? || w.Stored?
  }

  /** A call made under the current window that has not yet been charged to it. */
  function Uncharged(w: Worker, date: int): int {
    if (w.Called? || w.Stored?) && w.date == date then 1 else 0
  }

  ghost predicate WithinBudget(s: Sys) {
    Budgeted(s.rep.rate, s.worker, s.today, s.admitted, s.free, s.windows)
  }

  ghost predicate Budgeted(rate: Option<Rate>, w: Worker, today: int, admitted: map<int, int>, free: map<int, nat>,
                           windows: map<int, int>) {
    && (rate == None ==> admitted == map[] && windows == map[] && w.Idle?)
    && (rate.Some? ==>
          var r := rate.value;
          && 0 <= r.used <= r.budget && r.date <= today
          && (InFlight(w) ==> r.used < r.budget)
          && GetOr(admitted, r.date, 0) <= r.used + Uncharged(w, r.date) + GetOr(free, r.date, 0)
          && (r.date in windows ==> windows[r.date] == r.budget))
    && (forall d :: d in windows ==> GetOr(admitted, d, 0) <= windows[d] + GetOr(free, d, 0) && d <= rate.value.date)
    && (forall d :: d in admitted ==> d in windows)
    && ((w.Checked? || w.Holding?) ==>
          w.date in windows && GetOr(admitted, w.date, 0) < windows[w.date] + GetOr(free, w.date, 0))
    && ((w.Called? || w.Stored?) ==> w.date in windows)
  }

  lemma OpenedWithin(m: Settings, s: Sys, today: int)
    requires m.dailyBudget >= 1 && WithinBudget(s) && s.today <= today
    ensures WithinBudget(Opened(s, m, today))
  {
    var t := Opened(s, m, today);
    assert s.rep.rate.Some? && s.rep.rate.value.date == today ==> t.rep.rate == s.rep.rate;
  }

  /** A worker that goes idle without a call to charge, or from one step to the next with it. */
  lemma QuietWithin(s: Sys, t: Sys)
    requires WithinBudget(s) && t.rep.rate == s.rep.rate && t.today == s.today
    requires t.admitted == s.admitted && t.free == s.free && t.windows == s.windows
    requires || t.worker == s.worker
             || (t.worker.Idle? && !s.worker.Called? && !s.worker.Stored?)
             || (s.worker.Called? && t.worker == Stored(s.worker.date))
             || (s.worker.Checked? && t.worker.Holding? && t.worker.date == s.worker.date)
    ensures WithinBudget(t)
  {
  }

  /** A call whose charge is lost. */
  lemma FreedWithin(s: Sys, t: Sys)
    requires WithinBudget(s) && (s.worker.Called? || s.worker.Stored?)
    requires t.rep.rate == s.rep.rate && t.today == s.today && t.admitted == s.admitted && t.windows == s.windows
    requires t.free == Bumped(s.free, s.worker.date) && (t.worker.Idle? || t.worker.Pinned?)
    ensures WithinBudget(t)
  {
  }

  /** A call that is charged. */
  lemma ChargedWithin(s: Sys, t: Sys, exhausted: bool)
    requires WithinBudget(s) && (s.worker.Called? || s.worker.Stored?)
    requires t.rep.rate == Charge(s.rep, exhausted).rate && t.today == s.today && t.admitted == s.admitted
    requires t.windows == s.windows && t.free == s.free && (t.worker.Idle? || t.worker.Pinned?)
    ensures WithinBudget(t)
  {
  }

  lemma LookupWithin(m: Settings, s: Sys, e: Event)
    requires WithinBudget(s) && Enabled(s, e) && e.Lookup?
    ensures WithinBudget(Step(m, s, e))
  {
  }

  lemma CheckWithin(m: Settings, s: Sys, e: Event)
    requires m.dailyBudget >= 1 && WithinBudget(s) && Enabled(s, e) && e.Check?
    ensures WithinBudget(Step(m, s, e))
  {
    OpenedWithin(m, s, e.today);
  }

  /** The call made last is settled by this event, for better or worse. */
  predicate Settles(s: Sys, e: Event) {
    e.Pin? || e.ChargeOne? || (e.Stop? && (s.worker.Called? || s.worker.Stored?))
  }

  lemma SettleWithin(m: Settings, s: Sys, e: Event)
    requires WithinBudget(s) && Enabled(s, e) && Settles(s, e)
    ensures WithinBudget(Step(m, s, e))
  {
    if !e.Stop? && e.ok { ChargedWithin(s, Step(m, s, e), e.Pin?); } else { FreedWithin(s, Step(m, s, e)); }
  }

  lemma QuietStopWithin(m: Settings, s: Sys)
    requires WithinBudget(s) && !Settles(s, Stop)
    ensures WithinBudget(Step(m, s, Stop))
  {
    QuietWithin(s, Stopped(s));
  }

  lemma KeepStepWithin(m: Settings, s: Sys, e: Event)
    requires WithinBudget(s) && Enabled(s, e) && (e.Requeue? || e.Put?)
    ensures WithinBudget(Step(m, s, e))
  {
    QuietWithin(s, Step(m, s, e));
  }

  lemma QuietStepWithin(m: Settings, s: Sys, e: Event)
    requires WithinBudget(s) && Enabled(s, e) && (e.Consult? || e.File? || e.Pop?)
    ensures WithinBudget(Step(m, s, e))
  {
    QuietWithin(s, Step(m, s, e));
  }

  lemma StepWithin(m: Settings, s: Sys, e: Event)
    requires m.dailyBudget >= 1 && WithinBudget(s)
    ensures WithinBudget(Step(m, s, e))
  {
    if Enabled(s, e) {
      if e.GetStatus? { OpenedWithin(m, s, e.today); }
      else if e.Check? { CheckWithin(m, s, e); }
      else if e.Lookup? { LookupWithin(m, s, e); }
      else if Settles(s, e) { SettleWithin(m, s, e); }
      else if e.Stop? { QuietStopWithin(m, s); }
      else if e.Requeue? || e.Put? { KeepStepWithin(m, s, e); }
      else { QuietStepWithin(m, s, e); }
    }
  }

  /** In every interleaving, store call by store call, of the worker with requests and status reads, also when a status
      read opens a new window between the check and the charge, a refusal pins the count, calls fail or the process is
      stopped anywhere: the used count never exceeds the budget, and the calls admitted under any date exceed that date's
      budget at most by those whose charge was lost. */
  lemma {:induction false} BudgetSafety(m: Settings, s: Sys, events: seq<Event>)
    requires m.dailyBudget >= 1 && WithinBudget(s)
    ensures var t := Run(m, s, events);
      && WithinBudget(t)
      && (t.rep.rate.Some? ==> 0 <= t.rep.rate.value.used <= t.rep.rate.value.budget)
      && (forall d :: d in t.admitted ==> d in t.windows && t.admitted[d] <= t.windows[d] + GetOr(t.free, d, 0))
  {
    if events != [] {
      BudgetSafety(m, s, events[..|events| - 1]);
      StepWithin(m, Run(m, s, events[..|events| - 1]), events[|events| - 1]);
    }
  }

  /** Without a stop and without a failing call no charge and no address is ever lost, so the bound is the budget itself. */
  lemma {:induction false} CleanLosesNothing(m: Settings, s: Sys, events: seq<Event>)
    requires s.free == map[] && s.lost == {} && AllClean(events)
    ensures Run(m, s, events).free == map[] && Run(m, s, events).lost == {}
  {
    if events != [] {
      assert events[|events| - 1] in events;
      CleanLosesNothing(m, s, events[..|events| - 1]);
    }
  }

  // ----- No request is lost ----------------------------------------------------------

  ghost predicate Distinct(q: seq<Item>) {
    forall i, j :: 0 <= i < |q| && 0 <= j < |q| && q[i].ip == q[j].ip ==> i == j
  }

  predicate HasItem(w: Worker) {
    w.Holding? || w.Called? || w.Pinned?
  }

  predicate InHand(w: Worker, ip: string) {
    HasItem(w) && w.item.ip == ip
  }

  /** The queue holds no address twice, and an address waiting for a verdict is queued or in the worker's hand unless it is
      lost; then it is neither. */
  ghost predicate Accounted(s: Sys) {
    && Distinct(s.rep.queue)
    && s.lost <= s.waiting
    && forall ip :: ip in s.waiting ==> ((Queued(s.rep.queue, ip) || InHand(s.worker, ip)) <==> ip !in s.lost)
  }

  /** Only public addresses get as far as a request, the queue, the worker or the provider. */
  ghost predicate AllPublic(s: Sys, public: string -> bool) {
    && (forall k :: 0 <= k < |s.asking| ==> public(s.asking[k].ip))
    && (forall i :: 0 <= i < |s.rep.queue| ==> public(s.rep.queue[i].ip))
    && (HasItem(s.worker) ==> public(s.worker.item.ip))
    && (forall ip :: ip in s.looked ==> public(ip))
  }

  lemma InsertKeeps(r: Rep, ip: string, fw: string, priority: int, now: int)
    requires Distinct(r.queue)
    ensures Distinct(Insert(r, ip, fw, priority, now).queue)
    ensures forall a :: Queued(Insert(r, ip, fw, priority, now).queue, a) <==> Queued(r.queue, a) || a == ip
  {
    var q := Insert(r, ip, fw, priority, now).queue;
    if !Queued(r.queue, ip) {
      assert q[|q| - 1].ip == ip;
      assert forall i :: 0 <= i < |r.queue| ==> q[i] == r.queue[i];
    }
  }

  lemma RemoveKeeps(q: seq<Item>, i: nat)
    requires Distinct(q) && i < |q|
    ensures Distinct(RemoveAt(q, i))
    ensures forall a :: Queued(q, a) <==> Queued(RemoveAt(q, i), a) || a == q[i].ip
    ensures !Queued(RemoveAt(q, i), q[i].ip)
  {
    var r := RemoveAt(q, i);
    assert forall j :: 0 <= j < |r| ==> r[j] == if j < i then q[j] else q[j + 1];
    forall a ensures Queued(q, a) <==> Queued(r, a) || a == q[i].ip {
      if Queued(q, a) && a != q[i].ip {
        var j :| 0 <= j < |q| && q[j].ip == a;
        assert r[if j < i then j else j - 1].ip == a;
      }
    }
  }

  lemma DropAccounts(s: Sys, ip: string)
    requires Distinct(s.rep.queue) && s.lost <= s.waiting && !HasItem(s.worker)
    requires forall a :: a in s.waiting && a != ip ==> (Queued(s.rep.queue, a) <==> a !in s.lost)
    requires ip in s.lost ==> !Queued(s.rep.queue, ip)
    ensures Accounted(Dropped(s, ip))
  {
  }

  lemma StopAccounts(m: Settings, s: Sys)
    requires Accounted(s)
    ensures Accounted(Step(m, s, Stop))
  {
    if HasItem(s.worker) {
      var t := s.(worker := Idle, asking := []);
      DropAccounts(if s.worker.Called? then Freed(t, s.worker.date) else t, s.worker.item.ip);
    }
  }

  lemma FileAccounts(m: Settings, s: Sys, e: Event)
    requires Accounted(s) && Enabled(s, e) && e.File?
    ensures Accounted(Step(m, s, e))
  {
    InsertKeeps(s.rep, s.asking[e.k].ip, s.asking[e.k].fw, s.asking[e.k].priority, e.now);
  }

  lemma RequeueAccounts(m: Settings, s: Sys, e: Event)
    requires Accounted(s) && Enabled(s, e) && e.Requeue?
    ensures Accounted(Step(m, s, e))
  {
    InsertKeeps(s.rep, s.worker.item.ip, s.worker.item.fw, s.worker.item.priority + 1, e.now);
    if !e.ok { DropAccounts(s.(worker := Idle), s.worker.item.ip); }
  }

  lemma PutAccounts(m: Settings, s: Sys, e: Event)
    requires Accounted(s) && Enabled(s, e) && e.Put?
    ensures Accounted(Step(m, s, e))
  {
    if !e.ok { DropAccounts(s.(worker := Stored(s.worker.date)), s.worker.item.ip); }
  }

  lemma PopAccounts(m: Settings, s: Sys, e: Event)
    requires Accounted(s) && Enabled(s, e) && e.Pop?
    ensures Accounted(Step(m, s, e))
  {
    if e.i < |s.rep.queue| { RemoveKeeps(s.rep.queue, e.i); }
  }

  lemma StepAccounts(m: Settings, s: Sys, e: Event)
    requires Accounted(s)
    ensures Accounted(Step(m, s, e))
  {
    if Enabled(s, e) {
      match e
      case File(_, _, _) => FileAccounts(m, s, e);
      case Requeue(_, _) => RequeueAccounts(m, s, e);
      case Pop(_, _) => PopAccounts(m, s, e);
      case Put(_, _) => PutAccounts(m, s, e);
      case Stop => StopAccounts(m, s);
      case Consult(_, _, _, _, _) =>
      case GetStatus(_, _) =>
      case Check(_, _) =>
      case Lookup(_) =>
      case Pin(_) =>
      case ChargeOne(_) =>
    }
  }

  /** In every interleaving, with calls failing and the process stopped anywhere: no address is queued twice, and every
      accepted address without a verdict is queued or in the worker's hand, except exactly those that were in hand when
      the process stopped or when the call that should have kept them failed, and were not accepted again since. */
  lemma {:induction false} RequestsKept(m: Settings, s: Sys, events: seq<Event>)
    requires Accounted(s)
    ensures Accounted(Run(m, s, events))
  {
    if events != [] {
      RequestsKept(m, s, events[..|events| - 1]);
      StepAccounts(m, Run(m, s, events[..|events| - 1]), events[|events| - 1]);
    }
  }

  ghost predicate Public(e: Event, public: string -> bool) {
    e.Consult? ==> public(e.ip)
  }

  lemma QueueStepPublic(m: Settings, s: Sys, e: Event, public: string -> bool)
    requires AllPublic(s, public) && (e.File? || e.Requeue?)
    ensures AllPublic(Step(m, s, e), public)
  {
  }

  lemma AskStepPublic(m: Settings, s: Sys, e: Event, public: string -> bool)
    requires AllPublic(s, public) && Public(e, public) && (e.Consult? || e.Pop?)
    ensures AllPublic(Step(m, s, e), public)
  {
  }

  lemma WorkStepPublic(m: Settings, s: Sys, e: Event, public: string -> bool)
    requires AllPublic(s, public) && (e.Lookup? || e.Pin? || e.Put? || e.ChargeOne?)
    ensures AllPublic(Step(m, s, e), public)
  {
  }

  lemma StepPublic(m: Settings, s: Sys, e: Event, public: string -> bool)
    requires AllPublic(s, public) && Public(e, public)
    ensures AllPublic(Step(m, s, e), public)
  {
    if e.File? || e.Requeue? { QueueStepPublic(m, s, e, public); }
    else if e.Consult? || e.Pop? { AskStepPublic(m, s, e, public); }
    else if e.Lookup? || e.Pin? || e.Put? || e.ChargeOne? { WorkStepPublic(m, s, e, public); }
  }

  /** Whatever fails, every address sent to the provider is one that was asked for. */
  lemma {:induction false} OnlyPublic(m: Settings, s: Sys, events: seq<Event>, public: string -> bool)
    requires AllPublic(s, public) && forall e :: e in events ==> Public(e, public)
    ensures AllPublic(Run(m, s, events), public)
  {
    if events != [] {
      assert events[|events| - 1] in events;
      OnlyPublic(m, s, events[..|events| - 1], public);
      StepPublic(m, Run(m, s, events[..|events| - 1]), events[|events| - 1], public);
    }
  }

  /** A system that has not seen a request yet. */
  const FRESH: Sys := Sys(Rep(map[], [], None), Idle, [], 0, map[], map[], map[], {}, {}, {})

  lemma FreshMeetsLaws(public: string -> bool)
    ensures WithinBudget(FRESH) && Accounted(FRESH) && AllPublic(FRESH, public)
  {
  }

  // ----- The gap between a request's two store calls ---------------------------------

  /** No queued address has a cache row that is good at this time. */
  ghost predicate Fresh(s: Sys, now: int) {
    forall ip :: Queued(s.rep.queue, ip) ==> !Cached(s.rep, ip, now)
  }

  /** The event files an address that has a good row by now, asked for before the row was written; or it writes a good row
      for an address that was accepted again while it was in hand. */
  predicate Races(m: Settings, s: Sys, e: Event, now: int) {
    || (e.File? && e.ok && Enabled(s, e) && Cached(s.rep, s.asking[e.k].ip, now) && !Queued(s.rep.queue, s.asking[e.k].ip))
    || (e.Put? && e.ok && Enabled(s, e) && Queued(s.rep.queue, s.worker.item.ip)
        && now <= RowFor(m, s.worker.outcome, e.now).expiresAt * SECOND)
    || (e.Requeue? && e.ok && Enabled(s, e) && Cached(s.rep, s.worker.item.ip, now) && !Queued(s.rep.queue, s.worker.item.ip))
  }

  /** One store call at a time, an address comes to be queued with a good row exactly by such a race. */
  lemma FreshIff(m: Settings, s: Sys, e: Event, now: int)
    requires Fresh(s, now)
    ensures Fresh(Step(m, s, e), now) <==> !Races(m, s, e, now)
  {
    if Enabled(s, e) {
      if e.File? {
        FiledFresh(s.rep, s.asking[e.k].ip, s.asking[e.k].fw, s.asking[e.k].priority, e.now, now);
      } else if e.Requeue? {
        FiledFresh(s.rep, s.worker.item.ip, s.worker.item.fw, s.worker.item.priority + 1, e.now, now);
      } else if e.Pop? && e.i < |s.rep.queue| {
        PopFresh(s.rep.queue, e.i);
      } else if e.Put? && e.ok {
        PutFresh(s.rep, s.worker.item.ip, RowFor(m, s.worker.outcome, e.now), now);
      }
    }
  }

  ghost predicate AlwaysFresh(m: Settings, s: Sys, events: seq<Event>, now: int) {
    events == [] || (AlwaysFresh(m, s, events[..|events| - 1], now) && Fresh(Run(m, s, events), now))
  }

  ghost predicate NeverRaces(m: Settings, s: Sys, events: seq<Event>, now: int) {
    events == [] || (NeverRaces(m, s, events[..|events| - 1], now)
                     && !Races(m, Run(m, s, events[..|events| - 1]), events[|events| - 1], now))
  }

  /** Over a whole run no queued address has such a row at any moment exactly when no event is such a race. */
  lemma {:induction false} FreshRunIff(m: Settings, s: Sys, events: seq<Event>, now: int)
    requires Fresh(s, now)
    ensures AlwaysFresh(m, s, events, now) <==> NeverRaces(m, s, events, now)
    ensures AlwaysFresh(m, s, events, now) ==> Fresh(Run(m, s, events), now)
  {
    if events != [] {
      var n := |events| - 1;
      FreshRunIff(m, s, events[..n], now);
      if AlwaysFresh(m, s, events[..n], now) {
        FreshIff(m, Run(m, s, events[..n]), events[n], now);
      }
    }
  }

  ghost predicate FreshRep(r: Rep, now: int) {
    forall ip :: Queued(r.queue, ip) ==> !Cached(r, ip, now)
  }

  lemma FiledFresh(r: Rep, ip: string, fw: string, priority: int, at: int, now: int)
    requires FreshRep(r, now)
    ensures FreshRep(Insert(r, ip, fw, priority, at), now) <==> !(Cached(r, ip, now) && !Queued(r.queue, ip))
  {
    var t := Insert(r, ip, fw, priority, at);
    if !Queued(r.queue, ip) {
      assert t.queue[|r.queue|].ip == ip && Queued(t.queue, ip);
      forall a | Queued(t.queue, a) && a != ip ensures Queued(r.queue, a) {
        var i :| 0 <= i < |t.queue| && t.queue[i].ip == a;
        assert r.queue[i].ip == a;
      }
    }
  }

  lemma PopFresh(q: seq<Item>, i: nat)
    requires i < |q|
    ensures forall a :: Queued(RemoveAt(q, i), a) ==> Queued(q, a)
  {
    var r := RemoveAt(q, i);
    forall a | Queued(r, a) ensures Queued(q, a) {
      var j :| 0 <= j < |r| && r[j].ip == a;
      assert r[j] == q[if j < i then j else j + 1];
    }
  }

  lemma PutFresh(r: Rep, ip: string, row: CacheRow, now: int)
    requires FreshRep(r, now)
    ensures FreshRep(PutReputation(r, ip, row), now) <==> !(Queued(r.queue, ip) && now <= row.expiresAt * SECOND)
  {
  }

  lemma RunSnoc(m: Settings, s: Sys, events: seq<Event>, e: Event)
    ensures Run(m, s, events + [e]) == Step(m, Run(m, s, events), e)
  {
    assert (events + [e])[..|events|] == events;
  }

  ghost predicate AllClean(events: seq<Event>) {
    forall e :: e in events ==> e.Clean()
  }

  lemma Then(m: Settings, events: seq<Event>, s: Sys, e: Event) returns (more: seq<Event>, t: Sys)
    requires Run(m, FRESH, events) == s && e.Clean() && AllClean(events)
    ensures more == events + [e] && t == Step(m, s, e) && Run(m, FRESH, more) == t && AllClean(more)
  {
    RunSnoc(m, FRESH, events, e);
    more, t := events + [e], Step(m, s, e);
  }

  /** One request is filed and popped. */
  lemma GapBegins(m: Settings, ip: string) returns (events: seq<Event>, s: Sys)
    requires m.dailyBudget >= 1
    ensures Run(m, FRESH, events) == s && AllClean(events)
    ensures s.worker == Holding(0, Item(ip, "a", 0, 0)) && s.rep.queue == [] && s.rep.cache == map[] && s.asking == []
  {
    events, s := GapFiled(m, ip);
    events, s := Then(m, events, s, Check(0, true));
    assert s.worker == Checked(0) && s.rep.queue == [Item(ip, "a", 0, 0)];
    events, s := Then(m, events, s, Pop(0, true));
  }

  lemma GapFiled(m: Settings, ip: string) returns (events: seq<Event>, s: Sys)
    ensures Run(m, FRESH, events) == s && AllClean(events) && s.today == 0
    ensures s.rep == Rep(map[], [Item(ip, "a", 0, 0)], None) && s.asking == [] && s.worker.Idle?
  {
    events, s := Then(m, [], FRESH, Consult("a", ip, 0, 0, true));
    assert s.asking == [Pending("a", ip, 0)];
    events, s := Then(m, events, s, File(0, 0, true));
  }

  /** Another one for the same address looks into the cache before the answer is there. */
  lemma GapAnswers(m: Settings, ip: string, v: Verdict) returns (events: seq<Event>, s: Sys)
    requires m.dailyBudget >= 1 && 0 <= m.cacheTTL && 0 <= m.negativeTTL
    ensures Run(m, FRESH, events) == s && AllClean(events)
    ensures Cached(s.rep, ip, 0) && s.rep.queue == [] && s.asking == [Pending("b", ip, 0)]
  {
    events, s := GapBegins(m, ip);
    events, s := Then(m, events, s, Consult("b", ip, 0, 0, true));
    assert s.asking == [Pending("b", ip, 0)] && s.worker.Holding?;
    events, s := Then(m, events, s, Lookup(Answer(v)));
    events, s := Then(m, events, s, Put(0, true));
  }

  /** Such a race is within reach without any failure: two pollers meet the same address, the second one's request is filed
      when the first one's has already been answered. */
  lemma GapReached(m: Settings, ip: string, v: Verdict) returns (events: seq<Event>)
    requires m.dailyBudget >= 1 && 0 <= m.cacheTTL && 0 <= m.negativeTTL
    ensures AllClean(events) && !Fresh(Run(m, FRESH, events), 0)
  {
    var s;
    events, s := GapAnswers(m, ip, v);
    events, s := Then(m, events, s, File(0, 0, true));
    assert s.rep.queue[0].ip == ip && Queued(s.rep.queue, ip);
  }

  // ----- More calls than the window --------------------------------------------------

  /** One address asked for, looked up in vain and charged, or not. */
  function Request(ip: string): seq<Event> {
    [Consult("f", ip, 0, 0, true)] + [File(0, 0, true)]
  }

  function Work(charged: bool): seq<Event> {
    [Check(0, true)] + [Pop(0, true)] + [Lookup(Failure(""))] + [Put(0, true)] + [ChargeOne(charged)]
  }

  function Address(n: nat): (ip: string)
    ensures |ip| == n
  {
    seq(n, _ => '1')
  }

  /** One call whose charge is lost, then n that are charged. */
  function Overrun(n: nat): seq<Event> {
    if n == 0 then [GetStatus(0, true)] + (Request(Address(0)) + Work(false))
    else Overrun(n - 1) + (Request(Address(n)) + Work(true))
  }

  lemma {:induction false} RunConcat(m: Settings, s: Sys, a: seq<Event>, b: seq<Event>)
    ensures Run(m, s, a + b) == Run(m, Run(m, s, a), b)
    decreases |b|
  {
    if b == [] {
      assert a + b == a;
    } else {
      var n := |b| - 1;
      assert a + b == (a + b[..n]) + [b[n]] && b == b[..n] + [b[n]];
      RunSnoc(m, s, a + b[..n], b[n]);
      RunConcat(m, s, a, b[..n]);
    }
  }

  lemma RunOne(m: Settings, s: Sys, e: Event)
    ensures Run(m, s, [e]) == Step(m, s, e)
  {
    assert [e][..0] == [];
  }

  /** Nothing is under way on day 0, and this is what the window shows. */
  ghost predicate Rested(m: Settings, s: Sys, queue: seq<Item>, used: int, calls: int, lost: int) {
    && s.worker.Idle? && s.asking == [] && s.today == 0 && s.rep.queue == queue
    && s.rep.rate == Some(Rate(0, used, m.dailyBudget)) && 0 in s.windows && s.windows[0] == m.dailyBudget
    && GetOr(s.admitted, 0, 0) == calls && GetOr(s.free, 0, 0) == lost
  }

  lemma RequestRuns(m: Settings, s: Sys, ip: string, used: int, calls: int, lost: int)
    requires Rested(m, s, [], used, calls, lost) && ip !in s.rep.cache
    ensures var t := Run(m, s, Request(ip));
      Rested(m, t, [Item(ip, "f", 0, 0)], used, calls, lost) && t.rep.cache == s.rep.cache
  {
    var a, b := Consult("f", ip, 0, 0, true), File(0, 0, true);
    RunOne(m, s, a);
    RunSnoc(m, s, [a], b);
  }

  /** The item in hand and the window that let it through. */
  lemma PickRuns(m: Settings, s: Sys, item: Item, used: int, calls: int, lost: int) returns (t: Sys)
    requires Rested(m, s, [item], used, calls, lost) && used < m.dailyBudget
    ensures t == Run(m, s, [Check(0, true)] + [Pop(0, true)])
    ensures t.worker == Holding(0, item) && Rested(m, t.(worker := Idle), [], used, calls, lost) && t.rep.cache == s.rep.cache
  {
    RunOne(m, s, Check(0, true));
    RunSnoc(m, s, [Check(0, true)], Pop(0, true));
    var u := Step(m, s, Check(0, true));
    assert u.worker == Checked(0) && u.rep == s.rep;
    t := Step(m, u, Pop(0, true));
  }

  lemma CallRuns(m: Settings, s: Sys, item: Item, used: int, calls: int, lost: int, charged: bool) returns (t: Sys)
    requires s.worker == Holding(0, item) && Rested(m, s.(worker := Idle), [], used, calls, lost)
    ensures t == Step(m, Step(m, Step(m, s, Lookup(Failure(""))), Put(0, true)), ChargeOne(charged))
    ensures Rested(m, t, [], if charged then used + 1 else used, calls + 1, if charged then lost else lost + 1)
    ensures t.rep.cache.Keys == s.rep.cache.Keys + {item.ip}
  {
    var u := Step(m, s, Lookup(Failure("")));
    var v := Step(m, u, Put(0, true));
    assert v.worker == Stored(0) && v.rep.rate == s.rep.rate && v.rep.queue == [];
    t := Step(m, v, ChargeOne(charged));
  }

  lemma WorkRuns(m: Settings, s: Sys, item: Item, used: int, calls: int, lost: int, charged: bool) returns (t: Sys)
    requires Rested(m, s, [item], used, calls, lost) && used < m.dailyBudget
    ensures t == Run(m, s, Work(charged))
    ensures Rested(m, t, [], if charged then used + 1 else used, calls + 1, if charged then lost else lost + 1)
    ensures t.rep.cache.Keys == s.rep.cache.Keys + {item.ip}
  {
    var pick := [Check(0, true)] + [Pop(0, true)];
    t := PickRuns(m, s, item, used, calls, lost);
    RunSnoc(m, s, pick, Lookup(Failure("")));
    RunSnoc(m, s, pick + [Lookup(Failure(""))], Put(0, true));
    RunSnoc(m, s, pick + [Lookup(Failure(""))] + [Put(0, true)], ChargeOne(charged));
    t := CallRuns(m, t, item, used, calls, lost, charged);
  }

  lemma CycleRuns(m: Settings, s: Sys, ip: string, used: int, calls: int, lost: int, charged: bool) returns (t: Sys)
    requires Rested(m, s, [], used, calls, lost) && ip !in s.rep.cache && used < m.dailyBudget
    ensures t == Run(m, s, Request(ip) + Work(charged))
    ensures Rested(m, t, [], if charged then used + 1 else used, calls + 1, if charged then lost else lost + 1)
    ensures t.rep.cache.Keys == s.rep.cache.Keys + {ip}
  {
    RunConcat(m, s, Request(ip), Work(charged));
    RequestRuns(m, s, ip, used, calls, lost);
    t := WorkRuns(m, Run(m, s, Request(ip)), Item(ip, "f", 0, 0), used, calls, lost, charged);
  }

  lemma LostCharge(m: Settings) returns (t: Sys)
    requires 1 <= m.dailyBudget
    ensures t == Run(m, FRESH, Overrun(0)) && Rested(m, t, [], 0, 1, 1) && t.rep.cache.Keys == {Address(0)}
  {
    var open, ip := GetStatus(0, true), Address(0);
    var s := Step(m, FRESH, open);
    assert Rested(m, s, [], 0, 0, 0) && s.rep.cache == map[];
    RunOne(m, FRESH, open);
    RunConcat(m, FRESH, [open], Request(ip) + Work(false));
    t := CycleRuns(m, s, ip, 0, 0, 0, false);
  }

  lemma NextCall(m: Settings, events: seq<Event>, s: Sys, n: nat) returns (t: Sys)
    requires 1 <= n <= m.dailyBudget && s == Run(m, FRESH, events) && Rested(m, s, [], n - 1, n, 1)
    requires forall ip :: ip in s.rep.cache ==> |ip| <= n - 1
    ensures t == Run(m, FRESH, events + (Request(Address(n)) + Work(true))) && Rested(m, t, [], n, n + 1, 1)
    ensures forall ip :: ip in t.rep.cache ==> |ip| <= n
  {
    var ip := Address(n);
    RunConcat(m, FRESH, events, Request(ip) + Work(true));
    t := CycleRuns(m, s, ip, n - 1, n, 1, true);
  }

  lemma {:induction false} OverrunRuns(m: Settings, n: nat) returns (t: Sys)
    requires 1 <= m.dailyBudget && n <= m.dailyBudget
    ensures t == Run(m, FRESH, Overrun(n)) && Rested(m, t, [], n, n + 1, 1)
    ensures forall ip :: ip in t.rep.cache ==> |ip| <= n
  {
    if n == 0 {
      t := LostCharge(m);
    } else {
      var s := OverrunRuns(m, n - 1);
      t := NextCall(m, Overrun(n - 1), s, n);
    }
  }

  lemma {:induction false} OverrunFails(n: nat)
    ensures |Overrun(n)| > 7 && Overrun(n)[7] == ChargeOne(false)
    ensures forall i :: 0 <= i < |Overrun(n)| && i != 7 ==> Overrun(n)[i].Clean()
  {
    if n > 0 { OverrunFails(n - 1); }
  }

  /** The bound of BudgetSafety is met: whatever the budget, a run in which one charge fails and no other call makes one
      more call on a day than the day's window has. */
  lemma BudgetOverrun(m: Settings) returns (events: seq<Event>)
    requires m.dailyBudget >= 1
    ensures |events| > 7 && events[7] == ChargeOne(false)
    ensures forall i :: 0 <= i < |events| && i != 7 ==> events[i].Clean()
    ensures var t := Run(m, FRESH, events);
      && 0 in t.windows && t.windows[0] == m.dailyBudget
      && 0 in t.admitted && t.admitted[0] == m.dailyBudget + 1
      && GetOr(t.free, 0, 0) == 1
  {
    events := Overrun(m.dailyBudget);
    OverrunFails(m.dailyBudget);
    var t := OverrunRuns(m, m.dailyBudget);
  }
}
