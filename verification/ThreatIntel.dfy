// The reputation manager as an object over its tables.

module ThreatIntel {
  import opened Base
  import opened Tables
  import R = Reputation

  datatype Status = Status(used: int, budget: int, queueDepth: int)

  class Manager {
    const settings: R.Settings
    var cache: map<string, R.CacheRow>
    var queue: seq<R.Item>
    var rate: Option<R.Rate>

    function State(): R.Rep
      reads this
    {
      R.Rep(cache, queue, rate)
    }

    constructor (dailyBudget: int, cacheTTL: int, negativeTTL: int)
      ensures settings == R.NewManager(dailyBudget, cacheTTL, negativeTTL)
      ensures State() == R.Rep(map[], [], None)
    {
      settings := R.NewManager(dailyBudget, cacheTTL, negativeTTL);
      cache, queue, rate := map[], [], None;
    }

    /** `asked` and `filed` say which of the two store calls succeeded; a failing cache read counts as a miss. */
    method Enqueue(fw: string, ip: string, priority: int, now: int) returns (ghost asked: bool, ghost filed: bool)
      modifies this
      ensures State() == R.EnqueueWith(old(State()), fw, ip, priority, now, asked, filed)
    {
      var ok, found := GetReputation(ip, now);
      asked, filed := ok, true;
      if ok && found {
        return;
      }
      ok := EnqueueLookup(ip, fw, priority, now);
      filed := ok;
    }

    method GetReputation(ip: string, now: int) returns (ok: bool, found: bool)
      ensures ok ==> (found <==> R.Cached(State(), ip, now))
    {
      ok := *;
      found := ok && ip in cache && now <= cache[ip].expiresAt * SECOND;
    }

    /** Looks for the address in the queue and appends it if it is not there. */
    method EnqueueLookup(ip: string, fw: string, priority: int, now: int) returns (ok: bool)
      modifies this`queue
      ensures State() == if ok then R.Insert(old(State()), ip, fw, priority, now) else old(State())
    {
      ok := *;
      if !ok {
        return;
      }
      var i := 0;
      while i < |queue|
        invariant 0 <= i <= |queue| && queue == old(queue)
        invariant forall j :: 0 <= j < i ==> queue[j].ip != ip
      {
        if queue[i].ip == ip {
          return;
        }
        i := i + 1;
      }
      queue := queue + [R.Item(ip, fw, Unix(now), priority)];
    }

    /** The highest priority, oldest request leaves the queue. */
    method PopNext() returns (ok: bool, item: Option<R.Item>, ghost at: nat)
      modifies this`queue
      ensures !ok ==> item.None?
      ensures ok ==> (item.None? <==> old(queue) == [])
      ensures item.None? ==> queue == old(queue) && (old(queue) == [] || R.IsNext(old(queue), at))
      ensures item.Some? ==>
        R.IsNext(old(queue), at) && item.value == old(queue)[at] && queue == R.RemoveAt(old(queue), at)
    {
      ok, item, at := *, None, 0;
      if queue == [] {
        return;
      }
      var best := 0;
      for j := 1 to |queue|
        invariant 0 <= best < |queue|
        invariant forall k :: 0 <= k < j ==> !R.Ahead(queue[k], queue[best])
      {
        if R.Ahead(queue[j], queue[best]) {
          best := j;
        }
      }
      at := best;
      if ok {
        item := Some(queue[best]);
        queue := queue[..best] + queue[best + 1..];
      }
    }

    method RateLimitStatus(today: int) returns (ok: bool, used: int, budget: int)
      modifies this`rate
      ensures State() == if ok then R.Status(old(State()), today, settings.dailyBudget) else old(State())
      ensures ok ==> rate == Some(R.Rate(today, used, budget))
    {
      ok, used, budget := *, 0, 0;
      if !ok {
        return;
      }
      if rate == None || rate.value.date != today {
        rate := Some(R.Rate(today, 0, settings.dailyBudget));
      }
      used, budget := rate.value.used, rate.value.budget;
    }

    method IncrementRateLimit(exhausted: bool) returns (ok: bool)
      modifies this`rate
      ensures State() == if ok then R.Charge(old(State()), exhausted) else old(State())
    {
      ok := *;
      if ok && rate.Some? {
        var w := rate.value;
        rate := Some(w.(used := if exhausted then w.budget else w.used + 1));
      }
    }

    method PutReputation(ip: string, row: R.CacheRow) returns (ok: bool)
      modifies this`cache
      ensures State() == if ok then R.PutReputation(old(State()), ip, row) else old(State())
    {
      ok := *;
      if ok {
        cache := cache[ip := row];
      }
    }

    /** The provider: any answer at all. */
    method Lookup(ip: string) returns (o: R.Outcome)
    {
      o := *;
    }

    /** One wake of the worker: at most one lookup, the next in line, whose result decides the rest. `f` says which store
        calls failed. */
    method Tick(start: int, now: int) returns (ghost at: nat, o: R.Outcome, looked: Option<string>, ghost f: R.Faults)
      modifies this
      ensures State() == R.TickWith(settings, old(State()), R.DateOf(start), at, o, now, f)
      ensures looked.Some? <==> !f.status && !f.pop && R.Looks(settings, old(State()), R.DateOf(start))
      ensures looked.Some? ==> R.IsNext(old(queue), at) && looked.value == old(queue)[at].ip
    {
      o, looked, at, f := R.RateLimited, None, 0, R.NO_FAULTS;
      var ok, used, budget := RateLimitStatus(R.DateOf(start));
      if !ok {
        f := f.(status := true);
        return;
      }
      if used >= budget {
        return;
      }
      var next;
      ok, next, at := PopNext();
      f := f.(pop := !ok);
      if next.None? {
        return;
      }
      var item := next.value;
      o := Lookup(item.ip);
      looked := Some(item.ip);
      if o.RateLimited? {
        ok := IncrementRateLimit(true);
        f := f.(charge := !ok);
        ok := EnqueueLookup(item.ip, item.fw, item.priority + 1, now);
        f := f.(keep := !ok);
        return;
      }
      var row := MakeRow(o, now);
      ok := PutReputation(item.ip, row);
      f := f.(keep := !ok);
      ok := IncrementRateLimit(false);
      f := f.(charge := !ok);
    }

    method MakeRow(o: R.Outcome, now: int) returns (row: R.CacheRow)
      requires !o.RateLimited?
      ensures row == R.RowFor(settings, o, now)
    {
      match o
      case Failure(message) =>
        row := R.CacheRow(R.NO_VERDICT, message, Unix(now), Unix(now + settings.negativeTTL));
      case Answer(verdict) =>
        var ttl := settings.cacheTTL;
        if verdict.classification == "" || verdict.classification == "unknown" {
          ttl := settings.negativeTTL;
        }
        row := R.CacheRow(verdict, "", Unix(now), Unix(now + ttl));
    }

    /** What the dashboard reads; it opens a new day's window too. */
    method GetStatus(now: int) returns (ok: bool, s: Status)
      modifies this`rate
      ensures State() == if ok then R.Status(old(State()), R.DateOf(now), settings.dailyBudget) else old(State())
      ensures ok ==> s == Status(rate.value.used, rate.value.budget, |queue|)
    {
      var used, budget;
      ok, used, budget := RateLimitStatus(R.DateOf(now));
      s := Status(used, budget, |queue|);
    }
  }
}
