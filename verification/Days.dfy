// The daily budget against the clock: provider calls counted by the instants of their checks.

module Days {
  import opened Base
  import opened Tables
  import opened Reputation
  import opened Budget

  /** The instant lies in this UTC day since the epoch; instants are nanoseconds. */
  predicate InDay(at: int, day: int) {
    day * 86_400_000_000_000 <= at < (day + 1) * 86_400_000_000_000
  }

  lemma DateIff(at: int, day: int)
    ensures DateOf(at) == day <==> InDay(at, day)
  {
  }

  /** Two instants have one date exactly when one UTC day holds both. */
  lemma SameDateIff(a: int, b: int)
    ensures DateOf(a) == DateOf(b) <==> exists day :: InDay(a, day) && InDay(b, day)
  {
    DateIff(a, DateOf(a));
    DateIff(b, DateOf(b));
    if day :| InDay(a, day) && InDay(b, day) {
      DateIff(a, day);
      DateIff(b, day);
    }
  }

  /** A store call and when it is made. */
  datatype Timed = Timed(e: Event, now: int)

  /** The two calls that look at the date see that of their instant. */
  predicate Dated(c: Timed) {
    (c.e.Check? || c.e.GetStatus?) ==> c.e.today == DateOf(c.now)
  }

  function Plain(cs: seq<Timed>): (es: seq<Event>)
    ensures |es| == |cs|
  {
    if cs == [] then [] else Plain(cs[..|cs| - 1]) + [cs[|cs| - 1].e]
  }

  /** The worker's latest check that let it go on, and the checks behind the provider calls made so far. */
  datatype Calls = Calls(check: int, made: seq<int>)

  function Made(m: Settings, cs: seq<Timed>): Calls {
    if cs == [] then Calls(0, [])
    else
      var init, c := cs[..|cs| - 1], cs[|cs| - 1];
      var s, calls := Run(m, FRESH, Plain(init)), Made(m, init);
      if !Enabled(s, c.e) then calls
      else if c.e.Check? then calls.(check := c.now)
      else if c.e.Lookup? then calls.(made := calls.made + [calls.check])
      else calls
  }

  /** How many of them lie in one UTC day. */
  function MadeOn(made: seq<int>, day: int): nat {
    if made == [] then 0 else MadeOn(made[..|made| - 1], day) + (if InDay(made[|made| - 1], day) then 1 else 0)
  }

  /** The machine's own account agrees with the clock. */
  ghost predicate Agrees(s: Sys, calls: Calls) {
    && ((s.worker.Checked? || s.worker.Holding?) ==> InDay(calls.check, s.worker.date))
    && forall day :: MadeOn(calls.made, day) == GetOr(s.admitted, day, 0)
  }

  lemma StepAgrees(m: Settings, s: Sys, c: Timed, calls: Calls)
    requires Agrees(s, calls) && Dated(c) && Enabled(s, c.e)
    ensures Agrees(Step(m, s, c.e),
                   if c.e.Check? then calls.(check := c.now)
                   else if c.e.Lookup? then calls.(made := calls.made + [calls.check]) else calls)
  {
    if c.e.Check? {
      DateIff(c.now, DateOf(c.now));
    } else if c.e.Lookup? {
      LookupAgrees(s, Step(m, s, c.e), calls);
    }
  }

  lemma LookupAgrees(s: Sys, t: Sys, calls: Calls)
    requires Agrees(s, calls) && s.worker.Holding? && t.worker.Called?
    requires t.admitted == s.admitted[s.worker.date := GetOr(s.admitted, s.worker.date, 0) + 1]
    ensures Agrees(t, calls.(made := calls.made + [calls.check]))
  {
    var more := calls.made + [calls.check];
    assert more[..|calls.made|] == calls.made;
    forall day ensures MadeOn(more, day) == GetOr(t.admitted, day, 0) {
      assert MadeOn(calls.made, day) == GetOr(s.admitted, day, 0);
      DateIff(calls.check, day);
      DateIff(calls.check, s.worker.date);
    }
  }

  lemma {:induction false} RunAgrees(m: Settings, cs: seq<Timed>)
    requires forall c :: c in cs ==> Dated(c)
    ensures Agrees(Run(m, FRESH, Plain(cs)), Made(m, cs))
  {
    if cs != [] {
      var init, c := cs[..|cs| - 1], cs[|cs| - 1];
      RunAgrees(m, init);
      RunSnoc(m, FRESH, Plain(init), c.e);
      var s := Run(m, FRESH, Plain(init));
      assert c in cs;
      if Enabled(s, c.e) { StepAgrees(m, s, c, Made(m, init)); }
    }
  }

  /** Every window has the configured budget. */
  ghost predicate SameBudget(m: Settings, s: Sys) {
    && (s.rep.rate.Some? ==> s.rep.rate.value.budget == m.dailyBudget)
    && forall d :: d in s.windows ==> s.windows[d] == m.dailyBudget
  }

  lemma StepBudget(m: Settings, s: Sys, e: Event)
    requires SameBudget(m, s)
    ensures SameBudget(m, Step(m, s, e))
  {
  }

  lemma {:induction false} RunBudget(m: Settings, events: seq<Event>)
    ensures SameBudget(m, Run(m, FRESH, events))
  {
    if events != [] {
      RunBudget(m, events[..|events| - 1]);
      StepBudget(m, Run(m, FRESH, events[..|events| - 1]), events[|events| - 1]);
    }
  }

  /** The daily budget by the clock: in every run of single store calls, failing ones and stops included, the provider calls
      whose check lies in one UTC day are no more than the configured budget and those of them whose charge was lost. */
  lemma BudgetByTheClock(m: Settings, cs: seq<Timed>, day: int)
    requires m.dailyBudget >= 1 && forall c :: c in cs ==> Dated(c)
    ensures var s := Run(m, FRESH, Plain(cs)); var n := MadeOn(Made(m, cs).made, day);
      n <= m.dailyBudget + GetOr(s.free, day, 0)
  {
    var s := Run(m, FRESH, Plain(cs));
    RunAgrees(m, cs);
    assert WithinBudget(FRESH);
    BudgetSafety(m, FRESH, Plain(cs));
    RunBudget(m, Plain(cs));
    assert MadeOn(Made(m, cs).made, day) == GetOr(s.admitted, day, 0);
  }

  // ----- A refusal ends the day --------------------------------------------------------

  /** The window of this day is used up, and no call is under way. */
  ghost predicate UsedUp(s: Sys, day: int) {
    && s.today == day && s.rep.rate.Some? && s.rep.rate.value.date == day
    && s.rep.rate.value.used >= s.rep.rate.value.budget
    && !InFlight(s.worker)
  }

  /** No event of a later date than this one. */
  predicate OnDay(e: Event, day: int) {
    (e.Check? || e.GetStatus?) ==> e.today <= day
  }

  /** When the provider refuses and the charge reaches the table, the window is used up ... */
  lemma RefusalUsesUp(m: Settings, s: Sys)
    requires WithinBudget(s) && s.worker.Called? && s.worker.outcome.RateLimited?
    requires s.rep.rate.Some? && s.rep.rate.value.date == s.today
    ensures UsedUp(Step(m, s, Pin(true)), s.today)
  {
  }

  lemma UsedUpStays(m: Settings, s: Sys, e: Event, day: int)
    requires UsedUp(s, day) && OnDay(e, day)
    ensures UsedUp(Step(m, s, e), day) && Step(m, s, e).admitted == s.admitted
  {
  }

  /** ... and until the date changes no call is made, whatever else is asked for, read, queued or stopped. */
  lemma {:induction false} NoCallsThatDay(m: Settings, s: Sys, events: seq<Event>, day: int)
    requires UsedUp(s, day) && forall e :: e in events ==> OnDay(e, day)
    ensures UsedUp(Run(m, s, events), day) && Run(m, s, events).admitted == s.admitted
  {
    if events != [] {
      var n := |events| - 1;
      assert events[n] in events;
      NoCallsThatDay(m, s, events[..n], day);
      UsedUpStays(m, Run(m, s, events[..n]), events[n], day);
    }
  }
}
