// The rollup's bytes when store calls fail: what is counted twice, and what is never counted.

module Failures {
  import opened Base
  import opened Sums
  import opened Flows
  import opened Tables
  import opened Tracker
  import opened Pruning
  import opened History
  import opened Chronicle
  import opened Conservation

  /** One firewall's account. `readings` holds for every session the counter total last taken over into a poller's map, also
      after the session was closed; `back` what counters lost between such readings; `excess` the growth counted for a
      reading that was then not taken over, so that the next one counts it again; `missed` what a restart took over from
      the rows without its ever having been counted. */
  datatype Ledger = Ledger(readings: map<int, int>, back: nat, excess: nat, missed: int)

  const BLANK: Ledger := Ledger(map[], 0, 0, 0)

  function Amount(id: int, bytes: int): int {
    bytes
  }

  /** The reading is taken over: every call succeeded, or the only one that did not was not needed. */
  predicate TakenOver(w: World, e: Event)
    requires e.Observe? && e.fw in w.pollers
  {
    var open, key := w.pollers[e.fw].open, SessionKey(e.flow);
    e.calls >= 3 || (key in open && e.calls == 2 && LogEvent(open[key], e.flow, e.now) == None)
  }

  /** The open rows a poller finds when it starts, with their counter totals. */
  function Found(db: Db, fw: string, now: int): map<int, int> {
    var open := LoadOpen(db, fw, now);
    map k | k in (set k | k in open :: open[k].id) && k in db.sessions :: db.sessions[k].txBytes + db.sessions[k].rxBytes
  }

  ghost function Book(w: World, e: Event, fw: string, l: Ledger): Ledger {
    if !Enabled(w, e) || !e.ByPoller() || e.fw != fw then l
    else match e
      case Load(_, now, ok) =>
        if !ok then l
        else
          var readings := l.readings + Found(w.db, fw, now);
          l.(readings := readings, missed := l.missed + SumBy(readings, Amount) - SumBy(l.readings, Amount))
      case Observe(_, f, now, calls) =>
        var open, key := w.pollers[fw].open, SessionKey(f);
        if TakenOver(w, e) then
          if key in open then
            l.(readings := l.readings[open[key].id := f.Bytes()], back := l.back + Delta(f.Bytes(), open[key].Bytes()))
          else l.(readings := l.readings[w.db.lastId + 1 := f.Bytes()])
        else if key in open then l.(excess := l.excess + Added(w, e))
        else l
      case Close(_, _, _, _) => l
  }

  ghost function Books(env: Env, events: seq<Event>, fw: string): Ledger {
    if events == [] then BLANK
    else
      var n := |events| - 1;
      Book(Run(env, START, events[..n]), events[n], fw, Books(env, events[..n], fw))
  }

  // ----- The law ---------------------------------------------------------------------

  /** The map's entries carry the readings of the account, which knows of no row not yet inserted. */
  ghost predicate Matched(w: World, fw: string, l: Ledger) {
    Carries(if fw in w.pollers then w.pollers[fw].open else map[], l.readings, w.db.lastId)
  }

  ghost predicate Carries(open: map<string, Tracked>, readings: map<int, int>, last: int) {
    && (forall id :: id in readings ==> id <= last)
    && (forall k :: k in open ==> open[k].id in readings && readings[open[k].id] == open[k].Bytes())
  }

  lemma PutCarries(open: map<string, Tracked>, readings: map<int, int>, last: int, after: int, key: string, t: Tracked)
    requires Carries(open, readings, last) && last <= after && t.id <= after
    requires forall k :: k in open && k != key ==> open[k].id != t.id
    ensures Carries(open[key := t], readings[t.id := t.Bytes()], after)
  {
  }

  ghost predicate Adds(w: World, fw: string, l: Ledger) {
    SumBy(w.db.usage, BytesIn(OfFirewall(fw))) == SumBy(l.readings, Amount) + l.back + l.excess - l.missed
  }

  lemma ObserveAdds(env: Env, w: World, e: Event, l: Ledger)
    requires Enabled(w, e) && e.Observe? && Matched(w, e.fw, l) && Adds(w, e.fw, l)
    ensures Adds(Step(env, w, e), e.fw, Book(w, e, e.fw, l))
  {
    ObserveBytes(env, w, e, OfFirewall(e.fw));
    var open, key := w.pollers[e.fw].open, SessionKey(e.flow);
    if TakenOver(w, e) {
      if key in open {
        SumPut(l.readings, Amount, open[key].id, e.flow.Bytes());
      } else {
        SumPut(l.readings, Amount, w.db.lastId + 1, e.flow.Bytes());
      }
    }
  }

  /** What the map and the last id are after one observation. */
  lemma ObserveOpen(env: Env, w: World, e: Event)
    requires Enabled(w, e) && e.Observe?
    ensures var v := Step(env, w, e); var open, key := w.pollers[e.fw].open, SessionKey(e.flow);
      && v.pollers == w.pollers[e.fw := v.pollers[e.fw]] && w.db.lastId <= v.db.lastId
      && (if !TakenOver(w, e) then v.pollers[e.fw].open == open
          else if key in open then
            v.pollers[e.fw].open == open[key := NextTracked(open[key], e.flow, e.now)]
          else
            v.db.lastId == w.db.lastId + 1
            && v.pollers[e.fw].open == open[key := TrackedOf(w.db.lastId + 1, e.flow, e.now)])
  {
    if SessionKey(e.flow) in w.pollers[e.fw].open { ContinueOpen(env, w, e); }
  }

  lemma ContinueFlowOpen(env: Env, fw: string, st: PollState, f: Flow, key: string, now: int, calls: nat)
    requires key in st.open
    ensures var v := ContinueFlow(env, fw, st, f, key, now, calls); var t := st.open[key];
      && v.db.lastId == st.db.lastId
      && v.open == if calls >= 3 || (calls == 2 && LogEvent(t, f, now) == None) then st.open[key := NextTracked(t, f, now)] else st.open
  {
    var t := st.open[key];
    var u, b, delta, scope := RefreshOf(f, now), BucketOf(fw, f), Delta(t.Bytes(), f.Bytes()), ScopeOf(env, f);
    var log, next := LogRow(fw, t, f, now), NextTracked(t, f, now);
    ExtendOpen(st, key, t.id, u, b, f.originDst, now, delta, scope, log, next, calls);
  }

  lemma ExtendOpen(st: PollState, key: string, id: int, u: Refresh, b: Bucket, ip: string, now: int, delta: int,
                   scope: Scope, log: Option<Sample>, next: Tracked, calls: nat)
    ensures var v := Extend(st, key, id, u, b, ip, now, delta, scope, log, next, calls);
      && v.db.lastId == st.db.lastId
      && v.open == if calls >= 3 || (calls == 2 && log == None) then st.open[key := next] else st.open
  {
  }

  lemma ContinueOpen(env: Env, w: World, e: Event)
    requires Enabled(w, e) && e.Observe? && SessionKey(e.flow) in w.pollers[e.fw].open
    ensures var v := Step(env, w, e); var open, key := w.pollers[e.fw].open, SessionKey(e.flow);
      && v.pollers == w.pollers[e.fw := v.pollers[e.fw]] && v.db.lastId == w.db.lastId
      && v.pollers[e.fw].open == if TakenOver(w, e) then open[key := NextTracked(open[key], e.flow, e.now)] else open
  {
    ContinueFlowOpen(env, e.fw, View(w, e.fw), e.flow, SessionKey(e.flow), e.now, e.calls);
  }

  /** The map entry of the reading taken over. */
  function Taken(w: World, e: Event): Tracked
    requires e.Observe? && e.fw in w.pollers
  {
    var open, key := w.pollers[e.fw].open, SessionKey(e.flow);
    if key in open then NextTracked(open[key], e.flow, e.now) else TrackedOf(w.db.lastId + 1, e.flow, e.now)
  }

  lemma BookReadings(w: World, e: Event, l: Ledger)
    requires Enabled(w, e) && e.Observe?
    ensures var t := Taken(w, e);
      Book(w, e, e.fw, l).readings == if TakenOver(w, e) then l.readings[t.id := t.Bytes()] else l.readings
  {
  }

  lemma TakenIsNew(w: World, e: Event)
    requires e.Observe? && e.fw in w.pollers && IdsBelow(w.db) && TracksOpen(w.db, e.fw, w.pollers[e.fw].open)
    ensures forall k :: k in w.pollers[e.fw].open && k != SessionKey(e.flow) ==> w.pollers[e.fw].open[k].id != Taken(w, e).id
    ensures SessionKey(e.flow) in w.pollers[e.fw].open ==> Taken(w, e).id <= w.db.lastId
  {
    var open, key := w.pollers[e.fw].open, SessionKey(e.flow);
    assert key in open ==> Tracks(w.db, e.fw, key, open[key].id);
    forall k | k in open && k != key ensures open[k].id != Taken(w, e).id {
      assert Tracks(w.db, e.fw, k, open[k].id);
    }
  }

  /** The map and the last id after one observation. */
  lemma TakenOpen(env: Env, w: World, e: Event)
    requires Enabled(w, e) && e.Observe?
    ensures var v := Step(env, w, e); var open, key := w.pollers[e.fw].open, SessionKey(e.flow);
      && e.fw in v.pollers && w.db.lastId <= v.db.lastId
      && (TakenOver(w, e) && key !in open ==> v.db.lastId == w.db.lastId + 1)
      && v.pollers[e.fw].open == if TakenOver(w, e) then open[key := Taken(w, e)] else open
  {
    ObserveOpen(env, w, e);
  }

  lemma ObserveMatched(env: Env, w: World, e: Event, l: Ledger)
    requires Sound(env, w) && Enabled(w, e) && e.Observe? && Matched(w, e.fw, l)
    ensures Matched(Step(env, w, e), e.fw, Book(w, e, e.fw, l))
  {
    TakenOpen(env, w, e);
    BookReadings(w, e, l);
    TakenIsNew(w, e);
    MatchedAfter(w, Step(env, w, e), e, l, Book(w, e, e.fw, l), Taken(w, e));
  }

  lemma MatchedAfter(w: World, v: World, e: Event, l: Ledger, m: Ledger, t: Tracked)
    requires e.Observe? && e.fw in w.pollers && e.fw in v.pollers && Matched(w, e.fw, l) && w.db.lastId <= v.db.lastId
    requires v.pollers[e.fw].open == (if TakenOver(w, e) then w.pollers[e.fw].open[SessionKey(e.flow) := t] else w.pollers[e.fw].open)
    requires m.readings == (if TakenOver(w, e) then l.readings[t.id := t.Bytes()] else l.readings)
    requires TakenOver(w, e) ==> t.id <= v.db.lastId
    requires forall k :: k in w.pollers[e.fw].open && k != SessionKey(e.flow) ==> w.pollers[e.fw].open[k].id != t.id
    ensures Matched(v, e.fw, m)
  {
    if TakenOver(w, e) {
      PutCarries(w.pollers[e.fw].open, l.readings, w.db.lastId, v.db.lastId, SessionKey(e.flow), t);
    }
  }

  lemma FoundCarries(db: Db, fw: string, now: int, readings: map<int, int>)
    requires IdsBelow(db) && forall id :: id in readings ==> id <= db.lastId
    ensures Carries(LoadOpen(db, fw, now), readings + Found(db, fw, now), db.lastId)
  {
    var open, found := LoadOpen(db, fw, now), Found(db, fw, now);
    LoadTracksOpen(db, fw, now);
    forall k | k in open ensures open[k].id in found && found[open[k].id] == open[k].Bytes() {
      assert Tracks(db, fw, k, open[k].id);
    }
  }

  lemma LoadMatched(env: Env, w: World, e: Event, l: Ledger)
    requires Sound(env, w) && Enabled(w, e) && e.Load? && Matched(w, e.fw, l)
    ensures Matched(Step(env, w, e), e.fw, Book(w, e, e.fw, l))
  {
    if e.ok { FoundCarries(w.db, e.fw, e.now, l.readings); }
  }

  /** What an event of another kind or of another firewall leaves alone. */
  ghost predicate Kept(w: World, v: World, fw: string) {
    && w.db.lastId <= v.db.lastId && (fw in v.pollers ==> fw in w.pollers)
    && (fw in v.pollers ==> forall k :: k in v.pollers[fw].open ==>
          k in w.pollers[fw].open && v.pollers[fw].open[k] == w.pollers[fw].open[k])
    && SumBy(v.db.usage, BytesIn(OfFirewall(fw))) == SumBy(w.db.usage, BytesIn(OfFirewall(fw)))
  }

  lemma OtherObserveKeeps(env: Env, w: World, e: Event, fw: string)
    requires Enabled(w, e) && e.Observe? && e.fw != fw
    ensures Kept(w, Step(env, w, e), fw)
  {
    ObserveBytes(env, w, e, OfFirewall(fw));
    ObserveOpen(env, w, e);
  }

  lemma PruneKeeps(env: Env, w: World, e: Event, fw: string)
    requires Enabled(w, e) && !e.ByPoller()
    ensures Kept(w, Step(env, w, e), fw)
  {
    assert Step(env, w, e).db.usage == w.db.usage && Step(env, w, e).pollers == w.pollers;
  }

  lemma OthersKeep(env: Env, w: World, e: Event, fw: string)
    requires Enabled(w, e) && (!e.ByPoller() || e.fw != fw || e.Close?)
    ensures Kept(w, Step(env, w, e), fw)
  {
    if !e.ByPoller() { PruneKeeps(env, w, e, fw); }
    else if e.Observe? { OtherObserveKeeps(env, w, e, fw); }
    else { assert Step(env, w, e).db.usage == w.db.usage; }
  }

  /** Byte conservation with failing calls, for every run: the bytes of a firewall's buckets are the readings last taken
      over from every session it ever had, plus what counters lost on the way, plus the growth counted twice because the
      sample call failed after the bucket call, minus what was never counted because the bucket call failed before a
      restart. */
  lemma {:induction false} BytesWithFailures(env: Env, events: seq<Event>, fw: string)
    requires FirstBatch(env.scan)
    ensures Adds(Run(env, START, events), fw, Books(env, events, fw))
    ensures Matched(Run(env, START, events), fw, Books(env, events, fw))
  {
    if events != [] {
      var n := |events| - 1;
      BytesWithFailures(env, events[..n], fw);
      AlwaysSound(env, events[..n]);
      StepAdds(env, Run(env, START, events[..n]), events[n], fw, Books(env, events[..n], fw));
    }
  }

  lemma StepAdds(env: Env, w: World, e: Event, fw: string, l: Ledger)
    requires Sound(env, w) && Adds(w, fw, l) && Matched(w, fw, l)
    ensures var m := Book(w, e, fw, l); Adds(Step(env, w, e), fw, m) && Matched(Step(env, w, e), fw, m)
  {
    if Enabled(w, e) {
      if !e.ByPoller() || e.fw != fw || e.Close? {
        OthersKeep(env, w, e, fw);
      } else if e.Load? {
        LoadMatched(env, w, e, l);
      } else {
        ObserveAdds(env, w, e, l);
        ObserveMatched(env, w, e, l);
      }
    }
  }

  // ----- Clean runs ------------------------------------------------------------------

  /** In a clean run a restart finds in the rows exactly the readings it had. */
  lemma FoundKnown(env: Env, w: World, e: Event, l: Ledger)
    requires Sound(env, w) && Cached(w) && e.Load? && Enabled(w, e) && Matched(w, e.fw, l)
    ensures l.readings + Found(w.db, e.fw, e.now) == l.readings
  {
    var open, found := LoadOpen(w.db, e.fw, e.now), Found(w.db, e.fw, e.now);
    LoadTracksOpen(w.db, e.fw, e.now);
    forall id | id in found ensures id in l.readings && l.readings[id] == found[id] {
      var k :| k in open && open[k].id == id;
      assert Tracks(w.db, e.fw, k, id);
      assert CoveredRow(w.pollers, w.db.sessions[id], id);
      assert CacheEntry(w.db, e.fw, k, w.pollers[e.fw].open[k]);
    }
  }

  lemma CleanStep(env: Env, w: World, e: Event, fw: string, l: Ledger)
    requires Sound(env, w) && Cached(w) && Matched(w, fw, l) && e.Clean()
    ensures var m := Book(w, e, fw, l); m.excess == l.excess && m.missed == l.missed
  {
    if Enabled(w, e) && e.Load? && e.fw == fw { FoundKnown(env, w, e, l); }
  }

  /** When no call of a poller fails, neither happens. */
  lemma {:induction false} CleanBooks(env: Env, events: seq<Event>, fw: string)
    requires FirstBatch(env.scan) && Clean(events)
    ensures Books(env, events, fw).excess == 0 && Books(env, events, fw).missed == 0
  {
    if events != [] {
      var n := |events| - 1;
      CleanBooks(env, events[..n], fw);
      BytesWithFailures(env, events[..n], fw);
      StartFaithful(env);
      RunFaithful(env, START, events[..n]);
      CleanStep(env, Run(env, START, events[..n]), events[n], fw, Books(env, events[..n], fw));
    }
  }

  // ----- When growth is counted twice ------------------------------------------------

  /** A refresh that found the counter grown and got as far as the bucket, but not as far as the sample it owed. */
  predicate CountsTwice(w: World, e: Event, fw: string) {
    && Enabled(w, e) && e.Observe? && e.fw == fw && e.calls == 2
    && var open, key := w.pollers[fw].open, SessionKey(e.flow);
       key in open && LogEvent(open[key], e.flow, e.now).Some? && open[key].Bytes() < e.flow.Bytes()
  }

  lemma BookExcess(w: World, e: Event, fw: string, l: Ledger)
    ensures l.excess <= Book(w, e, fw, l).excess
    ensures Book(w, e, fw, l).excess == l.excess <==> !CountsTwice(w, e, fw)
  {
  }

  ghost predicate TwiceAt(env: Env, events: seq<Event>, fw: string, i: nat)
    requires i < |events|
  {
    CountsTwice(Run(env, START, events[..i]), events[i], fw)
  }

  ghost predicate NeverTwice(env: Env, events: seq<Event>, fw: string) {
    forall i: nat :: i < |events| ==> !TwiceAt(env, events, fw, i)
  }

  lemma TwiceAtPrefix(env: Env, events: seq<Event>, fw: string, n: nat, i: nat)
    requires i < n <= |events|
    ensures TwiceAt(env, events[..n], fw, i) == TwiceAt(env, events, fw, i)
  {
    assert events[..n][..i] == events[..i];
  }

  lemma NeverTwiceSnoc(env: Env, events: seq<Event>, fw: string)
    requires events != []
    ensures var n := |events| - 1;
      NeverTwice(env, events, fw) <==> NeverTwice(env, events[..n], fw) && !TwiceAt(env, events, fw, n)
  {
    var n := |events| - 1;
    forall i: nat | i < n ensures TwiceAt(env, events[..n], fw, i) == TwiceAt(env, events, fw, i) {
      TwiceAtPrefix(env, events, fw, n, i);
    }
  }

  /** Nothing is counted twice exactly when no refresh of the run was of that kind. */
  lemma {:induction false} ExcessIff(env: Env, events: seq<Event>, fw: string)
    ensures Books(env, events, fw).excess == 0 <==> NeverTwice(env, events, fw)
  {
    if events != [] {
      var n := |events| - 1;
      ExcessIff(env, events[..n], fw);
      BookExcess(Run(env, START, events[..n]), events[n], fw, Books(env, events[..n], fw));
      NeverTwiceSnoc(env, events, fw);
    }
  }
}
