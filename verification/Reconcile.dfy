// Keeping one poller per configured firewall while the configuration changes.

module Reconcile {

  datatype Firewall = Firewall(
    id: string, name: string, host: string, port: int, user: string, password: string, pollIntervalSeconds: int)
  {
    function PollInterval(): (n: int)
      ensures n > 0 && (pollIntervalSeconds > 0 ==> n == pollIntervalSeconds)
      ensures pollIntervalSeconds <= 0 ==> n == 30
    {
      if pollIntervalSeconds <= 0 then 30 else pollIntervalSeconds
    }
  }

  predicate ConnectionChanged(was: Firewall, next: Firewall) {
    was.host != next.host || was.port != next.port || was.user != next.user || was.password != next.password
    || was.PollInterval() != next.PollInterval()
  }

  /** A poller at work: what it was started for, and a serial number that tells its client from every other. */
  datatype Running = Running(fw: Firewall, serial: nat)

  datatype State = State(running: map<string, Running>, next: nat, stopped: set<nat>)

  /** Every poller is filed under its own firewall, with a client of its own that nobody has stopped. */
  ghost predicate Valid(s: State) {
    && (forall id :: id in s.running ==> s.running[id].fw.id == id && s.running[id].serial < s.next
                                         && s.running[id].serial !in s.stopped)
    && (forall i, j :: i in s.running && j in s.running && i != j ==> s.running[i].serial != s.running[j].serial)
    && (forall n :: n in s.stopped ==> n < s.next)
  }

  /** The list as a table: the last entry with an id wins. */
  function Wanted(firewalls: seq<Firewall>): (want: map<string, Firewall>)
    ensures forall id :: id in want ==> want[id].id == id
  {
    if firewalls == [] then map[]
    else
      var last := firewalls[|firewalls| - 1];
      Wanted(firewalls[..|firewalls| - 1])[last.id := last]
  }

  predicate Kept(running: map<string, Running>, want: map<string, Firewall>, id: string) {
    id in running && id in want && !ConnectionChanged(running[id].fw, want[id])
  }

  /** The ids a reload has to start: listed, not kept, and registered without an error. */
  ghost function Due(s: State, want: map<string, Firewall>, broken: set<string>): set<string> {
    set id | id in want && !Kept(s.running, want, id) && id !in broken
  }

  ghost function Dropped(s: State, want: map<string, Firewall>): set<nat> {
    set id | id in s.running && !Kept(s.running, want, id) :: s.running[id].serial
  }

  /** What a reload does: kept pollers are untouched, the others are stopped, and exactly the due ones are started anew. */
  ghost predicate Reloaded(s: State, want: map<string, Firewall>, broken: set<string>, t: State) {
    && Valid(t)
    && (forall id :: id in t.running <==> Kept(s.running, want, id) || id in Due(s, want, broken))
    && (forall id :: Kept(s.running, want, id) ==> id in t.running && t.running[id] == s.running[id])
    && (forall id :: id in Due(s, want, broken) ==>
                       id in t.running && t.running[id].fw == want[id] && s.next <= t.running[id].serial)
    && t.stopped == s.stopped + Dropped(s, want)
    && t.next == s.next + |Due(s, want, broken)|
  }

  class Manager {
    var running: map<string, Running>
    var next: nat
    ghost var stopped: set<nat>

    ghost function Now(): State
      reads this
    {
      State(running, next, stopped)
    }

    constructor ()
      ensures Now() == State(map[], 0, {}) && Valid(Now())
    {
      running := map[];
      next := 0;
      stopped := {};
    }

    /** broken holds the firewalls whose registration in the store fails. */
    method Reload(firewalls: seq<Firewall>, broken: set<string>)
      requires Valid(Now())
      modifies this
      ensures Reloaded(old(Now()), Wanted(firewalls), broken, Now())
    {
      var want := MakeWanted(firewalls);
      ghost var s := Now();
      StopUnwanted(want);
      StartMissing(want, broken);
      ReloadSplits(s, State(map id | id in s.running && Kept(s.running, want, id) :: s.running[id], s.next,
                            s.stopped + Dropped(s, want)), want, broken, Now());
    }

    method MakeWanted(firewalls: seq<Firewall>) returns (want: map<string, Firewall>)
      ensures want == Wanted(firewalls)
    {
      want := map[];
      for i := 0 to |firewalls|
        invariant want == Wanted(firewalls[..i])
      {
        assert firewalls[..i + 1][..i] == firewalls[..i];
        want := want[firewalls[i].id := firewalls[i]];
      }
      assert firewalls[..|firewalls|] == firewalls;
    }

    method StopUnwanted(want: map<string, Firewall>)
      requires Valid(Now())
      modifies this
      ensures Valid(Now()) && next == old(next)
      ensures running == map id | id in old(running) && Kept(old(running), want, id) :: old(running)[id]
      ensures stopped == old(stopped) + Dropped(old(Now()), want)
    {
      ghost var s := Now();
      var todo := running.Keys;
      while todo != {}
        invariant Valid(Now()) && Purged(s, want, todo, Now())
        decreases |todo|
      {
        var id :| id in todo;
        ghost var t := Now();
        if id !in want {
          StopLocked(id);
          PurgedStop(s, want, todo, t, id);
        } else if ConnectionChanged(running[id].fw, want[id]) {
          StopLocked(id);
          PurgedStop(s, want, todo, t, id);
        } else {
          PurgedKeep(s, want, todo, t, id);
        }
        todo := todo - {id};
      }
      PurgedAll(s, want, Now());
    }

    method StartMissing(want: map<string, Firewall>, broken: set<string>)
      requires Valid(Now())
      requires forall id :: id in want ==> want[id].id == id
      modifies this
      ensures Valid(Now()) && stopped == old(stopped)
      ensures Started(old(Now()), want, {}, broken, Now())
    {
      ghost var s := Now();
      var todo := want.Keys;
      while todo != {}
        invariant todo <= want.Keys && Valid(Now()) && stopped == s.stopped
        invariant Started(s, want, todo, broken, Now())
        decreases |todo|
      {
        var id :| id in todo;
        StartIfMissing(want, id, broken, s, todo);
        todo := todo - {id};
      }
    }

    method StartIfMissing(want: map<string, Firewall>, id: string, broken: set<string>, ghost s: State, ghost todo: set<string>)
      requires Valid(Now()) && Started(s, want, todo, broken, Now())
      requires id in want && want[id].id == id
      modifies this
      ensures Valid(Now()) && stopped == old(stopped) && Started(s, want, todo - {id}, broken, Now())
    {
      ghost var t := Now();
      if id !in running {
        StartLocked(want[id], id !in broken);
        if id !in broken {
          StartedOne(s, want, todo, broken, t, id);
        } else {
          StartedSkip(s, want, todo, broken, t, id);
        }
      } else {
        StartedSkip(s, want, todo, broken, t, id);
      }
    }

    /** ok says whether the store registered the firewall; without that nothing starts. */
    method StartLocked(fw: Firewall, ok: bool)
      requires Valid(Now()) && fw.id !in running
      modifies this
      ensures Valid(Now()) && stopped == old(stopped)
      ensures ok ==> running == old(running)[fw.id := Running(fw, old(next))] && next == old(next) + 1
      ensures !ok ==> running == old(running) && next == old(next)
    {
      if !ok {
        return;
      }
      running := running[fw.id := Running(fw, next)];
      next := next + 1;
    }

    method StopLocked(id: string)
      requires Valid(Now())
      modifies this
      ensures Valid(Now()) && next == old(next) && running == old(running) - {id}
      ensures stopped == old(stopped) + if id in old(running) then {old(running)[id].serial} else {}
    {
      if id !in running {
        return;
      }
      stopped := stopped + {running[id].serial};
      running := running - {id};
    }

    method StopAll()
      requires Valid(Now())
      modifies this
      ensures Valid(Now()) && running == map[] && next == old(next)
      ensures forall id :: id in old(running) ==> old(running)[id].serial in stopped
    {
      ghost var s := Now();
      var todo := running.Keys;
      while todo != {}
        invariant todo == running.Keys && Valid(Now()) && next == s.next
        invariant forall id :: id in running ==> id in s.running && running[id] == s.running[id]
        invariant forall id :: id in s.running && id !in running ==> s.running[id].serial in stopped
        decreases |todo|
      {
        var id :| id in todo;
        todo := todo - {id};
        StopLocked(id);
      }
    }

    /** Every poller is replaced by a new one for the same firewall; those that cannot be registered again are lost. */
    method RestartAll(broken: set<string>)
      requires Valid(Now())
      modifies this
      ensures Valid(Now()) && running.Keys == old(running).Keys - broken
      ensures forall id :: id in running ==>
        id in old(running) && running[id].fw == old(running)[id].fw && old(next) <= running[id].serial
      ensures forall id :: id in old(running) ==> old(running)[id].serial in stopped
      ensures next == old(next) + |running|
    {
      ghost var s := Now();
      var fws := map id | id in running :: running[id].fw;
      StopAll();
      StartMissing(fws, broken);
      assert running.Keys == s.running.Keys - broken;
    }
  }

  /** Partway through stopping: the ids in todo have not been looked at. */
  ghost predicate Purged(s: State, want: map<string, Firewall>, todo: set<string>, t: State) {
    && t.next == s.next
    && (forall id :: id in todo ==> id in t.running)
    && (forall id :: id in t.running ==> id in s.running && t.running[id] == s.running[id])
    && (forall id :: id in s.running && id !in todo ==> (id in t.running <==> Kept(s.running, want, id)))
    && t.stopped == s.stopped + set id | id in s.running && id !in t.running :: s.running[id].serial
  }

  lemma PurgedStop(s: State, want: map<string, Firewall>, todo: set<string>, t: State, id: string)
    requires Purged(s, want, todo, t) && id in todo && !Kept(s.running, want, id)
    ensures Purged(s, want, todo - {id}, State(t.running - {id}, t.next, t.stopped + {t.running[id].serial}))
  {
    var u := t.running - {id};
    var a := set i | i in s.running && i !in t.running :: s.running[i].serial;
    var b := set i | i in s.running && i !in u :: s.running[i].serial;
    forall n ensures n in b <==> n in a || n == s.running[id].serial {
      if n in b {
        var i :| i in s.running && i !in u && s.running[i].serial == n;
        assert i == id || i !in t.running;
      }
      if n in a {
        var i :| i in s.running && i !in t.running && s.running[i].serial == n;
        assert i !in u;
      }
      if n == s.running[id].serial { assert id !in u; }
    }
    assert b == a + {s.running[id].serial};
  }

  lemma PurgedKeep(s: State, want: map<string, Firewall>, todo: set<string>, t: State, id: string)
    requires Purged(s, want, todo, t) && id in todo && Kept(s.running, want, id)
    ensures Purged(s, want, todo - {id}, t)
  {
  }

  lemma PurgedAll(s: State, want: map<string, Firewall>, t: State)
    requires Purged(s, want, {}, t)
    ensures t.running == map id | id in s.running && Kept(s.running, want, id) :: s.running[id]
    ensures t.stopped == s.stopped + Dropped(s, want)
  {
    forall id ensures (id in s.running && id !in t.running) <==> (id in s.running && !Kept(s.running, want, id)) {
    }
    assert Dropped(s, want) == set id | id in s.running && id !in t.running :: s.running[id].serial;
  }

  /** Partway through starting: the ids in todo have not been looked at, each poller started has its own serial number. */
  ghost predicate Started(s: State, want: map<string, Firewall>, todo: set<string>, broken: set<string>, t: State) {
    && StartedRows(s, want, todo, broken, t.running)
    && s.next <= t.next && t.next - s.next == |t.running| - |s.running|
  }

  ghost predicate StartedRows(s: State, want: map<string, Firewall>, todo: set<string>, broken: set<string>,
                              running: map<string, Running>) {
    && (forall id :: id in s.running ==> id in running && running[id] == s.running[id])
    && (forall id :: id in running <==> id in s.running || (id in want && id !in todo && id !in broken))
    && (forall id :: id in running && id !in s.running ==> running[id].fw == want[id] && s.next <= running[id].serial)
  }

  lemma StartedOne(s: State, want: map<string, Firewall>, todo: set<string>, broken: set<string>, t: State, id: string)
    requires Started(s, want, todo, broken, t)
    requires id in want && id !in broken && id !in t.running
    ensures Started(s, want, todo - {id}, broken, State(t.running[id := Running(want[id], t.next)], t.next + 1, t.stopped))
  {
    var u := t.running[id := Running(want[id], t.next)];
    assert |u| == |t.running| + 1 by { assert u.Keys == t.running.Keys + {id}; }
    StartedOneRow(s, want, todo, broken, t, id);
  }

  lemma StartedOneRow(s: State, want: map<string, Firewall>, todo: set<string>, broken: set<string>, t: State, id: string)
    requires StartedRows(s, want, todo, broken, t.running)
    requires id in want && id !in broken && id !in t.running && s.next <= t.next
    ensures StartedRows(s, want, todo - {id}, broken, t.running[id := Running(want[id], t.next)])
  {
  }

  lemma StartedSkip(s: State, want: map<string, Firewall>, todo: set<string>, broken: set<string>, t: State, id: string)
    requires Started(s, want, todo, broken, t)
    requires id in want && (id in t.running || id in broken)
    ensures Started(s, want, todo - {id}, broken, t)
  {
  }

  lemma ReloadSplits(s: State, m: State, want: map<string, Firewall>, broken: set<string>, t: State)
    requires m.running == map id | id in s.running && Kept(s.running, want, id) :: s.running[id]
    requires m.next == s.next && m.stopped == s.stopped + Dropped(s, want) && t.stopped == m.stopped
    requires Started(m, want, {}, broken, t) && Valid(t)
    ensures Reloaded(s, want, broken, t)
  {
    SplitCount(m.running.Keys, Due(s, want, broken), t.running.Keys);
  }

  lemma SplitCount(a: set<string>, b: set<string>, c: set<string>)
    requires forall id :: id in c <==> id in a || id in b
    requires forall id :: id in a ==> id !in b
    ensures |c| == |a| + |b|
  {
    assert c == a + b;
  }

  // ----- What a reload achieves ------------------------------------------------------

  ghost predicate NoDuplicates(firewalls: seq<Firewall>) {
    forall i, j :: 0 <= i < j < |firewalls| ==> firewalls[i].id != firewalls[j].id
  }

  lemma {:induction false} WantedLists(firewalls: seq<Firewall>, id: string)
    ensures id in Wanted(firewalls) <==> exists i :: 0 <= i < |firewalls| && firewalls[i].id == id
    ensures id in Wanted(firewalls) ==> exists i :: 0 <= i < |firewalls| && firewalls[i] == Wanted(firewalls)[id]
  {
    if firewalls != [] {
      var n := |firewalls| - 1;
      var init := firewalls[..n];
      WantedLists(init, id);
      assert firewalls[n].id == id || forall i :: 0 <= i < |firewalls| && firewalls[i].id == id ==> init[i].id == id;
      if id in Wanted(init) {
        var i :| 0 <= i < n && init[i] == Wanted(init)[id];
        assert firewalls[i] == init[i];
      }
    }
  }

  /** A poller for the one connects as the other says: same host, port, user, password and interval. */
  predicate Connects(a: Firewall, b: Firewall) {
    && a.host == b.host && a.port == b.port && a.user == b.user && a.password == b.password
    && (if a.pollIntervalSeconds <= 0 then 30 else a.pollIntervalSeconds)
       == (if b.pollIntervalSeconds <= 0 then 30 else b.pollIntervalSeconds)
  }

  /** However it was before, a reload in which every registration succeeds leaves exactly the listed firewalls polled,
      agreeing with a list without duplicates on host, port, user, password and interval. */
  lemma ReloadExact(s: State, firewalls: seq<Firewall>, t: State)
    requires NoDuplicates(firewalls) && Reloaded(s, Wanted(firewalls), {}, t)
    ensures forall id :: id in t.running <==> exists i :: 0 <= i < |firewalls| && firewalls[i].id == id
    ensures forall i :: 0 <= i < |firewalls| ==>
      firewalls[i].id in t.running && Connects(t.running[firewalls[i].id].fw, firewalls[i])
  {
    var want := Wanted(firewalls);
    forall id ensures id in t.running <==> exists i :: 0 <= i < |firewalls| && firewalls[i].id == id {
      WantedLists(firewalls, id);
      assert id in t.running <==> id in want;
    }
    forall i | 0 <= i < |firewalls|
      ensures firewalls[i].id in t.running && Connects(t.running[firewalls[i].id].fw, firewalls[i])
    {
      var id := firewalls[i].id;
      WantedLists(firewalls, id);
      var j :| 0 <= j < |firewalls| && firewalls[j] == want[id];
      assert firewalls[j].id == id;
      assert Kept(s.running, want, id) || id in Due(s, want, {});
    }
  }

  /** A poller survives a reload as it was exactly when its firewall is still listed with the same connection; every other
      one has been stopped, and what runs in its place is new. */
  lemma RestartsExactlyTheChanged(s: State, want: map<string, Firewall>, broken: set<string>, t: State, id: string)
    requires Valid(s) && Reloaded(s, want, broken, t) && id in s.running
    ensures (id in t.running && t.running[id] == s.running[id]) <==> id in want && Connects(s.running[id].fw, want[id])
    ensures s.running[id].serial in t.stopped <==> !(id in want && Connects(s.running[id].fw, want[id]))
  {
  }

  /** Reloading the same list again stops nothing and starts only what could not be registered before; when nothing was
      left out it changes nothing at all. */
  lemma ReloadTwice(s: State, want: map<string, Firewall>, broken1: set<string>, t: State, broken2: set<string>, u: State)
    requires Reloaded(s, want, broken1, t) && Reloaded(t, want, broken2, u)
    ensures u.stopped == t.stopped
    ensures forall id :: id in t.running ==> id in u.running && u.running[id] == t.running[id]
    ensures u.running.Keys - t.running.Keys == (want.Keys - t.running.Keys) - broken2
    ensures want.Keys <= t.running.Keys ==> u == t
  {
    KeptAgain(s, want, broken1, t);
    ReloadKept(t, want, broken2, u);
  }

  lemma ReloadKept(t: State, want: map<string, Firewall>, broken: set<string>, u: State)
    requires Reloaded(t, want, broken, u)
    requires forall id :: id in t.running ==> Kept(t.running, want, id)
    ensures u.stopped == t.stopped
    ensures forall id :: id in t.running ==> id in u.running && u.running[id] == t.running[id]
    ensures u.running.Keys - t.running.Keys == (want.Keys - t.running.Keys) - broken
    ensures want.Keys <= t.running.Keys ==> u == t
  {
    assert Dropped(t, want) == {};
    if want.Keys <= t.running.Keys {
      assert Due(t, want, broken) == {};
      NothingToDo(t, want, broken, u);
    }
  }

  lemma NothingToDo(s: State, want: map<string, Firewall>, broken: set<string>, t: State)
    requires Reloaded(s, want, broken, t) && Due(s, want, broken) == {}
    requires forall id :: id in s.running ==> Kept(s.running, want, id)
    ensures t == s
  {
    assert Dropped(s, want) == {};
    SameMap(t.running, s.running);
  }

  lemma SameMap(a: map<string, Running>, b: map<string, Running>)
    requires forall id :: id in a <==> id in b
    requires forall id :: id in a && id in b ==> a[id] == b[id]
    ensures a == b
  {
    assert a.Keys == b.Keys;
  }

  lemma KeptAgain(s: State, want: map<string, Firewall>, broken: set<string>, t: State)
    requires Reloaded(s, want, broken, t)
    ensures forall id :: id in t.running ==> Kept(t.running, want, id)
  {
    forall id | id in t.running ensures Kept(t.running, want, id) {
      if id in Due(s, want, broken) {
        assert t.running[id].fw == want[id];
      } else {
        assert t.running[id] == s.running[id];
      }
    }
  }

  /** The name is not part of the connection, so after a reload a poller that was running and still is goes by the listed
      name exactly when it was restarted or had that name already. A kept poller is not registered again either, so the
      store goes on showing the old name. */
  lemma NameCurrentIff(s: State, want: map<string, Firewall>, broken: set<string>, t: State, id: string)
    requires Reloaded(s, want, broken, t) && id in s.running && id in t.running
    ensures id in want
    ensures t.running[id].fw.name == want[id].name
      <==> !Connects(s.running[id].fw, want[id]) || s.running[id].fw.name == want[id].name
  {
    if !Kept(s.running, want, id) {
      assert id in Due(s, want, broken);
    }
  }

  /** A list that differs from what runs in names alone restarts nothing: the pollers go on under their old names. */
  lemma RenameKeeps(s: State, want: map<string, Firewall>, broken: set<string>, t: State)
    requires Valid(s) && Reloaded(s, want, broken, t)
    requires s.running.Keys == want.Keys
    requires forall id :: id in s.running ==> s.running[id].fw == want[id].(name := s.running[id].fw.name)
    ensures t == s
  {
    forall id | id in s.running ensures Kept(s.running, want, id) {
      assert s.running[id].fw.PollInterval() == want[id].PollInterval();
    }
    assert Due(s, want, broken) == {};
    NothingToDo(s, want, broken, t);
  }
}
