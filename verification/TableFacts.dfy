// How the row-level functions on flow_samples interact.

module TableFacts {
  import opened Base
  import opened Tables
  import opened Sums

  /** A row a prune to this cutoff has to leave: open, or closed at the cutoff or later. */
  predicate Safe(s: Session, cut: int) {
    s.closedAt == None || s.closedAt.value >= cut
  }

  /** A row that is there and that such a prune has to delete. */
  predicate Overdue(db: Db, id: int, cut: int) {
    id in db.sessions && !Safe(db.sessions[id], cut)
  }

  /** How many samples belong to the given sessions. */
  function CountIn(samples: seq<Sample>, ids: set<int>): nat {
    if samples == [] then 0
    else CountIn(samples[..|samples| - 1], ids) + (if samples[|samples| - 1].sessionId in ids then 1 else 0)
  }

  lemma SamplesOfAppend(samples: seq<Sample>, s: Sample, id: int)
    ensures SamplesOf(samples + [s], id) == SamplesOf(samples, id) + (if s.sessionId == id then [s] else [])
  {
    assert (samples + [s])[..|samples|] == samples;
  }

  lemma CountInAppend(samples: seq<Sample>, s: Sample, ids: set<int>)
    ensures CountIn(samples + [s], ids) == CountIn(samples, ids) + (if s.sessionId in ids then 1 else 0)
  {
    assert (samples + [s])[..|samples|] == samples;
  }

  lemma {:induction false} CountInExtra(samples: seq<Sample>, extra: seq<Sample>, ids: set<int>)
    requires forall s :: s in extra ==> s.sessionId !in ids
    ensures CountIn(samples + extra, ids) == CountIn(samples, ids)
    decreases |extra|
  {
    if extra == [] {
      assert samples + extra == samples;
    } else {
      var init, last := extra[..|extra| - 1], extra[|extra| - 1];
      assert extra == init + [last];
      assert samples + extra == (samples + init) + [last];
      assert last in extra;
      CountInAppend(samples + init, last, ids);
      CountInExtra(samples, init, ids);
    }
  }

  lemma {:induction false} DropMembers(samples: seq<Sample>, ids: set<int>)
    ensures forall s :: s in DropSamples(samples, ids) <==> s in samples && s.sessionId !in ids
  {
    if samples != [] {
      var init := samples[..|samples| - 1];
      assert samples == init + [samples[|samples| - 1]];
      DropMembers(init, ids);
    }
  }

  /** Deleting the samples of some sessions removes exactly theirs. */
  lemma {:induction false} SamplesOfDrop(samples: seq<Sample>, ids: set<int>, id: int)
    ensures SamplesOf(DropSamples(samples, ids), id) == if id in ids then [] else SamplesOf(samples, id)
  {
    if samples != [] {
      var init, last := samples[..|samples| - 1], samples[|samples| - 1];
      SamplesOfDrop(init, ids, id);
      if last.sessionId !in ids {
        SamplesOfAppend(DropSamples(init, ids), last, id);
      }
    }
  }

  /** The deleted and the remaining samples of a larger set of sessions add up. */
  lemma {:induction false} CountDrop(samples: seq<Sample>, batch: set<int>, ids: set<int>)
    requires batch <= ids
    ensures CountIn(DropSamples(samples, batch), ids) + CountIn(samples, batch) == CountIn(samples, ids)
    ensures |DropSamples(samples, batch)| == |samples| - CountIn(samples, batch)
  {
    if samples != [] {
      var init, last := samples[..|samples| - 1], samples[|samples| - 1];
      CountDrop(init, batch, ids);
      if last.sessionId !in batch {
        CountInAppend(DropSamples(init, batch), last, ids);
      }
    }
  }

  lemma {:induction false} CountNone(samples: seq<Sample>, ids: set<int>)
    ensures CountIn(samples, ids) == 0 <==> !References(samples, ids)
  {
    if samples != [] {
      var init, last := samples[..|samples| - 1], samples[|samples| - 1];
      CountNone(init, ids);
      if References(init, ids) {
        var i :| 0 <= i < |init| && init[i].sessionId in ids;
        assert samples[i].sessionId in ids;
      } else {
        assert last == samples[|samples| - 1];
        assert forall i :: 0 <= i < |init| ==> init[i] == samples[i];
      }
    }
  }

  /** A set of sessions without samples may leave the set or join it without changing the count. */
  lemma {:induction false} CountMinus(samples: seq<Sample>, batch: set<int>, ids: set<int>)
    requires batch <= ids && !References(samples, batch)
    ensures CountIn(samples, ids - batch) == CountIn(samples, ids)
  {
    if samples != [] {
      var init := samples[..|samples| - 1];
      assert samples[|samples| - 1].sessionId !in batch;
      assert forall i :: 0 <= i < |init| ==> init[i] == samples[i];
      CountMinus(init, batch, ids);
    }
  }

  lemma {:induction false} SamplesOfNone(samples: seq<Sample>, id: int)
    ensures SamplesOf(samples, id) == [] <==> !References(samples, {id})
    ensures forall s :: s in SamplesOf(samples, id) ==> s in samples && s.sessionId == id
  {
    if samples != [] {
      var init, last := samples[..|samples| - 1], samples[|samples| - 1];
      assert samples == init + [last];
      SamplesOfNone(init, id);
      if References(init, {id}) {
        var i :| 0 <= i < |init| && init[i].sessionId in {id};
        assert samples[i].sessionId in {id};
      } else {
        assert last == samples[|samples| - 1];
        assert forall i :: 0 <= i < |init| ==> init[i] == samples[i];
      }
    }
  }

  /** Some ids of a set, n of them or all. */
  ghost function AnyOf(s: set<int>, n: nat): (r: set<int>)
    ensures r <= s && |r| == Min(|s|, n)
  {
    if n == 0 || s == {} then {}
    else
      var x := Pick(s);
      assert |s - {x}| == |s| - 1;
      AnyOf(s - {x}, n - 1) + {x}
  }

  /** A scan of the kind the prune relies on exists. */
  lemma FirstBatchExists() returns (scan: Scan)
    ensures FirstBatch(scan)
  {
    scan := (e: set<int>) => AnyOf(e, BATCH);
  }
}
