// What the deletes of PruneOlderThan leave of the tables, batch by batch.

module Batches {
  import opened Base
  import opened Tables
  import opened TableFacts

  /** The tables with the samples of some sessions and the rows of some gone. */
  function Without(db: Db, noSamples: set<int>, noRows: set<int>): Db {
    DeleteSessions(DeleteSamples(db, noSamples), noRows)
  }

  /** The tables without some sessions and their samples, and how many of both that is ... */
  function AllGone(db: Db, done: set<int>): Prune {
    Prune(Without(db, done, done), |done|, CountIn(db.samples, done))
  }

  /** ... and between the two deletes of the next round. */
  function Between(db: Db, done: set<int>, batch: set<int>): Prune {
    Prune(Without(db, done + batch, done), |done|, CountIn(db.samples, done + batch))
  }

  /** The sessions of so many rounds: one batch each of what the ones before left. */
  function Gone(scan: Scan, eligible: set<int>, rounds: nat): set<int> {
    if rounds == 0 then {}
    else
      var done := Gone(scan, eligible, rounds - 1);
      done + scan(eligible - done)
  }

  /** What no prune to this cutoff may touch: open and younger sessions, their samples and the rollup. */
  ghost predicate Spared(db: Db, after: Db, cut: int) {
    && after.usage == db.usage && after.dst == db.dst && after.lastId == db.lastId
    && (forall id :: id in db.sessions && Safe(db.sessions[id], cut) ==>
          id in after.sessions && after.sessions[id] == db.sessions[id])
    && (forall s :: s in db.samples && !Overdue(db, s.sessionId, cut) ==> s in after.samples)
  }

  /** What a whole prune has done: every row closed before the cutoff is gone with its samples, every other row and sample
      is there, and both counts are exact. */
  ghost predicate Pruned(db: Db, after: Db, cut: int, rows: int, samples: int) {
    && after.sessions.Keys <= db.sessions.Keys
    && (forall id :: id in db.sessions ==> (id in after.sessions <==> Safe(db.sessions[id], cut)))
    && (forall s :: s in after.samples <==> s in db.samples && !Overdue(db, s.sessionId, cut))
    && rows == |db.sessions| - |after.sessions|
    && samples == |db.samples| - |after.samples|
  }

  lemma WithoutEligible(db: Db, noSamples: set<int>, noRows: set<int>, cut: int)
    ensures Eligible(Without(db, noSamples, noRows), cut) == Eligible(db, cut) - noRows
  {
  }

  lemma WithoutSpares(db: Db, noSamples: set<int>, noRows: set<int>, cut: int)
    requires noSamples <= Eligible(db, cut) && noRows <= Eligible(db, cut)
    ensures Spared(db, Without(db, noSamples, noRows), cut)
  {
    DropMembers(db.samples, noSamples);
    EligibleIff(db, cut);
  }

  lemma {:induction false} DropNothing(samples: seq<Sample>)
    ensures DropSamples(samples, {}) == samples && CountIn(samples, {}) == 0
  {
    if samples != [] { DropNothing(samples[..|samples| - 1]); }
  }

  /** Deleting for two disjoint sets one after the other deletes for their union. */
  lemma {:induction false} DropTwice(samples: seq<Sample>, a: set<int>, b: set<int>)
    requires a !! b
    ensures DropSamples(DropSamples(samples, a), b) == DropSamples(samples, a + b)
    ensures CountIn(samples, a) + CountIn(DropSamples(samples, a), b) == CountIn(samples, a + b)
  {
    if samples != [] {
      var init, last := samples[..|samples| - 1], samples[|samples| - 1];
      DropTwice(init, a, b);
      if last.sessionId !in a {
        var kept := DropSamples(init, a);
        assert (kept + [last])[..|kept|] == kept;
      }
    }
  }

  lemma BatchGone(eligible: set<int>, done: set<int>, batch: set<int>)
    requires done <= eligible && batch <= eligible - done
    ensures |done + batch| == |done| + |batch| && |eligible - done| == |eligible| - |done|
  {
    assert done + (eligible - done) == eligible;
  }

  lemma NextBatch(scan: Scan, eligible: set<int>, done: set<int>)
    requires FirstBatch(scan) && done <= eligible
    ensures var batch := scan(eligible - done);
      batch <= eligible - done && |batch| == Min(|eligible| - |done|, BATCH) && |done + batch| == |done| + |batch|
  {
    assert TakesFirst(scan, eligible - done);
    BatchGone(eligible, done, scan(eligible - done));
  }

  lemma {:induction false} GoneCount(scan: Scan, eligible: set<int>, rounds: nat)
    requires FirstBatch(scan)
    ensures Gone(scan, eligible, rounds) <= eligible
    ensures |Gone(scan, eligible, rounds)| == Min(BATCH * rounds, |eligible|)
  {
    if rounds > 0 {
      GoneCount(scan, eligible, rounds - 1);
      NextBatch(scan, eligible, Gone(scan, eligible, rounds - 1));
    }
  }

  lemma NextGone(scan: Scan, eligible: set<int>, rounds: nat)
    requires FirstBatch(scan)
    ensures var done := Gone(scan, eligible, rounds); var batch := scan(eligible - done);
      && done <= eligible && batch <= eligible - done && |done + batch| == |done| + |batch|
      && |batch| == Max(Min(|eligible| - BATCH * rounds, BATCH), 0)
  {
    GoneCount(scan, eligible, rounds);
    NextBatch(scan, eligible, Gone(scan, eligible, rounds));
  }

  lemma SamplesGone(scan: Scan, db: Db, cut: int, done: set<int>)
    requires var batch := scan(Eligible(db, cut) - done); done !! batch
    ensures FirstDelete(scan, AllGone(db, done), cut) == Between(db, done, scan(Eligible(db, cut) - done))
  {
    var batch := scan(Eligible(db, cut) - done);
    WithoutEligible(db, done, done, cut);
    DropTwice(db.samples, done, batch);
    CountDrop(DropSamples(db.samples, done), batch, batch);
  }

  lemma RowsGone(scan: Scan, db: Db, cut: int, done: set<int>)
    requires var batch := scan(Eligible(db, cut) - done); |done + batch| == |done| + |batch|
    ensures var batch := scan(Eligible(db, cut) - done);
      SecondDelete(scan, Between(db, done, batch), cut) == AllGone(db, done + batch)
  {
    WithoutEligible(db, done + scan(Eligible(db, cut) - done), done, cut);
  }

  /** The rounds remove one batch after the other, samples and rows. */
  lemma {:induction false} RoundsGone(scan: Scan, db: Db, cut: int, rounds: nat)
    requires FirstBatch(scan)
    ensures PruneAt(scan, db, cut, rounds, false) == AllGone(db, Gone(scan, Eligible(db, cut), rounds))
    decreases rounds, false
  {
    if rounds == 0 {
      DropNothing(db.samples);
    } else {
      var n, eligible := rounds - 1, Eligible(db, cut);
      var done := Gone(scan, eligible, n);
      var batch := scan(eligible - done);
      assert PruneAt(scan, db, cut, n, true) == Between(db, done, batch) by { HalfGone(scan, db, cut, n); }
      assert |done + batch| == |done| + |batch| by { NextGone(scan, eligible, n); }
      RowsGone(scan, db, cut, done);
    }
  }

  lemma {:induction false} HalfGone(scan: Scan, db: Db, cut: int, rounds: nat)
    requires FirstBatch(scan)
    ensures var done := Gone(scan, Eligible(db, cut), rounds);
      PruneAt(scan, db, cut, rounds, true) == Between(db, done, scan(Eligible(db, cut) - done))
    decreases rounds, true
  {
    RoundsGone(scan, db, cut, rounds);
    NextGone(scan, Eligible(db, cut), rounds);
    SamplesGone(scan, db, cut, Gone(scan, Eligible(db, cut), rounds));
  }

  /** A batch comes back short exactly in the last round. */
  lemma ShortBatch(scan: Scan, db: Db, cut: int, rounds: nat)
    requires FirstBatch(scan) && rounds < PruneRounds(db, cut)
    ensures |scan(Eligible(PruneAt(scan, db, cut, rounds, true).db, cut))| < BATCH <==> rounds + 1 == PruneRounds(db, cut)
  {
    var done := Gone(scan, Eligible(db, cut), rounds);
    HalfGone(scan, db, cut, rounds);
    NextGone(scan, Eligible(db, cut), rounds);
    WithoutEligible(db, done + scan(Eligible(db, cut) - done), done, cut);
  }

  /** However many deletes have succeeded, what is not eligible is as it was. */
  lemma PruneSpares(scan: Scan, db: Db, cut: int, rounds: nat, half: bool)
    requires FirstBatch(scan)
    ensures Spared(db, PruneAt(scan, db, cut, rounds, half).db, cut)
  {
    var eligible := Eligible(db, cut);
    var done := Gone(scan, eligible, rounds);
    NextGone(scan, eligible, rounds);
    if half { HalfGone(scan, db, cut, rounds); } else { RoundsGone(scan, db, cut, rounds); }
    WithoutSpares(db, if half then done + scan(eligible - done) else done, done, cut);
  }

  /** After the last delete everything eligible is gone, and counted. */
  lemma PruneWhole(scan: Scan, db: Db, cut: int)
    requires FirstBatch(scan)
    ensures var p := PruneAt(scan, db, cut, PruneRounds(db, cut), false);
      p == AllGone(db, Eligible(db, cut)) && Pruned(db, p.db, cut, p.sessions, p.samples)
  {
    GoneIsPruned(db, cut);
    var eligible, rounds := Eligible(db, cut), PruneRounds(db, cut);
    RoundsGone(scan, db, cut, rounds);
    GoneCount(scan, eligible, rounds);
    SameSize(Gone(scan, eligible, rounds), eligible);
  }

  /** Both in one: what is to stay stays at any point, and at the end what is to go is gone. */
  lemma PruneMeans(scan: Scan, db: Db, cut: int, rounds: nat, half: bool)
    requires FirstBatch(scan)
    ensures var p := PruneAt(scan, db, cut, rounds, half);
      && Spared(db, p.db, cut)
      && (rounds == PruneRounds(db, cut) && !half ==> Pruned(db, p.db, cut, p.sessions, p.samples))
  {
    PruneSpares(scan, db, cut, rounds, half);
    PruneWhole(scan, db, cut);
  }

  lemma EligibleIff(db: Db, cut: int)
    ensures forall id :: id in Eligible(db, cut) <==> Overdue(db, id, cut)
  {
  }

  lemma GoneIsPruned(db: Db, cut: int)
    ensures var p := AllGone(db, Eligible(db, cut)); Pruned(db, p.db, cut, p.sessions, p.samples)
  {
    var eligible := Eligible(db, cut);
    EligibleIff(db, cut);
    DropMembers(db.samples, eligible);
    CountDrop(db.samples, eligible, eligible);
    assert db.sessions.Keys == (db.sessions - eligible).Keys + eligible;
    assert |db.sessions.Keys| == |(db.sessions - eligible).Keys| + |eligible|;
  }

  lemma SameSize(a: set<int>, b: set<int>)
    requires a <= b && |a| == |b|
    ensures a == b
  {
    assert b == a + (b - a);
    assert |b - a| == |b| - |a| == 0;
  }
}
