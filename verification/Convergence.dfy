/** Repeated sweeps of a quiet deployment reach a fixed state: every
    soft-deleted row is purged, and the store holds exactly the live objects. */
module Convergence {
  import opened Types
  import opened Protocol
  import opened Soundness
  import opened Deployment
  import opened Sweeping
  import opened Collector

  // How many soft-deleted rows are left of n once `done` have been purged.
  function Left(n: nat, done: nat): nat {
    if n <= done then 0 else n - done
  }

  // No live row is lost or changed, nor is its object, and nothing is added.
  ghost predicate LiveKept(w0: World, w: World) {
    && (forall i :: IsLive(w0.files, i) <==> IsLive(w.files, i))
    && (forall i :: i in w.files ==> i in w0.files && w.files[i] == w0.files[i])
    && (forall i :: IsLive(w0.files, i) && w0.files[i].key in w0.objects ==> w0.files[i].key in w.objects)
    && forall k :: k in w.objects ==> k in w0.objects && w.objects[k] == w0.objects[k]
  }

  // Every live row has its object, and everything else in the store is a dead
  // row's object or old enough to be reclaimed.
  ghost predicate Ripe(c: Config, w: World) {
    && (forall i :: IsLive(w.files, i) ==> w.files[i].key in w.objects)
    && forall k :: k in Unnamed(w) ==> w.objects[k].modTime <= w.now - c.grace
  }

  ghost predicate OneRowPerKey(files: map<Id, Row>) {
    forall i, j :: i in files && j in files && files[i].key == files[j].key ==> i == j
  }

  lemma {:induction false} IdsCount(ids: seq<Id>)
    requires forall i, j :: 0 <= i < j < |ids| ==> ids[i] != ids[j]
    ensures |Ids(ids)| == |ids|
  {
    if ids == [] {
      assert Ids(ids) == {};
    } else {
      var n := |ids| - 1;
      IdsCount(ids[..n]);
      assert ids == ids[..n] + [ids[n]];
      assert Ids(ids) == Ids(ids[..n]) + {ids[n]};
      assert ids[n] !in ids[..n];
    }
  }

  // One batch: the whole limit, or everything there is.
  lemma BatchSize(files: map<Id, Row>, limit: nat, picked: seq<Id>)
    requires OldestDeleted(files, limit, picked)
    ensures Ids(picked) <= Dead(files) && |Dead(files) - Ids(picked)| == Left(|Dead(files)|, limit)
  {
    IdsCount(picked);
    assert Dead(files) == Ids(picked) + (Dead(files) - Ids(picked));
    if |picked| < limit {
      assert Dead(files) - Ids(picked) == {};
    }
  }

  lemma SweepShrinks(c: Config, w0: World, w: World, picked: seq<Id>, cutoff: Time, before: Time)
    requires Collected(c, w0, w, picked, cutoff, before)
    ensures |Dead(w.files)| == Left(|Dead(w0.files)|, BatchLimit(c.batch))
    ensures var n := |Dead(w0.files)|;
      c.batch > 0 ==> |Dead(w.files)| == if n <= c.batch then 0 else n - c.batch
    ensures var n := |Dead(w0.files)|;
      c.batch <= 0 ==> |Dead(w.files)| == if n <= 500 then 0 else n - 500
  {
    BatchSize(w0.files, BatchLimit(c.batch), picked);
    assert Dead(w.files) == Dead(w0.files) - Ids(picked);
  }

  lemma SweepKeepsLive(c: Config, w0: World, w: World, picked: seq<Id>, cutoff: Time, before: Time)
    requires Collected(c, w0, w, picked, cutoff, before) && OneRowPerKey(w0.files)
    ensures LiveKept(w0, w)
  {
    assert forall i :: i in picked ==> SoftDeleted(w0.files, i);
    hide OldestDeleted;
  }

  lemma SweepClears(c: Config, w0: World, w: World, picked: seq<Id>, cutoff: Time, before: Time)
    requires Collected(c, w0, w, picked, cutoff, before)
    requires forall k :: k in Unnamed(w0) ==> w0.objects[k].modTime <= cutoff
    ensures Unnamed(w) == {}
  {
    hide OldestDeleted;
    forall k | k in w.objects
      ensures k in StorageKeys(w.files)
    {
      assert k !in Unnamed(w0);
      var i :| i in w0.files && w0.files[i].key == k;
      assert i in w.files;
    }
  }

  // The rows are the rows that were live, and the store holds their objects
  // and nothing else.
  ghost predicate Settled(w0: World, w: World) {
    && w.files == (map i | i in w0.files && IsLive(w0.files, i) :: w0.files[i])
    && w.objects == (map k | k in w0.objects && k in StorageKeys(w.files) :: w0.objects[k])
    && w.objects.Keys == StorageKeys(w.files)
  }

  // With nothing dead and nothing unnamed, store and table agree.
  lemma Converged(c: Config, w0: World, w: World)
    requires Ripe(c, w0) && LiveKept(w0, w) && Dead(w.files) == {} && Unnamed(w) == {}
    ensures Settled(w0, w)
  {
    assert forall i :: i in w.files ==> i !in Dead(w.files);
    forall k | k in w.objects
      ensures k in StorageKeys(w.files)
    {
      assert k !in Unnamed(w);
    }
  }

  function Times(n: nat, m: nat): nat {
    n * m
  }

  lemma OnceMore(n: nat, m: nat)
    ensures Times(n + 1, m) == Times(n, m) + m
  {
  }

  // The same count by the batch itself.
  lemma LeftByBatch(n: nat, batch: int, dead: nat)
    ensures batch > 0 ==> Left(dead, Times(n, BatchLimit(batch))) == if dead <= n * batch then 0 else dead - n * batch
    ensures batch <= 0 ==> Left(dead, Times(n, BatchLimit(batch))) == if dead <= n * 500 then 0 else dead - n * 500
  {
  }

  // `n` sweeps, one after the other: each takes a full batch of what is dead,
  // 500 rows if no batch is set, and once enough have run only the live rows and
  // their objects remain.
  method Sweep(gc: Collector, n: nat)
    requires gc.steady && gc.Sure() && gc.env.alone && gc.env.Valid()
    modifies gc.env, gc.env.backend, gc.env.repo, gc.ctx
    ensures gc.env.Valid() && LiveKept(old(gc.env.View()), gc.env.View())
    ensures var dead, batch := |Dead(old(gc.env.repo.files))|, gc.env.c.batch;
      batch > 0 ==> |Dead(gc.env.repo.files)| == if dead <= n * batch then 0 else dead - n * batch
    ensures var dead, batch := |Dead(old(gc.env.repo.files))|, gc.env.c.batch;
      batch <= 0 ==> |Dead(gc.env.repo.files)| == if dead <= n * 500 then 0 else dead - n * 500
    ensures var dead, batch := |Dead(old(gc.env.repo.files))|, gc.env.c.batch;
      n > 0 && n * (if batch > 0 then batch else 500) >= dead && Ripe(gc.env.c, old(gc.env.View())) ==>
        Settled(old(gc.env.View()), gc.env.View())
  {
    hide Sound, Run, LiveKept, Ripe, Settled, SoftDeleted, Dead, Progress, Init;
    ghost var w0, batch := gc.env.View(), gc.env.c.batch;
    SweepAll(gc, n);
    ProgressMade(gc.env.c, w0, gc.env.View(), n, Times(n, BatchLimit(batch)));
    LeftByBatch(n, batch, |Dead(w0.files)|);
  }

  // After `i` sweeps that began in `w0` and have room for `done` rows.
  ghost predicate Progress(c: Config, w0: World, w: World, i: nat, done: nat) {
    && LiveKept(w0, w) && |Dead(w.files)| == Left(|Dead(w0.files)|, done)
    && if i == 0 then w == w0 else Ripe(c, w0) ==> Unnamed(w) == {}
  }

  lemma ProgressNone(c: Config, w: World, limit: nat)
    ensures Progress(c, w, w, 0, 0) && Times(0, limit) == 0
  {
  }

  lemma ProgressMore(c: Config, w0: World, w: World, w': World, i: nat, done: nat, limit: nat)
    requires Progress(c, w0, w, i, done) && LiveKept(w, w') && |Dead(w'.files)| == Left(|Dead(w.files)|, limit)
    requires Ripe(c, w) || Unnamed(w) == {} ==> Unnamed(w') == {}
    ensures Progress(c, w0, w', i + 1, done + limit)
  {
    hide LiveKept, Ripe, Unnamed, Dead;
    KeptTrans(w0, w, w');
  }

  lemma ProgressMade(c: Config, w0: World, w: World, n: nat, done: nat)
    requires Progress(c, w0, w, n, done)
    ensures LiveKept(w0, w) && |Dead(w.files)| == Left(|Dead(w0.files)|, done)
    ensures n > 0 && |Dead(w.files)| == 0 && Ripe(c, w0) ==> Settled(w0, w)
  {
    hide LiveKept, Ripe, Unnamed, Dead, Settled;
    if n > 0 && |Dead(w.files)| == 0 && Ripe(c, w0) {
      Converged(c, w0, w);
    }
  }

  method SweepAll(gc: Collector, n: nat)
    requires gc.steady && gc.Sure() && gc.env.alone && gc.env.Valid()
    modifies gc.env, gc.env.backend, gc.env.repo, gc.ctx
    ensures gc.env.Valid()
    ensures Progress(gc.env.c, old(gc.env.View()), gc.env.View(), n, Times(n, BatchLimit(gc.env.c.batch)))
  {
    hide *;
    ghost var w0, limit := gc.env.View(), BatchLimit(gc.env.c.batch);
    ProgressNone(gc.env.c, w0, limit);
    var i := 0;
    ghost var done := 0;
    while i < n
      invariant i <= n && gc.env.Valid() && gc.Sure() && done == Times(i, limit)
      invariant Progress(gc.env.c, w0, gc.env.View(), i, done)
    {
      SweepAgain(gc, w0, i, done, limit);
      OnceMore(i, limit);
      i, done := i + 1, done + limit;
    }
  }

  method SweepAgain(gc: Collector, ghost w0: World, ghost i: nat, ghost done: nat, ghost limit: nat)
    requires limit == BatchLimit(gc.env.c.batch)
    requires gc.steady && gc.Sure() && gc.env.alone && gc.env.Valid() && Progress(gc.env.c, w0, gc.env.View(), i, done)
    modifies gc.env, gc.env.backend, gc.env.repo, gc.ctx
    ensures gc.env.Valid() && gc.Sure()
    ensures Progress(gc.env.c, w0, gc.env.View(), i + 1, done + limit)
  {
    ghost var w := gc.env.View();
    assert OneRowPerKey(w.files) by {
      gc.env.ValidSound();
    }
    hide Sound, Run, Keeps, Between, Next, Swept, LiveKept, Collected, Accounted, Progress;
    AnotherId(gc.env.sweeps.Keys);
    var pid :| pid !in gc.env.sweeps;
    ghost var picked, before; var ok, stats, cutoff;
    ok, stats, picked, cutoff, before := gc.RunOnce(pid);
    SweepShrinks(gc.env.c, w, gc.env.View(), picked, cutoff, before);
    SweepKeepsLive(gc.env.c, w, gc.env.View(), picked, cutoff, before);
    if Ripe(gc.env.c, w) || Unnamed(w) == {} {
      SweepClears(gc.env.c, w, gc.env.View(), picked, cutoff, before);
    }
    ghost var w' := gc.env.View();
    hide *;
    ProgressMore(gc.env.c, w0, w, w', i, done, limit);
  }

  lemma KeptTrans(w0: World, w1: World, w2: World)
    requires LiveKept(w0, w1) && LiveKept(w1, w2)
    ensures LiveKept(w0, w2)
  {
  }
}
