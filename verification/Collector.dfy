/** The garbage collector, call by call, in a deployment where anybody else may
    act between its calls and any call may fail. */
module Collector {
  import opened Types
  import opened Protocol
  import opened Soundness
  import opened Orphans
  import opened Sweeping
  import opened Stores
  import opened Deployment

  // The context of a sweep: it may be cancelled at any time, and stays so.
  class Context {
    const never: bool
    var done: bool

    constructor (never: bool)
      ensures this.never == never && !done
    {
      this.never, done := never, false;
    }

    method Err() returns (cancelled: bool)
      modifies this
      ensures cancelled == done && (old(done) ==> done) && (never && !old(done) ==> !done)
    {
      var now: bool := *;
      if now && !never {
        done := true;
      }
      return done;
    }
  }

  class Collector {
    const env: Deployment
    const ctx: Context
    // The context is never cancelled and no call fails.
    const steady: bool

    constructor (env: Deployment, ctx: Context, steady: bool)
      ensures this.env == env && this.ctx == ctx && this.steady == steady
    {
      this.env, this.ctx, this.steady := env, ctx, steady;
    }

    ghost predicate Sure()
      reads ctx
    {
      steady ==> env.backend.reliable && env.repo.reliable && ctx.never && !ctx.done
    }

    ghost predicate At(pid: Pid, s: Sweep)
      reads env, env.backend, env.repo, ctx
    {
      env.Valid() && Sure() && pid in env.sweeps && env.sweeps[pid] == s
    }

    // One of the calls a phase hangs on failed, at a step of this process: the
    // listing of deleted rows, the key snapshot, the listing of objects, or the
    // expiry of keys.
    twostate predicate CallFailed(pid: Pid)
      reads env, env.backend, env.repo
    {
      PhaseFailed(env.c, env.start, env.trace, |old(env.trace)|, pid)
    }

    lemma JustFailed(w: World, before: seq<Label>, from: nat, pid: Pid)
      requires from <= |before| && env.trace == before + [Sw(pid, Failure)] && w == Run(env.c, env.start, before)
      requires pid in w.sweeps && IsPhase(w.sweeps[pid])
      ensures PhaseFailed(env.c, env.start, env.trace, from, pid)
    {
      hide Run;
      assert env.trace[..|before|] == before;
      assert FailedAt(env.c, env.start, env.trace, |before|, pid);
    }

    // The run went on, and nothing abandoned came back.
    twostate predicate Moved()
      reads env, env.backend, env.repo
    {
      old(env.trace) <= env.trace && Keeps(old(env.View()), env.View()) && old(env.now) <= env.now
    }

    // A sweep that runs alone sees nothing change but what it deletes itself.
    twostate predicate Removed(rows: set<Id>, objects: set<Key>)
      reads env, env.backend, env.repo
    {
      env.alone ==>
        && env.repo.files == old(env.repo.files) - rows && env.backend.objects == old(env.backend.objects) - objects
        && env.repo.keys == old(env.repo.keys)
    }

    twostate predicate Untouched()
      reads env, env.backend, env.repo
    {
      env.alone ==>
        && env.repo.files == old(env.repo.files) && env.backend.objects == old(env.backend.objects)
        && env.repo.keys == old(env.repo.keys)
    }

    method ListDeleted(pid: Pid) returns (ok: bool, rows: seq<Doomed>, picked: seq<Id>)
      requires At(pid, Starting)
      modifies env, env.backend, env.repo
      ensures Moved() && Untouched() && (steady ==> ok) && (!ok ==> CallFailed(pid))
      ensures At(pid, if ok then Purging(rows) else Finished)
      ensures ok ==>
        OldestDeleted(env.repo.files, BatchLimit(env.c.batch), picked) && rows == Records(env.repo.files, picked)
      ensures ok ==> FullBatch(env.c.batch, Dead(env.repo.files), picked)
    {
      hide Sound, Run, Keeps, Between, UploadNext, DownloadNext, Stamp;
      env.Yield(pid);
      var w := env.View();
      ghost var before := env.trace;
      ok, rows, picked := env.repo.ListDeleted(env.c.batch);
      var l := Sw(pid, if ok then Rows(picked) else Failure);
      env.Record(w, l);
      KeepsThenStep(env.c, old(env.View()), w, l);
      if !ok {
        JustFailed(w, before, |old(env.trace)|, pid);
      }
    }

    method PurgeObject(pid: Pid, d: Doomed, todo: seq<Doomed>) returns (ok: bool)
      requires At(pid, Purging([d] + todo))
      modifies env, env.backend, env.repo
      ensures Moved() && Removed({}, if ok then {d.key} else {}) && (env.backend.Firm(d.key) ==> ok)
      ensures At(pid, if ok then Removing(d, todo) else Purging(todo))
    {
      hide Sound, Run, Keeps, Between, UploadNext, DownloadNext, Stamp;
      assert ([d] + todo)[1..] == todo;
      env.Yield(pid);
      var w := env.View();
      ok := env.backend.Delete(d.key);
      var l := Sw(pid, if ok then Done else Failure);
      env.Record(w, l);
      KeepsThenStep(env.c, old(env.View()), w, l);
    }

    method PurgeRow(pid: Pid, d: Doomed, todo: seq<Doomed>) returns (ok: bool)
      requires At(pid, Removing(d, todo))
      modifies env, env.backend, env.repo
      ensures At(pid, Purging(todo)) && Moved() && (env.repo.Firm(d.id) ==> ok)
      ensures SoftDeleted(old(env.repo.files), d.id) ==> Removed(if ok then {d.id} else {}, {})
    {
      hide Sound, Run, Keeps, Between, UploadNext, DownloadNext, Stamp;
      env.Yield(pid);
      var w := env.View();
      ok := env.repo.Purge(d.id);
      var l := Sw(pid, if ok then Done else Failure);
      env.Record(w, l);
      KeepsThenStep(env.c, old(env.View()), w, l);
    }

    // The object first, then the row; either delete may fail, and then the row
    // stays for the next sweep.
    method PurgeOne(pid: Pid, d: Doomed, todo: seq<Doomed>) returns (purged: bool, dropped: bool)
      requires At(pid, Purging([d] + todo))
      modifies env, env.backend, env.repo
      ensures env.Valid() && At(pid, Purging(todo)) && Moved() && (purged ==> dropped)
      ensures (env.backend.Firm(d.key) ==> dropped) && (dropped && env.repo.Firm(d.id) ==> purged)
      ensures SoftDeleted(old(env.repo.files), d.id) ==>
        Removed(if purged then {d.id} else {}, if dropped then {d.key} else {})
    {
      hide Sound, Run, Keeps, Between, Next;
      purged, dropped := false, false;
      dropped := PurgeObject(pid, d, todo);
      if dropped {
        ghost var w1 := env.View();
        purged := PurgeRow(pid, d, todo);
        KeepsTrans(old(env.View()), w1, env.View());
      }
    }

    // The purge phase. Alone, it counts exactly the rows it removed, and leaves
    // the set of unnamed objects as it was. It stops only if the listing fails or
    // the context is cancelled; a delete that fails holds up nothing else.
    method PurgeDeleted(pid: Pid) returns (ok: bool, purged: nat, ghost picked: seq<Id>)
      requires At(pid, Starting)
      modifies env, env.backend, env.repo, ctx
      ensures env.Valid() && Sure() && Moved() && (steady ==> ok) && (ok ==> At(pid, Purging([])))
      ensures ok || ctx.done || CallFailed(pid)
      ensures env.alone ==> PurgedAlone(old(env.View()), env.View(), purged)
      ensures env.alone && ok ==> PurgedFirm(env.c, old(env.View()), env.View(), picked, env.backend, env.repo)
      ensures env.alone && steady ==> OldestDeleted(old(env.repo.files), BatchLimit(env.c.batch), picked)
      ensures env.alone && steady ==> Removed(Ids(picked), KeysOf(old(env.repo.files), picked))
    {
      hide Sound, Run, Keeps, Between, Next, PhaseFailed, PurgedFirm, FullBatch, GoneOf, DropOf, Firmly;
      purged := 0;
      var rows;
      ok, rows, picked := ListDeleted(pid);
      if ok {
        ghost var w0, all := old(env.View()), env.View();
        ghost var tries;
        ok, purged, tries := PurgeListed(pid, rows, picked);
        KeepsTrans(w0, all, env.View());
        if env.alone {
          TotalsAlone(all, env.View(), picked, tries, purged, env.backend, env.repo);
          AlikeTotals(w0, all, env.View(), purged);
          if ok {
            FirmAlone(env.c, w0, all, env.View(), picked, tries, purged, env.backend, env.repo);
          }
          if steady {
            AllTried(all.files, picked, tries, env.backend, env.repo);
          }
        }
      }
    }

    // Every row of the batch is tried, unless the context is cancelled; what is
    // gone and dropped is what its two deletes took.
    method PurgeListed(pid: Pid, rows: seq<Doomed>, ghost picked: seq<Id>)
      returns (ok: bool, purged: nat, ghost tries: seq<Tried>)
      requires env.Valid() && Sure() && At(pid, Purging(rows))
      requires OldestDeleted(env.repo.files, BatchLimit(env.c.batch), picked) && rows == Records(env.repo.files, picked)
      modifies env, env.backend, env.repo, ctx
      ensures env.Valid() && Sure() && Moved() && (steady ==> ok) && (ok ==> At(pid, Purging([])))
      ensures (ok || ctx.done) && (ok ==> |tries| == |picked|) && |tries| <= |picked| == |rows|
      ensures Firmly(rows, tries, env.backend, env.repo)
      ensures env.alone ==> Purged(old(env.View()), env.View(), rows, picked, tries, purged)
    {
      ghost var all := env.View();
      KeepsSelf(all);
      PurgedNone(all, rows, picked, env.backend, env.repo);
      assert rows[0..] == rows && |rows| == |picked|;
      hide Sound, Run, Keeps, Between, Next, At, Purged, Firmly, FirmTry, Records, OldestDeleted, Init, SoftDeleted;
      purged, tries := 0, [];
      var i := 0;
      while i < |rows|
        invariant i == |tries| <= |rows| && env.Valid() && Sure() && At(pid, Purging(rows[i..])) && Moved()
        invariant Firmly(rows, tries, env.backend, env.repo)
        invariant env.alone ==> Purged(all, env.View(), rows, picked, tries, purged)
      {
        var cancelled := Check(pid, rows[i..]);
        if cancelled {
          ok := false;
          return;
        }
        ghost var w := env.View();
        var tried;
        tried := PurgeNth(pid, all, rows, i, picked, tries, purged);
        KeepsTrans(all, w, env.View());
        if tried.purged {
          purged := purged + 1;
        }
        tries := tries + [tried];
        i := i + 1;
      }
      assert rows[|rows|..] == [];
      ok := true;
    }

    // ctx.Err() between two rows.
    method Check(pid: Pid, ghost todo: seq<Doomed>) returns (cancelled: bool)
      requires At(pid, Purging(todo))
      modifies ctx
      ensures Sure() && At(pid, Purging(todo)) && cancelled == ctx.done && (steady ==> !cancelled)
    {
      cancelled := ctx.Err();
    }

    method PurgeNth(pid: Pid, ghost all: World, rows: seq<Doomed>, n: nat, ghost picked: seq<Id>,
                    ghost tries: seq<Tried>, ghost purged: nat)
      returns (tried: Tried)
      requires n == |tries| < |rows| && At(pid, Purging(rows[n..]))
      requires OldestDeleted(all.files, BatchLimit(env.c.batch), picked) && rows == Records(all.files, picked)
      requires Firmly(rows, tries, env.backend, env.repo)
      requires env.alone ==> Purged(all, env.View(), rows, picked, tries, purged)
      modifies env, env.backend, env.repo
      ensures env.Valid() && Sure() && At(pid, Purging(rows[n + 1..])) && Moved()
      ensures Firmly(rows, tries + [tried], env.backend, env.repo)
      ensures env.alone ==>
        Purged(all, env.View(), rows, picked, tries + [tried], if tried.purged then purged + 1 else purged)
    {
      hide Sound, Run, Keeps, Between, Next, Abandoned, OldestDeleted, Purged, Firmly, Records;
      NthPicked(all.files, BatchLimit(env.c.batch), picked, n);
      assert rows[n..] == [rows[n]] + rows[n + 1..];
      ghost var w := env.View();
      if env.alone {
        StillThere(all, w, rows, picked, tries, purged);
      }
      var gone, dropped := PurgeOne(pid, rows[n], rows[n + 1..]);
      tried := Tried(dropped, gone);
      FirmlySnoc(rows, tries, tried, env.backend, env.repo);
      if env.alone {
        PurgedSnoc(all, w, env.View(), rows, picked, tries, tried, purged);
      }
    }

    method SnapshotKeys(pid: Pid) returns (ok: bool, known: set<Key>)
      requires At(pid, Purging([]))
      modifies env, env.backend, env.repo
      ensures env.Valid() && Moved() && Untouched() && (steady ==> ok) && (!ok ==> CallFailed(pid))
      ensures ok ==> known == StorageKeys(env.repo.files) && At(pid, Cutting(known, env.now))
    {
      hide Sound, Run, Keeps, Between, UploadNext, DownloadNext, Stamp;
      env.Yield(pid);
      var w := env.View();
      ghost var before := env.trace;
      ok, known := env.repo.StorageKeys();
      var l := Sw(pid, if ok then Done else Failure);
      env.Record(w, l);
      KeepsThenStep(env.c, old(env.View()), w, l);
      if !ok {
        JustFailed(w, before, |old(env.trace)|, pid);
      }
    }

    method TakeCutoff(pid: Pid, known: set<Key>, ghost at: Time) returns (cutoff: Time)
      requires At(pid, Cutting(known, at))
      modifies env, env.backend, env.repo
      ensures env.Valid() && At(pid, Enumerating(known, cutoff)) && Moved() && Untouched()
      ensures cutoff == env.now - env.c.grace
    {
      hide Sound, Run, Keeps, Between, UploadNext, DownloadNext, Stamp;
      env.Yield(pid);
      var w := env.View();
      cutoff := env.now - env.c.grace;
      env.Record(w, Sw(pid, Done));
      KeepsThenStep(env.c, old(env.View()), w, Sw(pid, Done));
    }

    method ListObjects(pid: Pid, known: set<Key>, cutoff: Time)
      returns (ok: bool, snapshot: seq<Listed>, order: seq<Key>)
      requires At(pid, Enumerating(known, cutoff))
      modifies env, env.backend, env.repo
      ensures env.Valid() && Moved() && Untouched() && (steady ==> ok) && (!ok ==> CallFailed(pid))
      ensures ok ==> Enumerates(env.backend.objects, order) && snapshot == Listing(env.backend.objects, order)
      ensures ok ==> At(pid, Reclaiming(known, cutoff, snapshot))
    {
      hide Sound, Run, Keeps, Between, UploadNext, DownloadNext, Stamp;
      env.Yield(pid);
      var w := env.View();
      ghost var before := env.trace;
      ok, snapshot, order := env.backend.List();
      var l := Sw(pid, if ok then Enumerated(order) else Failure);
      env.Record(w, l);
      KeepsThenStep(env.c, old(env.View()), w, l);
      if !ok {
        JustFailed(w, before, |old(env.trace)|, pid);
      }
    }

    // The callback for one listed object: skip what a row names and what is too
    // new, delete the rest.
    method ReclaimOne(pid: Pid, known: set<Key>, cutoff: Time, o: Listed, rest: seq<Listed>) returns (removed: bool)
      requires At(pid, Reclaiming(known, cutoff, [o] + rest))
      modifies env, env.backend, env.repo
      ensures env.Valid() && At(pid, Reclaiming(known, cutoff, rest)) && Moved()
      ensures Removed({}, if removed then {o.key} else {}) && (removed ==> Reclaimable(known, cutoff, o))
      ensures removed ==> o.key !in env.backend.objects
      ensures Reclaimable(known, cutoff, o) && env.backend.Firm(o.key) ==> removed
    {
      hide Sound, Run, Keeps, Between, UploadNext, DownloadNext, Stamp;
      assert ([o] + rest)[1..] == rest;
      removed := false;
      if o.key in known || o.modTime > cutoff {
        Skip(pid, known, cutoff, o, rest);
        return;
      }
      env.Yield(pid);
      var w := env.View();
      removed := env.backend.Delete(o.key);
      var l := Sw(pid, if removed then Done else Failure);
      env.Record(w, l);
      KeepsThenStep(env.c, old(env.View()), w, l);
    }

    // No call is made for an object that stays.
    method Skip(pid: Pid, known: set<Key>, cutoff: Time, o: Listed, rest: seq<Listed>)
      requires At(pid, Reclaiming(known, cutoff, [o] + rest)) && !Reclaimable(known, cutoff, o)
      modifies env, env.backend, env.repo
      ensures env.Valid() && At(pid, Reclaiming(known, cutoff, rest)) && Moved() && Removed({}, {})
    {
      hide Sound, Run, Keeps, Between, UploadNext, DownloadNext, Stamp;
      assert ([o] + rest)[1..] == rest;
      var w := env.View();
      env.Record(w, Sw(pid, Done));
      KeepsStep(env.c, w, Sw(pid, Done));
    }

    // Every listed object is looked at, unless the context is cancelled; a delete
    // that fails holds up nothing else.
    method ReclaimListed(pid: Pid, known: set<Key>, cutoff: Time, snapshot: seq<Listed>)
      returns (ok: bool, orphans: nat, ghost drop: set<Key>)
      requires At(pid, Reclaiming(known, cutoff, snapshot))
      requires forall i, j :: 0 <= i < j < |snapshot| ==> snapshot[i].key != snapshot[j].key
      modifies env, env.backend, env.repo, ctx
      ensures env.Valid() && Sure() && Moved() && (steady ==> ok) && (ok ==> At(pid, Reclaiming(known, cutoff, [])))
      ensures (ok || ctx.done) && drop <= ReclaimKeys(known, cutoff, snapshot)
      ensures AllGone(old(env.View()), env.View(), drop)
      ensures ok ==> FirmTaken(env.backend, ReclaimKeys(known, cutoff, snapshot), drop)
      ensures env.alone ==> ReclaimedTo(old(env.View()), env.View(), drop) && |drop| == orphans
      ensures steady ==> drop == ReclaimKeys(known, cutoff, snapshot)
    {
      ghost var all := env.View();
      KeepsSelf(all);
      ReclaimedNone(all, known, cutoff, snapshot);
      assert FirmTaken(env.backend, {}, {});
      hide Sound, Run, Keeps, Between, Next, At, AllGone, Abandoned, Reclaimable, ReclaimedTo, ReclaimKeys, FirmTaken;
      ok, orphans, drop := true, 0, {};
      var i := 0;
      assert snapshot[0..] == snapshot;
      while i < |snapshot|
        invariant i <= |snapshot| && env.Valid() && Sure() && Moved()
        invariant At(pid, Reclaiming(known, cutoff, snapshot[i..]))
        invariant drop <= ReclaimKeys(known, cutoff, snapshot[..i]) && AllGone(all, env.View(), drop)
        invariant FirmTaken(env.backend, ReclaimKeys(known, cutoff, snapshot[..i]), drop)
        invariant env.alone ==> ReclaimedTo(all, env.View(), drop) && |drop| == orphans
      {
        var cancelled := Poll(pid, known, cutoff, snapshot[i..]);
        if cancelled {
          ok := false;
          ReclaimPrefix(known, cutoff, snapshot, i);
          return;
        }
        ghost var w := env.View();
        var removed;
        removed, drop := ReclaimNth(pid, all, known, cutoff, snapshot, i, drop);
        KeepsTrans(all, w, env.View());
        if removed {
          orphans := orphans + 1;
        }
        i := i + 1;
      }
      assert snapshot[..|snapshot|] == snapshot;
      if steady {
        AllTaken(env.backend, ReclaimKeys(known, cutoff, snapshot), drop);
      }
    }

    // ctx.Err() between two objects of the listing.
    method Poll(pid: Pid, ghost known: set<Key>, ghost cutoff: Time, ghost todo: seq<Listed>) returns (cancelled: bool)
      requires At(pid, Reclaiming(known, cutoff, todo))
      modifies ctx
      ensures Sure() && At(pid, Reclaiming(known, cutoff, todo)) && cancelled == ctx.done && (steady ==> !cancelled)
    {
      cancelled := ctx.Err();
    }

    method ReclaimNth(pid: Pid, ghost all: World, known: set<Key>, cutoff: Time, snapshot: seq<Listed>, n: nat,
                      ghost drop: set<Key>)
      returns (removed: bool, ghost drop': set<Key>)
      requires n < |snapshot| && At(pid, Reclaiming(known, cutoff, snapshot[n..])) && Keeps(all, env.View())
      requires forall i, j :: 0 <= i < j < |snapshot| ==> snapshot[i].key != snapshot[j].key
      requires drop <= ReclaimKeys(known, cutoff, snapshot[..n]) && AllGone(all, env.View(), drop)
      requires FirmTaken(env.backend, ReclaimKeys(known, cutoff, snapshot[..n]), drop)
      requires env.alone ==> ReclaimedTo(all, env.View(), drop)
      modifies env, env.backend, env.repo
      ensures env.Valid() && At(pid, Reclaiming(known, cutoff, snapshot[n + 1..])) && Moved()
      ensures drop' <= ReclaimKeys(known, cutoff, snapshot[..n + 1]) && |drop'| == |drop| + if removed then 1 else 0
      ensures env.alone ==> ReclaimedTo(all, env.View(), drop')
      ensures FirmTaken(env.backend, ReclaimKeys(known, cutoff, snapshot[..n + 1]), drop')
      ensures AllGone(all, env.View(), drop')
    {
      hide Sound, Run, Keeps, Between, Next, At, Abandoned, Reclaimable, ReclaimKeys, ReclaimedTo, AllGone, FirmTaken;
      assert snapshot[n..] == [snapshot[n]] + snapshot[n + 1..];
      ReclaimSnoc(known, cutoff, snapshot, n);
      NotYet(known, cutoff, snapshot, n);
      ghost var w := env.View();
      removed := ReclaimOne(pid, known, cutoff, snapshot[n], snapshot[n + 1..]);
      ghost var more := if removed then {snapshot[n].key} else {};
      drop' := drop + more;
      if env.alone {
        ReclaimedSnoc(all, w, env.View(), drop, more);
      }
      StayGone(all, w, env.View(), drop);
      GoneSnoc(all, env.View(), drop, more);
      TakenSnoc(env.backend, ReclaimKeys(known, cutoff, snapshot[..n]), snapshot[n].key,
                Reclaimable(known, cutoff, snapshot[n]), drop, removed);
    }

    // The keys the rows know, then the cutoff, then the listing.
    method TakeSnapshots(pid: Pid)
      returns (ok: bool, known: set<Key>, cutoff: Time, snapshot: seq<Listed>, ghost wk: World, ghost order: seq<Key>)
      requires At(pid, Purging([]))
      modifies env, env.backend, env.repo
      ensures env.Valid() && Moved() && Untouched() && (steady ==> ok) && (!ok ==> CallFailed(pid))
      ensures ok ==> At(pid, Reclaiming(known, cutoff, snapshot))
      ensures ok ==> Keeps(old(env.View()), wk) && Keeps(wk, env.View()) && known == StorageKeys(wk.files)
      ensures ok ==>
        (env.alone ==> known == StorageKeys(old(env.repo.files))) && old(env.now) <= cutoff + env.c.grace <= env.now
      ensures ok ==> Enumerates(env.backend.objects, order) && snapshot == Listing(env.backend.objects, order)
    {
      ghost var w0 := env.View();
      hide Sound, Run, Keeps, Between, Next, At, PhaseFailed, Enumerates, Listing, StorageKeys;
      cutoff, snapshot, order := 0, [], [];
      ok, known := SnapshotKeys(pid);
      wk := env.View();
      if ok {
        ghost var mid := env.trace;
        ok, cutoff, snapshot, order := CutAndList(pid, known);
        FailedSooner(env.c, env.start, env.trace, |old(env.trace)|, |mid|, pid);
        KeepsTrans(w0, wk, env.View());
      }
    }

    // The cutoff is fixed once the keys are known, then the store is listed.
    method CutAndList(pid: Pid, known: set<Key>)
      returns (ok: bool, cutoff: Time, snapshot: seq<Listed>, ghost order: seq<Key>)
      requires At(pid, Cutting(known, env.now))
      modifies env, env.backend, env.repo
      ensures env.Valid() && Moved() && Untouched() && (steady ==> ok) && (!ok ==> CallFailed(pid))
      ensures ok ==> At(pid, Reclaiming(known, cutoff, snapshot))
      ensures old(env.now) <= cutoff + env.c.grace <= env.now
      ensures ok ==> Enumerates(env.backend.objects, order) && snapshot == Listing(env.backend.objects, order)
    {
      hide Sound, Run, Keeps, Between, Next, At, PhaseFailed, Enumerates, Listing;
      ghost var wk := env.View();
      cutoff := TakeCutoff(pid, known, env.now);
      ghost var wc, mid := env.View(), env.trace;
      ok, snapshot, order := ListObjects(pid, known, cutoff);
      KeepsTrans(wk, wc, env.View());
      FailedSooner(env.c, env.start, env.trace, |old(env.trace)|, |mid|, pid);
    }

    // The orphan phase. Alone, it counts exactly the unnamed objects it took. It
    // stops only if one of its listings fails or the context is cancelled; else,
    // whoever acts, every abandoned object that was old enough is gone, unless
    // its own delete failed.
    method ReclaimOrphans(pid: Pid)
      returns (ok: bool, orphans: nat, known: set<Key>, cutoff: Time, ghost drop: set<Key>)
      requires At(pid, Purging([]))
      modifies env, env.backend, env.repo, ctx
      ensures env.Valid() && Sure() && Moved() && (steady ==> ok) && (ok ==> At(pid, Reclaiming(known, cutoff, [])))
      ensures ok || ctx.done || CallFailed(pid)
      ensures env.alone ==>
        ReclaimedTo(old(env.View()), env.View(), drop) && |drop| == orphans && drop <= Unnamed(old(env.View()))
      ensures ok ==> old(env.now) <= cutoff + env.c.grace <= env.now
      ensures ok ==> Swept(old(env.View()), env.View(), cutoff, env.backend)
      ensures ok && env.alone ==> FirmTaken(env.backend, Overdue(old(env.View()), cutoff), drop)
      ensures steady && env.alone ==> drop == Overdue(old(env.View()), cutoff)
    {
      ghost var w0 := env.View();
      ReclaimedNone(w0, {}, 0, []);
      hide Sound, Run, Keeps, Between, Next, At, AllGone, Abandoned, ReclaimKeys, Swept, Enumerates, Listing;
      hide PhaseFailed, FirmTaken;
      var snapshot; ghost var wk, order;
      orphans, drop := 0, {};
      ok, known, cutoff, snapshot, wk, order := TakeSnapshots(pid);
      if !ok {
        return;
      }
      ghost var wl := env.View();
      Distinct(wl.objects, order);
      ok, orphans, drop := ReclaimListed(pid, known, cutoff, snapshot);
      KeepsTrans(w0, wl, env.View());
      if env.alone {
        ListedOrphans(wl, cutoff, order);
      }
      if ok {
        NothingLeft(w0, wk, wl, env.View(), cutoff, order, drop, env.backend);
      }
    }

    method ExpireKeys(pid: Pid, ghost known: set<Key>, ghost cutoff: Time)
      returns (ok: bool, expired: nat, ghost before: Time)
      requires At(pid, Reclaiming(known, cutoff, []))
      modifies env, env.backend, env.repo
      ensures env.Valid() && Sure() && Moved() && (steady ==> ok) && (ok ==> At(pid, Finished))
      ensures ok || CallFailed(pid)
      ensures env.alone ==> env.repo.files == old(env.repo.files) && env.backend.objects == old(env.backend.objects)
      ensures env.alone ==> |old(env.repo.keys)| == |env.repo.keys| + expired
      ensures env.alone && ok ==>
        env.repo.keys == if env.c.ttl <= 0 then old(env.repo.keys) else Unexpired(old(env.repo.keys), before)
      ensures ok && env.c.ttl > 0 ==> NoneExpired(env.repo.keys, before)
      ensures old(env.now) <= before + env.c.ttl <= env.now
    {
      hide Sound, Run, Keeps, Between, UploadNext, DownloadNext, Stamp, PhaseFailed;
      var w := env.View();
      env.Record(w, Sw(pid, Done));
      KeepsStep(env.c, w, Sw(pid, Done));
      ok, expired, before := true, 0, env.now - env.c.ttl;
      if env.c.ttl > 0 {
        ghost var w1, mid := env.View(), env.trace;
        ok, expired := PurgeKeys(pid, env.now - env.c.ttl);
        KeepsTrans(w, w1, env.View());
        FailedSooner(env.c, env.start, env.trace, |old(env.trace)|, |mid|, pid);
      }
    }

    method PurgeKeys(pid: Pid, before: Time) returns (ok: bool, expired: nat)
      requires At(pid, Expiring(before))
      modifies env, env.backend, env.repo
      ensures At(pid, Finished) && Moved() && (steady ==> ok) && (!ok ==> CallFailed(pid))
      ensures ok ==> NoneExpired(env.repo.keys, before)
      ensures env.alone ==> env.repo.files == old(env.repo.files) && env.backend.objects == old(env.backend.objects)
      ensures env.alone ==> env.repo.keys == if ok then Unexpired(old(env.repo.keys), before) else old(env.repo.keys)
      ensures env.alone ==> |old(env.repo.keys)| == |env.repo.keys| + expired
    {
      hide Sound, Run, Keeps, Between, UploadNext, DownloadNext, Stamp, Unexpired, NoneExpired, PhaseFailed, Init,
        FailedAt, Abandoned;
      env.Yield(pid);
      var w := env.View();
      ghost var mid := env.trace;
      ok, expired := env.repo.PurgeIdempotencyKeys(before);
      UnexpiredLeft(w.keys, before);
      var l := Sw(pid, if ok then Done else Failure);
      env.Record(w, l);
      KeepsThenStep(env.c, old(env.View()), w, l);
      if !ok {
        JustFailed(w, mid, |old(env.trace)|, pid);
      }
    }

    method Launch(pid: Pid)
      requires env.Valid() && pid !in env.sweeps && Sure()
      modifies env, env.backend, env.repo
      ensures At(pid, Starting) && Moved() && Untouched()
    {
      hide Sound, Run, Keeps, Between, UploadNext, DownloadNext, Stamp;
      var w := env.View();
      env.Record(w, Sw(pid, Protocol.Launch));
      KeepsStep(env.c, w, Sw(pid, Protocol.Launch));
    }

    // The purge phase from the start of a sweep.
    method PurgePhase(pid: Pid) returns (ok: bool, purged: nat, ghost picked: seq<Id>)
      requires env.Valid() && pid !in env.sweeps && Sure()
      modifies env, env.backend, env.repo, ctx
      ensures env.Valid() && Sure() && Moved() && (steady ==> ok) && (ok ==> At(pid, Purging([])))
      ensures ok || ctx.done || CallFailed(pid)
      ensures env.alone ==> Accounted(old(env.View()), env.View(), Stats(purged, 0, 0))
      ensures env.alone ==> Unnamed(env.View()) == old(Unnamed(env.View())) && Shrunk(old(env.View()), env.View())
      ensures env.alone && ok ==> PurgedFirm(env.c, old(env.View()), env.View(), picked, env.backend, env.repo)
      ensures env.alone && steady ==> PurgedExactly(env.c, old(env.View()), env.View(), picked)
    {
      ghost var w0 := env.View();
      hide Sound, Run, Keeps, Between, Next, OldestDeleted, Accounted, Ids, KeysOf, PurgedFirm, PhaseFailed;
      Launch(pid);
      ghost var w1, mid := env.View(), env.trace;
      ok, purged, picked := PurgeDeleted(pid);
      KeepsTrans(w0, w1, env.View());
      FailedSooner(env.c, env.start, env.trace, |old(env.trace)|, |mid|, pid);
      if env.alone {
        AccountPurge(w0, w1, env.View(), purged);
        if ok {
          FirmFrom(env.c, w0, w1, env.View(), picked, env.backend, env.repo);
        }
      }
    }

    // The orphan phase, then the key expiry.
    method ReclaimPhase(pid: Pid) returns (ok: bool, stats: Stats, cutoff: Time, ghost before: Time)
      requires At(pid, Purging([]))
      modifies env, env.backend, env.repo, ctx
      ensures env.Valid() && Sure() && Moved() && (steady ==> ok)
      ensures ok || ctx.done || CallFailed(pid)
      ensures env.alone ==> Accounted(old(env.View()), env.View(), stats) && Shrunk(old(env.View()), env.View())
      ensures ok ==> Swept(old(env.View()), env.View(), cutoff, env.backend)
      ensures ok && env.alone ==> OrphansFirm(old(env.View()), env.View(), cutoff, env.backend)
      ensures ok && env.c.ttl > 0 ==> NoneExpired(env.repo.keys, before)
      ensures steady && env.alone ==> ReclaimedExactly(env.c, old(env.View()), env.View(), cutoff, before)
      ensures ok ==> old(env.now) <= cutoff + env.c.grace <= env.now && old(env.now) <= before + env.c.ttl <= env.now
    {
      hide Sound, Run, Keeps, Between, Next, Swept, Accounted, At, Unnamed, Overdue, ReclaimedTo;
      hide ReclaimedExactly, Init, PhaseFailed, NoneExpired, FirmTaken, Shrunk, OrphansFirm;
      ghost var w0 := env.View();
      before := 0;
      var known; ghost var drop; var orphans;
      ok, orphans, known, cutoff, drop := ReclaimOrphans(pid);
      stats := Stats(0, orphans, 0);
      ghost var mid := env.trace;
      if ok {
        ok, stats, before := ExpirePhase(pid, known, cutoff, w0, orphans, drop);
        FailedSooner(env.c, env.start, env.trace, |old(env.trace)|, |mid|, pid);
      } else if env.alone {
        AccountOrphans(w0, env.View(), drop);
        OrphansShrink(w0, env.View(), drop);
      }
    }

    // The end of a sweep whose reclaiming began in `w0` and took `drop`.
    method ExpirePhase(pid: Pid, ghost known: set<Key>, ghost cutoff: Time, ghost w0: World, orphans: nat,
                       ghost drop: set<Key>)
      returns (ok: bool, stats: Stats, ghost before: Time)
      requires At(pid, Reclaiming(known, cutoff, [])) && Keeps(w0, env.View())
      requires env.alone ==> ReclaimedTo(w0, env.View(), drop) && |drop| == orphans && drop <= Unnamed(w0)
      requires env.alone ==> FirmTaken(env.backend, Overdue(w0, cutoff), drop)
      requires Swept(w0, env.View(), cutoff, env.backend) && (steady && env.alone ==> drop == Overdue(w0, cutoff))
      modifies env, env.backend, env.repo
      ensures env.Valid() && Sure() && Moved() && Keeps(w0, env.View()) && (steady ==> ok)
      ensures ok || CallFailed(pid)
      ensures env.alone ==> Accounted(w0, env.View(), stats) && Shrunk(w0, env.View())
      ensures Swept(w0, env.View(), cutoff, env.backend)
      ensures env.alone ==> OrphansFirm(w0, env.View(), cutoff, env.backend)
      ensures ok && env.c.ttl > 0 ==> NoneExpired(env.repo.keys, before)
      ensures steady && env.alone ==> ReclaimedExactly(env.c, w0, env.View(), cutoff, before)
      ensures old(env.now) <= before + env.c.ttl <= env.now
    {
      hide Sound, Run, Keeps, Between, Next, Swept, Unexpired, Accounted, Unnamed, Overdue, ReclaimedTo;
      hide ReclaimedExactly, NoneExpired, Init, PhaseFailed, FirmTaken, Shrunk, OrphansFirm;
      ghost var w1 := env.View();
      if env.alone {
        AccountOrphans(w0, w1, drop);
        OrphansShrink(w0, w1, drop);
      }
      var expired;
      ok, expired, before := ExpireKeys(pid, known, cutoff);
      stats := Stats(0, orphans, expired);
      KeepsTrans(w0, w1, env.View());
      SweptAfter(w0, w1, env.View(), cutoff, env.backend);
      if env.alone {
        AccountKeys(w1, env.View(), expired);
        AccountBoth(w0, w1, env.View(), Stats(0, orphans, 0), Stats(0, 0, expired));
        FirmOrphans(w0, w1, env.View(), cutoff, drop, env.backend);
        if steady {
          ReclaimExactly(env.c, w0, w1, env.View(), cutoff, before);
        }
      }
    }

    // One pass. It stops early only if its context is cancelled or one of the
    // calls its phases hang on fails. Whatever fails, a pass that runs alone is
    // fully accounted for. A pass that reaches its end leaves nothing abandoned
    // that its cutoff reaches, whoever else is running, unless that very delete
    // failed; alone, the same holds of the batch it picked; and if no call
    // fails, its result is exactly known.
    method RunOnce(pid: Pid) returns (ok: bool, stats: Stats, ghost picked: seq<Id>, cutoff: Time, ghost before: Time)
      requires env.Valid() && pid !in env.sweeps && Sure()
      modifies env, env.backend, env.repo, ctx
      ensures env.Valid() && Sure() && Moved() && (steady ==> ok)
      ensures ok || ctx.done || CallFailed(pid)
      ensures env.alone ==> Accounted(old(env.View()), env.View(), stats)
      ensures ok ==> Swept(old(env.View()), env.View(), cutoff, env.backend)
      ensures ok && env.alone ==> PurgedFirm(env.c, old(env.View()), env.View(), picked, env.backend, env.repo)
      ensures ok && env.alone ==> OrphansFirm(old(env.View()), env.View(), cutoff, env.backend)
      ensures ok && env.c.ttl > 0 ==> NoneExpired(env.repo.keys, before)
      ensures steady && env.alone ==> Collected(env.c, old(env.View()), env.View(), picked, cutoff, before)
      ensures ok ==> old(env.now) <= cutoff + env.c.grace <= env.now && old(env.now) <= before + env.c.ttl <= env.now
    {
      ghost var w0 := env.View();
      hide Sound, Run, Keeps, Between, Next, Swept, Accounted, PurgedExactly, ReclaimedExactly, Collected, At;
      hide PhaseFailed, NoneExpired, PurgedFirm, OrphansFirm, Shrunk, Unnamed, Init;
      cutoff, before := 0, 0;
      var purged, rest;
      ok, purged, picked := PurgePhase(pid);
      stats := Stats(purged, 0, 0);
      if ok {
        ghost var w1, mid := env.View(), env.trace;
        ok, rest, cutoff, before := ReclaimPhase(pid);
        KeepsTrans(w0, w1, env.View());
        FailedSooner(env.c, env.start, env.trace, |old(env.trace)|, |mid|, pid);
        if env.alone {
          AccountBoth(w0, w1, env.View(), stats, rest);
          FirmStays(env.c, w0, w1, env.View(), picked, env.backend, env.repo);
          if ok {
            FirmBefore(w0, w1, env.View(), cutoff, env.backend);
          }
        }
        if ok {
          SweptBefore(w0, w1, env.View(), cutoff, env.backend);
        }
        if steady && env.alone {
          CollectExactly(env.c, w0, w1, env.View(), picked, cutoff, before);
        }
        stats := Plus(stats, rest);
      }
    }
  }
}
