/** No sweep ever destroys a live file, and exactly when that is so.

    `D` bounds how long after its object was last modified an upload may still
    commit; `S` bounds how long after reading the storage keys a sweep fixes its
    cutoff. Nothing in the code enforces either, so they are assumptions on the
    run. */
module Safety {
  import opened Types
  import opened Protocol
  import opened Soundness

  // The file's row and its object agree that the bytes that were put are there.
  ghost predicate BackedFile(w: World, id: Id)
    requires id in w.files
  {
    var k := w.files[id].key;
    k in w.objects && k in w.hist.stored && w.objects[k].data == w.hist.stored[k].data
  }

  ghost predicate Backed(w: World) {
    forall i :: IsLive(w.files, i) ==> BackedFile(w, i)
  }

  // The assumption on one step: commits and cutoffs are not late.
  ghost predicate TimelyStep(D: nat, S: nat, w: World, l: Label) {
    match l
    case Up(pid, Ok) =>
      pid in w.uploads && Commits(w, w.uploads[pid]) && w.uploads[pid].file.key in w.hist.stored ==>
        w.now - w.hist.stored[w.uploads[pid].file.key].modTime <= D
    case Sw(pid, Done) =>
      pid in w.sweeps && w.sweeps[pid].Cutting? ==> w.now - w.sweeps[pid].at <= S
    case _ => true
  }

  ghost predicate Timely(c: Config, D: nat, S: nat, w: World, ls: seq<Label>) {
    ls != [] ==>
      Timely(c, D, S, w, ls[..|ls| - 1]) && TimelyStep(D, S, Run(c, w, ls[..|ls| - 1]), ls[|ls| - 1])
  }

  // ---- the invariant -----------------------------------------------------

  // Live rows the sweep does not know of have objects newer than `bound`.
  ghost predicate Shielded(w: World, known: set<Key>, bound: Time) {
    forall i :: IsLive(w.files, i) && w.files[i].key !in known && w.files[i].key in w.hist.stored ==>
      w.hist.stored[w.files[i].key].modTime > bound
  }

  // Whatever a sweep may reclaim is too old for any upload to still commit.
  ghost predicate SweepGuarded(D: nat, w: World, s: Sweep) {
    match s
    case Cutting(known, at) => Shielded(w, known, at - D - 1)
    case Enumerating(known, cutoff) => cutoff + D < w.now && Shielded(w, known, cutoff)
    case Reclaiming(known, cutoff, _) => cutoff + D < w.now && Shielded(w, known, cutoff)
    case _ => true
  }

  // A staged object is there unless its upload is already too late to commit.
  ghost predicate UploadGuarded(D: nat, w: World, u: Upload) {
    (u.Sizing? || u.Committing?) && u.file.key in w.hist.stored ==>
      u.file.key in w.objects || w.now - w.hist.stored[u.file.key].modTime > D
  }

  ghost predicate Guarded(D: nat, w: World) {
    && (forall i :: IsLive(w.files, i) ==> w.files[i].key in w.objects)
    && (forall p :: p in w.uploads ==> UploadGuarded(D, w, w.uploads[p]))
    && (forall p :: p in w.sweeps ==> SweepGuarded(D, w, w.sweeps[p]))
  }

  lemma GuardedBacked(c: Config, D: nat, w: World)
    requires Sound(c, w) && Guarded(D, w)
    ensures Backed(w)
  {
  }

  // ---- one lemma per effect ----------------------------------------------

  // Rows may go and time may pass: a guarded sweep stays guarded.
  lemma SweepCalm(D: nat, w: World, w': World, s: Sweep)
    requires SweepGuarded(D, w, s) && w.now <= w'.now && w'.hist.stored == w.hist.stored
    requires forall i :: IsLive(w'.files, i) ==> IsLive(w.files, i) && w'.files[i] == w.files[i]
    ensures SweepGuarded(D, w', s)
  {
  }

  lemma FewerRowsGuarded(D: nat, w: World, w': World)
    requires Guarded(D, w) && w.now <= w'.now && w'.hist.stored == w.hist.stored && w'.objects == w.objects
    requires w'.uploads == w.uploads && w'.sweeps == w.sweeps
    requires forall i :: IsLive(w'.files, i) ==> IsLive(w.files, i) && w'.files[i] == w.files[i]
    ensures Guarded(D, w')
  {
    forall p | p in w'.sweeps ensures SweepGuarded(D, w', w'.sweeps[p]) {
      SweepCalm(D, w, w', w.sweeps[p]);
    }
    forall p | p in w'.uploads ensures UploadGuarded(D, w', w'.uploads[p]) {
      assert UploadGuarded(D, w, w.uploads[p]);
    }
  }

  // A process moves, or stops, while objects and rows stay.
  lemma MoveGuarded(D: nat, w: World, w': World)
    requires Guarded(D, w) && w.now == w'.now && w'.hist.stored == w.hist.stored
    requires w'.objects == w.objects && w'.files == w.files
    requires forall p :: p in w'.uploads ==>
      (p in w.uploads && w'.uploads[p] == w.uploads[p]) || UploadGuarded(D, w, w'.uploads[p])
    requires forall p :: p in w'.sweeps ==>
      (p in w.sweeps && w'.sweeps[p] == w.sweeps[p]) || SweepGuarded(D, w, w'.sweeps[p])
    ensures Guarded(D, w')
  {
    forall p | p in w'.sweeps ensures SweepGuarded(D, w', w'.sweeps[p]) {
      assert SweepGuarded(D, w, w'.sweeps[p]);
    }
    forall p | p in w'.uploads ensures UploadGuarded(D, w', w'.uploads[p]) {
      assert UploadGuarded(D, w, w'.uploads[p]);
    }
  }

  lemma GotoGuarded(D: nat, w: World, pid: Pid, u: Upload)
    requires Guarded(D, w) && UploadGuarded(D, w, u)
    ensures Guarded(D, Goto(w, pid, u))
  {
    MoveGuarded(D, w, Goto(w, pid, u));
  }

  lemma SeekGuarded(D: nat, w: World, pid: Pid, s: Sweep)
    requires Guarded(D, w) && SweepGuarded(D, w, s)
    ensures Guarded(D, Seek(w, pid, s))
  {
    MoveGuarded(D, w, Seek(w, pid, s));
  }

  lemma DropGuarded(D: nat, w: World, t: World, keys: set<Key>)
    requires Guarded(D, w) && t == w.(objects := w.objects - keys)
    requires forall i :: IsLive(w.files, i) ==> w.files[i].key !in keys
    requires forall p :: p in w.uploads && w.uploads[p].Holds() && w.uploads[p].file.key in keys ==>
      var k := w.uploads[p].file.key;
      w.uploads[p].Discarding? || (k in w.hist.stored && w.now - w.hist.stored[k].modTime > D)
    ensures Guarded(D, t)
  {
    forall p | p in w.sweeps ensures SweepGuarded(D, t, w.sweeps[p]) {
      SweepCalm(D, w, t, w.sweeps[p]);
    }
    forall p | p in w.uploads ensures UploadGuarded(D, t, w.uploads[p]) {
      assert UploadGuarded(D, w, w.uploads[p]);
    }
  }

  lemma PutGuarded(D: nat, w: World, key: Key, data: Bytes)
    requires Guarded(D, w) && key !in w.hist.stored
    requires forall i :: IsLive(w.files, i) ==> w.files[i].key in w.hist.stored
    ensures Guarded(D, Put(w, key, data))
  {
    var w' := Put(w, key, data);
    forall p | p in w.sweeps ensures SweepGuarded(D, w', w.sweeps[p]) {
      assert SweepGuarded(D, w, w.sweeps[p]);
    }
    forall p | p in w.uploads ensures UploadGuarded(D, w', w.uploads[p]) {
      assert UploadGuarded(D, w, w.uploads[p]);
    }
  }

  // The new row's object is young enough to be shielded from every sweep.
  lemma InsertGuarded(D: nat, w: World, w': World, f: File)
    requires Guarded(D, w) && w'.now == w.now && w'.objects == w.objects && w'.hist.stored == w.hist.stored
    requires w'.uploads == w.uploads && w'.sweeps == w.sweeps && w'.files == w.files[f.id := f.ToRow()]
    requires f.key in w.objects && f.key in w.hist.stored && w.now - w.hist.stored[f.key].modTime <= D
    requires forall p :: p in w.sweeps && w.sweeps[p].Cutting? ==> w.sweeps[p].at <= w.now
    ensures Guarded(D, w')
  {
    forall i | IsLive(w'.files, i) && i != f.id ensures IsLive(w.files, i) && w'.files[i] == w.files[i] {
    }
    forall p | p in w.sweeps ensures SweepGuarded(D, w', w.sweeps[p]) {
      assert SweepGuarded(D, w, w.sweeps[p]);
    }
    forall p | p in w.uploads ensures UploadGuarded(D, w', w.uploads[p]) {
      assert UploadGuarded(D, w, w.uploads[p]);
    }
  }

  // ---- whose object it is ------------------------------------------------

  lemma LiveKeys(c: Config, w: World)
    requires Sound(c, w)
    ensures forall i :: IsLive(w.files, i) ==> w.files[i].key in w.hist.stored
    ensures forall i, d :: IsLive(w.files, i) && DoomedOk(w.hist, d) ==> d.key != w.files[i].key
  {
    forall i, d | IsLive(w.files, i) && DoomedOk(w.hist, d) ensures d.key != w.files[i].key {
      assert d.id != i;
    }
  }

  lemma HeldKeys(c: Config, w: World, p: Pid)
    requires Sound(c, w) && p in w.uploads && w.uploads[p].Holds()
    ensures forall i :: IsLive(w.files, i) ==> w.uploads[p].file.key != w.files[i].key
    ensures forall d :: DoomedOk(w.hist, d) ==> d.key != w.uploads[p].file.key
    ensures forall q :: q in w.uploads && q != p && w.uploads[q].Holds() ==>
      w.uploads[q].file.key != w.uploads[p].file.key
  {
    assert UploadSound(c, w.hist, w.uploads[p]);
    forall q | q in w.uploads && q != p && w.uploads[q].Holds()
      ensures w.uploads[q].file.key != w.uploads[p].file.key
    {
      assert Disjoint(w.uploads[q], w.uploads[p]);
    }
  }

  lemma DoomedNotHeld(c: Config, w: World, d: Doomed)
    requires Sound(c, w) && DoomedOk(w.hist, d)
    ensures forall p :: p in w.uploads && w.uploads[p].Holds() ==> w.uploads[p].file.key != d.key
  {
    forall p | p in w.uploads && w.uploads[p].Holds() ensures w.uploads[p].file.key != d.key {
      HeldKeys(c, w, p);
    }
  }

  // ---- one lemma per kind of process -------------------------------------

  lemma CutsPast(c: Config, w: World)
    requires Sound(c, w)
    ensures forall p :: p in w.sweeps && w.sweeps[p].Cutting? ==> w.sweeps[p].at <= w.now
  {
    forall p | p in w.sweeps && w.sweeps[p].Cutting? ensures w.sweeps[p].at <= w.now {
      assert SweepSound(w, w.sweeps[p]);
    }
  }

  lemma UploadOkGuarded(c: Config, D: nat, w: World, pid: Pid)
    requires Sound(c, w) && Guarded(D, w) && pid in w.uploads && TimelyStep(D, 0, w, Up(pid, Ok))
    ensures Guarded(D, Goto(OkTables(w, w.uploads[pid]), pid, AfterOk(w, w.uploads[pid])))
  {
    var u := w.uploads[pid];
    var t := OkTables(w, u);
    assert UploadSound(c, w.hist, u) && UploadGuarded(D, w, u);
    if Commits(w, u) {
      CutsPast(c, w);
      hide Sound;
      InsertGuarded(D, w, t, u.file);
    } else if u.Discarding? {
      HeldKeys(c, w, pid);
      hide Sound;
      DropGuarded(D, w, t, {u.file.key});
    } else {
      hide Sound;
      FewerRowsGuarded(D, w, t);
    }
    assert UploadGuarded(D, t, AfterOk(w, u));
    hide Guarded, OkTables, AfterOk;
    GotoGuarded(D, t, pid, AfterOk(w, u));
  }

  lemma PutStepGuarded(c: Config, D: nat, w: World, pid: Pid, data: Bytes, u': Upload)
    requires Sound(c, w) && Guarded(D, w) && pid in w.uploads && w.uploads[pid].Storing?
    requires u'.Holds() ==> u'.file.key == w.uploads[pid].file.key
    ensures Guarded(D, Goto(Put(w, w.uploads[pid].file.key, data), pid, u'))
  {
    assert UploadSound(c, w.hist, w.uploads[pid]);
    LiveKeys(c, w);
    var t := Put(w, w.uploads[pid].file.key, data);
    PutGuarded(D, w, w.uploads[pid].file.key, data);
    hide Sound, Guarded;
    GotoGuarded(D, t, pid, u');
  }

  lemma UploadStepGuarded(c: Config, D: nat, w: World, pid: Pid, a: UploadAct)
    requires Sound(c, w) && Guarded(D, w) && TimelyStep(D, 0, w, Up(pid, a))
    ensures Guarded(D, UploadNext(c, w, pid, a))
  {
    assert pid in w.uploads ==> UploadGuarded(D, w, w.uploads[pid]);
    hide Sound, Guarded, OkTables, AfterOk;
    if a.Begin? {
      GotoGuarded(D, w, pid, if a.guard.None? then Naming(None) else Claiming(a.guard.value));
    } else if pid in w.uploads {
      var u := w.uploads[pid];
      match a
      case Ok => UploadOkGuarded(c, D, w, pid);
      case Err => GotoGuarded(D, w, pid, AfterErr(u));
      case PutOk(data, size) =>
        if u.Storing? {
          PutStepGuarded(c, D, w, pid, data, AfterPut(c, u, data, size));
        }
      case PutErr(partial) =>
        if u.Storing? {
          if partial.Some? {
            PutStepGuarded(c, D, w, pid, partial.value, GiveUp(u.claim));
          } else {
            GotoGuarded(D, w, pid, GiveUp(u.claim));
          }
        }
      case Draw(id, key) =>
        if u.Naming? {
          FewerRowsGuarded(D, w, DrawNames(w, id, key));
          GotoGuarded(D, DrawNames(w, id, key), pid, Storing(u.claim, File(id, key, 0, "")));
        }
      case Crash => MoveGuarded(D, w, UploadNext(c, w, pid, a));
    }
  }

  // Nobody who could still use them needs these objects.
  ghost predicate Spare(D: nat, w: World, keys: set<Key>) {
    && (forall i :: IsLive(w.files, i) ==> w.files[i].key !in keys)
    && forall p :: p in w.uploads && w.uploads[p].Holds() && w.uploads[p].file.key in keys ==>
         var k := w.uploads[p].file.key;
         w.uploads[p].Discarding? || (k in w.hist.stored && w.now - w.hist.stored[k].modTime > D)
  }

  // A doomed object is no live file's and no upload's.
  lemma DoomedSpare(c: Config, D: nat, w: World, d: Doomed)
    requires Sound(c, w) && DoomedOk(w.hist, d)
    ensures Spare(D, w, {d.key})
  {
    LiveKeys(c, w);
    DoomedNotHeld(c, w, d);
    hide Sound;
  }

  // An object listed before the cutoff is no live file's, and its upload can no
  // longer commit.
  lemma ListedSpare(D: nat, w: World, known: set<Key>, cutoff: Time, o: Listed)
    requires SweepGuarded(D, w, Reclaiming(known, cutoff, [o])) && ListedOk(w.hist, o) && Reclaimable(known, cutoff, o)
    requires forall i :: IsLive(w.files, i) ==> w.files[i].key in w.hist.stored
    ensures Spare(D, w, {o.key})
  {
  }

  lemma DropsSpare(c: Config, D: nat, w: World, s: Sweep)
    requires Sound(c, w) && SweepSound(w, s) && SweepGuarded(D, w, s)
    ensures Drops(s) == {} || Spare(D, w, Drops(s))
  {
    LiveKeys(c, w);
    hide Sound, Spare, Reclaimable;
    match s
    case Purging(todo) =>
      if todo != [] {
        DoomedSpare(c, D, w, todo[0]);
      }
    case Reclaiming(known, cutoff, objects) =>
      if objects != [] && Reclaimable(known, cutoff, objects[0]) {
        ListedSpare(D, w, known, cutoff, objects[0]);
      }
    case _ =>
  }

  lemma DropsGuarded(c: Config, D: nat, w: World, pid: Pid)
    requires Sound(c, w) && Guarded(D, w) && pid in w.sweeps
    ensures Guarded(D, w.(objects := w.objects - Drops(w.sweeps[pid])))
  {
    assert SweepSound(w, w.sweeps[pid]) && SweepGuarded(D, w, w.sweeps[pid]);
    hide Sound, Guarded, Spare, Drops, SweepSound, SweepGuarded;
    DropsSpare(c, D, w, w.sweeps[pid]);
    DropSpare(D, w, Drops(w.sweeps[pid]));
  }

  lemma DropSpare(D: nat, w: World, keys: set<Key>)
    requires Guarded(D, w) && (keys == {} || Spare(D, w, keys))
    ensures Guarded(D, w.(objects := w.objects - keys))
  {
    hide Guarded;
    DropGuarded(D, w, w.(objects := w.objects - keys), keys);
  }

  // The cutoff lies so far back that no row the sweep missed reaches it.
  lemma AfterDoneGuarded(c: Config, D: nat, S: nat, w: World, pid: Pid)
    requires Sound(c, w) && Guarded(D, w) && pid in w.sweeps && TimelyStep(D, S, w, Sw(pid, Done)) && D + S < c.grace
    ensures SweepGuarded(D, w, AfterDone(c, w, w.sweeps[pid]))
  {
    var s := w.sweeps[pid];
    assert SweepSound(w, s) && SweepGuarded(D, w, s);
    hide Sound, Guarded;
  }

  lemma SweepDoneGuarded(c: Config, D: nat, S: nat, w: World, pid: Pid)
    requires Sound(c, w) && Guarded(D, w) && pid in w.sweeps && TimelyStep(D, S, w, Sw(pid, Done)) && D + S < c.grace
    ensures Guarded(D, Seek(DoneTables(w, w.sweeps[pid]), pid, AfterDone(c, w, w.sweeps[pid])))
  {
    var s := w.sweeps[pid];
    DropsGuarded(c, D, w, pid);
    AfterDoneGuarded(c, D, S, w, pid);
    hide Sound, Drops, AfterDone;
    var t0, t := w.(objects := w.objects - Drops(s)), DoneTables(w, s);
    FewerRowsGuarded(D, t0, t);
    SweepCalm(D, w, t, AfterDone(c, w, s));
    hide Guarded, DoneTables, SweepGuarded;
    SeekGuarded(D, t, pid, AfterDone(c, w, s));
  }

  lemma SweepStepGuarded(c: Config, D: nat, S: nat, w: World, pid: Pid, a: SweepAct)
    requires Sound(c, w) && Guarded(D, w) && TimelyStep(D, S, w, Sw(pid, a)) && D + S < c.grace
    ensures Guarded(D, SweepNext(c, w, pid, a))
  {
    assert pid in w.sweeps ==> SweepGuarded(D, w, w.sweeps[pid]);
    hide Sound, Guarded, DoneTables, AfterDone;
    if a.Launch? {
      SeekGuarded(D, w, pid, Starting);
    } else if pid in w.sweeps {
      var s := w.sweeps[pid];
      match a
      case Done => SweepDoneGuarded(c, D, S, w, pid);
      case Failure => SeekGuarded(D, w, pid, AfterFailure(s));
      case Stop => MoveGuarded(D, w, SweepNext(c, w, pid, a));
      case Rows(picked) =>
        if SweepNext(c, w, pid, a) != w {
          SeekGuarded(D, w, pid, Purging(Records(w.files, picked)));
        }
      case Enumerated(order) =>
        if SweepNext(c, w, pid, a) != w {
          SeekGuarded(D, w, pid, Reclaiming(s.known, s.cutoff, Listing(w.objects, order)));
        }
    }
  }

  lemma DownloadGuarded(D: nat, w: World, pid: Pid, a: DownloadAct)
    requires Guarded(D, w)
    ensures Guarded(D, DownloadNext(w, pid, a))
  {
    FewerRowsGuarded(D, w, DownloadNext(w, pid, a));
  }

  lemma StepGuarded(c: Config, D: nat, S: nat, w: World, l: Label)
    requires Sound(c, w) && Guarded(D, w) && TimelyStep(D, S, w, l) && D + S < c.grace
    ensures Guarded(D, Next(c, w, l))
  {
    hide Sound, Guarded, UploadNext, SweepNext, DownloadNext;
    match l
    case Up(pid, a) => UploadStepGuarded(c, D, w, pid, a);
    case Sw(pid, a) => SweepStepGuarded(c, D, S, w, pid, a);
    case Dn(pid, a) => DownloadGuarded(D, w, pid, a);
    case _ => FewerRowsGuarded(D, w, Next(c, w, l));
  }

  lemma {:induction false} RunGuarded(c: Config, D: nat, S: nat, w: World, ls: seq<Label>)
    requires Sound(c, w) && Guarded(D, w) && Timely(c, D, S, w, ls) && D + S < c.grace
    ensures Sound(c, Run(c, w, ls)) && Guarded(D, Run(c, w, ls))
  {
    hide Sound, Guarded;
    if ls == [] {
    } else {
      var n := |ls| - 1;
      RunGuarded(c, D, S, w, ls[..n]);
      StepSound(c, Run(c, w, ls[..n]), ls[n]);
      StepGuarded(c, D, S, Run(c, w, ls[..n]), ls[n]);
    }
  }

  // ---- the theorem and its exact condition -------------------------------

  lemma InitGuarded(c: Config, D: nat, t: Time)
    ensures Sound(c, Init(t)) && Guarded(D, Init(t))
  {
  }

  // In every reachable state of any number of interleaved uploads, deletes,
  // crashes and sweeps, every live file still has the bytes that were put.
  lemma LiveFilesSurvive(c: Config, D: nat, S: nat, t: Time, ls: seq<Label>)
    requires D + S < c.grace && Timely(c, D, S, Init(t), ls)
    ensures Backed(Run(c, Init(t), ls))
  {
    InitGuarded(c, D, t);
    RunGuarded(c, D, S, Init(t), ls);
    GuardedBacked(c, D, Run(c, Init(t), ls));
  }

  lemma TimelySnoc(c: Config, D: nat, S: nat, w: World, ls: seq<Label>, l: Label)
    requires Timely(c, D, S, w, ls) && TimelyStep(D, S, Run(c, w, ls), l)
    ensures Timely(c, D, S, w, ls + [l]) && Run(c, w, ls + [l]) == Next(c, Run(c, w, ls), l)
  {
    assert (ls + [l])[..|ls|] == ls;
  }

  // An upload that commits between a sweep's key snapshot and its cutoff.
  function StagedWorld(t: Time, now: Time, f: File, sweeps: map<Pid, Sweep>): World {
    var o := Object([], t);
    World(now, map[0 := o], map[], map[], map[0 := Committing(None, f)], sweeps, map[],
          History({0}, {0}, map[0 := o], map[], {}, {}))
  }

  lemma StageUpload(c: Config, D: nat, S: nat, t: Time) returns (ls: seq<Label>)
    ensures Timely(c, D, S, Init(t), ls)
    ensures Run(c, Init(t), ls) == StagedWorld(t, t, File(0, 0, 0, c.hash([])), map[])
  {
    ls := [Up(0, Begin(None))];
    assert ls[..0] == [];
    TimelySnoc(c, D, S, Init(t), ls, Up(0, Draw(0, 0)));
    ls := ls + [Up(0, Draw(0, 0))];
    TimelySnoc(c, D, S, Init(t), ls, Up(0, PutOk([], 0)));
    ls := ls + [Up(0, PutOk([], 0))];
  }

  lemma SnapshotOfNoRows(c: Config, w: World)
    requires w.files == map[] && 0 !in w.sweeps
    ensures Next(c, Next(c, Next(c, w, Sw(0, Launch)), Sw(0, Rows([]))), Sw(0, Done))
         == w.(sweeps := w.sweeps[0 := Cutting({}, w.now)])
  {
    assert Records(w.files, []) == [];
    assert StorageKeys(w.files) == {};
  }

  lemma StageThenSnapshot(c: Config, D: nat, S: nat, t: Time) returns (ls: seq<Label>)
    ensures Timely(c, D, S, Init(t), ls)
    ensures Run(c, Init(t), ls) == StagedWorld(t, t + D, File(0, 0, 0, c.hash([])), map[0 := Cutting({}, t + D)])
  {
    hide UploadNext, DownloadNext, Stamp;
    var w, f := Init(t), File(0, 0, 0, c.hash([]));
    ls := StageUpload(c, D, S, t);
    TimelySnoc(c, D, S, w, ls, Tick(D));
    ls := ls + [Tick(D)];
    SnapshotOfNoRows(c, StagedWorld(t, t + D, f, map[]));
    TimelySnoc(c, D, S, w, ls, Sw(0, Launch));
    TimelySnoc(c, D, S, w, ls + [Sw(0, Launch)], Sw(0, Rows([])));
    TimelySnoc(c, D, S, w, ls + [Sw(0, Launch)] + [Sw(0, Rows([]))], Sw(0, Done));
    ls := ls + [Sw(0, Launch)] + [Sw(0, Rows([]))] + [Sw(0, Done)];
  }

  // The same upload, committed at `at`, with the sweep past its cutoff.
  function CommittedWorld(t: Time, at: Time, now: Time, f: File, sweeps: map<Pid, Sweep>): World {
    StagedWorld(t, now, f, sweeps).(
      files := map[f.id := f.ToRow()], uploads := map[0 := Returned(Created(f.id))],
      hist := History({0}, {0}, map[0 := Object([], t)], map[f.id := f.ToRow()], {}, {}))
  }

  lemma CommitThenCutoff(c: Config, t: Time, D: nat, S: nat)
    ensures var f := File(0, 0, 0, c.hash([]));
      var w0 := StagedWorld(t, t + D, f, map[0 := Cutting({}, t + D)]);
      var w1 := CommittedWorld(t, t + D, t + D, f, map[0 := Cutting({}, t + D)]);
      Next(c, w0, Up(0, Ok)) == w1
      && Next(c, Next(c, w1, Tick(S)), Sw(0, Done))
         == CommittedWorld(t, t + D, t + D + S, f, map[0 := Enumerating({}, t + D + S - c.grace)])
  {
  }

  // Whenever the grace period is not longer than both bounds together, a timely
  // run loses a live file: the cutoff is fixed after the keys were read, and an
  // object exactly as old as the cutoff is reclaimed.
  lemma LateCutoffDestroys(c: Config, D: nat, S: nat, t: Time) returns (ls: seq<Label>)
    requires D + S >= c.grace
    ensures Timely(c, D, S, Init(t), ls) && !Backed(Run(c, Init(t), ls))
  {
    var w, f := Init(t), File(0, 0, 0, c.hash([]));
    ls := StageThenSnapshot(c, D, S, t);
    CommitThenCutoff(c, t, D, S);
    TimelySnoc(c, D, S, w, ls, Up(0, Ok));
    ls := ls + [Up(0, Ok)];
    TimelySnoc(c, D, S, w, ls, Tick(S));
    ls := ls + [Tick(S)];
    TimelySnoc(c, D, S, w, ls, Sw(0, Done));
    ls := ls + [Sw(0, Done)];
    ReclaimLiveObject(c, D, S, t, t + D, t + D + S, t + D + S - c.grace, f, ls);
    ls := ls + [Sw(0, Enumerated([0])), Sw(0, Done)];
  }

  lemma ReclaimLiveObject(c: Config, D: nat, S: nat, t: Time, at: Time, now: Time, cutoff: Time, f: File,
                          ls: seq<Label>)
    requires t <= cutoff && f.id == f.key == 0 && Timely(c, D, S, Init(t), ls)
    requires Run(c, Init(t), ls) == CommittedWorld(t, at, now, f, map[0 := Enumerating({}, cutoff)])
    ensures var ls' := ls + [Sw(0, Enumerated([0])), Sw(0, Done)];
      Timely(c, D, S, Init(t), ls') && !Backed(Run(c, Init(t), ls'))
  {
    var w := Run(c, Init(t), ls);
    assert Listing(w.objects, [0]) == [Listed(0, t)];
    var w1 := w.(sweeps := map[0 := Reclaiming({}, cutoff, [Listed(0, t)])]);
    assert Next(c, w, Sw(0, Enumerated([0]))) == w1;
    TimelySnoc(c, D, S, Init(t), ls, Sw(0, Enumerated([0])));
    TimelySnoc(c, D, S, Init(t), ls + [Sw(0, Enumerated([0]))], Sw(0, Done));
    assert ls + [Sw(0, Enumerated([0])), Sw(0, Done)] == ls + [Sw(0, Enumerated([0]))] + [Sw(0, Done)];
    var w2 := Next(c, w1, Sw(0, Done));
    assert 0 !in w2.objects && w2.files == w.files;
    assert IsLive(w2.files, 0) && !BackedFile(w2, 0);
  }

  // Safety holds exactly when the grace period exceeds both bounds together.
  lemma GraceIsExact(c: Config, D: nat, S: nat, t: Time)
    ensures (forall ls: seq<Label> :: Timely(c, D, S, Init(t), ls) ==> Backed(Run(c, Init(t), ls))) <==> D + S < c.grace
  {
    if D + S < c.grace {
      forall ls | Timely(c, D, S, Init(t), ls) ensures Backed(Run(c, Init(t), ls)) {
        LiveFilesSurvive(c, D, S, t, ls);
      }
    } else {
      var ls := LateCutoffDestroys(c, D, S, t);
    }
  }

  // The documented rule, a grace period longer than any upload, is not enough:
  // a sweep that is slow between its two reads destroys a live file.
  lemma DocumentedRuleFallsShort(c: Config, D: nat, t: Time) returns (S: nat, ls: seq<Label>)
    requires D < c.grace
    ensures S == c.grace - D && Timely(c, D, S, Init(t), ls) && !Backed(Run(c, Init(t), ls))
  {
    S := c.grace - D;
    ls := LateCutoffDestroys(c, D, S, t);
  }
}
