/** No leak: however an upload ends, its object is referenced by a row or never
    will be again, and nothing brings such an object back. */
module Orphans {
  import opened Types
  import opened Protocol
  import opened Soundness

  // No row names the object and no upload that is still running could.
  ghost predicate Abandoned(w: World, key: Key) {
    && key in w.hist.names && Unreferenced(w.files, key)
    && forall p :: p in w.uploads && w.uploads[p].Holds() ==> w.uploads[p].file.key != key
  }

  lemma GotoAbandons(w: World, pid: Pid, u: Upload, key: Key)
    requires Abandoned(w, key) && (u.Holds() ==> u.file.key != key)
    ensures Abandoned(Goto(w, pid, u), key)
  {
  }

  lemma OkAbandons(w: World, pid: Pid, key: Key)
    requires Abandoned(w, key) && pid in w.uploads
    ensures var t, u := OkTables(w, w.uploads[pid]), AfterOk(w, w.uploads[pid]);
      && Abandoned(t, key) && (key in t.objects ==> key in w.objects && t.objects[key] == w.objects[key])
      && (u.Holds() ==> u.file.key != key)
  {
    hide KeysAfter;
  }

  lemma PutAbandons(w: World, k: Key, data: Bytes, key: Key)
    requires Abandoned(w, key) && k != key
    ensures Abandoned(Put(w, k, data), key)
    ensures key in Put(w, k, data).objects ==> key in w.objects && Put(w, k, data).objects[key] == w.objects[key]
  {
  }

  lemma UploadAbandons(c: Config, w: World, pid: Pid, a: UploadAct, key: Key)
    requires Abandoned(w, key)
    ensures Abandoned(UploadNext(c, w, pid, a), key)
    ensures var o := UploadNext(c, w, pid, a).objects; key in o ==> key in w.objects && o[key] == w.objects[key]
  {
    if pid in w.uploads {
      var u := w.uploads[pid];
      assert u.Holds() ==> u.file.key != key;
      hide AfterOk, OkTables, Put;
      match a
      case Ok =>
        OkAbandons(w, pid, key);
        hide Abandoned;
        GotoAbandons(OkTables(w, u), pid, AfterOk(w, u), key);
      case PutOk(data, size) =>
        if u.Storing? {
          PutAbandons(w, u.file.key, data, key);
          hide Abandoned;
          GotoAbandons(Put(w, u.file.key, data), pid, AfterPut(c, u, data, size), key);
        }
      case PutErr(partial) =>
        if u.Storing? {
          if partial.Some? {
            PutAbandons(w, u.file.key, partial.value, key);
          }
          hide Abandoned;
          GotoAbandons(if partial.Some? then Put(w, u.file.key, partial.value) else w, pid, GiveUp(u.claim), key);
        }
      case _ =>
    }
  }

  lemma SweepAbandons(c: Config, w: World, pid: Pid, a: SweepAct, key: Key)
    requires Abandoned(w, key)
    ensures Abandoned(SweepNext(c, w, pid, a), key)
    ensures var o := SweepNext(c, w, pid, a).objects; key in o ==> key in w.objects && o[key] == w.objects[key]
  {
  }

  lemma DownloadAbandons(w: World, pid: Pid, a: DownloadAct, key: Key)
    requires Abandoned(w, key)
    ensures Abandoned(DownloadNext(w, pid, a), key) && DownloadNext(w, pid, a).objects == w.objects
  {
  }

  lemma StepAbandons(c: Config, w: World, l: Label, key: Key)
    requires Abandoned(w, key)
    ensures Abandoned(Next(c, w, l), key)
    ensures var o := Next(c, w, l).objects; key in o ==> key in w.objects && o[key] == w.objects[key]
  {
    hide UploadNext, SweepNext, DownloadNext;
    match l
    case Up(pid, a) => UploadAbandons(c, w, pid, a, key);
    case Sw(pid, a) => SweepAbandons(c, w, pid, a, key);
    case Dn(pid, a) => DownloadAbandons(w, pid, a, key);
    case _ =>
  }

  // An abandoned object stays abandoned for ever, and once gone stays gone.
  lemma {:induction false} AbandonedForever(c: Config, w: World, ls: seq<Label>, key: Key)
    requires Abandoned(w, key)
    ensures Abandoned(Run(c, w, ls), key)
    ensures var o := Run(c, w, ls).objects; key in o ==> key in w.objects && o[key] == w.objects[key]
  {
    if ls == [] {
    } else {
      var n := |ls| - 1;
      AbandonedForever(c, w, ls[..n], key);
      hide Abandoned, Next;
      StepAbandons(c, Run(c, w, ls[..n]), ls[n], key);
    }
  }

  // Whichever way an upload stops holding its object, by success, by any
  // failure or by a crash, a row took the object over or it is abandoned.
  lemma UploadEndsClean(c: Config, w: World, pid: Pid, a: UploadAct)
    requires Sound(c, w) && pid in w.uploads && w.uploads[pid].Holds()
    requires var w' := UploadNext(c, w, pid, a); pid in w'.uploads ==> !w'.uploads[pid].Holds()
    ensures var w', key := UploadNext(c, w, pid, a), w.uploads[pid].file.key;
      if a.Ok? && Commits(w, w.uploads[pid]) then w'.files[w.uploads[pid].file.id].key == key else Abandoned(w', key)
  {
    var u := w.uploads[pid];
    assert UploadSound(c, w.hist, u);
    OthersApart(w.uploads, pid);
    assert Unreferenced(w.files, u.file.key);
    hide Sound;
  }

  // Only the row step of a purge takes rows out.
  lemma RowsLeaveByPurge(c: Config, w: World, l: Label, id: Id)
    requires id in w.files && id !in Next(c, w, l).files
    ensures l.Sw? && l.pid in w.sweeps && w.sweeps[l.pid].Removing?
    ensures w.sweeps[l.pid].next.id == id && !w.files[id].Live()
  {
    hide UploadNext, SweepNext, DownloadNext;
    match l
    case Up(pid, a) => UploadsKeepRows(c, w, pid, a);
    case Sw(pid, a) => SweepsKeepRows(c, w, pid, a, id);
    case Dn(pid, a) => DownloadsKeepRows(w, pid, a);
    case _ =>
  }

  lemma SweepsKeepRows(c: Config, w: World, pid: Pid, a: SweepAct, id: Id)
    requires id in w.files && id !in SweepNext(c, w, pid, a).files
    ensures pid in w.sweeps && w.sweeps[pid].Removing? && w.sweeps[pid].next.id == id && !w.files[id].Live()
  {
  }

  lemma DownloadsKeepRows(w: World, pid: Pid, a: DownloadAct)
    ensures DownloadNext(w, pid, a).files == w.files
  {
  }

  lemma UploadsKeepRows(c: Config, w: World, pid: Pid, a: UploadAct)
    ensures w.files.Keys <= UploadNext(c, w, pid, a).files.Keys
  {
  }

  // No step ever hard-deletes a live row, or a row whose object still exists.
  lemma HardDeleteComesLast(c: Config, w: World, l: Label, id: Id)
    requires Sound(c, w) && id in w.files && id !in Next(c, w, l).files
    ensures !w.files[id].Live() && w.files[id].key !in w.objects
  {
    RowsLeaveByPurge(c, w, l, id);
    hide Next;
    assert SweepSound(w, w.sweeps[l.pid]);
  }
}
