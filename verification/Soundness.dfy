/** What every run keeps, whatever its timing: ids and storage keys have one
    owner, objects hold what was put, rows come from commits, and the lists a
    sweep works from name only rows and objects that existed. */
module Soundness {
  import opened Types
  import opened Protocol

  // ---- the tables --------------------------------------------------------

  // Objects are what was put under their key, never in the future.
  ghost predicate ObjectsOk(w: World) {
    && (forall k :: k in w.objects ==> k in w.hist.stored && w.objects[k] == w.hist.stored[k])
    && (forall k :: k in w.hist.stored ==> k in w.hist.names && w.hist.stored[k].modTime <= w.now)
  }

  // A row keeps the contents it was inserted with; it only ever gains a
  // deletion stamp, and leaves the table only after that.
  ghost predicate RowsOk(files: map<Id, Row>, h: History) {
    && (forall i :: i in files ==>
          && i in h.inserted
          && files[i].(deletedAt := None) == h.inserted[i]
          && (files[i].Live() <==> i !in h.deleted))
    && (forall i :: i in h.inserted && i !in files ==> i in h.deleted)
  }

  // An inserted row took over the id, key and checksum of a staged upload.
  ghost predicate InsertedOk(c: Config, h: History) {
    && (forall i :: i in h.inserted ==>
          && i in h.ids
          && h.inserted[i].Live()
          && h.inserted[i].key in h.stored
          && h.inserted[i].checksum == c.hash(h.stored[h.inserted[i].key].data))
    && h.deleted <= h.inserted.Keys
    && (forall p :: p in h.commits ==> p.1 in h.inserted)
  }

  ghost predicate KeysUnique(rows: map<Id, Row>) {
    forall i, j :: i in rows && j in rows && i != j ==> rows[i].key != rows[j].key
  }

  // A completed key names a row inserted under that key.
  ghost predicate KeysOk(keys: map<string, KeyRow>, h: History) {
    forall k :: k in keys && keys[k].status.Completed? ==> (k, keys[k].status.file) in h.commits
  }

  // ---- the processes -----------------------------------------------------

  ghost predicate Unreferenced(rows: map<Id, Row>, key: Key) {
    forall i :: i in rows ==> rows[i].key != key
  }

  ghost predicate Fresh(h: History, f: File) {
    f.id in h.ids && f.key in h.names && f.id !in h.inserted && Unreferenced(h.inserted, f.key)
  }

  ghost predicate Recorded(c: Config, h: History, f: File) {
    f.key in h.stored && f.checksum == c.hash(h.stored[f.key].data)
  }

  // What an upload's answer promises.
  ghost predicate OutcomeOk(h: History, o: Outcome) {
    match o
    case Created(id) => id in h.inserted
    case Replayed(k, id, row) => (k, id) in h.commits && id in h.inserted && row == h.inserted[id]
    case Gone(k, id) => (k, id) in h.commits && id in h.deleted
    case _ => true
  }

  // An upload's id and key belong to no row; once the object is put, its
  // record carries the checksum of the bytes that were put.
  ghost predicate UploadSound(c: Config, h: History, u: Upload) {
    match u
    case Loading(k, id) => (k, id) in h.commits
    case Storing(_, f) => Fresh(h, f) && f.key !in h.stored
    case Sizing(_, f) => Fresh(h, f) && Recorded(c, h, f)
    case Committing(_, f) => Fresh(h, f) && Recorded(c, h, f)
    case Discarding(_, f) => Fresh(h, f) && Recorded(c, h, f)
    case Returned(o) => OutcomeOk(h, o)
    case _ => true
  }

  ghost predicate Disjoint(u: Upload, v: Upload) {
    u.Holds() && v.Holds() ==> u.file.id != v.file.id && u.file.key != v.file.key
  }

  ghost predicate Apart(uploads: map<Pid, Upload>) {
    forall p, q :: p in uploads && q in uploads && p != q ==> Disjoint(uploads[p], uploads[q])
  }

  // A sweep's purge list names deleted rows under their own key; a row is
  // removed only after its object.
  ghost predicate DoomedOk(h: History, d: Doomed) {
    d.id in h.deleted && d.id in h.inserted && h.inserted[d.id].key == d.key
  }

  ghost predicate ListedOk(h: History, o: Listed) {
    o.key in h.stored && h.stored[o.key].modTime == o.modTime
  }

  ghost predicate SweepSound(w: World, s: Sweep) {
    match s
    case Purging(todo) => forall i :: 0 <= i < |todo| ==> DoomedOk(w.hist, todo[i])
    case Removing(next, todo) =>
      DoomedOk(w.hist, next) && next.key !in w.objects && forall i :: 0 <= i < |todo| ==> DoomedOk(w.hist, todo[i])
    case Cutting(_, at) => at <= w.now
    case Reclaiming(_, _, objects) => forall i :: 0 <= i < |objects| ==> ListedOk(w.hist, objects[i])
    case _ => true
  }

  // A download's row was live when it was read; bytes come from its own object.
  ghost predicate DownloadSound(h: History, d: Download) {
    match d
    case Fetching(id, row) => id in h.inserted && row == h.inserted[id]
    case Served(id, row, data) =>
      id in h.inserted && row == h.inserted[id] && row.key in h.stored && data == h.stored[row.key].data
    case NoObject(id, row) => id in h.inserted && row == h.inserted[id]
    case _ => true
  }

  ghost predicate TablesSound(c: Config, w: World) {
    && ObjectsOk(w) && RowsOk(w.files, w.hist) && InsertedOk(c, w.hist)
    && KeysUnique(w.hist.inserted) && KeysOk(w.keys, w.hist)
  }

  ghost predicate ProcessesSound(c: Config, w: World) {
    && (forall p :: p in w.uploads ==> UploadSound(c, w.hist, w.uploads[p]))
    && (forall p :: p in w.sweeps ==> SweepSound(w, w.sweeps[p]))
    && (forall p :: p in w.downloads ==> DownloadSound(w.hist, w.downloads[p]))
  }

  ghost predicate Sound(c: Config, w: World) {
    TablesSound(c, w) && ProcessesSound(c, w) && Apart(w.uploads)
  }

  // ---- what other processes see of a step --------------------------------

  // History only grows.
  ghost predicate Grows(h: History, h': History) {
    && h.ids <= h'.ids && h.names <= h'.names && h.commits <= h'.commits && h.deleted <= h'.deleted
    && (forall k :: k in h.stored ==> k in h'.stored && h'.stored[k] == h.stored[k])
    && (forall i :: i in h.inserted ==> i in h'.inserted && h'.inserted[i] == h.inserted[i])
  }

  // What is new in the history touches no id or key that the upload holds.
  ghost predicate Spares(h: History, h': History, u: Upload) {
    u.Holds() ==>
      && (u.file.id in h'.inserted ==> u.file.id in h.inserted)
      && (u.file.key in h'.stored ==> u.file.key in h.stored)
      && (forall i :: i in h'.inserted && i !in h.inserted ==> h'.inserted[i].key != u.file.key)
  }

  ghost predicate NotHeld(uploads: map<Pid, Upload>, pid: Pid, f: File) {
    forall q :: q in uploads && q != pid && uploads[q].Holds() ==>
      uploads[q].file.id != f.id && uploads[q].file.key != f.key
  }

  // The tables moved on soundly while the processes stood still.
  ghost predicate Advanced(c: Config, w: World, t: World) {
    && TablesSound(c, t) && Grows(w.hist, t.hist) && w.now <= t.now
    && t.uploads == w.uploads && t.sweeps == w.sweeps && t.downloads == w.downloads
    && (forall k :: k in t.objects ==> k in w.objects || k !in w.hist.stored)
  }

  lemma SweepsAdvance(c: Config, w: World, t: World)
    requires Sound(c, w) && Advanced(c, w, t)
    ensures forall p :: p in w.sweeps ==> SweepSound(t, w.sweeps[p])
    ensures forall p :: p in w.downloads ==> DownloadSound(t.hist, w.downloads[p])
  {
    forall p | p in w.sweeps ensures SweepSound(t, w.sweeps[p]) {
      assert SweepSound(w, w.sweeps[p]);
    }
    forall p | p in w.downloads ensures DownloadSound(t.hist, w.downloads[p]) {
      assert DownloadSound(w.hist, w.downloads[p]);
    }
  }

  lemma UploadsAdvance(c: Config, w: World, t: World, spared: set<Pid>)
    requires Sound(c, w) && Advanced(c, w, t) && spared <= w.uploads.Keys
    requires forall q :: q in spared ==> Spares(w.hist, t.hist, w.uploads[q])
    ensures forall q :: q in spared ==> UploadSound(c, t.hist, w.uploads[q])
  {
    forall q | q in spared ensures UploadSound(c, t.hist, w.uploads[q]) {
      assert UploadSound(c, w.hist, w.uploads[q]) && Spares(w.hist, t.hist, w.uploads[q]);
    }
  }

  // An upload's step: the tables advance sparing all others, and it moves on.
  lemma UploadAdvance(c: Config, w: World, t: World, pid: Pid, u: Upload)
    requires Sound(c, w) && Advanced(c, w, t) && UploadSound(c, t.hist, u)
    requires forall q :: q in w.uploads && q != pid ==> Spares(w.hist, t.hist, w.uploads[q])
    requires u.Holds() ==> NotHeld(w.uploads, pid, u.file)
    ensures Sound(c, Goto(t, pid, u))
  {
    var w' := Goto(t, pid, u);
    SweepsAdvance(c, w, t);
    UploadsAdvance(c, w, t, w.uploads.Keys - {pid});
    assert forall q :: q in w.uploads && q != pid ==> q in w.uploads.Keys - {pid};
    forall p, q | p in w'.uploads && q in w'.uploads && p != q ensures Disjoint(w'.uploads[p], w'.uploads[q]) {
      assert p != pid && q != pid ==> Disjoint(w.uploads[p], w.uploads[q]);
    }
    forall p | p in w'.sweeps ensures SweepSound(w', w'.sweeps[p]) {
      assert SweepSound(t, w.sweeps[p]);
    }
  }

  lemma SweepAdvance(c: Config, w: World, t: World, pid: Pid, s: Sweep)
    requires Sound(c, w) && Advanced(c, w, t) && t.hist == w.hist && SweepSound(t, s)
    ensures Sound(c, Seek(t, pid, s))
  {
    var w' := Seek(t, pid, s);
    SweepsAdvance(c, w, t);
    forall p | p in w'.sweeps ensures SweepSound(w', w'.sweeps[p]) {
      assert p != pid ==> SweepSound(t, w.sweeps[p]);
    }
  }

  lemma OthersApart(uploads: map<Pid, Upload>, pid: Pid)
    requires Apart(uploads) && pid in uploads && uploads[pid].Holds()
    ensures NotHeld(uploads, pid, uploads[pid].file)
  {
    forall q | q in uploads && q != pid && uploads[q].Holds()
      ensures uploads[q].file.id != uploads[pid].file.id && uploads[q].file.key != uploads[pid].file.key
    {
      assert Disjoint(uploads[q], uploads[pid]);
    }
  }

  // A process that stops leaves the rest as it was.
  lemma ForgetSound(c: Config, w: World, w': World)
    requires Sound(c, w)
    requires w'.(uploads := w.uploads, sweeps := w.sweeps, downloads := w.downloads) == w
    requires forall p :: p in w'.uploads ==> p in w.uploads && w'.uploads[p] == w.uploads[p]
    requires forall p :: p in w'.sweeps ==> p in w.sweeps && w'.sweeps[p] == w.sweeps[p]
    requires forall p :: p in w'.downloads ==> p in w.downloads && w'.downloads[p] == w.downloads[p]
    ensures Sound(c, w')
  {
    forall p | p in w'.sweeps ensures SweepSound(w', w'.sweeps[p]) {
      assert SweepSound(w, w.sweeps[p]);
    }
  }

  // ---- steps of an upload ------------------------------------------------

  lemma InsertRows(c: Config, files: map<Id, Row>, h: History, f: File)
    requires RowsOk(files, h) && InsertedOk(c, h) && KeysUnique(h.inserted) && Fresh(h, f) && Recorded(c, h, f)
    ensures var h' := h.(inserted := h.inserted[f.id := f.ToRow()]);
      RowsOk(files[f.id := f.ToRow()], h') && InsertedOk(c, h') && KeysUnique(h'.inserted)
  {
  }

  lemma OkTablesSound(c: Config, w: World, u: Upload)
    requires TablesSound(c, w) && UploadSound(c, w.hist, u)
    ensures TablesSound(c, OkTables(w, u)) && Grows(w.hist, OkTables(w, u).hist)
  {
    if Commits(w, u) {
      InsertRows(c, w.files, w.hist, u.file);
    }
  }

  lemma AfterOkSound(c: Config, w: World, u: Upload)
    requires TablesSound(c, w) && UploadSound(c, w.hist, u)
    ensures UploadSound(c, OkTables(w, u).hist, AfterOk(w, u))
    ensures AfterOk(w, u).Holds() ==>
      u.Holds() && AfterOk(w, u).file.id == u.file.id && AfterOk(w, u).file.key == u.file.key
  {
  }

  // A commit takes over the id and key of its own upload, and no other's.
  lemma OkTablesSpare(c: Config, w: World, pid: Pid)
    requires Sound(c, w) && pid in w.uploads
    ensures forall q :: q in w.uploads && q != pid ==> Spares(w.hist, OkTables(w, w.uploads[pid]).hist, w.uploads[q])
  {
    if w.uploads[pid].Holds() {
      OthersApart(w.uploads, pid);
    }
  }

  lemma UploadOkSound(c: Config, w: World, pid: Pid)
    requires Sound(c, w) && pid in w.uploads
    ensures Sound(c, Goto(OkTables(w, w.uploads[pid]), pid, AfterOk(w, w.uploads[pid])))
  {
    var u := w.uploads[pid];
    var t := OkTables(w, u);
    assert UploadSound(c, w.hist, u);
    OkTablesSound(c, w, u);
    AfterOkSound(c, w, u);
    if u.Holds() {
      OthersApart(w.uploads, pid);
    }
    OkTablesSpare(c, w, pid);
    hide Sound, TablesSound, UploadSound, Grows, Spares, HistAfter, KeysAfter, AfterOk;
    assert Advanced(c, w, t);
    hide Advanced, OkTables;
    UploadAdvance(c, w, t, pid, AfterOk(w, u));
  }

  lemma UploadErrSound(c: Config, w: World, pid: Pid)
    requires Sound(c, w) && pid in w.uploads
    ensures Sound(c, Goto(w, pid, AfterErr(w.uploads[pid])))
  {
    var u := w.uploads[pid];
    assert UploadSound(c, w.hist, u);
    if u.Holds() {
      OthersApart(w.uploads, pid);
    }
    UploadAdvance(c, w, w, pid, AfterErr(u));
  }

  lemma UploadPutSound(c: Config, w: World, pid: Pid, data: Bytes, u: Upload)
    requires Sound(c, w) && pid in w.uploads && w.uploads[pid].Storing?
    requires UploadSound(c, Put(w, w.uploads[pid].file.key, data).hist, u)
    requires u.Holds() ==> u.file.id == w.uploads[pid].file.id && u.file.key == w.uploads[pid].file.key
    ensures Sound(c, Goto(Put(w, w.uploads[pid].file.key, data), pid, u))
  {
    assert UploadSound(c, w.hist, w.uploads[pid]);
    OthersApart(w.uploads, pid);
    var t := Put(w, w.uploads[pid].file.key, data);
    assert Advanced(c, w, t);
    UploadAdvance(c, w, t, pid, u);
  }

  lemma UploadDrawSound(c: Config, w: World, pid: Pid, id: Id, key: Key)
    requires Sound(c, w) && pid in w.uploads && w.uploads[pid].Naming? && id !in w.hist.ids && key !in w.hist.names
    ensures Sound(c, Goto(DrawNames(w, id, key), pid, Storing(w.uploads[pid].claim, File(id, key, 0, ""))))
  {
    forall q | q in w.uploads && w.uploads[q].Holds()
      ensures w.uploads[q].file.id != id && w.uploads[q].file.key != key
    {
      assert UploadSound(c, w.hist, w.uploads[q]);
    }
    UploadAdvance(c, w, DrawNames(w, id, key), pid, Storing(w.uploads[pid].claim, File(id, key, 0, "")));
  }

  lemma UploadStepSound(c: Config, w: World, pid: Pid, a: UploadAct)
    requires Sound(c, w)
    ensures Sound(c, UploadNext(c, w, pid, a))
  {
    if a.Begin? {
      if pid !in w.uploads {
        UploadAdvance(c, w, w, pid, if a.guard.None? then Naming(None) else Claiming(a.guard.value));
      }
    } else if pid in w.uploads {
      var u := w.uploads[pid];
      assert UploadSound(c, w.hist, u);
      match a
      case Ok => UploadOkSound(c, w, pid);
      case Err => UploadErrSound(c, w, pid);
      case Crash => ForgetSound(c, w, UploadNext(c, w, pid, a));
      case Draw(id, key) =>
        if u.Naming? && id !in w.hist.ids && key !in w.hist.names {
          UploadDrawSound(c, w, pid, id, key);
        }
      case PutOk(data, size) =>
        if u.Storing? {
          UploadPutSound(c, w, pid, data, AfterPut(c, u, data, size));
        }
      case PutErr(partial) =>
        if u.Storing? {
          if partial.Some? {
            UploadPutSound(c, w, pid, partial.value, GiveUp(u.claim));
          } else {
            UploadAdvance(c, w, w, pid, GiveUp(u.claim));
          }
        }
    }
  }

  // ---- steps of everything else ------------------------------------------

  lemma SweepDoneSound(c: Config, w: World, pid: Pid)
    requires Sound(c, w) && pid in w.sweeps
    ensures Sound(c, Seek(DoneTables(w, w.sweeps[pid]), pid, AfterDone(c, w, w.sweeps[pid])))
  {
    var s := w.sweeps[pid];
    assert SweepSound(w, s);
    var t := DoneTables(w, s);
    assert Advanced(c, w, t);
    SweepAdvance(c, w, t, pid, AfterDone(c, w, s));
  }

  lemma SweepStepSound(c: Config, w: World, pid: Pid, a: SweepAct)
    requires Sound(c, w)
    ensures Sound(c, SweepNext(c, w, pid, a))
  {
    if a.Launch? {
      if pid !in w.sweeps {
        SweepAdvance(c, w, w, pid, Starting);
      }
    } else if pid in w.sweeps {
      var s := w.sweeps[pid];
      assert SweepSound(w, s);
      match a
      case Done => SweepDoneSound(c, w, pid);
      case Failure => SweepAdvance(c, w, w, pid, AfterFailure(s));
      case Stop => ForgetSound(c, w, SweepNext(c, w, pid, a));
      case Rows(picked) =>
        if s.Starting? && OldestDeleted(w.files, BatchLimit(c.batch), picked) {
          SweepAdvance(c, w, w, pid, Purging(Records(w.files, picked)));
        }
      case Enumerated(order) =>
        if s.Enumerating? && Enumerates(w.objects, order) {
          SweepAdvance(c, w, w, pid, Reclaiming(s.known, s.cutoff, Listing(w.objects, order)));
        }
    }
  }

  lemma ShowSound(c: Config, w: World, pid: Pid, d: Download)
    requires Sound(c, w) && DownloadSound(w.hist, d)
    ensures Sound(c, Show(w, pid, d))
  {
    var w' := Show(w, pid, d);
    SweepsAdvance(c, w, w);
    forall p | p in w'.sweeps ensures SweepSound(w', w'.sweeps[p]) {
      assert SweepSound(w, w.sweeps[p]);
    }
  }

  lemma DownloadStepSound(c: Config, w: World, pid: Pid, a: DownloadAct)
    requires Sound(c, w)
    ensures Sound(c, DownloadNext(w, pid, a))
  {
    if a.Open? {
      ShowSound(c, w, pid, Opening(a.id));
    } else if pid in w.downloads {
      var d := w.downloads[pid];
      assert DownloadSound(w.hist, d);
      match a
      case Got => ShowSound(c, w, pid, AfterGot(w, d));
      case Lost => ShowSound(c, w, pid, AfterLost(d));
      case Leave => ForgetSound(c, w, DownloadNext(w, pid, a));
    }
  }

  // The tables advance with no process involved.
  lemma TablesAdvance(c: Config, w: World, t: World)
    requires Sound(c, w) && Advanced(c, w, t)
    requires t.hist.inserted == w.hist.inserted && t.hist.stored == w.hist.stored
    ensures Sound(c, t)
  {
    UploadsAdvance(c, w, t, w.uploads.Keys);
    SweepsAdvance(c, w, t);
  }

  lemma StampTables(c: Config, w: World, id: Id)
    requires TablesSound(c, w)
    ensures Advanced(c, w, Stamp(w, id))
  {
    StampRows(c, w, id);
    StampRest(c, w, id);
    hide RowsOk, KeysUnique, KeysOk, InsertedOk, ObjectsOk;
  }

  lemma StampRest(c: Config, w: World, id: Id)
    requires TablesSound(c, w)
    ensures var t := Stamp(w, id); ObjectsOk(t) && KeysOk(t.keys, t.hist) && KeysUnique(t.hist.inserted)
    ensures var t := Stamp(w, id); t.objects == w.objects && forall k :: k in w.objects ==> k in w.hist.stored
  {
    hide RowsOk, InsertedOk;
  }

  lemma StampRows(c: Config, w: World, id: Id)
    requires TablesSound(c, w)
    ensures RowsOk(Stamp(w, id).files, Stamp(w, id).hist) && InsertedOk(c, Stamp(w, id).hist)
  {
    hide KeysUnique, KeysOk, ObjectsOk;
  }

  lemma StampSound(c: Config, w: World, id: Id)
    requires Sound(c, w)
    ensures Sound(c, Stamp(w, id))
  {
    StampTables(c, w, id);
    hide TablesSound, ProcessesSound, Advanced;
    TablesAdvance(c, w, Stamp(w, id));
  }

  lemma TickSound(c: Config, w: World, d: nat)
    requires Sound(c, w)
    ensures Sound(c, w.(now := w.now + d))
  {
    TablesAdvance(c, w, w.(now := w.now + d));
  }

  lemma StepSound(c: Config, w: World, l: Label)
    requires Sound(c, w)
    ensures Sound(c, Next(c, w, l))
  {
    hide Sound, UploadNext, SweepNext, DownloadNext;
    match l
    case Up(pid, a) => UploadStepSound(c, w, pid, a);
    case Sw(pid, a) => SweepStepSound(c, w, pid, a);
    case Dn(pid, a) => DownloadStepSound(c, w, pid, a);
    case Tick(d) => TickSound(c, w, d);
    case SoftDelete(id) => StampSound(c, w, id);
  }

  lemma {:induction false} RunSound(c: Config, w: World, ls: seq<Label>)
    requires Sound(c, w)
    ensures Sound(c, Run(c, w, ls))
  {
    hide Sound;
    if ls == [] {
    } else {
      var n := |ls| - 1;
      RunSound(c, w, ls[..n]);
      StepSound(c, Run(c, w, ls[..n]), ls[n]);
    }
  }
}
