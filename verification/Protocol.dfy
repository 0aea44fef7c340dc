/** The two-store protocol as a transition system.

    Every call to the object store or to the database is one atomic step, and
    any number of uploads, downloads and sweeps run side by side. A step is
    named by a label; a label that does not fit the state of its process leaves
    the world as it is, so every sequence of labels is a run. */
module Protocol {
  import opened Types

  // A claimed idempotency key, as its uploader remembers it.
  datatype Claim = Claim(key: string, at: Time)

  datatype Outcome =
    | Created(id: Id)
    | Replayed(key: string, id: Id, row: Row)
    | Gone(key: string, id: Id)
    | Conflict(key: string)
    | Failed

  // Where an upload is: each constructor names the call about to be made.
  datatype Upload =
    | Claiming(key: string)
    | Rereading(key: string)
    | Loading(key: string, id: Id)
    | Naming(claim: Option<Claim>)
    | Storing(claim: Option<Claim>, file: File)
    | Sizing(claim: Option<Claim>, file: File)
    | Committing(claim: Option<Claim>, file: File)
    | Discarding(claim: Option<Claim>, file: File)
    | Releasing(owned: Claim)
    | Returned(outcome: Outcome)
  {
    // The upload has drawn an id and a storage key and may still use them.
    predicate Holds() {
      Storing? || Sizing? || Committing? || Discarding?
    }

    // The upload believes it owns this idempotency key.
    function Claims(): Option<Claim> {
      match this
      case Naming(c) => c
      case Storing(c, _) => c
      case Sizing(c, _) => c
      case Committing(c, _) => c
      case Discarding(c, _) => c
      case Releasing(c) => Some(c)
      case _ => None
    }
  }

  // An entry of a sweep's list of soft-deleted rows, and of its object listing.
  datatype Doomed = Doomed(id: Id, key: Key)
  datatype Listed = Listed(key: Key, modTime: Time)

  // Where a sweep is.
  datatype Sweep =
    | Starting
    | Purging(todo: seq<Doomed>)
    | Removing(next: Doomed, todo: seq<Doomed>)
    | Cutting(known: set<Key>, at: Time)
    | Enumerating(known: set<Key>, cutoff: Time)
    | Reclaiming(known: set<Key>, cutoff: Time, objects: seq<Listed>)
    | Expiring(before: Time)
    | Finished

  // Where a download is: the row is read first, then the object.
  datatype Download =
    | Opening(id: Id)
    | Fetching(id: Id, row: Row)
    | Served(id: Id, row: Row, data: Bytes)
    | NoRow(id: Id)
    | NoObject(id: Id, row: Row)
    | Broken(id: Id)

  // Everything that ever happened, kept only to state properties.
  datatype History = History(
    ids: set<Id>,
    names: set<Key>,
    stored: map<Key, Object>,
    inserted: map<Id, Row>,
    commits: set<(string, Id)>,
    deleted: set<Id>)

  datatype World = World(
    now: Time,
    objects: map<Key, Object>,
    files: map<Id, Row>,
    keys: map<string, KeyRow>,
    uploads: map<Pid, Upload>,
    sweeps: map<Pid, Sweep>,
    downloads: map<Pid, Download>,
    hist: History)

  function Init(now: Time): World {
    World(now, map[], map[], map[], map[], map[], map[], History({}, {}, map[], map[], {}, {}))
  }

  // What an upload's pending call did.
  datatype UploadAct =
    | Begin(guard: Option<string>)
    | Draw(id: Id, key: Key)
    | PutOk(data: Bytes, size: int)
    | PutErr(partial: Option<Bytes>)
    | Ok
    | Err
    | Crash

  // What a sweep's pending call did.
  datatype SweepAct =
    | Launch
    | Rows(picked: seq<Id>)
    | Enumerated(order: seq<Key>)
    | Done
    | Failure
    | Stop

  // What a download's pending call did.
  datatype DownloadAct = Open(id: Id) | Got | Lost | Leave

  datatype Label =
    | Tick(d: nat)
    | SoftDelete(id: Id)
    | Up(pid: Pid, up: UploadAct)
    | Sw(pid: Pid, sw: SweepAct)
    | Dn(pid: Pid, dn: DownloadAct)
  {
    predicate By(p: Pid) {
      (Up? || Sw? || Dn?) && pid == p
    }
  }

  // ---- uploads -----------------------------------------------------------

  // A failed upload that owns a key still has to release it.
  function GiveUp(claim: Option<Claim>): Upload {
    match claim
    case None => Returned(Failed)
    case Some(c) => Releasing(c)
  }

  function Goto(w: World, pid: Pid, u: Upload): World {
    w.(uploads := w.uploads[pid := u])
  }

  // The transaction behind Create and CreateForKey lands: both table
  // constraints hold and a claimed key still has its row.
  predicate Lands(w: World, claim: Option<Claim>, f: File) {
    f.id !in w.files && !Referenced(w.files, f.key) && (claim.Some? ==> claim.value.key in w.keys)
  }

  predicate Commits(w: World, u: Upload) {
    u.Committing? && Lands(w, u.claim, u.file)
  }

  // Only a pending row is released, whoever claimed it.
  function Released(keys: map<string, KeyRow>, key: string): map<string, KeyRow> {
    if key in keys && keys[key].status.Pending? then keys - {key} else keys
  }

  // The keys table once the upload's pending call has succeeded.
  function KeysAfter(w: World, u: Upload): map<string, KeyRow> {
    match u
    case Claiming(k) => if k in w.keys then w.keys else w.keys[k := KeyRow(Pending, w.now)]
    case Committing(c, f) =>
      if Lands(w, c, f) && c.Some? then
        w.keys[c.value.key := w.keys[c.value.key].(status := Completed(f.id))]
      else w.keys
    case Releasing(c) => Released(w.keys, c.key)
    case _ => w.keys
  }

  function HistAfter(w: World, u: Upload): History {
    if Commits(w, u) then
      w.hist.(inserted := w.hist.inserted[u.file.id := u.file.ToRow()],
              commits := if u.claim.Some? then w.hist.commits + {(u.claim.value.key, u.file.id)} else w.hist.commits)
    else w.hist
  }

  // All tables once the upload's pending call has succeeded.
  function OkTables(w: World, u: Upload): World {
    w.(objects := if u.Discarding? then w.objects - {u.file.key} else w.objects,
       files := if Commits(w, u) then w.files[u.file.id := u.file.ToRow()] else w.files,
       keys := KeysAfter(w, u),
       hist := HistAfter(w, u))
  }

  // Where the upload goes when its pending call succeeds, and when it fails.
  function AfterOk(w: World, u: Upload): Upload {
    match u
    case Claiming(k) => if k in w.keys then Rereading(k) else Naming(Some(Claim(k, w.now)))
    case Rereading(k) =>
      if k in w.keys && w.keys[k].status.Completed? then Loading(k, w.keys[k].status.file)
      else Returned(Conflict(k))
    case Loading(k, id) => Returned(if IsLive(w.files, id) then Replayed(k, id, w.files[id]) else Gone(k, id))
    case Sizing(c, f) =>
      if f.key in w.objects then Committing(c, f.(size := |w.objects[f.key].data|)) else Discarding(c, f)
    case Committing(c, f) => if Lands(w, c, f) then Returned(Created(f.id)) else Discarding(c, f)
    case Discarding(c, _) => GiveUp(c)
    case Releasing(_) => Returned(Failed)
    case _ => u
  }

  function AfterErr(u: Upload): Upload {
    match u
    case Naming(c) => GiveUp(c)
    case Sizing(c, f) => Discarding(c, f)
    case Committing(c, f) => Discarding(c, f)
    case Discarding(c, _) => GiveUp(c)
    case Storing(_, _) => u
    case Returned(_) => u
    case _ => Returned(Failed)
  }

  function AfterPut(c: Config, u: Upload, data: Bytes, size: int): Upload
    requires u.Storing?
  {
    var f := u.file.(checksum := c.hash(data));
    if size >= 0 then Committing(u.claim, f.(size := size)) else Sizing(u.claim, f)
  }

  function Put(w: World, key: Key, data: Bytes): World {
    var o := Object(data, w.now);
    w.(objects := w.objects[key := o], hist := w.hist.(stored := w.hist.stored[key := o]))
  }

  function DrawNames(w: World, id: Id, key: Key): World {
    w.(hist := w.hist.(ids := w.hist.ids + {id}, names := w.hist.names + {key}))
  }

  function UploadNext(c: Config, w: World, pid: Pid, a: UploadAct): World {
    if a.Begin? then
      if pid in w.uploads then w
      else Goto(w, pid, if a.guard.None? then Naming(None) else Claiming(a.guard.value))
    else if pid !in w.uploads then w
    else
      var u := w.uploads[pid];
      match a
      case Ok => Goto(OkTables(w, u), pid, AfterOk(w, u))
      case Err => Goto(w, pid, AfterErr(u))
      case Crash => w.(uploads := w.uploads - {pid})
      case Draw(id, key) =>
        if u.Naming? && id !in w.hist.ids && key !in w.hist.names then
          Goto(DrawNames(w, id, key), pid, Storing(u.claim, File(id, key, 0, "")))
        else w
      case PutOk(data, size) =>
        if u.Storing? then Goto(Put(w, u.file.key, data), pid, AfterPut(c, u, data, size)) else w
      case PutErr(partial) =>
        if u.Storing? then
          Goto(if partial.Some? then Put(w, u.file.key, partial.value) else w, pid, GiveUp(u.claim))
        else w
  }

  // ---- sweeps ------------------------------------------------------------

  // `limit` as ListDeleted applies it.
  function BatchLimit(limit: int): nat {
    if limit <= 0 then 500 else limit
  }

  // A result of ListDeleted: the soft-deleted rows, oldest deletion first, at
  // most `limit` of them, ties in any order.
  predicate OldestDeleted(files: map<Id, Row>, limit: nat, picked: seq<Id>) {
    && |picked| <= limit
    && (forall i :: 0 <= i < |picked| ==> SoftDeleted(files, picked[i]))
    && (forall i, j :: 0 <= i < j < |picked| ==>
          picked[i] != picked[j] && files[picked[i]].deletedAt.value <= files[picked[j]].deletedAt.value)
    && (forall id :: id in files && SoftDeleted(files, id) && id !in picked ==>
          |picked| == limit && forall i :: 0 <= i < |picked| ==>
            files[picked[i]].deletedAt.value <= files[id].deletedAt.value)
  }

  function Records(files: map<Id, Row>, ids: seq<Id>): seq<Doomed>
    requires forall i :: 0 <= i < |ids| ==> ids[i] in files
  {
    seq(|ids|, i requires 0 <= i < |ids| => Doomed(ids[i], files[ids[i]].key))
  }

  // A listing of the store: every object once, in any order.
  predicate Enumerates(objects: map<Key, Object>, order: seq<Key>) {
    && (forall i :: 0 <= i < |order| ==> order[i] in objects)
    && (forall k :: k in objects ==> k in order)
    && (forall i, j :: 0 <= i < j < |order| ==> order[i] != order[j])
  }

  function Listing(objects: map<Key, Object>, order: seq<Key>): seq<Listed>
    requires forall i :: 0 <= i < |order| ==> order[i] in objects
  {
    seq(|order|, i requires 0 <= i < |order| => Listed(order[i], objects[order[i]].modTime))
  }

  // The orphan test: no row knows the object and it is not newer than the cutoff.
  predicate Reclaimable(known: set<Key>, cutoff: Time, o: Listed) {
    o.key !in known && o.modTime <= cutoff
  }

  function Unexpired(keys: map<string, KeyRow>, before: Time): map<string, KeyRow> {
    map k | k in keys && keys[k].createdAt >= before :: keys[k]
  }

  function Purge(files: map<Id, Row>, id: Id): map<Id, Row> {
    if SoftDeleted(files, id) then files - {id} else files
  }

  function AfterOrphans(c: Config, now: Time): Sweep {
    if c.ttl <= 0 then Finished else Expiring(now - c.ttl)
  }

  function Seek(w: World, pid: Pid, s: Sweep): World {
    w.(sweeps := w.sweeps[pid := s])
  }

  // The object, row and keys the sweep's pending call deletes.
  function Drops(s: Sweep): set<Key> {
    match s
    case Purging(todo) => if todo == [] then {} else {todo[0].key}
    case Reclaiming(known, cutoff, objects) =>
      if objects != [] && Reclaimable(known, cutoff, objects[0]) then {objects[0].key} else {}
    case _ => {}
  }

  function DoneTables(w: World, s: Sweep): World {
    w.(objects := w.objects - Drops(s),
       files := if s.Removing? then Purge(w.files, s.next.id) else w.files,
       keys := if s.Expiring? then Unexpired(w.keys, s.before) else w.keys)
  }

  // Where the sweep goes when its pending call succeeds, and when it fails.
  function AfterDone(c: Config, w: World, s: Sweep): Sweep {
    match s
    case Purging(todo) =>
      if todo == [] then Cutting(StorageKeys(w.files), w.now) else Removing(todo[0], todo[1..])
    case Removing(_, todo) => Purging(todo)
    case Cutting(known, _) => Enumerating(known, w.now - c.grace)
    case Reclaiming(known, cutoff, objects) =>
      if objects == [] then AfterOrphans(c, w.now) else Reclaiming(known, cutoff, objects[1..])
    case Expiring(_) => Finished
    case _ => s
  }

  function AfterFailure(s: Sweep): Sweep {
    match s
    case Purging(todo) => if todo == [] then Finished else Purging(todo[1..])
    case Removing(_, todo) => Purging(todo)
    case Reclaiming(known, cutoff, objects) =>
      if objects == [] then s else Reclaiming(known, cutoff, objects[1..])
    case Cutting(_, _) => s
    case _ => Finished
  }

  function SweepNext(c: Config, w: World, pid: Pid, a: SweepAct): World {
    if a.Launch? then
      if pid in w.sweeps then w else Seek(w, pid, Starting)
    else if pid !in w.sweeps then w
    else
      var s := w.sweeps[pid];
      match a
      case Done => Seek(DoneTables(w, s), pid, AfterDone(c, w, s))
      case Failure => Seek(w, pid, AfterFailure(s))
      case Stop => w.(sweeps := w.sweeps - {pid})
      case Rows(picked) =>
        if s.Starting? && OldestDeleted(w.files, BatchLimit(c.batch), picked) then
          Seek(w, pid, Purging(Records(w.files, picked)))
        else w
      case Enumerated(order) =>
        if s.Enumerating? && Enumerates(w.objects, order) then
          Seek(w, pid, Reclaiming(s.known, s.cutoff, Listing(w.objects, order)))
        else w
  }

  // ---- downloads ---------------------------------------------------------

  function Show(w: World, pid: Pid, d: Download): World {
    w.(downloads := w.downloads[pid := d])
  }

  function AfterGot(w: World, d: Download): Download {
    match d
    case Opening(id) => if IsLive(w.files, id) then Fetching(id, w.files[id]) else NoRow(id)
    case Fetching(id, row) =>
      if row.key in w.objects then Served(id, row, w.objects[row.key].data) else NoObject(id, row)
    case _ => d
  }

  function AfterLost(d: Download): Download {
    if d.Opening? || d.Fetching? then Broken(d.id) else d
  }

  function DownloadNext(w: World, pid: Pid, a: DownloadAct): World {
    if a.Open? then
      if pid in w.downloads then w else Show(w, pid, Opening(a.id))
    else if pid !in w.downloads then w
    else
      match a
      case Got => Show(w, pid, AfterGot(w, w.downloads[pid]))
      case Lost => Show(w, pid, AfterLost(w.downloads[pid]))
      case Leave => w.(downloads := w.downloads - {pid})
  }

  // ---- steps and runs ----------------------------------------------------

  // Stamping deleted_at is final: no statement ever clears it.
  function Stamp(w: World, id: Id): World {
    if IsLive(w.files, id) then
      w.(files := w.files[id := w.files[id].(deletedAt := Some(w.now))],
         hist := w.hist.(deleted := w.hist.deleted + {id}))
    else w
  }

  function Next(c: Config, w: World, l: Label): World {
    match l
    case Tick(d) => w.(now := w.now + d)
    case SoftDelete(id) => Stamp(w, id)
    case Up(pid, a) => UploadNext(c, w, pid, a)
    case Sw(pid, a) => SweepNext(c, w, pid, a)
    case Dn(pid, a) => DownloadNext(w, pid, a)
  }

  function Run(c: Config, w: World, ls: seq<Label>): World {
    if ls == [] then w else Next(c, Run(c, w, ls[..|ls| - 1]), ls[|ls| - 1])
  }

  lemma RunSnoc(c: Config, w: World, ls: seq<Label>, l: Label)
    ensures Run(c, w, ls + [l]) == Next(c, Run(c, w, ls), l)
  {
    assert (ls + [l])[..|ls|] == ls;
  }

  lemma {:induction false} RunConcat(c: Config, w: World, a: seq<Label>, b: seq<Label>)
    ensures Run(c, w, a + b) == Run(c, Run(c, w, a), b)
    decreases |b|
  {
    if b == [] {
      assert a + b == a;
    } else {
      var n := |b| - 1;
      RunConcat(c, w, a, b[..n]);
      assert (a + b)[..|a + b| - 1] == a + b[..n];
    }
  }
}
