/** What a download is told, traced to the two moments it looked: the row it read
    and the object it read are explained by what clients could see. */
module Downloads {
  import opened Types
  import opened Protocol
  import opened Soundness
  import opened Safety
  import opened Refinement
  import opened Answers

  // ---- one step of a download ----------------------------------------------

  // What a step may do to the download that p is running.
  ghost predicate DownloadStep(w: World, w': World, l: Label, p: Pid)
    requires p in w'.downloads
  {
    if p in w.downloads then
      || w'.downloads[p] == w.downloads[p]
      || (l == Dn(p, Got) && w'.downloads[p] == AfterGot(w, w.downloads[p]))
      || (l == Dn(p, Lost) && w'.downloads[p] == AfterLost(w.downloads[p]))
    else l == Dn(p, DownloadAct.Open(w'.downloads[p].id)) && w'.downloads[p].Opening?
  }

  lemma StepDownloads(c: Config, w: World, l: Label, p: Pid)
    requires p in Next(c, w, l).downloads
    ensures DownloadStep(w, Next(c, w, l), l, p)
  {
    hide UploadNext, SweepNext, DownloadNext, Stamp;
    if l.Dn? {
      OwnDownload(w, l.pid, l.dn, p);
    } else {
      SameDownloads(c, w, l);
      hide Next;
    }
  }

  lemma OwnDownload(w: World, pid: Pid, a: DownloadAct, p: Pid)
    requires p in DownloadNext(w, pid, a).downloads
    ensures DownloadStep(w, DownloadNext(w, pid, a), Dn(pid, a), p)
  {
    hide AfterGot, AfterLost;
  }

  // A download that found the row but not the object was overtaken by a delete.
  ghost predicate MissesOk(w: World) {
    forall p :: p in w.downloads && w.downloads[p].NoObject? ==> w.downloads[p].id in w.hist.deleted
  }

  lemma DownloadMisses(c: Config, D: nat, w: World, pid: Pid, a: DownloadAct)
    requires Sound(c, w) && Guarded(D, w) && MissesOk(w)
    ensures MissesOk(DownloadNext(w, pid, a))
  {
    hide Sound, Guarded;
    if pid in w.downloads && w.downloads[pid].Fetching? {
      FetchMiss(c, D, w, pid);
    }
  }

  // An object that is missing although its row was read belongs to a file that
  // has been deleted.
  lemma FetchMiss(c: Config, D: nat, w: World, pid: Pid)
    requires Sound(c, w) && Guarded(D, w) && pid in w.downloads && w.downloads[pid].Fetching?
    ensures w.downloads[pid].id in w.hist.inserted
    ensures w.downloads[pid].row.key in w.objects || w.downloads[pid].id in w.hist.deleted
  {
    assert DownloadSound(w.hist, w.downloads[pid]);
  }

  lemma StepMisses(c: Config, D: nat, w: World, l: Label)
    requires Sound(c, w) && Guarded(D, w) && MissesOk(w)
    ensures MissesOk(Next(c, w, l))
  {
    hide Guarded, DownloadNext;
    if l.Dn? {
      DownloadMisses(c, D, w, l.pid, l.dn);
    } else {
      StepGrows(c, w, l);
      SameDownloads(c, w, l);
      hide Sound, Next;
    }
  }

  lemma SameDownloads(c: Config, w: World, l: Label)
    requires !l.Dn?
    ensures Next(c, w, l).downloads == w.downloads
  {
    match l
    case Up(pid, a) => SameForUploads(c, w, pid, a);
    case Sw(pid, a) => SameForSweeps(c, w, pid, a);
    case _ =>
    hide UploadNext, SweepNext;
  }

  lemma SameForUploads(c: Config, w: World, pid: Pid, a: UploadAct)
    ensures UploadNext(c, w, pid, a).downloads == w.downloads
  {
  }

  lemma SameForSweeps(c: Config, w: World, pid: Pid, a: SweepAct)
    ensures SweepNext(c, w, pid, a).downloads == w.downloads
  {
  }

  lemma {:induction false} RunMisses(c: Config, D: nat, S: nat, t: Time, ls: seq<Label>)
    requires D + S < c.grace && Timely(c, D, S, Init(t), ls)
    ensures MissesOk(Run(c, Init(t), ls))
  {
    if ls == [] {
    } else {
      var n := |ls| - 1;
      RunMisses(c, D, S, t, ls[..n]);
      InitGuarded(c, D, t);
      RunGuarded(c, D, S, Init(t), ls[..n]);
      hide Sound, Guarded, MissesOk, Next;
      StepMisses(c, D, Run(c, Init(t), ls[..n]), ls[n]);
    }
  }

  // ---- the call, from its start ---------------------------------------------

  // From step i on, p never left that call.
  ghost predicate Held(c: Config, w: World, ls: seq<Label>, p: Pid, i: nat) {
    forall m :: i < m <= |ls| ==> p in Run(c, w, ls[..m]).downloads
  }

  lemma HeldOn(c: Config, w: World, ls: seq<Label>, p: Pid, n: nat, i: nat)
    requires n <= |ls| && Held(c, w, ls[..n], p, i) && forall m :: n < m <= |ls| ==> p in Run(c, w, ls[..m]).downloads
    ensures Held(c, w, ls, p, i)
  {
    hide Run;
    forall m | i < m <= |ls|
      ensures p in Run(c, w, ls[..m]).downloads
    {
      if m <= n {
        assert ls[..n][..m] == ls[..m];
      }
    }
  }

  lemma HeldMore(c: Config, w: World, ls: seq<Label>, p: Pid, i: nat)
    requires ls != [] && Held(c, w, ls[..|ls| - 1], p, i) && p in Run(c, w, ls).downloads
    ensures Held(c, w, ls, p, i)
  {
    hide Run;
    assert ls[..|ls|] == ls;
    HeldOn(c, w, ls, p, |ls| - 1, i);
  }

  // Step b opened the download of `id` that p is still running when `ls` ends.
  ghost predicate Opened(c: Config, w: World, ls: seq<Label>, p: Pid, id: Id, b: nat) {
    && b < |ls| && ls[b] == Dn(p, DownloadAct.Open(id)) && p !in Run(c, w, ls[..b]).downloads
    && Held(c, w, ls, p, b)
  }

  // Step r of that call found this at the row.
  ghost predicate ReadRow(c: Config, w: World, ls: seq<Label>, p: Pid, id: Id, r: nat, row: Option<Row>) {
    && r < |ls| && ls[r] == Dn(p, Got)
    && var w' := Run(c, w, ls[..r]);
    && p in w'.downloads && w'.downloads[p] == Opening(id)
    && row == (if IsLive(w'.files, id) then Some(w'.files[id]) else None)
    && Held(c, w, ls, p, r)
  }

  // Step g of that call looked for the object of this row and found this.
  ghost predicate ReadObject(c: Config, w: World, ls: seq<Label>, p: Pid, id: Id, g: nat, row: Row,
                             data: Option<Bytes>) {
    && g < |ls| && ls[g] == Dn(p, Got)
    && LookedUp(Run(c, w, ls[..g]), Run(c, w, ls[..g + 1]), p, id, row, data) && Held(c, w, ls, p, g)
  }

  ghost predicate LookedUp(w: World, w': World, p: Pid, id: Id, row: Row, data: Option<Bytes>) {
    && p in w.downloads && w.downloads[p] == Fetching(id, row)
    && data == (if row.key in w.objects then Some(w.objects[row.key].data) else None)
    && p in w'.downloads && w'.downloads[p] == Answered(id, row, data)
  }

  function Answered(id: Id, row: Row, data: Option<Bytes>): Download {
    if data.Some? then Served(id, row, data.value) else NoObject(id, row)
  }

  // What a finished row read left in the state of the download.
  function RowOf(d: Download): Option<Row> {
    if d.Fetching? || d.Served? || d.NoObject? then Some(d.row) else None
  }

  predicate HasRead(d: Download) {
    d.Fetching? || d.Served? || d.NoObject? || d.NoRow?
  }

  lemma {:induction false} OpenTraced(c: Config, w: World, ls: seq<Label>, p: Pid) returns (b: nat)
    requires p !in w.downloads && p in Run(c, w, ls).downloads
    ensures Opened(c, w, ls, p, Run(c, w, ls).downloads[p].id, b)
  {
    var n := |ls| - 1;
    var w1 := Run(c, w, ls[..n]);
    StepDownloads(c, w1, ls[n], p);
    assert ls[..|ls|] == ls;
    hide Next;
    if p in w1.downloads {
      b := OpenTraced(c, w, ls[..n], p);
      assert ls[..n][..b] == ls[..b];
      HeldMore(c, w, ls, p, b);
    } else {
      b := n;
    }
  }

  lemma {:induction false} RowTraced(c: Config, w: World, ls: seq<Label>, p: Pid) returns (r: nat)
    requires p !in w.downloads && p in Run(c, w, ls).downloads && HasRead(Run(c, w, ls).downloads[p])
    ensures var d := Run(c, w, ls).downloads[p]; ReadRow(c, w, ls, p, d.id, r, RowOf(d))
  {
    var n := |ls| - 1;
    var w1 := Run(c, w, ls[..n]);
    StepDownloads(c, w1, ls[n], p);
    assert ls[..|ls|] == ls;
    hide Next;
    if w1.downloads[p].Opening? {
      r := n;
    } else {
      r := RowTraced(c, w, ls[..n], p);
      assert ls[..n][..r] == ls[..r];
      HeldMore(c, w, ls, p, r);
    }
  }

  lemma {:induction false} ObjectTraced(c: Config, w: World, ls: seq<Label>, p: Pid, data: Option<Bytes>)
    returns (g: nat)
    requires p !in w.downloads && p in Run(c, w, ls).downloads
    requires var d := Run(c, w, ls).downloads[p]; (d.Served? || d.NoObject?) && d == Answered(d.id, d.row, data)
    ensures var d := Run(c, w, ls).downloads[p]; ReadObject(c, w, ls, p, d.id, g, d.row, data)
  {
    var n := |ls| - 1;
    var w1, d := Run(c, w, ls[..n]), Run(c, w, ls).downloads[p];
    StepDownloads(c, w1, ls[n], p);
    assert ls[..|ls|] == ls;
    hide Next, ReadObject, Run;
    if w1.downloads[p].Fetching? {
      g := n;
      JustRead(c, w, ls, p, d.id, d.row, data);
    } else {
      g := ObjectTraced(c, w, ls[..n], p, data);
      ReadBefore(c, w, ls, p, d.id, g, d.row, data);
    }
  }

  lemma JustRead(c: Config, w: World, ls: seq<Label>, p: Pid, id: Id, row: Row, data: Option<Bytes>)
    requires ls != [] && p in Run(c, w, ls).downloads && Run(c, w, ls).downloads[p] == Answered(id, row, data)
    requires var w1 := Run(c, w, ls[..|ls| - 1]); p in w1.downloads && w1.downloads[p] == Fetching(id, row)
    requires var w1 := Run(c, w, ls[..|ls| - 1]); DownloadStep(w1, Run(c, w, ls), ls[|ls| - 1], p)
    ensures ReadObject(c, w, ls, p, id, |ls| - 1, row, data)
  {
    assert ls[..|ls|] == ls;
    hide Run;
  }

  lemma ReadBefore(c: Config, w: World, ls: seq<Label>, p: Pid, id: Id, g: nat, row: Row, data: Option<Bytes>)
    requires ls != [] && p in Run(c, w, ls).downloads && ReadObject(c, w, ls[..|ls| - 1], p, id, g, row, data)
    ensures ReadObject(c, w, ls, p, id, g, row, data)
  {
    hide Run, LookedUp, Held;
    var n := |ls| - 1;
    assert ls[..n][..g] == ls[..g] && ls[..n][..g + 1] == ls[..g + 1];
    HeldMore(c, w, ls, p, g);
  }

  // ---- what the answer means -------------------------------------------------

  // The answer of p's download, opened at b, its row read at r and its object
  // looked for at g. Served bytes were the file's at r. No row means that clients
  // could not see the file at r. No object means that they could, and that it
  // was deleted at d, between the two reads.
  ghost predicate Explains(c: Config, w: World, ls: seq<Label>, p: Pid, b: nat, r: nat, g: nat, d: nat)
    requires p in Run(c, w, ls).downloads
  {
    var a := Run(c, w, ls).downloads[p];
    && b < r && Opened(c, w, ls, p, a.id, b) && ReadRow(c, w, ls, p, a.id, r, RowOf(a))
    && var seen := Visible(Run(c, w, ls[..r]));
    match a
    case Served(id, row, data) =>
      r < g && ReadObject(c, w, ls, p, id, g, row, Some(data))
      && id in seen && seen[id] == Content(row.size, row.checksum, Some(data))
    case NoObject(id, row) =>
      id in seen && r <= d < g && DeletedAt(c, w, ls, d, id) && ReadObject(c, w, ls, p, id, g, row, None)
    case NoRow(id) => id !in seen
    case _ => true
  }

  ghost predicate Explained(c: Config, w: World, ls: seq<Label>, p: Pid)
    requires p in Run(c, w, ls).downloads
  {
    exists b, r, g, d :: Explains(c, w, ls, p, b, r, g, d)
  }

  // The files a client can see are the live rows, each with its own object.
  lemma SeenAt(c: Config, D: nat, S: nat, t: Time, ls: seq<Label>, r: nat, id: Id)
    requires D + S < c.grace && Timely(c, D, S, Init(t), ls) && r <= |ls|
    ensures var w := Run(c, Init(t), ls[..r]);
      && (IsLive(w.files, id) <==> id in Visible(w)) && (IsLive(w.files, id) ==> id !in w.hist.deleted)
      && (IsLive(w.files, id) ==>
            var row := w.files[id];
            && row.key in w.hist.stored
            && Visible(w)[id] == Content(row.size, row.checksum, Some(w.hist.stored[row.key].data)))
  {
    TimelyPrefix(c, D, S, Init(t), ls, r);
    LiveFilesSurvive(c, D, S, t, ls[..r]);
    InitGuarded(c, D, t);
    RunSound(c, Init(t), ls[..r]);
    hide Run, ProcessesSound, Timely;
  }

  lemma {:induction false} TimelyPrefix(c: Config, D: nat, S: nat, w: World, ls: seq<Label>, r: nat)
    requires Timely(c, D, S, w, ls) && r <= |ls|
    ensures Timely(c, D, S, w, ls[..r])
  {
    if r == |ls| {
      assert ls[..r] == ls;
    } else {
      assert ls[..|ls| - 1][..r] == ls[..r];
      TimelyPrefix(c, D, S, w, ls[..|ls| - 1], r);
    }
  }

  // Every download that has its answer is explained.
  lemma DownloadExplained(c: Config, D: nat, S: nat, t: Time, ls: seq<Label>, p: Pid)
    returns (b: nat, r: nat, g: nat, d: nat)
    requires D + S < c.grace && Timely(c, D, S, Init(t), ls)
    requires p in Run(c, Init(t), ls).downloads
    requires var a := Run(c, Init(t), ls).downloads[p]; a.Served? || a.NoObject? || a.NoRow?
    ensures Explains(c, Init(t), ls, p, b, r, g, d)
  {
    var a := Run(c, Init(t), ls).downloads[p];
    g, d := 0, 0;
    if a.NoRow? {
      r := RowTraced(c, Init(t), ls, p);
    } else {
      g := ObjectTraced(c, Init(t), ls, p, if a.Served? then Some(a.data) else None);
      r := RowTraced(c, Init(t), ls[..g], p);
      ReadEarlier(c, Init(t), ls, p, a.id, r, g, a.row, if a.Served? then Some(a.data) else None);
    }
    b := OpenTraced(c, Init(t), ls[..r], p);
    OpenedEarlier(c, Init(t), ls, p, a.id, b, r, RowOf(a));
    SeenAt(c, D, S, t, ls, r, a.id);
    hide Next, Timely;
    if a.Served? {
      ServedStored(c, t, ls, p, r);
    } else if a.NoObject? {
      d := DeletedBetween(c, D, S, t, ls, p, a.id, r, g, a.row);
    }
  }

  lemma ReadEarlier(c: Config, w: World, ls: seq<Label>, p: Pid, id: Id, r: nat, g: nat, row: Row, data: Option<Bytes>)
    requires ReadObject(c, w, ls, p, id, g, row, data) && ReadRow(c, w, ls[..g], p, id, r, Some(row))
    ensures r < g && ReadRow(c, w, ls, p, id, r, Some(row))
  {
    assert ls[..g][..r] == ls[..r];
    hide Run;
    HeldOn(c, w, ls, p, g, r);
  }

  lemma DeletedBetween(c: Config, D: nat, S: nat, t: Time, ls: seq<Label>, p: Pid, id: Id, r: nat, g: nat, row: Row)
    returns (d: nat)
    requires D + S < c.grace && Timely(c, D, S, Init(t), ls)
    requires r < g && ReadObject(c, Init(t), ls, p, id, g, row, None)
    requires id !in Run(c, Init(t), ls[..r]).hist.deleted
    ensures r <= d < g && DeletedAt(c, Init(t), ls, d, id)
  {
    var upto := ls[..g + 1];
    TimelyPrefix(c, D, S, Init(t), ls, g + 1);
    RunMisses(c, D, S, t, upto);
    assert upto[..r] == ls[..r];
    d := DeleteTraced(c, Init(t), upto, id, r);
    assert upto[..d] == ls[..d];
  }

  lemma OpenedEarlier(c: Config, w: World, ls: seq<Label>, p: Pid, id: Id, b: nat, r: nat, row: Option<Row>)
    requires ReadRow(c, w, ls, p, id, r, row) && Opened(c, w, ls[..r], p, id, b)
    ensures b < r && Opened(c, w, ls, p, id, b)
  {
    assert ls[..r][..b] == ls[..b];
    hide Run;
    HeldOn(c, w, ls, p, r, b);
  }

  // Served bytes are those stored under the row's key when the row was read.
  lemma ServedStored(c: Config, t: Time, ls: seq<Label>, p: Pid, r: nat)
    requires r <= |ls| && p in Run(c, Init(t), ls).downloads && Run(c, Init(t), ls).downloads[p].Served?
    ensures var a, h := Run(c, Init(t), ls).downloads[p], Run(c, Init(t), ls[..r]).hist;
      a.row.key in h.stored ==> a.data == h.stored[a.row.key].data
  {
    InitGuarded(c, 0, t);
    RunSound(c, Init(t), ls);
    assert DownloadSound(Run(c, Init(t), ls).hist, Run(c, Init(t), ls).downloads[p]);
    RunGrows(c, t, ls, r);
    hide Run, Sound;
  }

  // Every row ever inserted was published with the bytes its upload put.
  lemma {:induction false} InsertPublished(c: Config, t: Time, ls: seq<Label>, id: Id)
    requires id in Run(c, Init(t), ls).hist.inserted
    ensures var h := Run(c, Init(t), ls).hist; var row := h.inserted[id];
      && row.key in h.stored
      && Publish(id, Content(row.size, row.checksum, Some(h.stored[row.key].data))) in Events(c, Init(t), ls)
  {
    var n := |ls| - 1;
    var w := Run(c, Init(t), ls[..n]);
    InitGuarded(c, 0, t);
    RunSound(c, Init(t), ls[..n]);
    StepHistory(c, w, ls[n]);
    StepGrows(c, w, ls[n]);
    if id in w.hist.inserted {
      InsertPublished(c, t, ls[..n], id);
    } else {
      assert UploadSound(c, w.hist, w.uploads[ls[n].pid]);
    }
  }

  lemma {:induction false} PublishedIsInserted(c: Config, t: Time, ls: seq<Label>, i: nat)
    requires i < |Events(c, Init(t), ls)| && Events(c, Init(t), ls)[i].Publish?
    ensures Events(c, Init(t), ls)[i].id in Run(c, Init(t), ls).hist.inserted
  {
    var n := |ls| - 1;
    var w := Run(c, Init(t), ls[..n]);
    InitGuarded(c, 0, t);
    RunSound(c, Init(t), ls[..n]);
    StepGrows(c, w, ls[n]);
    hide Sound;
    if i < |Events(c, Init(t), ls[..n])| {
      PublishedIsInserted(c, t, ls[..n], i);
      hide Next;
    }
  }

  // No id is ever published twice, not even after its row was purged.
  lemma {:induction false} PublishedOnce(c: Config, t: Time, ls: seq<Label>, i: nat, j: nat)
    requires i < j < |Events(c, Init(t), ls)|
    requires Events(c, Init(t), ls)[i].Publish? && Events(c, Init(t), ls)[j].Publish?
    ensures Events(c, Init(t), ls)[i].id != Events(c, Init(t), ls)[j].id
  {
    hide Next, EventOf;
    var n := |ls| - 1;
    var es, w := Events(c, Init(t), ls[..n]), Run(c, Init(t), ls[..n]);
    if j < |es| {
      PublishedOnce(c, t, ls[..n], i, j);
    } else {
      PublishedIsInserted(c, t, ls[..n], i);
      InitGuarded(c, 0, t);
      RunSound(c, Init(t), ls[..n]);
      hide Sound;
      PublishFresh(c, w, ls[n]);
    }
  }

  // Whatever bytes a download serves are those its file was published with.
  lemma ServedIsPublished(c: Config, t: Time, ls: seq<Label>, p: Pid)
    requires var w := Run(c, Init(t), ls); p in w.downloads && w.downloads[p].Served?
    ensures var d := Run(c, Init(t), ls).downloads[p];
      Publish(d.id, Content(d.row.size, d.row.checksum, Some(d.data))) in Events(c, Init(t), ls)
      && d.row.checksum == c.hash(d.data)
  {
    var w := Run(c, Init(t), ls);
    InitGuarded(c, 0, t);
    RunSound(c, Init(t), ls);
    assert DownloadSound(w.hist, w.downloads[p]);
    InsertPublished(c, t, ls, w.downloads[p].id);
  }
}
