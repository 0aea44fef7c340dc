/** What callers of a guarded upload are told: replays, "gone" and conflicts,
    traced back to the steps of the run that justify them. No timing is assumed. */
module Answers {
  import opened Types
  import opened Protocol
  import opened Soundness
  import opened Safety
  import opened Idempotency
  import opened Refinement
  import opened Calls

  // Step i of the run commits file `id` under idempotency key `k`.
  ghost predicate CommittedAt(c: Config, w: World, ls: seq<Label>, i: nat, k: string, id: Id) {
    i < |ls| && CommitsUnder(Run(c, w, ls[..i]), ls[i], k) && Run(c, w, ls[..i]).uploads[ls[i].pid].file.id == id
  }

  // Step i of the run soft-deletes file `id`.
  ghost predicate DeletedAt(c: Config, w: World, ls: seq<Label>, i: nat, id: Id) {
    i < |ls| && ls[i] == SoftDelete(id) && IsLive(Run(c, w, ls[..i]).files, id)
  }

  // The only steps that add to the history of commits, deletes and rows.
  ghost predicate HistoryStep(w: World, l: Label, h': History) {
    && (forall k, id :: (k, id) in h'.commits && (k, id) !in w.hist.commits ==>
          CommitsUnder(w, l, k) && w.uploads[l.pid].file.id == id)
    && (forall id :: id in h'.deleted && id !in w.hist.deleted ==> l == SoftDelete(id) && IsLive(w.files, id))
    && (forall id :: id in h'.inserted && id !in w.hist.inserted ==>
          && l.Up? && l.up.Ok? && l.pid in w.uploads && Commits(w, w.uploads[l.pid])
          && w.uploads[l.pid].file.id == id && h'.inserted[id] == w.uploads[l.pid].file.ToRow())
  }

  lemma UploadHistory(c: Config, w: World, pid: Pid, a: UploadAct)
    ensures HistoryStep(w, Up(pid, a), UploadNext(c, w, pid, a).hist)
  {
  }

  lemma SameHistory(c: Config, w: World, l: Label)
    requires l.Sw? || l.Dn? || l.Tick?
    ensures Next(c, w, l).hist == w.hist
  {
    match l
    case Sw(pid, a) => SweepHistory(c, w, pid, a);
    case Dn(pid, a) => DownloadHistory(w, pid, a);
    case _ =>
    hide UploadNext, SweepNext, DownloadNext;
  }

  lemma SweepHistory(c: Config, w: World, pid: Pid, a: SweepAct)
    ensures SweepNext(c, w, pid, a).hist == w.hist
  {
  }

  lemma DownloadHistory(w: World, pid: Pid, a: DownloadAct)
    ensures DownloadNext(w, pid, a).hist == w.hist
  {
  }

  lemma StepHistory(c: Config, w: World, l: Label)
    ensures HistoryStep(w, l, Next(c, w, l).hist)
  {
    match l
    case Up(pid, a) => UploadHistory(c, w, pid, a);
    case SoftDelete(_) =>
    case _ => SameHistory(c, w, l);
  }

  lemma UploadGrows(c: Config, w: World, pid: Pid, a: UploadAct)
    requires pid in w.uploads ==> UploadSound(c, w.hist, w.uploads[pid])
    ensures Grows(w.hist, UploadNext(c, w, pid, a).hist)
  {
  }

  lemma StepGrows(c: Config, w: World, l: Label)
    requires Sound(c, w)
    ensures Grows(w.hist, Next(c, w, l).hist)
  {
    hide UploadNext, SweepNext, DownloadNext, Stamp;
    match l
    case Up(pid, a) =>
      assert pid in w.uploads ==> UploadSound(c, w.hist, w.uploads[pid]);
      hide Sound;
      UploadGrows(c, w, pid, a);
    case SoftDelete(id) => StampGrows(w, id);
    case _ =>
      SameHistory(c, w, l);
      hide Sound, Next;
  }

  lemma StampGrows(w: World, id: Id)
    ensures Grows(w.hist, Stamp(w, id).hist)
  {
  }

  lemma {:induction false} RunGrows(c: Config, t: Time, ls: seq<Label>, from: nat)
    requires from <= |ls|
    ensures Grows(Run(c, Init(t), ls[..from]).hist, Run(c, Init(t), ls).hist)
  {
    if from == |ls| {
      assert ls[..from] == ls;
    } else {
      var n := |ls| - 1;
      assert ls[..n][..from] == ls[..from];
      RunGrows(c, t, ls[..n], from);
      InitGuarded(c, 0, t);
      RunSound(c, Init(t), ls[..n]);
      hide Sound, Next;
      StepGrows(c, Run(c, Init(t), ls[..n]), ls[n]);
    }
  }

  lemma {:induction false} CommitTraced(c: Config, w: World, ls: seq<Label>, k: string, id: Id) returns (i: nat)
    requires (k, id) in Run(c, w, ls).hist.commits && (k, id) !in w.hist.commits
    ensures CommittedAt(c, w, ls, i, k, id)
  {
    var n := |ls| - 1;
    if (k, id) in Run(c, w, ls[..n]).hist.commits {
      i := CommitTraced(c, w, ls[..n], k, id);
      assert ls[..n][..i] == ls[..i];
    } else {
      StepHistory(c, Run(c, w, ls[..n]), ls[n]);
      i := n;
    }
  }

  lemma {:induction false} DeleteTraced(c: Config, w: World, ls: seq<Label>, id: Id, from: nat) returns (i: nat)
    requires from <= |ls| && id in Run(c, w, ls).hist.deleted && id !in Run(c, w, ls[..from]).hist.deleted
    ensures from <= i && DeletedAt(c, w, ls, i, id)
  {
    assert ls[..|ls|] == ls;
    var n := |ls| - 1;
    assert ls[..n][..from] == ls[..from];
    if id in Run(c, w, ls[..n]).hist.deleted {
      i := DeleteTraced(c, w, ls[..n], id, from);
      assert ls[..n][..i] == ls[..i];
    } else {
      StepHistory(c, Run(c, w, ls[..n]), ls[n]);
      i := n;
    }
  }

  // ---- idempotent uploads ------------------------------------------------

  // The answer of p's call. It began at b under the answer's key, which was taken
  // when the claim was tried at t. A conflict read at r that the key was not
  // completed. Otherwise it read at r that file o.id completed the key, and looked
  // for the file's row at a: a commit under that key had inserted the file at an
  // earlier step i. A replay found it live and returns the row that commit
  // inserted; "gone" found it deleted, at a step d before a.
  datatype Story = Story(b: nat, t: nat, r: nat, a: nat, i: nat, d: nat)

  ghost predicate Earned(c: Config, w: World, ls: seq<Label>, p: Pid, o: Outcome, s: Story) {
    match o
    case Conflict(k) =>
      && Reread(c, w, ls, p, k, s.b, s.t, s.r) && Rested(c, w, ls, p, Returned(o), s.r)
      && var keys := Run(c, w, ls[..s.r]).keys; !(k in keys && keys[k].status.Completed?)
    case Replayed(k, id, row) =>
      && Loaded(c, w, ls, p, k, id, s.b, s.t, s.r, s.a) && Rested(c, w, ls, p, Returned(o), s.a)
      && s.i < s.a && CommittedAt(c, w, ls, s.i, k, id)
      && IsLive(Run(c, w, ls[..s.a]).files, id) && row == Run(c, w, ls[..s.a]).files[id]
      && row == Run(c, w, ls[..s.i]).uploads[ls[s.i].pid].file.ToRow()
    case Gone(k, id) =>
      && Loaded(c, w, ls, p, k, id, s.b, s.t, s.r, s.a) && Rested(c, w, ls, p, Returned(o), s.a)
      && s.i <= s.d < s.a && CommittedAt(c, w, ls, s.i, k, id) && DeletedAt(c, w, ls, s.d, id)
    case _ => false
  }

  ghost predicate AnswersKey(o: Outcome) {
    o.Replayed? || o.Gone? || o.Conflict?
  }

  // Every answer that a key gives is earned.
  lemma ReplayIsEarned(c: Config, t: Time, ls: seq<Label>, p: Pid) returns (s: Story)
    requires var w := Run(c, Init(t), ls); p in w.uploads && w.uploads[p].Returned? && AnswersKey(w.uploads[p].outcome)
    ensures Earned(c, Init(t), ls, p, Run(c, Init(t), ls).uploads[p].outcome, s)
  {
    var o := Run(c, Init(t), ls).uploads[p].outcome;
    var last := LastMove(c, Init(t), ls, p);
    hide Next, Rested, Run;
    if o.Conflict? {
      var b, tried := RereadWhen(c, Init(t), ls, p, o.key, last);
      s := Story(b, tried, last, 0, 0, 0);
    } else {
      var b, tried, r := LoadedWhen(c, Init(t), ls, p, o.key, o.id, last);
      var i := CommittedBefore(c, t, ls, p, o.key, o.id, last);
      var d := i;
      if o.Gone? {
        d := DeletedBefore(c, t, ls, o.key, o.id, i, last);
      } else {
        ReplayedRow(c, t, ls, o.key, o.id, i, last);
      }
      s := Story(b, tried, r, last, i, d);
    }
  }

  lemma CommittedBefore(c: Config, t: Time, ls: seq<Label>, p: Pid, k: string, id: Id, a: nat) returns (i: nat)
    requires a <= |ls|
    requires var w := Run(c, Init(t), ls[..a]); p in w.uploads && w.uploads[p] == Loading(k, id)
    ensures i < a && CommittedAt(c, Init(t), ls, i, k, id) && CommittedAt(c, Init(t), ls[..a], i, k, id)
  {
    InitGuarded(c, 0, t);
    RunSound(c, Init(t), ls[..a]);
    assert UploadSound(c, Run(c, Init(t), ls[..a]).hist, Loading(k, id));
    i := CommitTraced(c, Init(t), ls[..a], k, id);
    assert ls[..a][..i] == ls[..i];
  }

  lemma DeletedBefore(c: Config, t: Time, ls: seq<Label>, k: string, id: Id, i: nat, a: nat) returns (d: nat)
    requires a <= |ls| && CommittedAt(c, Init(t), ls[..a], i, k, id) && !IsLive(Run(c, Init(t), ls[..a]).files, id)
    ensures i <= d < a && DeletedAt(c, Init(t), ls, d, id)
  {
    CommittedRow(c, t, ls[..a], i, k, id);
    NotDeletedBeforeCommit(c, t, ls[..a], i, k, id);
    InitGuarded(c, 0, t);
    RunSound(c, Init(t), ls[..a]);
    assert id in Run(c, Init(t), ls[..a]).hist.deleted;
    hide Sound, Run;
    d := DeleteTraced(c, Init(t), ls[..a], id, i);
    assert ls[..a][..d] == ls[..d];
  }

  lemma ReplayedRow(c: Config, t: Time, ls: seq<Label>, k: string, id: Id, i: nat, a: nat)
    requires a <= |ls| && CommittedAt(c, Init(t), ls[..a], i, k, id) && CommittedAt(c, Init(t), ls, i, k, id)
    requires IsLive(Run(c, Init(t), ls[..a]).files, id)
    ensures Run(c, Init(t), ls[..a]).files[id] == Run(c, Init(t), ls[..i]).uploads[ls[i].pid].file.ToRow()
  {
    CommittedRow(c, t, ls[..a], i, k, id);
    InitGuarded(c, 0, t);
    RunSound(c, Init(t), ls[..a]);
    assert ls[..a][..i] == ls[..i];
    hide Run;
  }

  // A commit under a key was made by a call that began under that key and had
  // claimed it while it was free.
  lemma CommitIsClaimed(c: Config, t: Time, ls: seq<Label>, i: nat, k: string, id: Id) returns (b: nat, tried: nat)
    requires CommittedAt(c, Init(t), ls, i, k, id)
    ensures var cl := Run(c, Init(t), ls[..i]).uploads[ls[i].pid].claim.value;
      cl.key == k && tried < i && Claimed(c, Init(t), ls[..i], ls[i].pid, cl, b, tried)
  {
    b, tried := ClaimedWhen(c, Init(t), ls[..i], ls[i].pid);
  }

  lemma CommittedRow(c: Config, t: Time, ls: seq<Label>, i: nat, k: string, id: Id)
    requires CommittedAt(c, Init(t), ls, i, k, id)
    ensures id in Run(c, Init(t), ls).hist.inserted
    ensures Run(c, Init(t), ls).hist.inserted[id] == Run(c, Init(t), ls[..i]).uploads[ls[i].pid].file.ToRow()
  {
    var w := Run(c, Init(t), ls[..i]);
    assert ls[..i + 1][..i] == ls[..i] && Run(c, Init(t), ls[..i + 1]) == Next(c, w, ls[i]);
    hide Run;
    CommitInserts(c, w, ls[i], k);
    RunGrows(c, t, ls, i + 1);
    hide Next;
  }

  lemma CommitInserts(c: Config, w: World, l: Label, k: string)
    requires CommitsUnder(w, l, k)
    ensures var f, h := w.uploads[l.pid].file, Next(c, w, l).hist; f.id in h.inserted && h.inserted[f.id] == f.ToRow()
  {
    hide AfterOk, AfterErr, AfterPut, KeysAfter, SweepNext, DownloadNext, Stamp;
  }

  lemma NotDeletedBeforeCommit(c: Config, t: Time, ls: seq<Label>, i: nat, k: string, id: Id)
    requires CommittedAt(c, Init(t), ls, i, k, id)
    ensures id !in Run(c, Init(t), ls[..i]).hist.deleted && id !in Run(c, Init(t), ls[..i]).hist.inserted
  {
    var w := Run(c, Init(t), ls[..i]);
    InitGuarded(c, 0, t);
    RunSound(c, Init(t), ls[..i]);
    assert UploadSound(c, w.hist, w.uploads[ls[i].pid]);
  }

  // A completed key names a row that a commit under that very key inserted.
  lemma CompletedKeyIsReal(c: Config, t: Time, ls: seq<Label>, k: string) returns (i: nat)
    requires var w := Run(c, Init(t), ls); k in w.keys && w.keys[k].status.Completed?
    ensures var w := Run(c, Init(t), ls);
      w.keys[k].status.file in w.hist.inserted && CommittedAt(c, Init(t), ls, i, k, w.keys[k].status.file)
  {
    InitGuarded(c, 0, t);
    RunSound(c, Init(t), ls);
    i := CommitTraced(c, Init(t), ls, k, Run(c, Init(t), ls).keys[k].status.file);
  }
}
