/** An upload's call, traced back from where it is to the steps that brought it
    there: when it began, what its claim found, and what it read. */
module Calls {
  import opened Types
  import opened Protocol

  // ---- one step of an upload -----------------------------------------------

  // A step of somebody else, or one that changed nothing for p.
  ghost predicate Idle(w: World, w': World, p: Pid) {
    p in w.uploads && p in w'.uploads && w'.uploads[p] == w.uploads[p]
  }

  lemma SweepsLeaveUploads(c: Config, w: World, pid: Pid, a: SweepAct)
    ensures SweepNext(c, w, pid, a).uploads == w.uploads
  {
    hide AfterDone, AfterFailure, Drops, Purge, Unexpired, OldestDeleted, Enumerates, Records, Listing;
  }

  lemma DownloadsLeaveUploads(w: World, pid: Pid, a: DownloadAct)
    ensures DownloadNext(w, pid, a).uploads == w.uploads
  {
  }

  // The upload p is somewhere else after the step: then the step was its own.
  lemma OnlyOwnSteps(c: Config, w: World, l: Label, p: Pid)
    requires p in Next(c, w, l).uploads && !Idle(w, Next(c, w, l), p)
    ensures l.Up? && l.pid == p && Next(c, w, l) == UploadNext(c, w, p, l.up)
  {
    hide UploadNext, SweepNext, DownloadNext;
    match l
    case Up(pid, a) =>
      if pid != p {
        OthersStay(c, w, pid, a, p);
      }
    case Sw(pid, a) => SweepsLeaveUploads(c, w, pid, a);
    case Dn(pid, a) => DownloadsLeaveUploads(w, pid, a);
    case _ =>
  }

  lemma OthersStay(c: Config, w: World, pid: Pid, a: UploadAct, p: Pid)
    requires p in UploadNext(c, w, pid, a).uploads && p != pid
    ensures Idle(w, UploadNext(c, w, pid, a), p)
  {
    if pid in w.uploads {
      TablesOnly(w, w.uploads[pid]);
    }
    hide AfterOk, AfterErr, AfterPut, OkTables, GiveUp;
  }

  lemma TablesOnly(w: World, u: Upload)
    ensures var t := OkTables(w, u);
      t.uploads == w.uploads && t.sweeps == w.sweeps && t.downloads == w.downloads && t.now == w.now
  {
    hide KeysAfter, HistAfter, Commits;
  }

  // How an upload comes to each of the states of a guarded call.
  ghost predicate Entered(w: World, a: UploadAct, p: Pid, u: Upload) {
    match u
    case Claiming(k) => a == Begin(Some(k)) && p !in w.uploads
    case Rereading(k) => a.Ok? && p in w.uploads && w.uploads[p] == Claiming(k) && k in w.keys
    case Loading(k, id) =>
      a.Ok? && p in w.uploads && w.uploads[p] == Rereading(k) && k in w.keys && w.keys[k].status == Completed(id)
    case Returned(Replayed(k, id, row)) =>
      a.Ok? && p in w.uploads && w.uploads[p] == Loading(k, id) && IsLive(w.files, id) && row == w.files[id]
    case Returned(Gone(k, id)) => a.Ok? && p in w.uploads && w.uploads[p] == Loading(k, id) && !IsLive(w.files, id)
    case Returned(Conflict(k)) =>
      a.Ok? && p in w.uploads && w.uploads[p] == Rereading(k) && !(k in w.keys && w.keys[k].status.Completed?)
    case _ =>
      u.Claims().Some? ==>
        p in w.uploads && if w.uploads[p].Claims().Some? then w.uploads[p].Claims() == u.Claims()
                          else var cl := u.Claims().value;
                            a.Ok? && w.uploads[p] == Claiming(cl.key) && cl.key !in w.keys && cl.at == w.now
  }

  lemma StepEnters(c: Config, w: World, p: Pid, a: UploadAct)
    requires p in UploadNext(c, w, p, a).uploads && !Idle(w, UploadNext(c, w, p, a), p)
    ensures Entered(w, a, p, UploadNext(c, w, p, a).uploads[p])
  {
    hide OkTables, Put;
  }

  // ---- the last step that moved an upload ------------------------------------

  // From step i on, p was where it is when `ls` ends.
  ghost predicate Rested(c: Config, w: World, ls: seq<Label>, p: Pid, u: Upload, i: nat) {
    forall m :: i < m <= |ls| ==> p in Run(c, w, ls[..m]).uploads && Run(c, w, ls[..m]).uploads[p] == u
  }

  lemma RestedMore(c: Config, w: World, ls: seq<Label>, p: Pid, u: Upload, i: nat)
    requires ls != [] && Rested(c, w, ls[..|ls| - 1], p, u, i)
    requires p in Run(c, w, ls).uploads && Run(c, w, ls).uploads[p] == u
    ensures Rested(c, w, ls, p, u, i)
  {
    hide Run;
    var n := |ls| - 1;
    assert ls[..|ls|] == ls;
    forall m | i < m <= |ls|
      ensures p in Run(c, w, ls[..m]).uploads && Run(c, w, ls[..m]).uploads[p] == u
    {
      if m <= n {
        assert ls[..n][..m] == ls[..m];
      }
    }
  }

  // Step i is the last that moved p: it brought p to u, where it still is.
  ghost predicate Moved(c: Config, w: World, ls: seq<Label>, p: Pid, u: Upload, i: nat) {
    && i < |ls| && ls[i].Up? && ls[i].pid == p && Entered(Run(c, w, ls[..i]), ls[i].up, p, u)
    && Rested(c, w, ls, p, u, i)
  }

  lemma {:induction false} LastMove(c: Config, w: World, ls: seq<Label>, p: Pid) returns (i: nat)
    requires p !in w.uploads && p in Run(c, w, ls).uploads
    ensures Moved(c, w, ls, p, Run(c, w, ls).uploads[p], i)
  {
    var n := |ls| - 1;
    var w1, u := Run(c, w, ls[..n]), Run(c, w, ls).uploads[p];
    assert Run(c, w, ls) == Next(c, w1, ls[n]);
    hide Run, Next, Entered, Rested;
    if Idle(w1, Run(c, w, ls), p) {
      i := LastMove(c, w, ls[..n], p);
      assert ls[..n][..i] == ls[..i];
      RestedMore(c, w, ls, p, u, i);
    } else {
      i := n;
      OnlyOwnSteps(c, w1, ls[n], p);
      StepEnters(c, w1, p, ls[n].up);
      JustRested(c, w, ls, p);
    }
  }

  lemma JustRested(c: Config, w: World, ls: seq<Label>, p: Pid)
    requires ls != [] && p in Run(c, w, ls).uploads
    ensures Rested(c, w, ls, p, Run(c, w, ls).uploads[p], |ls| - 1)
  {
    hide Run;
    assert ls[..|ls|] == ls;
  }

  // ---- the call, from its beginning ------------------------------------------

  // Step b began p's call under key k, and step t asked for the key.
  ghost predicate Asked(c: Config, w: World, ls: seq<Label>, p: Pid, k: string, b: nat, t: nat) {
    && b < t < |ls| && ls[b] == Up(p, Begin(Some(k))) && p !in Run(c, w, ls[..b]).uploads
    && ls[t] == Up(p, Ok) && Rested(c, w, ls[..t], p, Claiming(k), b)
  }

  lemma AskedWhen(c: Config, w: World, ls: seq<Label>, p: Pid, k: string, t: nat) returns (b: nat)
    requires p !in w.uploads && t < |ls| && ls[t] == Up(p, Ok)
    requires var w' := Run(c, w, ls[..t]); p in w'.uploads && w'.uploads[p] == Claiming(k)
    ensures Asked(c, w, ls, p, k, b, t)
  {
    b := LastMove(c, w, ls[..t], p);
    assert ls[..t][..b] == ls[..b];
    hide Run, Rested;
  }

  // The same call found the key taken at t and read it again at r.
  ghost predicate Reread(c: Config, w: World, ls: seq<Label>, p: Pid, k: string, b: nat, t: nat, r: nat) {
    && t < r < |ls| && Asked(c, w, ls, p, k, b, t) && k in Run(c, w, ls[..t]).keys
    && ls[r] == Up(p, Ok) && Rested(c, w, ls[..r], p, Rereading(k), t)
  }

  lemma RereadWhen(c: Config, w: World, ls: seq<Label>, p: Pid, k: string, r: nat) returns (b: nat, t: nat)
    requires p !in w.uploads && r < |ls| && ls[r] == Up(p, Ok)
    requires var w' := Run(c, w, ls[..r]); p in w'.uploads && w'.uploads[p] == Rereading(k)
    ensures Reread(c, w, ls, p, k, b, t, r)
  {
    t := LastMove(c, w, ls[..r], p);
    assert ls[..r][..t] == ls[..t];
    hide Run, Rested;
    b := AskedWhen(c, w, ls, p, k, t);
  }

  // The same call read at r that file `id` completed the key, and looked for its
  // row at a.
  ghost predicate Loaded(c: Config, w: World, ls: seq<Label>, p: Pid, k: string, id: Id,
                         b: nat, t: nat, r: nat, a: nat)
  {
    && r < a < |ls| && Reread(c, w, ls, p, k, b, t, r)
    && k in Run(c, w, ls[..r]).keys && Run(c, w, ls[..r]).keys[k].status == Completed(id)
    && ls[a] == Up(p, Ok) && Rested(c, w, ls[..a], p, Loading(k, id), r)
  }

  lemma LoadedWhen(c: Config, w: World, ls: seq<Label>, p: Pid, k: string, id: Id, a: nat)
    returns (b: nat, t: nat, r: nat)
    requires p !in w.uploads && a < |ls| && ls[a] == Up(p, Ok)
    requires var w' := Run(c, w, ls[..a]); p in w'.uploads && w'.uploads[p] == Loading(k, id)
    ensures Loaded(c, w, ls, p, k, id, b, t, r, a)
  {
    r := LastMove(c, w, ls[..a], p);
    assert ls[..a][..r] == ls[..r];
    hide Run, Rested;
    b, t := RereadWhen(c, w, ls, p, k, r);
  }

  // Who acts under a claim made the call that claimed the key: it was begun under
  // the key, and found it free at t.
  ghost predicate Claimed(c: Config, w: World, ls: seq<Label>, p: Pid, cl: Claim, b: nat, t: nat) {
    && Asked(c, w, ls, p, cl.key, b, t)
    && var w' := Run(c, w, ls[..t]); cl.key !in w'.keys && cl.at == w'.now
  }

  lemma {:induction false} ClaimedWhen(c: Config, w: World, ls: seq<Label>, p: Pid) returns (b: nat, t: nat)
    requires p !in w.uploads && p in Run(c, w, ls).uploads && Run(c, w, ls).uploads[p].Claims().Some?
    ensures Claimed(c, w, ls, p, Run(c, w, ls).uploads[p].Claims().value, b, t)
    decreases |ls|
  {
    var u := Run(c, w, ls).uploads[p];
    var i := LastMove(c, w, ls, p);
    hide Rested;
    var w1 := Run(c, w, ls[..i]);
    hide Run, Asked;
    if w1.uploads[p].Claims().Some? {
      b, t := ClaimedWhen(c, w, ls[..i], p);
      AskedLonger(c, w, ls, p, u.Claims().value.key, b, t, i);
    } else {
      t := i;
      b := AskedWhen(c, w, ls, p, u.Claims().value.key, t);
    }
  }

  lemma AskedLonger(c: Config, w: World, ls: seq<Label>, p: Pid, k: string, b: nat, t: nat, n: nat)
    requires n <= |ls| && Asked(c, w, ls[..n], p, k, b, t)
    ensures Asked(c, w, ls, p, k, b, t) && ls[..n][..t] == ls[..t]
  {
    hide Run, Rested;
    assert ls[..n][..t] == ls[..t] && ls[..n][..b] == ls[..b];
  }
}
