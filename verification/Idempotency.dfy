/** At most one file per idempotency key between two expiries, and exactly when
    that is so.

    The completing update and the release find the claim by its key alone, not
    by its owner. What makes them safe is that an owner finishes before its
    claim can expire: `B` bounds the time from a claim to any effect the owner
    has on the key. Nothing in the code enforces it. */
module Idempotency {
  import opened Types
  import opened Protocol

  // The step commits a file row under an idempotency key.
  ghost predicate CommitsUnder(w: World, l: Label, key: string) {
    && l.Up? && l.up.Ok? && l.pid in w.uploads
    && var u := w.uploads[l.pid];
    && Commits(w, u) && u.claim.Some? && u.claim.value.key == key
  }

  // The step deletes an idempotency key that passed its time to live.
  ghost predicate Expires(w: World, l: Label, key: string) {
    && l.Sw? && l.sw.Done? && l.pid in w.sweeps && w.sweeps[l.pid].Expiring?
    && key in w.keys && w.keys[key].createdAt < w.sweeps[l.pid].before
  }

  // The assumption on one step: owners act on their key at most B after the claim.
  ghost predicate PromptStep(B: nat, w: World, l: Label) {
    l.Up? && l.up.Ok? && l.pid in w.uploads ==>
      var u := w.uploads[l.pid];
      && (Commits(w, u) && u.claim.Some? ==> w.now - u.claim.value.at <= B)
      && (u.Releasing? ==> w.now - u.owned.at <= B)
  }

  ghost predicate Prompt(c: Config, B: nat, w: World, ls: seq<Label>) {
    ls != [] ==>
      Prompt(c, B, w, ls[..|ls| - 1]) && PromptStep(B, Run(c, w, ls[..|ls| - 1]), ls[|ls| - 1])
  }

  // Two commits under one key always have an expiry of that key between them.
  ghost predicate AtMostOnce(c: Config, w: World, ls: seq<Label>) {
    forall i, j, key :: 0 <= i < j < |ls|
      && CommitsUnder(Run(c, w, ls[..i]), ls[i], key) && CommitsUnder(Run(c, w, ls[..j]), ls[j], key)
      ==> exists m :: i < m < j && Expires(Run(c, w, ls[..m]), ls[m], key)
  }

  // ---- the invariant -----------------------------------------------------

  // Either the claim is too old to act on, or its pending row is still there.
  ghost predicate ClaimHeld(B: nat, w: World, cl: Claim) {
    cl.at <= w.now && (w.now - cl.at <= B ==> cl.key in w.keys && w.keys[cl.key] == KeyRow(Pending, cl.at))
  }

  // Two uploads that may still act own different keys.
  ghost predicate OneOwner(B: nat, now: Time, u: Upload, v: Upload) {
    u.Claims().Some? && v.Claims().Some? && now - u.Claims().value.at <= B && now - v.Claims().value.at <= B ==>
      u.Claims().value.key != v.Claims().value.key
  }

  ghost predicate Exclusive(c: Config, B: nat, w: World) {
    && (forall p :: p in w.uploads && w.uploads[p].Claims().Some? ==> ClaimHeld(B, w, w.uploads[p].Claims().value))
    && (forall p, q :: p in w.uploads && q in w.uploads && p != q ==> OneOwner(B, w.now, w.uploads[p], w.uploads[q]))
    && (forall p :: p in w.sweeps && w.sweeps[p].Expiring? ==> w.sweeps[p].before <= w.now - c.ttl && c.ttl > 0)
  }

  // An upload moves on, with a claim that is its own.
  lemma MoveExclusive(c: Config, B: nat, w: World, t: World, pid: Pid, u: Upload)
    requires Exclusive(c, B, w) && t.now == w.now && t.uploads == w.uploads && t.sweeps == w.sweeps
    requires u.Claims().Some? ==>
      && ClaimHeld(B, t, u.Claims().value)
      && forall q :: q in w.uploads && q != pid ==> OneOwner(B, w.now, u, w.uploads[q])
    requires forall q :: q in w.uploads && q != pid && w.uploads[q].Claims().Some? ==>
      ClaimHeld(B, t, w.uploads[q].Claims().value)
    ensures Exclusive(c, B, Goto(t, pid, u))
  {
  }

  // It keeps the claim it had, or gives it up, without touching the keys.
  lemma GotoExclusive(c: Config, B: nat, w: World, t: World, pid: Pid, u: Upload)
    requires Exclusive(c, B, w)
    requires t.now == w.now && t.uploads == w.uploads && t.sweeps == w.sweeps && t.keys == w.keys
    requires u.Claims().Some? ==> pid in w.uploads && u.Claims() == w.uploads[pid].Claims()
    ensures Exclusive(c, B, Goto(t, pid, u))
  {
    if u.Claims().Some? {
      forall q | q in w.uploads && q != pid ensures OneOwner(B, w.now, u, w.uploads[q]) {
        assert OneOwner(B, w.now, w.uploads[pid], w.uploads[q]);
      }
    }
    MoveExclusive(c, B, w, t, pid, u);
  }

  // The owner's last act on its key touches nobody else's.
  lemma OwnKeyExclusive(c: Config, B: nat, w: World, t: World, pid: Pid, u: Upload)
    requires Exclusive(c, B, w) && t.now == w.now && t.uploads == w.uploads && t.sweeps == w.sweeps
    requires pid in w.uploads && w.uploads[pid].Claims().Some? && w.now - w.uploads[pid].Claims().value.at <= B
    requires u.Claims().None?
    requires forall k :: k in w.keys && k != w.uploads[pid].Claims().value.key ==> k in t.keys && t.keys[k] == w.keys[k]
    ensures Exclusive(c, B, Goto(t, pid, u))
  {
    forall q | q in w.uploads && q != pid && w.uploads[q].Claims().Some?
      ensures ClaimHeld(B, t, w.uploads[q].Claims().value)
    {
      assert OneOwner(B, w.now, w.uploads[pid], w.uploads[q]);
      assert ClaimHeld(B, w, w.uploads[q].Claims().value);
    }
    MoveExclusive(c, B, w, t, pid, u);
  }

  // A fresh claim is on a key that nobody can still act on.
  lemma ClaimExclusive(c: Config, B: nat, w: World, t: World, pid: Pid, k: string)
    requires Exclusive(c, B, w) && k !in w.keys
    requires t == w.(keys := w.keys[k := KeyRow(Pending, w.now)])
    ensures Exclusive(c, B, Goto(t, pid, Naming(Some(Claim(k, w.now)))))
  {
    forall q | q in w.uploads && q != pid && w.uploads[q].Claims().Some?
      ensures ClaimHeld(B, t, w.uploads[q].Claims().value)
    {
      assert ClaimHeld(B, w, w.uploads[q].Claims().value);
    }
    MoveExclusive(c, B, w, t, pid, Naming(Some(Claim(k, w.now))));
  }

  lemma UploadOkExclusive(c: Config, B: nat, w: World, pid: Pid)
    requires Exclusive(c, B, w) && pid in w.uploads && PromptStep(B, w, Up(pid, Ok))
    ensures Exclusive(c, B, Goto(OkTables(w, w.uploads[pid]), pid, AfterOk(w, w.uploads[pid])))
  {
    var u := w.uploads[pid];
    var t := OkTables(w, u);
    hide Exclusive;
    if u.Claiming? && u.key !in w.keys {
      ClaimExclusive(c, B, w, t, pid, u.key);
    } else if u.Releasing? || (Commits(w, u) && u.claim.Some?) {
      OwnKeyExclusive(c, B, w, t, pid, AfterOk(w, u));
    } else {
      GotoExclusive(c, B, w, t, pid, AfterOk(w, u));
    }
  }

  lemma CrashExclusive(c: Config, B: nat, w: World, pid: Pid)
    requires Exclusive(c, B, w)
    ensures Exclusive(c, B, w.(uploads := w.uploads - {pid}))
  {
  }

  lemma UploadStepExclusive(c: Config, B: nat, w: World, pid: Pid, a: UploadAct)
    requires Exclusive(c, B, w) && PromptStep(B, w, Up(pid, a))
    ensures Exclusive(c, B, UploadNext(c, w, pid, a))
  {
    hide Exclusive, OkTables, AfterOk;
    if a.Begin? {
      GotoExclusive(c, B, w, w, pid, if a.guard.None? then Naming(None) else Claiming(a.guard.value));
    } else if pid in w.uploads {
      var u := w.uploads[pid];
      match a
      case Ok => UploadOkExclusive(c, B, w, pid);
      case Err => GotoExclusive(c, B, w, w, pid, AfterErr(u));
      case Crash => CrashExclusive(c, B, w, pid);
      case Draw(id, key) =>
        if u.Naming? {
          GotoExclusive(c, B, w, DrawNames(w, id, key), pid, Storing(u.claim, File(id, key, 0, "")));
        }
      case PutOk(data, size) =>
        if u.Storing? {
          GotoExclusive(c, B, w, Put(w, u.file.key, data), pid, AfterPut(c, u, data, size));
        }
      case PutErr(partial) =>
        if u.Storing? {
          var t := if partial.Some? then Put(w, u.file.key, partial.value) else w;
          GotoExclusive(c, B, w, t, pid, GiveUp(u.claim));
        }
    }
  }

  // Expiry removes only keys whose owners can no longer act.
  lemma SweepExclusive(c: Config, B: nat, w: World, pid: Pid, s: Sweep, t: World)
    requires Exclusive(c, B, w) && (B <= c.ttl || c.ttl <= 0)
    requires t.now == w.now && t.uploads == w.uploads && t.sweeps == w.sweeps
    requires t.keys == w.keys ||
      (pid in w.sweeps && w.sweeps[pid].Expiring? && t.keys == Unexpired(w.keys, w.sweeps[pid].before))
    requires s.Expiring? ==> c.ttl > 0 && s.before <= w.now - c.ttl
    ensures Exclusive(c, B, Seek(t, pid, s))
  {
    forall p | p in w.uploads && w.uploads[p].Claims().Some? ensures ClaimHeld(B, t, w.uploads[p].Claims().value) {
      assert ClaimHeld(B, w, w.uploads[p].Claims().value);
    }
  }

  lemma SweepStepExclusive(c: Config, B: nat, w: World, pid: Pid, a: SweepAct)
    requires Exclusive(c, B, w) && (B <= c.ttl || c.ttl <= 0)
    ensures Exclusive(c, B, SweepNext(c, w, pid, a))
  {
    if pid in w.sweeps && a.Done? {
      var s := w.sweeps[pid];
      assert s.Expiring? ==> s.before <= w.now - c.ttl && c.ttl > 0;
      SweepExclusive(c, B, w, pid, AfterDone(c, w, s), DoneTables(w, s));
    } else if pid in w.sweeps && a.Failure? {
      SweepExclusive(c, B, w, pid, AfterFailure(w.sweeps[pid]), w);
    }
  }

  lemma ClockExclusive(c: Config, B: nat, w: World, w': World)
    requires Exclusive(c, B, w) && w.now <= w'.now
    requires w'.keys == w.keys && w'.uploads == w.uploads && w'.sweeps == w.sweeps
    ensures Exclusive(c, B, w')
  {
    forall p, q | p in w.uploads && q in w.uploads && p != q ensures OneOwner(B, w'.now, w.uploads[p], w.uploads[q]) {
      assert OneOwner(B, w.now, w.uploads[p], w.uploads[q]);
    }
  }

  lemma OtherExclusive(c: Config, B: nat, w: World, l: Label)
    requires Exclusive(c, B, w) && !l.Up? && !l.Sw?
    ensures Exclusive(c, B, Next(c, w, l))
  {
    hide Exclusive, UploadNext, SweepNext;
    ClockExclusive(c, B, w, Next(c, w, l));
  }

  lemma StepExclusive(c: Config, B: nat, w: World, l: Label)
    requires Exclusive(c, B, w) && PromptStep(B, w, l) && (B <= c.ttl || c.ttl <= 0)
    ensures Exclusive(c, B, Next(c, w, l))
  {
    hide UploadNext, SweepNext, DownloadNext, Stamp, Exclusive;
    match l
    case Up(pid, a) => UploadStepExclusive(c, B, w, pid, a);
    case Sw(pid, a) => SweepStepExclusive(c, B, w, pid, a);
    case _ => OtherExclusive(c, B, w, l);
  }

  lemma {:induction false} RunExclusive(c: Config, B: nat, w: World, ls: seq<Label>)
    requires Exclusive(c, B, w) && Prompt(c, B, w, ls) && (B <= c.ttl || c.ttl <= 0)
    ensures Exclusive(c, B, Run(c, w, ls))
  {
    hide Exclusive;
    if ls == [] {
    } else {
      var n := |ls| - 1;
      RunExclusive(c, B, w, ls[..n]);
      StepExclusive(c, B, Run(c, w, ls[..n]), ls[n]);
    }
  }

  // ---- a completed key keeps its file until it expires --------------------

  lemma CompletedBlocksCommit(c: Config, B: nat, w: World, l: Label, k: string)
    requires Exclusive(c, B, w) && PromptStep(B, w, l) && k in w.keys && w.keys[k].status.Completed?
    ensures !CommitsUnder(w, l, k)
  {
  }

  lemma CompletedStays(c: Config, B: nat, w: World, l: Label, k: string)
    requires Exclusive(c, B, w) && PromptStep(B, w, l)
    requires k in w.keys && w.keys[k].status.Completed? && !Expires(w, l, k)
    ensures k in Next(c, w, l).keys && Next(c, w, l).keys[k] == w.keys[k]
  {
    CompletedBlocksCommit(c, B, w, l, k);
    hide Exclusive, UploadNext, SweepNext, DownloadNext, CommitsUnder, Expires;
    match l
    case Up(pid, a) => UploadLeavesKey(c, w, pid, a, k);
    case Sw(pid, a) => SweepLeavesKey(c, w, pid, a, k);
    case Dn(pid, a) => DownloadLeavesKeys(w, pid, a);
    case _ =>
  }

  // Only a commit under it changes a completed key, and only expiry removes it.
  lemma UploadLeavesKey(c: Config, w: World, pid: Pid, a: UploadAct, k: string)
    requires k in w.keys && w.keys[k].status.Completed? && !CommitsUnder(w, Up(pid, a), k)
    ensures k in UploadNext(c, w, pid, a).keys && UploadNext(c, w, pid, a).keys[k] == w.keys[k]
  {
    hide AfterOk, AfterErr, AfterPut, HistAfter;
  }

  lemma SweepLeavesKey(c: Config, w: World, pid: Pid, a: SweepAct, k: string)
    requires k in w.keys && !Expires(w, Sw(pid, a), k)
    ensures k in SweepNext(c, w, pid, a).keys && SweepNext(c, w, pid, a).keys[k] == w.keys[k]
  {
    hide AfterDone, AfterFailure, Drops, Purge, OldestDeleted, Enumerates, Records, Listing;
  }

  lemma DownloadLeavesKeys(w: World, pid: Pid, a: DownloadAct)
    ensures DownloadNext(w, pid, a).keys == w.keys
  {
  }

  lemma CommitCompletes(c: Config, w: World, l: Label, k: string)
    requires CommitsUnder(w, l, k)
    ensures k in Next(c, w, l).keys && Next(c, w, l).keys[k].status == Completed(w.uploads[l.pid].file.id)
  {
  }

  lemma {:induction false} CompletedUntilExpiry(c: Config, B: nat, w: World, ls: seq<Label>, i: nat, j: nat, k: string)
    requires Exclusive(c, B, w) && Prompt(c, B, w, ls) && (B <= c.ttl || c.ttl <= 0) && i < j <= |ls|
    requires CommitsUnder(Run(c, w, ls[..i]), ls[i], k)
    requires forall m :: i < m < j ==> !Expires(Run(c, w, ls[..m]), ls[m], k)
    ensures k in Run(c, w, ls[..j]).keys
    ensures Run(c, w, ls[..j]).keys[k].status == Completed(Run(c, w, ls[..i]).uploads[ls[i].pid].file.id)
    decreases j
  {
    hide Exclusive, Next, PromptStep, Expires, CommitsUnder;
    assert ls[..j][..j - 1] == ls[..j - 1];
    var w' := Run(c, w, ls[..j - 1]);
    assert Run(c, w, ls[..j]) == Next(c, w', ls[j - 1]);
    PromptPrefix(c, B, w, ls, j);
    RunExclusive(c, B, w, ls[..j - 1]);
    hide Run, Prompt;
    if i < j - 1 {
      CompletedUntilExpiry(c, B, w, ls, i, j - 1, k);
      CompletedStays(c, B, w', ls[j - 1], k);
    } else {
      CommitCompletes(c, w', ls[i], k);
    }
  }

  lemma {:induction false} PromptPrefix(c: Config, B: nat, w: World, ls: seq<Label>, j: nat)
    requires Prompt(c, B, w, ls) && 0 < j <= |ls|
    ensures Prompt(c, B, w, ls[..j]) && Prompt(c, B, w, ls[..j - 1]) && PromptStep(B, Run(c, w, ls[..j - 1]), ls[j - 1])
  {
    var n := |ls| - 1;
    if j <= n {
      PromptPrefix(c, B, w, ls[..n], j);
      assert ls[..n][..j] == ls[..j] && ls[..n][..j - 1] == ls[..j - 1];
    } else {
      assert ls[..j] == ls;
    }
  }

  // For any number of concurrent callers, failures and crashes, a key commits
  // at most one file between two expiries.
  lemma PromptOwnersCommitOnce(c: Config, B: nat, t: Time, ls: seq<Label>)
    requires Prompt(c, B, Init(t), ls) && (B <= c.ttl || c.ttl <= 0)
    ensures AtMostOnce(c, Init(t), ls)
  {
    var w := Init(t);
    forall i, j, key | 0 <= i < j < |ls|
      && CommitsUnder(Run(c, w, ls[..i]), ls[i], key) && CommitsUnder(Run(c, w, ls[..j]), ls[j], key)
      ensures exists m :: i < m < j && Expires(Run(c, w, ls[..m]), ls[m], key)
    {
      if forall m :: i < m < j ==> !Expires(Run(c, w, ls[..m]), ls[m], key) {
        assert Exclusive(c, B, w);
        NoSecondCommit(c, B, w, ls, i, j, key);
      }
    }
  }

  lemma NoSecondCommit(c: Config, B: nat, w: World, ls: seq<Label>, i: nat, j: nat, k: string)
    requires Exclusive(c, B, w) && Prompt(c, B, w, ls) && (B <= c.ttl || c.ttl <= 0) && i < j < |ls|
    requires CommitsUnder(Run(c, w, ls[..i]), ls[i], k)
    requires forall m :: i < m < j ==> !Expires(Run(c, w, ls[..m]), ls[m], k)
    ensures !CommitsUnder(Run(c, w, ls[..j]), ls[j], k)
  {
    CompletedUntilExpiry(c, B, w, ls, i, j, k);
    PromptPrefix(c, B, w, ls, j + 1);
    var w' := Run(c, w, ls[..j]);
    RunExclusive(c, B, w, ls[..j]);
    hide Run;
    CompletedBlocksCommit(c, B, w', ls[j], k);
  }

  // ---- the exact condition -----------------------------------------------

  lemma PromptSnoc(c: Config, B: nat, w: World, ls: seq<Label>, l: Label)
    requires Prompt(c, B, w, ls) && PromptStep(B, Run(c, w, ls), l)
    ensures Prompt(c, B, w, ls + [l]) && Run(c, w, ls + [l]) == Next(c, Run(c, w, ls), l)
  {
    assert (ls + [l])[..|ls|] == ls;
  }

  // A caller holding a claim stages an empty body and commits.
  lemma StageAndCommit(c: Config, B: nat, w0: World, ls: seq<Label>, pid: Pid, n: nat, cl: Claim)
    requires Prompt(c, B, w0, ls)
    requires var w := Run(c, w0, ls);
      && pid in w.uploads && w.uploads[pid] == Naming(Some(cl)) && w.now - cl.at <= B && cl.key in w.keys
      && n !in w.hist.ids && n !in w.hist.names && n !in w.files && !Referenced(w.files, n)
    ensures var ls' := ls + [Up(pid, Draw(n, n)), Up(pid, PutOk([], 0))];
      && Prompt(c, B, w0, ls' + [Up(pid, Ok)]) && CommitsUnder(Run(c, w0, ls'), Up(pid, Ok), cl.key)
      && Run(c, w0, ls').uploads[pid].file.id == n
      && var w, w' := Run(c, w0, ls), Run(c, w0, ls' + [Up(pid, Ok)]);
      && w'.now == w.now && w'.files == w.files[n := Row(n, 0, c.hash([]), None)] && w'.keys.Keys == w.keys.Keys
      && w'.hist.commits == w.hist.commits + {(cl.key, n)}
      && w'.hist.ids == w.hist.ids + {n} && w'.hist.names == w.hist.names + {n}
      && forall q :: q in w.uploads && q != pid ==> q in w'.uploads && w'.uploads[q] == w.uploads[q]
  {
    hide SweepNext, DownloadNext, Stamp;
    var l1, l2, l3 := Up(pid, Draw(n, n)), Up(pid, PutOk([], 0)), Up(pid, Ok);
    PromptSnoc(c, B, w0, ls, l1);
    PromptSnoc(c, B, w0, ls + [l1], l2);
    assert ls + [l1] + [l2] == ls + [l1, l2];
    PromptSnoc(c, B, w0, ls + [l1, l2], l3);
    assert Run(c, w0, ls + [l1, l2]).uploads[pid] == Committing(Some(cl), File(n, n, 0, c.hash([])));
  }

  // The stages of a sweep over empty tables, and the act that leaves each.
  function EmptyStage(c: Config, now: Time, i: nat): (Sweep, SweepAct)
    requires i < 6
  {
    [(Starting, Rows([])), (Purging([]), SweepAct.Done), (Cutting({}, now), SweepAct.Done),
     (Enumerating({}, now - c.grace), Enumerated([])), (Reclaiming({}, now - c.grace, []), SweepAct.Done),
     (Expiring(now - c.ttl), SweepAct.Done)][i]
  }

  lemma EmptyStep(c: Config, w: World, i: nat)
    requires w.files == map[] && w.objects == map[] && c.ttl > 0 && i < 5
    ensures Next(c, Seek(w, 0, EmptyStage(c, w.now, i).0), Sw(0, EmptyStage(c, w.now, i).1))
         == Seek(w, 0, EmptyStage(c, w.now, i + 1).0)
  {
    hide UploadNext, DownloadNext, Stamp;
    var w' := Seek(w, 0, EmptyStage(c, w.now, i).0);
    assert Records(w.files, []) == [] && Listing(w.objects, []) == [] && StorageKeys(w.files) == {};
    assert w'.sweeps[0 := EmptyStage(c, w.now, i + 1).0] == w.sweeps[0 := EmptyStage(c, w.now, i + 1).0];
    assert w.objects - {} == w.objects;
  }

  lemma SweepsArePrompt(B: nat, w: World, a: SweepAct)
    ensures PromptStep(B, w, Sw(0, a))
  {
  }

  lemma FirstEmptyStep(c: Config, w: World)
    requires 0 !in w.sweeps
    ensures Next(c, w, Sw(0, Launch)) == Seek(w, 0, EmptyStage(c, w.now, 0).0)
    ensures EmptyStage(c, w.now, 5).0 == Expiring(w.now - c.ttl)
  {
  }

  // A sweep over empty tables only expires keys.
  lemma SweepOfNothing(c: Config, B: nat, w0: World, ls: seq<Label>) returns (ls': seq<Label>)
    requires Prompt(c, B, w0, ls) && c.ttl > 0
    requires var w := Run(c, w0, ls); w.files == map[] && w.objects == map[] && 0 !in w.sweeps
    ensures Prompt(c, B, w0, ls')
    ensures var w := Run(c, w0, ls);
      Run(c, w0, ls') == w.(sweeps := w.sweeps[0 := Finished], keys := Unexpired(w.keys, w.now - c.ttl))
  {
    hide Run, Next, Prompt, PromptStep, Seek, EmptyStage;
    var w := Run(c, w0, ls);
    FirstEmptyStep(c, w);
    ls' := SweepSnoc(c, B, w0, ls, Launch);
    for i := 0 to 5
      invariant Prompt(c, B, w0, ls') && Run(c, w0, ls') == Seek(w, 0, EmptyStage(c, w.now, i).0)
    {
      EmptyStep(c, w, i);
      ls' := SweepSnoc(c, B, w0, ls', EmptyStage(c, w.now, i).1);
    }
    LastEmptyStep(c, w);
    ls' := SweepSnoc(c, B, w0, ls', SweepAct.Done);
  }

  lemma SweepSnoc(c: Config, B: nat, w0: World, ls: seq<Label>, a: SweepAct) returns (ls': seq<Label>)
    requires Prompt(c, B, w0, ls)
    ensures Prompt(c, B, w0, ls') && Run(c, w0, ls') == Next(c, Run(c, w0, ls), Sw(0, a))
  {
    hide Run, Next, Prompt, PromptStep;
    SweepsArePrompt(B, Run(c, w0, ls), a);
    PromptSnoc(c, B, w0, ls, Sw(0, a));
    ls' := ls + [Sw(0, a)];
  }

  lemma LastEmptyStep(c: Config, w: World)
    ensures Next(c, Seek(w, 0, Expiring(w.now - c.ttl)), Sw(0, SweepAct.Done))
         == w.(sweeps := w.sweeps[0 := Finished], keys := Unexpired(w.keys, w.now - c.ttl))
  {
    assert w.objects - {} == w.objects;
    assert w.sweeps[0 := Expiring(w.now - c.ttl)][0 := Finished] == w.sweeps[0 := Finished];
  }

  // A caller claims a key, and the claim expires under it.
  lemma ClaimAndExpire(c: Config, B: nat, t: Time, k: string) returns (ls: seq<Label>)
    requires c.ttl > 0
    ensures Prompt(c, B, Init(t), ls)
    ensures Run(c, Init(t), ls) == World(t + c.ttl + 1, map[], map[], map[], map[0 := Naming(Some(Claim(k, t)))],
                                         map[0 := Finished], map[], Init(t).hist)
  {
    hide SweepNext, DownloadNext, Stamp;
    var w := Init(t);
    ls := [Up(0, Begin(Some(k)))];
    assert ls[..0] == [];
    PromptSnoc(c, B, w, ls, Up(0, Ok));
    ls := ls + [Up(0, Ok)];
    PromptSnoc(c, B, w, ls, Tick(c.ttl + 1));
    ls := ls + [Tick(c.ttl + 1)];
    var w1 := Run(c, w, ls);
    assert w1 == World(t + c.ttl + 1, map[], map[], map[k := KeyRow(Pending, t)], map[0 := Naming(Some(Claim(k, t)))],
                       map[], map[], w.hist);
    ls := SweepOfNothing(c, B, w, ls);
    assert Unexpired(w1.keys, w1.now - c.ttl) == map[];
  }

  // Two callers claim the same key, one before and one after its expiry.
  lemma ClaimTwice(c: Config, B: nat, t: Time, k: string) returns (ls: seq<Label>)
    requires c.ttl > 0
    ensures Prompt(c, B, Init(t), ls)
    ensures var w := Run(c, Init(t), ls);
      && w.now == t + c.ttl + 1 && w.files == map[] && w.hist == Init(t).hist
      && w.keys == map[k := KeyRow(Pending, w.now)]
      && w.uploads == map[0 := Naming(Some(Claim(k, t))), 1 := Naming(Some(Claim(k, w.now)))]
  {
    hide SweepNext, DownloadNext, Stamp;
    ls := ClaimAndExpire(c, B, t, k);
    PromptSnoc(c, B, Init(t), ls, Up(1, Begin(Some(k))));
    ls := ls + [Up(1, Begin(Some(k)))];
    PromptSnoc(c, B, Init(t), ls, Up(1, Ok));
    ls := ls + [Up(1, Ok)];
  }

  // One unit over the time to live is enough for two live files under one key.
  lemma LateOwnerDuplicates(c: Config, B: nat, t: Time, k: string) returns (ls: seq<Label>)
    requires 0 < c.ttl < B
    ensures Prompt(c, B, Init(t), ls) && !AtMostOnce(c, Init(t), ls)
    ensures IsLive(Run(c, Init(t), ls).files, 0) && IsLive(Run(c, Init(t), ls).files, 1)
    ensures {(k, 0), (k, 1)} <= Run(c, Init(t), ls).hist.commits
  {
    hide Next, Prompt, AtMostOnce;
    var w := Init(t);
    var ls0 := ClaimTwice(c, B, t, k);
    StageAndCommit(c, B, w, ls0, 1, 1, Claim(k, t + c.ttl + 1));
    var ls1 := ls0 + [Up(1, Draw(1, 1)), Up(1, PutOk([], 0))];
    var ls2 := ls1 + [Up(1, Ok)];
    StageAndCommit(c, B, w, ls2, 0, 0, Claim(k, t));
    var ls3 := ls2 + [Up(0, Draw(0, 0)), Up(0, PutOk([], 0))];
    ls := ls3 + [Up(0, Ok)];
    assert ls2 <= ls3 && forall m :: |ls1| < m < |ls3| ==> ls3[m].Up?;
    TwoCommits(c, w, ls1, Up(1, Ok), ls3, Up(0, Ok), k);
  }

  // Two commits with nothing but uploads between them.
  lemma TwoCommits(c: Config, w: World, ls1: seq<Label>, l1: Label, ls3: seq<Label>, l3: Label, k: string)
    requires ls1 + [l1] <= ls3 && forall m :: |ls1| < m < |ls3| ==> ls3[m].Up?
    requires CommitsUnder(Run(c, w, ls1), l1, k) && CommitsUnder(Run(c, w, ls3), l3, k)
    ensures !AtMostOnce(c, w, ls3 + [l3])
  {
    hide CommitsUnder, Run;
    var ls, i, j := ls3 + [l3], |ls1|, |ls3|;
    assert ls[..i] == ls1 && ls[i] == (ls1 + [l1])[i] && ls[..j] == ls3;
    assert CommitsUnder(Run(c, w, ls[..i]), ls[i], k) && CommitsUnder(Run(c, w, ls[..j]), ls[j], k);
    assert forall m :: i < m < j ==> ls[m] == ls3[m];
  }

  // At most one file per key holds exactly when owners finish within the time
  // to live, or keys never expire.
  lemma TtlIsExact(c: Config, B: nat, t: Time)
    ensures (forall ls: seq<Label> :: Prompt(c, B, Init(t), ls) ==> AtMostOnce(c, Init(t), ls))
       <==> B <= c.ttl || c.ttl <= 0
  {
    if B <= c.ttl || c.ttl <= 0 {
      forall ls | Prompt(c, B, Init(t), ls) ensures AtMostOnce(c, Init(t), ls) {
        PromptOwnersCommitOnce(c, B, t, ls);
      }
    } else {
      var ls := LateOwnerDuplicates(c, B, t, "");
    }
  }
}
