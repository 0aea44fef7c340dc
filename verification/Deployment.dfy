/** A running deployment: the two stores, the clock, and everybody else.

    A method that runs in it calls `Yield` before each store or database call;
    any number of steps of other processes may happen there. After the call it
    records the step it made, so that the state of the deployment is always the
    end of a run of the protocol. */
module Deployment {
  import opened Types
  import opened Protocol
  import opened Soundness
  import opened Safety
  import opened Idempotency
  import opened Refinement
  import opened Answers
  import Calls
  import opened Downloads
  import opened Stores

  class Deployment {
    const c: Config
    const backend: Backend
    const repo: Repo
    // Nobody else acts; only time passes.
    const alone: bool
    ghost const start: World

    var now: Time
    var uploads: map<Pid, Upload>
    var sweeps: map<Pid, Sweep>
    var downloads: map<Pid, Download>
    var hist: History
    ghost var trace: seq<Label>

    function View(): World
      reads this, backend, repo
    {
      World(now, backend.objects, repo.files, repo.keys, uploads, sweeps, downloads, hist)
    }

    ghost predicate Valid()
      reads this, backend, repo
    {
      start == Init(start.now) && View() == Run(c, start, trace)
    }

    constructor (c: Config, now: Time, alone: bool, reliable: bool, firmKeys: set<Key>, firmRows: set<Id>)
      ensures Valid() && start == View() == Init(now) && trace == [] && this.c == c && this.alone == alone
      ensures backend.firm == firmKeys && repo.firm == firmRows
      ensures backend.reliable == reliable && repo.reliable == reliable && fresh(backend) && fresh(repo)
    {
      this.c, this.alone, this.now := c, alone, now;
      this.backend := new Backend(reliable, firmKeys);
      this.repo := new Repo(reliable, firmRows);
      this.uploads, this.sweeps, this.downloads := map[], map[], map[];
      this.hist := History({}, {}, map[], map[], {}, {});
      this.start, this.trace := Init(now), [];
    }

    // ---- what is proved of runs holds of the present state ------------------

    lemma ValidSound()
      requires Valid()
      ensures Sound(c, View())
    {
      InitGuarded(c, 0, start.now);
      RunSound(c, start, trace);
    }

    // Nothing that was ever recorded is forgotten or changed.
    lemma GrewSince(w: World, before: seq<Label>)
      requires Valid() && before <= trace && w == Run(c, start, before)
      ensures Grows(w.hist, hist)
    {
      assert trace[..|before|] == before;
      RunGrows(c, start.now, trace, |before|);
    }

    // Every live file has its object, with the bytes that were put.
    lemma BackedNow(D: nat, S: nat)
      requires Valid() && D + S < c.grace && Timely(c, D, S, start, trace)
      ensures Backed(View())
    {
      LiveFilesSurvive(c, D, S, start.now, trace);
    }

    // Clients see exactly what was published and not withdrawn.
    lemma VisibleNow(D: nat, S: nat)
      requires Valid() && D + S < c.grace && Timely(c, D, S, start, trace)
      ensures Visible(View()) == ApplyAll(map[], Events(c, start, trace))
    {
      RunRefines(c, D, S, start.now, trace);
    }

    lemma OncePerKey(B: nat)
      requires Valid() && Prompt(c, B, start, trace) && (B <= c.ttl || c.ttl <= 0)
      ensures AtMostOnce(c, start, trace)
    {
      PromptOwnersCommitOnce(c, B, start.now, trace);
    }

    lemma AnswerEarned(pid: Pid)
      requires Valid() && pid in uploads && uploads[pid].Returned? && AnswersKey(uploads[pid].outcome)
      ensures exists s :: Earned(c, start, trace, pid, uploads[pid].outcome, s)
    {
      var s := ReplayIsEarned(c, start.now, trace, pid);
    }

    // An object that is missing belongs to a file that has been deleted.
    lemma MissNow(D: nat, S: nat, pid: Pid)
      requires Valid() && D + S < c.grace && Timely(c, D, S, start, trace)
      requires pid in downloads && downloads[pid].NoObject?
      ensures downloads[pid].id in hist.deleted
    {
      RunMisses(c, D, S, start.now, trace);
    }

    lemma DownloadNow(D: nat, S: nat, pid: Pid)
      requires Valid() && D + S < c.grace && Timely(c, D, S, start, trace)
      requires pid in downloads && (downloads[pid].Served? || downloads[pid].NoObject? || downloads[pid].NoRow?)
      ensures Explained(c, start, trace, pid)
    {
      var b, r, g, d := DownloadExplained(c, D, S, start.now, trace, pid);
    }

    // One step of another process.
    method Other(l: Label)
      requires Valid()
      modifies this, backend, repo
      ensures Valid() && View() == Next(c, old(View()), l) && trace == old(trace) + [l]
    {
      hide Init, Next, Run;
      var w' := Next(c, View(), l);
      now, uploads, sweeps, downloads, hist := w'.now, w'.uploads, w'.sweeps, w'.downloads, w'.hist;
      backend.objects := w'.objects;
      repo.files, repo.keys := w'.files, w'.keys;
      RunSnoc(c, start, trace, l);
      trace := trace + [l];
    }

    // Any number of steps of any processes but `me`.
    method Yield(me: Pid)
      requires Valid()
      modifies this, backend, repo
      ensures Valid() && old(trace) <= trace && Same(old(View()), View(), me)
      ensures Between(c, old(View()), View())
      ensures alone ==> View() == old(View()).(now := now) && old(now) <= now
    {
      hide Init, Next, Run, Same;
      ghost var ls: seq<Label> := [];
      ghost var w0 := View();
      SameSelf(c, w0, me);
      var n: int := *;
      while n > 0
        invariant Valid() && old(trace) <= trace && Same(w0, View(), me)
        invariant Run(c, w0, ls) == View()
        invariant alone ==> View() == w0.(now := now) && w0.now <= now
      {
        var l: Label := *;
        if alone && !l.Tick? {
          l := Tick(0);
        }
        if !l.By(me) {
          ghost var w := View();
          NotMine(c, w, l, me);
          RunSnoc(c, w0, ls, l);
          if l.Tick? {
            Ticked(c, w, l);
          }
          Other(l);
          SameTrans(w0, w, View(), me);
          ls := ls + [l];
        }
        n := n - 1;
      }
    }

    // The step `l`, whose effect on the tables has just been made.
    method Record(w: World, l: Label)
      requires start == Init(start.now) && w == Run(c, start, trace)
      requires var w' := Next(c, w, l);
        now == w'.now && backend.objects == w'.objects && repo.files == w'.files && repo.keys == w'.keys
      modifies this
      ensures Valid() && View() == Next(c, w, l) && trace == old(trace) + [l]
    {
      hide Init, Next, Run;
      var w' := Next(c, w, l);
      uploads, sweeps, downloads, hist := w'.uploads, w'.sweeps, w'.downloads, w'.hist;
      RunSnoc(c, start, trace, l);
      trace := trace + [l];
    }
  }

  // What other processes leave to `me`.
  ghost predicate Same(w: World, w': World, me: Pid) {
    && w.now <= w'.now
    && (me in w.uploads <==> me in w'.uploads) && (me in w.uploads ==> w'.uploads[me] == w.uploads[me])
    && (me in w.sweeps <==> me in w'.sweeps) && (me in w.sweeps ==> w'.sweeps[me] == w.sweeps[me])
    && (me in w.downloads <==> me in w'.downloads) && (me in w.downloads ==> w'.downloads[me] == w.downloads[me])
  }

  lemma SameSelf(c: Config, w: World, me: Pid)
    ensures Same(w, w, me) && Run(c, w, []) == w
  {
  }

  lemma SameTrans(w0: World, w1: World, w2: World, me: Pid)
    requires Same(w0, w1, me) && Same(w1, w2, me)
    ensures Same(w0, w2, me)
  {
  }

  lemma Ticked(c: Config, w: World, l: Label)
    requires l.Tick?
    ensures Next(c, w, l) == w.(now := w.now + l.d)
  {
  }

  // Some run leads from one world to the other.
  ghost predicate Between(c: Config, w: World, w': World) {
    exists ls :: Run(c, w, ls) == w'
  }

  lemma UploadNotMine(c: Config, w: World, pid: Pid, a: UploadAct, me: Pid)
    requires pid != me
    ensures Same(w, UploadNext(c, w, pid, a), me)
  {
    if pid in w.uploads {
      Calls.TablesOnly(w, w.uploads[pid]);
    }
    hide AfterOk, AfterErr, AfterPut, OkTables, GiveUp;
  }

  lemma SweepNotMine(c: Config, w: World, pid: Pid, a: SweepAct, me: Pid)
    requires pid != me
    ensures Same(w, SweepNext(c, w, pid, a), me)
  {
    hide SweepNext;
    SweepStaysPut(c, w, pid, a);
    var w' := SweepNext(c, w, pid, a);
    assert me in w.sweeps <==> me in w.sweeps - {pid};
    assert me in w'.sweeps <==> me in w'.sweeps - {pid};
  }

  // A sweep touches no other process's state.
  lemma SweepStaysPut(c: Config, w: World, pid: Pid, a: SweepAct)
    ensures var w' := SweepNext(c, w, pid, a);
      w'.uploads == w.uploads && w'.downloads == w.downloads && w'.now == w.now && w'.sweeps - {pid} == w.sweeps - {pid}
  {
    hide AfterDone, AfterFailure, Drops, Purge, Unexpired, OldestDeleted, Enumerates, Records, Listing;
  }

  lemma DownloadNotMine(w: World, pid: Pid, a: DownloadAct, me: Pid)
    requires pid != me
    ensures Same(w, DownloadNext(w, pid, a), me)
  {
  }

  lemma NotMine(c: Config, w: World, l: Label, me: Pid)
    requires !l.By(me)
    ensures Same(w, Next(c, w, l), me)
  {
    hide UploadNext, SweepNext, DownloadNext;
    match l
    case Up(pid, a) => UploadNotMine(c, w, pid, a, me);
    case Sw(pid, a) => SweepNotMine(c, w, pid, a, me);
    case Dn(pid, a) => DownloadNotMine(w, pid, a, me);
    case _ =>
  }

  // There is always another id.
  lemma AnotherId(used: set<nat>)
    ensures exists n: nat :: n !in used
  {
    var n: nat := Above(used);
    assert n !in used;
  }

  ghost function Above(used: set<nat>): (n: nat)
    ensures forall i :: i in used ==> i < n
  {
    if used == {} then 0
    else
      var i :| i in used;
      var n := Above(used - {i});
      assert forall k :: k in used && k != i ==> k in used - {i};
      if i < n then n else i + 1
  }
}
