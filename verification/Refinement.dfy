/** The two stores behave as one atomic map from ids to files.

    A commit publishes a file and a soft delete withdraws it; every other step,
    of every process, leaves the map as it is. */
module Refinement {
  import opened Types
  import opened Protocol
  import opened Soundness
  import opened Safety

  // What a client can see of a file: its row, and the bytes in the store.
  datatype Content = Content(size: int, checksum: string, data: Option<Bytes>)

  function Visible(w: World): map<Id, Content> {
    map i | i in w.files && w.files[i].Live() ::
      Content(w.files[i].size, w.files[i].checksum,
              if w.files[i].key in w.objects then Some(w.objects[w.files[i].key].data) else None)
  }

  datatype Event = Publish(id: Id, content: Content) | Withdraw(id: Id)

  // The event of a step, if it has one: what is published are the bytes that
  // this upload put.
  function EventOf(w: World, l: Label): Option<Event> {
    match l
    case Up(pid, Ok) =>
      if pid in w.uploads && Commits(w, w.uploads[pid]) && w.uploads[pid].file.key in w.hist.stored then
        var f := w.uploads[pid].file;
        Some(Publish(f.id, Content(f.size, f.checksum, Some(w.hist.stored[f.key].data))))
      else None
    case SoftDelete(id) => if IsLive(w.files, id) then Some(Withdraw(id)) else None
    case _ => None
  }

  function Apply(m: map<Id, Content>, e: Option<Event>): map<Id, Content> {
    match e
    case None => m
    case Some(Publish(id, content)) => m[id := content]
    case Some(Withdraw(id)) => m - {id}
  }

  function Events(c: Config, w: World, ls: seq<Label>): seq<Event> {
    if ls == [] then []
    else
      var n := |ls| - 1;
      var e := EventOf(Run(c, w, ls[..n]), ls[n]);
      Events(c, w, ls[..n]) + AsSeq(e)
  }

  function ApplyAll(m: map<Id, Content>, es: seq<Event>): map<Id, Content> {
    if es == [] then m else Apply(ApplyAll(m, es[..|es| - 1]), Some(es[|es| - 1]))
  }

  // The same map, read off the history instead of the store.
  function LiveContents(w: World): map<Id, Content> {
    map i | i in w.files && w.files[i].Live() ::
      Content(w.files[i].size, w.files[i].checksum,
              if w.files[i].key in w.hist.stored then Some(w.hist.stored[w.files[i].key].data) else None)
  }

  lemma VisibleIsStored(c: Config, D: nat, w: World)
    requires Sound(c, w) && Guarded(D, w)
    ensures Visible(w) == LiveContents(w)
  {
    hide ProcessesSound;
  }

  // How the rows of live files and the record of puts change in one step.
  lemma RowsStep(c: Config, w: World, l: Label)
    requires Sound(c, w)
    ensures LiveContents(Next(c, w, l)) == Apply(LiveContents(w), EventOf(w, l))
  {
    hide Sound, LiveContents, UploadNext, SweepNext, DownloadNext, Stamp;
    match l
    case Up(pid, a) =>
      PutsApart(c, w, pid);
      hide UploadSound;
      UploadRows(c, w, pid, a);
    case Sw(pid, a) => SweepRows(c, w, pid, a);
    case _ => OtherRows(c, w, l);
  }

  lemma PutsApart(c: Config, w: World, pid: Pid)
    requires Sound(c, w)
    ensures forall i :: IsLive(w.files, i) ==> w.files[i].key in w.hist.stored
    ensures pid in w.uploads ==> UploadSound(c, w.hist, w.uploads[pid])
  {
  }

  // Steps that keep the live rows and the record of their puts show nothing.
  lemma SameRecord(w: World, w': World)
    requires forall i :: IsLive(w.files, i) <==> IsLive(w'.files, i)
    requires forall i :: IsLive(w.files, i) ==>
      var k := w.files[i].key;
      i in w'.files && w'.files[i] == w.files[i] && (k in w.hist.stored <==> k in w'.hist.stored)
      && (k in w.hist.stored ==> w'.hist.stored[k] == w.hist.stored[k])
    ensures LiveContents(w') == LiveContents(w)
  {
    var m, m' := LiveContents(w), LiveContents(w');
    assert forall i :: i in m <==> IsLive(w.files, i);
    assert forall i :: i in m' <==> IsLive(w'.files, i);
  }

  lemma OtherRows(c: Config, w: World, l: Label)
    requires !l.Up? && !l.Sw?
    ensures LiveContents(Next(c, w, l)) == Apply(LiveContents(w), EventOf(w, l))
  {
    hide UploadNext, SweepNext;
    if l.SoftDelete? && IsLive(w.files, l.id) {
      hide DownloadNext;
    } else {
      hide LiveContents;
      SameRecord(w, Next(c, w, l));
    }
  }

  lemma UploadRows(c: Config, w: World, pid: Pid, a: UploadAct)
    requires forall i :: IsLive(w.files, i) ==> w.files[i].key in w.hist.stored
    requires pid in w.uploads ==> UploadSound(c, w.hist, w.uploads[pid])
    ensures LiveContents(UploadNext(c, w, pid, a)) == Apply(LiveContents(w), EventOf(w, Up(pid, a)))
  {
    if a.Ok? && pid in w.uploads && Commits(w, w.uploads[pid]) {
      CommitRows(c, w, w.uploads[pid]);
      hide LiveContents, AfterOk;
      var t := OkTables(w, w.uploads[pid]);
      SameRecord(t, UploadNext(c, w, pid, a));
    } else {
      hide LiveContents;
      SameRecord(w, UploadNext(c, w, pid, a));
    }
  }

  lemma CommitRows(c: Config, w: World, u: Upload)
    requires Commits(w, u) && UploadSound(c, w.hist, u)
    ensures LiveContents(OkTables(w, u))
         == LiveContents(w)[u.file.id := Content(u.file.size, u.file.checksum, Some(w.hist.stored[u.file.key].data))]
  {
  }

  lemma SweepRows(c: Config, w: World, pid: Pid, a: SweepAct)
    ensures LiveContents(SweepNext(c, w, pid, a)) == LiveContents(w)
  {
    hide LiveContents;
    SameRecord(w, SweepNext(c, w, pid, a));
  }

  // An id that ever had a row is never published again.
  lemma PublishFresh(c: Config, w: World, l: Label)
    requires Sound(c, w) && EventOf(w, l).Some? && EventOf(w, l).value.Publish?
    ensures EventOf(w, l).value.id !in w.hist.inserted
  {
    assert UploadSound(c, w.hist, w.uploads[l.pid]);
    hide Sound;
  }

  lemma StepRefines(c: Config, D: nat, S: nat, w: World, l: Label)
    requires Sound(c, w) && Guarded(D, w) && TimelyStep(D, S, w, l) && D + S < c.grace
    ensures Visible(Next(c, w, l)) == Apply(Visible(w), EventOf(w, l))
    ensures EventOf(w, l).Some? && EventOf(w, l).value.Publish? ==> EventOf(w, l).value.id !in w.hist.inserted
  {
    hide Sound, Guarded, TimelyStep, Next, Visible, LiveContents, EventOf;
    VisibleIsStored(c, D, w);
    StepSound(c, w, l);
    StepGuarded(c, D, S, w, l);
    VisibleIsStored(c, D, Next(c, w, l));
    RowsStep(c, w, l);
    if EventOf(w, l).Some? && EventOf(w, l).value.Publish? {
      PublishFresh(c, w, l);
    }
  }

  function AsSeq(e: Option<Event>): seq<Event> {
    if e.Some? then [e.value] else []
  }

  lemma ApplySnoc(m: map<Id, Content>, es: seq<Event>, e: Option<Event>)
    ensures ApplyAll(m, es + AsSeq(e)) == Apply(ApplyAll(m, es), e)
  {
    hide Apply;
    if e.Some? {
      assert (es + [e.value])[..|es|] == es;
    } else {
      assert es + [] == es && Apply(ApplyAll(m, es), None) == ApplyAll(m, es) by {
        ApplyNone(ApplyAll(m, es));
      }
    }
  }

  lemma ApplyNone(m: map<Id, Content>)
    ensures Apply(m, None) == m
  {
  }

  // Whatever uploads, deletes, crashes and sweeps do, clients see the files
  // that were published and not withdrawn, each with the bytes it was given.
  lemma {:induction false} RunRefines(c: Config, D: nat, S: nat, t: Time, ls: seq<Label>)
    requires D + S < c.grace && Timely(c, D, S, Init(t), ls)
    ensures Visible(Run(c, Init(t), ls)) == ApplyAll(map[], Events(c, Init(t), ls))
  {
    if ls == [] {
      assert Visible(Init(t)) == map[];
    } else {
      var n := |ls| - 1;
      var w := Run(c, Init(t), ls[..n]);
      assert Timely(c, D, S, Init(t), ls[..n]) && TimelyStep(D, S, w, ls[n]);
      assert Run(c, Init(t), ls) == Next(c, w, ls[n]);
      assert Events(c, Init(t), ls) == Events(c, Init(t), ls[..n]) + AsSeq(EventOf(w, ls[n]));
      hide Sound, Guarded, Timely, TimelyStep, Run, Next, Visible, EventOf, Init, Events, AsSeq, Apply, ApplyAll;
      RunRefines(c, D, S, t, ls[..n]);
      InitGuarded(c, D, t);
      RunGuarded(c, D, S, Init(t), ls[..n]);
      StepRefines(c, D, S, w, ls[n]);
      ApplySnoc(map[], Events(c, Init(t), ls[..n]), EventOf(w, ls[n]));
    }
  }
}
