/** The file service, call by call, in a deployment where anybody else may act
    between its calls. Each method leaves behind a run of the protocol in which
    its own process went exactly where its answer says. */
module Service {
  import opened Types
  import opened Protocol
  import opened Soundness
  import opened Safety
  import opened Idempotency
  import opened Answers
  import opened Downloads
  import opened Streaming
  import opened Stores
  import opened Deployment
  import opened Filing

  class Service {
    const env: Deployment
    // No call fails and ids can always be generated.
    const steady: bool

    constructor (env: Deployment, steady: bool)
      ensures this.env == env && this.steady == steady
    {
      this.env, this.steady := env, steady;
    }

    ghost predicate Ready()
      reads env, env.backend, env.repo
    {
      env.Valid() && (steady ==> env.backend.reliable && env.repo.reliable)
    }

    ghost predicate At(pid: Pid, u: Upload)
      reads env, env.backend, env.repo
    {
      Ready() && pid in env.uploads && env.uploads[pid] == u
    }

    // Nobody else acts, and this call leaves the tables as they were.
    twostate predicate RowsStay()
      reads env, env.repo
    {
      old(env.trace) <= env.trace
      && (env.alone ==> env.repo.files == old(env.repo.files) && env.repo.keys == old(env.repo.keys))
    }

    // The body's own objects are none of the deployment's.
    ghost predicate Apart(body: Input) {
      {env, env.backend, env.repo} !! body.Objects()
    }

    // Two ids that were never handed out, or a failed generator.
    method NewNames(pid: Pid, claim: Option<Claim>) returns (ok: bool, id: Id, key: Key)
      requires At(pid, Naming(claim))
      modifies env
      ensures At(pid, if ok then Storing(claim, File(id, key, 0, "")) else GiveUp(claim)) && RowsStay()
      ensures (steady ==> ok)
      ensures ok ==> id !in env.repo.files && !Referenced(env.repo.files, key) && key !in env.backend.objects
    {
      hide Run, SweepNext, DownloadNext, Stamp;
      var w := env.View();
      id, key := 0, 0;
      ok := *;
      if !ok && !steady {
        hide Sound;
        env.Record(w, Up(pid, Err));
        return;
      }
      ok := true;
      AnotherId(env.hist.ids);
      AnotherId(env.hist.names);
      id :| id !in env.hist.ids;
      key :| key !in env.hist.names;
      Unused(id, key);
      hide Sound;
      env.Record(w, Up(pid, Draw(id, key)));
    }

    lemma Unused(id: Id, key: Key)
      requires env.Valid() && id !in env.hist.ids && key !in env.hist.names
      ensures id !in env.repo.files && !Referenced(env.repo.files, key) && key !in env.backend.objects
    {
      env.ValidSound();
    }

    method PutObject(pid: Pid, claim: Option<Claim>, id: Id, key: Key, src: BufReader, size: int)
      returns (ok: bool, sum: string)
      requires At(pid, Storing(claim, File(id, key, 0, "")))
      requires src.Valid() && src.out == [] && {env, env.backend, env.repo} !! src.Objects()
      modifies env, env.backend, env.repo, src.Objects()
      ensures RowsStay() && (steady && src.rd.End() == EOF ==> ok)
      ensures Spent(src.rd, ok || steady)
      ensures ok ==> src.rd.End() == EOF && sum == env.c.hash(src.rd.Total())
      ensures ok ==> key in env.hist.stored && env.hist.stored[key].data == src.rd.Total()
      ensures ok && env.alone ==>
        env.backend.objects == old(env.backend.objects)[key := Object(src.rd.Total(), env.now)]
      ensures ok ==>
        At(pid, if size >= 0 then Committing(claim, File(id, key, size, sum)) else Sizing(claim, File(id, key, 0, sum)))
      ensures !ok ==> At(pid, GiveUp(claim))
    {
      hide Sound, Run, Between, SweepNext, DownloadNext, Stamp, Spent, BufReader.Valid;
      hide Input.Valid, Input.Delivered, Input.Total, Input.End, Input.Ended, Input.Stalls;
      env.Yield(pid);
      var w := env.View();
      var partial;
      ok, partial := env.backend.Put(key, src, env.now);
      SpentBy(src.rd, ok || steady);
      sum := env.c.hash(src.hasher.written);
      RecordPut(pid, claim, w, File(id, key, 0, ""), if ok then Some(src.hasher.written) else None, partial, size);
    }

    // The put of `whole` has succeeded, or one that left `partial` has failed.
    method RecordPut(pid: Pid, claim: Option<Claim>, w: World, f: File, whole: Option<Bytes>,
                     partial: Option<Bytes>, size: int)
      requires env.start == Init(env.start.now) && w == Run(env.c, env.start, env.trace)
      requires pid in w.uploads && w.uploads[pid] == Storing(claim, f)
      requires env.View() == w.(objects := Landed(w, f.key, whole, partial))
      requires steady ==> env.backend.reliable && env.repo.reliable
      modifies env
      ensures old(env.trace) <= env.trace && env.now == old(env.now)
      ensures whole.Some? ==> At(pid, AfterPut(env.c, Storing(claim, f), whole.value, size))
      ensures whole.Some? ==> f.key in env.hist.stored && env.hist.stored[f.key].data == whole.value
      ensures whole.None? ==> At(pid, GiveUp(claim))
    {
      hide Init, Run, SweepNext, DownloadNext, Stamp;
      env.Record(w, Up(pid, if whole.Some? then PutOk(whole.value, size) else PutErr(partial)));
    }

    lemma StoredIsPut(key: Key)
      requires env.Valid() && key in env.backend.objects
      ensures key in env.hist.stored && env.hist.stored[key] == env.backend.objects[key]
    {
      env.ValidSound();
    }

    method StatObject(pid: Pid, claim: Option<Claim>, f: File) returns (size: Option<nat>)
      requires At(pid, Sizing(claim, f))
      modifies env, env.backend, env.repo
      ensures RowsStay() && (env.alone ==> env.backend.objects == old(env.backend.objects))
      ensures steady && env.alone && f.key in old(env.backend.objects) ==> size.Some?
      ensures size.Some? ==> f.key in env.backend.objects && size.value == |env.backend.objects[f.key].data|
      ensures size.Some? ==> f.key in env.hist.stored && size.value == |env.hist.stored[f.key].data|
      ensures At(pid, if size.Some? then Committing(claim, f.(size := size.value)) else Discarding(claim, f))
    {
      hide Sound, Run, Between, SweepNext, DownloadNext, Stamp;
      env.Yield(pid);
      var w := env.View();
      if f.key in env.backend.objects {
        StoredIsPut(f.key);
      }
      var ok;
      ok, size := env.backend.Stat(f.key);
      env.Record(w, Up(pid, if ok then Ok else Err));
      if !ok {
        size := None;
      }
    }

    // The object's length is read back from the store; failing that the object
    // is given up.
    method ResolveSize(pid: Pid, claim: Option<Claim>, f: File) returns (r: Option<File>)
      requires At(pid, Sizing(claim, f))
      modifies env, env.backend, env.repo
      ensures RowsStay() && (steady && env.alone && f.key in old(env.backend.objects) ==> r.Some?)
      ensures r.Some? ==> At(pid, Committing(claim, r.value)) && r.value == f.(size := r.value.size)
      ensures r.Some? ==> f.key in env.hist.stored && r.value.size == |env.hist.stored[f.key].data|
      ensures r.Some? && env.alone ==> env.backend.objects == old(env.backend.objects) && f.key in env.backend.objects
      ensures r.None? ==> At(pid, GiveUp(claim)) && (env.backend.Firm(f.key) ==> f.key !in env.backend.objects)
    {
      hide Sound, Run, Next, Same, Between;
      var size := StatObject(pid, claim, f);
      if size.Some? {
        return Some(f.(size := size.value));
      }
      DiscardObject(pid, claim, f);
      r := None;
    }

    // Best effort: a failed delete leaves the object to the collector.
    method DiscardObject(pid: Pid, claim: Option<Claim>, f: File)
      requires At(pid, Discarding(claim, f))
      modifies env, env.backend, env.repo
      ensures At(pid, GiveUp(claim)) && RowsStay()
      ensures env.backend.Firm(f.key) ==> f.key !in env.backend.objects
    {
      hide Sound, Run, SweepNext, DownloadNext, Stamp;
      env.Yield(pid);
      var w := env.View();
      var ok := env.backend.Delete(f.key);
      env.Record(w, Up(pid, if ok then Ok else Err));
    }

    method ReleaseKey(pid: Pid, claim: Claim)
      requires At(pid, Releasing(claim))
      modifies env, env.backend, env.repo
      ensures At(pid, Returned(Failed)) && old(env.trace) <= env.trace
      ensures env.alone ==> env.repo.files == old(env.repo.files) && env.backend.objects == old(env.backend.objects)
      ensures env.alone ==>
        env.repo.keys == old(env.repo.keys) || env.repo.keys == Released(old(env.repo.keys), claim.key)
      ensures env.alone && steady ==> env.repo.keys == Released(old(env.repo.keys), claim.key)
    {
      hide Sound, Run, SweepNext, DownloadNext, Stamp;
      env.Yield(pid);
      var w := env.View();
      var ok := env.repo.ReleaseIdempotencyKey(claim.key);
      env.Record(w, Up(pid, if ok then Ok else Err));
    }

    // The buffered tee over the body, its head already looked at when the
    // content type has to be sniffed.
    method Wrap(input: UploadInput) returns (src: BufReader)
      requires input.body.Valid() && input.body.Delivered() == []
      modifies input.body.Objects()
      ensures src.Valid() && src.out == [] && src.rd == input.body
      ensures fresh(src.Objects() - input.body.Objects())
    {
      src := new BufReader(input.body);
      if input.sniff {
        var head := src.Peek(SNIFF_LEN);
      }
    }

    method Start(pid: Pid, guard: Option<string>)
      requires Ready() && pid !in env.uploads
      modifies env
      ensures At(pid, if guard.None? then Naming(None) else Claiming(guard.value)) && old(env.trace) <= env.trace
    {
      hide Sound, Run, SweepNext, DownloadNext, Stamp;
      env.Record(env.View(), Up(pid, Begin(guard)));
    }

    method CommitPlain(pid: Pid, f: File) returns (ok: bool)
      requires At(pid, Committing(None, f))
      modifies env, env.backend, env.repo
      ensures old(env.trace) <= env.trace && At(pid, if ok then Returned(Created(f.id)) else Discarding(None, f))
      ensures ok ==> f.id in env.hist.inserted && env.hist.inserted[f.id] == f.ToRow()
      ensures env.alone ==> env.repo.keys == old(env.repo.keys) && env.backend.objects == old(env.backend.objects)
      ensures env.alone ==> env.repo.files == if ok then old(env.repo.files)[f.id := f.ToRow()] else old(env.repo.files)
      ensures env.alone && steady && f.id !in old(env.repo.files) && !Referenced(old(env.repo.files), f.key) ==> ok
    {
      hide Sound, Run, SweepNext, DownloadNext, Stamp;
      env.Yield(pid);
      var w := env.View();
      ok := env.repo.Create(f);
      env.Record(w, Up(pid, if ok then Ok else Err));
    }

    // Draws the names and streams the body into the store.
    method StageObject(pid: Pid, claim: Option<Claim>, input: UploadInput) returns (ok: bool, f: File)
      requires At(pid, Naming(claim)) && Apart(input.body) && Unread(input.body)
      modifies env, env.backend, env.repo, input.body.Objects()
      ensures RowsStay() && (steady && input.body.End() == EOF ==> ok)
      ensures Spent(input.body, ok || steady)
      ensures ok ==> input.body.End() == EOF && Streamed(env.c, env.hist, f, input.body.Total())
      ensures ok ==>
        if input.size >= 0 then f.size == input.size && At(pid, Committing(claim, f)) else At(pid, Sizing(claim, f))
      ensures ok && env.alone ==> Staged(env.c, old(env.View()), env.View(), f, input.body.Total())
      ensures !ok ==> At(pid, GiveUp(claim))
    {
      hide Sound, Run, Next, Referenced, BufReader.Valid, LimitReader.Valid, Spent;
      UnreadIsSpent(input.body);
      var id, key, sum;
      ok, id, key := NewNames(pid, claim);
      f := File(id, key, 0, "");
      if !ok {
        return;
      }
      var src := Wrap(input);
      ok, sum := PutObject(pid, claim, id, key, src, input.size);
      f := File(id, key, if input.size >= 0 then input.size else 0, sum);
    }

    // Streams the body into the store and prepares its record.
    method Stage(pid: Pid, claim: Option<Claim>, input: UploadInput) returns (f: Option<File>)
      requires At(pid, Naming(claim)) && Apart(input.body) && Unread(input.body)
      modifies env, env.backend, env.repo, input.body.Objects()
      ensures RowsStay() && (steady && env.alone && input.body.End() == EOF ==> f.Some?)
      ensures f.Some? ==> At(pid, Committing(claim, f.value)) && input.body.End() == EOF
      ensures Spent(input.body, f.Some? || steady)
      ensures f.Some? ==> Streamed(env.c, env.hist, f.value, input.body.Total())
      ensures f.Some? ==> f.value.size == SizeOf(input.size, input.body.Total())
      ensures f.Some? && env.alone ==> Staged(env.c, old(env.View()), env.View(), f.value, input.body.Total())
      ensures f.None? ==> At(pid, GiveUp(claim))
    {
      hide Sound, Run, Next, Staged, Same, Between, Streamed, Spent, Unread;
      hide Input.Valid, Input.Delivered, Input.Total, Input.End;
      ghost var w0 := env.View();
      var ok, file := StageObject(pid, claim, input);
      if !ok {
        return None;
      }
      if input.size >= 0 {
        return Some(file);
      }
      ghost var w1, before := env.View(), env.trace;
      if env.alone {
        StagedLands(env.c, w0, w1, file, input.body.Total());
      }
      f := ResolveSize(pid, claim, file);
      SpentStill(input.body, true, f.Some? || steady);
      if f.Some? {
        StreamedSince(w1, before, file, f.value.size, input.body.Total());
      }
      if env.alone && f.Some? {
        StagedStays(env.c, w0, w1, env.View(), file, f.value.size, input.body.Total());
      }
    }

    lemma StreamedSince(w: World, before: seq<Label>, f: File, size: int, data: Bytes)
      requires env.Valid() && before <= env.trace && w == Run(env.c, env.start, before)
      requires Streamed(env.c, w.hist, f, data)
      ensures Streamed(env.c, env.hist, f.(size := size), data)
      ensures f.key in env.hist.stored && env.hist.stored[f.key].data == data
    {
      hide Run;
      env.GrewSince(w, before);
      StreamedStays(env.c, w.hist, env.hist, f, size, data);
    }

    // Stage, then commit the row; a failed commit discards the object. Alone, a
    // success adds one row and one object, and a failure adds no row.
    method Upload(pid: Pid, input: UploadInput) returns (outcome: Outcome)
      requires Ready() && pid !in env.uploads && Apart(input.body) && Unread(input.body)
      modifies env, env.backend, env.repo, input.body.Objects()
      ensures At(pid, Returned(outcome)) && old(env.trace) <= env.trace && (outcome.Created? || outcome.Failed?)
      ensures Spent(input.body, outcome.Created? || steady)
      ensures outcome.Created? ==> input.body.End() == EOF
      ensures outcome.Created? ==> Accepted(env.c, env.hist, outcome.id, input.body.Total(), input.size)
      ensures env.alone && outcome.Created? ==>
        Filed(env.c, old(env.View()), env.View(), outcome.id, input.body.Total(), input.size)
      ensures env.alone && outcome.Created? ==> env.repo.keys == old(env.repo.keys)
      ensures env.alone && outcome.Failed? ==>
        env.repo.files == old(env.repo.files) && env.repo.keys == old(env.repo.keys)
      ensures env.alone && steady && input.body.End() == EOF ==> outcome.Created?
    {
      hide Sound, Run, Next, Filed, Same, Between, Accepted, Spent, Unread;
      hide Input.Valid, Input.Delivered, Input.Total, Input.End;
      Start(pid, None);
      ghost var w0 := env.View();
      outcome := UploadNamed(pid, input);
      if env.alone && outcome.Created? {
        FiledSince(env.c, old(env.View()), w0, env.View(), outcome.id, input.body.Total(), input.size);
      }
    }

    method UploadNamed(pid: Pid, input: UploadInput) returns (outcome: Outcome)
      requires At(pid, Naming(None)) && Apart(input.body) && Unread(input.body)
      modifies env, env.backend, env.repo, input.body.Objects()
      ensures At(pid, Returned(outcome)) && old(env.trace) <= env.trace && (outcome.Created? || outcome.Failed?)
      ensures Spent(input.body, outcome.Created? || steady)
      ensures outcome.Created? ==> input.body.End() == EOF
      ensures outcome.Created? ==> Accepted(env.c, env.hist, outcome.id, input.body.Total(), input.size)
      ensures env.alone && outcome.Created? ==>
        Filed(env.c, old(env.View()), env.View(), outcome.id, input.body.Total(), input.size)
      ensures env.alone ==>
        env.repo.keys == old(env.repo.keys) && (outcome.Failed? ==> env.repo.files == old(env.repo.files))
      ensures env.alone && steady && input.body.End() == EOF ==> outcome.Created?
    {
      hide Sound, Run, Next, Staged, Filed, Same, Between, Streamed, Accepted, Spent, Unread;
      hide Input.Valid, Input.Delivered, Input.Total, Input.End;
      ghost var w0 := env.View();
      var f := Stage(pid, None, input);
      outcome := FinishPlain(pid, f, w0, input.body.Total(), input.size);
      SpentStill(input.body, f.Some? || steady, outcome.Created? || steady);
    }

    // What follows a staged or failed upload of `data` without a key.
    method FinishPlain(pid: Pid, f: Option<File>, ghost w0: World, ghost data: Bytes, ghost size: int)
      returns (outcome: Outcome)
      requires f.None? ==> At(pid, Returned(Failed))
      requires f.Some? ==> At(pid, Committing(None, f.value)) && f.value.size == SizeOf(size, data)
      requires f.Some? ==> Streamed(env.c, env.hist, f.value, data)
      requires env.alone ==> w0.files == env.repo.files && w0.keys == env.repo.keys
      requires env.alone && f.Some? ==> Staged(env.c, w0, env.View(), f.value, data)
      modifies env, env.backend, env.repo
      ensures At(pid, Returned(outcome)) && old(env.trace) <= env.trace
      ensures outcome == Failed || (f.Some? && outcome == Created(f.value.id))
      ensures outcome.Created? ==> Accepted(env.c, env.hist, outcome.id, data, size)
      ensures env.alone ==> env.repo.keys == w0.keys && (outcome.Failed? ==> env.repo.files == w0.files)
      ensures env.alone && outcome.Created? ==> Filed(env.c, w0, env.View(), outcome.id, data, size)
      ensures env.alone && steady && f.Some? ==> outcome.Created?
    {
      hide Sound, Run, Next, Staged, Filed, Same, Between, Referenced, Streamed, Accepted, Lands;
      if f.None? {
        return Failed;
      }
      ghost var w1, before := env.View(), env.trace;
      if env.alone {
        StagedLands(env.c, w0, w1, f.value, data);
        PlainLands(w1, f.value);
      }
      outcome := CommitOrDiscard(pid, f.value);
      if outcome.Created? {
        CommittedAs(w1, before, f.value, data, size);
        if env.alone {
          CommitFiles(env.c, w0, w1, env.View(), f.value, data, size);
        }
      }
    }

    method CommitOrDiscard(pid: Pid, f: File) returns (outcome: Outcome)
      requires At(pid, Committing(None, f))
      modifies env, env.backend, env.repo
      ensures At(pid, Returned(outcome)) && old(env.trace) <= env.trace && (outcome == Created(f.id) || outcome.Failed?)
      ensures outcome.Created? ==> f.id in env.hist.inserted && env.hist.inserted[f.id] == f.ToRow()
      ensures env.alone ==> env.repo.keys == old(env.repo.keys)
      ensures env.alone && outcome.Created? ==>
        env.repo.files == old(env.repo.files)[f.id := f.ToRow()] && env.backend.objects == old(env.backend.objects)
      ensures env.alone && outcome.Failed? ==> env.repo.files == old(env.repo.files)
      ensures outcome.Failed? && env.backend.Firm(f.key) ==> f.key !in env.backend.objects
      ensures env.alone && steady && Lands(old(env.View()), None, f) ==> outcome.Created?
    {
      hide Sound, Run, Next, Same, Between;
      var ok := CommitPlain(pid, f);
      if ok {
        return Created(f.id);
      }
      DiscardObject(pid, None, f);
      outcome := Failed;
    }

    // A row that was committed for a body streamed earlier.
    lemma CommittedAs(w: World, before: seq<Label>, f: File, data: Bytes, size: int)
      requires env.Valid() && before <= env.trace && w == Run(env.c, env.start, before)
      requires Streamed(env.c, w.hist, f, data) && f.size == SizeOf(size, data)
      requires f.id in env.hist.inserted && env.hist.inserted[f.id] == f.ToRow()
      ensures Accepted(env.c, env.hist, f.id, data, size)
    {
      hide Run, Streamed, Accepted;
      env.GrewSince(w, before);
      AcceptedByCommit(env.c, w.hist, env.hist, f, data, size);
    }

    // Insert the key, or read back the row that is already there.
    method ClaimIdempotencyKey(pid: Pid, key: string) returns (ok: bool, claim: Option<Claim>, existing: Option<Status>)
      requires At(pid, Claiming(key))
      modifies env, env.backend, env.repo
      ensures Ready() && old(env.trace) <= env.trace && (steady ==> ok)
      ensures !ok ==> At(pid, Returned(Failed)) && claim.None?
      ensures ok && claim.Some? ==> claim.value.key == key && At(pid, Naming(claim))
      ensures ok && claim.None? ==>
        At(pid, if existing.Some? && existing.value.Completed? then Loading(key, existing.value.file)
                else Returned(Conflict(key)))
      ensures env.alone ==> env.repo.files == old(env.repo.files) && env.backend.objects == old(env.backend.objects)
      ensures env.alone && claim.None? ==> env.repo.keys == old(env.repo.keys)
      ensures env.alone && claim.Some? ==>
        key !in old(env.repo.keys) && env.repo.keys == old(env.repo.keys)[key := KeyRow(Pending, claim.value.at)]
      ensures env.alone && ok && claim.None? ==>
        key in old(env.repo.keys) && existing == Some(old(env.repo.keys)[key].status)
    {
      hide Sound, Run, SweepNext, DownloadNext, Stamp;
      env.Yield(pid);
      var w := env.View();
      claim, existing := None, None;
      var inserted;
      ok, inserted := env.repo.InsertClaim(key, env.now);
      env.Record(w, Up(pid, if ok then Ok else Err));
      if !ok {
        return;
      }
      if inserted {
        claim := Some(Claim(key, w.now));
        return;
      }
      ok, existing := RereadKey(pid, key);
    }

    method RereadKey(pid: Pid, key: string) returns (ok: bool, existing: Option<Status>)
      requires At(pid, Rereading(key))
      modifies env, env.backend, env.repo
      ensures Ready() && RowsStay() && (steady ==> ok)
      ensures env.alone ==> env.backend.objects == old(env.backend.objects)
      ensures env.alone && ok ==>
        existing == if key in old(env.repo.keys) then Some(old(env.repo.keys)[key].status) else None
      ensures !ok ==> At(pid, Returned(Failed))
      ensures ok ==>
        At(pid, if existing.Some? && existing.value.Completed? then Loading(key, existing.value.file)
                else Returned(Conflict(key)))
    {
      hide Sound, Run, SweepNext, DownloadNext, Stamp;
      env.Yield(pid);
      var w := env.View();
      ok, existing := env.repo.ReadClaim(key);
      env.Record(w, Up(pid, if ok then Ok else Err));
    }

    // Replay the file a completed key names, unless it was deleted since.
    method ReplayPrior(pid: Pid, key: string, id: Id) returns (outcome: Outcome)
      requires At(pid, Loading(key, id))
      modifies env, env.backend, env.repo
      ensures At(pid, Returned(outcome)) && RowsStay() && (steady ==> !outcome.Failed?)
      ensures outcome.Failed? || ((outcome.Replayed? || outcome.Gone?) && outcome.key == key)
      ensures env.alone ==> env.backend.objects == old(env.backend.objects)
      ensures env.alone ==> outcome == Failed || outcome == PriorAnswer(old(env.repo.files), key, Completed(id))
    {
      hide Sound, Run, SweepNext, DownloadNext, Stamp;
      env.Yield(pid);
      var w := env.View();
      var ok, row := env.repo.Get(id);
      env.Record(w, Up(pid, if ok then Ok else Err));
      if !ok {
        return Failed;
      }
      outcome := if row.Some? then Replayed(key, id, row.value) else Gone(key, id);
    }

    method CommitForKey(pid: Pid, claim: Claim, f: File) returns (ok: bool)
      requires At(pid, Committing(Some(claim), f))
      modifies env, env.backend, env.repo
      ensures old(env.trace) <= env.trace && At(pid, if ok then Returned(Created(f.id)) else Discarding(Some(claim), f))
      ensures ok ==>
        f.id in env.hist.inserted && env.hist.inserted[f.id] == f.ToRow() && (claim.key, f.id) in env.hist.commits
      ensures env.alone ==> env.backend.objects == old(env.backend.objects)
      ensures env.alone && ok ==>
        claim.key in old(env.repo.keys) && env.repo.files == old(env.repo.files)[f.id := f.ToRow()]
      ensures env.alone && ok ==>
        env.repo.keys == old(env.repo.keys)[claim.key := old(env.repo.keys)[claim.key].(status := Completed(f.id))]
      ensures env.alone && !ok ==> env.repo.files == old(env.repo.files) && env.repo.keys == old(env.repo.keys)
      ensures env.alone && steady && Lands(old(env.View()), Some(claim), f) ==> ok
    {
      hide Sound, Run, SweepNext, DownloadNext, Stamp;
      env.Yield(pid);
      var w := env.View();
      ok := env.repo.CreateForKey(f, claim.key);
      env.Record(w, Up(pid, if ok then Ok else Err));
    }

    // The whole guarded upload: claim, replay or conflict; stage and commit row
    // and key together; on any failure clean up and release the claim. A key
    // that is taken is answered without reading the body.
    method UploadIdempotent(pid: Pid, key: string, input: UploadInput) returns (outcome: Outcome)
      requires Ready() && pid !in env.uploads && Apart(input.body) && Unread(input.body)
      modifies env, env.backend, env.repo, input.body.Objects()
      ensures At(pid, Returned(outcome)) && old(env.trace) <= env.trace
      ensures OutcomeOk(env.hist, outcome)
      ensures outcome.Created? ==> input.body.End() == EOF && (key, outcome.id) in env.hist.commits
      ensures outcome.Created? ==> Accepted(env.c, env.hist, outcome.id, input.body.Total(), input.size)
      ensures AnswersKey(outcome) ==> exists s :: Earned(env.c, env.start, env.trace, pid, outcome, s)
      ensures forall B: nat :: Prompt(env.c, B, env.start, env.trace) && (B <= env.c.ttl || env.c.ttl <= 0) ==>
        AtMostOnce(env.c, env.start, env.trace)
      ensures Spent(input.body, outcome.Created? || (outcome.Failed? && steady))
      ensures !outcome.Created? && !outcome.Failed? ==> outcome.key == key && Unread(input.body)
      ensures env.alone ==>
        Undisturbed(env.c, old(env.View()), env.View(), key, outcome, input.body.Total(), input.size)
      ensures env.alone && steady && (key in old(env.repo.keys) || input.body.End() == EOF) ==> !outcome.Failed?
      ensures env.alone && steady && outcome.Failed? ==> env.repo.keys == old(env.repo.keys)
    {
      hide Sound, Run, OutcomeOk, Next, Undisturbed, Accepted, Spent, Unread, Earned, Prompt, AtMostOnce, Same, Between;
      hide Input.Valid, Input.Delivered, Input.Total, Input.End;
      Start(pid, Some(key));
      ghost var w0 := env.View();
      outcome := UploadStarted(pid, key, input);
      if env.alone {
        UndisturbedSince(env.c, old(env.View()), w0, env.View(), key, outcome, input.body.Total(), input.size);
      }
      AnswerHolds(pid, outcome);
      forall B: nat | Prompt(env.c, B, env.start, env.trace) && (B <= env.c.ttl || env.c.ttl <= 0)
        ensures AtMostOnce(env.c, env.start, env.trace)
      {
        env.OncePerKey(B);
      }
    }

    method UploadStarted(pid: Pid, key: string, input: UploadInput) returns (outcome: Outcome)
      requires At(pid, Claiming(key)) && Apart(input.body) && Unread(input.body)
      modifies env, env.backend, env.repo, input.body.Objects()
      ensures At(pid, Returned(outcome)) && old(env.trace) <= env.trace
      ensures outcome.Created? ==> input.body.End() == EOF && (key, outcome.id) in env.hist.commits
      ensures outcome.Created? ==> Accepted(env.c, env.hist, outcome.id, input.body.Total(), input.size)
      ensures Spent(input.body, outcome.Created? || (outcome.Failed? && steady))
      ensures !outcome.Created? && !outcome.Failed? ==> outcome.key == key && Unread(input.body)
      ensures env.alone ==>
        Undisturbed(env.c, old(env.View()), env.View(), key, outcome, input.body.Total(), input.size)
      ensures env.alone && steady && (key in old(env.repo.keys) || input.body.End() == EOF) ==> !outcome.Failed?
      ensures env.alone && steady && outcome.Failed? ==> env.repo.keys == old(env.repo.keys)
    {
      hide Sound, Run, Next, Filed, Owned, FirstUpload, Released, Accepted, Spent, Unread, Same, Between;
      hide Input.Valid, Input.Delivered, Input.Total, Input.End;
      ghost var w0 := env.View();
      UnreadIsSpent(input.body);
      var ok, claim, existing := ClaimIdempotencyKey(pid, key);
      if ok && claim.Some? {
        ghost var w1 := env.View();
        assert env.alone ==> Claimed(w1, claim.value);
        outcome := UploadClaimed(pid, claim.value, input);
        if env.alone {
          ReleasedIsGone(w0.keys, claim.value);
          OwnedIsFirst(env.c, w0, w1, env.View(), claim.value, outcome, input.body.Total(), input.size);
        }
      } else {
        outcome := AnswerTaken(pid, key, ok, existing);
        if env.alone && outcome.Failed? {
          FailedIsFirst(env.c, w0, env.View(), key, input.body.Total(), input.size);
        }
      }
    }

    // The claim failed, or somebody else has the key.
    method AnswerTaken(pid: Pid, key: string, ok: bool, existing: Option<Status>) returns (outcome: Outcome)
      requires Ready() && pid in env.uploads && (!ok ==> At(pid, Returned(Failed)))
      requires ok ==> At(pid, if existing.Some? && existing.value.Completed? then Loading(key, existing.value.file)
                              else Returned(Conflict(key)))
      modifies env, env.backend, env.repo
      ensures At(pid, Returned(outcome)) && RowsStay() && !outcome.Created? && (steady && ok ==> !outcome.Failed?)
      ensures !outcome.Failed? ==> outcome.key == key
      ensures env.alone && ok && existing.Some? ==>
        outcome == Failed || outcome == PriorAnswer(old(env.repo.files), key, existing.value)
      ensures !ok ==> outcome.Failed?
    {
      hide Sound, Run, Next, Same, Between;
      if !ok {
        outcome := Failed;
      } else if existing.Some? && existing.value.Completed? {
        outcome := ReplayPrior(pid, key, existing.value.file);
      } else {
        outcome := Conflict(key);
      }
    }

    // The rest of a guarded upload, right after its claim.
    method UploadClaimed(pid: Pid, claim: Claim, input: UploadInput) returns (outcome: Outcome)
      requires At(pid, Naming(Some(claim))) && Apart(input.body) && Unread(input.body)
      requires env.alone ==> Claimed(env.View(), claim)
      modifies env, env.backend, env.repo, input.body.Objects()
      ensures At(pid, Returned(outcome)) && old(env.trace) <= env.trace && (outcome.Created? || outcome.Failed?)
      ensures outcome.Created? ==> input.body.End() == EOF && (claim.key, outcome.id) in env.hist.commits
      ensures outcome.Created? ==> Accepted(env.c, env.hist, outcome.id, input.body.Total(), input.size)
      ensures Spent(input.body, outcome.Created? || steady)
      ensures env.alone ==> Owned(env.c, old(env.View()), env.View(), claim, outcome, input.body.Total(), input.size)
      ensures env.alone && steady && input.body.End() == EOF ==> outcome.Created?
      ensures env.alone && steady && outcome.Failed? ==> env.repo.keys == Released(old(env.repo.keys), claim.key)
    {
      hide Sound, Run, Next, Owned, Released, Staged, Claimed, Same, Between, Streamed, Accepted, Spent, Unread;
      hide Input.Valid, Input.Delivered, Input.Total, Input.End;
      ghost var w0 := env.View();
      var f := Stage(pid, Some(claim), input);
      outcome := FinishClaimed(pid, claim, f, w0, input.body.Total(), input.size);
      SpentStill(input.body, f.Some? || steady, outcome.Created? || steady);
    }

    // What follows a staged or failed upload of `data` that owns a key.
    method FinishClaimed(pid: Pid, claim: Claim, f: Option<File>, ghost w0: World, ghost data: Bytes, ghost size: int)
      returns (outcome: Outcome)
      requires f.None? ==> At(pid, Releasing(claim))
      requires f.Some? ==> At(pid, Committing(Some(claim), f.value)) && f.value.size == SizeOf(size, data)
      requires f.Some? ==> Streamed(env.c, env.hist, f.value, data)
      requires env.alone ==> Claimed(w0, claim) && w0.files == env.repo.files && w0.keys == env.repo.keys
      requires env.alone && f.Some? ==> Staged(env.c, w0, env.View(), f.value, data)
      modifies env, env.backend, env.repo
      ensures At(pid, Returned(outcome)) && old(env.trace) <= env.trace
      ensures outcome == Failed || (f.Some? && outcome == Created(f.value.id))
      ensures outcome.Created? ==>
        (claim.key, outcome.id) in env.hist.commits && Accepted(env.c, env.hist, outcome.id, data, size)
      ensures env.alone ==> Owned(env.c, w0, env.View(), claim, outcome, data, size)
      ensures env.alone && steady && f.Some? ==> outcome.Created?
      ensures env.alone && steady && outcome.Failed? ==> env.repo.keys == Released(w0.keys, claim.key)
    {
      hide Sound, Run, Next, Owned, Released, Staged, Claimed, Same, Between, Referenced, Streamed, Accepted, Lands;
      ghost var w1, before := env.View(), env.trace;
      if f.None? {
        ReleaseKey(pid, claim);
        outcome := Failed;
      } else {
        if env.alone {
          StagedLands(env.c, w0, w1, f.value, data);
          ClaimLands(w0, w1, claim, f.value);
        }
        outcome := CommitOrRelease(pid, claim, f.value);
      }
      if outcome.Created? {
        CommittedAs(w1, before, f.value, data, size);
        if env.alone {
          CommitOwns(env.c, w0, w1, env.View(), claim, f.value, data, size);
        }
      } else if env.alone {
        NotOwned(env.c, w0, env.View(), claim, data, size);
      }
    }

    // Row and key together, or neither: then the object goes, and the claim.
    method CommitOrRelease(pid: Pid, claim: Claim, f: File) returns (outcome: Outcome)
      requires At(pid, Committing(Some(claim), f))
      modifies env, env.backend, env.repo
      ensures At(pid, Returned(outcome)) && old(env.trace) <= env.trace && (outcome == Created(f.id) || outcome.Failed?)
      ensures outcome.Created? ==> f.id in env.hist.inserted && env.hist.inserted[f.id] == f.ToRow()
      ensures outcome.Created? ==> (claim.key, f.id) in env.hist.commits
      ensures env.alone && outcome.Created? ==>
        && claim.key in old(env.repo.keys) && env.repo.files == old(env.repo.files)[f.id := f.ToRow()]
        && env.repo.keys == old(env.repo.keys)[claim.key := old(env.repo.keys)[claim.key].(status := Completed(f.id))]
        && env.backend.objects == old(env.backend.objects)
      ensures env.alone && outcome.Failed? ==>
        && env.repo.files == old(env.repo.files)
        && (env.repo.keys == old(env.repo.keys) || env.repo.keys == Released(old(env.repo.keys), claim.key))
      ensures env.alone && outcome.Failed? && env.backend.Firm(f.key) ==> f.key !in env.backend.objects
      ensures env.alone && steady && outcome.Failed? ==>
        env.repo.keys == Released(old(env.repo.keys), claim.key) && f.key !in env.backend.objects
      ensures env.alone && steady && Lands(old(env.View()), Some(claim), f) ==> outcome.Created?
    {
      hide Sound, Run, Next, Same, Between, Lands, Released;
      var ok := CommitForKey(pid, claim, f);
      if ok {
        return Created(f.id);
      }
      DiscardObject(pid, Some(claim), f);
      ReleaseKey(pid, claim);
      outcome := Failed;
    }

    lemma AnswerHolds(pid: Pid, outcome: Outcome)
      requires At(pid, Returned(outcome))
      ensures OutcomeOk(env.hist, outcome)
      ensures AnswersKey(outcome) ==> exists s :: Earned(env.c, env.start, env.trace, pid, outcome, s)
    {
      if AnswersKey(outcome) {
        env.AnswerEarned(pid);
      }
      env.ValidSound();
      assert UploadSound(env.c, env.hist, env.uploads[pid]);
    }

    // Soft delete; `found` is false when there was no live row.
    method Delete(pid: Pid, id: Id) returns (ok: bool, found: bool)
      requires Ready()
      modifies env, env.backend, env.repo
      ensures Ready() && old(env.trace) <= env.trace
      ensures ok ==> !IsLive(env.repo.files, id)
      ensures ok && (found || id in env.hist.inserted) ==> id in env.hist.deleted
      ensures env.alone ==> env.backend.objects == old(env.backend.objects) && env.repo.keys == old(env.repo.keys)
      ensures env.alone && ok ==> found == IsLive(old(env.repo.files), id)
      ensures env.alone ==>
        env.repo.files == if ok && found then
                            old(env.repo.files)[id := old(env.repo.files)[id].(deletedAt := Some(env.now))]
                          else old(env.repo.files)
      ensures steady ==> ok
    {
      hide Sound, Run, SweepNext, UploadNext, DownloadNext;
      env.Yield(pid);
      var w := env.View();
      ok, found := env.repo.Delete(id, env.now);
      if ok {
        env.Record(w, SoftDelete(id));
        if !found && id in env.hist.inserted {
          NotLiveIsDeleted(id);
        }
      }
    }

    // A file that once had a row and is not live was deleted.
    lemma NotLiveIsDeleted(id: Id)
      requires env.Valid() && id in env.hist.inserted && !IsLive(env.repo.files, id)
      ensures id in env.hist.deleted
    {
      env.ValidSound();
    }

    // Row first, then object: two calls that others may come between. What is
    // opened is read through a verifying reader, and ends cleanly unless the
    // stream is severed.
    method Open(pid: Pid, id: Id) returns (d: Download, body: Option<Reader>)
      requires Ready() && pid !in env.downloads
      modifies env, env.backend, env.repo
      ensures Ready() && old(env.trace) <= env.trace && pid in env.downloads && env.downloads[pid] == d
      ensures d.Served? || d.NoRow? || d.NoObject? || d.Broken?
      ensures d.Served? ==> DownloadSound(env.hist, d) && d.row.checksum == env.c.hash(d.data)
      ensures d.Served? <==> body.Some?
      ensures body.Some? ==> fresh(body.value.Objects()) && body.value.Unread() && body.value.Data() == d.data
      ensures body.Some? ==> body.value.Ending() == EOF || (!steady && body.value.Ending() == Severed)
      ensures d.NoRow? || d.NoObject? || d.Served? ==> d.id == id
      ensures id in old(env.hist.deleted) ==> d.NoRow? || d.Broken?
      ensures forall D: nat, S: nat :: D + S < env.c.grace && Timely(env.c, D, S, env.start, env.trace) ==>
        d.Broken? || Explained(env.c, env.start, env.trace, pid)
      ensures d.NoRow? && id in old(env.hist.inserted) ==> id in env.hist.deleted
      ensures forall D: nat, S: nat :: D + S < env.c.grace && Timely(env.c, D, S, env.start, env.trace) ==>
        d.NoObject? ==> id in env.hist.deleted
      ensures env.alone ==> d.Broken? || d == DownloadOf(old(env.repo.files), old(env.backend.objects), id)
      ensures steady ==> !d.Broken?
    {
      hide Sound, Run, Timely, Explained, SweepNext, UploadNext, Stamp;
      body := None;
      d := Metadata(pid, id);
      if d.Fetching? {
        d := Fetch(pid, id, d.row);
      }
      forall D: nat, S: nat | D + S < env.c.grace && Timely(env.c, D, S, env.start, env.trace) && !d.Broken?
        ensures Explained(env.c, env.start, env.trace, pid)
      {
        env.DownloadNow(D, S, pid);
      }
      forall D: nat, S: nat | D + S < env.c.grace && Timely(env.c, D, S, env.start, env.trace) && d.NoObject?
        ensures id in env.hist.deleted
      {
        env.MissNow(D, S, pid);
      }
      if d.Served? {
        var reader := NewReader(d);
        body := Some(reader);
      }
    }

    method NewReader(d: Download) returns (r: Reader)
      requires d.Served?
      ensures fresh(r.Objects()) && r.Unread() && r.Data() == d.data
      ensures d.row.checksum == env.c.hash(d.data) ==> r.Ending() == EOF || (!steady && r.Ending() == Severed)
    {
      var severed: bool := *;
      var stalls: int := *;
      var rc := new Source(d.data, severed && !steady, if stalls < 0 then 0 else stalls);
      r := NewVerifyingReader(rc, d.row.checksum, env.c.hash);
    }

    // The live row, or the reason there is none.
    method Metadata(pid: Pid, id: Id) returns (d: Download)
      requires Ready() && pid !in env.downloads
      modifies env, env.backend, env.repo
      ensures Ready() && old(env.trace) <= env.trace && pid in env.downloads && env.downloads[pid] == d
      ensures d.Fetching? || d.NoRow? || d.Broken?
      ensures d.Fetching? || d.NoRow? ==> d.id == id
      ensures d.Fetching? ==> id !in old(env.hist.deleted)
      ensures d.NoRow? && id in old(env.hist.inserted) ==> id in env.hist.deleted
      ensures env.alone ==> env.repo.files == old(env.repo.files) && env.backend.objects == old(env.backend.objects)
      ensures env.alone ==>
        d.Broken? || d == if IsLive(env.repo.files, id) then Fetching(id, env.repo.files[id]) else NoRow(id)
      ensures steady ==> !d.Broken?
    {
      hide Sound, Run, SweepNext, UploadNext, Stamp;
      ghost var w0, before := env.View(), env.trace;
      env.Record(env.View(), Dn(pid, DownloadAct.Open(id)));
      env.Yield(pid);
      var w := env.View();
      var ok, row := env.repo.Get(id);
      env.Record(w, Dn(pid, if ok then Got else Lost));
      d := if !ok then Broken(id) else if row.Some? then Fetching(id, row.value) else NoRow(id);
      if d.Fetching? {
        NotDeleted(w0, before, id);
      } else if d.NoRow? && id in w0.hist.inserted {
        env.GrewSince(w0, before);
        NotLiveIsDeleted(id);
      }
    }

    // A live file has never been deleted.
    lemma NotDeleted(w: World, before: seq<Label>, id: Id)
      requires env.Valid() && before <= env.trace && w == Run(env.c, env.start, before) && IsLive(env.repo.files, id)
      ensures id !in w.hist.deleted
    {
      env.ValidSound();
      env.GrewSince(w, before);
    }

    method Fetch(pid: Pid, id: Id, row: Row) returns (d: Download)
      requires Ready() && pid in env.downloads && env.downloads[pid] == Fetching(id, row)
      modifies env, env.backend, env.repo
      ensures Ready() && old(env.trace) <= env.trace && pid in env.downloads && env.downloads[pid] == d
      ensures d.Served? || d.NoObject? || d.Broken?
      ensures env.alone ==> d.Broken? || d == DownloadOfRow(old(env.backend.objects), id, row)
      ensures steady ==> !d.Broken?
      ensures d.Served? ==> d.row == row && DownloadSound(env.hist, d) && d.row.checksum == env.c.hash(d.data)
      ensures d.Served? || d.NoObject? ==> d.id == id
    {
      hide Sound, Run, SweepNext, UploadNext, Stamp;
      env.Yield(pid);
      var w := env.View();
      var ok, data := env.backend.Get(row.key);
      env.Record(w, Dn(pid, if ok then Got else Lost));
      d := if !ok then Broken(id) else if data.Some? then Served(id, row, data.value) else NoObject(id, row);
      DownloadHolds(pid);
    }

    // Part of the object a row names. The read shows this process nothing but
    // a slice of what a whole read would have shown it.
    method OpenRange(pid: Pid, id: Id, row: Row, offset: int, length: int) returns (d: Download, chunk: Bytes)
      requires Ready() && pid in env.downloads && env.downloads[pid] == Fetching(id, row)
      modifies env, env.backend, env.repo
      ensures Ready() && old(env.trace) <= env.trace && pid in env.downloads && env.downloads[pid] == d
      ensures d.Served? || d.NoObject? || d.Broken?
      ensures d.Served? ==> d.row == row && row.checksum == env.c.hash(d.data) && 0 <= offset <= |d.data|
      ensures d.Served? ==>
        chunk == if length > 0 && offset + length < |d.data| then d.data[offset..offset + length] else d.data[offset..]
      ensures env.alone && !d.Broken? ==> d == DownloadOfRow(old(env.backend.objects), id, row)
      ensures env.alone && steady && d.Broken? ==>
        row.key in old(env.backend.objects) && !(0 <= offset <= |old(env.backend.objects)[row.key].data|)
    {
      hide Sound, Run, SweepNext, UploadNext, Stamp;
      env.Yield(pid);
      var w := env.View();
      var ok, found;
      ok, found, chunk := env.backend.GetRange(row.key, offset, length);
      d := if !ok then Broken(id)
           else if found then Served(id, row, env.backend.objects[row.key].data)
           else NoObject(id, row);
      env.Record(w, Dn(pid, if ok then Got else Lost));
      DownloadHolds(pid);
    }

    lemma DownloadHolds(pid: Pid)
      requires Ready() && pid in env.downloads
      ensures DownloadSound(env.hist, env.downloads[pid])
      ensures env.downloads[pid].Served? ==> env.downloads[pid].row.checksum == env.c.hash(env.downloads[pid].data)
    {
      env.ValidSound();
      assert DownloadSound(env.hist, env.downloads[pid]);
    }

    // Upload, download, delete, download. Whoever else acts and whatever fails,
    // a download that is served delivers the uploaded body and passes its check;
    // under the timing bounds an upload that succeeded is not served only if a
    // call failed or the file had been deleted when the download ended (`read` is
    // the run up to there); and after the delete the file is not served again.
    method RoundTrip(pid: Pid, input: UploadInput)
      returns (id: Option<Id>, text: Option<(Bytes, ReadErr)>, broken: bool, deleted: bool, after: Option<Download>,
               ghost read: seq<Label>)
      requires Ready() && pid !in env.uploads && Apart(input.body) && Unread(input.body)
      modifies env, env.backend, env.repo, input.body.Objects()
      ensures Ready() && old(env.trace) <= read <= env.trace
      ensures text.Some? ==> id.Some? && text.value.0 == input.body.Total()
      ensures text.Some? ==> text.value.1 == EOF || (!steady && text.value.1 == Severed)
      ensures id.Some? && text.None? && !broken ==>
        forall D: nat, S: nat :: D + S < env.c.grace && Timely(env.c, D, S, env.start, read) ==>
          id.value in Run(env.c, env.start, read).hist.deleted
      ensures steady ==> !broken
      ensures deleted ==> after.Some? && (after.value.NoRow? || after.value.Broken?)
      ensures env.alone && steady && input.body.End() == EOF ==>
        text.Some? && deleted && after.value == NoRow(id.value)
    {
      hide Sound, Run, Next, Filed, Timely, Explained;
      text, broken, deleted, after := None, false, false, None;
      var outcome := Upload(pid, input);
      read := env.trace;
      if !outcome.Created? {
        return None, text, broken, deleted, after, read;
      }
      id := Some(outcome.id);
      ghost var w1, before := env.View(), env.trace;
      if env.alone {
        FiledIsShown(env.c, old(env.View()), w1, outcome.id, input.body.Total(), input.size);
      }
      text, broken := ReadBack(outcome.id, w1, before, input.body.Total(), input.size);
      read := env.trace;
      deleted, after := DeleteThenOpen(pid, outcome.id, w1, before);
    }

    method ReadBack(id: Id, ghost w: World, ghost before: seq<Label>, ghost data: Bytes, ghost size: int)
      returns (text: Option<(Bytes, ReadErr)>, broken: bool)
      requires Ready() && before <= env.trace && w == Run(env.c, env.start, before)
      requires Accepted(env.c, w.hist, id, data, size)
      modifies env, env.backend, env.repo
      ensures Ready() && old(env.trace) <= env.trace
      ensures text.Some? ==> text.value.0 == data && (text.value.1 == EOF || (!steady && text.value.1 == Severed))
      ensures forall D: nat, S: nat :: D + S < env.c.grace && Timely(env.c, D, S, env.start, env.trace) ==>
        text.Some? || broken || id in env.hist.deleted
      ensures steady ==> !broken
      ensures env.alone && steady && DownloadOf(old(env.repo.files), old(env.backend.objects), id).Served? ==>
        text.Some?
    {
      AcceptedIsInserted(w, before, id, data, size);
      hide Sound, Run, Next, Timely, Explained, Accepted, DownloadSound;
      AnotherId(env.downloads.Keys);
      var first :| first !in env.downloads;
      var d, body := Open(first, id);
      text, broken := None, d.Broken?;
      if body.Some? {
        ServedIsAccepted(w, before, id, data, size, d);
        var delivered, err := Copy(body.value);
        text := Some((delivered, err));
      }
    }

    lemma AcceptedIsInserted(w: World, before: seq<Label>, id: Id, data: Bytes, size: int)
      requires env.Valid() && before <= env.trace && w == Run(env.c, env.start, before)
      requires Accepted(env.c, w.hist, id, data, size)
      ensures id in env.hist.inserted
    {
      hide Run;
      env.GrewSince(w, before);
    }

    // Rows and objects are what was accepted, however late they are read.
    lemma ServedIsAccepted(w: World, before: seq<Label>, id: Id, data: Bytes, size: int, d: Download)
      requires env.Valid() && before <= env.trace && w == Run(env.c, env.start, before)
      requires Accepted(env.c, w.hist, id, data, size) && d.Served? && d.id == id && DownloadSound(env.hist, d)
      ensures d.data == data
    {
      hide Run;
      env.GrewSince(w, before);
    }

    method DeleteThenOpen(pid: Pid, id: Id, ghost w: World, ghost before: seq<Label>)
      returns (deleted: bool, after: Option<Download>)
      requires Ready() && before <= env.trace && w == Run(env.c, env.start, before) && id in w.hist.inserted
      modifies env, env.backend, env.repo
      ensures Ready() && old(env.trace) <= env.trace
      ensures deleted ==> after.Some? && (after.value.NoRow? || after.value.Broken?)
      ensures steady ==> deleted && after.Some? && after.value == NoRow(id)
    {
      hide Sound, Run, Next, Timely, Explained;
      var found;
      deleted, found := Delete(pid, id);
      after := None;
      if deleted {
        env.GrewSince(w, before);
        AnotherId(env.downloads.Keys);
        var second :| second !in env.downloads;
        var d, body := Open(second, id);
        after := Some(d);
      }
    }
  }
}
