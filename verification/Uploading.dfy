/** The upload handler around the service: the key's length, the cap on the body,
    and the status that is sent. */
module Uploading {
  import opened Types
  import opened Protocol
  import opened Soundness
  import opened Answers
  import opened Streaming
  import opened Deployment
  import opened Filing
  import opened Service

  const MAX_KEY_LEN := 255

  // 400, 413, 201, 201 with the replay header, 409, 410 and 500.
  datatype Response =
    | BadKey
    | EntityTooLarge
    | Stored(id: Id)
    | Replay(key: string, id: Id, row: Row)
    | Busy
    | GoneForever
    | ServerError
  {
    // The answer of a key that somebody else has, or had.
    predicate OfKey() {
      Replay? || Busy? || GoneForever?
    }
  }

  predicate Errs(o: Outcome) {
    !o.Created? && !o.Replayed?
  }

  // The status of a call, given whether the body's cap was breached. Any error
  // is told as a breach if there was one.
  function Status(o: Outcome, breached: bool): Response {
    if Errs(o) && breached then EntityTooLarge
    else
      match o
      case Created(id) => Stored(id)
      case Replayed(k, id, row) => Replay(k, id, row)
      case Conflict(_) => Busy
      case Gone(_, _) => GoneForever
      case Failed => ServerError
  }

  // What is sent when nobody interferes and no call fails: a taken key is
  // answered unless the declared length is over the cap; otherwise the lengths
  // decide, and then the body's own end.
  ghost predicate Quiet(r: Response, files: map<Id, Row>, keys: map<string, KeyRow>, key: string,
                        body: Source, declared: int, max: int)
  {
    if |key| > 255 then r.BadKey?
    else if 0 < max < declared then r.EntityTooLarge?
    else if key != "" && key in keys then
      match keys[key].status
      case Pending => r.Busy?
      case Completed(id) =>
        if id in files && files[id].deletedAt.None? then r == Replay(key, id, files[id]) else r.GoneForever?
    else if 0 < max < |body.data| then r.EntityTooLarge?
    else if body.severed then r.ServerError?
    else r.Stored?
  }

  // What is known of a body after a call of the service.
  ghost predicate After(body: Input, o: Outcome, steady: bool)
    reads body.Objects()
  {
    && Spent(body, o.Created? || (o.Failed? && steady))
    && (!o.Created? && !o.Failed? ==> Unread(body))
    && (o.Created? ==> body.End() == EOF)
  }

  method CallService(svc: Service, pid: Pid, key: string, input: UploadInput) returns (o: Outcome)
    requires svc.Ready() && pid !in svc.env.uploads && svc.Apart(input.body) && Unread(input.body)
    modifies svc.env, svc.env.backend, svc.env.repo, input.body.Objects()
    ensures svc.Ready() && old(svc.env.trace) <= svc.env.trace && After(input.body, o, svc.steady)
    ensures svc.At(pid, Returned(o)) && (key == "" ==> o.Created? || o.Failed?)
    ensures !o.Created? && !o.Failed? ==> o.key == key
    ensures key != "" && o.Created? ==> (key, o.id) in svc.env.hist.commits
    ensures o.Created? ==> Accepted(svc.env.c, svc.env.hist, o.id, input.body.Total(), input.size)
    ensures o.Gone? ==> (key, o.id) in svc.env.hist.commits && o.id in svc.env.hist.deleted
    ensures AnswersKey(o) ==> exists s :: Earned(svc.env.c, svc.env.start, svc.env.trace, pid, o, s)
    ensures svc.env.alone && svc.steady && key != "" && key in old(svc.env.repo.keys) ==>
      o == PriorAnswer(old(svc.env.repo.files), key, old(svc.env.repo.keys)[key].status)
    ensures svc.env.alone && svc.steady && (key == "" || key !in old(svc.env.repo.keys)) ==>
      if input.body.End() == EOF then o.Created? else o.Failed?
  {
    hide Run, Accepted, Earned, Filed, Unread, Spent;
    if key == "" {
      o := svc.Upload(pid, input);
    } else {
      o := svc.UploadIdempotent(pid, key, input);
    }
  }

  // The limit reader's flag is set exactly if it read past the cap.
  lemma Breached(lim: LimitReader, o: Outcome, steady: bool)
    requires After(Capped(lim), o, steady) && lim.max > 0
    ensures lim.r.Valid() && (lim.exceeded <==> lim.r.pos > lim.max)
    ensures !o.Created? && !o.Failed? ==> lim.r.pos == 0
    ensures o.Created? ==> |lim.r.data| <= lim.max && !lim.r.severed && Capped(lim).Total() == lim.r.data
    ensures o.Failed? && steady ==> (lim.exceeded <==> |lim.r.data| > lim.max)
  {
  }

  lemma Uncapped(body: Source, o: Outcome, steady: bool)
    requires After(Raw(body), o, steady)
    ensures body.Valid() && (!o.Created? && !o.Failed? ==> body.pos == 0)
    ensures o.Created? ==> !body.severed && Raw(body).Total() == body.data
  {
  }

  // The whole handler, for any store, any failures and anybody else at work.
  // `called` is what the call of the service returned, if it was made: a key that
  // is still in flight is told to retry, one whose file was deleted never to, and
  // then the file it committed really was deleted. A 413 means the declared length is over the
  // cap, or the call failed after it read past the cap; so it always means a true
  // breach. What is stored never exceeds the cap, an answered key leaves the body
  // unread, and its answer is about that very key.
  method HandleUpload(svc: Service, pid: Pid, key: string, body: Source, declared: int, max: int, sniff: bool)
    returns (resp: Response, ghost called: Option<Outcome>)
    requires svc.Ready() && pid !in svc.env.uploads && body.Valid() && body.pos == 0
    modifies svc.env, svc.env.backend, svc.env.repo, body
    ensures svc.Ready() && old(svc.env.trace) <= svc.env.trace && body.Valid()
    ensures resp.BadKey? <==> |key| > 255
    ensures called.None? <==> |key| > 255 || 0 < max < declared
    ensures called.None? ==> svc.env.trace == old(svc.env.trace) && body.pos == 0
    ensures called.Some? ==> svc.At(pid, Returned(called.value))
    ensures resp.Stored? <==> called.Some? && called.value.Created?
    ensures resp.Stored? ==> called == Some(Created(resp.id))
    ensures resp.Replay? <==> called.Some? && called.value.Replayed?
    ensures resp.Busy? <==> called.Some? && called.value.Conflict?
    ensures resp.GoneForever? <==> called.Some? && called.value.Gone?
    ensures resp.GoneForever? ==>
      (key, called.value.id) in svc.env.hist.commits && called.value.id in svc.env.hist.deleted
    ensures resp.ServerError? <==> called.Some? && called.value.Failed? && !(0 < max < body.pos)
    ensures resp.EntityTooLarge? <==>
      |key| <= 255 && 0 < max && (max < declared || (called.Some? && called.value.Failed? && max < body.pos))
    ensures resp.EntityTooLarge? ==> 0 < max && (max < declared || max < |body.data|)
    ensures resp.Stored? ==> (max > 0 ==> declared <= max && |body.data| <= max) && !body.severed
    ensures resp.Stored? ==> Accepted(svc.env.c, svc.env.hist, resp.id, body.data, declared)
    ensures resp.OfKey() ==> body.pos == 0
    ensures key != "" && resp.Stored? ==> (key, resp.id) in svc.env.hist.commits
    ensures resp.Replay? ==> resp.key == key && called == Some(Replayed(key, resp.id, resp.row))
    ensures resp.OfKey() ==> called.Some? && AnswersKey(called.value) && called.value.key == key
    ensures resp.OfKey() ==> exists s :: Earned(svc.env.c, svc.env.start, svc.env.trace, pid, called.value, s)
    ensures svc.steady && |key| <= 255 ==>
      (resp.EntityTooLarge? <==> 0 < max && (max < declared || (max < |body.data| && !resp.OfKey())))
    ensures svc.steady && svc.env.alone ==>
      Quiet(resp, old(svc.env.repo.files), old(svc.env.repo.keys), key, body, declared, max)
  {
    hide Run, Accepted, Earned, Spent;
    if |key| > MAX_KEY_LEN {
      return BadKey, None;
    }
    if max > 0 {
      if declared > max {
        return EntityTooLarge, None;
      }
      var lim := new LimitReader(body, max);
      var o := CallService(svc, pid, key, UploadInput(Capped(lim), declared, sniff));
      hide After, Unread;
      Breached(lim, o, svc.steady);
      return Status(o, lim.exceeded), Some(o);
    }
    var o := CallService(svc, pid, key, UploadInput(Raw(body), declared, sniff));
    hide After, Unread;
    Uncapped(body, o, svc.steady);
    return Status(o, false), Some(o);
  }
}
