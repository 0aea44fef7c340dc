/** Range downloads end to end: the header, the row, the store's ranged read and
    the answer that is sent. */
module Serving {
  import opened Types
  import opened Protocol
  import opened Soundness
  import opened Range
  import opened Stores
  import opened Deployment
  import opened Filing
  import opened Service

  // A 206 carries Content-Length, the three numbers of Content-Range, and the
  // body; Whole is the answer the request would get without the header.
  datatype Response =
    | Partial(contentLength: int, first: int, last: int, total: int, body: Bytes)
    | NotSatisfiable(total: int)
    | Whole
    | NotFound
    | ServerError

  // What is sent for a row of this size whose object holds `data`.
  function Answer(header: string, size: int64, data: Bytes): Response
    requires size >= 0
  {
    AnswerTo(ParseSingleRange(header, size), size as int, data)
  }

  function AnswerTo(range: Range.Outcome, size: int, data: Bytes): Response {
    match range
    case Ignore => Whole
    case Unsatisfiable => Response.NotSatisfiable(size)
    case Serve(offset, length) =>
      var o, n := offset as int, length as int;
      if o < 0 || n < 1 || o > |data| then ServerError
      else Partial(n, o, o + n - 1, size, if o + n < |data| then data[o..o + n] else data[o..])
  }

  // The answer by the tables. The header is looked at before the object.
  function Expected(header: string, files: map<Id, Row>, objects: map<Key, Object>, id: Id): Response {
    if !IsLive(files, id) then NotFound
    else if files[id].size < 0 || files[id].size >= LIMIT then ServerError
    else if files[id].key in objects then Answer(header, files[id].size as int64, objects[files[id].key].data)
    else
      var blind := Answer(header, files[id].size as int64, []);
      if blind.Whole? || blind.NotSatisfiable? then blind else NotFound
  }

  // A partial response that says exactly what it carries.
  predicate Truthful(r: Response, data: Bytes) {
    r.Partial? ==>
      && r.total == |data| && 0 <= r.first <= r.last < |data|
      && r.body == data[r.first..r.last + 1] && r.contentLength == |r.body|
  }

  method DownloadRange(svc: Service, pid: Pid, id: Id, header: string) returns (resp: Response, d: Download)
    requires svc.Ready() && pid !in svc.env.downloads
    modifies svc.env, svc.env.backend, svc.env.repo
    ensures svc.Ready() && old(svc.env.trace) <= svc.env.trace
    ensures pid in svc.env.downloads && svc.env.downloads[pid] == d
    ensures resp.Partial? ==>
      && d.Served? && d.row.checksum == svc.env.c.hash(d.data) && 0 <= d.row.size < 0x8000_0000_0000_0000
      && resp == Answer(header, d.row.size as int64, d.data)
      && (d.row.size == |d.data| ==> Truthful(resp, d.data))
      && (resp.contentLength == |resp.body| <==> resp.last < |d.data|)
    ensures resp.Whole? || resp.NotSatisfiable? ==>
      && d.Fetching? && 0 <= d.row.size < 0x8000_0000_0000_0000 && resp == Answer(header, d.row.size as int64, [])
    ensures resp.NotFound? <==> d.NoRow? || d.NoObject?
    ensures resp.ServerError? <==> d.Broken? || (d.Fetching? && !(0 <= d.row.size < 0x8000_0000_0000_0000))
    ensures svc.steady && svc.env.alone ==>
      resp == Expected(header, old(svc.env.repo.files), old(svc.env.backend.objects), id)
  {
    hide Sound, Run, ParseSingleRange, Truthful;
    d := svc.Metadata(pid, id);
    if !d.Fetching? {
      return if d.NoRow? then NotFound else ServerError, d;
    }
    var row := d.row;
    // The size column is a signed 64-bit number.
    if row.size < 0 || row.size >= LIMIT {
      return ServerError, d;
    }
    match ParseSingleRange(header, row.size as int64)
    case Ignore => return Whole, d;
    case Unsatisfiable => return Response.NotSatisfiable(row.size), d;
    case Serve(offset, length) =>
      var o, n, chunk := offset as int, length as int, [];
      d, chunk := svc.OpenRange(pid, id, row, o, n);
      if !d.Served? {
        return if d.NoObject? then NotFound else ServerError, d;
      }
      resp := Partial(n, o, o + n - 1, row.size, chunk);
      ShortBody(header, row.size as int64, d.data);
      if row.size == |d.data| {
        PartialIsExact(header, d.data);
      }
  }

  // When the row has the size of its object, every answer is exact.
  lemma PartialIsExact(header: string, data: Bytes)
    requires |data| < LIMIT
    ensures Truthful(Answer(header, |data| as int64, data), data) && !Answer(header, |data| as int64, data).ServerError?
  {
  }

  // And only then: a row of any other nonzero size makes some answer untrue.
  lemma ExactIsSameSize(size: int64, data: Bytes)
    requires size >= 0
    ensures (forall h: string :: Truthful(Answer(h, size, data), data)) <==> size == 0 || size as int == |data|
  {
    if size as int == |data| {
      forall h: string ensures Truthful(Answer(h, size, data), data) {
        PartialIsExact(h, data);
      }
    } else if size > 0 {
      var s := From("0");
      ParseSpec(s, "", "", "", size);
      assert Header(s, "", "") + "" == Header(s, "", "");
      assert Value("0"[..0]) == 0;
      assert !Truthful(Answer(Header(s, "", ""), size, data), data);
    }
  }

  // A partial body has the announced length exactly when the range ends within
  // the object.
  lemma ShortBody(header: string, size: int64, data: Bytes)
    requires size >= 0 && Answer(header, size, data).Partial?
    ensures var r := Answer(header, size, data); r.contentLength == |r.body| <==> r.last < |data|
  {
  }

  // A well-formed range, or the first of a list, is answered as the RFC reads it.
  lemma ServesRfc(s: Spec, left: string, right: string, tail: string, data: Bytes)
    requires s.WellFormed() && Ows(left) && Ows(right) && Tail(tail) && Fits(s) && 0 < |data| < LIMIT
    ensures AsRfc(Answer(Header(s, left, right) + tail, |data| as int64, data), Selects(s, |data|), data)
  {
    ParseSpec(s, left, right, tail, |data| as int64);
    hide ParseSingleRange, Header, Value, Selects, Fits;
    hide AnswerTo, AsRfc, Agrees;
    Agreed(ParseSingleRange(Header(s, left, right) + tail, |data| as int64), Selects(s, |data|), data);
  }

  predicate AsRfc(r: Response, m: Meaning, data: Bytes) {
    match m
    case Invalid => r.Whole?
    case NotSatisfiable => r == Response.NotSatisfiable(|data|)
    case Bytes(first, count) =>
      first + count <= |data| && r == Partial(count, first, first + count - 1, |data|, data[first..first + count])
  }

  lemma Agreed(range: Range.Outcome, m: Meaning, data: Bytes)
    requires Agrees(range, m)
    requires range.Serve? ==> 1 <= range.length && range.offset as int + range.length as int <= |data|
    ensures AsRfc(AnswerTo(range, |data|, data), m, data)
  {
  }
}
