/** What an upload does to the two stores and to its body: the facts about worlds
    that the service's methods are proved with. */
module Filing {
  import opened Types
  import opened Protocol
  import opened Soundness
  import opened Streaming

  // `size` is negative when the length is not known in advance; `sniff` is set
  // when the request named no content type.
  datatype UploadInput = UploadInput(body: Input, size: int, sniff: bool)

  function SizeOf(declared: int, data: Bytes): int {
    if declared >= 0 then declared else |data|
  }

  // The object was put with exactly these bytes, and the record has their hash.
  ghost predicate Streamed(c: Config, h: History, f: File, data: Bytes) {
    f.key in h.stored && h.stored[f.key].data == data && f.checksum == c.hash(data)
  }

  lemma StreamedStays(c: Config, h: History, h': History, f: File, size: int, data: Bytes)
    requires Streamed(c, h, f, data) && Grows(h, h')
    ensures Streamed(c, h', f.(size := size), data) && h'.stored[f.key] == h.stored[f.key]
  {
  }

  // The file was inserted live, with the size and hash of the body and an object
  // that was put with exactly the body.
  ghost predicate Accepted(c: Config, h: History, id: Id, data: Bytes, size: int) {
    && id in h.inserted
    && h.inserted[id] == Row(h.inserted[id].key, if size >= 0 then size else |data|, c.hash(data), None)
    && h.inserted[id].key in h.stored && h.stored[h.inserted[id].key].data == data
  }

  lemma AcceptedByCommit(c: Config, h: History, h': History, f: File, data: Bytes, size: int)
    requires Streamed(c, h, f, data) && Grows(h, h') && f.size == SizeOf(size, data)
    requires f.id in h'.inserted && h'.inserted[f.id] == f.ToRow()
    ensures Accepted(c, h', f.id, data, size)
  {
  }

  // The object stands in the store, whole, and no table knows it yet.
  ghost predicate Staged(c: Config, w0: World, w: World, f: File, data: Bytes) {
    && w.files == w0.files && w.keys == w0.keys && f.id !in w0.files && !Referenced(w0.files, f.key)
    && f.key !in w0.objects && f.key in w.objects && w.objects[f.key].data == data
    && w.objects == w0.objects[f.key := w.objects[f.key]]
    && f.checksum == c.hash(data)
  }

  lemma StagedLands(c: Config, w0: World, w: World, f: File, data: Bytes)
    requires Staged(c, w0, w, f, data)
    ensures f.id !in w.files && !Referenced(w.files, f.key) && w.files == w0.files && w.keys == w0.keys
    ensures f.key in w.objects && w.objects[f.key].data == data
  {
  }

  lemma StagedStays(c: Config, w0: World, w1: World, w: World, f: File, size: int, data: Bytes)
    requires Staged(c, w0, w1, f, data) && w.files == w1.files && w.keys == w1.keys && w.objects == w1.objects
    ensures Staged(c, w0, w, f.(size := size), data)
  {
  }

  // One new live row, and one new object with exactly the bytes it describes.
  ghost predicate Filed(c: Config, w0: World, w: World, id: Id, data: Bytes, size: int) {
    && id !in w0.files && id in w.files && w.files == w0.files[id := w.files[id]]
    && w.files[id] == Row(w.files[id].key, if size >= 0 then size else |data|, c.hash(data), None)
    && w.files[id].key !in w0.objects && w.files[id].key in w.objects
    && w.objects == w0.objects[w.files[id].key := w.objects[w.files[id].key]]
    && w.objects[w.files[id].key].data == data
  }

  lemma CommitFiles(c: Config, w0: World, w1: World, w: World, f: File, data: Bytes, size: int)
    requires Staged(c, w0, w1, f, data) && f.size == SizeOf(size, data)
    requires w.files == w1.files[f.id := f.ToRow()] && w.objects == w1.objects
    ensures Filed(c, w0, w, f.id, data, size)
  {
  }

  lemma FiledSince(c: Config, w0: World, w1: World, w: World, id: Id, data: Bytes, size: int)
    requires Filed(c, w1, w, id, data, size) && w0.files == w1.files && w0.objects == w1.objects
    ensures Filed(c, w0, w, id, data, size)
  {
  }

  // The owner of a pending key either completes it together with a new file, or
  // leaves no row behind and may still fail to release it.
  ghost predicate Owned(c: Config, w0: World, w: World, claim: Claim, o: Outcome, data: Bytes, size: int) {
    match o
    case Created(id) =>
      Filed(c, w0, w, id, data, size) && w.keys == w0.keys[claim.key := KeyRow(Completed(id), claim.at)]
    case Failed => w.files == w0.files && (w.keys == w0.keys || w.keys == w0.keys - {claim.key})
    case _ => false
  }

  // The claim was just made: its pending row is there.
  ghost predicate Claimed(w: World, claim: Claim) {
    claim.key in w.keys && w.keys[claim.key] == KeyRow(Pending, claim.at)
  }

  lemma PlainLands(w: World, f: File)
    requires f.id !in w.files && !Referenced(w.files, f.key)
    ensures Lands(w, None, f)
  {
  }

  lemma ClaimLands(w0: World, w: World, claim: Claim, f: File)
    requires Claimed(w0, claim) && w.keys == w0.keys && f.id !in w.files && !Referenced(w.files, f.key)
    ensures Lands(w, Some(claim), f)
  {
  }

  lemma NotOwned(c: Config, w0: World, w: World, claim: Claim, data: Bytes, size: int)
    requires Claimed(w0, claim) && w.files == w0.files
    requires w.keys == w0.keys || w.keys == Released(w0.keys, claim.key)
    ensures Owned(c, w0, w, claim, Failed, data, size)
  {
  }

  lemma CommitOwns(c: Config, w0: World, w1: World, w: World, claim: Claim, f: File, data: Bytes, size: int)
    requires Claimed(w0, claim) && Staged(c, w0, w1, f, data) && f.size == SizeOf(size, data) && claim.key in w1.keys
    requires w.files == w1.files[f.id := f.ToRow()] && w.objects == w1.objects
    requires w.keys == w1.keys[claim.key := w1.keys[claim.key].(status := Completed(f.id))]
    ensures Owned(c, w0, w, claim, Created(f.id), data, size)
  {
    CommitFiles(c, w0, w1, w, f, data, size);
    hide Filed;
  }

  // The first upload under a key: all or nothing, except that a failed call may
  // leave the claim behind.
  ghost predicate FirstUpload(c: Config, w0: World, w: World, key: string, o: Outcome, data: Bytes, size: int) {
    match o
    case Created(id) =>
      && Filed(c, w0, w, id, data, size) && key in w.keys && w.keys[key].status == Completed(id)
      && w.keys == w0.keys[key := w.keys[key]]
    case Failed =>
      && w.files == w0.files
      && (w.keys == w0.keys || (key in w.keys && w.keys[key].status.Pending? && w.keys == w0.keys[key := w.keys[key]]))
    case _ => false
  }

  lemma FailedIsFirst(c: Config, w0: World, w: World, key: string, data: Bytes, size: int)
    requires w.files == w0.files && w.keys == w0.keys
    ensures FirstUpload(c, w0, w, key, Failed, data, size)
  {
  }

  lemma OwnedIsFirst(c: Config, w0: World, w1: World, w: World, claim: Claim, o: Outcome, data: Bytes, size: int)
    requires claim.key !in w0.keys && w1.keys == w0.keys[claim.key := KeyRow(Pending, claim.at)]
    requires w1.files == w0.files && w1.objects == w0.objects && Owned(c, w1, w, claim, o, data, size)
    ensures FirstUpload(c, w0, w, claim.key, o, data, size)
  {
    assert w1.keys - {claim.key} == w0.keys;
  }

  lemma ReleasedIsGone(keys: map<string, KeyRow>, claim: Claim)
    requires claim.key !in keys
    ensures Released(keys[claim.key := KeyRow(Pending, claim.at)], claim.key) == keys
  {
    assert keys[claim.key := KeyRow(Pending, claim.at)] - {claim.key} == keys;
  }

  lemma FiledIsShown(c: Config, w0: World, w: World, id: Id, data: Bytes, size: int)
    requires Filed(c, w0, w, id, data, size)
    ensures DownloadOf(w.files, w.objects, id) == Served(id, w.files[id], data)
  {
  }

  // What a key that is already taken is answered with.
  function PriorAnswer(files: map<Id, Row>, key: string, status: Status): Outcome {
    match status
    case Pending => Conflict(key)
    case Completed(id) => if IsLive(files, id) then Replayed(key, id, files[id]) else Gone(key, id)
  }

  // A guarded upload that nobody interferes with: a taken key is answered by what
  // it names and changes nothing, unless the call failed; a free one is a first
  // upload.
  ghost predicate Undisturbed(c: Config, w0: World, w: World, key: string, o: Outcome, data: Bytes, size: int) {
    if key in w0.keys then
      && (o == Failed || o == PriorAnswer(w0.files, key, w0.keys[key].status))
      && w.files == w0.files && w.keys == w0.keys
    else FirstUpload(c, w0, w, key, o, data, size)
  }

  lemma UndisturbedSince(c: Config, w0: World, w1: World, w: World, key: string, o: Outcome, data: Bytes, size: int)
    requires Undisturbed(c, w1, w, key, o, data, size)
    requires w0.files == w1.files && w0.objects == w1.objects && w0.keys == w1.keys
    ensures Undisturbed(c, w0, w, key, o, data, size)
  {
  }

  // What a download of a file is answered with when nobody interferes.
  function DownloadOf(files: map<Id, Row>, objects: map<Key, Object>, id: Id): Download {
    if IsLive(files, id) then DownloadOfRow(objects, id, files[id]) else NoRow(id)
  }

  function DownloadOfRow(objects: map<Key, Object>, id: Id, row: Row): Download {
    if row.key in objects then Served(id, row, objects[row.key].data) else NoObject(id, row)
  }

  // A body nobody has read from.
  ghost predicate Unread(body: Input)
    reads body.Objects()
  {
    body.Valid() && body.Delivered() == []
  }

  // What is left of a body: if `whole`, it was read to its end, and a breach of
  // its cap is on record.
  ghost predicate Spent(body: Input, whole: bool)
    reads body.Objects()
  {
    body.Valid() && (whole ==> body.Ended(body.End()))
  }

  lemma SpentBy(body: Input, whole: bool)
    requires body.Valid() && (whole ==> body.Ended(body.End()))
    ensures Spent(body, whole)
  {
  }

  lemma SpentStill(body: Input, whole: bool, still: bool)
    requires Spent(body, whole) && (still ==> whole)
    ensures Spent(body, still)
  {
  }

  lemma UnreadIsSpent(body: Input)
    requires Unread(body)
    ensures Spent(body, false)
  {
  }

  // The store after a put that succeeded with `whole`, or failed leaving `partial`.
  function Landed(w: World, key: Key, whole: Option<Bytes>, partial: Option<Bytes>): map<Key, Object> {
    if whole.Some? then w.objects[key := Object(whole.value, w.now)]
    else if partial.Some? then w.objects[key := Object(partial.value, w.now)]
    else w.objects
  }
}
