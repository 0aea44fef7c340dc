/** The object store and the metadata tables, as the service and the collector
    call them. Every call may fail unless the store is `reliable`; a failed call
    changes nothing, except that a failed put may leave part of an object. */
module Stores {
  import opened Types
  import opened Protocol
  import opened Streaming

  class Backend {
    // No call fails.
    const reliable: bool
    // Whatever else fails, deleting these does not.
    const firm: set<Key>
    var objects: map<Key, Object>

    predicate Firm(key: Key) {
      reliable || key in firm
    }

    constructor (reliable: bool, firm: set<Key>)
      ensures this.reliable == reliable && this.firm == firm && objects == map[]
    {
      this.reliable, this.firm, this.objects := reliable, firm, map[];
    }

    // Reads the body to its end, then stores it in one step. A store that fails
    // may have read only part of it, and may leave part of what it has read.
    method Put(key: Key, src: BufReader, now: Time) returns (ok: bool, partial: Option<Bytes>)
      requires src.Valid() && src.out == [] && this !in src.Objects()
      modifies this`objects, src.Objects()
      ensures src.Valid() && src.rd.Valid()
      ensures ok ==> src.rd.End() == EOF && src.hasher.written == src.rd.Total()
      ensures ok ==> objects == old(objects)[key := Object(src.rd.Total(), now)]
      ensures partial.Some? ==> partial.value <= src.rd.Total()
      ensures !ok ==>
        objects == if partial.None? then old(objects) else old(objects)[key := Object(partial.value, now)]
      ensures ok || reliable ==> src.rd.Ended(src.rd.End())
      ensures reliable && src.rd.End() == EOF ==> ok
    {
      hide BufReader.Valid, Input.Valid, Input.Delivered, Input.Total, Input.End, Input.Stalls;
      partial := None;
      var data;
      var early: bool := *;
      if early && !reliable {
        data := ReadSome(src);
        partial := Leave(key, data, now);
        return false, partial;
      }
      var e;
      data, e := ReadAll(src);
      src.OutIsPrefix();
      var fault: bool := *;
      if e != EOF || (fault && !reliable) {
        partial := Leave(key, data, now);
        return false, partial;
      }
      objects := objects[key := Object(data, now)];
      ok := true;
    }

    // What a failed put leaves behind: nothing, or a prefix of what it read.
    method Leave(key: Key, data: Bytes, now: Time) returns (partial: Option<Bytes>)
      modifies this`objects
      ensures partial.Some? ==> partial.value <= data
      ensures objects == if partial.None? then old(objects) else old(objects)[key := Object(partial.value, now)]
    {
      partial := None;
      var leave: bool := *;
      if leave {
        var cut :| 0 <= cut <= |data|;
        partial := Some(data[..cut]);
        objects := objects[key := Object(data[..cut], now)];
      }
    }

    method Get(key: Key) returns (ok: bool, data: Option<Bytes>)
      ensures ok ==> data == if key in objects then Some(objects[key].data) else None
      ensures reliable ==> ok
    {
      var fault: bool := *;
      if fault && !reliable {
        return false, None;
      }
      return true, if key in objects then Some(objects[key].data) else None;
    }

    // A length of zero or less means to the end of the object.
    method GetRange(key: Key, offset: int, length: int) returns (ok: bool, found: bool, chunk: Bytes)
      ensures ok ==> found == (key in objects)
      ensures ok && found ==> 0 <= offset <= |objects[key].data|
      ensures ok && found ==>
        chunk == if length > 0 && offset + length < |objects[key].data|
                 then objects[key].data[offset..offset + length] else objects[key].data[offset..]
      ensures reliable && (key in objects ==> 0 <= offset <= |objects[key].data|) ==> ok
    {
      var fault: bool := *;
      if fault && !reliable {
        return false, false, [];
      }
      if key !in objects {
        return true, false, [];
      }
      var data := objects[key].data;
      if offset < 0 || offset > |data| {
        return false, true, [];
      }
      var end := |data|;
      if length > 0 && offset + length < end {
        end := offset + length;
      }
      return true, true, data[offset..end];
    }

    // Deleting a missing object is not an error.
    method Delete(key: Key) returns (ok: bool)
      modifies this`objects
      ensures objects == if ok then old(objects) - {key} else old(objects)
      ensures Firm(key) ==> ok
    {
      var fault: bool := *;
      if fault && !Firm(key) {
        return false;
      }
      objects := objects - {key};
      return true;
    }

    // Takes a snapshot of every object, in no particular order.
    method List() returns (ok: bool, snapshot: seq<Listed>, order: seq<Key>)
      ensures ok ==> Enumerates(objects, order) && snapshot == Listing(objects, order)
      ensures reliable ==> ok
    {
      snapshot, order := [], [];
      var fault: bool := *;
      if fault && !reliable {
        return false, [], [];
      }
      var rest := objects.Keys;
      while rest != {}
        invariant rest <= objects.Keys
        invariant forall i :: 0 <= i < |order| ==> order[i] in objects && order[i] !in rest
        invariant forall k :: k in objects && k !in rest ==> k in order
        invariant forall i, j :: 0 <= i < j < |order| ==> order[i] != order[j]
        invariant snapshot == Listing(objects, order)
      {
        var k :| k in rest;
        snapshot := snapshot + [Listed(k, objects[k].modTime)];
        order := order + [k];
        rest := rest - {k};
      }
      ok := true;
    }

    method Stat(key: Key) returns (ok: bool, size: Option<nat>)
      ensures ok ==> size == if key in objects then Some(|objects[key].data|) else None
      ensures reliable ==> ok
    {
      var fault: bool := *;
      if fault && !reliable {
        return false, None;
      }
      return true, if key in objects then Some(|objects[key].data|) else None;
    }
  }

  class Repo {
    // No call fails.
    const reliable: bool
    // Whatever else fails, purging these rows does not.
    const firm: set<Id>
    var files: map<Id, Row>
    var keys: map<string, KeyRow>

    predicate Firm(id: Id) {
      reliable || id in firm
    }

    constructor (reliable: bool, firm: set<Id>)
      ensures this.reliable == reliable && this.firm == firm && files == map[] && keys == map[]
    {
      this.reliable, this.firm, this.files, this.keys := reliable, firm, map[], map[];
    }

    // insert ... on conflict do nothing
    method InsertClaim(key: string, now: Time) returns (ok: bool, inserted: bool)
      modifies this`keys
      ensures ok ==> inserted == (key !in old(keys))
      ensures keys == if ok && key !in old(keys) then old(keys)[key := KeyRow(Pending, now)] else old(keys)
      ensures reliable ==> ok
    {
      var fault: bool := *;
      if fault && !reliable {
        return false, false;
      }
      inserted := key !in keys;
      if inserted {
        keys := keys[key := KeyRow(Pending, now)];
      }
      ok := true;
    }

    method ReadClaim(key: string) returns (ok: bool, rec: Option<Status>)
      ensures ok ==> rec == if key in keys then Some(keys[key].status) else None
      ensures reliable ==> ok
    {
      var fault: bool := *;
      if fault && !reliable {
        return false, None;
      }
      return true, if key in keys then Some(keys[key].status) else None;
    }

    // The insert both kinds of create share, with the table's two constraints.
    method InsertFile(f: File) returns (ok: bool)
      modifies this`files
      ensures files == if ok then old(files)[f.id := f.ToRow()] else old(files)
      ensures ok ==> f.id !in old(files) && !Referenced(old(files), f.key)
      ensures reliable && f.id !in old(files) && !Referenced(old(files), f.key) ==> ok
    {
      var fault: bool := *;
      if (fault && !reliable) || f.id in files || Referenced(files, f.key) {
        return false;
      }
      files := files[f.id := f.ToRow()];
      return true;
    }

    method Create(f: File) returns (ok: bool)
      modifies this`files
      ensures files == if ok then old(files)[f.id := f.ToRow()] else old(files)
      ensures ok ==> f.id !in old(files) && !Referenced(old(files), f.key)
      ensures reliable && f.id !in old(files) && !Referenced(old(files), f.key) ==> ok
    {
      ok := InsertFile(f);
    }

    // One transaction: insert the row, complete the key, or neither.
    method CreateForKey(f: File, key: string) returns (ok: bool)
      modifies this`files, this`keys
      ensures ok ==> f.id !in old(files) && !Referenced(old(files), f.key) && key in old(keys)
      ensures ok ==> files == old(files)[f.id := f.ToRow()]
      ensures ok ==> keys == old(keys)[key := old(keys)[key].(status := Completed(f.id))]
      ensures !ok ==> files == old(files) && keys == old(keys)
      ensures reliable && f.id !in old(files) && !Referenced(old(files), f.key) && key in old(keys) ==> ok
    {
      var savedFiles, savedKeys := files, keys;
      ok := InsertFile(f);
      if !ok {
        return false;
      }
      var fault: bool := *;
      if (fault && !reliable) || key !in keys {
        files := savedFiles;
        return false;
      }
      keys := keys[key := keys[key].(status := Completed(f.id))];
      var lost: bool := *;
      if lost && !reliable {
        files, keys := savedFiles, savedKeys;
        return false;
      }
    }

    // Deletes the key only while it is still pending.
    method ReleaseIdempotencyKey(key: string) returns (ok: bool)
      modifies this`keys
      ensures keys == if ok then Released(old(keys), key) else old(keys)
      ensures reliable ==> ok
    {
      var fault: bool := *;
      if fault && !reliable {
        return false;
      }
      keys := Released(keys, key);
      return true;
    }

    method PurgeIdempotencyKeys(before: Time) returns (ok: bool, n: nat)
      modifies this`keys
      ensures keys == if ok then Unexpired(old(keys), before) else old(keys)
      ensures n == |old(keys)| - |keys|
      ensures reliable ==> ok
    {
      var fault: bool := *;
      if fault && !reliable {
        return false, 0;
      }
      ghost var gone := keys.Keys - Unexpired(keys, before).Keys;
      assert keys.Keys == Unexpired(keys, before).Keys + gone;
      n := |keys| - |Unexpired(keys, before)|;
      keys := Unexpired(keys, before);
      ok := true;
    }

    // The live row, if there is one.
    method Get(id: Id) returns (ok: bool, row: Option<Row>)
      ensures ok ==> row == if IsLive(files, id) then Some(files[id]) else None
      ensures reliable ==> ok
    {
      var fault: bool := *;
      if fault && !reliable {
        return false, None;
      }
      return true, if IsLive(files, id) then Some(files[id]) else None;
    }

    // Stamps deleted_at on a live row; `found` tells whether there was one.
    method Delete(id: Id, now: Time) returns (ok: bool, found: bool)
      modifies this`files
      ensures ok ==> found == IsLive(old(files), id)
      ensures files == if ok && IsLive(old(files), id) then old(files)[id := old(files)[id].(deletedAt := Some(now))]
                       else old(files)
      ensures reliable ==> ok
    {
      var fault: bool := *;
      if fault && !reliable {
        return false, false;
      }
      found := IsLive(files, id);
      if found {
        files := files[id := files[id].(deletedAt := Some(now))];
      }
      ok := true;
    }

    // Hard-deletes the row only if it is soft-deleted.
    method Purge(id: Id) returns (ok: bool)
      modifies this`files
      ensures files == if ok then Protocol.Purge(old(files), id) else old(files)
      ensures Firm(id) ==> ok
    {
      var fault: bool := *;
      if fault && !Firm(id) {
        return false;
      }
      files := Protocol.Purge(files, id);
      return true;
    }

    // Every storage key, of live and of soft-deleted rows.
    method StorageKeys() returns (ok: bool, known: set<Key>)
      ensures ok ==> known == Types.StorageKeys(files)
      ensures reliable ==> ok
    {
      known := {};
      var fault: bool := *;
      if fault && !reliable {
        return false, {};
      }
      var rest := files.Keys;
      while rest != {}
        invariant rest <= files.Keys
        invariant known == set i | i in files && i !in rest :: files[i].key
      {
        var i :| i in rest;
        known := known + {files[i].key};
        rest := rest - {i};
      }
      ok := true;
    }

    // Soft-deleted rows, oldest deletion first, at most `limit` of them.
    method ListDeleted(limit: int) returns (ok: bool, rows: seq<Doomed>, picked: seq<Id>)
      ensures ok ==> OldestDeleted(files, BatchLimit(limit), picked) && rows == Records(files, picked)
      ensures ok ==> forall i :: 0 <= i < |rows| ==>
        rows[i].id in Dead(files) && rows[i].id == picked[i] && rows[i].key == files[rows[i].id].key
      ensures ok ==> forall i, j :: 0 <= i < j < |rows| ==>
        rows[i].id != rows[j].id && files[rows[i].id].deletedAt.value <= files[rows[j].id].deletedAt.value
      ensures ok ==> forall i, id :: 0 <= i < |rows| && id in Dead(files) && id !in picked ==>
        files[rows[i].id].deletedAt.value <= files[id].deletedAt.value
      ensures ok && limit > 0 ==> |rows| == |picked| == if |Dead(files)| < limit then |Dead(files)| else limit
      ensures ok && limit <= 0 ==> |rows| == |picked| == if |Dead(files)| < 500 then |Dead(files)| else 500
      ensures reliable ==> ok
    {
      rows, picked := [], [];
      var fault: bool := *;
      if fault && !reliable {
        return false, [], [];
      }
      ghost var rest;
      rows, picked, rest := PickOldest(files, if limit <= 0 then 500 else limit);
      PickAll(files, picked, rest, BatchLimit(limit));
      ok := true;
    }
  }

  // order by deleted_at limit max
  method PickOldest(files: map<Id, Row>, max: nat)
    returns (rows: seq<Doomed>, picked: seq<Id>, ghost unpicked: set<Id>)
    ensures Picked(files, picked, unpicked) && forall i :: 0 <= i < |picked| ==> picked[i] in files
    ensures rows == Records(files, picked) && (unpicked == {} || |picked| == max)
    ensures |rows| == |picked| == if |Dead(files)| < max then |Dead(files)| else max
  {
    rows, picked := [], [];
    var rest := set i | i in files && SoftDeleted(files, i);
    assert rest == Dead(files);
    PickNone(files, rest);
    hide Picked, SoftDeleted, Records, Dead;
    while rest != {} && |rows| < max
      invariant |rows| == |picked| <= max && |rest| + |picked| == |Dead(files)|
      invariant Picked(files, picked, rest) && forall i :: 0 <= i < |picked| ==> picked[i] in files
      invariant rows == Records(files, picked)
    {
      PickRest(files, picked, rest);
      var next := Oldest(files, rest);
      PickOne(files, picked, rest, next);
      rows := rows + [Doomed(next, files[next].key)];
      picked := picked + [next];
      rest := rest - {next};
    }
    unpicked := rest;
  }

  // Halfway through the selection: what is picked is in order, what is left is
  // no older.
  ghost predicate Picked(files: map<Id, Row>, picked: seq<Id>, rest: set<Id>) {
    && (forall i :: i in rest ==> SoftDeleted(files, i) && i !in picked)
    && (forall i :: i in files && SoftDeleted(files, i) ==> i in rest || i in picked)
    && (forall i :: 0 <= i < |picked| ==> SoftDeleted(files, picked[i]))
    && (forall i, j :: 0 <= i < j < |picked| ==>
          picked[i] != picked[j] && files[picked[i]].deletedAt.value <= files[picked[j]].deletedAt.value)
    && (forall i, k :: 0 <= i < |picked| && k in rest ==> files[picked[i]].deletedAt.value <= files[k].deletedAt.value)
  }

  lemma PickNone(files: map<Id, Row>, rest: set<Id>)
    requires rest == set i | i in files && SoftDeleted(files, i)
    ensures Picked(files, [], rest) && Records(files, []) == []
  {
  }

  lemma PickRest(files: map<Id, Row>, picked: seq<Id>, rest: set<Id>)
    requires Picked(files, picked, rest)
    ensures forall i :: i in rest ==> SoftDeleted(files, i)
    ensures forall i :: 0 <= i < |picked| ==> picked[i] in files
  {
  }

  lemma PickOne(files: map<Id, Row>, picked: seq<Id>, rest: set<Id>, next: Id)
    requires Picked(files, picked, rest) && next in rest
    requires forall i :: i in rest ==> SoftDeleted(files, i) && files[next].deletedAt.value <= files[i].deletedAt.value
    ensures Picked(files, picked + [next], rest - {next})
    ensures Records(files, picked + [next]) == Records(files, picked) + [Doomed(next, files[next].key)]
  {
  }

  lemma PickAll(files: map<Id, Row>, picked: seq<Id>, rest: set<Id>, limit: nat)
    requires Picked(files, picked, rest) && |picked| <= limit && (rest == {} || |picked| == limit)
    ensures OldestDeleted(files, limit, picked)
    ensures var rows := Records(files, picked);
      && |rows| == |picked|
      && (forall i :: 0 <= i < |rows| ==>
            rows[i].id in Dead(files) && rows[i].id == picked[i] && rows[i].key == files[rows[i].id].key)
      && (forall i, j :: 0 <= i < j < |rows| ==>
            rows[i].id != rows[j].id && files[rows[i].id].deletedAt.value <= files[rows[j].id].deletedAt.value)
      && forall i, id :: 0 <= i < |rows| && id in Dead(files) && id !in picked ==>
           files[rows[i].id].deletedAt.value <= files[id].deletedAt.value
  {
  }

  // A row of the set that was deleted no later than any other.
  method Oldest(files: map<Id, Row>, ids: set<Id>) returns (oldest: Id)
    requires ids != {} && forall i :: i in ids ==> SoftDeleted(files, i)
    ensures oldest in ids && SoftDeleted(files, oldest)
    ensures forall i :: i in ids ==> SoftDeleted(files, i) && files[oldest].deletedAt.value <= files[i].deletedAt.value
  {
    oldest :| oldest in ids;
    var rest := ids - {oldest};
    while rest != {}
      invariant rest <= ids && oldest in ids
      invariant forall i :: i in ids - rest ==> files[oldest].deletedAt.value <= files[i].deletedAt.value
    {
      var i :| i in rest;
      if files[i].deletedAt.value < files[oldest].deletedAt.value {
        oldest := i;
      }
      rest := rest - {i};
    }
  }
}
