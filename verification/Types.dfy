/** Values shared by every part of the model. */
module Types {
  datatype Option<+T> = None | Some(value: T)

  newtype byte = x: int | 0 <= x < 256
  type Bytes = seq<byte>

  // One clock for the whole deployment, in an arbitrary unit.
  type Time = int

  // File ids and storage keys are UUIDv7 values: all that is used of them is
  // that they are totally ordered and never handed out twice.
  type Id = nat
  type Key = nat

  // One running call: an upload, a sweep or a download.
  type Pid = nat

  // Deployment settings. `hash` stands for hex-encoded SHA-256.
  datatype Config = Config(grace: Time, ttl: Time, batch: int, hash: Bytes -> string)

  // An object in the store.
  datatype Object = Object(data: Bytes, modTime: Time)

  // A row of the files table.
  datatype Row = Row(key: Key, size: int, checksum: string, deletedAt: Option<Time>) {
    predicate Live() {
      deletedAt.None?
    }
  }

  // A row of the idempotency_keys table.
  datatype Status = Pending | Completed(file: Id)
  datatype KeyRow = KeyRow(status: Status, createdAt: Time)

  // A staged upload: object written, row not yet committed.
  datatype File = File(id: Id, key: Key, size: int, checksum: string) {
    function ToRow(): Row {
      Row(key, size, checksum, None)
    }
  }

  // What one sweep reclaimed.
  datatype Stats = Stats(purged: nat, orphans: nat, expired: nat)

  predicate IsLive(files: map<Id, Row>, id: Id) {
    id in files && files[id].Live()
  }

  predicate SoftDeleted(files: map<Id, Row>, id: Id) {
    id in files && !files[id].Live()
  }

  // The soft-deleted rows.
  function Dead(files: map<Id, Row>): set<Id> {
    set i | i in files && files[i].deletedAt.Some?
  }

  // The unique constraint on storage_key.
  predicate Referenced(files: map<Id, Row>, key: Key) {
    exists i :: i in files && files[i].key == key
  }

  function StorageKeys(files: map<Id, Row>): set<Key> {
    set i | i in files :: files[i].key
  }
}
