/** What a sweep does to the two stores, phase by phase: the facts about worlds
    that the collector's methods are proved with. */
module Sweeping {
  import opened Types
  import opened Protocol
  import opened Soundness
  import opened Orphans
  import opened Stores
  import opened Deployment

  // Objects no row names.
  function Unnamed(w: World): set<Key> {
    w.objects.Keys - StorageKeys(w.files)
  }

  // Abandoned objects stay abandoned, and none of them comes back or changes.
  ghost predicate Keeps(w: World, w': World) {
    forall k :: Abandoned(w, k) ==>
      Abandoned(w', k) && (k in w'.objects ==> k in w.objects && w'.objects[k] == w.objects[k])
  }

  lemma KeepsBetween(c: Config, w: World, w': World)
    requires Between(c, w, w')
    ensures Keeps(w, w')
  {
    var ls :| Run(c, w, ls) == w';
    forall k | Abandoned(w, k)
      ensures Abandoned(w', k) && (k in w'.objects ==> k in w.objects && w'.objects[k] == w.objects[k])
    {
      AbandonedForever(c, w, ls, k);
    }
  }

  lemma KeepsStep(c: Config, w: World, l: Label)
    ensures Keeps(w, Next(c, w, l))
  {
    hide Next, Abandoned;
    forall k | Abandoned(w, k)
      ensures Abandoned(Next(c, w, l), k)
      ensures var o := Next(c, w, l).objects; k in o ==> k in w.objects && o[k] == w.objects[k]
    {
      StepAbandons(c, w, l, k);
    }
  }

  lemma KeepsSelf(w: World)
    ensures Keeps(w, w)
  {
  }

  lemma KeepsTrans(w0: World, w1: World, w2: World)
    requires Keeps(w0, w1) && Keeps(w1, w2)
    ensures Keeps(w0, w2)
  {
  }

  // Others acted, then this process took one step.
  lemma KeepsThenStep(c: Config, w0: World, w1: World, l: Label)
    requires Between(c, w0, w1)
    ensures Keeps(w0, Next(c, w1, l))
  {
    KeepsBetween(c, w0, w1);
    KeepsStep(c, w1, l);
    hide Keeps, Next;
    KeepsTrans(w0, w1, Next(c, w1, l));
  }

  // What became of the two deletes of one picked row.
  datatype Tried = Tried(dropped: bool, purged: bool)

  function GoneOf(picked: seq<Id>, tries: seq<Tried>): set<Id> {
    set i | 0 <= i < |tries| && i < |picked| && tries[i].purged :: picked[i]
  }

  function DropOf(rows: seq<Doomed>, tries: seq<Tried>): set<Key> {
    set i | 0 <= i < |tries| && i < |rows| && tries[i].dropped :: rows[i].key
  }

  // The object goes first; a delete that is firm does not fail.
  ghost predicate FirmTry(d: Doomed, t: Tried, b: Backend, r: Repo) {
    && (t.purged ==> t.dropped) && (b.Firm(d.key) ==> t.dropped)
    && (t.dropped && r.Firm(d.id) ==> t.purged)
  }

  ghost predicate Firmly(rows: seq<Doomed>, tries: seq<Tried>, b: Backend, r: Repo) {
    |tries| <= |rows| && forall i :: 0 <= i < |tries| ==> FirmTry(rows[i], tries[i], b, r)
  }

  lemma FirmlySnoc(rows: seq<Doomed>, tries: seq<Tried>, t: Tried, b: Backend, r: Repo)
    requires |tries| < |rows| && FirmTry(rows[|tries|], t, b, r) && Firmly(rows, tries, b, r)
    ensures Firmly(rows, tries + [t], b, r)
  {
  }

  // A purge that runs alone: gone are the rows and the objects whose delete was
  // tried and did not fail, and the rows are counted.
  ghost predicate Purged(all: World, w: World, rows: seq<Doomed>, picked: seq<Id>, tries: seq<Tried>, n: nat) {
    && w.files == all.files - GoneOf(picked, tries) && w.objects == all.objects - DropOf(rows, tries)
    && w.keys == all.keys && |GoneOf(picked, tries)| == n
  }

  lemma PurgedNone(all: World, rows: seq<Doomed>, picked: seq<Id>, b: Backend, r: Repo)
    ensures Purged(all, all, rows, picked, [], 0) && Firmly(rows, [], b, r)
  {
    assert GoneOf(picked, []) == {} && DropOf(rows, []) == {};
    assert all.files - {} == all.files && all.objects - {} == all.objects;
  }

  lemma TriedSnoc(picked: seq<Id>, rows: seq<Doomed>, tries: seq<Tried>, t: Tried)
    requires |tries| < |picked| && |tries| < |rows|
    ensures GoneOf(picked, tries + [t]) == GoneOf(picked, tries) + if t.purged then {picked[|tries|]} else {}
    ensures DropOf(rows, tries + [t]) == DropOf(rows, tries) + if t.dropped then {rows[|tries|].key} else {}
  {
    var more := tries + [t];
    forall i | i in GoneOf(picked, tries)
      ensures i in GoneOf(picked, more)
    {
      var n :| 0 <= n < |tries| && n < |picked| && tries[n].purged && picked[n] == i;
      assert more[n].purged;
    }
    forall k | k in DropOf(rows, tries)
      ensures k in DropOf(rows, more)
    {
      var n :| 0 <= n < |tries| && n < |rows| && tries[n].dropped && rows[n].key == k;
      assert more[n].dropped;
    }
    assert more[|tries|] == t;
  }

  lemma NotGone(picked: seq<Id>, tries: seq<Tried>)
    requires |tries| < |picked| && forall i, j :: 0 <= i < j < |picked| ==> picked[i] != picked[j]
    ensures picked[|tries|] !in GoneOf(picked, tries)
  {
  }

  lemma PurgedSnoc(all: World, w: World, w': World, rows: seq<Doomed>, picked: seq<Id>, tries: seq<Tried>, t: Tried,
                   n: nat)
    requires |tries| < |picked| && |tries| < |rows| && Purged(all, w, rows, picked, tries, n)
    requires forall i, j :: 0 <= i < j < |picked| ==> picked[i] != picked[j]
    requires w'.files == w.files - (if t.purged then {picked[|tries|]} else {}) && w'.keys == w.keys
    requires w'.objects == w.objects - if t.dropped then {rows[|tries|].key} else {}
    ensures Purged(all, w', rows, picked, tries + [t], if t.purged then n + 1 else n)
  {
    hide GoneOf, DropOf;
    TriedSnoc(picked, rows, tries, t);
    NotGone(picked, tries);
    MinusTwice(all.files, GoneOf(picked, tries), if t.purged then {picked[|tries|]} else {});
    MinusTwice(all.objects, DropOf(rows, tries), if t.dropped then {rows[|tries|].key} else {});
  }

  lemma MinusTwice<K, V>(m: map<K, V>, a: set<K>, b: set<K>)
    ensures (m - a) - b == m - (a + b)
  {
  }

  lemma StillThere(all: World, w: World, rows: seq<Doomed>, picked: seq<Id>, tries: seq<Tried>, n: nat)
    requires |tries| < |picked| && picked[|tries|] in all.files && Purged(all, w, rows, picked, tries, n)
    requires forall i, j :: 0 <= i < j < |picked| ==> picked[i] != picked[j]
    ensures picked[|tries|] in w.files && w.files[picked[|tries|]] == all.files[picked[|tries|]]
  {
  }

  // Where no delete can fail, the whole batch goes.
  lemma AllTried(files: map<Id, Row>, picked: seq<Id>, tries: seq<Tried>, b: Backend, r: Repo)
    requires (forall i :: 0 <= i < |picked| ==> picked[i] in files) && |tries| == |picked| && b.reliable && r.reliable
    requires Firmly(Records(files, picked), tries, b, r)
    ensures GoneOf(picked, tries) == Ids(picked) && DropOf(Records(files, picked), tries) == KeysOf(files, picked)
  {
    var rows := Records(files, picked);
    forall n | 0 <= n < |picked|
      ensures picked[n] in GoneOf(picked, tries) && rows[n].key in DropOf(rows, tries)
      ensures rows[n].key == files[picked[n]].key
    {
      assert FirmTry(rows[n], tries[n], b, r);
    }
  }

  // A whole batch, by the number itself: all there is, or as many as the batch.
  predicate FullBatch(batch: int, dead: set<Id>, picked: seq<Id>) {
    && (batch > 0 ==> |picked| == if |dead| < batch then |dead| else batch)
    && (batch <= 0 ==> |picked| == if |dead| < 500 then |dead| else 500)
  }

  // Of a batch, in deletion order and full, every object and row whose delete is
  // firm is gone, whatever became of the others.
  ghost predicate PurgedFirm(c: Config, w0: World, w: World, picked: seq<Id>, b: Backend, r: Repo) {
    && OldestDeleted(w0.files, BatchLimit(c.batch), picked) && FullBatch(c.batch, Dead(w0.files), picked)
    && forall i :: 0 <= i < |picked| && b.Firm(w0.files[picked[i]].key) ==>
         && w0.files[picked[i]].key !in w.objects
         && (r.Firm(picked[i]) ==> picked[i] !in w.files)
  }

  lemma FirmAlone(c: Config, w0: World, all: World, w: World, picked: seq<Id>, tries: seq<Tried>, n: nat, b: Backend,
                  r: Repo)
    requires all.files == w0.files && OldestDeleted(all.files, BatchLimit(c.batch), picked) && |tries| == |picked|
    requires FullBatch(c.batch, Dead(all.files), picked) && Firmly(Records(all.files, picked), tries, b, r)
    requires Purged(all, w, Records(all.files, picked), picked, tries, n)
    ensures PurgedFirm(c, w0, w, picked, b, r)
  {
    var rows := Records(all.files, picked);
    forall i | 0 <= i < |picked| && b.Firm(w0.files[picked[i]].key)
      ensures w0.files[picked[i]].key !in w.objects && (r.Firm(picked[i]) ==> picked[i] !in w.files)
    {
      assert FirmTry(rows[i], tries[i], b, r) && rows[i].key == w0.files[picked[i]].key && rows[i].id == picked[i];
      assert rows[i].key in DropOf(rows, tries);
    }
  }

  lemma FirmFrom(c: Config, w0: World, w1: World, w: World, picked: seq<Id>, b: Backend, r: Repo)
    requires w0.files == w1.files && PurgedFirm(c, w1, w, picked, b, r)
    ensures PurgedFirm(c, w0, w, picked, b, r)
  {
  }

  // Nothing was added.
  ghost predicate Shrunk(w0: World, w: World) {
    w.files.Keys <= w0.files.Keys && forall k :: k in w.objects ==> k in w0.objects && w.objects[k] == w0.objects[k]
  }

  lemma FirmStays(c: Config, w0: World, w1: World, w: World, picked: seq<Id>, b: Backend, r: Repo)
    requires PurgedFirm(c, w0, w1, picked, b, r) && Shrunk(w1, w)
    ensures PurgedFirm(c, w0, w, picked, b, r)
  {
    hide OldestDeleted, FullBatch;
  }

  function Ids(ids: seq<Id>): set<Id> {
    set i | i in ids
  }

  function KeysOf(files: map<Id, Row>, ids: seq<Id>): set<Key> {
    set i | i in ids && i in files :: files[i].key
  }

  lemma NthPicked(files: map<Id, Row>, limit: nat, picked: seq<Id>, n: nat)
    requires OldestDeleted(files, limit, picked) && n < |Records(files, picked)|
    ensures n < |picked| && SoftDeleted(files, picked[n])
    ensures Records(files, picked)[n] == Doomed(picked[n], files[picked[n]].key)
    ensures forall i, j :: 0 <= i < j < |picked| ==> picked[i] != picked[j]
  {
  }

  lemma SplitRows(files: map<Id, Row>, gone: set<Id>)
    requires gone <= files.Keys
    ensures |files| == |files - gone| + |gone|
  {
    assert files.Keys == (files - gone).Keys + gone;
  }

  lemma UnnamedStays(files: map<Id, Row>, objects: map<Key, Object>, gone: set<Id>, drop: set<Key>)
    requires drop <= StorageKeys(files) && forall i :: i in gone && i in files ==> files[i].key in drop
    ensures (objects - drop).Keys - StorageKeys(files - gone) == objects.Keys - StorageKeys(files)
  {
    var kept := files - gone;
    assert forall i :: i in files && i !in gone ==> i in kept && kept[i].key == files[i].key;
    assert StorageKeys(files) <= StorageKeys(kept) + drop;
  }

  // What a purge that runs alone adds up to.
  ghost predicate PurgedAlone(w0: World, w: World, purged: nat) {
    && w.keys == w0.keys && |w0.files| == |w.files| + purged && Unnamed(w) == Unnamed(w0) && Shrunk(w0, w)
    && forall i :: IsLive(w0.files, i) ==> i in w.files && w.files[i] == w0.files[i]
  }

  lemma TotalsAlone(all: World, w: World, picked: seq<Id>, tries: seq<Tried>, purged: nat, b: Backend, r: Repo)
    requires forall i :: 0 <= i < |picked| ==> picked[i] in all.files && !all.files[picked[i]].Live()
    requires Firmly(Records(all.files, picked), tries, b, r)
    requires Purged(all, w, Records(all.files, picked), picked, tries, purged)
    ensures PurgedAlone(all, w, purged)
  {
    hide GoneOf, DropOf, Firmly, Records, StorageKeys, PurgedAlone;
    var gone, drop := GoneOf(picked, tries), DropOf(Records(all.files, picked), tries);
    GoneWithKey(all.files, picked, tries, b, r);
    TotalsOf(all, w, gone, drop);
  }

  lemma TotalsOf(all: World, w: World, gone: set<Id>, drop: set<Key>)
    requires w.files == all.files - gone && w.objects == all.objects - drop && w.keys == all.keys
    requires gone <= all.files.Keys && drop <= StorageKeys(all.files)
    requires forall i :: i in gone ==> !all.files[i].Live() && all.files[i].key in drop
    ensures PurgedAlone(all, w, |gone|)
  {
    hide StorageKeys, Unnamed;
    SplitRows(all.files, gone);
    SameUnnamed(all, w, gone, drop);
  }

  lemma SameUnnamed(all: World, w: World, gone: set<Id>, drop: set<Key>)
    requires w.files == all.files - gone && w.objects == all.objects - drop && drop <= StorageKeys(all.files)
    requires forall i :: i in gone && i in all.files ==> all.files[i].key in drop
    ensures Unnamed(w) == Unnamed(all)
  {
    UnnamedStays(all.files, all.objects, gone, drop);
    hide StorageKeys;
  }

  // A purged row was deleted, and its object dropped first.
  lemma GoneWithKey(files: map<Id, Row>, picked: seq<Id>, tries: seq<Tried>, b: Backend, r: Repo)
    requires forall i :: 0 <= i < |picked| ==> picked[i] in files && !files[picked[i]].Live()
    requires Firmly(Records(files, picked), tries, b, r)
    ensures DropOf(Records(files, picked), tries) <= StorageKeys(files) && GoneOf(picked, tries) <= files.Keys
    ensures forall i :: i in GoneOf(picked, tries) ==>
      !files[i].Live() && files[i].key in DropOf(Records(files, picked), tries)
  {
    var rows := Records(files, picked);
    forall i | i in GoneOf(picked, tries)
      ensures i in files && !files[i].Live() && files[i].key in DropOf(rows, tries)
    {
      var n :| 0 <= n < |tries| && n < |picked| && tries[n].purged && picked[n] == i;
      assert FirmTry(rows[n], tries[n], b, r);
    }
    forall k | k in DropOf(rows, tries)
      ensures k in StorageKeys(files)
    {
      var n :| 0 <= n < |tries| && n < |rows| && tries[n].dropped && rows[n].key == k;
      assert files[picked[n]].key == k;
    }
  }

  lemma AlikeTotals(w0: World, w1: World, w: World, purged: nat)
    requires Alike(w0, w1) && PurgedAlone(w1, w, purged)
    ensures PurgedAlone(w0, w, purged)
  {
  }

  function ReclaimKeys(known: set<Key>, cutoff: Time, objects: seq<Listed>): set<Key> {
    set o | o in objects && Reclaimable(known, cutoff, o) :: o.key
  }

  lemma ReclaimSnoc(known: set<Key>, cutoff: Time, objects: seq<Listed>, n: nat)
    requires n < |objects|
    ensures ReclaimKeys(known, cutoff, objects[..n + 1])
         == ReclaimKeys(known, cutoff, objects[..n])
            + if Reclaimable(known, cutoff, objects[n]) then {objects[n].key} else {}
  {
    assert objects[..n + 1] == objects[..n] + [objects[n]];
  }

  // Of what was reclaimed, everything abandoned is gone.
  ghost predicate AllGone(all: World, w: World, keys: set<Key>) {
    forall k :: k in keys && Abandoned(all, k) ==> k !in w.objects
  }

  lemma StayGone(all: World, w: World, w': World, keys: set<Key>)
    requires Keeps(all, w) && Keeps(w, w') && AllGone(all, w, keys)
    ensures AllGone(all, w', keys)
  {
  }

  lemma NotYet(known: set<Key>, cutoff: Time, objects: seq<Listed>, n: nat)
    requires n < |objects| && forall i, j :: 0 <= i < j < |objects| ==> objects[i].key != objects[j].key
    ensures objects[n].key !in ReclaimKeys(known, cutoff, objects[..n])
  {
  }

  lemma GoneSnoc(all: World, w: World, drop: set<Key>, more: set<Key>)
    requires AllGone(all, w, drop) && more !! w.objects.Keys
    ensures AllGone(all, w, drop + more)
  {
  }

  // Reclaiming alone, `drop` is exactly what has been deleted.
  ghost predicate ReclaimedTo(all: World, w: World, drop: set<Key>) {
    w.files == all.files && w.keys == all.keys && w.objects == all.objects - drop
  }

  lemma ReclaimedNone(all: World, known: set<Key>, cutoff: Time, objects: seq<Listed>)
    ensures ReclaimedTo(all, all, {}) && AllGone(all, all, {}) && ReclaimKeys(known, cutoff, objects[..0]) == {}
  {
    assert all.objects - {} == all.objects;
  }

  lemma ReclaimedSnoc(all: World, w: World, w': World, drop: set<Key>, more: set<Key>)
    requires ReclaimedTo(all, w, drop)
    requires w'.files == w.files && w'.keys == w.keys && w'.objects == w.objects - more
    ensures ReclaimedTo(all, w', drop + more)
  {
  }

  lemma ReclaimPrefix(known: set<Key>, cutoff: Time, objects: seq<Listed>, n: nat)
    requires n <= |objects|
    ensures ReclaimKeys(known, cutoff, objects[..n]) <= ReclaimKeys(known, cutoff, objects)
  {
  }

  // What an orphan pass whose cutoff is `cutoff` may take.
  function Overdue(w: World, cutoff: Time): set<Key> {
    set k | k in Unnamed(w) && w.objects[k].modTime <= cutoff
  }

  // No leak: what was abandoned when the pass began, and old enough, is gone, if
  // deleting it does not fail.
  ghost predicate Swept(w0: World, w: World, cutoff: Time, b: Backend) {
    forall k :: Abandoned(w0, k) && k in w0.objects && w0.objects[k].modTime <= cutoff && b.Firm(k) ==> k !in w.objects
  }

  // Of these keys, those whose delete is firm were taken.
  ghost predicate FirmTaken(b: Backend, keys: set<Key>, drop: set<Key>) {
    forall k :: k in keys && b.Firm(k) ==> k in drop
  }

  lemma AllTaken(b: Backend, keys: set<Key>, drop: set<Key>)
    requires FirmTaken(b, keys, drop) && drop <= keys && b.reliable
    ensures drop == keys
  {
  }

  lemma TakenSnoc(b: Backend, keys: set<Key>, key: Key, due: bool, drop: set<Key>, removed: bool)
    requires FirmTaken(b, keys, drop) && (due && b.Firm(key) ==> removed)
    ensures FirmTaken(b, keys + (if due then {key} else {}), drop + if removed then {key} else {})
  {
  }

  // Alone: every orphan that is old enough is gone, if deleting it does not fail.
  ghost predicate OrphansFirm(w0: World, w: World, cutoff: Time, b: Backend) {
    forall k :: k in Overdue(w0, cutoff) && b.Firm(k) ==> k !in w.objects
  }

  lemma OrphansShrink(w0: World, w: World, drop: set<Key>)
    requires ReclaimedTo(w0, w, drop)
    ensures Shrunk(w0, w)
  {
  }

  lemma FirmOrphans(w0: World, w1: World, w: World, cutoff: Time, drop: set<Key>, b: Backend)
    requires ReclaimedTo(w0, w1, drop) && FirmTaken(b, Overdue(w0, cutoff), drop) && Shrunk(w0, w1)
    requires w.files == w1.files && w.objects == w1.objects
    ensures OrphansFirm(w0, w, cutoff, b) && Shrunk(w0, w)
  {
    hide Overdue;
  }

  // The purge phase leaves the unnamed objects as they were.
  lemma FirmBefore(w0: World, w1: World, w: World, cutoff: Time, b: Backend)
    requires Unnamed(w1) == Unnamed(w0) && Shrunk(w0, w1) && OrphansFirm(w1, w, cutoff, b)
    ensures OrphansFirm(w0, w, cutoff, b)
  {
    OverdueStays(w0, w1, cutoff);
    hide Overdue;
  }

  lemma ListedOrphans(w: World, cutoff: Time, order: seq<Key>)
    requires Enumerates(w.objects, order)
    ensures ReclaimKeys(StorageKeys(w.files), cutoff, Listing(w.objects, order)) == Overdue(w, cutoff)
  {
    var objects := Listing(w.objects, order);
    forall k | k in Overdue(w, cutoff)
      ensures k in ReclaimKeys(StorageKeys(w.files), cutoff, objects)
    {
      var i :| 0 <= i < |order| && order[i] == k;
      assert objects[i] in objects;
    }
  }

  // The keys were read in world `wk`, the objects listed in world `wl`.
  lemma NothingLeft(w0: World, wk: World, wl: World, w: World, cutoff: Time, order: seq<Key>,
                    drop: set<Key>, b: Backend)
    requires Keeps(w0, wk) && Keeps(wk, wl) && Keeps(wl, w) && Enumerates(wl.objects, order)
    requires FirmTaken(b, ReclaimKeys(StorageKeys(wk.files), cutoff, Listing(wl.objects, order)), drop)
    requires AllGone(wl, w, drop)
    ensures Swept(w0, w, cutoff, b)
  {
    var objects, known := Listing(wl.objects, order), StorageKeys(wk.files);
    forall k | Abandoned(w0, k) && k in w0.objects && w0.objects[k].modTime <= cutoff && k in wl.objects
      ensures k in ReclaimKeys(known, cutoff, objects)
    {
      assert Unreferenced(wk.files, k);
      var i :| 0 <= i < |order| && order[i] == k;
      assert objects[i] in objects && Reclaimable(known, cutoff, objects[i]);
    }
  }

  lemma SplitOrphans(w0: World, w: World, drop: set<Key>)
    requires ReclaimedTo(w0, w, drop) && drop <= Unnamed(w0)
    ensures |Unnamed(w0)| == |Unnamed(w)| + |drop|
  {
    assert Unnamed(w0) == Unnamed(w) + drop;
  }

  lemma Distinct(objects: map<Key, Object>, order: seq<Key>)
    requires Enumerates(objects, order)
    ensures forall i, j :: 0 <= i < j < |order| ==> Listing(objects, order)[i].key != Listing(objects, order)[j].key
  {
  }

  // A sweep that runs alone is accounted for: every row, unnamed object and
  // key that left is counted, and no live row is touched.
  ghost predicate Accounted(w0: World, w: World, s: Stats) {
    && |w0.files| == |w.files| + s.purged
    && |Unnamed(w0)| == |Unnamed(w)| + s.orphans
    && |w0.keys| == |w.keys| + s.expired
    && forall i :: IsLive(w0.files, i) ==> i in w.files && w.files[i] == w0.files[i]
  }

  // Exactly what a sweep that runs alone without a failure leaves.
  ghost predicate Collected(c: Config, w0: World, w: World, picked: seq<Id>, cutoff: Time, before: Time) {
    && OldestDeleted(w0.files, BatchLimit(c.batch), picked)
    && w.files == w0.files - Ids(picked)
    && w.objects == w0.objects - KeysOf(w0.files, picked) - Overdue(w0, cutoff)
    && w.keys == if c.ttl <= 0 then w0.keys else Unexpired(w0.keys, before)
  }

  lemma OverdueStays(w0: World, w: World, cutoff: Time)
    requires Unnamed(w) == Unnamed(w0) && forall k :: k in w.objects ==>
      k in w0.objects && w.objects[k] == w0.objects[k]
    ensures Overdue(w, cutoff) == Overdue(w0, cutoff)
  {
  }

  // Two worlds with the same tables.
  predicate Alike(w: World, w': World) {
    w'.files == w.files && w'.objects == w.objects && w'.keys == w.keys
  }

  lemma AccountPurge(w0: World, w1: World, w: World, purged: nat)
    requires Alike(w0, w1) && PurgedAlone(w1, w, purged)
    ensures Accounted(w0, w, Stats(purged, 0, 0)) && Unnamed(w) == Unnamed(w0) && Shrunk(w0, w)
  {
  }

  lemma AccountOrphans(w0: World, w: World, drop: set<Key>)
    requires ReclaimedTo(w0, w, drop) && drop <= Unnamed(w0)
    ensures Accounted(w0, w, Stats(0, |drop|, 0))
  {
    SplitOrphans(w0, w, drop);
  }

  function Plus(s: Stats, t: Stats): Stats {
    Stats(s.purged + t.purged, s.orphans + t.orphans, s.expired + t.expired)
  }

  lemma AccountBoth(w0: World, w1: World, w: World, s: Stats, t: Stats)
    requires Accounted(w0, w1, s) && Accounted(w1, w, t)
    ensures Accounted(w0, w, Plus(s, t))
  {
  }

  lemma AccountKeys(w0: World, w: World, expired: nat)
    requires w.files == w0.files && w.objects == w0.objects && |w0.keys| == |w.keys| + expired
    ensures Accounted(w0, w, Stats(0, 0, expired))
  {
  }

  lemma SweptAfter(w0: World, w1: World, w2: World, cutoff: Time, b: Backend)
    requires Swept(w0, w1, cutoff, b) && Keeps(w0, w1) && Keeps(w1, w2)
    ensures Swept(w0, w2, cutoff, b)
  {
  }

  lemma SweptBefore(w0: World, w1: World, w2: World, cutoff: Time, b: Backend)
    requires Keeps(w0, w1) && Swept(w1, w2, cutoff, b) && Keeps(w1, w2)
    ensures Swept(w0, w2, cutoff, b)
  {
  }

  ghost predicate NoneExpired(keys: map<string, KeyRow>, before: Time) {
    forall k :: k in keys ==> keys[k].createdAt >= before
  }

  lemma UnexpiredLeft(keys: map<string, KeyRow>, before: Time)
    ensures NoneExpired(Unexpired(keys, before), before)
  {
  }

  // The calls that a phase hangs on.
  predicate IsPhase(s: Sweep) {
    s.Starting? || s == Purging([]) || s.Enumerating? || s.Expiring?
  }

  ghost predicate FailedAt(c: Config, w: World, ls: seq<Label>, j: nat, p: Pid) {
    && j < |ls| && ls[j] == Sw(p, Failure)
    && var w' := Run(c, w, ls[..j]); p in w'.sweeps && IsPhase(w'.sweeps[p])
  }

  // At some step since `from`, such a call of p failed.
  ghost predicate PhaseFailed(c: Config, w: World, ls: seq<Label>, from: nat, p: Pid) {
    exists j :: from <= j && FailedAt(c, w, ls, j, p)
  }

  lemma FailedSooner(c: Config, w: World, ls: seq<Label>, from: nat, later: nat, p: Pid)
    requires from <= later
    ensures PhaseFailed(c, w, ls, later, p) ==> PhaseFailed(c, w, ls, from, p)
  {
    hide FailedAt;
  }

  // What the rest of a sweep alone leaves when nothing fails.
  ghost predicate ReclaimedExactly(c: Config, w0: World, w: World, cutoff: Time, before: Time) {
    && w.files == w0.files && w.objects == w0.objects - Overdue(w0, cutoff)
    && w.keys == if c.ttl <= 0 then w0.keys else Unexpired(w0.keys, before)
  }

  lemma ReclaimExactly(c: Config, w0: World, w1: World, w: World, cutoff: Time, before: Time)
    requires ReclaimedTo(w0, w1, Overdue(w0, cutoff)) && w.files == w1.files && w.objects == w1.objects
    requires w.keys == if c.ttl <= 0 then w1.keys else Unexpired(w1.keys, before)
    ensures ReclaimedExactly(c, w0, w, cutoff, before)
  {
    hide Overdue, Unexpired;
  }

  // What the purge phase alone leaves when nothing fails.
  ghost predicate PurgedExactly(c: Config, w0: World, w: World, picked: seq<Id>) {
    && OldestDeleted(w0.files, BatchLimit(c.batch), picked) && Unnamed(w) == Unnamed(w0)
    && w.files == w0.files - Ids(picked) && w.objects == w0.objects - KeysOf(w0.files, picked) && w.keys == w0.keys
  }

  lemma CollectExactly(c: Config, w0: World, w1: World, w: World, picked: seq<Id>, cutoff: Time, before: Time)
    requires PurgedExactly(c, w0, w1, picked) && ReclaimedExactly(c, w1, w, cutoff, before)
    ensures Collected(c, w0, w, picked, cutoff, before)
  {
    hide OldestDeleted, Unexpired;
    OverdueStays(w0, w1, cutoff);
    assert forall k :: k in w1.objects ==> k in w0.objects && w1.objects[k] == w0.objects[k];
  }
}
