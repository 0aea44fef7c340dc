/** Keyset pagination: one page, and a whole walk over pages while the table
    changes between them. */
module Paging {
  import opened Types

  // A row as the listing sees it; everything a filter can ask about is in
  // `attrs`, and the filter itself is any predicate.
  datatype Entry<A> = Entry(attrs: A, deletedAt: Option<Time>)
  type Table<A> = map<Id, Entry<A>>

  const DEFAULT_LIMIT := 50
  const MAX_LIMIT := 500

  // ---- limits ------------------------------------------------------------

  // The page size announced in the response.
  function ClampLimit(limit: int): int {
    if limit <= 0 then DEFAULT_LIMIT else if limit > MAX_LIMIT then MAX_LIMIT else limit
  }

  // The page size the query is given: two adjustments, one after the other.
  method QueryLimit(requested: int) returns (limit: int)
    ensures limit == ClampLimit(requested) && (1 <= requested <= 500 ==> limit == requested)
    ensures (requested <= 0 ==> limit == 50) && (requested > 500 ==> limit == 500)
  {
    limit := requested;
    if limit <= 0 {
      limit := DEFAULT_LIMIT;
    }
    if limit > MAX_LIMIT {
      limit := MAX_LIMIT;
    }
  }

  // ---- one page ----------------------------------------------------------

  predicate Shown<A>(t: Table<A>, want: A -> bool, id: Id) {
    id in t && t[id].deletedAt.None? && want(t[id].attrs)
  }

  predicate Under(cursor: Option<Id>, id: Id) {
    cursor.None? || id < cursor.value
  }

  predicate Descending(ids: seq<Id>) {
    forall i, j :: 0 <= i < j < |ids| ==> ids[i] > ids[j]
  }

  // The newest `limit` matching rows older than the cursor, newest first.
  ghost predicate IsPage<A(!new)>(t: Table<A>, want: A -> bool, cursor: Option<Id>, limit: int, page: seq<Id>) {
    && |page| <= limit && Descending(page)
    && (forall i :: 0 <= i < |page| ==> Shown(t, want, page[i]) && Under(cursor, page[i]))
    && (forall id: Id :: Shown(t, want, id) && Under(cursor, id) && id !in page ==>
          |page| == limit && forall i :: 0 <= i < |page| ==> page[i] > id)
  }

  method Newest(ids: set<Id>) returns (newest: Id)
    requires ids != {}
    ensures newest in ids && forall i :: i in ids ==> i <= newest
  {
    newest :| newest in ids;
    var rest := ids - {newest};
    while rest != {}
      invariant rest <= ids && newest in ids
      invariant forall i :: i in ids && i !in rest ==> i <= newest
    {
      var i :| i in rest;
      if i > newest {
        newest := i;
      }
      rest := rest - {i};
    }
  }

  // where deleted_at is null and ... and id < cursor order by id desc limit n
  method List<A(!new)>(t: Table<A>, want: A -> bool, cursor: Option<Id>, requested: int) returns (page: seq<Id>)
    ensures IsPage(t, want, cursor, ClampLimit(requested), page)
    ensures forall id :: id in page ==>
      && id in t && t[id].deletedAt.None? && want(t[id].attrs)
      && (cursor.Some? ==> id < cursor.value)
    ensures forall id: Id :: id in t && t[id].deletedAt.None? && want(t[id].attrs) && id !in page ==>
      || (cursor.Some? && id >= cursor.value)
      || (|page| == ClampLimit(requested) && forall i :: 0 <= i < |page| ==> page[i] > id)
  {
    var limit := QueryLimit(requested);
    var rest := set id | id in t && Shown(t, want, id) && Under(cursor, id);
    page := [];
    while rest != {} && |page| < limit
      invariant |page| <= limit && Descending(page)
      invariant forall i :: 0 <= i < |page| ==> Shown(t, want, page[i]) && Under(cursor, page[i])
      invariant forall id :: id in rest ==> Shown(t, want, id) && Under(cursor, id) && id !in page
      invariant forall id: Id :: Shown(t, want, id) && Under(cursor, id) ==> id in rest || id in page
      invariant forall i, id :: 0 <= i < |page| && id in rest ==> page[i] > id
    {
      var next := Newest(rest);
      page := page + [next];
      rest := rest - {next};
    }
  }

  // The handler: the response's limit is the one the query ran with, so a
  // missing cursor means that nothing older is left.
  method ListPage<A(!new)>(t: Table<A>, want: A -> bool, cursor: Option<Id>, requested: int)
    returns (page: seq<Id>, limit: int, next: Option<Id>)
    ensures limit == ClampLimit(requested) && IsPage(t, want, cursor, limit, page)
    ensures (requested <= 0 ==> limit == 50) && (requested > 500 ==> limit == 500)
    ensures forall id :: id in page ==>
      && id in t && t[id].deletedAt.None? && want(t[id].attrs)
      && (cursor.Some? ==> id < cursor.value) && (next.Some? ==> next.value <= id)
    ensures forall id: Id :: id in t && t[id].deletedAt.None? && want(t[id].attrs) && id !in page ==>
      (cursor.Some? && id >= cursor.value) || (next.Some? && id < next.value)
    ensures next.Some? <==> |page| == limit
    ensures next.Some? ==> page != [] && next.value == page[|page| - 1]
  {
    limit := ClampLimit(requested);
    page := List(t, want, cursor, limit);
    next := None;
    if |page| == limit {
      next := Some(page[|page| - 1]);
    }
  }

  // A page is determined by the table, the filter, the cursor and the limit.
  lemma PageUnique<A(!new)>(t: Table<A>, want: A -> bool, cursor: Option<Id>, limit: int, p: seq<Id>, q: seq<Id>)
    requires IsPage(t, want, cursor, limit, p) && IsPage(t, want, cursor, limit, q)
    ensures p == q
  {
    SameStart(t, want, cursor, limit, p, q, if |p| < |q| then |p| else |q|);
    NoLonger(t, want, cursor, limit, p, q);
    NoLonger(t, want, cursor, limit, q, p);
  }

  lemma NoLonger<A(!new)>(t: Table<A>, want: A -> bool, cursor: Option<Id>, limit: int, p: seq<Id>, q: seq<Id>)
    requires IsPage(t, want, cursor, limit, p) && IsPage(t, want, cursor, limit, q)
    requires forall i :: 0 <= i < |p| && i < |q| ==> p[i] == q[i]
    ensures |q| <= |p|
  {
    if q != [] && q[|q| - 1] in p {
      var i :| 0 <= i < |p| && p[i] == q[|q| - 1];
      assert i < |q| ==> i == |q| - 1;
    }
  }

  lemma SameStart<A(!new)>(t: Table<A>, want: A -> bool, cursor: Option<Id>, limit: int, p: seq<Id>, q: seq<Id>, n: nat)
    requires IsPage(t, want, cursor, limit, p) && IsPage(t, want, cursor, limit, q) && n <= |p| && n <= |q|
    ensures forall i :: 0 <= i < n ==> p[i] == q[i]
  {
    hide IsPage;
    for m := 0 to n
      invariant forall i :: 0 <= i < m ==> p[i] == q[i]
    {
      NotAbove(t, want, cursor, limit, p, q, m);
      NotAbove(t, want, cursor, limit, q, p, m);
    }
  }

  lemma NotAbove<A(!new)>(t: Table<A>, want: A -> bool, cursor: Option<Id>, limit: int, p: seq<Id>, q: seq<Id>, n: nat)
    requires IsPage(t, want, cursor, limit, p) && IsPage(t, want, cursor, limit, q) && n < |p| && n < |q|
    requires forall i :: 0 <= i < n ==> p[i] == q[i]
    ensures p[n] <= q[n]
  {
    if p[n] in q {
      var j :| 0 <= j < |q| && q[j] == p[n];
      assert j >= n;
    }
  }

  // ---- walks -------------------------------------------------------------

  // The pages of a walk so far, the latest outermost.
  datatype Trail = Start | Page(before: Trail, ids: seq<Id>) {
    function Count(): nat {
      if Start? then 0 else before.Count() + 1
    }

    function All(): seq<Id> {
      if Start? then [] else before.All() + ids
    }

    // The last id returned: the cursor of the page that comes next.
    function Cursor(): Option<Id> {
      if Start? || ids == [] then None else Some(ids[|ids| - 1])
    }

    predicate Full(limit: int) {
      Page? ==> |ids| == limit
    }

    // Which page had to show an id: the first that reached down to it.
    function PageOf(id: Id): nat {
      if Start? || before.Start? then 0
      else if Under(before.Cursor(), id) then before.Count()
      else before.PageOf(id)
    }
  }

  // Each page was read from the table as it then was, with the cursor of the
  // page before, which was full.
  ghost predicate Walked<A(!new)>(at: nat -> Table<A>, want: A -> bool, limit: int, w: Trail) {
    w.Page? ==>
      && Walked(at, want, limit, w.before) && w.before.Full(limit) && limit > 0
      && IsPage(at(w.before.Count()), want, w.before.Cursor(), limit, w.ids)
  }

  lemma PageUnder<A(!new)>(t: Table<A>, want: A -> bool, cursor: Option<Id>, limit: int, ids: seq<Id>, w: Trail)
    requires IsPage(t, want, cursor, limit, ids)
    ensures Descending(ids) && forall id :: id in ids ==> Under(cursor, id) && !Under(Page(w, ids).Cursor(), id)
  {
  }

  lemma Append(a: seq<Id>, b: seq<Id>, low: Option<Id>)
    requires Descending(a) && Descending(b)
    requires forall id :: id in a ==> !Under(low, id)
    requires forall id :: id in b ==> Under(low, id)
    ensures Descending(a + b)
  {
    forall i, j | 0 <= i < j < |a + b|
      ensures (a + b)[i] > (a + b)[j]
    {
      if i < |a| <= j {
        assert a[i] in a && b[j - |a|] in b;
      }
    }
  }

  // Whatever happens to the table, the walk goes strictly downwards, so no id
  // comes twice.
  lemma {:induction false} WalkDescends<A(!new)>(at: nat -> Table<A>, want: A -> bool, limit: int, w: Trail)
    requires Walked(at, want, limit, w)
    ensures Descending(w.All()) && (w.Full(limit) ==> forall id :: id in w.All() ==> !Under(w.Cursor(), id))
  {
    if w.Start? {
    } else {
      WalkDescends(at, want, limit, w.before);
      PageUnder(at(w.before.Count()), want, w.before.Cursor(), limit, w.ids, w.before);
      hide IsPage, Descending;
      Append(w.before.All(), w.ids, w.before.Cursor());
    }
  }

  // Every page but the last is full, so the total fixes the number of pages.
  lemma {:induction false} PageCount<A(!new)>(at: nat -> Table<A>, want: A -> bool, limit: int, w: Trail)
    requires Walked(at, want, limit, w) && w.Page?
    ensures |w.All()| == (w.Count() - 1) * limit + |w.ids|
  {
    hide IsPage;
    if w.before.Start? {
    } else {
      PageCount(at, want, limit, w.before);
      assert (w.Count() - 1) * limit == (w.before.Count() - 1) * limit + limit;
    }
  }

  // An id the walk has gone past was returned exactly if it matched in the
  // table its page was read from.
  lemma {:induction false} WalkExact<A(!new)>(at: nat -> Table<A>, want: A -> bool, limit: int, w: Trail, id: Id)
    requires Walked(at, want, limit, w) && w.Page?
    requires |w.ids| < limit || !Under(w.Cursor(), id)
    ensures w.PageOf(id) < w.Count()
    ensures var t := at(w.PageOf(id));
      id in w.All() <==> id in t && t[id].deletedAt.None? && want(t[id].attrs)
  {
    WalkDescends(at, want, limit, w.before);
    var t, cursor := at(w.before.Count()), w.before.Cursor();
    if w.before.Start? || Under(cursor, id) {
      PageExact(t, want, cursor, limit, w.ids, id);
      assert id !in w.before.All();
    } else {
      WalkExact(at, want, limit, w.before, id);
    }
  }

  lemma PageExact<A(!new)>(t: Table<A>, want: A -> bool, cursor: Option<Id>, limit: int, ids: seq<Id>, id: Id)
    requires IsPage(t, want, cursor, limit, ids) && Under(cursor, id)
    requires |ids| < limit || (ids != [] && ids[|ids| - 1] <= id)
    ensures id in ids <==> Shown(t, want, id)
  {
  }

  // What a walk that has come to its end has returned.
  lemma Returned<A(!new)>(at: nat -> Table<A>, want: A -> bool, limit: int, w: Trail)
    requires Walked(at, want, limit, w) && w.Page? && |w.ids| < limit
    ensures forall id :: w.PageOf(id) < w.Count() && (id in w.All() <==> Shown(at(w.PageOf(id)), want, id))
    ensures forall id :: id in w.All() ==>
      exists i :: 0 <= i < w.Count() && id in at(i) && at(i)[id].deletedAt.None? && want(at(i)[id].attrs)
    ensures forall id: Id ::
      (forall i :: 0 <= i < w.Count() ==> id in at(i) && at(i)[id].deletedAt.None? && want(at(i)[id].attrs)) ==>
        id in w.All()
    ensures (forall i :: 0 <= i < w.Count() ==> at(i) == at(0)) ==>
      forall id: Id :: id in w.All() <==> id in at(0) && at(0)[id].deletedAt.None? && want(at(0)[id].attrs)
  {
    hide Walked, Trail.PageOf, Trail.All, Trail.Count;
    forall id: Id
      ensures w.PageOf(id) < w.Count() && (id in w.All() <==> Shown(at(w.PageOf(id)), want, id))
    {
      WalkExact(at, want, limit, w, id);
    }
  }

  // A client that follows next_cursor until there is none. `at(i)` is the table
  // when page i is read; it may be different every time. The walk never repeats
  // an id and returns each one exactly if it matched when its page was read: so
  // everything that matched throughout, and over a table that stands still
  // exactly the matching rows.
  method Walk<A(!new)>(at: nat -> Table<A>, want: A -> bool, requested: int)
    returns (ids: seq<Id>, count: nat, ghost w: Trail)
    ensures Walked(at, want, ClampLimit(requested), w) && ids == w.All() && count == w.Count()
    ensures Descending(ids) && (count - 1) * ClampLimit(requested) <= |ids| < count * ClampLimit(requested)
    ensures forall id :: w.PageOf(id) < count && (id in ids <==> Shown(at(w.PageOf(id)), want, id))
    ensures forall id :: id in ids ==>
      exists i :: 0 <= i < count && id in at(i) && at(i)[id].deletedAt.None? && want(at(i)[id].attrs)
    ensures forall id: Id ::
      (forall i :: 0 <= i < count ==> id in at(i) && at(i)[id].deletedAt.None? && want(at(i)[id].attrs)) ==> id in ids
    ensures (forall i :: 0 <= i < count ==> at(i) == at(0)) ==>
      forall id: Id :: id in ids <==> id in at(0) && at(0)[id].deletedAt.None? && want(at(0)[id].attrs)
  {
    hide IsPage, Descending, Shown;
    var cursor: Option<Id> := None;
    var more := true;
    ids, count, w := [], 0, Start;
    ghost var size := ClampLimit(requested);
    while more
      invariant Walked(at, want, size, w) && ids == w.All() && count == w.Count()
      invariant more ==> cursor == w.Cursor() && w.Full(size) && (cursor.None? ==> w.Start?)
      invariant !more ==> w.Page? && |w.ids| < size
      decreases more, if cursor.None? then 1 else 0, if cursor.Some? then cursor.value else 0
    {
      var page, limit, next := ListPage(at(count), want, cursor, requested);
      w := Page(w, page);
      ids := ids + page;
      count := count + 1;
      more := next.Some?;
      cursor := next;
    }
    WalkDescends(at, want, size, w);
    PageCount(at, want, size, w);
    Returned(at, want, size, w);
    hide *;
    assert count * size == (count - 1) * size + size;
  }
}
