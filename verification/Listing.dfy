/** Paged lists: rows ordered by creation time, newest first, cut into pages. */
module Listing {
  import opened Schema

  /** a comes before b in a list ordered by createdAt DESC; equal times fall back on the id. */
  predicate Before(at: map<Uuid, nat>, a: Uuid, b: Uuid)
    requires a in at && b in at
  {
    at[a] > at[b] || (at[a] == at[b] && a > b)
  }

  predicate IsNewest(at: map<Uuid, nat>, id: Uuid) {
    id in at && forall j | j in at && j != id :: Before(at, id, j)
  }

  lemma {:induction false} NewestExists(at: map<Uuid, nat>)
    requires at != map[]
    ensures exists id :: IsNewest(at, id)
    decreases |at|
  {
    var first :| first in at;
    var rest := at - {first};
    assert forall j :: j in at <==> j == first || j in rest;
    if rest == map[] {
      assert IsNewest(at, first);
    } else {
      NewestExists(rest);
      var best :| IsNewest(rest, best);
      assert IsNewest(at, if Before(at, first, best) then first else best);
    }
  }

  function Newest(at: map<Uuid, nat>): (id: Uuid)
    requires at != map[]
    ensures IsNewest(at, id)
  {
    NewestExists(at);
    var id :| id in at && IsNewest(at, id);
    id
  }

  /** ORDER BY createdAt DESC */
  function NewestFirst(at: map<Uuid, nat>): (ids: seq<Uuid>)
    ensures |ids| == |at|
    decreases |at|
  {
    if at == map[] then []
    else
      var id := Newest(at);
      var rest := at - {id};
      assert rest.Keys == at.Keys - {id};
      [id] + NewestFirst(rest)
  }

  lemma NewestFirstSplits(at: map<Uuid, nat>, first: Uuid)
    requires IsNewest(at, first)
    ensures (at - {first}).Keys == at.Keys - {first} && |at - {first}| == |at| - 1
    ensures NewestFirst(at) == [first] + NewestFirst(at - {first})
  {
    assert Newest(at) == first;
    assert (at - {first}).Keys == at.Keys - {first};
  }

  lemma {:induction false} NewestFirstMembers(at: map<Uuid, nat>, id: Uuid)
    ensures id in NewestFirst(at) <==> id in at
    decreases |at|
  {
    if at == map[] {
    } else {
      var first := Newest(at);
      var rest := at - {first};
      assert rest.Keys == at.Keys - {first};
      NewestFirstMembers(rest, id);
      assert id in NewestFirst(at) <==> id == first || id in NewestFirst(rest);
    }
  }

  /** Every row is newer than the rows after it, so none is listed twice. */
  lemma {:induction false} NewestFirstSorted(at: map<Uuid, nat>, i: nat, j: nat)
    requires i < j < |at|
    ensures NewestFirst(at)[i] in at && NewestFirst(at)[j] in at
    ensures Before(at, NewestFirst(at)[i], NewestFirst(at)[j])
    decreases |at|
  {
    hide NewestFirst;
    var first := Newest(at);
    var rest := at - {first};
    NewestFirstSplits(at, first);
    if i == 0 {
      NewestFirstMembers(rest, NewestFirst(rest)[j - 1]);
    } else {
      NewestFirstSorted(rest, i - 1, j - 1);
    }
  }

  // ----- pages -----

  function Min(a: nat, b: nat): (m: nat) {
    if a <= b then a else b
  }

  /** skip((page - 1) * limit).take(limit) */
  function Page<T>(rows: seq<T>, page: nat, limit: nat): (r: seq<T>)
    requires page >= 1
  {
    var skip := (page - 1) * limit;
    rows[Min(skip, |rows|)..Min(skip + limit, |rows|)]
  }

  /** Math.max(1, Math.ceil(total / limit)) */
  function TotalPages(total: nat, limit: nat): (pages: nat)
    requires limit >= 1
  {
    var ceiling := (total + limit - 1) / limit;
    if ceiling > 1 then ceiling else 1
  }

  function Pages<T>(rows: seq<T>, count: nat, limit: nat): (r: seq<T>) {
    if count == 0 then [] else Pages(rows, count - 1, limit) + Page(rows, count, limit)
  }

  lemma PageFollows<T>(rows: seq<T>, page: nat, limit: nat)
    requires page >= 1
    ensures rows[..Min((page - 1) * limit, |rows|)] + Page(rows, page, limit) == rows[..Min(page * limit, |rows|)]
  {
    assert page * limit == (page - 1) * limit + limit;
  }

  lemma {:induction false} PagesArePrefix<T>(rows: seq<T>, count: nat, limit: nat)
    ensures Pages(rows, count, limit) == rows[..Min(count * limit, |rows|)]
  {
    hide Page;
    if count == 0 {
    } else {
      PagesArePrefix(rows, count - 1, limit);
      PageFollows(rows, count, limit);
    }
  }

  /** The pages announced by totalPages, one after the other, are the whole list. */
  lemma {:induction false} PagesCoverList<T>(rows: seq<T>, limit: nat)
    requires limit >= 1
    ensures Pages(rows, TotalPages(|rows|, limit), limit) == rows
  {
    var pages := TotalPages(|rows|, limit);
    var n := |rows| + limit - 1;
    assert n == n / limit * limit + n % limit;
    assert pages * limit >= |rows| by {
      assert (n / limit) * limit > n - limit;
      assert pages >= n / limit;
      assert pages * limit >= (n / limit) * limit;
    }
    PagesArePrefix(rows, pages, limit);
  }

  /** A page of a list, with the count of all rows: the reply of a findAll. */
  datatype Listed<T> = Listed(data: seq<T>, total: nat, page: nat, limit: nat, totalPages: nat)

  lemma PageEntries<T>(rows: seq<T>, page: nat, limit: nat)
    requires page >= 1
    ensures var skip := (page - 1) * limit;
            && |Page(rows, page, limit)| == (if |rows| <= skip then 0 else Min(limit, |rows| - skip))
            && forall i :: 0 <= i < |Page(rows, page, limit)| ==> Page(rows, page, limit)[i] == rows[skip + i]
  {
  }

  /** The reply shows, in order, the rows of this page of the list of all rows, and counts all of them. */
  predicate ShowsPage<T>(r: Listed<T>, at: map<Uuid, nat>, page: nat, limit: nat, shows: (T, Uuid) -> bool)
    requires page >= 1 && limit >= 1
  {
    var ids, skip := NewestFirst(at), (page - 1) * limit;
    && r.page == page && r.limit == limit && r.total == |at| && r.totalPages == TotalPages(|at|, limit)
    && |r.data| == (if |ids| <= skip then 0 else Min(limit, |ids| - skip))
    && forall i :: 0 <= i < |r.data| ==> shows(r.data[i], ids[skip + i])
  }

  lemma PageOfMembers(at: map<Uuid, nat>, page: nat, limit: nat)
    requires page >= 1
    ensures forall id :: id in Page(NewestFirst(at), page, limit) ==> id in at
  {
    forall id | id in Page(NewestFirst(at), page, limit)
      ensures id in at
    {
      NewestFirstMembers(at, id);
    }
  }

  // ----- oldest first -----

  function Reverse<T>(s: seq<T>): (r: seq<T>)
    ensures |r| == |s|
  {
    seq(|s|, i requires 0 <= i < |s| => s[|s| - 1 - i])
  }

  /** ORDER BY createdAt ASC */
  function OldestFirst(at: map<Uuid, nat>): (ids: seq<Uuid>)
    ensures |ids| == |at|
  {
    Reverse(NewestFirst(at))
  }

  lemma OldestFirstMembers(at: map<Uuid, nat>, id: Uuid)
    ensures id in OldestFirst(at) <==> id in at
  {
    hide NewestFirst;
    NewestFirstMembers(at, id);
    var ids := NewestFirst(at);
    if id in ids {
      var i :| 0 <= i < |ids| && ids[i] == id;
      assert OldestFirst(at)[|ids| - 1 - i] == id;
    }
  }

  /** Each row is at least as old as the rows after it, and no row is listed twice. */
  lemma OldestFirstSorted(at: map<Uuid, nat>, i: nat, j: nat)
    requires i < j < |at|
    ensures OldestFirst(at)[i] in at && OldestFirst(at)[j] in at
    ensures at[OldestFirst(at)[i]] <= at[OldestFirst(at)[j]]
    ensures OldestFirst(at)[i] != OldestFirst(at)[j]
  {
    hide NewestFirst;
    NewestFirstSorted(at, |at| - 1 - j, |at| - 1 - i);
  }

  /** Taking out the last of a list leaves the list of the rest. */
  lemma {:induction false} NewestFirstWithoutLast(at: map<Uuid, nat>)
    requires at != map[]
    ensures var last := NewestFirst(at)[|at| - 1];
            last in at && NewestFirst(at - {last}) == NewestFirst(at)[..|at| - 1]
    decreases |at|
  {
    hide NewestFirst, IsNewest;
    var first := Newest(at);
    var rest := at - {first};
    NewestFirstSplits(at, first);
    if rest == map[] {
      NewestFirstOfNone(rest);
    } else {
      NewestFirstWithoutLast(rest);
      var last := NewestFirst(rest)[|rest| - 1];
      WithoutLastSplits(at, first, last);
      assert NewestFirst(at)[..|at| - 1] == [first] + NewestFirst(rest)[..|rest| - 1];
    }
  }

  lemma NewestFirstOfNone(at: map<Uuid, nat>)
    requires at == map[]
    ensures NewestFirst(at) == []
  {
  }

  lemma WithoutLastSplits(at: map<Uuid, nat>, first: Uuid, last: Uuid)
    requires IsNewest(at, first) && last in at && last != first
    ensures NewestFirst(at - {last}) == [first] + NewestFirst(at - {first} - {last})
  {
    var less := at - {last};
    assert less.Keys == at.Keys - {last};
    assert IsNewest(less, first);
    assert Newest(less) == first;
    assert less - {first} == at - {first} - {last};
  }

  /** Taking out the oldest row leaves the rest of the list. */
  lemma OldestFirstNext(at: map<Uuid, nat>)
    requires at != map[]
    ensures var first := OldestFirst(at)[0];
            first in at && OldestFirst(at - {first}) == OldestFirst(at)[1..]
  {
    hide NewestFirst;
    NewestFirstWithoutLast(at);
    var ids, first := NewestFirst(at), OldestFirst(at)[0];
    assert (at - {first}).Keys == at.Keys - {first};
    assert Reverse(ids[..|ids| - 1]) == Reverse(ids)[1..];
  }
}
