/**
 * The three updaters the instrument mutations apply to the cached instrument
 * list after the backend confirms a create, an update or a delete. Items are
 * identified by `id`.
 */
module InstrumentCache {
  import opened Types

  /** The previous cache entry: a list, or anything else (nothing cached yet). */
  datatype CacheValue = Cached(items: seq<Instrument>) | NotAList

  /** The list an updater starts from: the cached list, or the empty list when nothing usable is cached. */
  function CachedList(prev: CacheValue): seq<Instrument> {
    match prev
    case Cached(items) => items
    case NotAList => []
  }

  predicate HasId(list: seq<Instrument>, id: int) {
    exists i :: 0 <= i < |list| && list[i].id == id
  }

  /** Create: keep the list when the id is already there, else append the new item at the end. */
  function AppendUnlessPresent(list: seq<Instrument>, created: Instrument): (r: seq<Instrument>)
    ensures HasId(r, created.id)
    ensures HasId(list, created.id) ==> r == list
    ensures !HasId(list, created.id) ==> |r| == |list| + 1 && r[..|list|] == list && r[|list|] == created
  {
    if HasId(list, created.id) then list
    else
      var r := list + [created];
      assert r[|list|].id == created.id;
      r
  }

  /** Update: every item carrying the updated id is replaced, every other one is kept. */
  function ReplaceById(list: seq<Instrument>, updated: Instrument): (r: seq<Instrument>)
    ensures |r| == |list|
    ensures forall i :: 0 <= i < |list| ==> r[i] == if list[i].id == updated.id then updated else list[i]
  {
    if list == [] then []
    else [if list[0].id == updated.id then updated else list[0]] + ReplaceById(list[1..], updated)
  }

  /** Delete: keep the items whose id differs. */
  function RemoveById(list: seq<Instrument>, id: int): (r: seq<Instrument>)
    ensures |r| <= |list|
    ensures forall x :: x in r <==> x in list && x.id != id
  {
    if list == [] then []
    else (if list[0].id != id then [list[0]] else []) + RemoveById(list[1..], id)
  }

  // ---------------------------------------------------------------------------
  // The updaters as the cache applies them
  // ---------------------------------------------------------------------------

  function OnCreated(prev: CacheValue, created: Instrument): (r: seq<Instrument>)
    ensures prev.NotAList? ==> r == [created]
  {
    AppendUnlessPresent(CachedList(prev), created)
  }

  function OnUpdated(prev: CacheValue, updated: Instrument): (r: seq<Instrument>)
    ensures prev.NotAList? ==> r == []
  {
    ReplaceById(CachedList(prev), updated)
  }

  function OnDeleted(prev: CacheValue, id: int): (r: seq<Instrument>)
    ensures prev.NotAList? ==> r == []
  {
    RemoveById(CachedList(prev), id)
  }

  // ---------------------------------------------------------------------------
  // Properties
  // ---------------------------------------------------------------------------

  /** Applying create twice with the same item is applying it once. */
  lemma CreateIdempotent(list: seq<Instrument>, created: Instrument)
    ensures AppendUnlessPresent(AppendUnlessPresent(list, created), created) == AppendUnlessPresent(list, created)
  {
  }

  /** Update keeps every id where it was, so the set of ids and their order do not change. */
  lemma ReplaceKeepsIds(list: seq<Instrument>, updated: Instrument)
    ensures forall i :: 0 <= i < |list| ==> ReplaceById(list, updated)[i].id == list[i].id
  {
  }

  /** Updating twice with the same item is updating once. */
  lemma UpdateIdempotent(list: seq<Instrument>, updated: Instrument)
    ensures ReplaceById(ReplaceById(list, updated), updated) == ReplaceById(list, updated)
  {
    var once := ReplaceById(list, updated);
    var twice := ReplaceById(once, updated);
    assert forall i :: 0 <= i < |list| ==> twice[i] == once[i];
  }

  /** Updating an id that is not cached leaves the list as it was. */
  lemma UpdateAbsentIsIdentity(list: seq<Instrument>, updated: Instrument)
    requires !HasId(list, updated.id)
    ensures ReplaceById(list, updated) == list
  {
    var r := ReplaceById(list, updated);
    forall i | 0 <= i < |list|
      ensures r[i] == list[i]
    {
      assert list[i].id != updated.id;
    }
  }

  /** After delete no item carries the deleted id. */
  lemma RemoveLeavesNoId(list: seq<Instrument>, id: int)
    ensures !HasId(RemoveById(list, id), id)
  {
    var r := RemoveById(list, id);
    assert forall i :: 0 <= i < |r| ==> r[i] in r;
  }

  /** Delete distributes over concatenation: the survivors keep their relative order. */
  lemma {:induction false} RemoveAppend(a: seq<Instrument>, b: seq<Instrument>, id: int)
    ensures RemoveById(a + b, id) == RemoveById(a, id) + RemoveById(b, id)
  {
    if a == [] {
      assert a + b == b;
    } else {
      assert (a + b)[0] == a[0];
      assert (a + b)[1..] == a[1..] + b;
      RemoveAppend(a[1..], b, id);
    }
  }

  /** Deleting an id that is not cached leaves the list as it was. */
  lemma {:induction false} RemoveAbsentIsIdentity(list: seq<Instrument>, id: int)
    requires !HasId(list, id)
    ensures RemoveById(list, id) == list
  {
    if list != [] {
      var tail := list[1..];
      assert list[0].id != id;
      assert !HasId(tail, id) by {
        forall i | 0 <= i < |tail|
          ensures tail[i].id != id
        {
          assert tail[i] == list[i + 1];
        }
      }
      RemoveAbsentIsIdentity(tail, id);
      assert RemoveById(list, id) == [list[0]] + RemoveById(tail, id);
      assert list == [list[0]] + tail;
    }
  }

  /** Creating a new item and then deleting its id gives back the original list. */
  lemma CreateThenDelete(list: seq<Instrument>, created: Instrument)
    requires !HasId(list, created.id)
    ensures RemoveById(AppendUnlessPresent(list, created), created.id) == list
  {
    RemoveAppend(list, [created], created.id);
    RemoveAbsentIsIdentity(list, created.id);
    assert RemoveById([created], created.id) == [];
  }
}
