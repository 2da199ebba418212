/** The favourite-id list kept under its own local-storage key
    (src/lib/favorites.ts). Every write rebuilds the list through a `Set`,
    so it comes back deduplicated in first-insertion order. */
module Favorites {
  import opened Wrappers
  import opened Lists
  import opened Storage

  const Key: string := "vininote:favorites"

  /** `getFavoriteIds()`: `[]` for a missing or empty entry and for text
      that does not parse. A parsed value is returned without checking that
      it is an array; `None` stands for such a value (`null` or another
      non-array value), on which the callers' `includes` gives no list
      answer. */
  function ReadIds(raw: Stored<string>): (r: Option<seq<string>>)
    ensures raw.Absent? || raw.EmptyText? || raw.Unparsable? ==> r == Some([])
    ensures raw.ArrayOf? ==> r == Some(raw.items)
    ensures r.None? <==> raw.NonArray? || raw.JsonNull?
  {
    match raw
    case Absent => Some([])
    case EmptyText => Some([])
    case Unparsable => Some([])
    case JsonNull => None
    case NonArray => None
    case ArrayOf(xs) => Some(xs)
  }

  /** What `new Set(getFavoriteIds())` starts from: the read list, and the
      empty set for a stored `null`; `None` for another non-array value,
      which the model does not iterate. */
  function SetSeed(raw: Stored<string>): (r: Option<seq<string>>)
    ensures r.None? <==> raw.NonArray?
    ensures raw.JsonNull? ==> r == Some([])
    ensures ReadIds(raw).Some? ==> r == ReadIds(raw)
  {
    if raw.JsonNull? then Some([]) else ReadIds(raw)
  }

  /** `isFavorite(id)`: `getFavoriteIds().includes(id)`. */
  function IsFavorite(raw: Stored<string>, id: string): (r: Option<bool>)
    ensures r.None? <==> raw.NonArray? || raw.JsonNull?
    ensures raw.ArrayOf? ==> r == Some(id in raw.items)
    ensures raw.Absent? || raw.EmptyText? || raw.Unparsable? ==> r == Some(false)
  {
    match ReadIds(raw)
    case Some(ids) => Some(id in ids)
    case None => None
  }

  /** The list `setFavorite(id, v)` writes: `Array.from` of the set of the
      old ids after `add(id)` or `delete(id)`. */
  function SetIds(ids: seq<string>, id: string, v: bool): seq<string>
  {
    if v then AppendIfAbsent(Dedup(ids), id) else RemoveAll(Dedup(ids), id)
  }

  /** After `setFavorite(id, v)`, `id` is a favourite exactly when `v`, and
      any other id `x` is one exactly when it was before. */
  lemma SetIdsMembership(ids: seq<string>, id: string, v: bool, x: string)
    ensures (id in SetIds(ids, id, v)) == v
    ensures x != id ==> (x in SetIds(ids, id, v) <==> x in ids)
  {
    DedupContains(ids, x);
    var d := Dedup(ids);
    if x != id && x in d && !v {
      var k :| 0 <= k < |d| && d[k] == x;
      assert d[k] in RemoveAll(d, id);
    }
  }

  /** The written list never holds an id twice. */
  lemma SetIdsNoDup(ids: seq<string>, id: string, v: bool)
    ensures NoDup(SetIds(ids, id, v))
  {
    DedupNoDup(ids);
    if !v {
      RemoveAllNoDup(Dedup(ids), id);
    }
  }

  /** The written list keeps the old ids in first-occurrence order, and a
      newly added id goes at the end. */
  lemma SetIdsOrder(ids: seq<string>, id: string, v: bool)
    ensures v && id !in ids ==> SetIds(ids, id, v) == Dedup(ids) + [id]
    ensures v && id in ids ==> SetIds(ids, id, v) == Dedup(ids)
    ensures !v ==> IsSubsequence(SetIds(ids, id, v), Dedup(ids))
  {
    DedupContains(ids, id);
    if !v {
      RemoveAllIsSubsequence(Dedup(ids), id);
    }
  }

  /** Setting the same value twice writes the same list as setting it once. */
  lemma SetIdsIdempotent(ids: seq<string>, id: string, v: bool)
    ensures SetIds(SetIds(ids, id, v), id, v) == SetIds(ids, id, v)
  {
    var once := SetIds(ids, id, v);
    SetIdsNoDup(ids, id, v);
    DedupOfNoDup(once);
    SetIdsMembership(ids, id, v, id);
  }

  /** Toggling twice gives every id back its original membership. */
  lemma ToggleTwiceMembership(ids: seq<string>, id: string, x: string)
    ensures var once := SetIds(ids, id, id !in ids);
      var twice := SetIds(once, id, id !in once);
      x in twice <==> x in ids
  {
    var once := SetIds(ids, id, id !in ids);
    SetIdsMembership(ids, id, id !in ids, x);
    SetIdsMembership(once, id, id !in once, x);
  }

  class FavoriteStore {
    var slot: Stored<string>

    constructor (slot: Stored<string>)
      ensures this.slot == slot
    {
      this.slot := slot;
    }

    /** `setFavorite(id, v)`. `ok` is false when the stored value is neither
        a list nor `null`; the model then writes nothing. */
    method SetFavorite(id: string, v: bool) returns (ok: bool)
      modifies this
      ensures ok <==> SetSeed(old(slot)).Some?
      ensures ok ==> slot == ArrayOf(SetIds(SetSeed(old(slot)).value, id, v))
      ensures ok ==> IsFavorite(slot, id) == Some(v)
      ensures !ok ==> slot == old(slot)
    {
      var read := SetSeed(slot);
      if read.None? {
        return false;
      }
      var ids := read.value;
      // new Set(ids): insert each id unless already present
      var acc: seq<string> := [];
      var k := 0;
      while k < |ids|
        invariant 0 <= k <= |ids|
        invariant acc == Dedup(ids[..k])
      {
        assert ids[..k + 1][..k] == ids[..k];
        if ids[k] !in acc {
          acc := acc + [ids[k]];
        }
        k := k + 1;
      }
      assert ids[..k] == ids;
      if v {
        if id !in acc { acc := acc + [id]; }
      } else {
        acc := RemoveAll(acc, id);
      }
      slot := ArrayOf(acc);
      SetIdsMembership(ids, id, v, id);
      return true;
    }

    /** `toggleFavorite(id)`: `setFavorite(id, !isFavorite(id))`. `ok` is
        false when `isFavorite` gives no list answer; nothing is written. */
    method Toggle(id: string) returns (ok: bool)
      modifies this
      ensures ok <==> IsFavorite(old(slot), id).Some?
      ensures ok ==> slot == ArrayOf(SetIds(ReadIds(old(slot)).value, id, !IsFavorite(old(slot), id).value))
      ensures ok ==> IsFavorite(slot, id) == Some(!IsFavorite(old(slot), id).value)
      ensures ok ==> forall x :: x != id ==> (x in slot.items <==> x in ReadIds(old(slot)).value)
      ensures !ok ==> slot == old(slot)
    {
      var cur := IsFavorite(slot, id);
      if cur.None? {
        return false;
      }
      ghost var ids := ReadIds(slot).value;
      ok := SetFavorite(id, !cur.value);
      forall x | x != id
        ensures x in slot.items <==> x in ids
      {
        SetIdsMembership(ids, id, !cur.value, x);
      }
    }
  }
}
