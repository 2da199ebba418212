/** The text search of the library page (src/app/library/page.tsx) and the
    favourites page (src/app/favorites/page.tsx), and the favourites page's
    own reading of the favourite ids. */
module Search {
  import opened Wrappers
  import opened Lists
  import opened Text
  import opened Storage
  import Favorites

  /** The fields searched, in order, joined by single spaces and
      lower-cased; a null comment counts as "". */
  function Haystack(t: Tasting): string
  {
    Lower(Join([
      t.wine.name, t.wine.year, ColorText(t.wine.color), t.wine.region, t.wine.appellation,
      Join(t.wine.grapes, " "), Join(t.aromas, " "), t.conclusion.comment.GetOr("")], " "))
  }

  /** The query, trimmed and lower-cased. */
  function Needle(query: string): (q: string)
    ensures q == [] <==> IsBlank(query)
  {
    Lower(Trim(query))
  }

  predicate Matches(t: Tasting, query: string)
  {
    Contains(Haystack(t), Needle(query))
  }

  /** `filtered`: every item for a blank query, else the matching ones. */
  function Filtered(items: seq<Tasting>, query: string): seq<Tasting>
  {
    if Needle(query) == [] then items else Filter(items, (t: Tasting) => Matches(t, query))
  }

  /** The filtered list is the items for a blank query; it is always a
      subsequence of the items and keeps exactly those that match. */
  lemma FilteredSpec(items: seq<Tasting>, query: string)
    ensures IsBlank(query) ==> Filtered(items, query) == items
    ensures IsSubsequence(Filtered(items, query), items)
    ensures forall k :: 0 <= k < |Filtered(items, query)| ==>
      Filtered(items, query)[k] in items && Matches(Filtered(items, query)[k], query)
    ensures forall k :: 0 <= k < |items| && Matches(items[k], query) ==> items[k] in Filtered(items, query)
    ensures forall t :: multiset(Filtered(items, query))[t] == if Matches(t, query) then multiset(items)[t] else 0
  {
    if Needle(query) == [] {
      PrefixIsSubsequence(items, items);
      forall k | 0 <= k < |items| ensures Matches(items[k], query) {
        assert OccursAt(Haystack(items[k]), [], 0);
      }
    } else {
      FilterIsSubsequence(items, (t: Tasting) => Matches(t, query));
      FilterMultiset(items, (t: Tasting) => Matches(t, query));
    }
  }

  /** Lower-casing works character by character, so it distributes over
      concatenation. */
  lemma LowerAppend(a: string, b: string)
    ensures Lower(a + b) == Lower(a) + Lower(b)
  {
    var l, la, lb := Lower(a + b), Lower(a), Lower(b);
    forall k | 0 <= k < |a + b| ensures l[k] == (la + lb)[k] {
      if k < |a| {
        assert (a + b)[k] == a[k] && (la + lb)[k] == la[k];
      } else {
        assert (a + b)[k] == b[k - |a|] && (la + lb)[k] == lb[k - |a|];
      }
    }
    assert l == la + lb;
  }

  /** The fields are joined before searching, so a query can run across
      two of them: a name followed by a space and the year matches. */
  lemma NameAndYearMatch(t: Tasting, query: string)
    requires query == t.wine.name + " " + t.wine.year
    requires Trim(query) == query
    ensures Matches(t, query)
  {
    var rest := [ColorText(t.wine.color), t.wine.region, t.wine.appellation,
      Join(t.wine.grapes, " "), Join(t.aromas, " "), t.conclusion.comment.GetOr("")];
    var parts := [t.wine.name, t.wine.year, ColorText(t.wine.color), t.wine.region, t.wine.appellation,
      Join(t.wine.grapes, " "), Join(t.aromas, " "), t.conclusion.comment.GetOr("")];
    assert parts[1..] == [t.wine.year] + rest;
    assert parts[1..][1..] == rest;
    var joined := Join(parts, " ");
    assert Join(parts[1..], " ") == t.wine.year + " " + Join(rest, " ");
    assert joined == t.wine.name + " " + (t.wine.year + " " + Join(rest, " "));
    assert joined == query + (" " + Join(rest, " "));
    LowerAppend(query, " " + Join(rest, " "));
    assert Haystack(t) == Lower(joined);
    assert OccursAt(Haystack(t), Lower(query), 0);
  }

  /** "Margaux 2015" is found in a tasting of Margaux 2015 ... */
  lemma CrossFieldExample(t: Tasting)
    requires t.wine.name == "Margaux" && t.wine.year == "2015"
    ensures Matches(t, "Margaux 2015")
  {
    TrimNoSurroundingSpace("Margaux 2015");
    NameAndYearMatch(t, "Margaux 2015");
  }

  /** ... although the query is longer than each of the two fields it
      spans, so neither field alone contains it. */
  lemma CrossFieldExampleSpansFields(t: Tasting)
    requires t.wine.name == "Margaux" && t.wine.year == "2015"
    ensures !Contains(Lower(t.wine.name), Needle("Margaux 2015"))
    ensures !Contains(Lower(t.wine.year), Needle("Margaux 2015"))
  {
    TrimNoSurroundingSpace("Margaux 2015");
    assert |Needle("Margaux 2015")| == 12;
  }

  /** Tannins are shown only when truthy: null and 0 are both hidden. */
  function ShowsTannins(t: Tasting): (b: bool)
    ensures t.structure.tannins.None? ==> !b
    ensures t.structure.tannins == Some(0) ==> !b
    ensures t.structure.tannins.Some? && t.structure.tannins.value != 0 ==> b
  {
    t.structure.tannins.Some? && t.structure.tannins.value != 0
  }

  /** The library page: the items last read from the store and the query. */
  class LibraryPage {
    var items: seq<Tasting>
    var query: string

    constructor ()
      ensures items == [] && query == ""
    {
      items := [];
      query := "";
    }

    /** `refresh()`: re-read the store. */
    method Refresh(store: TastingStore)
      modifies this`items
      ensures items == store.All()
    {
      items := store.All();
    }

    /** `onDelete(id)`; `confirmed` is the answer to `window.confirm`. */
    method OnDelete(id: string, confirmed: bool, store: TastingStore)
      modifies this`items, store
      ensures !confirmed ==> items == old(items) && store.slot == old(store.slot)
      ensures confirmed && store.hasWindow ==> store.slot == ArrayOf(RemoveById(old(store.All()), id))
      ensures confirmed ==> items == store.All()
      ensures confirmed ==> forall k :: 0 <= k < |items| ==> items[k].id != id || !store.hasWindow
    {
      if !confirmed { return; }
      store.Delete(id);
      if store.hasWindow {
        RemoveByIdSpec(old(store.All()), id);
      }
      Refresh(store);
    }
  }

  // ---------------------------------------------------------------------
  // Favourites page

  /** `isFavoriteFromStorage(id)`: false unless the key holds a parsed
      array that includes `id`. */
  function IsFavoriteFromStorage(raw: Stored<string>, id: string): (b: bool)
    ensures !raw.ArrayOf? ==> !b
    ensures raw.ArrayOf? ==> (b <==> id in raw.items)
  {
    match SafeParse(raw)
    case Some(ArrayValue(ids)) => id in ids
    case _ => false
  }

  /** The page's check agrees with the store's `isFavorite` wherever the
      latter gives a list answer, and says false where it does not. */
  lemma FavoriteChecksAgree(raw: Stored<string>, id: string)
    ensures IsFavoriteFromStorage(raw, id) <==> Favorites.IsFavorite(raw, id) == Some(true)
  {
  }

  /** `favoritesOnly` */
  function FavoritesOnly(items: seq<Tasting>, raw: Stored<string>): seq<Tasting>
  {
    Filter(items, (t: Tasting) => IsFavoriteFromStorage(raw, t.id))
  }

  /** `filtered` of the favourites page: the library search over the
      favourites. */
  function FavoritesFiltered(items: seq<Tasting>, raw: Stored<string>, query: string): seq<Tasting>
  {
    Filtered(FavoritesOnly(items, raw), query)
  }

  /** `favoritesOnly` is exactly the subsequence of items whose id is a
      stored favourite; the search result is a subsequence of it, all of it
      for a blank query. */
  lemma FavoritesSpec(items: seq<Tasting>, raw: Stored<string>, query: string)
    ensures IsSubsequence(FavoritesOnly(items, raw), items)
    ensures forall k :: 0 <= k < |FavoritesOnly(items, raw)| ==>
      IsFavoriteFromStorage(raw, FavoritesOnly(items, raw)[k].id)
    ensures forall k :: 0 <= k < |items| && IsFavoriteFromStorage(raw, items[k].id) ==>
      items[k] in FavoritesOnly(items, raw)
    ensures forall t :: multiset(FavoritesOnly(items, raw))[t] ==
               if IsFavoriteFromStorage(raw, t.id) then multiset(items)[t] else 0
    ensures IsSubsequence(FavoritesFiltered(items, raw, query), FavoritesOnly(items, raw))
    ensures IsSubsequence(FavoritesFiltered(items, raw, query), items)
    ensures IsBlank(query) ==> FavoritesFiltered(items, raw, query) == FavoritesOnly(items, raw)
    ensures forall k :: 0 <= k < |FavoritesFiltered(items, raw, query)| ==>
      Matches(FavoritesFiltered(items, raw, query)[k], query)
    ensures forall k :: 0 <= k < |FavoritesOnly(items, raw)| && Matches(FavoritesOnly(items, raw)[k], query) ==>
      FavoritesOnly(items, raw)[k] in FavoritesFiltered(items, raw, query)
    ensures forall t :: multiset(FavoritesFiltered(items, raw, query))[t] ==
               if IsFavoriteFromStorage(raw, t.id) && Matches(t, query) then multiset(items)[t] else 0
  {
    FilterIsSubsequence(items, (t: Tasting) => IsFavoriteFromStorage(raw, t.id));
    FilterMultiset(items, (t: Tasting) => IsFavoriteFromStorage(raw, t.id));
    FilteredSpec(FavoritesOnly(items, raw), query);
    SubsequenceTrans(FavoritesFiltered(items, raw, query), FavoritesOnly(items, raw), items);
  }
}
