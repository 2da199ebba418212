/** The tasting collection kept under one local-storage key
    (src/lib/storage.ts). The stored text is modelled by what parsing it
    yields; `JSON.stringify` followed by `JSON.parse` gives back the value. */
module Storage {
  import opened Wrappers
  import opened Lists

  datatype Color = Rouge | Blanc | Rose | NoColor

  /** The string the colour is stored and searched as. */
  function ColorText(c: Color): string
  {
    match c
    case Rouge => "rouge"
    case Blanc => "blanc"
    case Rose => "rose"
    case NoColor => ""
  }

  datatype Wine = Wine(
    year: string,
    name: string,
    color: Color,
    photoUrl: Option<string>,
    region: string,
    appellation: string,
    grapes: seq<string>)

  /** Sensory scores; `tannins` is null for wines that are not red. The store
      does not check any range. */
  datatype Structure = Structure(
    acidity: int,
    body: int,
    tannins: Option<int>,
    sweetness: int,
    alcoholHeat: int)

  datatype Conclusion = Conclusion(stars: int, comment: Option<string>)

  datatype Tasting = Tasting(
    id: string,
    createdAt: string,
    wine: Wine,
    structure: Structure,
    aromas: seq<string>,
    conclusion: Conclusion)

  const Key: string := "wine_tastings_v1"

  /** What a local-storage key holds, classified by what `JSON.parse` makes
      of it: no entry, the empty string, text that does not parse, the text
      `null`, another JSON value that is not an array, or an array. */
  datatype Stored<T> = Absent | EmptyText | Unparsable | JsonNull | NonArray | ArrayOf(items: seq<T>)

  /** A successfully parsed value. */
  datatype Parsed<T> = OtherValue | ArrayValue(items: seq<T>)

  /** `safeParse`: null for a missing or empty entry, for a parse error and
      for the stored text `null`, which parses to null. */
  function SafeParse<T>(raw: Stored<T>): (r: Option<Parsed<T>>)
    ensures r.None? <==> raw.Absent? || raw.EmptyText? || raw.Unparsable? || raw.JsonNull?
    ensures raw.NonArray? ==> r == Some(OtherValue)
    ensures raw.ArrayOf? ==> r == Some(ArrayValue(raw.items))
  {
    match raw
    case Absent => None
    case EmptyText => None
    case Unparsable => None
    case JsonNull => None
    case NonArray => Some(OtherValue)
    case ArrayOf(xs) => Some(ArrayValue(xs))
  }

  /** `getAllTastings`: the stored array, or `[]` without a window and for
      anything that is not a parsed array. */
  function ReadTastings(hasWindow: bool, raw: Stored<Tasting>): (r: seq<Tasting>)
    ensures !hasWindow ==> r == []
    ensures hasWindow && raw.ArrayOf? ==> r == raw.items
    ensures !raw.ArrayOf? ==> r == []
  {
    if !hasWindow then []
    else match SafeParse(raw)
      case Some(ArrayValue(xs)) => xs
      case _ => []
  }

  /** `all.find(t => t.id === id) ?? null` */
  function FindById(all: seq<Tasting>, id: string): (r: Option<Tasting>)
    ensures r.None? <==> forall k :: 0 <= k < |all| ==> all[k].id != id
    ensures r.Some? ==> r.value.id == id
    ensures r.Some? ==> exists k :: 0 <= k < |all| && all[k] == r.value && forall j :: 0 <= j < k ==> all[j].id != id
  {
    if all == [] then None
    else if all[0].id == id then Some(all[0])
    else
      var r := FindById(all[1..], id);
      if r.Some? then
        var k :| 0 <= k < |all[1..]| && all[1..][k] == r.value && forall j :: 0 <= j < k ==> all[1..][j].id != id;
        assert all[k + 1] == r.value;
        r
      else r
  }

  /** `all.map(t => t.id === u.id ? u : t)` */
  function ReplaceById(all: seq<Tasting>, u: Tasting): (r: seq<Tasting>)
    ensures |r| == |all|
    ensures forall k :: 0 <= k < |all| && all[k].id == u.id ==> r[k] == u
    ensures forall k :: 0 <= k < |all| && all[k].id != u.id ==> r[k] == all[k]
    ensures (forall k :: 0 <= k < |all| ==> all[k].id != u.id) ==> r == all
  {
    if all == [] then []
    else [if all[0].id == u.id then u else all[0]] + ReplaceById(all[1..], u)
  }

  /** `all.filter(t => t.id !== id)` */
  function RemoveById(all: seq<Tasting>, id: string): seq<Tasting>
  {
    Filter(all, (t: Tasting) => t.id != id)
  }

  /** Deleting drops every record with the id, keeps every other record and
      keeps their order; deleting an absent id changes nothing. */
  lemma RemoveByIdSpec(all: seq<Tasting>, id: string)
    ensures forall k :: 0 <= k < |RemoveById(all, id)| ==> RemoveById(all, id)[k].id != id
    ensures forall k :: 0 <= k < |all| && all[k].id != id ==> all[k] in RemoveById(all, id)
    ensures IsSubsequence(RemoveById(all, id), all)
    ensures forall t :: multiset(RemoveById(all, id))[t] == if t.id != id then multiset(all)[t] else 0
    ensures (forall k :: 0 <= k < |all| ==> all[k].id != id) ==> RemoveById(all, id) == all
    ensures FindById(RemoveById(all, id), id).None?
  {
    FilterIsSubsequence(all, (t: Tasting) => t.id != id);
    FilterMultiset(all, (t: Tasting) => t.id != id);
    if forall k :: 0 <= k < |all| ==> all[k].id != id {
      FilterAll(all, (t: Tasting) => t.id != id);
    }
  }

  /** After an update whose id is present, the lookup returns the new
      record: every match, the first one included, is replaced. */
  lemma FindAfterReplace(all: seq<Tasting>, u: Tasting)
    requires exists k :: 0 <= k < |all| && all[k].id == u.id
    ensures FindById(ReplaceById(all, u), u.id) == Some(u)
  {
    var r := ReplaceById(all, u);
    var found := FindById(r, u.id);
    var k :| 0 <= k < |all| && all[k].id == u.id;
    assert r[k].id == u.id;
    var m :| 0 <= m < |r| && r[m] == found.value && forall j :: 0 <= j < m ==> r[j].id != u.id;
    assert all[m].id == u.id;
  }

  /** The store: one field holding what the key holds. Without a window
      (server-side rendering) every reader sees `[]` and no writer writes. */
  class TastingStore {
    const hasWindow: bool
    var slot: Stored<Tasting>

    constructor (hasWindow: bool, slot: Stored<Tasting>)
      ensures this.hasWindow == hasWindow && this.slot == slot
    {
      this.hasWindow := hasWindow;
      this.slot := slot;
    }

    /** `getAllTastings()` */
    function All(): (r: seq<Tasting>)
      reads this
      ensures !hasWindow || !slot.ArrayOf? ==> r == []
      ensures hasWindow && slot.ArrayOf? ==> r == slot.items
    {
      ReadTastings(hasWindow, slot)
    }

    /** `getTastingById(id)` */
    function GetById(id: string): (r: Option<Tasting>)
      reads this
      ensures r.None? <==> forall k :: 0 <= k < |All()| ==> All()[k].id != id
      ensures r.Some? ==> r.value.id == id && r.value in All()
    {
      FindById(All(), id)
    }

    /** `saveTasting(t)`: the record goes in front of the old list, with no
        check that its id is new. */
    method Save(t: Tasting)
      modifies this
      ensures hasWindow ==> slot == ArrayOf([t] + old(All()))
      ensures hasWindow ==> All() == [t] + old(All()) && GetById(t.id) == Some(t)
      ensures !hasWindow ==> slot == old(slot)
    {
      if !hasWindow { return; }
      var all := All();
      slot := ArrayOf([t] + all);
    }

    /** `updateTasting(u)`: every record with `u`'s id becomes `u`. */
    method Update(u: Tasting)
      modifies this
      ensures hasWindow ==> slot == ArrayOf(ReplaceById(old(All()), u))
      ensures !hasWindow ==> slot == old(slot)
    {
      if !hasWindow { return; }
      var all := All();
      slot := ArrayOf(ReplaceById(all, u));
    }

    /** `deleteTasting(id)` */
    method Delete(id: string)
      modifies this
      ensures hasWindow ==> slot == ArrayOf(RemoveById(old(All()), id))
      ensures hasWindow ==> GetById(id).None?
      ensures !hasWindow ==> slot == old(slot)
    {
      if !hasWindow { return; }
      var all := All();
      slot := ArrayOf(RemoveById(all, id));
      RemoveByIdSpec(all, id);
    }

    /** `clearAllTastings()`: the key is removed. */
    method Clear()
      modifies this
      ensures hasWindow ==> slot == Absent
      ensures All() == []
      ensures !hasWindow ==> slot == old(slot)
    {
      if !hasWindow { return; }
      slot := Absent;
    }
  }

  /** Removing "a" from a list of records "a" then "b" leaves just "b". */
  lemma RemoveFirstOfTwo(a: Tasting, b: Tasting)
    requires a.id == "a" && b.id == "b"
    ensures RemoveById([a, b], "a") == [b]
  {
    var p := (t: Tasting) => t.id != "a";
    assert b.id != "a" by { assert b.id[0] != 'a'; }
    assert [a, b][1..] == [b] && [b][1..] == [];
    assert Filter([b], p) == [b] + Filter([], p);
  }
}
