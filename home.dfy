/** The home page (src/app/page.tsx): the call to action and the express
    note, which saves a minimal tasting straight into the library. */
module Home {
  import opened Wrappers
  import opened Text
  import opened Storage

  const MissingNameMessage: string := "Entre au moins un nom de vin."
  const InvalidYearMessage: string := "Année invalide (format: 2021)."
  const QuickSavedMessage: string := "Note express enregistrée ✅"

  datatype CtaState = Start | New
  datatype Cta = Cta(text: string, href: string, state: CtaState)

  /** The call to action: "Commencer" for an empty library, else
      "Nouvelle dégustation"; both lead to the wizard. */
  function CallToAction(tastingsCount: nat): (c: Cta)
    ensures c.href == "/tasting/new"
    ensures c.state == Start <==> tastingsCount == 0
    ensures c.text == (if tastingsCount == 0 then "Commencer" else "Nouvelle dégustation")
  {
    if tastingsCount == 0 then Cta("Commencer", "/tasting/new", Start)
    else Cta("Nouvelle dégustation", "/tasting/new", New)
  }

  /** Exactly four ASCII digits, as `/^\d{4}$/` matches. */
  predicate FourDigits(s: string)
  {
    |s| == 4 && forall k :: 0 <= k < 4 ==> '0' <= s[k] <= '9'
  }

  /** `validYear(y)`: a blank year is allowed, otherwise the trimmed year
      must be four digits. */
  function ValidYear(y: string): (b: bool)
    ensures IsBlank(y) ==> b
    ensures b && !IsBlank(y) ==> |Trim(y)| == 4
    ensures b ==> forall k :: 0 <= k < |Trim(y)| ==> '0' <= Trim(y)[k] <= '9'
    ensures !IsBlank(y) && FourDigits(Trim(y)) ==> b
  {
    if Trim(y) == [] then true else FourDigits(Trim(y))
  }

  /** Four digits pass whatever blanks surround them. */
  lemma ValidYearPadded(a: string, y: string, b: string)
    requires AllSpace(a) && AllSpace(b) && FourDigits(y)
    ensures ValidYear(a + y + b)
  {
    TrimPadded(a, y, b);
  }

  /** The empty and an all-blank year pass. */
  lemma ValidYearAcceptsBlank()
    ensures ValidYear("") && ValidYear("   ")
  {
    assert AllSpace("   ");
  }

  /** Short, long and non-numeric years fail. */
  lemma ValidYearRejects()
    ensures !ValidYear("21") && !ValidYear("20a1") && !ValidYear("20211")
  {
    TrimNoSurroundingSpace("21");
    TrimNoSurroundingSpace("20a1");
    assert !FourDigits("20a1") by { assert "20a1"[2] == 'a'; }
    TrimNoSurroundingSpace("20211");
  }

  /** The express note: the trimmed name and year, no colour, no grapes,
      the default scores with tannins 0, three stars and an empty comment. */
  function QuickNote(id: string, createdAt: string, name: string, year: string): (t: Tasting)
    ensures t.id == id && t.createdAt == createdAt
    ensures t.wine.name == name && t.wine.year == year
    ensures t.wine.grapes == [] && t.aromas == []
    ensures t.structure.tannins.Some? && t.wine.color != Rouge
  {
    Tasting(id, createdAt,
      Wine(year, name, NoColor, None, "", "", []),
      Structure(3, 3, Some(0), 1, 3),
      [],
      Conclusion(3, Some("")))
  }

  datatype QuickSaveOutcome = MissingName | InvalidYear | Saved

  /** What `onQuickSave` decides from the two inputs. */
  function QuickSaveDecision(quickName: string, quickYear: string): (o: QuickSaveOutcome)
    ensures o == MissingName <==> IsBlank(quickName)
    ensures o == InvalidYear <==> !IsBlank(quickName) && !ValidYear(quickYear)
    ensures o == Saved <==> !IsBlank(quickName) && ValidYear(quickYear)
  {
    TrimIdempotent(quickYear);
    if Trim(quickName) == [] then MissingName
    else if !ValidYear(Trim(quickYear)) then InvalidYear
    else Saved
  }

  /** The page state. */
  class HomePage {
    var tastingsCount: nat
    var quickName: string
    var quickYear: string
    var saving: bool
    var toast: Option<string>

    constructor ()
      ensures tastingsCount == 0 && quickName == "" && quickYear == ""
      ensures !saving && toast == None
    {
      tastingsCount := 0;
      quickName := "";
      quickYear := "";
      saving := false;
      toast := None;
    }

    function CurrentCta(): Cta
      reads this
    {
      CallToAction(tastingsCount)
    }

    /** The mount effect: count the stored tastings. */
    method Mount(store: TastingStore)
      modifies this`tastingsCount
      ensures tastingsCount == |store.All()|
    {
      tastingsCount := |store.All()|;
    }

    /** `onQuickSave()`; `id` and `createdAt` stand for the fresh UUID and
        the current time. A refusal changes nothing but the toast; a save
        puts the note in front of the library, clears both inputs and
        recounts. */
    method OnQuickSave(store: TastingStore, id: string, createdAt: string) returns (o: QuickSaveOutcome)
      modifies this, store
      ensures o == QuickSaveDecision(old(quickName), old(quickYear))
      ensures o == MissingName ==> toast == Some(MissingNameMessage)
      ensures o == InvalidYear ==> toast == Some(InvalidYearMessage)
      ensures o != Saved ==> store.slot == old(store.slot) && saving == old(saving)
      ensures o != Saved ==> quickName == old(quickName) && quickYear == old(quickYear)
      ensures o != Saved ==> tastingsCount == old(tastingsCount)
      ensures o == Saved && store.hasWindow ==>
        store.slot == ArrayOf([QuickNote(id, createdAt, Trim(old(quickName)), Trim(old(quickYear)))] + old(store.All()))
      ensures o == Saved ==> quickName == "" && quickYear == "" && toast == Some(QuickSavedMessage)
      ensures o == Saved ==> tastingsCount == |store.All()| && !saving
    {
      var name := Trim(quickName);
      var year := Trim(quickYear);
      if name == [] {
        toast := Some(MissingNameMessage);
        return MissingName;
      }
      TrimIdempotent(quickYear);
      if !ValidYear(year) {
        toast := Some(InvalidYearMessage);
        return InvalidYear;
      }
      saving := true;
      store.Save(QuickNote(id, createdAt, name, year));
      quickName := "";
      quickYear := "";
      toast := Some(QuickSavedMessage);
      tastingsCount := |store.All()|;
      saving := false;
      o := Saved;
    }
  }
}
