/** The five-step tasting wizard (src/app/tasting/new/page.tsx): step
    navigation with its step-1 gate, the grape and aroma chip lists, the
    grape search, the keyboard shortcuts and the record built on finish. */
module Wizard {
  import opened Wrappers
  import opened Lists
  import opened Text
  import opened Storage

  const TotalSteps: int := 5
  const MaxGrapeResults: nat := 8
  const IdentityWarning: string := "⚠️ Ajoute au moins millésime, nom et couleur."
  const SavedMessage: string := "✅ Dégustation enregistrée !"

  const GrapeSuggestions: seq<string> := [
    "Chardonnay", "Sauvignon Blanc", "Pinot Noir", "Syrah", "Merlot",
    "Cabernet Sauvignon", "Cabernet Franc", "Grenache", "Cinsault", "Mourvèdre",
    "Riesling", "Chenin", "Gewurztraminer", "Viognier", "Sémillon", "Malbec",
    "Gamay", "Pinot Gris", "Muscat", "Petit Verdot", "Carignan", "Tempranillo",
    "Sangiovese", "Nebbiolo"]

  /** `Boolean(year && name && color)`: the three step-1 fields are
      non-empty (no trimming). */
  predicate IdentityFilled(year: string, name: string, color: Color)
  {
    year != "" && name != "" && color != NoColor
  }

  /** `canGoNext`: only step 1 is gated. */
  function CanGoNext(step: int, year: string, name: string, color: Color): (b: bool)
    ensures step != 1 ==> b
    ensures step == 1 ==> (b <==> IdentityFilled(year, name, color))
  {
    if step == 1 then IdentityFilled(year, name, color) else true
  }

  /** `canJumpTo(n)`: step 1 always, any other tab once step 1 is filled. */
  function CanJumpTo(n: int, year: string, name: string, color: Color): (b: bool)
    ensures n == 1 ==> b
    ensures n != 1 ==> (b <==> IdentityFilled(year, name, color))
  {
    if n == 1 then true else IdentityFilled(year, name, color)
  }

  /** The suggestion matches the lower-cased, trimmed query. */
  predicate MatchesQuery(g: string, q: string)
  {
    Contains(Lower(g), q)
  }

  /** The suggestions of `list` the menu may show before the cut to
      eight: those matching the query (all of them for a blank query) that
      are not already selected, compared exactly. */
  function Eligible(list: seq<string>, query: string, selected: seq<string>): seq<string>
  {
    Filter(Matching(list, query), g => g !in selected)
  }

  /** `grapeResults`, over a suggestion list. */
  function SuggestionResults(list: seq<string>, query: string, selected: seq<string>): seq<string>
  {
    Take(Eligible(list, query, selected), MaxGrapeResults)
  }

  /** `grapeResults`: at most eight of the built-in suggestions, in their
      order, each eligible. */
  function GrapeResults(query: string, selected: seq<string>): (r: seq<string>)
    ensures |r| <= MaxGrapeResults
    ensures |r| == if |Eligible(GrapeSuggestions, query, selected)| < MaxGrapeResults
                   then |Eligible(GrapeSuggestions, query, selected)| else MaxGrapeResults
    ensures r <= Eligible(GrapeSuggestions, query, selected)
    ensures IsSubsequence(r, GrapeSuggestions)
    ensures forall k :: 0 <= k < |r| ==> IsEligible(r[k], query, selected)
    ensures NoDup(r)
  {
    GrapeSuggestionsNoDup();
    ResultsSpec(GrapeSuggestions, query, selected);
    SuggestionResults(GrapeSuggestions, query, selected)
  }

  /** The suggestions of `list` matching the query, all of them for a
      blank query. */
  function Matching(list: seq<string>, query: string): seq<string>
  {
    var q := Lower(Trim(query));
    if q == [] then list else Filter(list, g => MatchesQuery(g, q))
  }

  /** A suggestion is eligible when it is not selected and matches the
      trimmed query ignoring case (any suggestion does for a blank query). */
  predicate IsEligible(g: string, query: string, selected: seq<string>)
  {
    g !in selected && (Lower(Trim(query)) == [] || MatchesQuery(g, Lower(Trim(query))))
  }

  /** The list before the cut keeps exactly the eligible suggestions in
      suggestion-list order. */
  lemma EligibleSpec(list: seq<string>, query: string, selected: seq<string>)
    ensures IsSubsequence(Eligible(list, query, selected), list)
    ensures forall k :: 0 <= k < |Eligible(list, query, selected)| ==>
      IsEligible(Eligible(list, query, selected)[k], query, selected)
    ensures forall k :: 0 <= k < |list| && IsEligible(list[k], query, selected) ==>
      list[k] in Eligible(list, query, selected)
  {
    var q := Lower(Trim(query));
    var matching := Matching(list, query);
    var e := Eligible(list, query, selected);
    assert e == Filter(matching, g => g !in selected);
    FilterIsSubsequence(matching, g => g !in selected);
    if q != [] {
      FilterIsSubsequence(list, g => MatchesQuery(g, q));
      SubsequenceTrans(e, matching, list);
    }
    forall k | 0 <= k < |e| ensures IsEligible(e[k], query, selected) {
      var m :| 0 <= m < |matching| && matching[m] == e[k];
      if q != [] {
        assert matching[m] in list && MatchesQuery(matching[m], q);
      }
    }
    forall k | 0 <= k < |list| && IsEligible(list[k], query, selected)
      ensures list[k] in e
    {
      var g := list[k];
      if q != [] {
        assert g in matching;
      }
      var m :| 0 <= m < |matching| && matching[m] == g;
      assert matching[m] in e;
    }
  }

  /** The built-in list names each grape once. */
  lemma GrapeSuggestionsNoDup()
    ensures NoDup(GrapeSuggestions)
  {
  }

  /** A suggestion list without repeats gives eligible suggestions without
      repeats. */
  lemma EligibleNoDup(list: seq<string>, query: string, selected: seq<string>)
    requires NoDup(list)
    ensures NoDup(Eligible(list, query, selected))
  {
    var q := Lower(Trim(query));
    if q != [] {
      FilterNoDup(list, g => MatchesQuery(g, q));
    }
    FilterNoDup(Matching(list, query), g => g !in selected);
  }

  /** The menu shows at most eight suggestions, in suggestion-list order,
      none already selected, each containing the trimmed query ignoring
      case; when fewer than eight are shown, every eligible one is. */
  lemma ResultsSpec(list: seq<string>, query: string, selected: seq<string>)
    ensures |SuggestionResults(list, query, selected)| <= MaxGrapeResults
    ensures SuggestionResults(list, query, selected) <= Eligible(list, query, selected)
    ensures |SuggestionResults(list, query, selected)| ==
      if |Eligible(list, query, selected)| < MaxGrapeResults
      then |Eligible(list, query, selected)| else MaxGrapeResults
    ensures NoDup(list) ==> NoDup(SuggestionResults(list, query, selected))
    ensures IsSubsequence(SuggestionResults(list, query, selected), list)
    ensures forall k :: 0 <= k < |SuggestionResults(list, query, selected)| ==>
      IsEligible(SuggestionResults(list, query, selected)[k], query, selected)
    ensures |SuggestionResults(list, query, selected)| < MaxGrapeResults ==>
      forall k :: 0 <= k < |list| && IsEligible(list[k], query, selected) ==>
        list[k] in SuggestionResults(list, query, selected)
  {
    var e := Eligible(list, query, selected);
    var r := SuggestionResults(list, query, selected);
    EligibleSpec(list, query, selected);
    if NoDup(list) {
      EligibleNoDup(list, query, selected);
      assert forall i, j :: 0 <= i < j < |r| ==> r[i] == e[i] && r[j] == e[j];
    }
    PrefixIsSubsequence(r, e);
    SubsequenceTrans(r, e, list);
    forall k | 0 <= k < |r| ensures IsEligible(r[k], query, selected) {
      assert r[k] == e[k];
    }
  }

  /** `canAddCustomGrape`, over a suggestion list. */
  function CanAddCustom(list: seq<string>, query: string, selected: seq<string>): (b: bool)
    ensures b ==> !IsBlank(query)
    ensures b ==> Trim(query) !in selected && Trim(query) !in list
    ensures b ==> AppendIfAbsent(selected, Trim(query)) == selected + [Trim(query)]
    ensures IsBlank(query) ==> !b
    ensures forall k :: 0 <= k < |list| && Lower(list[k]) == Lower(Trim(query)) ==> !b
    ensures forall k :: 0 <= k < |selected| && Lower(selected[k]) == Lower(Trim(query)) ==> !b
    ensures (!IsBlank(query)
             && (forall k :: 0 <= k < |list| ==> Lower(list[k]) != Lower(Trim(query)))
             && (forall k :: 0 <= k < |selected| ==> Lower(selected[k]) != Lower(Trim(query))))
            ==> b
  {
    var q := Trim(query);
    if q == [] then false
    else
      var inSuggestions := exists k :: 0 <= k < |list| && Lower(list[k]) == Lower(q);
      var alreadySelected := exists k :: 0 <= k < |selected| && Lower(selected[k]) == Lower(q);
      !inSuggestions && !alreadySelected
  }

  /** `canAddCustomGrape`: a non-blank trimmed query that equals, ignoring
      case, neither a suggestion nor a selected grape. */
  function CanAddCustomGrape(query: string, selected: seq<string>): (b: bool)
    ensures b ==> !IsBlank(query) && Trim(query) !in GrapeSuggestions && Trim(query) !in selected
  {
    CanAddCustom(GrapeSuggestions, query, selected)
  }

  /** A query that trims to "syrah", such as " syrah ", differs from the
      suggestion "Syrah" only in case, so no custom entry is offered for it. */
  lemma CustomGrapeRefusedForSuggestion(query: string)
    requires Trim(query) == "syrah"
    ensures !CanAddCustomGrape(query, [])
  {
    assert GrapeSuggestions[3] == "Syrah";
    assert Lower("Syrah") == [LowerChar('S')] + Lower("yrah");
  }

  /** What a key press does. */
  datatype KeyAction =
    | Finish   // mod+Enter on step 5: save the tasting
    | Back     // Escape
    | Advance  // Enter outside the comment box before step 5
    | Swallow  // Enter outside the comment box on step 5: default prevented, nothing else
    | Ignore   // anything else: left to the browser

  /** The shortcut decision table of `onKeyDown`. */
  function KeyDecision(key: string, mod: bool, inTextArea: bool, step: int): (a: KeyAction)
    ensures a == Finish <==> mod && key == "Enter" && step == 5
    ensures a == Back <==> key == "Escape"
    ensures a == Advance <==> key == "Enter" && !inTextArea && step < 5
    ensures a == Swallow <==> key == "Enter" && !inTextArea && step >= 5 && !(mod && step == 5)
  {
    if mod && key == "Enter" && step == 5 then Finish
    else if key == "Escape" then Back
    else if key == "Enter" && !inTextArea then (if step < 5 then Advance else Swallow)
    else Ignore
  }

  /** Every chip of a list is trimmed and non-blank, and no two are equal. */
  ghost predicate ChipList(xs: seq<string>)
  {
    NoDup(xs) && forall k :: 0 <= k < |xs| ==> xs[k] != [] && Trim(xs[k]) == xs[k]
  }

  /** Adding a chip to a valid list keeps it valid. */
  lemma AddChipKeepsList(xs: seq<string>, raw: string)
    requires ChipList(xs) && !IsBlank(raw)
    ensures ChipList(AppendIfAbsent(xs, Trim(raw)))
  {
    TrimIdempotent(raw);
  }

  /** Removing a chip from a valid list keeps it valid and keeps the order. */
  lemma RemoveChipKeepsList(xs: seq<string>, v: string)
    requires ChipList(xs)
    ensures ChipList(RemoveAll(xs, v))
    ensures IsSubsequence(RemoveAll(xs, v), xs)
  {
    RemoveAllNoDup(xs, v);
    RemoveAllIsSubsequence(xs, v);
  }

  class TastingWizard {
    var step: int
    // step 1
    var year: string
    var photoUrl: Option<string>
    var name: string
    var color: Color
    // step 2
    var region: string
    var appellation: string
    var grapes: seq<string>
    var grapeQuery: string
    var grapeMenuOpen: bool
    // step 3
    var acidity: int
    var body: int
    var tannins: int
    var sweetness: int
    var alcoholHeat: int
    // step 4
    var aromas: seq<string>
    var aromaInput: string
    // step 5
    var stars: int
    var comment: string
    // feedback
    var toast: Option<string>

    ghost predicate Valid()
      reads this
    {
      1 <= step <= TotalSteps && ChipList(grapes) && ChipList(aromas)
    }

    /** The initial state of the page. */
    constructor ()
      ensures Valid()
      ensures step == 1 && year == "" && photoUrl == None && name == "" && color == NoColor
      ensures region == "" && appellation == "" && grapes == [] && grapeQuery == "" && !grapeMenuOpen
      ensures acidity == 3 && body == 3 && tannins == 3 && sweetness == 3 && alcoholHeat == 3
      ensures aromas == [] && aromaInput == "" && stars == 3 && comment == "" && toast == None
    {
      step := 1;
      year, photoUrl, name, color := "", None, "", NoColor;
      region, appellation, grapes, grapeQuery, grapeMenuOpen := "", "", [], "", false;
      acidity, body, tannins, sweetness, alcoholHeat := 3, 3, 3, 3, 3;
      aromas, aromaInput := [], "";
      stars, comment := 3, "";
      toast := None;
    }

    /** `onNext()`: blocked with a warning at step 1 until year, name and
        colour are set; otherwise one step on, capped at 5. */
    method OnNext() returns (warned: bool)
      requires Valid()
      modifies this`step, this`toast
      ensures Valid()
      ensures warned <==> !CanGoNext(old(step), year, name, color)
      ensures warned ==> step == old(step) && toast == Some(IdentityWarning)
      ensures !warned ==> step == (if old(step) + 1 < TotalSteps then old(step) + 1 else TotalSteps)
      ensures !warned ==> toast == old(toast)
    {
      if !CanGoNext(step, year, name, color) {
        toast := Some(IdentityWarning);
        return true;
      }
      step := if step + 1 < TotalSteps then step + 1 else TotalSteps;
      return false;
    }

    /** `onBack()`: one step back, never below 1. */
    method OnBack()
      requires Valid()
      modifies this`step
      ensures Valid()
      ensures step == (if old(step) - 1 > 1 then old(step) - 1 else 1)
    {
      step := if step - 1 > 1 then step - 1 else 1;
    }

    /** A click on tab `n`; disabled tabs do nothing. */
    method JumpTo(n: int)
      requires Valid() && 1 <= n <= TotalSteps
      modifies this`step
      ensures Valid()
      ensures step == if CanJumpTo(n, year, name, color) then n else old(step)
    {
      if CanJumpTo(n, year, name, color) {
        step := n;
      }
    }

    /** `addGrape(raw)`: a blank entry changes nothing; otherwise the
        trimmed entry is appended unless present, and the search is reset. */
    method AddGrape(raw: string)
      requires Valid()
      modifies this`grapes, this`grapeQuery, this`grapeMenuOpen
      ensures Valid()
      ensures IsBlank(raw) ==>
        grapes == old(grapes) && grapeQuery == old(grapeQuery) && grapeMenuOpen == old(grapeMenuOpen)
      ensures !IsBlank(raw) ==>
        grapes == AppendIfAbsent(old(grapes), Trim(raw)) && grapeQuery == "" && !grapeMenuOpen
    {
      var trimmed := Trim(raw);
      if trimmed == [] { return; }
      AddChipKeepsList(grapes, raw);
      grapes := AppendIfAbsent(grapes, trimmed);
      grapeQuery := "";
      grapeMenuOpen := false;
    }

    /** `removeGrape(g)`: drops every equal entry. */
    method RemoveGrape(g: string)
      requires Valid()
      modifies this`grapes
      ensures Valid()
      ensures grapes == RemoveAll(old(grapes), g)
    {
      RemoveChipKeepsList(grapes, g);
      grapes := RemoveAll(grapes, g);
    }

    /** `addAroma(raw)`, like `addGrape` but resetting the aroma input. */
    method AddAroma(raw: string)
      requires Valid()
      modifies this`aromas, this`aromaInput
      ensures Valid()
      ensures IsBlank(raw) ==> aromas == old(aromas) && aromaInput == old(aromaInput)
      ensures !IsBlank(raw) ==> aromas == AppendIfAbsent(old(aromas), Trim(raw)) && aromaInput == ""
    {
      var trimmed := Trim(raw);
      if trimmed == [] { return; }
      AddChipKeepsList(aromas, raw);
      aromas := AppendIfAbsent(aromas, trimmed);
      aromaInput := "";
    }

    /** `removeAroma(a)` */
    method RemoveAroma(a: string)
      requires Valid()
      modifies this`aromas
      ensures Valid()
      ensures aromas == RemoveAll(old(aromas), a)
    {
      RemoveChipKeepsList(aromas, a);
      aromas := RemoveAll(aromas, a);
    }

    /** The record `onFinish` builds from the current fields. */
    function Record(id: string, createdAt: string): (t: Tasting)
      reads this
      ensures t.id == id && t.createdAt == createdAt
      ensures t.wine == Wine(year, name, color, photoUrl, region, appellation, grapes)
      ensures t.structure.tannins.Some? <==> color == Rouge
      ensures t.structure.tannins.Some? ==> t.structure.tannins.value == tannins
      ensures t.structure.acidity == acidity && t.structure.body == body
      ensures t.structure.sweetness == sweetness && t.structure.alcoholHeat == alcoholHeat
      ensures t.aromas == aromas && t.conclusion.stars == stars
      ensures t.conclusion.comment.None? <==> IsBlank(comment)
      ensures t.conclusion.comment.Some? ==> t.conclusion.comment.value == Trim(comment)
    {
      var trimmed := Trim(comment);
      Tasting(
        id, createdAt,
        Wine(year, name, color, photoUrl, region, appellation, grapes),
        Structure(acidity, body, if color == Rouge then Some(tannins) else None, sweetness, alcoholHeat),
        aromas,
        Conclusion(stars, if trimmed == [] then None else Some(trimmed)))
    }

    /** `onFinish()`: the record goes to the front of the stored list.
        `id` and `createdAt` stand for `crypto.randomUUID()` and the ISO
        timestamp. */
    method OnFinish(store: TastingStore, id: string, createdAt: string)
      modifies store, this`toast
      ensures store.hasWindow ==> store.slot == ArrayOf([old(Record(id, createdAt))] + old(store.All()))
      ensures !store.hasWindow ==> store.slot == old(store.slot)
      ensures toast == Some(SavedMessage)
    {
      var t := Record(id, createdAt);
      store.Save(t);
      toast := Some(SavedMessage);
    }

    /** `onKeyDown`: the decision table, then the handler it selects. */
    method OnKeyDown(key: string, mod: bool, inTextArea: bool,
                     store: TastingStore, id: string, createdAt: string) returns (a: KeyAction)
      requires Valid()
      modifies this`step, this`toast, store
      ensures Valid()
      ensures a == KeyDecision(key, mod, inTextArea, old(step))
      ensures a == Finish ==> step == old(step)
      ensures a == Finish && store.hasWindow ==>
        store.slot == ArrayOf([old(Record(id, createdAt))] + old(store.All()))
      ensures a == Finish ==> toast == Some(SavedMessage)
      ensures a == Back ==> step == (if old(step) - 1 > 1 then old(step) - 1 else 1)
      ensures a == Back ==> toast == old(toast)
      ensures a == Advance ==> old(step) < TotalSteps
      ensures a == Advance ==>
        step == (if CanGoNext(old(step), year, name, color) then old(step) + 1 else old(step))
      ensures a == Advance ==>
        toast == (if CanGoNext(old(step), year, name, color) then old(toast) else Some(IdentityWarning))
      ensures (a == Finish && !store.hasWindow) || a != Finish ==> store.slot == old(store.slot)
      ensures a == Swallow || a == Ignore ==> step == old(step) && toast == old(toast)
    {
      a := KeyDecision(key, mod, inTextArea, step);
      match a
      case Finish => OnFinish(store, id, createdAt);
      case Back => OnBack();
      case Advance => var _ := OnNext();
      case Swallow =>
      case Ignore =>
    }
  }
}
