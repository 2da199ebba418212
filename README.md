# Vininote in Dafny

Vininote is a wine-tasting journal that runs entirely in the browser. Its
data lives in local storage:

- the tastings, an ordered list of records under `wine_tastings_v1`;
- the favourite tasting ids under `vininote:favorites`;
- the progress of two "learn" quizzes, one record per topic;
- a demonstration user record.

This project models the rules under the pages and proves what they
promise. The modules follow the program:

- `Storage` is the tasting store (`src/lib/storage.ts`). It is a class
  whose only field is what the key holds. The key holds nothing, empty
  text, text that does not parse, the text `null`, another JSON value
  that is not an array, or an array of records.
- `Favorites` is the favourite-id list (`src/lib/favorites.ts`). Every
  write rebuilds the list through a JavaScript `Set`. The set is modelled
  by `Dedup`, which keeps each id at its first occurrence, and the
  write's loop is modelled as a loop.
- `Quiz` is one session machine for the three quiz pages (grape,
  region/appellation, vintage). `Variant` records how the copies differ.
  The region copy guards `choose` on `done` and `next` on a pick. The
  vintage copy keeps no XP, persists nothing and reshuffles through a
  seed. The module also has the Durstenfeld shuffle, as a swap loop over
  an array copy, and the progress merge.
- `Wizard` is the five-step tasting form (`src/app/tasting/new/page.tsx`).
  It covers step navigation and its step-1 gate, the grape and aroma chip
  lists, the grape suggestions and the custom-grape test, the keyboard
  shortcuts, and the record saved at the end.
- The remaining modules are the smaller pages:
  - `Home` is the call to action and the express note;
  - `Search` is the library and favourites search, deletion from the
    library, and the favourites page's own favourite test;
  - `Users`, `Login` and `Profile` are the user record, the login form
    and the profile form;
  - `SiteHeader` is the highlighted navigation link.
- `Wrappers`, `Lists` and `Text` hold the JavaScript behaviour the pages
  rely on. This covers `Option` (for `null`), `filter`, `includes`,
  `slice`, `new Set(...)` and the string methods `trim`, `toLowerCase`,
  `includes`, `startsWith`, `join` and `split("@")[0]`.

The stored text is modelled by what parsing it yields. Writing a list and
reading it back gives the same list. Ids, timestamps, the shuffle's random
draws, the answer to `window.confirm` and the chosen photo file are
parameters of the operations that use them.

The express note on the home page stores tannins as `0`, not `null`, and
its colour is empty. So unlike the wizard's records, it does not follow the
rule that only red wines carry a tannin score. The library hides a tannin
score of `0` the same way it hides `null` (`Search.ShowsTannins`).

## Model

| member | source | states |
|---|---|---|
| Storage.SafeParse | src/lib/storage.ts:48-55 | null exactly for a missing entry, empty text, a parse error or the stored text `null`; any other non-array value parses to a non-array value; a stored array parses back to itself |
| Storage.ReadTastings | src/lib/storage.ts:57-61 | `[]` without a window and for anything that is not a parsed array; otherwise the stored array |
| Storage.FindById | src/lib/storage.ts:35-38 | null exactly when no record has the id; otherwise a record with that id that no earlier record's id equals (the first match) |
| Storage.ReplaceById | src/lib/storage.ts:40-45 | same length; every record with the updated id becomes the update, every other record is unchanged, and with no match the list is equal |
| Storage.RemoveById | src/lib/storage.ts:69-72 | no contract of its own: the order-keeping filter of `deleteTasting`, characterised by `Storage.RemoveByIdSpec` |
| Storage.RemoveByIdSpec | src/lib/storage.ts:69-73 | deletion leaves no record with the id and keeps every other record in order (a subsequence) with all its copies (as a multiset, each kept record occurs as often as before, each dropped one not at all); nothing changes for an absent id, and a lookup afterwards finds nothing |
| Storage.FindAfterReplace | src/lib/storage.ts:35-45 | after updating a record whose id is present, the lookup returns the update |
| Storage.RemoveFirstOfTwo | src/lib/storage.ts:69-73 | deleting "a" from records "a", "b" leaves exactly "b" |
| Storage.TastingStore.All | src/lib/storage.ts:57-61 | the stored array with a window, and `[]` without one or for anything that is not an array |
| Storage.TastingStore.GetById | src/lib/storage.ts:35-38 | null exactly when no stored record has the id; a result has the id and is a stored record |
| Storage.TastingStore.Save | src/lib/storage.ts:63-67 | the stored list becomes the record followed by the old list, with no check that the id is new; the lookup then returns the record; without a window nothing changes |
| Storage.TastingStore.Update | src/lib/storage.ts:40-45 | the stored list becomes the id-wise replacement of the old one; without a window nothing changes |
| Storage.TastingStore.Delete | src/lib/storage.ts:69-73 | the stored list becomes the old one without the id, and the lookup finds nothing; without a window nothing changes |
| Storage.TastingStore.Clear | src/lib/storage.ts:75-78 | the key is removed, so the list reads as `[]`; without a window nothing changes |
| Favorites.ReadIds | src/lib/favorites.ts:3-11 | `[]` for a missing entry, empty text or a parse error; the stored array for an array; no list for a stored `null` or another non-array value |
| Favorites.IsFavorite | src/lib/favorites.ts:13-15 | membership of the id in the read list, false for a missing or unparsable entry, no answer for `null` or another non-array value (where `includes` throws or, for a stored string, tests for a substring) |
| Favorites.SetSeed | src/lib/favorites.ts:18 | what `new Set(getFavoriteIds())` starts from: the read list, the empty set for a stored `null`, nothing for another non-array value |
| Favorites.SetIds | src/lib/favorites.ts:17-22 | no contract of its own: the list `setFavorite` writes, characterised by the four `Favorites.SetIds…` lemmas below |
| Favorites.SetIdsMembership | src/lib/favorites.ts:17-21 | after `setFavorite(id, v)` the id is a favourite exactly when `v`, and every other id keeps its membership |
| Favorites.SetIdsNoDup | src/lib/favorites.ts:18-21 | the written list has no duplicates |
| Favorites.SetIdsOrder | src/lib/favorites.ts:18-21 | the written list keeps the old ids in first-occurrence order; a newly added id goes at the end; a removal keeps a subsequence |
| Favorites.SetIdsIdempotent | src/lib/favorites.ts:17-21 | setting the same value twice writes the same list as once |
| Favorites.ToggleTwiceMembership | src/lib/favorites.ts:27-29 | toggling twice gives every id back its original membership |
| Favorites.FavoriteStore.SetFavorite | src/lib/favorites.ts:17-22 | the `Set` loop writes the deduplicated old list (the empty one for a stored `null`) with the id added or deleted, and the id's membership is then `v`; another non-array value is left as it was |
| Favorites.FavoriteStore.Toggle | src/lib/favorites.ts:27-29 | writes `SetIds` of the read list with the id's membership negated, so the id's membership flips and every other id keeps its own; where `isFavorite` gives no answer (`null` or another non-array value) nothing is written |
| Quiz.SwapAtPermutes | src/app/learn/basics/grape/quiz/page.tsx:130 | one swap permutes the sequence |
| Quiz.SwapsFromPermutes | src/app/learn/basics/grape/quiz/page.tsx:128-131 | the swaps for the top indices down to 1 keep the length and the multiset |
| Quiz.ShuffledPermutes | src/app/learn/basics/grape/quiz/page.tsx:126-133 | for any draws, the shuffled bank is a permutation of the bank |
| Quiz.Shuffle | src/app/learn/basics/grape/quiz/page.tsx:126-133 | the swap loop over an array copy returns the shuffled order for the draws, a permutation of the input, and leaves the input alone (the same loop is at region-appellation/quiz/page.tsx:128-135 and vintage/quiz/page.tsx:14-21) |
| Quiz.ReadProgress | src/app/learn/basics/grape/quiz/page.tsx:135-152 | null for a missing, empty or unparsable entry, otherwise the stored record |
| Quiz.LoadedProgress | src/app/learn/basics/grape/quiz/page.tsx:197-199 | an unreadable entry loads as not passed, best score 0, no attempts, no XP |
| Quiz.Merge | src/app/learn/basics/grape/quiz/page.tsx:223-239 | one more attempt; the best score is the larger of the old best and the score; passed once passed or when the score reaches 4; the XP earned is added |
| Quiz.RunSummary | src/app/learn/basics/region-appellation/quiz/page.tsx:230-244 | over any run of attempts: passed iff it was or some attempt reached 4, best score the maximum, attempts counted, XP summed |
| Quiz.RunMonotone | src/app/learn/basics/region-appellation/quiz/page.tsx:230-244 | no field of the progress decreases over any run of attempts |
| Quiz.ThreeAttemptsScenario | src/app/learn/basics/grape/quiz/page.tsx:228-234 | scores 3, 5, 2 on a fresh topic give (not passed, 3, 1, 30), then (passed, 5, 2, 80), then (passed, 5, 3, 100) |
| Quiz.QuizSession.constructor | src/app/learn/basics/grape/quiz/page.tsx:175-199 | a shuffled bank, nothing answered, no progress loaded yet |
| Quiz.QuizSession.Success | src/app/learn/basics/grape/quiz/page.tsx:201-203 | success iff the quiz is done (the index has reached the number of questions) and the score is at least 4 |
| Quiz.QuizSession.Done | src/app/learn/basics/grape/quiz/page.tsx:201 | no contract of its own: done once the index reaches the number of questions |
| Quiz.QuizSession.Current | src/app/learn/basics/grape/quiz/page.tsx:202 | a question of the bank: the current one, or the last one once the index has run past the end |
| Quiz.QuizSession.AnsweredCount | src/app/learn/basics/region-appellation/quiz/page.tsx:283 | the count never exceeds the number of questions and is `i` plus one for a pending pick unless clipped |
| Quiz.RegionCounts | src/app/learn/basics/region-appellation/quiz/page.tsx:267-283 | with the region guards, the answered count is never clipped and bounds the score |
| Quiz.QuizSession.LoadProgress | src/app/learn/basics/grape/quiz/page.tsx:197-199 | the loaded progress is the stored record or the default, and nothing else changes |
| Quiz.QuizSession.Choose | src/app/learn/basics/grape/quiz/page.tsx:241-266 | ignored once picked (and on the region page once done); otherwise records the pick, a right answer scores one and 10 XP where XP is kept; `earnedXp` stays 10 times the score |
| Quiz.QuizSession.Next | src/app/learn/basics/grape/quiz/page.tsx:268-271 | clears the pick and moves on, unguarded except on the region page, which needs a pick; when this completes the quiz with progress loaded, the merged progress is kept and written, otherwise nothing is written |
| Quiz.QuizSession.Restart | src/app/learn/basics/grape/quiz/page.tsx:273-281 | back to the first question with nothing scored, in a new order of the bank; the vintage page's seed goes up by one |
| Wizard.CanGoNext | src/app/tasting/new/page.tsx:308-311 | only step 1 is gated, and it passes iff year, name and colour are all set |
| Wizard.CanJumpTo | src/app/tasting/new/page.tsx:313-316 | tab 1 is always allowed; any other tab iff year, name and colour are all set |
| Wizard.EligibleSpec | src/app/tasting/new/page.tsx:260-264 | before the cut, exactly the suggestions that match the trimmed query ignoring case and are not selected, in suggestion-list order |
| Wizard.GrapeSuggestionsNoDup | src/app/tasting/new/page.tsx:10-35 | the built-in list names each grape once |
| Wizard.EligibleNoDup | src/app/tasting/new/page.tsx:260-264 | filtering a suggestion list without repeats leaves no repeats |
| Wizard.ResultsSpec | src/app/tasting/new/page.tsx:260-265 | the first min(8, number eligible) eligible suggestions: a prefix of the eligible list of exactly that length, in list order, none selected, each containing the trimmed query ignoring case; below 8, every eligible suggestion is shown; no repeats when the list has none |
| Wizard.GrapeResults | src/app/tasting/new/page.tsx:260-265 | the first min(8, number eligible) eligible built-in suggestions: a prefix of the eligible list of exactly that length, in suggestion order, without repeats |
| Wizard.CanAddCustom | src/app/tasting/new/page.tsx:267-275 | offered exactly when the query is not blank and its trimmed text equals, ignoring case, neither a suggestion nor a selected grape; an accepted entry is new and is appended |
| Wizard.CanAddCustomGrape | src/app/tasting/new/page.tsx:267-275 | an offered custom grape is non-blank and, trimmed, is neither a built-in suggestion nor selected |
| Wizard.CustomGrapeRefusedForSuggestion | src/app/tasting/new/page.tsx:267-275 | a query trimming to "syrah" (such as " syrah ") is refused because of the suggestion "Syrah" |
| Wizard.KeyDecision | src/app/tasting/new/page.tsx:368-395 | mod+Enter on step 5 finishes, even in the comment box; Escape goes back; Enter outside the comment box advances before step 5 and is swallowed on step 5 |
| Wizard.AddChipKeepsList | src/app/tasting/new/page.tsx:249-255 | adding a trimmed non-blank entry keeps a chip list trimmed, non-blank and free of duplicates |
| Wizard.RemoveChipKeepsList | src/app/tasting/new/page.tsx:256-258 | removing keeps a chip list valid and in order |
| Wizard.TastingWizard.constructor | src/app/tasting/new/page.tsx:179-213 | step 1, empty identity, scores 3, three stars, no chips |
| Wizard.TastingWizard.OnNext | src/app/tasting/new/page.tsx:323-329 | at step 1 without year, name and colour: a warning and no move; otherwise one step on, capped at 5 |
| Wizard.TastingWizard.OnBack | src/app/tasting/new/page.tsx:331-333 | one step back, never below 1 |
| Wizard.TastingWizard.JumpTo | src/app/tasting/new/page.tsx:313-316 | moves to the tab only when it may be jumped to; the step stays within 1..5 |
| Wizard.TastingWizard.AddGrape | src/app/tasting/new/page.tsx:249-255 | a blank entry changes nothing; otherwise the trimmed entry is appended unless present and the search is reset |
| Wizard.TastingWizard.RemoveGrape | src/app/tasting/new/page.tsx:256-258 | every equal entry is dropped, the rest keep their order |
| Wizard.TastingWizard.AddAroma | src/app/tasting/new/page.tsx:278-283 | a blank entry changes nothing; otherwise the trimmed entry is appended unless present and the input is cleared |
| Wizard.TastingWizard.RemoveAroma | src/app/tasting/new/page.tsx:284-286 | every equal entry is dropped, the rest keep their order |
| Wizard.TastingWizard.Record | src/app/tasting/new/page.tsx:335-360 | the form fields as entered; tannins present iff the wine is red; the comment trimmed, or null when blank |
| Wizard.TastingWizard.OnFinish | src/app/tasting/new/page.tsx:335-364 | the record goes in front of the stored list and the saved message is shown |
| Wizard.TastingWizard.OnKeyDown | src/app/tasting/new/page.tsx:368-395 | the decision table picks the handler: finish saves the record (nothing is written without a window) and shows the saved message; back moves as `onBack` and keeps the toast; advance moves as `onNext`, warning when the step-1 gate fails; swallowed and ignored keys change nothing |
| Home.CallToAction | src/app/page.tsx:30-35 | "Commencer" for an empty library, "Nouvelle dégustation" otherwise, both to `/tasting/new` |
| Home.ValidYear | src/app/page.tsx:42-45 | a blank year passes; otherwise it passes iff the trimmed text is four ASCII digits |
| Home.ValidYearPadded | src/app/page.tsx:42-45 | four digits pass whatever blanks surround them, so " 1999 " passes |
| Home.ValidYearAcceptsBlank | src/app/page.tsx:42-43 | "" and "   " pass |
| Home.ValidYearRejects | src/app/page.tsx:44 | "21", "20a1" and "20211" fail |
| Home.QuickNote | src/app/page.tsx:62-86 | the express note carries the ids, name and year given, no grapes or aromas, and a tannin score although its colour is not red |
| Home.QuickSaveDecision | src/app/page.tsx:47-58 | refused for a blank name, then for an invalid year; saved otherwise |
| Home.HomePage.constructor | src/app/page.tsx:19-23 | no tastings counted, empty inputs, not saving, no toast |
| Home.HomePage.Mount | src/app/page.tsx:25-28 | the count is the stored list's length |
| Home.HomePage.OnQuickSave | src/app/page.tsx:47-99 | a refusal stores nothing and keeps the inputs; a save puts the default note with the trimmed name and year in front of the list, clears the inputs and recounts |
| Search.Needle | src/app/library/page.tsx:32-33 | the trimmed, lower-cased query is empty iff the query is blank |
| Search.Haystack | src/app/library/page.tsx:36-47 | no contract of its own: the eight fields joined by spaces and lower-cased |
| Search.Matches | src/app/library/page.tsx:49 | no contract of its own: the haystack contains the needle |
| Search.Filtered | src/app/library/page.tsx:31-50 | no contract of its own: characterised by `Search.FilteredSpec` |
| Search.FilteredSpec | src/app/library/page.tsx:31-50 | a blank query keeps every item; otherwise the items whose joined fields contain the query, in stored order, each matching copy kept and every other item dropped (as a multiset) |
| Search.NameAndYearMatch | src/app/library/page.tsx:36-47 | a query of the name, a space and the year matches, because the fields are space-joined |
| Search.CrossFieldExample | src/app/library/page.tsx:36-49 | "Margaux 2015" matches a tasting of Margaux 2015 |
| Search.CrossFieldExampleSpansFields | src/app/library/page.tsx:36-49 | neither the name nor the year alone contains "margaux 2015" |
| Search.ShowsTannins | src/app/library/page.tsx:148 | tannins are shown only when present and non-zero |
| Search.LibraryPage.Refresh | src/app/library/page.tsx:25 | the items are the stored list |
| Search.LibraryPage.OnDelete | src/app/library/page.tsx:53-59 | declined: nothing changes; confirmed: the id is deleted and the items are re-read, so none has the id |
| Search.IsFavoriteFromStorage | src/app/favorites/page.tsx:17-28 | false unless the key holds a parsed array containing the id |
| Search.FavoriteChecksAgree | src/app/favorites/page.tsx:17-28 | the page's test agrees with the favourites store's `isFavorite`, and is false where that gives no list answer |
| Search.FavoritesOnly | src/app/favorites/page.tsx:58-61 | no contract of its own: characterised by `Search.FavoritesSpec` |
| Search.FavoritesFiltered | src/app/favorites/page.tsx:63-83 | no contract of its own: characterised by `Search.FavoritesSpec` |
| Search.FavoritesSpec | src/app/favorites/page.tsx:58-83 | the favourites are the items whose id is stored, in order and with every copy; the search result is a subsequence of them, all of them for a blank query, and keeps a favourite exactly when it matches, with every copy (as a multiset) |
| Users.UserSlot.SetUser | src/lib/user.ts:22-25 | the stored user is replaced |
| Login.DisplayName | src/app/login/page.tsx:19-20 | the trimmed name if not blank; else at most 24 characters of the email before its first '@'; else "Utilisateur"; never empty |
| Login.SubmittedUser | src/app/login/page.tsx:16-28 | no record for a blank email; otherwise the trimmed email, the display name, an empty bio and no photo |
| Login.LongLocalPartIsCut | src/app/login/page.tsx:20 | without a name, a part before '@' longer than 24 characters is cut to its first 24 |
| Login.AtFirstEmailName | src/app/login/page.tsx:20 | an email starting with '@' gives "Utilisateur" |
| Login.LoginPage.OnSubmit | src/app/login/page.tsx:13-31 | a blank email stores nothing; otherwise the submitted record is stored |
| Profile.Updated | src/app/profile/page.tsx:38-43 | id and email kept; the trimmed name, or the loaded one when blank; the trimmed bio; the current photo |
| Profile.SaveUnchangedKeepsUser | src/app/profile/page.tsx:38-43 | saving unchanged, already trimmed fields stores the loaded record again |
| Profile.ProfilePage.Load | src/app/profile/page.tsx:13-19 | the fields start from the stored user, or empty and no photo without one |
| Profile.ProfilePage.OnPhotoChange | src/app/profile/page.tsx:26-31 | a chosen file becomes the photo; no file changes nothing |
| Profile.ProfilePage.OnSave | src/app/profile/page.tsx:33-46 | without a loaded user nothing is stored; otherwise the updated record is |
| SiteHeader.IsActive | src/components/ui/SiteHeader.tsx:8 | the exact path is active; "/" only on "/"; any other link iff the path starts with it |
| SiteHeader.PrefixHighlighting | src/components/ui/SiteHeader.tsx:8 | "/learn" is active on "/learning" and "/learn/basics"; "/" is not active on "/learning" |
| Lists.FilterMultiset | src/lib/storage.ts:71 | `filter` keeps every copy of an element that passes and no copy of one that fails |
| Lists.FilterNoDup | src/app/tasting/new/page.tsx:263-264 | `filter` of a list without repeats has no repeats |
| Lists.Dedup | src/lib/favorites.ts:18-21 | no contract of its own: `Array.from(new Set(xs))`, each value once at its first occurrence; the `Lists.Dedup…` lemmas give its members, order and lack of duplicates |
| Lists.DedupMembers | src/lib/favorites.ts:18 | the set holds only values of the list, and every value of the list |
| Lists.DedupContains | src/lib/favorites.ts:18 | a value is in the set exactly when it is in the list |
| Lists.DedupNoDup | src/lib/favorites.ts:18-21 | the array taken from the set has no duplicates |
| Lists.DedupOfNoDup | src/lib/favorites.ts:18-21 | a list without duplicates comes back from the set unchanged |
| Lists.DedupFirstOccurrenceOrder | src/lib/favorites.ts:18-21 | the set keeps the values in the order of their first occurrence in the list |

## Left out

- Rendering, styles, animations, confetti, toast timers and router navigation are not modelled. They have no effect on the stored data. The toast's message is kept as a field.
- Local storage and JSON are modelled by what parsing yields (`Stored`). The model does not simulate how `JSON.parse` handles arbitrary text.
- Favorites.ReadIds: the source returns any parsed JSON value without checking that it is an array. The model reads a non-array value other than `null` as "no list" and `setFavorite` then writes nothing. In the source the outcome depends on the value: a string is split into characters by `new Set`, an object makes it throw.
- Favorites.IsFavorite: for a stored JSON string the source's `includes` is a substring test, so `isFavorite("b")` is true for the stored text `"abc"`. The model gives no answer for a stored string.
- Favorites.FavoriteStore.Toggle: for a stored JSON string the source toggles through a substring test and `new Set` over the string's characters (`"abc"` with id "b" writes `["a","c"]`). The model writes nothing for a stored string.
- Favorites.FavoriteStore.SetFavorite: without a window, the source's `setFavorite` throws on `localStorage`. The model does not distinguish server-side rendering for favourites.
- Quiz.ReadProgress: the `Boolean(...)`/`Number(...)` coercion of half-formed stored records is not modelled. A stored record is taken as a well-formed progress record. A stored `null` is not modelled for progress: the source reads it as the zero record, which `LoadedProgress` also gives for a missing entry.
- Quiz.QuizSession.Choose: requires the answer index to be one of the current question's answers, because only those are rendered as buttons.
- Quiz.Shuffle: the random draws are a parameter. The model proves the result is a permutation for every valid choice of draws, but not that the draws are uniform.
- Quiz.QuizSession.Next: the completion effect is modelled inside `Next`, as the step where `done` turns true. React's scheduling of effects is not modelled. The vintage page's `seed` is a counter, and its new order is the `draws` argument of `Restart`.
- Percentages and progress bars (`Math.round`) are not modelled, because they need floating point. The wizard's `clampInt` slider clamping is left out for the same reason.
- Login.DisplayName: strings are sequences of Unicode scalar values, while JavaScript strings are UTF-16. `slice(0, 24)` counts code units and can cut a surrogate pair in half; the model keeps the first 24 characters instead. A local part made only of characters from the Basic Multilingual Plane is cut the same way in both.
- `Text.Lower` lower-cases ASCII and the Latin-1 capitals only. Full Unicode case mapping is not modelled. `Text.Trim` strips exactly ECMAScript's whitespace and line-terminator set.
- Ids (`crypto.randomUUID`), timestamps, `window.confirm`, the chosen photo file and object URLs are parameters.
- A missing `photoUrl` and a null one are both `None`. The favourites page's `?? []` defaults for missing grapes and aromas are not modelled, because records are typed here and always carry them.
- Storage events, custom events and the hooks `useFavorites`, `useUser` and `FavoriteButton` are notification plumbing and are not modelled. The favourites page listens for "vininote:favorites-changed", but `setFavorite` dispatches "vininote:favorites".
- `src/lib/user.ts` is modelled only as a slot holding the parsed user record (`Users.UserSlot`). Its event dispatch and `clearUser` are not modelled.
- The guide pages, the learn hubs, signup, settings, the layout, `src/lib/learnProgress.ts`, and the edit and detail pages under `src/app/library/[id]` are not part of this model.
