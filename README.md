# A verified model of the DRAMP front end's logic

DRAMP is a single-page front end for reporting housing discrimination and
browsing rental listings. Almost all of it is layout. This project models
its four pieces of real logic in Dafny and proves what each one promises:

- **The saved-listings store** (`saved_listings.dfy`, module `SavedListings`).
  It is an ordered collection of listings keyed by id. Adding is idempotent,
  removing works by id, and there is a membership query. The class
  `SavedListingsStore` holds the collection as a field. Its methods are
  proved against the updater functions `AddedTo` and `RemovedFrom`, and
  lemmas show that ids stay unique.
- **The Browse page** (`browse.dfy`, module `Browse`). It filters the listing
  fixture by a case-insensitive search, a price bucket and a property type,
  then sorts the result in place on an array by one of four keys. It also
  chooses the risk badge from a report count and toggles a listing in and
  out of the store.
- **The report wizard** (`report.dfy`, module `Report`). It has four steps.
  "Next" is gated by each step's required fields, and the step is clamped
  to 1..4. The form's fields and evidence links can be edited, and a
  submission resets the form. `WizardState`, `Apply` and `Run` describe the
  page as values, so lemmas can cover any sequence of user actions. The
  class `ReportWizard` holds `currentStep` and `reportData`, and each of its
  methods is proved to do what `Apply` says.
- **The FAQ search** (`faq.dfy`, module `Faq`). It narrows each category's
  questions to those matching the term and drops the categories left empty.
  It also counts the questions before and after the search.

Shared pieces:

- `text.dfy` holds lowercasing, substring search and JavaScript's `trim`.
- `seqs.dfy` holds `filter` and its order and multiplicity facts.
- `listings.dfy` holds the Listing record and the four-listing fixture.

Units:

- Prices are whole dollars.
- `hostRating` is in tenths of a star (4.8 is 48).
- `createdAt` is the ISO date as a count of days since 1970-01-01. Only its
  order matters to the sort.

The risk badge follows the code: every non-zero count up to 2 gets the
warning badge, negative counts included.

## Model

| member | source | states |
|---|---|---|
| `Listings.HasId` | src/contexts/SavedListingsContext.tsx:70-72 | `some(l => l.id === id)` holds exactly when some position of the collection carries that id |
| `Listings.MockListings` | src/pages/Browse.tsx:33-98 | the Browse fixture has four listings with pairwise distinct ids |
| `SavedListings.AddedTo` | src/contexts/SavedListingsContext.tsx:57-64 | after adding, the id is present; the old collection is a prefix of the new one; the length grows by one exactly when the id was absent; unique ids stay unique |
| `SavedListings.RemovedFrom` | src/contexts/SavedListingsContext.tsx:66-68 | after removing, the id is absent; every listing with another id is kept, nothing new appears, the order is kept (subsequence), and unique ids stay unique |
| `SavedListings.AddSavedIsNoOp` | src/contexts/SavedListingsContext.tsx:59-61 | adding an id that is already saved leaves the collection exactly unchanged |
| `SavedListings.AddUnsavedAppends` | src/contexts/SavedListingsContext.tsx:62 | adding an absent id appends the listing at the end |
| `SavedListings.RemoveUnsavedIsNoOp` | src/contexts/SavedListingsContext.tsx:67 | removing an id that is not saved changes nothing |
| `SavedListings.RemoveDropsOnePosition` | src/contexts/SavedListingsContext.tsx:66-68 | with unique ids, removing the id at position k yields exactly the collection without position k |
| `SavedListings.AddThenRemoveRestores` | src/contexts/SavedListingsContext.tsx:57-68 | adding an unsaved listing and then removing its id restores the original collection |
| `SavedListings.FilterKeepsUniqueIds` | src/contexts/SavedListingsContext.tsx:67 | filtering a collection with unique ids keeps them unique |
| `SavedListings.SavedListingsStore.constructor` | src/contexts/SavedListingsContext.tsx:42 | the store starts empty, which satisfies the unique-id invariant |
| `SavedListings.SavedListingsStore.IsListingSaved` | src/contexts/SavedListingsContext.tsx:70-72 | true exactly when some saved listing has the id |
| `SavedListings.SavedListingsStore.AddToSaved` | src/contexts/SavedListingsContext.tsx:57-64 | the new collection is `AddedTo` of the old one: unchanged if the id was saved, old plus the listing otherwise; the id is then saved; unique ids preserved |
| `SavedListings.SavedListingsStore.RemoveFromSaved` | src/contexts/SavedListingsContext.tsx:66-68 | the new collection is `RemovedFrom` of the old one: the id is no longer saved, every other id keeps its membership, the order is kept, unique ids preserved |
| `Text.LowerChar` | src/pages/Browse.tsx:113-114 | the result is never an upper-case ASCII letter; upper-case letters move by 32 code points, everything else is kept |
| `Text.ToLower` | src/pages/Browse.tsx:113-114 | same length, each character lowered independently |
| `Text.ToLowerIdempotent` | src/pages/Browse.tsx:113-114 | lowering twice equals lowering once |
| `Text.Includes` | src/pages/Browse.tsx:113-114 | `String.prototype.includes`: some offset at which the second string occurs in the first; `IncludesEmpty` states its empty-string case |
| `Text.IncludesEmpty` | src/pages/Browse.tsx:113-114 | every string includes the empty string |
| `Text.TrimStart` | src/pages/Report.tsx:108 | the result is a suffix of the input that does not start with whitespace, and everything cut off was whitespace |
| `Text.TrimEnd` | src/pages/Report.tsx:108 | the result is a prefix of the input that does not end with whitespace, and everything cut off was whitespace |
| `Text.Trim` | src/pages/Report.tsx:108 | `trim()`: `TrimEnd` after `TrimStart`; `TrimEmptyIffBlank` states when it gives the empty string |
| `Text.TrimEmptyIffBlank` | src/pages/Report.tsx:108 | `trim()` gives the empty string exactly when every character is JavaScript whitespace |
| `Seqs.Filter` | src/pages/Browse.tsx:112-125 | `filter` keeps only elements that pass and loses none that pass; it never lengthens |
| `Seqs.FilterMultiplicity` | src/pages/Browse.tsx:112-125 | a passing element occurs as often as in the input; a failing one does not occur |
| `Seqs.FilterIsSubsequence` | src/pages/FAQ.tsx:138-142 | `filter` never reorders |
| `Seqs.FilterAppend` | src/contexts/SavedListingsContext.tsx:67 | filtering a concatenation is concatenating the filtered parts |
| `Seqs.FilterKeepsAll` | src/pages/Browse.tsx:112-125 | when every element passes, `filter` returns the input unchanged |
| `Seqs.FilterNoDuplicates` | src/pages/Browse.tsx:112-125 | filtering a duplicate-free sequence leaves no duplicates |
| `Browse.MatchesSearch` | src/pages/Browse.tsx:113-114 | the case-insensitive search on title or location; `SearchIgnoresCase`, `SearchIgnoresListingCase` and `EmptySearchMatchesAll` state its properties |
| `Browse.MatchesPrice` | src/pages/Browse.tsx:116-120 | the price-range test; `PriceBucketsPartition` states that the "any" values accept every price and each price lies in exactly one bucket |
| `Browse.MatchesType` | src/pages/Browse.tsx:122 | the property-type test: the two "any" values, otherwise an exact match; `DefaultFiltersKeepAll` uses its "any" case |
| `Browse.Matches` | src/pages/Browse.tsx:124 | the conjunction of the three tests; `FilterListings` states the filter's result in its terms |
| `Browse.Criteria` | src/pages/Browse.tsx:112-125 | the callback handed to `filter`; `FilterListings` and `DefaultFiltersKeepAll` state what filtering by it gives |
| `Browse.FilterListings` | src/pages/Browse.tsx:112-125 | each listing occurs in the result as often as in the input if it satisfies search, price and type together, and not at all otherwise; input order is kept |
| `Browse.FilterListingsNoDuplicates` | src/pages/Browse.tsx:112-125 | filtering a duplicate-free list of listings leaves no duplicates |
| `Browse.SearchIgnoresCase` | src/pages/Browse.tsx:113-114 | a search term matches exactly when its lowercased form matches |
| `Browse.SearchIgnoresListingCase` | src/pages/Browse.tsx:113-114 | lowercasing a listing's title and location does not change whether it matches |
| `Browse.EmptySearchMatchesAll` | src/pages/Browse.tsx:113-114 | the empty term matches every listing |
| `Browse.PriceBucketsPartition` | src/pages/Browse.tsx:116-120 | `'all-prices'` and `''` accept every price; each price falls in exactly one of the four buckets |
| `Browse.DefaultFiltersKeepAll` | src/pages/Browse.tsx:101-125 | with the initial filter values, the filter returns the input unchanged |
| `Browse.ParseSortBy` | src/pages/Browse.tsx:129-139 | the three named keys are recognised exactly; every other value, `'newest'` included, sorts by date |
| `Browse.SortListings` | src/pages/Browse.tsx:128-140 | the array, sorted in place, is ordered by the comparator's key and is a permutation of the original |
| `Browse.SortKey` | src/pages/Browse.tsx:128-140 | the key each comparator subtracts; `FilteredAndSortedListings` states the resulting order for each `sortBy` value |
| `Browse.InsertInto` | src/pages/Browse.tsx:128-140 | one insertion step extends the sorted prefix by one element, leaves the elements after it in place, and keeps the array a permutation |
| `Browse.FilteredAndSortedListings` | src/pages/Browse.tsx:111-143 | the result holds exactly the matching listings, each with its input multiplicity; `price-low` gives non-decreasing price, `price-high` non-increasing price, `rating` non-increasing rating, any other key non-increasing date |
| `Browse.FixtureResultHasNoDuplicates` | src/pages/Browse.tsx:33-125 | on the fixture, the filtered and sorted result has no duplicates |
| `Browse.SortedPermutationsShareHead` | src/pages/Browse.tsx:128-140 | two orderings of the same listings, both sorted by a key no two of them share, begin with the same listing |
| `Browse.SortedPermutationUnique` | src/pages/Browse.tsx:128-140 | when no two listings share the sort key, the sorted result is determined by the input: any two sorted permutations are equal |
| `Browse.StrictStepsSortDistinct` | src/pages/Browse.tsx:128-140 | keys that strictly increase from each listing to the next are sorted and pairwise distinct |
| `Browse.FixtureNewestFirstIsSorted` | src/pages/Browse.tsx:33-98 | the fixture listed as 3, 1, 2, 4 is in strictly decreasing order of creation date |
| `Browse.FixtureNewestFirstIsPermutation` | src/pages/Browse.tsx:33-98 | that listing holds exactly the fixture's four listings |
| `Browse.DefaultFiltersKeepMultiset` | src/pages/Browse.tsx:101-125 | with the initial filter values, the filtered result holds exactly the input's listings |
| `Browse.DefaultViewOfFixture` | src/pages/Browse.tsx:101-143 | with the page's initial state (empty search, all prices, all types, newest first), the fixture is shown as listings 3, 1, 2, 4 |
| `Browse.NatToString` | src/pages/Browse.tsx:154 | a count prints as at least one decimal digit, with no leading zero |
| `Browse.NatToStringRoundTrip` | src/pages/Browse.tsx:154 | reading back the printed digits gives the count |
| `Browse.IntToString` | src/pages/Browse.tsx:154-159 | a count prints as its decimal digits, with no leading zero, which read back as the count; a negative count prints as `-` followed by the digits of its absolute value |
| `Browse.GetRiskBadge` | src/pages/Browse.tsx:145-162 | count 0 gives "Verified Safe"; any other count up to 2 gives a warning; more than 2 gives "High Risk"; a warning's text is exactly the count, then " Report", then "s" exactly when the count exceeds 1; a destructive badge's text is "High Risk (", the count, then " Reports)" |
| `Browse.RiskLabelNamesCount` | src/pages/Browse.tsx:151-160 | a positive count's badge text contains the count's digits at the expected place |
| `Browse.Toggled` | src/pages/Browse.tsx:164-178 | what `handleSaveListing` does to the collection; `ToggleFlipsMembership`, `ToggleTwiceRestoresMembership` and `ToggleTwiceFromUnsaved` state its properties |
| `Browse.ToggleFlipsMembership` | src/pages/Browse.tsx:164-178 | the toggle flips the listing's id in or out and leaves every other id's membership unchanged |
| `Browse.ToggleTwiceRestoresMembership` | src/pages/Browse.tsx:164-178 | toggling twice restores every id's membership |
| `Browse.ToggleTwiceFromUnsaved` | src/pages/Browse.tsx:164-178 | toggling an unsaved listing twice restores the collection exactly |
| `Browse.HandleSaveListing` | src/pages/Browse.tsx:164-178 | the store's collection becomes the toggled one, the listing's saved flag is negated, and the unique-id invariant is kept |
| `Report.InitialReportData` | src/pages/Report.tsx:38-49 | the initial form has every text field empty and exactly one empty evidence link |
| `Report.StepOf` | src/pages/Report.tsx:169-340 | every text field is edited on step 1, 2 or 3 |
| `Report.WithField` | src/pages/Report.tsx:76-78 | `updateReportData` sets the named field and changes no other field and no link |
| `Report.AppendLink` | src/pages/Report.tsx:80-85 | one empty link is added at the end; existing links are unchanged |
| `Report.ReplaceLink` | src/pages/Report.tsx:87-92 | for an in-range index only that position is replaced; any other index changes nothing |
| `Report.RemoveLink` | src/pages/Report.tsx:94-99 | for an in-range index exactly that position is dropped, and the rest keep their order; any other index changes nothing |
| `Report.RequiredFieldsOfSteps12` | src/pages/Report.tsx:101-106 | steps 1 and 2 validate exactly when every field shown on that step is non-empty |
| `Report.EvidenceStepValidIff` | src/pages/Report.tsx:107-108 | step 3 validates exactly when some link has a non-whitespace character or contact information is given |
| `Report.InitialFormBlocksEarlySteps` | src/pages/Report.tsx:38-49 | the blank form cannot get past steps 1, 2 or 3 |
| `Report.ValidateStep` | src/pages/Report.tsx:101-112 | `validateStep()` for a given step; `RequiredFieldsOfSteps12` and `EvidenceStepValidIff` state when each step validates, and any other step always validates |
| `Report.Apply` | src/pages/Report.tsx:76-128 | one action's effect on the page's state: it keeps the step in 1..4, and a "Next" on a step that does not validate changes nothing |
| `Report.Run` | src/pages/Report.tsx:76-156 | a sequence of actions applied first to last; `RunStaysInBounds` and `OfferedRunKeepsALink` state its properties |
| `Report.Offered` | src/pages/Report.tsx:169-458 | the actions the page's buttons and fields offer in a state; `OfferedRunKeepsALink` states what that restriction guarantees |
| `Report.NextIsGated` | src/pages/Report.tsx:114-124 | "Next" moves exactly one step forward when the current step validates and is not the last; otherwise the state is unchanged; the data never changes |
| `Report.PrevIsClamped` | src/pages/Report.tsx:126-128 | "Previous" moves one step back, but never below step 1, and leaves the data alone |
| `Report.RunStaysInBounds` | src/pages/Report.tsx:34-128 | from a step in 1..4, any sequence of actions stays in 1..4 |
| `Report.StepMovesOnlyByNavigation` | src/pages/Report.tsx:76-128 | only a validated "Next" moves forward; navigation never changes the data; edits never change the step |
| `Report.OfferedRunKeepsALink` | src/pages/Report.tsx:302-330 | using only the buttons the page shows, at least one evidence-link box always remains |
| `Report.SubmitResets` | src/pages/Report.tsx:143-156 | after a submission the step is 1, every field is empty, and the links are `['']` |
| `Report.ReportWizard.constructor` | src/pages/Report.tsx:34-49 | the page starts at step 1 with the initial form |
| `Report.ReportWizard.NextStep` | src/pages/Report.tsx:114-124 | the new state is `Apply(old, Next)`, and the step stays in 1..4 |
| `Report.ReportWizard.PrevStep` | src/pages/Report.tsx:126-128 | the new state is `Apply(old, Prev)`, and the step stays in 1..4 |
| `Report.ReportWizard.UpdateReportData` | src/pages/Report.tsx:76-78 | only the named field changes, to the given value |
| `Report.ReportWizard.AddEvidenceLink` | src/pages/Report.tsx:80-85 | the links become the old links plus one empty link |
| `Report.ReportWizard.UpdateEvidenceLink` | src/pages/Report.tsx:87-92 | the length is kept and every position other than the index is unchanged |
| `Report.ReportWizard.RemoveEvidenceLink` | src/pages/Report.tsx:94-99 | for an in-range index the links lose exactly that position |
| `Report.ReportWizard.ResetAfterSubmit` | src/pages/Report.tsx:143-156 | the page returns to its initial state |
| `Faq.Narrowed` | src/pages/FAQ.tsx:136-141 | a narrowed category keeps its other fields; each matching question occurs as often as in the category and no other question occurs; a question is kept exactly when it is in the category and matches; order is kept |
| `Faq.NarrowedAll` | src/pages/FAQ.tsx:136-141 | the `map` keeps the number of categories; each keeps its id, title, icon and colour, and its questions become its matching questions with their multiplicities, in their order |
| `Faq.QuestionMatches` | src/pages/FAQ.tsx:139-140 | the question-or-answer test of the inner `filter`; `ResultOnlyMatches` and `EmptyTermKeepsAll` state what it admits |
| `Faq.FilteredCategories` | src/pages/FAQ.tsx:136-142 | `filteredCategories`; its properties are stated by `ResultOnlyMatches`, `ResultKeepsEveryMatch`, `ResultHasNoEmptyCategory` and `ResultKeepsOrder` |
| `Faq.QuestionCount` | src/pages/FAQ.tsx:144-145 | the `reduce` behind `totalQuestions` and `filteredQuestions`; `CountAppend`, `DroppingEmptyKeepsCount` and `FilteredCountBounded` state its properties |
| `Faq.ResultOnlyMatches` | src/pages/FAQ.tsx:136-142 | every question shown matches the term and belongs to the source category it is shown under |
| `Faq.ResultKeepsEveryMatch` | src/pages/FAQ.tsx:136-142 | a category with a matching question is shown, narrowed, and contains that question |
| `Faq.ResultHasNoEmptyCategory` | src/pages/FAQ.tsx:142 | every category shown has at least one question |
| `Faq.ResultKeepsOrder` | src/pages/FAQ.tsx:136-142 | the categories shown are a subsequence of the narrowed categories |
| `Faq.EmptyTermKeepsAll` | src/pages/FAQ.tsx:136-142 | the empty term keeps every question, and every category when none is empty |
| `Faq.DroppingEmptyKeepsCount` | src/pages/FAQ.tsx:142-145 | dropping the empty categories does not change the question count |
| `Faq.CountAppend` | src/pages/FAQ.tsx:144-145 | the count of concatenated category lists is the sum of their counts |
| `Faq.NarrowingCountsFewer` | src/pages/FAQ.tsx:136-145 | narrowing never increases the count |
| `Faq.FilteredCountBounded` | src/pages/FAQ.tsx:144-145 | `filteredQuestions` never exceeds `totalQuestions`, and equals it for the empty term |

## Left out

- Persistence of the saved collection: `localStorage` and JSON (src/contexts/SavedListingsContext.tsx:44-55). The store is in-memory only, so the round trip of the stored payload is not modelled. A store hydrated from a payload with repeated ids would start outside the unique-id invariant.
- React context, hooks and `useMemo` plumbing. JSX rendering, icons, badges' styling and toasts.
- The timer and the `isSubmitting` flag of `handleSubmit` (src/pages/Report.tsx:130-167). Only the reset's end state is modelled (`ResetAfterSubmit`). Its catch branch cannot be reached, because the simulated call always resolves.
- The progress percentage (src/pages/Report.tsx:52) and the review screen's count of filled links (src/pages/Report.tsx:375-377). They are display only.
- `updateReportData` with the `evidenceLinks` key or a non-string value. The page never calls it that way, so `Field` covers only the text fields.
- `Text.LowerChar`: `toLowerCase` is modelled for ASCII letters only. Unicode case mapping is not modelled.
- Floating-point values: prices and report counts are integers; `hostRating` is in integer tenths; `new Date(createdAt)` is replaced by a day count. Invalid dates (NaN) are not modelled.
- `Browse.SortListings`: `Array.prototype.sort` is modelled by an insertion sort. Only the ordering and permutation of the result are specified. The relative order of listings with equal keys (stability) is not.
- The FAQ fixture (src/pages/FAQ.tsx:13-134): its text is not reproduced. The FAQ lemmas hold for any list of categories.
- src/pages/SavedListings.tsx, Dashboard.tsx, Contact.tsx, Index.tsx, About.tsx, SafeListings.tsx, the layout components and src/components/ContactHostModal.tsx. They are presentation over static data; SavedListings.tsx repeats Browse's badge logic.
