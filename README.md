# Income and occupation category lookup: a verified model

The lookup page (所得類別及職務類別查詢器) lists two static collections of
withholding-tax categories: ten income categories (所得類別) and sixty-two
occupation categories (執行業務者業別). Every record has a code, a name and the
withholding rates for residents and non-residents. The page filters both
collections by a free-text query, shows one summary card per matching record
and opens a detail dialog for the record clicked.

The model has one module per part of the program:

- `Wrappers`: `Option`, the TypeScript optional field `field?: T`, and `Truthy`, the JavaScript truthiness of an optional string.
- `Text`: the three string operations the search uses, `toLowerCase` (on ASCII
  letters), `trim` (with the ECMAScript white-space and line-terminator code
  points) and `includes`, each with an independent definition and the lemmas
  that relate them.
- `IncomeData` (lib/income-data.ts): the record types as datatypes with
  `Option` fields; `incomeCategories`, `occupationCategories` and
  `feeCategories` as constants holding every record of the source; the facts
  about the dataset.
- `Search` (app/page.tsx): the two filters as pure functions of (query,
  collection), over any collection, with their specification lemmas.
- `SearchScenarios`: the filters applied to the shipped dataset.
- `DetailModal` (components/detail-modal.tsx): the dialog as a function from
  (isOpen, data, type) to the sections it shows, in order.
- `ResultCard` (components/result-card.tsx): the card as a function from its
  props to the lines it shows, and the props the page passes for each record kind.
- `Page` (app/page.tsx): the class `HomePage` with the four `useState` cells as
  fields and the two handlers as methods, together with the count line and
  empty-result message of each tab.

JavaScript truthiness is modelled explicitly. A `field && …` test is false both
for an absent field and for the empty string (`Wrappers.Truthy`). The
`"description" in data` test of the dialog is about key presence, so it holds
whenever `description` is `Some`, even `Some("")`.

Three behaviours of the code that a reader may not expect, all modelled as written:

- Query "9B" on the income tab keeps the 9B record and also the 91 record,
  whose notes contain "【9B】".
- `handleCloseModal` clears the selection and closes the dialog but does not
  reset `selectedType`.
- The occupation filter looks at name, code and category and never at
  `description`.

## Model

| member | source | states |
|---|---|---|
| `IncomeData.IncomeCodesInOrder` | lib/income-data.ts:31-209 | `incomeCategories` has 10 records, with codes 0, 50, 9A, 9B, 51, 53, 91, 92, 93, 95 in that order |
| `IncomeData.IncomeCodesDistinct` | lib/income-data.ts:31-209 | no two income records share a code, so the code can be the list key |
| `IncomeData.AscendingCodesDistinct` | lib/income-data.ts:211-326 | two-digit codes in strictly ascending order are pairwise distinct |
| `IncomeData.OccupationRowsChecked` | lib/income-data.ts:211-326 | every occupation code has two digits, the codes ascend through the list, and every occupation record has resident rate "10%" and non-resident rate "20%" |
| `IncomeData.OccupationCodesDistinct` | lib/income-data.ts:211-326 | `occupationCategories` has 62 records and no two share a code |
| `IncomeData.CodesNonEmpty` | lib/income-data.ts:31-326 | every record of both collections has a non-empty code |
| `IncomeData.CodeSharedAcrossCollections` | lib/income-data.ts:277 | code "50" is both the income record 薪資所得 (line 56) and the occupation 中醫師, so a code alone does not tell the collection |
| `IncomeData.FeeCategoriesMatch9B` | lib/income-data.ts:109-331 | `feeCategories` has exactly the keys "98" and "99"; the 9B record's fee category is "98/99"; no other income record has one |
| `Text.LowerChar` | app/page.tsx:22 | lower-casing turns each ASCII capital into its own small letter (A to a, …, Z to z), leaves every other character alone, never yields a capital and keeps white space white space |
| `Text.Lower` | app/page.tsx:22 | `toLowerCase` keeps the length and lower-cases each character in place |
| `Text.Trim` | app/page.tsx:20 | `trim` returns a slice of its input with only white space around it, and the slice starts and ends with a non-space |
| `Text.TrimEmptyIffAllSpace` | app/page.tsx:20 | a query trims to the empty string exactly when it is all white space |
| `Text.TrimLowerCommute` | app/page.tsx:22 | lower-casing then trimming equals trimming then lower-casing |
| `Text.TrimPadded` | app/page.tsx:22 | white space around a text with non-space ends is exactly what `trim` removes |
| `Text.TrimIdempotent` | app/page.tsx:22 | trimming twice is trimming once |
| `Text.Includes` | app/page.tsx:25-29 | the empty query is included in every text, and an included query is never longer than the text |
| `Text.IncludesIff` | app/page.tsx:25-29 | `includes(q)` holds exactly when `q` occurs at some position of the text |
| `Text.MatchesInside` | app/page.tsx:25-29 | a text containing a piece that lower-cases to the query matches it |
| `Text.NoMatchWithoutFirstChar` | app/page.tsx:25-29 | a query whose first character is not an ASCII lower-case letter does not match a text lacking that character |
| `Text.Normalize` | app/page.tsx:22 | the normalised query is no longer than the raw one, has no ASCII capital, and starts and ends with a non-space when non-empty |
| `Text.MatchesOwnNormalization` | app/page.tsx:25-26 | every text matches its own normalised form, so a record's field is found by searching for that field |
| `Text.NormalizeEmptyIffBlank` | app/page.tsx:20-22 | the lower-cased, trimmed query is empty exactly when `query.trim()` is empty |
| `Text.NormalizeInsensitive` | app/page.tsx:22 | a query, its lower-cased form and its trimmed form normalise alike, and normalising is idempotent |
| `Search.Filter` | app/page.tsx:23-30 | `filter` returns no more elements than its input, and an element is in the result exactly when it is in the input and passes the test |
| `Search.FilterCounts` | app/page.tsx:23-30 | `filter` keeps every copy of an element that passes the test and none of one that fails: each element occurs in the result as often as in the input, or not at all |
| `Search.FilterIsSubsequence` | app/page.tsx:23-30 | a filtered list is a subsequence of its source: order kept, nothing duplicated or inserted |
| `Search.FilterAppend` | app/page.tsx:23-30 | filtering a concatenation filters each part |
| `Search.FilterIdempotent` | app/page.tsx:23-30 | filtering twice with the same test is filtering once |
| `Search.IncomeMatches` | app/page.tsx:24-29 | the empty query matches every income record; a record whose code matches is kept; a record with no description, examples or notes matches exactly by name or code |
| `Search.OccupationMatches` | app/page.tsx:38-41 | the empty query matches every occupation record; a code match keeps a record; a record without a category matches exactly by name or code |
| `Search.FilterIncome` | app/page.tsx:19-31 | the income filter returns no more records than it is given, returns the collection itself for a blank query, and returns only records of the collection |
| `Search.FilterOccupation` | app/page.tsx:33-43 | the same three promises for the occupation filter |
| `Search.SomeExampleMatchesIff` | app/page.tsx:28 | `examples.some(…)` holds exactly when some example matches |
| `Search.FilterIncomeSpec` | app/page.tsx:19-31 | a blank query returns the income collection unchanged; any result is a subsequence of the collection; a record is kept exactly when it is in the collection and, for a non-blank query, matches the normalised query; a kept record keeps all its copies and a dropped one keeps none |
| `Search.FilterOccupationSpec` | app/page.tsx:33-43 | the same promises for the occupation filter, copies included |
| `Search.IncomeMatchesIff` | app/page.tsx:24-29 | an income record matches exactly when the query occurs in its lower-cased name, code, description, one of its examples or its notes; absent fields never match |
| `Search.OccupationMatchesIff` | app/page.tsx:38-41 | an occupation record matches exactly when the query occurs in its lower-cased name, code or category |
| `Search.OccupationIgnoresDescription` | app/page.tsx:38-41 | changing an occupation record's description never changes whether it is kept |
| `Search.FilterIncomeByNormalization` | app/page.tsx:20-22 | two queries with the same lower-cased, trimmed form select the same income records |
| `Search.FilterOccupationByNormalization` | app/page.tsx:34-36 | the same for the occupation records |
| `Search.FiltersInsensitive` | app/page.tsx:19-43 | a query, its lower-cased form and its trimmed form select the same records from either collection |
| `Search.FiltersIdempotent` | app/page.tsx:19-43 | filtering the result of a filter with the same query changes nothing |
| `Search.FilterIncomeFindsOwnCode` | app/page.tsx:26 | searching for any income record's own code, whatever the code looks like, keeps that record |
| `Search.FilterOccupationFindsOwnCode` | app/page.tsx:40 | searching for any occupation record's own code, whatever the code looks like, keeps that record |
| `Search.FilterIncomeKeepsOrder` | app/page.tsx:23-30 | a record kept from a first part of a collection comes before one kept from a second part |
| `Search.FilterIncomeSplit` | app/page.tsx:23-30 | filtering a collection is filtering its two parts on either side of any position, one after the other |
| `Search.FilterIncomeIsSubsequence` | app/page.tsx:19-31 | for any query the income filter returns a subsequence of its collection |
| `Search.FilterOccupationIsSubsequence` | app/page.tsx:33-43 | for any query the occupation filter returns a subsequence of its collection |
| `Search.FilterIncomeKeepsOrderAt` | app/page.tsx:23-30 | the same for the two parts of one collection split at any position |
| `SearchScenarios.EveryIncomeFoundByCode` | app/page.tsx:19-31 | every shipped income record is found by searching for its own code |
| `SearchScenarios.EveryOccupationFoundByCode` | app/page.tsx:33-43 | every shipped occupation record is found by searching for its own code |
| `SearchScenarios.KeptAt` | app/page.tsx:19-31 | a query that normalises like the code of any record of a collection keeps that record |
| `SearchScenarios.Normalize9A` | app/page.tsx:22 | query "9A" normalises to "9a" |
| `SearchScenarios.Normalize9aPadded` | app/page.tsx:22 | query " 9a " normalises to "9a" |
| `SearchScenarios.Query9AKeeps9A` | app/page.tsx:22-26 | every query that normalises to "9a", such as "9a", "9A" or " 9a ", keeps the 9A record by its code |
| `SearchScenarios.Income91MatchesQuery9B` | lib/income-data.ts:164 | the 91 record matches "9b" through its notes "…【9B】…" |
| `SearchScenarios.Query9BKeeps9BThen91` | app/page.tsx:23-30 | every query that normalises to "9b" keeps the 9B record and the 91 record, and lists 9B first |
| `SearchScenarios.QueryInsuredDropsCraftsmen` | app/page.tsx:36-41 | query 投保 drops the occupation records 24 and 25 although their descriptions contain it |
| `SearchScenarios.QueryPhysicianKeepsInternist` | app/page.tsx:36-41 | query 醫師 keeps occupation 30 (內科醫師) and drops 10 (律師) |
| `DetailModal.Render` | components/detail-modal.tsx:16-25 | with no record the dialog renders nothing, whatever `isOpen` is; otherwise the dialog's open flag is `isOpen` and its icon follows the type |
| `DetailModal.IsIncomeData` | components/detail-modal.tsx:20 | `isIncomeData` is false for the occupation type; for the income type it holds exactly when the record has a `description` key |
| `DetailModal.Shown` | components/detail-modal.tsx:27-178 | a section is in the dialog exactly when its own place in the layout shows it |
| `DetailModal.AlwaysShown` | components/detail-modal.tsx:33-34 | name, code and both tax rates are shown for every record |
| `DetailModal.IncomeOnlyNeedsIncomeData` | components/detail-modal.tsx:20 | format code, tax info, health insurance, examples and notes appear only when the type is income and the record has a `description` key |
| `DetailModal.FormatCodeGate` | components/detail-modal.tsx:35-39 | the format code line shows exactly when `isIncomeData` holds and the format code is truthy |
| `DetailModal.CategoryLineGate` | components/detail-modal.tsx:40-44 | the category line shows exactly when `isIncomeData` fails and the category is truthy |
| `DetailModal.DescriptionGate` | components/detail-modal.tsx:50-58 | the description shows exactly when it is truthy, for either kind of record |
| `DetailModal.TaxInfoGate` | components/detail-modal.tsx:89-117 | the tax-info section shows exactly when `isIncomeData` holds and the exemption limit or the threshold is truthy; inside it each block is gated on its own field |
| `DetailModal.HealthInsuranceGate` | components/detail-modal.tsx:119-144 | the health-insurance section is gated on its code alone; the name is printed as read and the fee category only when truthy |
| `DetailModal.ExamplesGate` | components/detail-modal.tsx:146-163 | the examples show exactly when `isIncomeData` holds and the array is present and non-empty, in array order |
| `DetailModal.NotesGate` | components/detail-modal.tsx:165-178 | the notes show exactly when `isIncomeData` holds and the notes are truthy |
| `DetailModal.NoIncomeSectionsForOccupation` | components/detail-modal.tsx:20 | an occupation record, or any record opened from the occupation tab, never shows an income-only section |
| `DetailModal.IncomeRecordsAreIncomeData` | components/detail-modal.tsx:20 | every shipped income record opened from the income tab is income data |
| `ResultCard.IncomeCardProps` | app/page.tsx:96-108 | an income card gets the record's code, name, rates, description, thresholds and health-insurance fields, and no category |
| `ResultCard.OccupationCardProps` | app/page.tsx:137-145 | an occupation card gets code, name, rates and category only |
| `ResultCard.Render` | components/result-card.tsx:24-87 | the card's icon follows its type, and it shows no more lines than the card layout has places |
| `ResultCard.OnCard` | components/result-card.tsx:48-82 | a line is on the card exactly when its own place shows it |
| `ResultCard.CardAlwaysShows` | components/result-card.tsx:48-67 | name, code and both tax-rate badges are on every card |
| `ResultCard.CardCategoryGate` | components/result-card.tsx:50-52 | the category line shows exactly when the category is truthy |
| `ResultCard.CardDescriptionGate` | components/result-card.tsx:59 | the description line shows exactly when the description is truthy |
| `ResultCard.CardExemptionGate` | components/result-card.tsx:69-74 | the exemption line shows exactly when the exemption limit is truthy |
| `ResultCard.CardThresholdGate` | components/result-card.tsx:75-77 | the threshold line shows exactly when the withholding threshold is truthy |
| `ResultCard.CardInsuranceGate` | components/result-card.tsx:78-82 | the health-insurance line needs both a truthy code and a truthy name |
| `ResultCard.OccupationCardLines` | app/page.tsx:137-145 | an occupation card shows only name, code, category and rates, never a description |
| `ResultCard.IncomeCardHasNoCategory` | app/page.tsx:96-108 | an income card never shows a category line |
| `Page.IncomeCountLine` | app/page.tsx:88-90 | "found N" shows exactly when the raw query is a non-empty string, even all white space; N is the filtered length and never exceeds the collection; otherwise the total is shown |
| `Page.OccupationCountLine` | app/page.tsx:129-131 | the same rule for the occupation tab |
| `Page.IncomeEmptyMessageIff` | app/page.tsx:112 | the income "nothing found" message shows exactly when the raw query is non-empty and no record matches, and then the count line says "found 0" |
| `Page.OccupationEmptyMessageIff` | app/page.tsx:149 | the same rule for the occupation tab |
| `Page.WhitespaceQueryCounts` | app/page.tsx:88-112 | a query of white space only says "found" with the full count of each collection, and shows no message over a non-empty collection |
| `Page.WhitespaceQuery` | app/page.tsx:88-131 | on the shipped data a query of white space only says "found 10" and "found 62" and shows no message |
| `Page.DialogFollowsSelection` | app/page.tsx:171 | while the open flag follows the selection, the page renders a dialog exactly when it is open |
| `Page.IncomeTabOf` | app/page.tsx:81-119 | the income tab says "found N", N the number of kept records, exactly when the raw query is non-empty and otherwise the collection's total; its grid is the income cards of the kept records, in order; the message shows exactly when no card shows and the query is non-empty, and then the line says "found 0" |
| `Page.OccupationTabOf` | app/page.tsx:122-156 | the same count, grid and message rules for the occupation tab |
| `Page.IncomeCards` | app/page.tsx:95-109 | the income grid has one card per record, the card of that record, in order, each with the income icon |
| `Page.OccupationCards` | app/page.tsx:135-147 | the occupation grid has one card per record, in order, each with the occupation icon |
| `Page.HomePage.constructor` | app/page.tsx:13-16 | initial state: empty query, nothing selected, type income, dialog closed |
| `Page.HomePage.SetSearchQuery` | app/page.tsx:71 | a new query from the search bar changes only the query |
| `Page.HomePage.HandleItemClick` | app/page.tsx:45-49 | selects the record and its type and opens the dialog from any state, replacing an open selection; the dialog then shows that record |
| `Page.HomePage.HandleCloseModal` | app/page.tsx:51-54 | closes the dialog and clears the selection, keeps the type; the page then renders no dialog |
| `Page.HomePage.ClickIncomeCard` | app/page.tsx:105 | clicking an income card selects it with type income |
| `Page.HomePage.ClickOccupationCard` | app/page.tsx:143 | clicking an occupation card selects it with type occupation |
| `Page.HomePage.FilteredIncome` | app/page.tsx:19-31 | the page's income list is the income filter applied to the current query and the shipped income records (so `FilterIncomeSpec` gives its keep rule): a subsequence of them, and all of them for a blank query |
| `Page.HomePage.FilteredOccupation` | app/page.tsx:33-43 | the page's occupation list is the occupation filter applied to the current query and the shipped occupation records: a subsequence of them, and all of them for a blank query |
| `Page.HomePage.IncomeTab` | app/page.tsx:81-119 | the page's income tab is the income tab over the shipped income records and the current query, so `IncomeTabOf` fixes its count line, grid and message |
| `Page.IncomeTabShowsList` | app/page.tsx:94-110 | the income grid shows the cards of the page's income list, in order |
| `Page.IncomeTabMessage` | app/page.tsx:112 | the income message shows exactly when the page's income list is empty and the query is not |
| `Page.HomePage.OccupationTab` | app/page.tsx:122-156 | the page's occupation tab is the occupation tab over the shipped occupation records and the current query |
| `Page.OccupationTabShowsList` | app/page.tsx:135-147 | the occupation grid shows the cards of the page's occupation list, in order |
| `Page.OccupationTabMessage` | app/page.tsx:149 | the occupation message shows exactly when the page's occupation list is empty and the query is not |
| `Page.HomePage.Modal` | app/page.tsx:171 | the page renders a dialog exactly while a record is selected, so, in a valid state, exactly while the dialog is open; the dialog's open flag and icon are the page's, and its sections are those of the selected record opened from the selected type, whatever happened since the click |
| `Page.SelectThenClose` | app/page.tsx:45-54 | select then close leaves nothing selected and the dialog closed, but the type stays that of the selection |
| `Page.SelectIncome50ThenOccupation30` | app/page.tsx:45-49 | clicking income 50 and then occupation 30 shows occupation 30 as seen from the occupation tab, with no income-only section |

## Left out

- `SearchScenarios.Query9BKeeps9BThen91`: proves that the 9B and 91 records are kept, in that order, but not that the other eight income records are dropped. That would need character-by-character checks over long literal texts, which the verifier does not decide within its resource limit.
- `SearchScenarios`: no lemma proves that the query "xyz123notfound" keeps no record of either collection and shows both "nothing found" messages. Showing that no record matches needs character-absence checks over long literal texts, which the verifier does not decide within its resource limit. The general rule it instantiates is `Page.IncomeEmptyMessageIff` / `Page.OccupationEmptyMessageIff`: the message shows exactly when no record of the collection matches the normalised query.
- `Search.Filter`: its own contract gives membership and the length bound only. That every copy of a passing element is kept, and no copy of a failing one, is stated by the separate lemma `Search.FilterCounts` (and carried into `FilterIncomeSpec` / `FilterOccupationSpec`). As a postcondition of `Filter` itself, the multiset clause makes every proof that mentions `Filter` reason about multisets, and the concatenation lemma `FilterAppend` then exceeds the verifier's resource limit.
- Case folding and white space follow the ASCII letters and the ECMAScript white-space set. The full Unicode case mapping of `toLowerCase` is not modelled. The dataset's texts are CJK and ASCII, which have no other case pairs.
- JSX markup, CSS classes, icons, the dialog, badge, card, tab and separator library components, and the fixed footnote of the detail dialog (components/detail-modal.tsx:182-186) are presentation only.
- React's `useState` re-rendering and `useMemo` caching become fields and functions recomputed from them (`HomePage.FilteredIncome`, `HomePage.IncomeTab`, `HomePage.Modal`).
- The `onClose` and `onClick` callbacks are not values in the model. The dialog's close event is `HandleCloseModal` and a card's click is `ClickIncomeCard` / `ClickOccupationCard`.
- components/search-bar.tsx forwards its input to `onSearch` and components/category-tabs.tsx is tab markup; both are glue, modelled only as `SetSearchQuery`.
- `detailedIncomeItems` (lib/income-data.ts:333-348) is read by no code of the program, so it is not modelled.
