# Orçamentos JP: the budget engine and its editors, in Dafny

Orçamentos JP is a small single-page application for a furniture workshop. It
has a catalogue of parts, each with a purchase price and a sale price. Projects
are lists of `(part, quantity)` lines. Every screen turns such a list into a
budget: total cost, total sale, profit and margin.

This project models the logic under the screens:

- the budget rule, which four components write out separately;
- the bill-of-materials editor (BuilderView);
- the catalogue and project stores (App);
- the new-part form and the search filter (CatalogView);
- the assistant's part selection (AIView);
- the structure and file name of the CSV export (Dashboard);
- the record types and the starting catalogue.

## Modules

| module | file | what it holds |
|---|---|---|
| `Types` | `types.dfy` | `Part`, `ProjectItem`, `Project`, `View`, `Option` |
| `Constants` | `constants.dfy` | the starting catalogue, the category list, worked examples |
| `Collections` | `collections.dfy` | `Array.prototype.filter` and "no key twice", with their lemmas |
| `Budget` | `budget.dfy` | the one shared budget rule (`ComputeBudget`) and its algebra |
| `App` | `app.dfy` | `AppState`, the class holding `parts`, `projects` and `activeView` |
| `CatalogView` | `catalogview.dfy` | the per-part margin, the search, and the `CatalogForm` class |
| `AIView` | `aiview.dfy` | `calculateIdeaBudget`, the toggle set, and the `AiSession` class |
| `BuilderView` | `builderview.dfy` | the line operations, `finance` with its category breakdown, and the `Builder` class |
| `Dashboard` | `dashboard.dfy` | `getProjectTotals`, the portfolio sums, and the CSV report |

### How the pieces fit

**One rule, many call sites.** `Budget.ComputeBudget` is defined once. It
looks up each line's part with the first-match rule of `Array.find`, and a line
whose part is missing counts for nothing. It sums cost and sale, takes profit
as their difference, and guards the margin by a positive sale.

The call sites are imperative methods whose `ensures` ties the result to that
function:

- `AIView.CalculateIdeaBudget`;
- `BuilderView.Finance`;
- `Dashboard.GetProjectTotals` and `Dashboard.ExportToCsv`.

The per-part margin, `CatalogView.PartMargin`, is proved to be the margin of a
one-line list of quantity 1.

**State.** The mutable state of each component is a class:

- `App.AppState`;
- `BuilderView.Builder`;
- `CatalogView.CatalogForm`;
- `AIView.AiSession`.

Their methods state the whole new state. Where the source keeps an invariant,
they keep it too: the builder's `Valid()` says no part id has two lines, and
the assistant's says no selected id occurs twice. Each operation on a list is
also a function, and the lemmas about it live beside it.

**Left abstract.** The outside world enters as parameters:

- the assistant's answers;
- saved storage contents;
- fresh ids and the clock;
- the user's confirmation;
- number and date formatting.

## Model

| member | source | states |
|---|---|---|
| Budget.AddLineTotals | AIView.tsx:121-127 | one line adds its cost and its sale amount to the running totals, and nothing when its part is missing (the same body as Dashboard.tsx:16-22) |
| AIView.CalculateIdeaBudget | AIView.tsx:117-133 | the idea's budget is exactly the shared engine's budget of its suggested lines |
| AIView.AsItems | AIView.tsx:121 | the suggested lines become exactly as many budget lines |
| Budget.TotalSnoc | AIView.tsx:121-127 | appending a line raises a total by exactly that line's amount |
| Budget.TotalStep | AIView.tsx:121-127 | one loop step over the prefix adds the next line's amount |
| Budget.TotalConcat | AIView.tsx:121-127 | totals are additive over concatenated line lists |
| Budget.TotalRemoveAt | AIView.tsx:121-127 | taking out the line at any position lowers the total by exactly its amount |
| Budget.TotalPermutation | AIView.tsx:121-127 | a total does not depend on the order of the lines |
| Budget.DanglingLineTotal | AIView.tsx:122-126 | a line whose id matches no part can be dropped without changing a total |
| Budget.DanglingLineIgnored | AIView.tsx:122-126 | dropping a line whose part is missing leaves the whole budget unchanged |
| Budget.BudgetOrderIndependent | AIView.tsx:121-130 | any reordering of the lines gives the same budget |
| Budget.BudgetAdditive | AIView.tsx:121-129 | cost, sale and profit of two concatenated lists are the sums of theirs |
| Budget.EmptyBudget | AIView.tsx:118-119 | the empty list gives (0, 0, 0, 0) |
| Budget.SingleLineBudget | AIView.tsx:122-126 | one resolvable line costs purchasePrice×quantity and sells for price×quantity |
| Budget.BudgetFromTotals | AIView.tsx:129-130 | with the two totals in hand, profit is sale minus cost and the margin is the guarded percentage |
| Budget.Margin | AIView.tsx:130 | 0 without a positive sale; otherwise the percentage that, applied to the sale, gives the profit (the same guard as BuilderView.tsx:80 and Dashboard.tsx:33) |
| Budget.ComputeBudget | AIView.tsx:117-133 | profit is sale minus cost and the margin is 0 without a positive sale; `BudgetOrderIndependent`, `BudgetAdditive`, `DanglingLineIgnored` and the call sites' methods state the rest (BuilderView.tsx:60-80 and Dashboard.tsx:30-34 compute the same) |
| Budget.Total | AIView.tsx:121-127 | no contract of its own: `TotalSnoc`, `TotalConcat`, `TotalRemoveAt` and `TotalPermutation` |
| Budget.LineAmount | AIView.tsx:122-126 | no contract of its own: `DanglingLineTotal`, `AddLineTotals` and `LineAmountWithout` |
| Budget.FindPart | AIView.tsx:122 | a found part is in the catalogue and carries the id; `FirstIndexOf` states that it is the first such part |
| Budget.MarginMeaning | AIView.tsx:130 | the margin is 0 without a positive sale; otherwise margin×sale = profit×100; it is negative (or positive) exactly when there is a sale and the profit is |
| Budget.ZeroSaleMargin | AIView.tsx:130 | when every resolvable part sells for 0, the sale total and the margin are 0 (no division) |
| Budget.FreePartsSellForNothing | AIView.tsx:125 | lines of parts that sell for 0 add nothing to the sale total |
| Budget.FirstIndexOf | AIView.tsx:122 | the index returned holds the id and no earlier part does; none is returned exactly when no part has the id |
| Budget.FindPartCons | AIView.tsx:122 | lookup in a catalogue starting with `p` returns `p` when ids match, else looks further |
| Budget.FindPartWithout | App.tsx:36-38 | after deleting an id, that id no longer resolves and every other id resolves as before |
| Budget.PartsWithout | App.tsx:37 | the kept parts are exactly those whose id differs |
| Budget.LinesWithout | BuilderView.tsx:44 | the kept lines are exactly those for another part |
| Budget.LineAmountWithout | App.tsx:36-38 | after deleting a part, its lines are worth 0 and every other line is worth what it was |
| Budget.DeletedPartDropsItsLines | App.tsx:36-38 | deleting a part changes a project's totals exactly as removing its lines would: the lines dangle |
| AIView.ToggleFlipsSelection | AIView.tsx:32-38 | toggling makes the part's id selected exactly when it was not |
| AIView.ToggleKeepsIdsDistinct | AIView.tsx:32-38 | toggling keeps the selected ids pairwise distinct |
| AIView.Toggled | AIView.tsx:33-37 | no contract of its own: `ToggleFlipsSelection`, `ToggleKeepsIdsDistinct` and `ToggleTwiceRestores` |
| AIView.ToggleTwiceRestores | AIView.tsx:33-37 | toggling an unselected part twice restores the selection |
| AIView.SelectedWeightedBudget | AIView.tsx:135-138 | a budget exists exactly when an index is chosen and names an idea, and it is that idea's budget |
| AIView.AiSession.TogglePart | AIView.tsx:32-38 | the selection becomes the toggled selection and stays free of repeated ids; nothing else changes |
| AIView.AiSession.GenerateIdeas | AIView.tsx:40-46 | with nothing selected nothing changes; otherwise image, index and ideas are cleared and the answer (or nothing) is stored |
| AIView.AiSession.GenerateVisual | AIView.tsx:85-113 | the chosen index is set, loading ends, and the image is replaced only when one came back |
| AIView.AiSession.constructor | AIView.tsx:26-30 | empty selection, no ideas, no index, no image, not loading |
| BuilderView.Round2 | BuilderView.tsx:36 | rounding gives a whole number of hundredths, moves a value by at most half a cent and keeps values of at least 0.1 at least 0.1 |
| BuilderView.UpdateLines | BuilderView.tsx:33-38 | the map keeps the length; matching lines get the new quantity, others are untouched |
| BuilderView.UpdateLinesKeepsUnique | BuilderView.tsx:33-38 | changing quantities never creates a second line for a part |
| BuilderView.WithItemAdded | BuilderView.tsx:22-30 | afterwards the part has a line; a present part gains one unit on its line with length and other lines unchanged; an absent one gets `(id, 1)` appended |
| BuilderView.AddItemKeepsUnique | BuilderView.tsx:22-30 | addItem keeps part ids unique |
| BuilderView.AddItemKeepsPositive | BuilderView.tsx:22-30 | addItem keeps all quantities positive if they were |
| BuilderView.AddItemAddsOneUnit | BuilderView.tsx:22-30 | addItem raises the cost and sale totals by exactly one unit price of the part |
| BuilderView.OneMoreOnLine | BuilderView.tsx:26 | one more unit on the part's only line adds one unit price to the total |
| BuilderView.TotalReplaceAt | BuilderView.tsx:26 | lists differing at one position differ in total only by those two lines |
| BuilderView.LineAmountOneMore | BuilderView.tsx:26 | one more unit on a resolvable line adds one unit price |
| BuilderView.OnlyLineOf | BuilderView.tsx:24 | with unique ids, line `k` is the only one for its part |
| BuilderView.Stepped | BuilderView.tsx:35-36 | the stepped quantity is never below 0.1 |
| BuilderView.UpdateLinesMembers | BuilderView.tsx:33-38 | stated on membership: target lines carry the new quantity, others stay, nothing new appears |
| BuilderView.QuantityUpdated | BuilderView.tsx:32-40 | every line left after updateQuantity has a positive quantity |
| BuilderView.QuantityUpdatedLines | BuilderView.tsx:33-39 | the target line holds the stepped quantity; another line stays exactly when its quantity is positive; no other line appears |
| BuilderView.QuantityUpdatedKeepsUnique | BuilderView.tsx:32-40 | updateQuantity keeps part ids unique |
| BuilderView.BlurRestoresFloor | BuilderView.tsx:176-178 | on a line below 0.1 (0 included) the blur handler leaves that part's line at exactly 0.1 |
| BuilderView.RemoveItemTakesOutItsLine | BuilderView.tsx:43-45 | with unique ids, removeItem takes out exactly the part's line and keeps the rest in order |
| BuilderView.RemoveItemSubtractsItsLine | BuilderView.tsx:43-45 | removeItem lowers each total by exactly the removed line's amount |
| BuilderView.RemoveItemKeepsOrder | BuilderView.tsx:44 | removal acts piecewise over a concatenation, so the survivors keep their relative order |
| BuilderView.QuantitySet | BuilderView.tsx:47-58 | same length and ids; other lines untouched; the part's lines hold the parsed value, or 0 when it does not parse, with no clamping |
| BuilderView.Cleaned | BuilderView.tsx:85-88 | same length and ids; every quantity ≥ 0.1; lines at ≥ 0.1 untouched; lines below become 0.1 |
| BuilderView.CleanedKeepsNormalisedList | BuilderView.tsx:85-88 | a list whose quantities are all ≥ 0.1 is saved unchanged, with the budget the editor showed |
| BuilderView.AddLineSaleFound | BuilderView.tsx:72-73 | a resolvable line adds its sale to its category's entry, which starts at 0 when absent |
| BuilderView.CategorySalesSnoc | BuilderView.tsx:61-76 | one more line extends the breakdown by that line alone |
| BuilderView.CategorySalesStep | BuilderView.tsx:61-76 | one reduce step over the prefix adds the next line to the breakdown |
| BuilderView.MapSumRemove | BuilderView.tsx:61-76 | the sum of a breakdown does not depend on which category is taken out first |
| BuilderView.MapSumUpdate | BuilderView.tsx:73 | setting one category changes the sum by the difference |
| BuilderView.MapSumAddLine | BuilderView.tsx:62-73 | a line raises the breakdown's sum by its sale amount |
| BuilderView.CategorySales | BuilderView.tsx:61-76 | no contract of its own: `CategorySalesSum` and `CategorySalesKeys` |
| BuilderView.AddLineSale | BuilderView.tsx:62-73 | no contract of its own: `AddLineSaleFound` |
| BuilderView.CategorySalesSum | BuilderView.tsx:60-77 | the values of `byCategory` add up to `totalSale` |
| BuilderView.CategorySalesKeys | BuilderView.tsx:62-73 | a category appears in `byCategory` exactly when some line resolves to a part of that category |
| BuilderView.AccumulateLine | BuilderView.tsx:61-75 | the reduce callback adds the line's cost and sale (a falsy quantity as 0) and its sale to its category; a missing part changes nothing |
| BuilderView.Finance | BuilderView.tsx:60-80 | the builder's totals, profit and margin are the shared engine's budget, and `byCategory` is the per-category breakdown |
| BuilderView.Builder.constructor | BuilderView.tsx:13-15 | empty name, no lines, empty search |
| BuilderView.Builder.FilteredCatalog | BuilderView.tsx:17-20 | a part is offered exactly when it is in the catalogue and matches the search term |
| BuilderView.Builder.SetProjectName | BuilderView.tsx:13 | only the name changes |
| BuilderView.Builder.SetSearchTerm | BuilderView.tsx:15 | only the search term changes |
| BuilderView.Builder.AddItem | BuilderView.tsx:22-30 | the lines become `WithItemAdded` and stay free of repeated ids |
| BuilderView.Builder.UpdateQuantity | BuilderView.tsx:32-40 | the lines become `QuantityUpdated` and stay free of repeated ids |
| BuilderView.Builder.RemoveItem | BuilderView.tsx:43-45 | the lines lose every line for the part and stay free of repeated ids |
| BuilderView.Builder.SetQuantity | BuilderView.tsx:47-58 | the lines become `QuantitySet` and stay free of repeated ids |
| BuilderView.Builder.Blur | BuilderView.tsx:176-178 | a line at ≥ 0.1 changes nothing; a line below 0.1 triggers updateQuantity by the gap to 0.1 |
| BuilderView.Builder.HandleSave | BuilderView.tsx:82-98 | without a name or lines nothing changes; otherwise the cleaned lines are saved as a new project, the dashboard opens, and the editor is emptied |
| CatalogView.PartMargin | CatalogView.tsx:166-167 | the part's margin is the margin of a one-line list of quantity 1, and negative exactly when it sells (price > 0) below its cost |
| CatalogView.PartMarginIsUnitLineMargin | CatalogView.tsx:166-167 | the same against any catalogue in which the id resolves to that part |
| CatalogView.NegativeMarginExample | CatalogView.tsx:166-167 | a part bought for 10 and sold for 8 shows -25 (no clamping) |
| CatalogView.InitialMarginsPositive | CatalogView.tsx:166-167 | every part of the starting catalogue shows a positive margin |
| CatalogView.Lower | CatalogView.tsx:48 | lowercasing keeps the length, leaves no capital letter, turns each capital into its small letter and keeps every other character in place |
| CatalogView.LowerIdempotent | CatalogView.tsx:48 | lowercasing an already lowercased text changes nothing |
| CatalogView.SearchIgnoresTermCase | CatalogView.tsx:47-50 | a term matches a part exactly when its lowercase form does, so the search does not depend on the case of what is typed |
| CatalogView.MatchesSearch | CatalogView.tsx:47-50 | no contract of its own: `SearchFilter`, `EmptySearchShowsAll` and `SearchIgnoresTermCase` state what the test does |
| CatalogView.Acceptable | CatalogView.tsx:38 | no contract of its own: `HandleAdd` and `AcceptedPartMargin` state what the guard lets through |
| CatalogView.SearchFilter | CatalogView.tsx:47-50 | a part is shown exactly when it is in the catalogue and the lowercased term occurs in its lowercased name or category |
| CatalogView.EmptySearchShowsAll | CatalogView.tsx:47-50 | an empty term shows the whole catalogue, in order |
| CatalogView.SearchFilterConcat | CatalogView.tsx:47-50 | the filter keeps catalogue order, piece by piece |
| CatalogView.EmptyDraftCategoryListed | CatalogView.tsx:17-24 | the form's default category is a listed category |
| CatalogView.NumberOrZero | CatalogView.tsx:112 | `parseFloat(text) or 0` (and the builder's `isNaN` guard at BuilderView.tsx:53) stores 0 for an unparsable text and the number otherwise |
| CatalogView.WithId | CatalogView.tsx:39-42 | the added part carries every form field plus the fresh id |
| CatalogView.AcceptedPartMargin | CatalogView.tsx:38 | an accepted part (price > 0) never takes the zero-price margin fallback |
| CatalogView.CatalogForm.constructor | CatalogView.tsx:14-24 | empty search, closed form, the default draft |
| CatalogView.CatalogForm.SetPurchasePrice | CatalogView.tsx:112 | only the draft's purchase price changes, to the coerced value |
| CatalogView.CatalogForm.SetPrice | CatalogView.tsx:121 | only the draft's sale price changes, to the coerced value |
| CatalogView.CatalogForm.HandleAdd | CatalogView.tsx:37-45 | an unnamed or non-positively priced draft changes nothing; otherwise the part is appended to the catalogue and the form resets and closes |
| App.ProjectsWithout | App.tsx:47 | the kept projects are exactly those whose id differs |
| App.ProjectsWithoutAbsent | App.tsx:45-49 | deleting an id that no project carries changes nothing |
| App.AppState.constructor | App.tsx:12-22 | dashboard view; stored parts or else the starting catalogue; stored projects or else none |
| App.AppState.SetView | App.tsx:12 | only the view changes |
| App.AppState.HandleAddPart | App.tsx:32-34 | the part is appended; projects and view unchanged |
| App.AppState.HandleDeletePart | App.tsx:36-38 | every part with the id leaves, the rest keep their order, and projects are not touched |
| App.AppState.HandleSaveProject | App.tsx:40-43 | the project is appended and the dashboard opens |
| App.AppState.HandleDeleteProject | App.tsx:45-49 | confirmed: projects with the id are removed; not confirmed: nothing changes |
| Dashboard.GetProjectTotals | Dashboard.tsx:15-24 | the project's cost and sale are the shared engine's totals |
| Dashboard.PortfolioProfitIsSumOfProfits | Dashboard.tsx:26-28 | portfolio profit equals the sum of the per-project profits |
| Dashboard.PortfolioGrowsBySavedProject | Dashboard.tsx:26-27 | a newly saved project raises revenue and cost by its own totals |
| Dashboard.PortfolioConcat | Dashboard.tsx:26-27 | the portfolio sums are additive over concatenated project lists |
| Dashboard.PortfolioRemoveAt | Dashboard.tsx:26-27 | taking out one project lowers the portfolio sums by its totals |
| Dashboard.PortfolioOrderIndependent | Dashboard.tsx:26-27 | the portfolio sums do not depend on project order |
| Dashboard.RowOf | Dashboard.tsx:46-48 | a row carries the part's name, category, unit and price, the line's quantity, and subtotal = price × quantity |
| Dashboard.CsvRows | Dashboard.tsx:44-50 | there are never more rows than lines |
| Dashboard.CsvRowsConcat | Dashboard.tsx:44-50 | rows follow the lines piecewise, so in line order |
| Dashboard.Resolved | Dashboard.tsx:45-46 | the resolved lines are exactly the lines whose part is found |
| Dashboard.RowsMatchCons | Dashboard.tsx:46-48 | a resolvable line in front adds its row in front |
| Dashboard.CsvRowsFollowResolvedLines | Dashboard.tsx:44-50 | exactly one row per line whose part is found, in line order, each that line's row |
| Dashboard.SubtotalSumCons | Dashboard.tsx:44-50 | the first line adds its sale amount to the subtotal column |
| Dashboard.TotalCons | Dashboard.tsx:16-22 | a total is the first line's amount plus the rest's |
| Dashboard.SubtotalsSumToSale | Dashboard.tsx:44-55 | the subtotal column adds up to the summary's sale total |
| Dashboard.RowsTextConcat | Dashboard.tsx:44-50 | the rows' text is appended row after row |
| Dashboard.CountConcat | Dashboard.tsx:48 | counting a character is additive over concatenation |
| Dashboard.CountZero | Dashboard.tsx:48 | a character is counted 0 times exactly when it does not occur |
| Dashboard.RowTextCount | Dashboard.tsx:48 | the occurrences of any character in a row are those in its six fields plus those of its punctuation |
| Dashboard.RowTextColumns | Dashboard.tsx:48 | a row has exactly five `;` if and only if no field contains `;`, exactly one line break if and only if no field contains one, and always ends with a line break |
| Dashboard.RowsTextLines | Dashboard.tsx:44-50 | rows whose fields hold no line break give one line each |
| Dashboard.SkipSpaces | Dashboard.tsx:66 | skipping a leading white-space run shortens a string that starts with one and leaves a non-space first character |
| Dashboard.UnderscoreSpaces | Dashboard.tsx:66 | the converted name has no white space and is no longer than the original |
| Dashboard.UnderscoreSpacesKeepsPlainNames | Dashboard.tsx:66 | a name without white space is used as it is |
| Dashboard.UnderscoreSpacesIdempotent | Dashboard.tsx:66 | converting twice changes nothing more |
| Dashboard.RunBecomesOneUnderscore | Dashboard.tsx:66 | a white-space run of any length between words becomes a single `_` |
| Dashboard.SkipRun | Dashboard.tsx:66 | skipping a white-space run stops at the next word |
| Dashboard.ExportFileName | Dashboard.tsx:66 | the download name contains no white space |
| Dashboard.RowsTextStep | Dashboard.tsx:44-50 | one forEach step appends the line's row, or nothing for a missing part |
| Dashboard.WriteRows | Dashboard.tsx:44-50 | the appended rows are the text of the resolved lines' rows, in order |
| Dashboard.JoinCount | Dashboard.tsx:41 | a `;`-joined list of names without `;` has one separator fewer than names |
| Dashboard.ColumnLine | Dashboard.tsx:41 | the column line has five `;` (six columns, as many as a row has fields) and no line break |
| Dashboard.FieldCount | Dashboard.tsx:37-38 | a `caption;value` line whose caption and value lack a character holds it only in its separator, unit and line break |
| Dashboard.HeaderLines | Dashboard.tsx:36-41 | the header is five lines when the project's name and date hold no line break |
| Dashboard.HeaderNamesProject | Dashboard.tsx:37 | the project's name can be read back from the header, right after the title line and `Projeto:;` |
| Dashboard.SummaryFieldsCount | Dashboard.tsx:54-57 | the four value lines hold one `;` and one line break each when the formatted values lack them |
| Dashboard.SummaryLines | Dashboard.tsx:53-57 | the summary is six lines, with one `caption;value` pair on each of its four value lines |
| Dashboard.ReportLines | Dashboard.tsx:36-57 | the report has 11 lines plus one per item whose part is found, when no text put into it holds a line break |
| Dashboard.WriteHeader | Dashboard.tsx:36-41 | the appended header is `HeaderText`, which `HeaderLines` and `HeaderNamesProject` describe: five lines, with the project's name after `Projeto:;` |
| Dashboard.WriteSummary | Dashboard.tsx:53-57 | the appended summary is `SummaryText`, which `SummaryLines` describes: a blank line, the title, and one `caption;value` line each for cost, sale, profit and margin |
| Dashboard.ExportToCsv | Dashboard.tsx:30-66 | the report is header, rows, then the summary of the shared engine's budget (margin 0 unless sale > 0), so `ReportLines` counts its lines; the file name is `ExportFileName` |
| Dashboard.HeaderText | Dashboard.tsx:36-41 | no contract of its own: `HeaderLines` and `HeaderNamesProject` |
| Dashboard.RowText | Dashboard.tsx:48 | no contract of its own: `RowTextCount` and `RowTextColumns` |
| Dashboard.SummaryText | Dashboard.tsx:53-57 | no contract of its own: `SummaryLines` |
| Dashboard.IsJsSpace | Dashboard.tsx:66 | no contract of its own: the characters `\s` matches in JavaScript, used by `UnderscoreSpaces` |
| Dashboard.PortfolioTotal | Dashboard.tsx:26-27 | no contract of its own: `PortfolioConcat`, `PortfolioRemoveAt`, `PortfolioOrderIndependent` and `PortfolioGrowsBySavedProject` |
| Dashboard.PortfolioProfit | Dashboard.tsx:28 | no contract of its own: `PortfolioProfitIsSumOfProfits` |
| Constants.InitialIdsDistinct | constants.tsx:4-12 | the starting ids are pairwise distinct |
| Constants.InitialPricesOrdered | constants.tsx:5-11 | every starting part has 0 ≤ purchasePrice < price |
| Constants.InitialCategoriesListed | constants.tsx:5-14 | every starting part's category is listed |
| Constants.CategoriesDistinct | constants.tsx:14 | seven distinct categories |
| Constants.WorkedExampleTwoLines | constants.tsx:5-6 | part '1'×2 with part '2'×10 gives cost 108, sale 213, profit 105 |
| Constants.WorkedExampleDanglingLine | constants.tsx:5 | part '1'×1 with a dangling '999'×5 gives cost 45, sale 85.5, profit 40.5 |
| Collections.Filter | App.tsx:37 | the result is no longer than the input and holds exactly the input's elements that pass |
| Collections.FilterConcat | App.tsx:37 | filtering acts piecewise, so the survivors keep their order |
| Collections.FilterKeepsAll | App.tsx:37 | a filter every element passes changes nothing |
| Collections.FilterDropsOne | BuilderView.tsx:44 | filtering out exactly one element removes just it |
| Collections.FilterKeepsDistinct | AIView.tsx:35 | filtering keeps keys pairwise distinct |

## Left out

- The assistant's remote calls (prompt text, `JSON.parse`, base64 images, console errors) are not modelled: `GenerateIdeas` and `GenerateVisual` take the answer as a parameter. The intermediate `loading = true` states of these async functions are not observable in the model.
- Local storage (reading it at start and writing it back on every change) is browser I/O. The constructor of `AppState` takes what storage held as `Option` parameters.
- JSX rendering, Layout.tsx, icons, CSS choices (such as the margin colour), the stat cards and the reversed project table are presentation.
- `formatCurrency`, `toLocaleDateString`, `String(n)` and `toFixed` are locale or floating-point formatting. The report takes them as the function fields of `Dashboard.Formatting`.
- The Blob, the BOM prefix, object URLs and the DOM link used for the download are browser I/O. So are the FileReader image upload and `window.print`.
- `Math.random` ids, `Date.now()` and `window.confirm` are passed in as method parameters (`freshId`, `now`, `confirmed`).
- IEEE-754 arithmetic (NaN, infinities, binary rounding) is not modelled: prices and quantities are exact `real`s, and `parseFloat` is an `Option<real>` with `None` for NaN. `Round2` rounds half up on exact values, which can differ from `toFixed(2)` on binary doubles near a half cent. The `|| 0` guards then coincide with the plain value.
- `toLowerCase` is modelled on ASCII letters only. Unicode case mapping is not modelled.
- AIView.AsItems: the contract states only the length; the line-by-line correspondence is its body, which `CalculateIdeaBudget` uses.
- BuilderView.Builder.Blur: the contract states which update runs, and `BlurRestoresFloor` states what it leaves on the line. The blur handler's `item` is modelled as the line at index `k` of the current list.
- The CSV escaping gap is documented, not corrected. By `RowTextColumns`, a row no longer has exactly five `;` once a field contains one, so a part named "A;B" shifts every later column of its row, and a line break in a field splits the row. The report is modelled as the source writes it.
- BuilderView.AccumulateLine: `byCategory` is modelled as a plain map that starts empty. In the source it is an object literal `{}`, which inherits the keys of `Object.prototype`. For a category named "constructor", "toString" or "valueOf", the `!acc.byCategory[cat]` test sees a function and the `+=` concatenates text onto it; for "__proto__" the sale is lost. Such categories can only come from stored parts, because the form's select offers only the listed categories.
- BuilderView.CategorySales: the same plain-map reading; `CategorySalesSum` and `CategorySalesKeys` hold for it and not for the inherited keys above.
- The facts of types.ts (independent prices, `imageUrl` the only optional field, no constraint on quantities, four views) are carried by the datatypes of `Types` themselves; no lemma restates them.
