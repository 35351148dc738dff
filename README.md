# Trip management: a Dafny model

This project models the core of a freight trip (order) manager. It is a
web page that lists trips page by page, with server-side search, status
filter and sort plus browser-side advanced filters. Around the list sit:

- a side panel that builds the advanced-filter record;
- a five-tab wizard that creates a trip with its stops;
- a trip detail panel with a quote calculator (rate per mile, accessory
  charges, a margin) and lane statistics (the other trips on the same
  pickup/delivery pair);
- the backend's order endpoints: list, get, create, update and delete.

Each stateful component is a Dafny `class` whose methods change its fields
the way the component's event handlers change its state. Pure computations
are functions, and their promises are lemmas:

- `QuoteCalculator.QuoteSession` holds the calculator inputs.
- `FilterPanelModel.FilterPanel` holds the nine filter inputs.
- `CreateTripFormModel.CreateTripForm` holds the wizard inputs.
- `TripList.TripListView` holds the list page state.
- `OrderStore.Store` holds the orders table.

The files are:

- `wrappers.dfy`: `Option`, `Result`.
- `seqs.dfy`: an order-keeping `Filter` with its characterisation.
- `sorting.dfy`: a stable insertion sort under a total preorder.
- `text.dfy`: substring, lower case, decimal digits, `padStart`.
- `numbers.dfy`: `parseFloat`, NaN and `|| 0`.
- `trips.dfy`: the shared trip, stop and create-request records.
- `quote_calculator.dfy`, `lane_analytics.dfy`, `filter_panel.dfy`,
  `create_trip_form.dfy`, `trip_list.dfy` and `order_store.dfy`: the
  components.

Money, weights and rates are exact reals. Timestamps are integer
milliseconds.

## Model

| member | source | states |
|---|---|---|
| QuoteCalculator.ComputeBreakdown | frontend/components/TripDetailPanel.tsx:95-102 | the summary lines add up (total = base + accessories + margin); under a percentage margin the total is (rate × miles + accessory costs) × (1 + percentage / 100), under a flat margin it is rate × miles + accessory costs + the flat amount |
| QuoteCalculator.AccessoriesCostConcat | frontend/components/TripDetailPanel.tsx:97 | the accessories sum over two lists placed together is the sum of their sums |
| QuoteCalculator.AccessoriesCostPermutation | frontend/components/TripDetailPanel.tsx:97 | the sum depends only on which lines there are, not on their order |
| QuoteCalculator.AccessoriesCostNonNegative | frontend/components/TripDetailPanel.tsx:97 | non-negative costs add up to a non-negative sum |
| QuoteCalculator.TotalNonNegative | frontend/components/TripDetailPanel.tsx:95-102 | non-negative rate, miles, costs and active margin value give a non-negative total |
| QuoteCalculator.MarginIgnoresInactiveValue | frontend/components/TripDetailPanel.tsx:99-101 | the stored value of the inactive margin kind never affects the quote |
| QuoteCalculator.TotalMonotone | frontend/components/TripDetailPanel.tsx:95-102 | a larger accessories sum never gives a smaller total, for any flat margin and any percentage of at least −100 |
| QuoteCalculator.PercentageMonotone | frontend/components/TripDetailPanel.tsx:98-102 | a subtotal plus its percentage margin grows with the subtotal when the percentage is at least −100 |
| QuoteCalculator.RaisingCostRaisesTotal | frontend/components/TripDetailPanel.tsx:95-113 | raising one line's cost never lowers the quoted total (percentage at least −100) |
| QuoteCalculator.WorkedExample | frontend/components/TripDetailPanel.tsx:95-102 | 2.5/mi over 400 mi with a 150 accessory at 10% margin quotes 1000 + 150 + 115 = 1265 |
| QuoteCalculator.Updated | frontend/components/TripDetailPanel.tsx:109-113 | same length and ids; lines with the id get the edit, all others are unchanged |
| QuoteCalculator.UpdateUnknownIdIsNoOp | frontend/components/TripDetailPanel.tsx:109-113 | editing an id no line carries changes nothing |
| QuoteCalculator.UpdatedEditsOneLine | frontend/components/TripDetailPanel.tsx:109-113 | with distinct ids, editing line k's id replaces exactly line k |
| QuoteCalculator.UpdateCostMovesSum | frontend/components/TripDetailPanel.tsx:97-113 | setting line k's cost moves the accessories sum by new cost − old cost |
| QuoteCalculator.ReplaceLineCost | frontend/components/TripDetailPanel.tsx:97 | replacing one line moves the sum by the difference of the two costs |
| QuoteCalculator.WithoutRemovesOneLine | frontend/components/TripDetailPanel.tsx:115-117 | with distinct ids, deleting line k's id removes exactly line k, the rest in order |
| QuoteCalculator.WithoutUnknownIdIsNoOp | frontend/components/TripDetailPanel.tsx:115-117 | deleting an id no line carries changes nothing |
| QuoteCalculator.RemoveLineCost | frontend/components/TripDetailPanel.tsx:97 | leaving out one line lowers the sum by its cost |
| QuoteCalculator.DeleteLowersSum | frontend/components/TripDetailPanel.tsx:97-117 | deleting line k lowers the accessories sum by its cost |
| QuoteCalculator.QuoteSession.constructor | frontend/components/TripDetailPanel.tsx:27-34 | no trip selected, every input 0, no accessories, percentage margin, next id 1, not saving |
| QuoteCalculator.QuoteSession.Select | frontend/components/TripDetailPanel.tsx:40-50 | the reset effect keyed on the selected trip's id: a change of id, to or from no trip included, resets every calculator input and the id counter; the same id changes nothing at all |
| QuoteCalculator.QuoteSession.ShowTrip | frontend/app/page.tsx:68-71 | a clicked trip other than the shown one, or any trip after a close, starts from a reset calculator; the refreshed copy of the shown trip after a save (page.tsx:472-479) changes nothing |
| QuoteCalculator.QuoteSession.Close | frontend/app/page.tsx:468-471 | closing the panel selects no trip and resets the calculator, so reopening the same trip shows it empty |
| QuoteCalculator.QuoteSession.AddAccessory | frontend/components/TripDetailPanel.tsx:104-107 | appends an empty line whose id was never issued and advances the counter; rate, miles, margin kind and both margin values are unchanged |
| QuoteCalculator.QuoteSession.UpdateAccessory | frontend/components/TripDetailPanel.tsx:109-113 | the accessories become `Updated(old, id, edit)`; nothing else changes |
| QuoteCalculator.QuoteSession.SetAccessoryCost | frontend/components/TripDetailPanel.tsx:654 | the line's cost becomes `parseFloat(text) \|\| 0` through `updateAccessory`; nothing else changes |
| QuoteCalculator.QuoteSession.DeleteAccessory | frontend/components/TripDetailPanel.tsx:115-117 | the line with the id is dropped, ids stay distinct, the counter is kept so ids are never reused |
| QuoteCalculator.QuoteSession.SetBaseRate | frontend/components/TripDetailPanel.tsx:592 | the rate becomes `parseFloat(text) \|\| 0` |
| QuoteCalculator.QuoteSession.SetMiles | frontend/components/TripDetailPanel.tsx:606 | the miles become `parseFloat(text) \|\| 0` |
| QuoteCalculator.QuoteSession.SetMarginType | frontend/components/TripDetailPanel.tsx:684-694 | only the margin kind changes; the quote is the breakdown with the new kind and both stored values |
| QuoteCalculator.QuoteSession.SetMarginPercentage | frontend/components/TripDetailPanel.tsx:717 | the percentage becomes `parseFloat(text) \|\| 0` |
| QuoteCalculator.QuoteSession.SetMarginFlat | frontend/components/TripDetailPanel.tsx:738 | the flat amount becomes `parseFloat(text) \|\| 0` |
| QuoteCalculator.QuoteSession.ClickGetQuote | frontend/components/TripDetailPanel.tsx:119-126 | while saving, with a total of exactly 0 (the disabled button) or with no trip selected nothing is sent; otherwise saving starts and the total is sent as the trip's quote |
| QuoteCalculator.QuoteSession.SaveSettled | frontend/components/TripDetailPanel.tsx:134-136 | the saving flag clears on success and failure alike |
| LaneAnalytics.LaneHistoryExact | frontend/components/TripDetailPanel.tsx:64-68 | the lane history keeps exactly the fetched trips with the same pickup and delivery and another id, in fetch order |
| LaneAnalytics.LaneHistoryExcludesCurrent | frontend/components/TripDetailPanel.tsx:65 | the shown trip is never in its own lane history |
| LaneAnalytics.LaneHistorySymmetric | frontend/components/TripDetailPanel.tsx:64-68 | a is in b's lane history exactly when b is in a's |
| LaneAnalytics.TotalLoads | frontend/components/TripDetailPanel.tsx:526 | the number of fetched trips on the lane: 0 exactly when the fetch failed or no fetched trip ran the lane, the number fetched exactly when all did, never more |
| LaneAnalytics.TotalLoadsAdditive | frontend/components/TripDetailPanel.tsx:526 | the count over two lists placed together is the sum of their counts |
| LaneAnalytics.TotalLoadsOfOne | frontend/components/TripDetailPanel.tsx:526 | one fetched trip counts 1 exactly when it ran the lane (with the additivity, this fixes the count of every list) |
| LaneAnalytics.AverageRate | frontend/components/TripDetailPanel.tsx:515-516 | with no positively quoted trip the average rate is 0 |
| LaneAnalytics.QuoteSumBounds | frontend/components/TripDetailPanel.tsx:517 | quotes within [lo, hi] sum to between n·lo and n·hi |
| LaneAnalytics.AverageRateBounds | frontend/components/TripDetailPanel.tsx:515-520 | if every positive quote lies in [lo, hi], the rate lies in [lo/500, hi/500] |
| LaneAnalytics.MeanQuoteBounds | frontend/components/TripDetailPanel.tsx:517 | the mean of quotes within [lo, hi] lies within [lo, hi] |
| LaneAnalytics.MeanQuoteWithin | frontend/components/TripDetailPanel.tsx:517 | quotes that all lie within [lo, hi] have their mean within [lo, hi] |
| LaneAnalytics.PerMileBounds | frontend/components/TripDetailPanel.tsx:519-520 | dividing the mean by the 500-mile estimate keeps the bounds divided by 500 |
| LaneAnalytics.QuotedInRange | frontend/components/TripDetailPanel.tsx:515 | every kept trip carries a quote within the bounds |
| LaneAnalytics.MeanBounds | frontend/components/TripDetailPanel.tsx:517 | a sum between n·lo and n·hi has its mean between lo and hi |
| LaneAnalytics.AverageRateIgnoresUnquoted | frontend/components/TripDetailPanel.tsx:515 | a trip without a positive quote does not change the average rate |
| LaneAnalytics.AverageRateExample | frontend/components/TripDetailPanel.tsx:515-520 | quotes 1000 and 1500 give 2.5 per mile |
| LaneAnalytics.LatestIndex | frontend/components/TripDetailPanel.tsx:533-535 | the reduce picks the first trip with the greatest update time |
| LaneAnalytics.LastLoad | frontend/components/TripDetailPanel.tsx:532-537 | N/A exactly for an empty history; "Today" exactly when less than one day has elapsed; otherwise the floored day count |
| LaneAnalytics.BucketMonotone | frontend/components/TripDetailPanel.tsx:556-560 | a longer mean gap never gives a more frequent label |
| LaneAnalytics.EarliestCreated | frontend/components/TripDetailPanel.tsx:547-549 | the smallest creation time of the history |
| LaneAnalytics.LatestCreated | frontend/components/TripDetailPanel.tsx:547-549 | the greatest creation time of the history |
| LaneAnalytics.CreatedLeqIsTotalPreorder | frontend/components/TripDetailPanel.tsx:547-549 | the sort comparator is a total preorder |
| LaneAnalytics.SortedCopyEnds | frontend/components/TripDetailPanel.tsx:547-549 | a sorted copy starts at the earliest and ends at the latest creation time |
| LaneAnalytics.SortedEnds | frontend/components/TripDetailPanel.tsx:547-549 | a list sorted by creation time starts at its earliest and ends at its latest |
| LaneAnalytics.EarliestBelow | frontend/components/TripDetailPanel.tsx:547-555 | no trip was created before the earliest creation time |
| LaneAnalytics.LatestAbove | frontend/components/TripDetailPanel.tsx:547-555 | no trip was created after the latest creation time |
| LaneAnalytics.FrequencyOf | frontend/components/TripDetailPanel.tsx:545-560 | under 2 loads N/A; otherwise the loop's summed gaps give the label of (latest − earliest) / (n − 1) days |
| LaneAnalytics.MeanGapDaysPermutation | frontend/components/TripDetailPanel.tsx:547-555 | the frequency does not depend on the order the history arrives in |
| LaneAnalytics.SameSpan | frontend/components/TripDetailPanel.tsx:547-555 | permuted histories share earliest and latest creation times |
| LaneAnalytics.FrequencyExamples | frontend/components/TripDetailPanel.tsx:556-557 | loads one day apart are Daily, seven days apart Weekly |
| Numbers.LeadingDigits | frontend/components/TripDetailPanel.tsx:592 | the longest all-digit prefix of the text |
| Numbers.ParseFloatOfNatToString | frontend/components/TripDetailPanel.tsx:592 | `parseFloat` reads back a whole number's decimal text as that number |
| Numbers.ParseFloatOfNegative | frontend/components/TripDetailPanel.tsx:592 | for any text not itself starting with white space or a sign, a leading minus negates the number read, and NaN stays NaN |
| Numbers.CoerceNonNumeric | frontend/components/TripDetailPanel.tsx:592 | text without a leading number is NaN, and `\|\| 0` makes it 0 |
| FilterPanelModel.FilterPanel.constructor | frontend/components/FilterPanel.tsx:26-37 | every input empty, advanced section hidden |
| FilterPanelModel.FilterPanel.Edit | frontend/components/FilterPanel.tsx:182-326 | typing into one input changes that input alone |
| FilterPanelModel.FilterPanel.ToggleAdvanced | frontend/components/FilterPanel.tsx:282 | the advanced switch flips |
| FilterPanelModel.FilterPanel.HandleClearAll | frontend/components/FilterPanel.tsx:101-111 | all nine inputs become empty, the switch stays, and an Apply right after hands over `{}` |
| FilterPanelModel.FilterPanel.HandleApply | frontend/components/FilterPanel.tsx:113-128 | apply is called once and then close; each key is present exactly when its input is non-empty (and not "All types"/"All shippers"), carrying the text or its `parseFloat` |
| FilterPanelModel.DescribedRecordIsUnique | frontend/components/FilterPanel.tsx:113-124 | the inputs determine the applied record uniquely |
| TripList.GetFilteredTrips | frontend/app/page.tsx:98-151 | narrowing one active filter at a time yields exactly the trips passing every active filter, in order |
| TripList.FilteredTripsExact | frontend/app/page.tsx:98-151 | the shown trips are the loaded ones that pass, in order, each as often as loaded |
| TripList.ShownTripsWithinWeights | frontend/app/page.tsx:139-148 | every shown trip lies within the set weight bounds |
| TripList.NoFiltersShowsAll | frontend/app/page.tsx:98-151 | the empty record shows every loaded trip |
| TripList.FalsyWeightMinIgnored | frontend/app/page.tsx:139-143 | a minimum weight of 0 or NaN filters nothing |
| TripList.TimeWindowAndShipperIgnored | frontend/app/page.tsx:98-151 | the time window and shipper never change which trips are shown |
| TripList.PageWindow | frontend/app/page.tsx:415-425 | min(5, totalPages) consecutive page numbers within [1, totalPages], containing the current page when it is one |
| TripList.PageWindowCentred | frontend/app/page.tsx:423-424 | away from both ends the current page is the middle button |
| TripList.ShownRangeCountsPage | frontend/app/page.tsx:401-402 | for a page the server can return, "Showing X to Y" counts exactly that page's orders |
| TripList.PaddedId | frontend/app/page.tsx:282 | length max(6, digits), only leading '0's added, the same numeric value |
| TripList.TripListView.constructor | frontend/app/page.tsx:19-28 | page 1, one page, no search or status, newest created first, no advanced filters |
| TripList.TripListView.HandleSearch | frontend/app/page.tsx:73-76 | the new search text, back to page 1 |
| TripList.TripListView.HandleStatusFilter | frontend/app/page.tsx:78-81 | the new status, back to page 1 |
| TripList.TripListView.HandleSort | frontend/app/page.tsx:83-91 | `handleSort`, which no element calls (the header uses the select and the arrow): the current field flips asc/desc; another field is set with desc; back to page 1 |
| TripList.TripListView.HandleApplyFilters | frontend/app/page.tsx:93-96 | the panel's record replaces the filters, back to page 1 |
| TripList.TripListView.SelectSortField | frontend/app/page.tsx:210-213 | the select changes the field and keeps the page |
| TripList.TripListView.ToggleSortOrder | frontend/app/page.tsx:219-221 | the arrow flips the order and keeps the page |
| TripList.TripListView.ClearAdvancedFilters | frontend/app/page.tsx:256-258 | the filters become `{}` and every loaded trip is shown |
| TripList.TripListView.PreviousPage | frontend/app/page.tsx:406-408 | one page back, disabled on page 1 |
| TripList.TripListView.NextPage | frontend/app/page.tsx:442-444 | one page forward, disabled on the last page |
| TripList.TripListView.GoToPage | frontend/app/page.tsx:415-430 | a window button sets the page to its number, which lies within [1, totalPages] |
| TripList.TripListView.ReceivePage | frontend/app/page.tsx:44-46 | the response's trips, total and page count replace the old ones |
| TripList.RequestIsAccepted | frontend/app/page.tsx:36-43 | every request the page sends passes the server's parameter validation |
| TripList.FlipTwice | frontend/app/page.tsx:220 | toggling the order twice restores it |
| CreateTripFormModel.TabIndex | frontend/components/CreateTripForm.tsx:74-80 | the unique position of a tab in the tab list |
| CreateTripFormModel.NextTab | frontend/components/CreateTripForm.tsx:82-87 | index + 1, staying on the last tab |
| CreateTripFormModel.PreviousTab | frontend/components/CreateTripForm.tsx:89-94 | index − 1, staying on the first tab |
| CreateTripFormModel.NextPreviousInverse | frontend/components/CreateTripForm.tsx:82-94 | Previous undoes Next except on the last tab; Next undoes Previous except on the first |
| CreateTripFormModel.NextWalksAllTabs | frontend/components/CreateTripForm.tsx:74-94 | four Nexts reach the last tab, which Next keeps; Previous keeps the first |
| CreateTripFormModel.EditedStop | frontend/components/CreateTripForm.tsx:396-457 | the edited stop input shows the value; the other inputs and the number stay |
| CreateTripFormModel.Renumber | frontend/components/CreateTripForm.tsx:127-130 | each stop keeps everything but its number, which becomes its position from `first` |
| CreateTripFormModel.ResequenceNumbers | frontend/components/CreateTripForm.tsx:127-130 | submitted stops are numbered 1..n and differ from the inputs only in the number |
| CreateTripFormModel.ResequenceFixesNumbered | frontend/components/CreateTripForm.tsx:127-130 | stops already numbered 1..n are submitted unchanged |
| CreateTripFormModel.ResequenceIdempotent | frontend/components/CreateTripForm.tsx:127-130 | renumbering twice is renumbering once |
| CreateTripFormModel.WithoutIndex | frontend/components/CreateTripForm.tsx:179-181 | drops exactly the stop at the index, the rest in order; an index outside the list changes nothing |
| CreateTripFormModel.SubmittedRoundTrip | frontend/components/CreateTripForm.tsx:112-125 | `value \|\| undefined` loses nothing: filling every column left out of the request with "" gives the inputs back |
| CreateTripFormModel.BlankFormRequest | frontend/components/CreateTripForm.tsx:34-41 | a blank form sends one pickup stop numbered 1 and no optional column |
| CreateTripFormModel.CreateTripForm.Request | frontend/components/CreateTripForm.tsx:104-131 | the request carries the chosen customer, the weight and status "pending", no quote, stops numbered 1..n, and exactly the non-empty optional columns |
| CreateTripFormModel.CreateTripForm.constructor | frontend/components/CreateTripForm.tsx:17-52 | the first tab, no customer, empty texts, weight 0, one blank pickup stop |
| CreateTripFormModel.CreateTripForm.LoadCustomers | frontend/components/CreateTripForm.tsx:61-72 | a fetched list replaces the options and selects its first customer; a failure changes nothing |
| CreateTripFormModel.CreateTripForm.SelectCustomer | frontend/components/CreateTripForm.tsx:228 | the chosen id becomes the selection |
| CreateTripFormModel.CreateTripForm.EditRequired | frontend/components/CreateTripForm.tsx:245-287 | typing into one of the first tab's inputs changes that input alone |
| CreateTripFormModel.CreateTripForm.EditOptional | frontend/components/CreateTripForm.tsx:308-567 | typing into an optional input changes that input alone |
| CreateTripFormModel.CreateTripForm.EditWeight | frontend/components/CreateTripForm.tsx:298 | the weight becomes `parseFloat` of the text, NaN included |
| CreateTripFormModel.CreateTripForm.HandleNext | frontend/components/CreateTripForm.tsx:82-87 | the tab becomes `NextTab` of the old one |
| CreateTripFormModel.CreateTripForm.HandlePrevious | frontend/components/CreateTripForm.tsx:89-94 | the tab becomes `PreviousTab` of the old one |
| CreateTripFormModel.CreateTripForm.SelectTab | frontend/components/CreateTripForm.tsx:200-204 | a sidebar button opens its tab directly |
| CreateTripFormModel.CreateTripForm.AddStop | frontend/components/CreateTripForm.tsx:168-177 | appends one blank delivery stop numbered old length + 1; numbering 1..n is kept |
| CreateTripFormModel.CreateTripForm.RemoveStop | frontend/components/CreateTripForm.tsx:179-181 | with one stop nothing changes (the button is shown only for two or more, line 381); otherwise the stops become `WithoutIndex(old, index)`, one fewer for an index on a card; at least one stop always remains |
| CreateTripFormModel.CreateTripForm.EditStop | frontend/components/CreateTripForm.tsx:396-457 | only the stop at the index changes, and only in the edited input |
| CreateTripFormModel.CreateTripForm.ResetForm | frontend/components/CreateTripForm.tsx:136-166 | every input is blank again (first tab, weight 0, one pickup stop numbered 1); the customer choice is kept |
| CreateTripFormModel.CreateTripForm.HandleSubmit | frontend/components/CreateTripForm.tsx:96-134 | without a customer nothing is sent and nothing changes; otherwise the current request is sent and the form reset |
| OrderStore.MatchingOrdersExact | backend/main.py:127-140 | the counted orders are exactly those passing search, status and customer filters, in table order |
| OrderStore.NoFiltersCountsAll | backend/main.py:127-140 | with no truthy filter every order is counted |
| OrderStore.OrderLeqIsTotalPreorder | backend/main.py:146-149 | ordering by any sort column, ascending or descending, is a total preorder |
| OrderStore.SortedOrders | backend/main.py:146-149 | the result is a permutation of the matches, sorted by the requested column and direction |
| OrderStore.PageSlice | backend/main.py:151-153 | at most `limit` orders, starting at offset (page − 1) × limit; none past the end |
| OrderStore.CeilDiv | backend/main.py:155 | total_pages = ceil(total / limit): 0 for no rows, else (pages − 1)·limit < total ≤ pages·limit |
| OrderStore.DivisionBounds | backend/main.py:155 | floor division brackets its dividend |
| OrderStore.FirstPagesArePrefix | backend/main.py:151-155 | pages 1..k placed together form the first k·limit orders |
| OrderStore.PagesCoverAll | backend/main.py:151-155 | for one fixed sorted listing (distinct sort keys, or a database that breaks ties the same way on every query), reading pages 1..total_pages returns every matching order exactly once, in order |
| OrderStore.PagePastEndIsEmpty | backend/main.py:151-155 | a page past total_pages is empty |
| OrderStore.GetIsStorable | backend/main.py:193-196 | every value a column holds is one the schema accepts for it |
| OrderStore.Set | backend/main.py:195-196 | `setattr` makes the column read back the value and leaves every other column alone |
| OrderStore.SameColumnsSameOrder | backend/main.py:193-206 | an order is determined by its columns, stops, ids and timestamps |
| OrderStore.AppliedUpdateIsUnique | backend/main.py:193-206 | the description of an applied update allows exactly one result |
| OrderStore.EmptyUpdateKeepsOrder | backend/main.py:193-206 | an update that sends nothing changes nothing |
| OrderStore.QuoteSaveChangesOnlyQuote | backend/main.py:193-196 | saving a quote changes the quote amount (and the update time) only |
| OrderStore.ApplyFields | backend/main.py:193-196 | after the loop each sent column holds its value; all else is as before |
| OrderStore.ApplyUpdate | backend/main.py:193-206 | for a well-typed update that clears no required column, the result is the order with the update applied, the same id |
| OrderStore.RemoveAtShifts | backend/main.py:225-229 | removing one position shifts the later orders down by one |
| OrderStore.Store.constructor | backend/main.py:69-104 | an empty table over the given customers, next id 1 |
| OrderStore.Store.Find | backend/main.py:169-172 | the position of the order with the id, exactly when one exists |
| OrderStore.Store.GetOrders | backend/main.py:107-163 | 422 exactly for invalid parameters; otherwise total = matches before slicing, the page of the sorted matches, ceil pages |
| OrderStore.Store.GetOrder | backend/main.py:166-177 | the order with the id, or 404 exactly when there is none |
| OrderStore.Store.CreateOrder | backend/main.py:69-104 | null weight 422; unknown customer 400 (the 404 is caught); otherwise a fresh id, the sent quote (0 when the key is left out, null when sent as null), stops as sent, appended; failures change nothing |
| OrderStore.Store.UpdateOrder | backend/main.py:180-218 | a wrong type gives 422; a missing order or a null for a required column gives 400 with nothing changed; otherwise only that order changes, as `AppliedUpdate` describes |
| OrderStore.Store.DeleteOrder | backend/main.py:221-229 | 404 exactly for an unknown id; otherwise that order (with its stops) is removed and the rest keep their order |

## Left out

- Rendering, CSS, `alert` and `console` calls, the detail panel's own tab switch, and the text formatting of numbers and dates (`toFixed(2)`, `toLocaleString`, `toLocaleDateString`). These are presentation.
- IEEE doubles: money, weights and rates are exact reals. `parseFloat` is modelled for white space, a sign, digits and one decimal point. Exponents, `Infinity` and hexadecimal forms are not modelled.
- The day comparison of the available-date filter uses `new Date(x).toDateString()`. It depends on the browser's time zone, so it is the parameter `dayOf`. The current time of "Last Load" is the parameter `now`.
- Asynchronous fetches and saves. A response is an input to the method that receives it (`ReceivePage`, `LoadCustomers`, `SaveSettled`, the `Fetch` of the lane history).
- LaneAnalytics.LaneHistory: the lane-history request has no request-identity check, so a late answer for an earlier trip can overwrite a newer one. The model takes one answer per shown trip and does not capture that race. The fetch cap of 100 trips is the caller's list.
- The customer endpoints, the stop-status endpoint, route geometry, and the database, migration and seeding scripts. They are not part of this model.
- SQL details. `ilike` wildcard characters (`%` and `_` inside the search term) and collation are not modelled; matching is case-insensitive on ASCII letters only. The database's order among equal sort keys is unspecified; the model uses a stable insertion sort.
- Stop ids, coordinates and per-stop status on the server side; the server stores the stops as sent.
- Schema coercions other than the type check: strings that look like numbers, and validation of date-time text.
- The stop-card edits copy the list and then assign into the shared stop object. The model replaces the stop by value, which shows the same result. Aliasing of the old and new stop arrays is not modelled.
- The advanced filters apply in the browser to the loaded page only, and the "Showing" line counts server totals. The model states both as written and does not reconcile them.
- `updatedAt` moves when some sent column differs from the stored value; the model does not model the database clock beyond the parameter `now`.
- OrderStore.PagesCoverAll: each page is a separate `ORDER BY … OFFSET … LIMIT` query, and SQL leaves the order of rows with equal sort keys open on each one. Orders created in one transaction share `created_at`, so under the default listing two pages can overlap or skip an order. The lemma holds for one fixed order of the matches only.
- OrderStore.Store.CreateOrder: the model stores a `quote_amount` sent as null as null. It does not model whether the database's column default (0.0) would take its place.
- OrderStore.Store.GetOrders: a query that fails the declared bounds is answered 422 by the framework before the handler runs; the model folds this into the method.
- LaneAnalytics.LastLoad: the day count of a future update time (clock skew) is modelled by floor division like the code, but no property is stated for it.
