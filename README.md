# Agency dashboard core, modelled in Dafny

This project models the logic of a marketing-agency dashboard written in
React and TypeScript. The dashboard is mostly markup over hard-coded
records. Underneath it sits a small amount of exact, synchronous logic, and
that is what the model covers:

- **Invoice form.** A list of line items that can never be empty. Editing
  an item's quantity or rate recomputes its amount. Items can be added and
  removed, and the last one cannot be removed. Subtotal, tax and total are
  folds over the list.
- **Integrations view.** Connect, disconnect and sync each replace the
  record with a given id. The connected and available lists split the
  collection, and the data-source card sums account counts.
- **Campaign, report and client forms.** A one-field draft update, a
  multi-select toggle for KPIs and metrics, custom-date visibility, and an
  `onSubmit` callback that submit and cancel both call.
- **Billing, campaigns, clients and reports views.** Case-insensitive
  status-to-colour maps, counts and sums filtered by status, an average
  ROAS, a rounded average spend, budget utilisation and days remaining.
  Each view also has a list/detail selector and a "create" dialog.
- **Settings and client portal.** A tab bar with a highlighted tab, and a
  tab dispatch that falls back to a default panel. The portal also has a
  KPI trend style, an approvals empty state and an invoice badge.
- **Shell and sidebar.** The module dispatch with its client-portal
  override, the sidebar and top bar shown only outside the portal, the
  content offset, and the sidebar's menu, highlight, collapse and requests.

Each source file is one Dafny module of the same name. Components with
`useState` become a `class State` (or `Shell`) whose fields are the state
variables. Click and change handlers become `modifies this` methods, and
the pure updaters they apply (spread, `map`, `filter`, `reduce`) become
functions. Shared pieces have their own modules:

- `Options`: `Option`.
- `Display`: colours, ASCII lower-casing, `Math.round` and `Math.ceil` on
  exact reals.
- `Folds`: `filter`, `filter(...).length` and `reduce`.
- `Selection`: the checkbox toggle.
- `ViewState`: the list/detail selector.
- `TabBar`: the highlight rule.
- `LineItems`: invoice items and their totals.

Conventions:

- Money is `real`, so arithmetic is exact.
- The wall clock (`new Date()`) is a parameter.
- JavaScript's `NaN` and `Infinity` from dividing by zero are `None`.
- An `onSubmit` callback is a counter, `completions`, on the form's state.

## Model

| member | source | states |
|---|---|---|
| Display.ToLower | src/components/modules/Billing.tsx:85 | `toLowerCase` keeps the length and lower-cases each letter A-Z; other characters are unchanged |
| Display.ToLowerIdempotent | src/components/modules/Billing.tsx:85 | lower-casing twice is lower-casing once, so every classifier gives a status and its lower-cased form the same colour |
| Display.Round | src/components/modules/Clients.tsx:300 | `Math.round` yields the integer within half a unit of its argument, rounding halves up |
| Display.Ceil | src/components/modules/Campaigns.tsx:253 | `Math.ceil` yields the least integer not below its argument |
| Folds.Filter | src/components/modules/Integrations.tsx:110-111 | `filter` keeps exactly the elements meeting the condition, never more than the input, each no more often than in the input |
| Folds.FilterPartition | src/components/modules/Integrations.tsx:110-111 | a filter and its complement hold every element exactly as often as the list: lengths and multisets add up |
| Folds.FilterConcat | src/components/modules/Integrations.tsx:110-111 | `filter` distributes over concatenation, so the kept elements keep their order |
| Folds.FilterAll | src/components/modules/Integrations.tsx:110 | a filter that every element passes returns the list unchanged |
| Folds.Count | src/components/modules/Campaigns.tsx:344 | `filter(...).length` never exceeds the list length |
| Folds.CountDisjoint | src/components/modules/Reports.tsx:114-121 | two conditions that never hold together count at most the whole list |
| Folds.SumWhereNonNegative | src/components/modules/Billing.tsx:306-308 | a status-filtered sum of non-negative terms is non-negative |
| Folds.SumWhereMonotone | src/components/modules/Billing.tsx:307-308 | with non-negative terms, a sum over a weaker filter is at least the sum over a stronger one |
| Folds.SumWhereSplit | src/components/modules/Billing.tsx:306-307 | a filtered sum splits into the sums over two disjoint filters that cover it |
| Folds.SumBounds | src/components/modules/Campaigns.tsx:362 | a sum of n terms in [lo, hi] lies in [n·lo, n·hi] |
| Folds.MeanBounds | src/components/modules/Clients.tsx:300 | the mean of terms in [lo, hi] lies in [lo, hi] |
| Folds.SumNatConcat | src/components/modules/Integrations.tsx:141 | a whole-number `reduce` adds over concatenation |
| Folds.SumNatFilter | src/components/modules/Integrations.tsx:141 | dropping elements whose term is 0 leaves a whole-number `reduce` unchanged |
| Selection.Without | src/components/forms/CampaignForm.tsx:40 | `filter(k => k !== kpi)` removes every occurrence of the value and keeps every other value as often as before |
| Selection.WithoutConcat | src/components/forms/CampaignForm.tsx:40 | removal distributes over concatenation, so the other values keep their relative order |
| Selection.Toggle | src/components/forms/CampaignForm.tsx:38-41 | the value is chosen afterwards iff it was not chosen before; a present value is removed, an absent one appended at the end with the rest unchanged |
| Selection.WithoutKeepsDistinct | src/components/forms/CampaignForm.tsx:40 | removing a value keeps a duplicate-free list duplicate-free |
| Selection.ToggleKeepsDistinct | src/components/forms/CampaignForm.tsx:38-41 | the toggle never creates a duplicate |
| Selection.ToggleWithin | src/components/forms/ReportForm.tsx:197-202 | toggling an offered value keeps every chosen value among the offered ones |
| Selection.ToggleTwiceAbsent | src/components/forms/CampaignForm.tsx:38-41 | toggling an unchosen value twice restores the list exactly |
| Selection.ToggleTwicePresent | src/components/forms/CampaignForm.tsx:38-41 | toggling a chosen value twice removes it and puts it back at the end |
| Selection.ToggleTwiceMovesToEnd | src/components/forms/CampaignForm.tsx:38-41 | so a double toggle of a chosen value that is not last changes the list, while the set of choices is restored |
| Selection.ToggleAllKeepsValid | src/components/forms/ReportForm.tsx:35-47 | any run of clicks on offered checkboxes keeps the choices duplicate-free and drawn from the offered list |
| TabBar.Highlighted | src/components/modules/Settings.tsx:307-311 | the highlighted entries are exactly those whose id equals the active id |
| TabBar.HighlightedCount | src/components/modules/Settings.tsx:307-311 | with distinct ids, a listed active id highlights exactly one entry and any other id none |
| TabBar.ClickHighlightsOnlyClicked | src/components/modules/Settings.tsx:306-311 | after clicking an entry, that entry and only it is highlighted |
| LineItems.SubtotalConcat | src/components/forms/InvoiceForm.tsx:88 | the subtotal adds over concatenation of item lists |
| LineItems.SubtotalReplace | src/components/forms/InvoiceForm.tsx:57-72 | replacing one item changes the subtotal by the difference of the two amounts |
| LineItems.SubtotalDelete | src/components/forms/InvoiceForm.tsx:78-82 | deleting one item lowers the subtotal by its amount |
| LineItems.TotalsOf | src/components/forms/InvoiceForm.tsx:88-90 | subtotal is the sum of amounts, tax is subtotal × rate / 100, total is subtotal + tax = subtotal × (1 + rate / 100) |
| LineItems.TotalsExample | src/components/forms/InvoiceForm.tsx:88-90 | items 2 × 100 and 1 × 50 at 10 % give 250, 25 and 275 |
| InvoiceForm.Set | src/components/forms/InvoiceForm.tsx:50-55 | `handleChange` sets exactly the named field; every other field and the tax rate are unchanged |
| InvoiceForm.SetLaws | src/components/forms/InvoiceForm.tsx:50-55 | writing back a field's own value changes nothing; a second write to a field overrides the first |
| InvoiceForm.QuantityInput | src/components/forms/InvoiceForm.tsx:195 | `parseInt(v) \|\| 1`: unparsable or 0 becomes 1, any other value (negatives too) is kept, so the result is never 0 |
| InvoiceForm.RateInput | src/components/forms/InvoiceForm.tsx:209 | `parseFloat(v) \|\| 0`: unparsable becomes 0, any parsed value is kept |
| InvoiceForm.RemovedAt | src/components/forms/InvoiceForm.tsx:80 | `filter((_, i) => i !== index)` deletes exactly that position and keeps the others in order; an out-of-range index changes nothing |
| InvoiceForm.RemovedAtKeepsTotals | src/components/forms/InvoiceForm.tsx:78-82 | deletion keeps every amount equal to quantity × rate and lowers the subtotal by the deleted amount |
| InvoiceForm.AddItemKeepsTotals | src/components/forms/InvoiceForm.tsx:74-76 | appending the blank item leaves subtotal, tax and total unchanged |
| InvoiceForm.State.CurrentTotals | src/components/forms/InvoiceForm.tsx:88-90 | the rendered subtotal is the sum of the current amounts, the tax is subtotal × tax rate / 100, and the total is subtotal + tax |
| InvoiceForm.State.constructor | src/components/forms/InvoiceForm.tsx:17-28 | one blank item (quantity 1, rate 0, amount 0), tax rate 10, issue date today, no client chosen from the offered list, no callback yet |
| InvoiceForm.State.HandleChange | src/components/forms/InvoiceForm.tsx:50-55 | the draft becomes the draft with the named field set; the items are untouched |
| InvoiceForm.State.HandleTaxRateChange | src/components/forms/InvoiceForm.tsx:50-55 | only the tax rate changes |
| InvoiceForm.State.HandleItemChange | src/components/forms/InvoiceForm.tsx:57-72 | only item `index` changes; a quantity or rate edit recomputes its amount, a description edit keeps it; the invariant holds and the subtotal moves by the amount's change |
| InvoiceForm.State.HandleQuantityInput | src/components/forms/InvoiceForm.tsx:195 | the quantity input stores `parseInt(...) \|\| 1`, never 0, recomputes that item's amount from it and changes no other item |
| InvoiceForm.State.HandleRateInput | src/components/forms/InvoiceForm.tsx:209 | the rate input stores `parseFloat(...) \|\| 0`, recomputes that item's amount from it and changes no other item |
| InvoiceForm.State.AddItem | src/components/forms/InvoiceForm.tsx:74-76 | appends exactly one blank item after the unchanged earlier items; the totals are unchanged |
| InvoiceForm.State.RemoveItem | src/components/forms/InvoiceForm.tsx:78-82 | a no-op on a single item, otherwise deletes exactly that position; the list is never empty |
| InvoiceForm.State.HandleSubmit | src/components/forms/InvoiceForm.tsx:30-48 | assembles the draft, items and the same totals the form renders with status "Draft", changes nothing, and calls the callback once |
| InvoiceForm.State.Cancel | src/components/forms/InvoiceForm.tsx:287 | calls the callback once and changes nothing else |
| Integrations.UpdateWhere | src/components/modules/Integrations.tsx:77-97 | the keyed `map` keeps length and order and changes only records with the id |
| Integrations.Connect | src/components/modules/Integrations.tsx:76-82 | the matching record becomes connected, "Active", synced now; accounts and metrics unchanged; other records unchanged |
| Integrations.Disconnect | src/components/modules/Integrations.tsx:84-90 | the matching record becomes disconnected, "Not Connected", never synced, with no accounts; other records unchanged |
| Integrations.Sync | src/components/modules/Integrations.tsx:92-98 | only the matching record's last-sync time changes |
| Integrations.SyncAll | src/components/modules/Integrations.tsx:92-98 | repeated syncs keep the list length |
| Integrations.InitialSettled | src/components/modules/Integrations.tsx:7-74 | every initial record is connected iff "Active", has a sync time when connected and no accounts when not |
| Integrations.HandlersKeepSettled | src/components/modules/Integrations.tsx:76-98 | connect, disconnect and sync all preserve that invariant |
| Integrations.DisconnectIdempotent | src/components/modules/Integrations.tsx:84-90 | disconnecting twice is disconnecting once |
| Integrations.SyncAllLast | src/components/modules/Integrations.tsx:92-98 | after a run of syncs only the matching record changes, and its sync time is the last one |
| Integrations.ConnectSyncDisconnect | src/components/modules/Integrations.tsx:76-98 | connect, any syncs, then disconnect gives what disconnect alone gives |
| Integrations.ConnectedAvailablePartition | src/components/modules/Integrations.tsx:110-111 | connected and available lists partition the collection and hold only connected or only disconnected records |
| Integrations.DataSourceCountAll | src/components/modules/Integrations.tsx:141 | the data-source count over connected records equals the account count over all records |
| Integrations.StatusColor | src/components/modules/Integrations.tsx:100-108 | active is green, syncing blue, error red, case-insensitively; never yellow |
| Integrations.SettledBadge | src/components/modules/Integrations.tsx:100-108 | on a settled record the badge is green iff the record is connected |
| Integrations.MetricPreview | src/components/modules/Integrations.tsx:255-264 | shows the first min(3, n) metrics, and a "+(n−3) more" chip iff n > 3 |
| Integrations.State.constructor | src/components/modules/Integrations.tsx:7-74 | starts from the six mock records, settled |
| Integrations.State.HandleConnect | src/components/modules/Integrations.tsx:76-82 | replaces the list by `Connect` of it and keeps the invariant |
| Integrations.State.HandleDisconnect | src/components/modules/Integrations.tsx:84-90 | replaces the list by `Disconnect` of it and keeps the invariant |
| Integrations.State.HandleSync | src/components/modules/Integrations.tsx:92-98 | replaces the list by `Sync` of it and keeps the invariant |
| CampaignForm.Set | src/components/forms/CampaignForm.tsx:29-34 | sets exactly the named field; every other field and the KPIs are unchanged |
| CampaignForm.SetLaws | src/components/forms/CampaignForm.tsx:29-34 | writing back a field's value changes nothing; a second write overrides the first |
| CampaignForm.InitialDraft | src/components/forms/CampaignForm.tsx:9-21 | objective, platform and assignee preset to offered options, no KPI, every other field empty |
| CampaignForm.State.constructor | src/components/forms/CampaignForm.tsx:9-21 | starts from the initial draft with valid KPIs |
| CampaignForm.State.HandleChange | src/components/forms/CampaignForm.tsx:29-34 | applies `Set` to the draft |
| CampaignForm.State.HandleKpiChange | src/components/forms/CampaignForm.tsx:36-43 | toggles the KPI, so it is chosen iff it was not; KPIs stay duplicate-free and offered |
| CampaignForm.State.HandleSubmit | src/components/forms/CampaignForm.tsx:23-27 | calls the callback once and keeps the draft |
| CampaignForm.State.Cancel | src/components/forms/CampaignForm.tsx:244 | calls the callback once and keeps the draft |
| ReportForm.Set | src/components/forms/ReportForm.tsx:28-33 | sets exactly the named field; the metrics are unchanged |
| ReportForm.SetLaws | src/components/forms/ReportForm.tsx:28-33 | writing back a field's value changes nothing; a second write overrides the first |
| ReportForm.InitialDraft | src/components/forms/ReportForm.tsx:9-20 | type, range, format and frequency preset to offered options, no metric, every other field empty |
| ReportForm.CustomDatesFollowRange | src/components/forms/ReportForm.tsx:160 | a fresh form shows the date inputs; choosing an offered range shows them iff it is the custom one |
| ReportForm.State.constructor | src/components/forms/ReportForm.tsx:9-20 | starts from the initial draft with valid metrics |
| ReportForm.State.HandleChange | src/components/forms/ReportForm.tsx:28-33 | applies `Set` to the draft |
| ReportForm.State.HandleMetricChange | src/components/forms/ReportForm.tsx:35-42 | toggles the metric, so it is chosen iff it was not; metrics stay duplicate-free and offered |
| ReportForm.State.HandleSubmit | src/components/forms/ReportForm.tsx:22-26 | calls the callback once and keeps the draft |
| ReportForm.State.Cancel | src/components/forms/ReportForm.tsx:255 | calls the callback once and keeps the draft |
| ClientForm.Set | src/components/forms/ClientForm.tsx:26-31 | sets exactly the named field |
| ClientForm.SetLaws | src/components/forms/ClientForm.tsx:26-31 | writing back a field's value changes nothing; a second write overrides the first |
| ClientForm.InitialDraft | src/components/forms/ClientForm.tsx:9-18 | every field empty except the account manager, which is an offered option; the industry select starts on its placeholder |
| ClientForm.State.constructor | src/components/forms/ClientForm.tsx:9-18 | starts from the initial draft |
| ClientForm.State.HandleChange | src/components/forms/ClientForm.tsx:26-31 | applies `Set` to the draft |
| ClientForm.State.HandleSubmit | src/components/forms/ClientForm.tsx:20-24 | calls the callback once, passes no data back, keeps the draft |
| ClientForm.State.Cancel | src/components/forms/ClientForm.tsx:169 | calls the callback once and keeps the draft |
| Billing.InvoicesConsistent | src/components/modules/Billing.tsx:13-82 | every mock invoice has amounts = quantity × rate, amount = sum of item amounts, tax = 10 % of amount, total = amount + tax |
| Billing.StatusColor | src/components/modules/Billing.tsx:84-92 | paid is green, sent blue, overdue red, case-insensitively; anything else gray |
| Billing.StatusIcon | src/components/modules/Billing.tsx:94-102 | paid gets the check, sent or overdue the clock, anything else the eye |
| Billing.ClassifiersIgnoreCase | src/components/modules/Billing.tsx:84-102 | both classifiers ignore case, and the check icon goes with the green badge |
| Billing.SendOnlyOnGrayBadge | src/components/modules/Billing.tsx:216 | "Send Invoice" is offered only on a draft, whose badge is gray with the eye icon and which counts towards neither the revenue nor the pending card |
| Billing.InitialCards | src/components/modules/Billing.tsx:306-308 | the mock cards read 27,500 revenue, 36,850 pending, 20,350 overdue |
| Billing.OverdueWithinPending | src/components/modules/Billing.tsx:307-308 | with non-negative totals, 0 ≤ overdue ≤ pending |
| Billing.TotalsPartition | src/components/modules/Billing.tsx:306-307 | revenue + pending + draft totals = the sum of all totals |
| Billing.State.constructor | src/components/modules/Billing.tsx:9-11 | list mode, nothing selected, dialog closed |
| Billing.State.View | src/components/modules/Billing.tsx:168-172 | selects the invoice and enters detail mode, so detail mode always has a selection |
| Billing.State.Back | src/components/modules/Billing.tsx:197-201 | returns to list mode with nothing selected |
| Billing.State.OpenCreateInvoice | src/components/modules/Billing.tsx:321 | opens the dialog, leaving the view unchanged |
| Billing.State.CloseCreateInvoice | src/components/modules/Billing.tsx:376-377 | closes the dialog, leaving the view unchanged |
| Campaigns.StatusColor | src/components/modules/Campaigns.tsx:90-98 | active is green, paused yellow, completed blue, case-insensitively; anything else gray |
| Campaigns.TaskStatusColor | src/components/modules/Campaigns.tsx:100-107 | completed is green, in progress blue, pending yellow; anything else gray |
| Campaigns.ClassifiersIgnoreCase | src/components/modules/Campaigns.tsx:90-107 | both classifiers ignore case |
| Campaigns.PauseOnlyOnGreenBadge | src/components/modules/Campaigns.tsx:197-207 | the detail view offers Pause only beside a green badge; because the button's status test is case-sensitive and the badge's is not, a status spelt "active" gets a green badge and Resume |
| Campaigns.ActiveCount | src/components/modules/Campaigns.tsx:344 | the number of active campaigns, never more than the list |
| Campaigns.AverageRoas | src/components/modules/Campaigns.tsx:362 | defined iff there are campaigns; average × count = sum of ROAS |
| Campaigns.AverageRoasBounds | src/components/modules/Campaigns.tsx:362 | the average lies within any bounds all ROAS values lie in |
| Campaigns.TotalSpendNonNegative | src/components/modules/Campaigns.tsx:350 | total spend is non-negative when every spend is |
| Campaigns.InitialCards | src/components/modules/Campaigns.tsx:344-362 | the mock cards read 2 active, 39,200 spent, 652 conversions and an average ROAS of 11.2 / 3 |
| Campaigns.BudgetUtilisation | src/components/modules/Campaigns.tsx:221 | defined iff the budget is non-zero, and then spent / budget × 100 rounded |
| Campaigns.BudgetUtilisationRange | src/components/modules/Campaigns.tsx:221 | spending within a positive budget gives 0 to 100 |
| Campaigns.DaysRemaining | src/components/modules/Campaigns.tsx:253 | 0 iff the end has passed, otherwise the days left rounded up |
| Campaigns.State.constructor | src/components/modules/Campaigns.tsx:9-11 | list mode, nothing selected, dialog closed |
| Campaigns.State.View | src/components/modules/Campaigns.tsx:158-162 | selects the campaign and enters detail mode |
| Campaigns.State.Back | src/components/modules/Campaigns.tsx:183-186 | returns to list mode with nothing selected |
| Campaigns.State.OpenAddCampaign | src/components/modules/Campaigns.tsx:333 | opens the dialog, leaving the view unchanged |
| Campaigns.State.CloseAddCampaign | src/components/modules/Campaigns.tsx:373-374 | closes the dialog, leaving the view unchanged |
| Clients.StatusColor | src/components/modules/Clients.tsx:72-79 | active is green, paused yellow, inactive red, case-insensitively; anything else gray |
| Clients.StatusColorIgnoresCase | src/components/modules/Clients.tsx:72-79 | the classifier ignores case |
| Clients.ActiveClients | src/components/modules/Clients.tsx:293 | the number of active clients, never more than the total |
| Clients.ActiveAndInactivePartition | src/components/modules/Clients.tsx:287-293 | active and other clients add up to the total |
| Clients.Mean | src/components/modules/Clients.tsx:300 | mean × count = the total monthly spend |
| Clients.AverageMonthlySpend | src/components/modules/Clients.tsx:300 | defined iff there are clients, and then the mean rounded |
| Clients.AverageMonthlySpendBounds | src/components/modules/Clients.tsx:300 | with every spend in [lo, hi], the rounded average is within half a unit of that range |
| Clients.InitialCards | src/components/modules/Clients.tsx:287-300 | the mock cards read 4 clients, 3 active, 17,700 average spend |
| Clients.State.constructor | src/components/modules/Clients.tsx:9-11 | list mode, nothing selected, dialog closed |
| Clients.State.View | src/components/modules/Clients.tsx:145-148 | selects the client and enters detail mode |
| Clients.State.Back | src/components/modules/Clients.tsx:175-178 | returns to list mode with nothing selected |
| Clients.State.OpenAddClient | src/components/modules/Clients.tsx:277 | opens the dialog, leaving the view unchanged |
| Clients.State.CloseAddClient | src/components/modules/Clients.tsx:312-313 | closes the dialog, leaving the view unchanged |
| Reports.StatusColor | src/components/modules/Reports.tsx:80-87 | ready is green, processing blue, failed red, case-insensitively; anything else gray |
| Reports.StatusColorIgnoresCase | src/components/modules/Reports.tsx:80-87 | the classifier ignores case |
| Reports.Actions | src/components/modules/Reports.tsx:174-191 | downloads iff "Ready", the spinner iff "Processing", never both |
| Reports.ActionsAgreeWithBadge | src/components/modules/Reports.tsx:158-191 | a row offering downloads has a green badge, a spinning one a blue badge |
| Reports.ReadyCount | src/components/modules/Reports.tsx:114 | counts exactly the rows that offer downloads |
| Reports.ProcessingCount | src/components/modules/Reports.tsx:121 | counts exactly the rows that show the spinner |
| Reports.ReadyAndProcessingWithinTotal | src/components/modules/Reports.tsx:108-121 | ready + processing ≤ total |
| Reports.InitialCards | src/components/modules/Reports.tsx:108-121 | the mock cards read 4 reports, 3 ready, 1 processing |
| Reports.State.constructor | src/components/modules/Reports.tsx:9-10 | dialog closed, range "last-30-days" |
| Reports.State.OpenCreateReport | src/components/modules/Reports.tsx:98 | both create buttons open the dialog and keep the range |
| Reports.State.CloseCreateReport | src/components/modules/Reports.tsx:238-239 | closing or submitting closes the dialog and keeps the range |
| Reports.State.SelectDateRange | src/components/modules/Reports.tsx:133-136 | replaces the range and nothing else; the listed reports do not depend on it |
| Settings.RenderContent | src/components/modules/Settings.tsx:257-289 | an unknown id shows the organization panel; the organization panel shows iff the id is "organization" or unknown |
| Settings.TabOf | src/components/modules/Settings.tsx:257-289 | every panel is shown by some tab |
| Settings.TabIdsDistinct | src/components/modules/Settings.tsx:9-16 | the six tab ids are distinct |
| Settings.RenderContentOneToOne | src/components/modules/Settings.tsx:257-289 | distinct tabs show distinct panels |
| Settings.ExactlyOneHighlighted | src/components/modules/Settings.tsx:307-311 | with a known active id exactly one tab is highlighted |
| Settings.State.constructor | src/components/modules/Settings.tsx:7 | starts on "organization", showing its panel |
| Settings.State.ClickTab | src/components/modules/Settings.tsx:306-311 | sets the active id to the clicked tab's, which alone is highlighted |
| ClientPortal.RenderContent | src/components/modules/ClientPortal.tsx:311-324 | an unknown id shows the dashboard; the dashboard shows iff the id is "dashboard" or unknown |
| ClientPortal.TabOf | src/components/modules/ClientPortal.tsx:304-324 | every panel is shown by some tab |
| ClientPortal.TabIdsDistinct | src/components/modules/ClientPortal.tsx:304-309 | the four tab ids are distinct |
| ClientPortal.RenderContentOneToOne | src/components/modules/ClientPortal.tsx:304-324 | distinct tabs show distinct panels |
| ClientPortal.TurnedArrowIsRed | src/components/modules/ClientPortal.tsx:98-101 | a turned arrow is always drawn red, and for the "up" and "down" labels the arrow is turned exactly when the change is red |
| ClientPortal.KpiArrowsFollowChange | src/components/modules/ClientPortal.tsx:16-21 | in the portal's KPIs the arrow is turned exactly for the change written with a leading minus |
| ClientPortal.TrendStyleCases | src/components/modules/ClientPortal.tsx:98-101 | down is red and turned, up is green and upright, any other trend red and upright |
| ClientPortal.ShowsAllCaughtUp | src/components/modules/ClientPortal.tsx:238 | the empty state shows iff no approval is listed |
| ClientPortal.InvoiceBadgeVersusBilling | src/components/modules/ClientPortal.tsx:280 | a green portal badge is green in the billing view and a blue billing badge is blue in the portal, but "Overdue" is blue here and red there, and "paid" is green there only, since this test is case-sensitive |
| ClientPortal.InitialPortal | src/components/modules/ClientPortal.tsx:16-86 | with the mock data the empty state is hidden, the paid invoice is green and the open one blue, and the falling KPI is red with a turned arrow |
| ClientPortal.ExactlyOneHighlighted | src/components/modules/ClientPortal.tsx:361 | with a known active id exactly one tab is highlighted |
| ClientPortal.State.constructor | src/components/modules/ClientPortal.tsx:7 | starts on "dashboard", showing the dashboard |
| ClientPortal.State.ClickTab | src/components/modules/ClientPortal.tsx:359-361 | sets the active id to the clicked tab's, which alone is highlighted |
| Sidebar.Ids | src/components/layout/Sidebar.tsx:27-35 | the menu's ids position by position |
| Sidebar.MenuIdsAre | src/components/layout/Sidebar.tsx:27-35 | the menu ids are dashboard, clients, campaigns, reports, billing, integrations and settings, in that order |
| Sidebar.MenuIdsDistinct | src/components/layout/Sidebar.tsx:27-35 | the seven menu ids are distinct |
| Sidebar.ViewItem | src/components/layout/Sidebar.tsx:64-83 | highlighted iff the id is active; label shown iff expanded; dot iff highlighted and expanded; tooltip with the label iff collapsed |
| Sidebar.AtMostOneActive | src/components/layout/Sidebar.tsx:64 | at most one entry is active, exactly one for a menu id |
| Sidebar.CollapsedHidesLabels | src/components/layout/Sidebar.tsx:78-83 | a collapsed sidebar shows no label and no dot |
| Sidebar.ClickItem | src/components/layout/Sidebar.tsx:69 | clicking an entry requests that entry's id |
| Sidebar.PressCollapse | src/components/layout/Sidebar.tsx:52 | the collapse button requests the opposite state |
| Sidebar.PressCollapseTwice | src/components/layout/Sidebar.tsx:52 | pressing twice requests the original state back |
| Sidebar.WidthOf | src/components/layout/Sidebar.tsx:38-40 | narrow iff collapsed |
| Sidebar.ShowsBrand | src/components/layout/Sidebar.tsx:43-50 | the brand shows iff the sidebar is wide |
| App.RenderActiveModule | src/App.tsx:19-42 | the portal whenever portal mode is on, never otherwise; an unknown id gives the dashboard |
| App.MenuPositionOf | src/App.tsx:24-41 | every module outside the portal is opened by some menu entry |
| App.EveryMenuItemDispatched | src/App.tsx:24-41 | each menu id has its own dispatch case, so distinct entries open distinct modules |
| App.LayoutOf | src/App.tsx:46-56 | sidebar and top bar shown iff not in the portal; no offset in the portal, ml-16 iff collapsed otherwise |
| App.OffsetMatchesSidebar | src/App.tsx:55 | outside the portal the content offset equals the sidebar's width |
| App.Shell.constructor | src/App.tsx:14-17 | starts on "dashboard", expanded |
| App.Shell.Handle | src/App.tsx:47-52 | a module request sets the module, a collapse request the collapse flag, and nothing else |
| App.Shell.ClickMenuItem | src/App.tsx:47-52 | clicking entry i shows entry i's module unless in the portal |
| App.Shell.ToggleCollapse | src/App.tsx:51 | flips the collapse flag and keeps the module |

## Left out

- Markup, Tailwind classes, icons other than the billing status icon, and display-only record fields (contact details, impressions, clicks, CTR, CPC, platform, brief, report templates, logos).
- Number and date formatting (`toFixed`, `toLocaleString`, `toLocaleDateString`) and JavaScript floating point: money and ratios are exact reals.
- Date parsing: days remaining takes the end date and the current time as milliseconds since the epoch; `new Date()` for sync times and the issue date is a parameter.
- `console.log` of submitted drafts.
- The dashboard module, top bar, chart and badge components.
- Hard-coded summary text not derived from data, such as "87.5% active rate" beside the active-client card.
- Browser input constraints (`required`, `min`, e-mail type): no handler checks them.
- Display.ToLower: lower-cases ASCII letters only, not the full Unicode case mapping of `toLowerCase`.
- InvoiceForm.State.HandleTaxRateChange: the source stores the input's text and relies on JavaScript coercion when computing tax; the model stores the number.
- InvoiceForm.State.HandleItemChange: the `amount` key is never passed to `handleItemChange` by the form, so that edit is not modelled.
- Campaigns.AverageRoas: the empty list, where the source shows `NaN`, is `None` rather than a required non-empty list.
- Campaigns.BudgetUtilisation: a zero budget, where the source shows `Infinity` or `NaN`, is `None`.
- Clients.AverageMonthlySpend: the empty list, where the source shows `NaN`, is `None`.
- App.Shell.constructor: the source fixes the portal flag to false and never changes it; the model takes it as a parameter so both modes can be stated.
- CampaignForm.State.HandleKpiChange and ReportForm.State.HandleMetricChange: require the value to be offered, since only the checkboxes of offered values call them.
- Reports.State.SelectDateRange: requires an offered range, since the select only offers those.
- Integrations.SyncAll: states only the length; what a run of syncs does is stated by Integrations.SyncAllLast.
