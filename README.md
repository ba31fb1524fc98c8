# Veterinary practice front-end — a Dafny model

This project models the logic of a veterinary-practice web front-end. The front-end keeps clients, animals, visits, medications and a financial ledger in a hosted table store. The model covers:

- the state the data hooks keep for the signed-in user, with how each hook changes its lists after a backend call succeeds or fails;
- the figures the screens derive from those lists;
- the checks and the dispatch in the screens' forms;
- the keyword router of the assistant;
- the checks of the sign-in page.

Every backend call is a parameter of the operation that makes it.

- An insert is a `Reply<string>` that carries the id the store assigned. The stored row is the sent row with that id and the user's id.
- The generic table cache is the exception: `TableCache.Cache.CreateRecord` takes a `Reply<T>` that holds the whole stored row.
- An update is a `Reply<Row>` that carries the row the store returns.
- A delete is an `Ack`.
- A list query is a `Reply<seq<Row>>`. The operation also returns the conditions of the query it issued, as `Condition` values.

The signed-in user is an `Option<string>`. Library functions are parameters too: lower-casing, trimming, the date-label function, date parsing into `(year, month)`, and the locale comparison of names. The locale comparison is required to be a total preorder. "Today", "now" and the current month are parameters. Amounts are integers (minor units), and the month-over-month change is a `real`.

Modules follow the source files:

- `Base`: the backend outcomes, the user and query conditions.
- `Seqs`: generic sequence functions and their lemmas (filter, sum, find, replace or remove by id, distinct, insert into sorted order).
- `Records`: the record types of `src/types/index.ts`.
- `Financial` (useFinancial.ts) and `FinancialPanel` (FinancialManagementPanel.tsx).
- `Medications` (useMedications.ts), `AdvancedMedicationsPanel` and `MedicationsPanel`.
- `Dashboard`, `IncomePanel`, `VisitsPanel` and `Visits` (useVisits.ts).
- `TableCache` (useSupabaseData.ts).
- `Animals` (useAnimals.ts) and `AnimalsPanel`.
- `ClientsPanel`, `Assistant` (AIAssistant.tsx) and `AuthPage` (Auth.tsx).

Hooks and screens whose state changes are classes. Their fields are `seq`s and form values, and their methods state the whole new state. Pure derivations are functions, and their meaning is proved in lemmas.

The central invariant of the ledger is `Financial.StatusConsistent`: every income record's stored status is the status its payments imply. Recording a payment preserves that invariant. Under it, the outstanding debt is never negative, and it is zero exactly when every record is `Paid`.

## Model

| member | source | states |
|---|---|---|
| Financial.IncomeCountsEveryStatus | src/hooks/useFinancial.ts:222-224 | total income counts every record whatever its status: it is the unpaid records' total plus the paid records' total |
| Financial.CategoryTotalsKeys | src/hooks/useFinancial.ts:241-247 | the category map has a key exactly for each category that occurs in the expenses |
| Financial.CategoryTotalsValues | src/hooks/useFinancial.ts:241-247 | each category's value is the sum of the amounts of that category's expenses |
| Financial.ExpensesByCategory | src/hooks/useFinancial.ts:241-247 | the accumulating loop builds exactly the category map: its keys are the occurring categories and each value is that category's total |
| Financial.CategoryTotalAbsent | src/hooks/useFinancial.ts:241-247 | a category no expense has totals zero |
| Financial.CategoryTotalSnoc | src/hooks/useFinancial.ts:243-245 | one more expense adds its amount to its own category only |
| Financial.CategoryTotalsStep | src/hooks/useFinancial.ts:243-245 | one loop step adds the next expense's amount to its category and leaves every other category's total unchanged |
| Financial.CategoryTotalsSumToTotal | src/hooks/useFinancial.ts:226-228 | summed over the distinct categories, the category totals give total expenses |
| Financial.DeriveStatus | src/hooks/useFinancial.ts:131-146 | the new status is Paid iff the new paid total reaches the amount (overpayment included), Partial iff it is positive but short, Pending otherwise |
| Financial.StatusNeverRegresses | src/hooks/useFinancial.ts:131-146 | a larger paid total never gives an earlier status |
| Financial.PaidTotalPrepend | src/hooks/useFinancial.ts:131-134 | prepending a payment adds its amount to its own record's paid total only |
| Financial.PaymentKeepsStatusConsistent | src/hooks/useFinancial.ts:131-152 | if every stored status matches its payments, recording a payment, with the status written from the pre-insert snapshot plus the new amount, keeps that true |
| Financial.PaymentKeepsOneStatus | src/hooks/useFinancial.ts:135-152 | after a payment only the paid record's status can change, and it becomes the status its payments imply |
| Financial.OutstandingDebtConcat | src/hooks/useFinancial.ts:230-239 | the outstanding debt of two lists of records is the sum of their debts |
| Financial.RecordDebtShare | src/hooks/useFinancial.ts:230-239 | a Paid record adds nothing to the debt; an unpaid one adds its amount less its payments, and its full amount when it has no payments |
| Financial.ConsistentLedgerDebt | src/hooks/useFinancial.ts:230-239 | in a status-consistent ledger the debt is never negative, and it is zero iff every record is Paid |
| Financial.TwoPaymentsSettleInvoice | src/hooks/useFinancial.ts:131-152 | an invoice of 1000 paid 400 becomes Partial with 600 owed, and a further 600 makes it Paid with nothing owed |
| Financial.RangeConditions | src/hooks/useFinancial.ts:24-34 | the income and expense queries are owner-scoped, with a lower or upper date bound exactly when that date is given, and no other condition |
| Financial.Ledger.FetchFinancialData | src/hooks/useFinancial.ts:17-78 | without a user nothing is queried; otherwise the three lists are replaced only when every query succeeds, the error is recorded otherwise, and loading ends |
| Financial.Ledger.AddIncomeRecord | src/hooks/useFinancial.ts:84-111 | without a user or on a failed insert no list changes; a stored record is prepended to the income list |
| Financial.Ledger.UpdateIncomeRecord | src/hooks/useFinancial.ts:192-220 | without a user or on a failed update no list changes; otherwise exactly the records with the id become the returned row and the length is kept |
| Financial.Ledger.AddPaymentTransaction | src/hooks/useFinancial.ts:113-164 | the payment is prepended once stored; the status write is requested only when the record is in the snapshot, with the status from the snapshot's payments plus the new amount; the two writes are separate: a failed status write reports the error and leaves the local lists unchanged although the payment is stored |
| Financial.Ledger.AddExpense | src/hooks/useFinancial.ts:166-190 | without a user or on a failed insert no list changes; a stored expense is prepended |
| FinancialPanel.ProfitMoves | src/components/FinancialManagementPanel.tsx:117-120 | profit is income less expenses: an income record raises it and an expense lowers it by its amount, and it is negative iff expenses exceed income |
| FinancialPanel.PendingIncomeRecordsExact | src/components/FinancialManagementPanel.tsx:122 | a record is a payment target iff it is in the ledger and not Paid, and the targets carry the whole outstanding debt |
| FinancialPanel.NewIncomeKeepsStatusConsistent | src/components/FinancialManagementPanel.tsx:132-137 | a new Pending record under an id no payment references keeps every stored status consistent when its amount is positive, and breaks consistency when it is zero or less, since no payments then imply Paid |
| FinancialPanel.StatusLabel | src/components/FinancialManagementPanel.tsx:436-440 | Paid, Partial and Pending are labelled "Ödendi", "Kısmi Ödendi" and "Ödenmedi", and each label belongs to one status |
| FinancialPanel.IncomePayload | src/components/FinancialManagementPanel.tsx:132-137 | a new income record is Pending, in TRY, with no visit, and carries the form's fields |
| FinancialPanel.PaymentPayload | src/components/FinancialManagementPanel.tsx:167-170 | the payment copies its client from the income record it pays and the rest from the form |
| FinancialPanel.ExpensePayload | src/components/FinancialManagementPanel.tsx:192-195 | a new expense is in TRY and carries the form's fields |
| FinancialPanel.FinancialScreen.constructor | src/components/FinancialManagementPanel.tsx:85-115 | the forms start at their defaults for today and every dialog is closed |
| FinancialPanel.FinancialScreen.HandleAddIncome | src/components/FinancialManagementPanel.tsx:124-152 | an empty client is rejected before any write; a stored record resets the form and closes the dialog; a failure keeps the form and shows the error |
| FinancialPanel.FinancialScreen.HandleAddPayment | src/components/FinancialManagementPanel.tsx:154-186 | an empty selection, or an id that no income record has, stops before the ledger is called; otherwise the payment goes to the ledger, and the form resets only when every write succeeds |
| FinancialPanel.FinancialScreen.HandleAddExpense | src/components/FinancialManagementPanel.tsx:188-212 | the expense goes to the ledger; a stored one resets the form and closes the dialog |
| Records.CriticalStockExact | src/components/Dashboard.tsx:13 | a medication is critical iff it is listed and its stock is at or below its critical limit |
| Records.RevenueFacts | src/components/Dashboard.tsx:15 | revenue is zero for no visits, adds over concatenation, and is non-negative for non-negative costs |
| Dashboard.RecentVisits | src/components/Dashboard.tsx:157 | at most the first four visits are shown, and all of them when there are fewer |
| Dashboard.EmptyDashboard | src/components/Dashboard.tsx:12-15 | an empty practice shows zero debt, animals and income and no critical stock or recent visit |
| Dashboard.TotalDebtSign | src/components/Dashboard.tsx:12 | with no negative debts, pending collections are non-negative, and zero iff no client owes anything |
| Medications.LowStockMedications | src/hooks/useMedications.ts:174-176 | every listed medication is low on stock |
| Medications.ExpiredMedications | src/hooks/useMedications.ts:178-183 | every listed medication has an expiry date at or before today |
| Medications.InventoryAlertsExact | src/hooks/useMedications.ts:174-183 | low stock is exactly stock at or below the reorder level, inclusive; expired is exactly a non-empty expiry at or before today as strings; both lists keep the inventory's order |
| Medications.ExpiryIsMonotone | src/hooks/useMedications.ts:178-183 | a missing expiry is never expired, and an expired medication stays expired on later days |
| Medications.StockAfterUsage | src/hooks/useMedications.ts:152-155 | stock after usage is the decremented stock, or zero when that is negative, and is never negative |
| Medications.MedicationStore.FetchMedications | src/hooks/useMedications.ts:15-37 | without a user nothing is queried; otherwise the owner-scoped rows replace the list, or the error is recorded |
| Medications.MedicationStore.AddMedication | src/hooks/useMedications.ts:43-72 | without a user or on a failed insert nothing changes; otherwise the list is the old list plus the stored row, sorted by name |
| Medications.MedicationStore.UpdateMedication | src/hooks/useMedications.ts:74-100 | only the medications with the id are replaced by the returned row |
| Medications.MedicationStore.DeleteMedication | src/hooks/useMedications.ts:102-123 | exactly the medications with the id leave the list; the rest keep their order |
| Medications.MedicationStore.RecordUsage | src/hooks/useMedications.ts:125-172 | the history insert comes first; the stock write asks for the clamped stock; the history entry is prepended and the medication replaced only when every step succeeds |
| AdvancedMedicationsPanel.FilteredMedications | src/components/AdvancedMedicationsPanel.tsx:93-100 | every listed medication matches the search and the category filter |
| AdvancedMedicationsPanel.FilteredMedicationsExact | src/components/AdvancedMedicationsPanel.tsx:93-100 | a medication is listed iff its lower-cased name or active ingredient contains the lower-cased term and the category filter is empty or equal to its category; empty filters list everything |
| AdvancedMedicationsPanel.CategoriesExact | src/components/AdvancedMedicationsPanel.tsx:102 | a category is offered iff it is non-empty and some medication has it |
| AdvancedMedicationsPanel.CategoriesDistinct | src/components/AdvancedMedicationsPanel.tsx:102 | no category is offered twice |
| AdvancedMedicationsPanel.CategoriesInFirstOccurrenceOrder | src/components/AdvancedMedicationsPanel.tsx:102 | the categories come in the order of their first occurrence |
| AdvancedMedicationsPanel.RowToneOf | src/components/AdvancedMedicationsPanel.tsx:552-562 | a row is marked expired iff expired, low on stock iff not expired and low, plain otherwise: expiry wins |
| AdvancedMedicationsPanel.FormOf | src/components/AdvancedMedicationsPanel.tsx:131-151 | editing fills each of the fifteen form fields from the same field of the medication |
| AdvancedMedicationsPanel.RowOf | src/components/AdvancedMedicationsPanel.tsx:113-121 | the submitted row carries each form field in the same field, under the given id and owner |
| AdvancedMedicationsPanel.FormRoundTrip | src/components/AdvancedMedicationsPanel.tsx:104-151 | a row turned into a form and back is the same row, and a form turned into a row and back is the same form |
| AdvancedMedicationsPanel.InventoryScreen.ResetForm | src/components/AdvancedMedicationsPanel.tsx:165-184 | the form returns to its defaults and the edit is forgotten |
| AdvancedMedicationsPanel.InventoryScreen.HandleEdit | src/components/AdvancedMedicationsPanel.tsx:131-151 | the form takes the medication's fields, the edit id is set and the dialog opens |
| AdvancedMedicationsPanel.InventoryScreen.HandleSubmit | src/components/AdvancedMedicationsPanel.tsx:104-129 | an empty name or unit is rejected with no call; otherwise it updates when editing and adds otherwise, and a success resets the form and closes the dialog |
| MedicationsPanel.FilteredMedications | src/components/MedicationsPanel.tsx:25-27 | every listed medication's lower-cased name contains the lower-cased term |
| MedicationsPanel.FilteredMedicationsExact | src/components/MedicationsPanel.tsx:25-27 | a medication is listed iff its lower-cased name contains the lower-cased term; an empty term lists all, in order |
| MedicationsPanel.LowStockCount | src/components/MedicationsPanel.tsx:58 | the low-stock count is at most the number of medications |
| MedicationsPanel.LowStockCountSnoc | src/components/MedicationsPanel.tsx:58 | the count is the number of critical medications: zero for none, and one more exactly when an appended medication is at or below its critical limit |
| MedicationsPanel.LowStockCountZero | src/components/MedicationsPanel.tsx:58 | the count is zero iff every medication is above its critical limit |
| MedicationsPanel.StockScreen.HandleSubmit | src/components/MedicationsPanel.tsx:29-39 | it updates the edited medication or adds one, then clears the edit and resets and hides the form |
| MedicationsPanel.StockScreen.StartEdit | src/components/MedicationsPanel.tsx:41-50 | the form takes name, stock, critical limit and unit, and the edit id is set |
| MedicationsPanel.StockScreen.CancelEdit | src/components/MedicationsPanel.tsx:52-56 | the edit is cleared and the form reset and hidden |
| IncomePanel.FromMonthIndex | src/components/IncomePanel.tsx:33-36 | a month number maps back to the (year, month) with that number |
| IncomePanel.MonthIndexInjective | src/components/IncomePanel.tsx:33-36 | distinct months have distinct numbers |
| IncomePanel.PreviousMonth | src/components/IncomePanel.tsx:19-20 | the previous month is the month numbered one less |
| IncomePanel.PreviousMonthWraps | src/components/IncomePanel.tsx:19-20 | January's previous month is December of the year before; any other month's is in the same year |
| IncomePanel.MonthsBack | src/components/IncomePanel.tsx:34-36 | going k months back lowers the month number by k, rolling into earlier years |
| IncomePanel.MonthVisits | src/components/IncomePanel.tsx:13-16 | a month's visits are visits dated in that month |
| IncomePanel.MonthVisitsExact | src/components/IncomePanel.tsx:13-16 | a visit is among a month's visits if and only if it is one of the visits and is dated in that month |
| IncomePanel.MonthTotalAtMostAllTime | src/components/IncomePanel.tsx:17-27 | with non-negative costs, a month's total is between zero and the all-time total |
| IncomePanel.MonthlyChange | src/components/IncomePanel.tsx:29-31 | with a positive last month the change is the percentage growth, signed as the difference; otherwise it is 100 iff this month is positive, and 0 otherwise |
| IncomePanel.Last6MonthsWindow | src/components/IncomePanel.tsx:33-48 | the window is six consecutive months, oldest first, ending at the current month; each bucket holds its month's total and count |
| IncomePanel.MaxTotal | src/components/IncomePanel.tsx:50 | the scale is at least 1, at least every bucket total, and 1 or some bucket's total |
| VisitsPanel.FilteredVisits | src/components/VisitsPanel.tsx:23-26 | every listed visit matches the search |
| VisitsPanel.FilteredVisitsExact | src/components/VisitsPanel.tsx:23-26 | a visit is listed iff its lower-cased client name or summary contains the lower-cased term; an empty term lists all |
| VisitsPanel.TotalRevenueBounds | src/components/VisitsPanel.tsx:73 | revenue sums the filtered visits only: all visits for an empty term, and between zero and the full revenue otherwise |
| VisitsPanel.Grouped | src/components/VisitsPanel.tsx:29-39 | the grouping has a group exactly for each key it lists |
| VisitsPanel.GroupedFacts | src/components/VisitsPanel.tsx:29-39 | the keys are the distinct date labels in first-seen order, and each group is the visits with that label in list order |
| VisitsPanel.VisitInOneGroup | src/components/VisitsPanel.tsx:29-39 | every visit is in the group of its own label and in no other |
| VisitsPanel.GroupSizesSum | src/components/VisitsPanel.tsx:29-39 | the group sizes sum to the number of visits |
| VisitsPanel.GroupByDate | src/components/VisitsPanel.tsx:29-39 | the in-place accumulation builds exactly that grouping |
| VisitsPanel.VisitsScreen.HandleSubmit | src/components/VisitsPanel.tsx:41-59 | an id no client has alerts and adds nothing; otherwise the added visit names the chosen client, is dated now, has no medications, and the form is reset and hidden |
| VisitsPanel.VisitsScreen.CancelForm | src/components/VisitsPanel.tsx:61-64 | the form is emptied and hidden |
| VisitsPanel.VisitsScreen.OpenForm | src/components/VisitsPanel.tsx:66-71 | the first client is preselected when there is one, and the form is shown |
| Visits.VisitQuery | src/hooks/useVisits.ts:23-33 | the owner condition comes first, with a client or animal condition exactly when that filter is given, and no other condition |
| Visits.Linked | src/hooks/useVisits.ts:76-83 | each supplied medication is linked to the new visit and the owner |
| Visits.VisitStore.FetchVisits | src/hooks/useVisits.ts:16-48 | without a user nothing is queried; otherwise the scoped rows replace the visits, or the error is recorded |
| Visits.VisitStore.CreateVisit | src/hooks/useVisits.ts:54-107 | a stored visit is prepended and its saved medications joined to the front once every checked write succeeds; a failure leaves both lists unchanged |
| Visits.VisitStore.UpdateVisit | src/hooks/useVisits.ts:109-135 | only the visits with the id are replaced |
| Visits.VisitStore.DeleteVisit | src/hooks/useVisits.ts:137-159 | the visit and every medication linked to it leave; nothing else does, and the order stays |
| Visits.VisitStore.RecordVitalSigns | src/hooks/useVisits.ts:161-187 | the reading is stored for the animal and owner, and neither list changes |
| TableCache.OwnerConditionSupplied | src/hooks/useSupabaseData.ts:24-30 | with filters given, the owner condition is in the query iff the caller supplied it |
| TableCache.Cache.FetchData | src/hooks/useSupabaseData.ts:11-46 | without a user the error is set and no query is issued; filters, when given, replace the owner scoping one condition per entry; the rows replace the data or the error is recorded |
| TableCache.Cache.CreateRecord | src/hooks/useSupabaseData.ts:48-72 | the created row is appended; a failure leaves the data unchanged |
| TableCache.Cache.UpdateRecord | src/hooks/useSupabaseData.ts:74-102 | the rows with the id become the returned row; the length and every other row stay |
| TableCache.Cache.DeleteRecord | src/hooks/useSupabaseData.ts:104-127 | exactly the rows with the id leave; the rest keep their order |
| Animals.AnimalQuery | src/hooks/useAnimals.ts:19-26 | the owner condition comes first, with a client condition exactly when a client is given, and no other condition |
| Animals.AnimalStore.FetchAnimals | src/hooks/useAnimals.ts:12-41 | without a user nothing happens; otherwise the scoped rows replace the list, or the error is recorded |
| Animals.AnimalStore.AddAnimal | src/hooks/useAnimals.ts:47-69 | a stored animal is prepended; a failure changes nothing |
| Animals.AnimalStore.UpdateAnimal | src/hooks/useAnimals.ts:71-97 | only the animals with the id are replaced |
| Animals.AnimalStore.DeleteAnimal | src/hooks/useAnimals.ts:99-120 | exactly the animals with the id leave; the rest keep their order |
| AnimalsPanel.ClientAnimals | src/components/AnimalsPanel.tsx:72-74 | with no selected client all animals are listed, otherwise only that client's |
| AnimalsPanel.FilteredAnimals | src/components/AnimalsPanel.tsx:76-81 | every listed animal matches the term |
| AnimalsPanel.FilteredAnimalsExact | src/components/AnimalsPanel.tsx:72-81 | an animal is listed iff it belongs to the selection and its lower-cased ear tag, name or breed contains the lower-cased term; no selection and an empty term list all |
| AnimalsPanel.FormOf | src/components/AnimalsPanel.tsx:118-133 | editing fills each of the nine form fields from the same field of the animal |
| AnimalsPanel.RowOf | src/components/AnimalsPanel.tsx:96-108 | the added animal carries each form field in the same field, under the selected client, with the id and owner left for the store |
| AnimalsPanel.FormRoundTrip | src/components/AnimalsPanel.tsx:96-132 | a row turned into a form and back is the same row, and a form turned into a row and back is the same form |
| AnimalsPanel.HerdScreen.ResetForm | src/components/AnimalsPanel.tsx:147-160 | the form returns to its defaults and the edit is forgotten; the selected client is kept |
| AnimalsPanel.HerdScreen.HandleEdit | src/components/AnimalsPanel.tsx:118-133 | the form takes the animal's fields, its client is selected, the edit id is set and the dialog opens |
| AnimalsPanel.HerdScreen.HandleSubmit | src/components/AnimalsPanel.tsx:83-116 | the required fields are checked first and only then the client; it updates when editing and adds for the selected client otherwise |
| ClientsPanel.FilteredClients | src/components/ClientsPanel.tsx:26-29 | every listed client matches the term |
| ClientsPanel.FilteredClientsExact | src/components/ClientsPanel.tsx:26-29 | a client is listed iff its lower-cased name contains the lower-cased term or its phone contains the raw term; an empty term lists all |
| ClientsPanel.FormOf | src/components/ClientsPanel.tsx:43-53 | editing copies all five fields |
| ClientsPanel.ClientScreen.HandleSubmit | src/components/ClientsPanel.tsx:31-41 | it updates the edited client or adds one, then clears the edit and resets and hides the form |
| ClientsPanel.ClientScreen.StartEdit | src/components/ClientsPanel.tsx:43-53 | the form takes the client's fields, the edit id is set and the form is shown |
| ClientsPanel.ClientScreen.CancelEdit | src/components/ClientsPanel.tsx:55-59 | the edit is cleared and the form reset and hidden |
| ClientsPanel.EditThenSubmit | src/components/ClientsPanel.tsx:31-53 | editing a client and submitting sends its own fields back under its id |
| ClientsPanel.DebtDisplayOf | src/components/ClientsPanel.tsx:184-189 | a client is shown owing, with the amount and the "Borçlu" badge, iff the debt is positive; otherwise "Borç Yok" |
| Assistant.Route | src/components/AIAssistant.tsx:5-51 | the topic is the first, in fixed order, whose keywords occur in the lower-cased prompt, and the greeting when none does |
| Assistant.RouteIsFirstMatch | src/components/AIAssistant.tsx:9-51 | the routed topic is one the prompt asks about, and no topic it asks about comes earlier |
| Assistant.Shown | src/components/AIAssistant.tsx:70-77 | a user message shows its text and a failure shows the fixed error text |
| Assistant.Chat.Send | src/components/AIAssistant.tsx:64-71 | nothing happens for a blank input or while a reply is awaited; otherwise the trimmed text is appended, the input cleared and loading set |
| Assistant.Chat.Respond | src/components/AIAssistant.tsx:73-80 | exactly one assistant message is appended, the answer or the error text, and loading ends |
| Assistant.Exchange | src/components/AIAssistant.tsx:64-81 | a whole exchange only appends: the trimmed user text and one reply |
| AuthPage.ErrorText | src/pages/Auth.tsx:49-57 | the two known service messages get their fixed texts, in that order, and any other message is shown as it is |
| AuthPage.SignUpCheck | src/pages/Auth.tsx:30-40 | a sign-up passes iff the passwords match and have at least 6 characters; a mismatch is reported before the length |
| AuthPage.AuthForm.HandleSubmit | src/pages/Auth.tsx:25-61 | sign-up runs the local checks and makes no call when one fails; sign-in checks nothing; a rejection shows the mapped text; loading ends in every case |
| AuthPage.AuthForm.ToggleMode | src/pages/Auth.tsx:168-173 | the mode flips and email, password and confirmation are cleared |

## Left out

- Backend access: the query builders, the network and the server's ids and timestamps are not modelled. Each call is a parameter that carries its outcome, and a query is returned as its list of conditions.
- The order-by clauses of the list queries, and the owner and id conditions on update and delete requests, are not modelled. The returned list and the returned row stand for their effect.
- TableCache.Cache.CreateRecord: the cache is generic in its row type, so the `user_id` added to the insert payload is not modelled.
- Error texts: a failed call's message is the message of the error it raised. The fallback texts shown for values that are not `Error` objects are not modelled.
- `data || []` and similar guards against null results: a successful reply always carries a list.
- Dates and locale: `new Date()`, ISO conversion, time zones, `toLocaleDateString` and number formatting are parameters or are left out. So are the labels of the month buckets.
- Floating point: amounts are integers. `parseFloat(...) || 0` on form input and the stock bar width are left out.
- Strings are sequences of characters. Lower-casing, trimming and locale comparison are parameters. Length and comparison in the model count characters, whereas the source counts UTF-16 code units; this applies to the password length and to the ISO date comparison.
- Financial.DeriveStatus: the source's status strings other than "Paid" and "Partial" are all modelled as Pending.
- Financial.CategoryTotalOf: the JavaScript object that accumulates the category totals would also read inherited property names such as "constructor". Categories are modelled as plain map keys. The enumeration order of `Object.entries` is not modelled.
- Medications.MedicationStore.AddMedication: the result is stated as sorted and as the old list plus the new row. The exact position among equal names follows the stable insertion of the model and is not claimed to match the library sort.
- Concurrency: two tabs recording payments against a stale payment snapshot, and cancelled or interleaved requests, are outside a sequential model. The non-atomic writes are exposed as `persisted` and `requested…` out-parameters.
- The toasts and alerts are modelled by their kind and text, and the dialogs by their open flags; only their rendering is left out, together with the rest of the JSX, the 800 ms delay and the canned answer texts of the assistant. The answers are represented by their topic.
- `src/hooks/useAuth.ts` is not part of this model: the current user is a parameter. The same holds for `src/components/Navigation.tsx`, `src/components/ThemeToggle.tsx`, `src/pages/Index.tsx` and `src/components/AdvancedVisitsPanel.tsx`.
- The edit id of a form is an `Option`, and the submit handlers test `Some?`. The source tests truthiness (`if (editingId)`), so an empty-string id counts as not editing. The model does not distinguish that case, since edit ids are taken from stored rows.
- `src/types/index.ts` has no behaviour. It is used only for the record fields.
