# Invoicing app: a Dafny model of its core

The application keeps customers and invoices. It has an Express/Mongoose backend and a React/Redux frontend. This project models the logic of both sides and proves what that logic promises.

**Backend**
- Customer schema: names are trimmed and at least 2 characters, e-mails are trimmed, lower-cased, pattern-checked and unique, and phones are 10 digits.
- Invoice schema: line items are non-empty, quantity is at least 1, rate is at least 0, totals are non-negative, and the invoice number is unique.
- Numbering: the pre-validate hook gives each new invoice the number `INV-` followed by the count plus one, padded to five digits.
- Creating an invoice: items are priced as `amount = quantity * rate`, then a subtotal, a fixed 18 % tax and a total are computed.
- Creating a customer: a duplicate e-mail is refused.
- The two paginated, newest-first list endpoints. Invoices can be filtered by customer.
- The two lookups by identity, with their 404 replies.

**Frontend**
- The create-invoice form: a draft item list, the totals the form shows live, and the filter that picks which drafts are submitted.
- The two Redux slices and their error-message fallbacks.
- The menu-key selection of the main layout.

Modules follow the source files:

| module | file | models |
|---|---|---|
| `Wrappers`, `Text`, `Http`, `Search` | `wrappers.dfy`, `text.dfy`, `http.dfy`, `search.dfy` | `Option` for JSON `null`; JavaScript's `trim`, `toLowerCase`, `padStart` and decimal rendering; the reply shape `{ success, message, data / errors }`; the first-match lookup of `findById` and `findOne` |
| `Pagination` | `pagination.dfy` | `skip`, `totalPages`, and the newest-first skip/limit window |
| `InvoiceModel` | `invoice_model.dfy` | the invoice and line-item schemas as validators, and the invoice number hook on a document class |
| `CustomerModel` | `customer_model.dfy` | the customer schema: setters, the e-mail and phone patterns, and the messages |
| `InvoiceController` | `invoice_controller.dfy` | pricing, and the invoice collection as a class with `createInvoice`, `getAllInvoices` and `getInvoiceById` |
| `CustomerController` | `customer_controller.dfy` | the customer collection as a class with `createCustomer`, `getAllCustomers` and `getCustomerById` |
| `InvoiceForm` | `invoice_form.dfy` | the form's state as a class, with its handlers and the totals effect |
| `SliceCommon`, `InvoiceSlice`, `CustomerSlice` | `slice_common.dfy`, `invoice_slice.dfy`, `customer_slice.dfy` | the Redux slices as classes whose reducers assign fields in place |
| `MainLayout` | `main_layout.dfy` | `getSelectedKey` |

How values are modelled:
- Money and quantities are exact `real` numbers. The source does no rounding, and the model adds none.
- String lengths that a validator compares are JavaScript lengths, counted in UTF-16 code units.
- A JSON `null` or missing field is `None`. In arithmetic, `null` counts as 0, as in JavaScript.
- A collection is a sequence of records in creation order, so "newest first" means reversed. A unique index is an insert that refuses a duplicate key.
- The database's identities come from a counter in the store.
- The clock reading used for a missing invoice date is a parameter, `now`.

What is proved, in outline:
- **Pricing.** The priced items keep the input's order and fields. The subtotal is the sum of quantity times rate, the tax amount is 18 % of it, the total is 118 % of it, and with non-negative inputs all three are non-negative.
- **Invoice numbers.** Every number starts with `INV-`, and its digit part reads back as the count plus one. It is exactly 9 characters long if and only if the count plus one is at most 99999. Distinct counts give distinct numbers.
- **Validation.** Each validation function returns no messages if and only if the record is valid. The messages of every failing field and every failing item are collected together.
- **Stores.** Every create operation keeps the store's invariant: records are well formed and keys are pairwise distinct. Each reply case is stated, together with the new store for that case.
- **Invoice store.** If every stored invoice carries the number for its position, no insert ever hits the unique index. A store built only by the create operation is always in that state.
- **Listing.** The pages cover the collection in newest-first order, and a page past the last one is empty.
- **Form totals.** When every draft passes the submit filter, the form's totals match the ones the backend stores. The form also counts drafts that the filter drops, so otherwise the two can differ (`InvoiceForm.FormTotalsCountFailingDrafts`).
- **Form list.** The draft list is never empty, and each handler changes only what it should.
- **Slices.** Each reducer is stated as the exact change to the state snapshot.
- **Error messages.** For any refusal from this backend, the message the create thunks compute is the reply's own message.

Two observations follow from the model as written:
- The form's submit filter is weaker than the item schema. A rate the user cleared passes the client's `rate >= 0`, because `null >= 0` holds in JavaScript. So do a name made only of blanks and a quantity between 0 and 1. The backend then refuses the invoice. See `InvoiceForm.FilterAdmitsRefusedItems`.
- Every refusal the backend sends carries a `message`. So the create thunks never use their `errors[0]` or fallback alternatives for such a reply, and a validation failure shows up in the UI as "Validation error". See `SliceCommon.RefusalMessageWins`.

## Model

| member | source | states |
|---|---|---|
| InvoiceController.PriceItem | backend/controllers/invoiceController.js:17-22 | a priced item keeps name, quantity and rate, and its amount is quantity times rate (`null` counts as 0) |
| InvoiceController.PriceItems | backend/controllers/invoiceController.js:17-22 | the priced list has the input's length and order, item by item |
| Search.FirstWhere | backend/controllers/customerController.js:7 | the first row whose key equals the queried value: it is in the rows and has that key, no earlier row has it, and the result is None exactly when no row has the key |
| InvoiceController.Subtotal | backend/controllers/invoiceController.js:24 | the left fold from 0 over the amounts: 0 for no items; SubtotalIsSumOfProducts states its value |
| InvoiceController.TaxAmountOf | backend/controllers/invoiceController.js:26-27 | `tax` percent of the subtotal: 0 when either is 0, at least 0 for non-negative inputs, and at most the subtotal for a rate up to 100 |
| InvoiceController.SubtotalIsSumOfProducts | backend/controllers/invoiceController.js:24 | the reduced subtotal equals the sum of quantity × rate over the items; 0 for no items |
| InvoiceController.SubtotalAppend | backend/controllers/invoiceController.js:24 | the subtotal of a concatenation is the sum of the subtotals |
| InvoiceController.SubtotalNonNegative | backend/controllers/invoiceController.js:24 | with every amount at least 0, the subtotal is at least 0 |
| InvoiceController.PricedTotalsNonNegative | backend/controllers/invoiceController.js:17-29 | with all quantities and rates at least 0, subtotal, tax amount and total are all at least 0 |
| InvoiceController.TotalIsSubtotalPlusTax | backend/controllers/invoiceController.js:26-29 | subtotal + subtotal × 18 / 100 is subtotal × 118 / 100 |
| InvoiceController.PricingExample | backend/controllers/invoiceController.js:17-29 | two items of 2 × 50 and 1 × 25.5 give subtotal 125.5, tax amount 22.59 and total 148.09 |
| InvoiceController.SubtotalCast | backend/models/Invoice.js:4-8 | trimming item names when the document is built leaves the subtotal unchanged |
| InvoiceController.PricedAmounts | backend/controllers/invoiceController.js:17-22 | every item of the built document has amount = quantity × rate |
| InvoiceController.NewInvoice | backend/controllers/invoiceController.js:17-39 | the built invoice has the request's customer and date, the hook's number, the priced items, a subtotal that is the sum of products, tax 18, tax amount = subtotal × 18 / 100, and total = subtotal + tax amount |
| InvoiceController.BuildInvoice | backend/controllers/invoiceController.js:17-39 | pricing, `new Invoice(...)` and the pre-validate hook together build exactly `NewInvoice` for the current identity and count |
| InvoiceController.ForCustomer | backend/controllers/invoiceController.js:76-80 | the filter keeps exactly the invoices of the given customer, and all invoices when none is given; never longer than the input |
| InvoiceController.ForCustomerAppend | backend/controllers/invoiceController.js:76-84 | the filter keeps order: filtering a concatenation is concatenating the filtered parts |
| InvoiceController.SequentialAppend | backend/models/Invoice.js:74-80 | appending the invoice numbered for the current count keeps every invoice numbered by its position |
| InvoiceController.InvoiceStore.constructor | backend/models/Invoice.js:25-30 | the collection starts empty, valid and sequentially numbered |
| InvoiceController.InvoiceStore.NumberTaken | backend/models/Invoice.js:26-30 | the unique-index lookup finds a stored invoice with that number exactly when one exists |
| InvoiceController.InvoiceStore.NextNumberFree | backend/models/Invoice.js:74-80 | in a sequentially numbered store, the number for the current count is not taken |
| InvoiceController.InvoiceStore.Insert | backend/models/Invoice.js:26-30 | the unique index: insertion succeeds exactly when the number is new, appends just that invoice and keeps numbers pairwise distinct; otherwise nothing changes |
| InvoiceController.InvoiceStore.RequestedCustomer | backend/controllers/invoiceController.js:9-10 | the request's customer is found exactly when the request names one and a stored customer has that identity |
| InvoiceController.InvoiceStore.Save | backend/controllers/invoiceController.js:41-66 | failed validation gives 400 "Validation error" with every message and stores nothing; a taken number gives 500 and stores nothing; otherwise 201 appends exactly the invoice; an invoice numbered for the count in a sequentially numbered store never reaches 500 and keeps the store sequentially numbered |
| InvoiceController.InvoiceStore.SaveNew | backend/controllers/invoiceController.js:17-66 | once the customer is known: 400 with every message of the new invoice when it fails validation, 500 on a taken number, otherwise 201 storing exactly `NewInvoice` for the current identity and count; a sequentially numbered store never reaches 500 and stays sequentially numbered |
| InvoiceController.InvoiceStore.CreateInvoice | backend/controllers/invoiceController.js:5-67 | an unknown customer gives 404 "Customer not found" and stores nothing; otherwise failed validation gives 400 "Validation error" with every message and stores nothing, a taken number gives 500, and otherwise 201 stores exactly the new invoice; a sequentially numbered store never reaches the 500 case and stays sequentially numbered |
| InvoiceController.InvoiceStore.ListInvoices | backend/controllers/invoiceController.js:70-98 | `total` counts only the matching invoices; the page holds min(limit, matching − skip) rows, none past the end; with a customer every row has it; row k is the matching invoice at newest-first position skip + k; totalPages = ceil(total / limit) |
| InvoiceController.InvoiceStore.GetInvoiceById | backend/controllers/invoiceController.js:112-127 | 200 with the stored invoice of that identity exactly when one exists, otherwise 404 "Invoice not found" |
| InvoiceModel.CastItem | backend/models/Invoice.js:4-8 | the `trim` setter: the name is trimmed and the other fields are kept |
| InvoiceModel.CastItems | backend/models/Invoice.js:41-42 | every item of the array is cast, in order |
| InvoiceModel.ItemErrors | backend/models/Invoice.js:3-23 | no messages exactly when the name is non-empty, quantity ≥ 1 and rate ≥ 0; each failing field gives its own message, with `required` before `min` |
| InvoiceModel.AllItemErrors | backend/models/Invoice.js:41-42 | no messages exactly when every item is valid |
| InvoiceModel.AllItemErrorsCollects | backend/controllers/invoiceController.js:53-54 | every message of every item is among the collected messages, and each collected message comes from some item |
| InvoiceModel.InvoiceErrors | backend/models/Invoice.js:25-69 | no messages exactly when the number is set, the items are non-empty and valid, and subtotal, tax amount and total are all ≥ 0; the missing-number message, the empty-list message and each total's `min` message appear exactly when that path fails |
| InvoiceModel.InvoiceErrorsCollectsItems | backend/controllers/invoiceController.js:53-59 | every message of every failing item is among the messages the invoice's validation reports, and every other reported message is one of the invoice's own five |
| InvoiceModel.InvoiceNumber | backend/models/Invoice.js:77 | the hook's number starts with "INV-" and is at least 9 characters long |
| InvoiceModel.InvoiceNumberFormat | backend/models/Invoice.js:77 | the number starts with "INV-", its digit part reads back as count + 1, and it is 9 characters long exactly when count + 1 ≤ 99999 |
| InvoiceModel.InvoiceNumberInjective | backend/models/Invoice.js:77 | two counts give the same number exactly when they are equal, past 99999 too |
| InvoiceModel.InvoiceDocument.constructor | backend/models/Invoice.js:55-59 | the new document casts its items, takes tax 18 when none is given, and has no number yet |
| InvoiceModel.InvoiceDocument.PreValidate | backend/models/Invoice.js:74-80 | a document without a number gets the number for the count; one that has a number keeps it |
| InvoiceModel.InvoiceDocument.Record | backend/models/Invoice.js:25-72 | the saved record carries every field of the document: identity, number, customer, date, items, subtotal, tax, tax amount and total |
| CustomerModel.NormalizeEmail | backend/models/Customer.js:14-15 | the stored e-mail is the input trimmed and then lower-cased; it is trimmed, has no capital letters, and is never longer than the input |
| CustomerModel.NormalizedEmailFixed | backend/models/Customer.js:14-15 | the setters leave a trimmed address without capitals unchanged |
| CustomerModel.NormalizeEmailIdempotent | backend/models/Customer.js:14-15 | normalising twice is normalising once |
| CustomerModel.EmailPatternShape | backend/models/Customer.js:16 | an accepted e-mail has exactly one '@' with a word character on each side, and ends in '.' plus 2 or 3 word characters |
| CustomerModel.SegmentShape | backend/models/Customer.js:16 | a `\w+([\.-]?\w+)*` segment has no '@' and starts and ends with a word character |
| CustomerModel.DomainGroupsShape | backend/models/Customer.js:16 | the domain part has no '@' and ends in '.' plus 2 or 3 word characters |
| CustomerModel.EmailPatternAccepts | backend/models/Customer.js:16 | "ab@cd.com" matches the pattern |
| CustomerModel.EmailPatternRefuses | backend/models/Customer.js:16 | "ab@cd" and "a@b@cd.com" do not match |
| CustomerModel.NameErrors | backend/models/Customer.js:4-9 | no message exactly when the trimmed name is at least 2 UTF-16 code units long; otherwise exactly the required or the length message, whichever applies |
| CustomerModel.NameLengthInCodeUnits | backend/models/Customer.js:8 | `minlength` counts UTF-16 code units: a single emoji is long enough, a single letter is not |
| CustomerModel.EmailErrors | backend/models/Customer.js:10-17 | no message exactly when the normalised e-mail matches the pattern; otherwise exactly the required or the pattern message |
| CustomerModel.PhoneErrors | backend/models/Customer.js:18-23 | no message exactly when the trimmed phone is 10 digits; otherwise exactly the required or the pattern message |
| CustomerModel.CustomerErrors | backend/models/Customer.js:3-23 | the messages are the name's, then the e-mail's, then the phone's, all reported together; no messages exactly when all three fields are valid; each missing field gives its required message |
| CustomerModel.ToCustomer | backend/models/Customer.js:3-23 | a valid input is stored with the given identity, its name and phone trimmed and its e-mail normalised, and the record is well formed |
| CustomerController.CustomerTable.constructor | backend/models/Customer.js:13 | the collection starts empty and valid |
| CustomerController.CustomerTable.FindByEmail | backend/controllers/customerController.js:7 | the lookup normalises the queried e-mail as the setters do, and finds none exactly when no stored e-mail equals it |
| CustomerController.CustomerTable.FindById | backend/controllers/customerController.js:80 | finds the stored customer with that identity, or none exactly when none has it |
| CustomerController.CustomerTable.Insert | backend/models/Customer.js:13 | the unique index: insertion succeeds exactly when the e-mail is new and appends just that customer; otherwise nothing changes |
| CustomerController.CustomerTable.CreateCustomer | backend/controllers/customerController.js:3-46 | a stored e-mail gives 400 "Customer with this email already exists" and no change; invalid input gives 400 "Validation error" with every field message and no change; otherwise 201 and exactly the new customer is appended |
| CustomerController.CustomerTable.ListCustomers | backend/controllers/customerController.js:48-67 | total is the number of customers; the page holds min(limit, total − skip) rows, none past the end; row k is the customer at newest-first position skip + k; totalPages = ceil(total / limit); page and limit default to 1 and 10 |
| CustomerController.CustomerTable.GetCustomerById | backend/controllers/customerController.js:78-92 | 200 with the stored customer exactly when one has that identity, otherwise 404 "Customer not found" |
| CustomerController.StoredEmailFindsItself | backend/models/Customer.js:13-15 | looking up a stored e-mail finds that customer and no other |
| Pagination.TotalPages | backend/controllers/customerController.js:65 | the least page count that holds `total` rows of `limit` each: 0 exactly when total is 0 |
| Pagination.Skip | backend/controllers/customerController.js:51 | the rows on the pages before `page`: none for the first page |
| Pagination.Window | backend/controllers/customerController.js:51-56 | at most `limit` consecutive rows starting at `skip`; empty once `skip` passes the end |
| Pagination.NewestFirst | backend/controllers/customerController.js:54 | the rows in reverse creation order |
| Pagination.PageOf | backend/controllers/invoiceController.js:81-97 | the reply carries the total, the page, ceil(total / limit) pages and the window at skip = (page - 1) × limit, which holds min(limit, total − skip) rows, row k being the row at newest-first position skip + k |
| Pagination.PagesCover | backend/controllers/customerController.js:51-65 | every row appears on page i / limit + 1, which is within totalPages |
| Pagination.PastLastPageEmpty | backend/controllers/customerController.js:51-65 | a page past totalPages is empty |
| InvoiceForm.ApplyEdit | frontend/src/components/Invoices/InvoiceForm.js:75 | the named field takes the value and the other two keep theirs |
| InvoiceForm.DraftSubtotal | frontend/src/components/Invoices/InvoiceForm.js:60-63 | the fold over every draft, passing or not, from 0: 0 for no drafts; DraftSubtotalMatchesBackend relates it to the backend |
| InvoiceForm.DraftSubtotalMatchesBackend | frontend/src/components/Invoices/InvoiceForm.js:60-63 | the form's subtotal over the drafts equals the subtotal the backend computes for the same items |
| InvoiceForm.Passes | frontend/src/components/Invoices/InvoiceForm.js:92 | the submit filter with JavaScript's reading of `null`: a cleared quantity fails, a cleared rate passes |
| InvoiceForm.SubmittedItems | frontend/src/components/Invoices/InvoiceForm.js:92 | exactly the passing drafts are kept; empty exactly when none passes; all are kept when all pass |
| InvoiceForm.SubmittedItemsAppend | frontend/src/components/Invoices/InvoiceForm.js:92 | the filter keeps order: filtering a concatenation is concatenating the filtered parts |
| InvoiceForm.WithoutIndex | frontend/src/components/Invoices/InvoiceForm.js:85 | the index-based filter removes exactly position `index`, or nothing when the index is out of range |
| InvoiceForm.DraftForm.constructor | frontend/src/components/Invoices/InvoiceForm.js:34-37 | the form starts with one blank item and zero totals |
| InvoiceForm.DraftForm.RecalculateTotals | frontend/src/components/Invoices/InvoiceForm.js:59-71 | afterwards subtotal = Σ (quantity or 0) × (rate or 0), tax = subtotal × 18 / 100 and total = subtotal + tax; the items are unchanged |
| InvoiceForm.DraftForm.HandleItemChange | frontend/src/components/Invoices/InvoiceForm.js:73-77 | only the given field of item `index` changes; the length and all other items are unchanged; the list stays non-empty and the totals follow |
| InvoiceForm.DraftForm.AddItem | frontend/src/components/Invoices/InvoiceForm.js:79-81 | exactly one blank item is appended, and earlier items are unchanged |
| InvoiceForm.DraftForm.RemoveItem | frontend/src/components/Invoices/InvoiceForm.js:83-88 | the item at `index` is removed only when more than one item exists, otherwise nothing changes; the list never becomes empty |
| InvoiceForm.DraftForm.HandleSubmit | frontend/src/components/Invoices/InvoiceForm.js:90-106 | nothing is dispatched exactly when no draft passes; otherwise the request carries the customer, the date (or the clock's), and exactly the passing drafts in order |
| InvoiceForm.StoredTotalsMatchForm | frontend/src/components/Invoices/InvoiceForm.js:59-71 | when every draft passes, the stored invoice's subtotal, tax amount and total are the ones the form showed |
| InvoiceForm.FormTotalsCountFailingDrafts | frontend/src/components/Invoices/InvoiceForm.js:60-63 | with a nameless 2 × 10 draft beside a passing 1 × 5, the form shows subtotal 25 while the stored invoice has subtotal 5 |
| InvoiceForm.PassingItemAccepted | frontend/src/components/Invoices/InvoiceForm.js:92 | a passing draft with a non-blank name, quantity ≥ 1 and a filled-in rate is accepted by the item schema |
| InvoiceForm.FilterAdmitsRefusedItems | frontend/src/components/Invoices/InvoiceForm.js:92 | a cleared rate, a blank name or a quantity of 0.5 passes the filter and is refused by the item schema |
| SliceCommon.FirstError | frontend/src/redux/slices/invoiceSlice.js:25 | `errors?.[0]` is present exactly when the array is present and non-empty, and is its first element |
| SliceCommon.FetchRejection | frontend/src/redux/slices/invoiceSlice.js:11 | the reply's message when it is non-empty, otherwise the fallback; never empty when the fallback is not |
| SliceCommon.CreateRejection | frontend/src/redux/slices/invoiceSlice.js:23-27 | tries the message, then errors[0], then the fallback, each only when the earlier ones are missing or empty |
| SliceCommon.RefusalBody | backend/controllers/invoiceController.js:53-59 | a refusal's body carries its message, and an `errors` array exactly when there are field messages |
| SliceCommon.RefusalMessageWins | frontend/src/redux/slices/customerSlice.js:23-27 | for any refusal with a message, both thunk fallbacks reject with that message |
| SliceCommon.ValidationRefusalSurfacesSummary | frontend/src/redux/slices/customerSlice.js:23-27 | a validation refusal of createCustomer surfaces as "Validation error" |
| SliceCommon.FieldMessageWithoutSummary | frontend/src/redux/slices/customerSlice.js:23-27 | without a message, the first field message is used by create and the fallback by fetch |
| SliceCommon.Spread | frontend/src/redux/slices/invoiceSlice.js:69-74 | a key the payload carries is overwritten, and one it does not carry is kept |
| SliceCommon.MergePagination | frontend/src/redux/slices/invoiceSlice.js:72-74 | each pagination key the payload carries is overwritten and every other key keeps its value |
| SliceCommon.MergeComposes | frontend/src/redux/slices/customerSlice.js:53-55 | two merges are one merge of the combined payload; an empty payload changes nothing; repeating a merge changes nothing more |
| SliceCommon.FetchedPagination | frontend/src/redux/slices/invoiceSlice.js:88-93 | page, total and totalPages come from the reply and the limit is the previous one |
| InvoiceSlice.Slice.constructor | frontend/src/redux/slices/invoiceSlice.js:46-61 | empty list, no current invoice, not loading, no error, no success, page 1, limit 10, total 0, 0 pages, no customer filter |
| InvoiceSlice.Slice.ClearError | frontend/src/redux/slices/invoiceSlice.js:63-65 | only `error` is reset |
| InvoiceSlice.Slice.ClearSuccess | frontend/src/redux/slices/invoiceSlice.js:66-68 | only `success` is reset |
| InvoiceSlice.Slice.SetFilters | frontend/src/redux/slices/invoiceSlice.js:69-71 | the customer filter changes only when the payload carries it; nothing else changes |
| InvoiceSlice.Slice.SetPagination | frontend/src/redux/slices/invoiceSlice.js:72-74 | pagination becomes the merge; nothing else changes |
| InvoiceSlice.Slice.ClearCurrentInvoice | frontend/src/redux/slices/invoiceSlice.js:75-77 | only `currentInvoice` is reset |
| InvoiceSlice.Slice.FetchInvoicesPending | frontend/src/redux/slices/invoiceSlice.js:81-84 | loading is set and error cleared; nothing else changes |
| InvoiceSlice.Slice.FetchInvoicesFulfilled | frontend/src/redux/slices/invoiceSlice.js:85-94 | the list becomes the reply's page, page/total/totalPages come from the reply, the limit is kept, and loading ends |
| InvoiceSlice.Slice.FetchInvoicesRejected | frontend/src/redux/slices/invoiceSlice.js:95-98 | loading ends and error is the thunk's message, which is never empty |
| InvoiceSlice.Slice.CreateInvoicePending | frontend/src/redux/slices/invoiceSlice.js:100-104 | loading is set and error and success are cleared |
| InvoiceSlice.Slice.CreateInvoiceFulfilled | frontend/src/redux/slices/invoiceSlice.js:105-109 | the list becomes [payload] followed by the old list (one longer), success is set and loading ends |
| InvoiceSlice.Slice.CreateInvoiceRejected | frontend/src/redux/slices/invoiceSlice.js:110-114 | loading ends, error is the create thunk's message and success is cleared |
| InvoiceSlice.Slice.FetchInvoiceByIdPending | frontend/src/redux/slices/invoiceSlice.js:116-119 | loading is set and error cleared |
| InvoiceSlice.Slice.FetchInvoiceByIdFulfilled | frontend/src/redux/slices/invoiceSlice.js:120-123 | the current invoice is the payload and loading ends |
| InvoiceSlice.Slice.FetchInvoiceByIdRejected | frontend/src/redux/slices/invoiceSlice.js:124-127 | loading ends and error is the thunk's message |
| InvoiceSlice.CreateCycle | frontend/src/redux/slices/invoiceSlice.js:100-109 | pending, fulfilled, then clearSuccess leave the new invoice at the front, nothing loading or flagged, and the rest unchanged |
| InvoiceSlice.FailedCreateCycle | frontend/src/redux/slices/invoiceSlice.js:100-114 | pending then rejected leave the list unchanged, success down and the reply's message as the error |
| CustomerSlice.Slice.constructor | frontend/src/redux/slices/customerSlice.js:34-45 | empty list, not loading, no error, no success, page 1, limit 10, total 0, 0 pages |
| CustomerSlice.Slice.ClearError | frontend/src/redux/slices/customerSlice.js:47-49 | only `error` is reset |
| CustomerSlice.Slice.ClearSuccess | frontend/src/redux/slices/customerSlice.js:50-52 | only `success` is reset |
| CustomerSlice.Slice.SetPagination | frontend/src/redux/slices/customerSlice.js:53-55 | pagination becomes the merge; nothing else changes |
| CustomerSlice.Slice.FetchCustomersPending | frontend/src/redux/slices/customerSlice.js:59-62 | loading is set and error cleared |
| CustomerSlice.Slice.FetchCustomersFulfilled | frontend/src/redux/slices/customerSlice.js:63-72 | the list becomes the reply's page, page/total/totalPages come from the reply and the limit is kept |
| CustomerSlice.Slice.FetchCustomersRejected | frontend/src/redux/slices/customerSlice.js:73-76 | loading ends and error is the thunk's message |
| CustomerSlice.Slice.CreateCustomerPending | frontend/src/redux/slices/customerSlice.js:77-81 | loading is set and error and success are cleared |
| CustomerSlice.Slice.CreateCustomerFulfilled | frontend/src/redux/slices/customerSlice.js:82-86 | the new customer goes in front of the old list and success is set |
| CustomerSlice.Slice.CreateCustomerRejected | frontend/src/redux/slices/customerSlice.js:87-91 | loading ends, error is the create thunk's message and success is cleared |
| CustomerSlice.RefusedCreateCycle | frontend/src/redux/slices/customerSlice.js:16-30 | for any refusal from createCustomer, the slice ends with the reply's message as its error and the list unchanged |
| MainLayout.SelectedKey | frontend/src/layouts/MainLayout.js:25-29 | "/invoices" exactly when the path starts with it; otherwise "/customers" exactly when the path starts with that; otherwise the path itself; so always a menu key or the path |
| MainLayout.SelectedKeyIdempotent | frontend/src/layouts/MainLayout.js:25-29 | selecting from the selected key gives the same key |
| MainLayout.RoutesSelectTheirEntry | frontend/src/layouts/MainLayout.js:26-28 | "/invoices/create" and "/invoices/42" select "/invoices", "/customers" selects itself and "/" is returned unchanged |
| Text.Trim | backend/models/Customer.js:7 | the result is an infix of the input that neither starts nor ends with white space, and everything outside it is white space |
| Text.Utf16Length | backend/models/Customer.js:8 | JavaScript's `length`: between the number of characters and twice it, and equal to it when no character is outside the Basic Multilingual Plane |
| Text.TrimIdempotent | backend/models/Customer.js:7 | trimming twice is trimming once |
| Text.Utf16LengthChar | backend/models/Customer.js:8 | one character counts two code units when it lies outside the Basic Multilingual Plane, otherwise one |
| Text.Utf16LengthAppend | backend/models/Customer.js:8 | the code units of a concatenation are the sum of its parts', so with Utf16LengthChar the count is exact for every string |
| Text.ToLower | backend/models/Customer.js:15 | same length, each character mapped by LowerChar: ASCII capitals to small letters, everything else kept |
| Text.ToLowerIdempotent | backend/models/Customer.js:15 | lower-casing twice is lower-casing once |
| Text.TrimToLower | backend/models/Customer.js:14-15 | trimming and lower-casing commute |
| Text.PadStart | backend/models/Invoice.js:77 | the result has the larger of the two lengths, ends with the input, and is filled in front |
| Text.NatToString | backend/models/Invoice.js:77 | at least one digit, only digits, and no leading zero |
| Text.NatToStringValue | backend/models/Invoice.js:77 | the decimal rendering reads back as the number |
| Text.NatToStringLength | backend/models/Invoice.js:77 | the rendering fits in k digits exactly when the number is below 10^k |

## Left out

- Floating point: JavaScript numbers are modelled as exact reals, so rounding in sums and products, and the form's `toFixed(2)` display, are not modelled.
- NaN and a non-array `items` body (the `TypeError` of `items.map`) are not modelled. The request's `items` is a sequence.
- The count-then-assign race of the numbering hook (backend/models/Invoice.js:76) is not modelled: operations are sequential. The 500 reply for a taken number is modelled and is the only trace of it.
- Mongoose's casting of request values to schema types is not modelled, including cast errors for malformed identities, string-to-number casting, undefined versus `null`, and `populate`. Page and limit are integers of at least 1; non-numeric query strings are not modelled.
- InvoiceModel.InvoiceErrors: the order of the collected messages follows schema path order. Mongoose's exact key order for nested item paths is not stated. A `min` message does not render the offending value.
- Text.ToLower: lower-cases ASCII capitals only. JavaScript's full Unicode case mapping is not modelled.
- Dates: `createdAt` timestamps are represented only by creation order. Dates are integers, and the clock is the `now` parameter.
- Identities are allocated by a counter in each store, not as MongoDB ObjectIds.
- HTTP and Express wiring (backend/server.js, backend/routes/customerRoutes.js, backend/middleware/errorMiddleware.js) is not part of this model. Replies are values carrying a status, a message and the data or field messages.
- 500 replies for database failures other than a duplicate key are not modelled.
- The axios clients (frontend/src/api/*) are not part of this model. A thunk's outcome is given to the slice as the reply body, or as `None` when no reply arrived.
- React rendering, antd components, routing, the store setup, the list and detail pages, and the customer seed script are not part of this model.
- InvoiceForm.DraftForm.HandleItemChange: the source writes the field into the item object shared with the previous list. The model builds a new item, so that aliasing is not captured. The form's required-field rules for customer and date are assumed to have passed before the submit handler runs.
- InvoiceForm.DraftForm: the totals effect is modelled as running at the end of each handler that changes the list, not after React's render.
