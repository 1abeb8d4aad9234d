# JJBB accounting core in Dafny

This project models the bookkeeping core of the JJBB accounting application.
The application has a Django back end and a React front end. The model covers:

- the server's stock ledger: stock rows, their derived current quantity and value, sale deductions and sale returns;
- double-entry journals and their validation;
- bank transactions with their inflow/outflow classification and balance rebuilds;
- sales documents: invoice numbers, returns and payments;
- the year-on-year percent change of the reports;
- the pure logic of the client pages that compute with money:
  - sales and purchase entry lines, invoices, payments, bills and customer statements;
  - the dashboard figures;
  - the manual journal and the journal voucher, with amounts in Indian-numbering words;
  - the staff form's date mask and date conversion, and the asset-code generator;
  - expense lists, CSV export, expense reports and grouping by category;
  - cash and bank reconciliation;
  - petty cash.

There is one Dafny module per source file.

- **Shared modules:** `Wrappers` (Option and Result), `JsNumber` (a JavaScript number as NaN or a finite value, with `+` and sums), `Text` (string functions of JavaScript and Python), `Csv` (field quoting as in RFC 4180, section 2), `Seqs` (filters and sums) and `Sorting` (a stable sort by key, as `Array.prototype.sort` is).
- **Server code:** amounts are integers in the smallest currency unit. Stores are classes whose methods change their fields.
- **Stock table:** a sequence of rows in primary-key order, so that the ORM's `.filter(product=…).first()` is "the first row for the product".
- **Client pages:** amounts are exact real numbers. A page's state is a class whose handlers are methods. The pure computations of a page are functions, and every handler is proved against them.
- **Dates:** opaque ordered keys, or YYYY-MM-DD strings compared as strings where the page compares strings.
- **Clock, network responses and unseen lookups:** these are parameters. Examples are `Date.now()`, whether the server accepted a request, and the stock row a sale line's product code finds.

## Model

| member | source | states |
|---|---|---|
| Stock.UsableQty | server/stocks/models.py:15-17 | usable quantity never exceeds the total, is 0 once damage reaches the total, and with damage below the total usable + damaged = total |
| Stock.FreshAssetHasNothingUsable | server/stocks/models.py:9-10 | an asset with both quantities at their default 0 has nothing usable |
| Stock.ValidatePrice | server/stocks/serializers.py:57-61 | a price is accepted exactly when it is not negative, and is then returned unchanged |
| Stock.FindClash | server/stocks/serializers.py:45-51 | the scan reports a clash exactly when some other product (not the one being edited) of that business category has the code |
| Stock.ValidateProductCode | server/stocks/serializers.py:40-55 | refused exactly when the code is non-empty, a business category was submitted and another product of that category holds the code; otherwise the code comes back unchanged |
| Stock.OwnCodeIsNoClash | server/stocks/serializers.py:49-50 | on update, a product's own code never clashes with itself |
| Stock.ValidateStock | server/stocks/serializers.py:101-127 | accepted exactly when no truthy sale price is below a truthy purchase price and every supplied quantity and net weight is non-negative; the price error is the one reported when the prices clash; accepted data is unchanged |
| Stock.NetWeightZeroAccepted | server/stocks/serializers.py:120-125 | a net weight of 0 passes the truthiness guard while −1 is refused as non-positive |
| Stock.ZeroPurchasePriceSkipsPriceCheck | server/stocks/serializers.py:104-107 | a zero purchase price is falsy, so a sale price below it is not refused |
| Stock.Apply | server/stocks/serializers.py:145-149 | every supplied field (the product and business category declared writable at lines 66-77, the three quantities, current quantity, both prices, current value, net weight) replaces the row's value, every absent field keeps it; only the row's id is untouched |
| Stock.FirstFor | server/stocks/serializers.py:35 | the lowest-index row of the product, or none exactly when no row holds the product |
| Stock.StockTable.CurrentStock | server/stocks/serializers.py:32-38 | the current quantity of the product's first stock row, or 0 when it has none |
| Stock.StockTable.Create | server/stocks/serializers.py:129-143 | exactly one row is appended, carrying the supplied fields, with current quantity = purchase − sale − damage and value = current quantity × purchase price |
| Stock.StockTable.Update | server/stocks/serializers.py:145-164 | only the edited row changes; it keeps its id, is re-pointed to any supplied product and business category, holds the other supplied fields, and its current quantity and value are recomputed from the result |
| Stock.UpdateIgnoresSuppliedDerived | server/stocks/serializers.py:148-161 | a supplied current quantity or value makes no difference to the row apart from the derived fields, which are recomputed |
| BankLedger.ParseCode | server/master/models.py:110-117 | only the six stored choice codes read back to a transaction type, and each reads back to the type stored under it |
| BankLedger.CodeRoundTrip | server/master/models.py:110-117 | every type's code reads back as that type, so the six codes are distinct |
| BankLedger.IsInflow | server/master/models.py:135-136 | a transaction is an inflow exactly when it is a deposit, a transfer in or interest |
| BankLedger.OutflowTypes | server/master/models.py:110-117 | the types that are not inflows are exactly withdrawal, transfer out and bank charge |
| BankLedger.NewTx | server/master/models.py:128-130 | a new transaction keeps its account, date, type and amount and has running balance 0 until a rebuild |
| BankLedger.Ledger.OpenAccount | server/master/models.py:99-100 | a new account starts with opening and current balance 0; nothing else changes |
| BankLedger.Ledger.RecalculateBalances | server/master/models.py:140 | the rebuild may change only that account's current balance and its own transactions' running balances; every other account, every opening balance and every other field stay as they were |
| BankLedger.Ledger.Save | server/master/models.py:142-144 | the row is written and then its account is rebuilt, in that order; other accounts, every opening balance and other accounts' transactions are unchanged; every write is still followed by a rebuild of its account |
| BankLedger.Ledger.Delete | server/master/models.py:146-149 | the account is read from the row before it is removed and that account is rebuilt afterwards; only that row disappears; other accounts, opening balances and other accounts' transactions are unchanged |
| Reports.RoundHalfEven | server/reports/utils.py:6 | the result is within half a unit of the exact quotient, and on an exact tie it is the even neighbour (Decimal's default rounding) |
| Reports.RoundHalfEvenExact | server/reports/utils.py:6 | an exact quotient is returned unchanged |
| Reports.PercentChangeRounding | server/reports/utils.py:6 | with a non-zero previous amount the result is (current − previous) / previous × 100 to within half a hundredth |
| Reports.PercentChangeFromZero | server/reports/utils.py:4-5 | with a previous amount of 0 the result is 100.00 for a positive current amount and 0.00 otherwise |
| Reports.PercentChangeUnchanged | server/reports/utils.py:6 | an unchanged non-zero amount gives 0.00 |
| Reports.PercentChangeDoubled | server/reports/utils.py:6 | doubling a positive amount gives 100.00 |
| Reports.PercentChangeNegativePrevious | server/reports/utils.py:6 | the division is by the signed previous amount: going from −x to −2x gives +100.00 |
| Journal.NewLine | server/accounts/models.py:58-59 | a new line's debit and credit default to 0 |
| Journal.CleanEntry | server/accounts/models.py:43-45 | an entry passes exactly when its total debit equals its total credit |
| Journal.EmptyEntryIsClean | server/accounts/models.py:37-45 | an entry with no lines has both totals 0 and passes |
| Journal.CleanLine | server/accounts/models.py:62-66 | a line passes exactly when both amounts are non-negative and at most one is non-zero; a line with both sides positive fails with the both-sides error, which is checked first |
| Journal.ZeroLineIsClean | server/accounts/models.py:58-66 | a line with the default amounts passes |
| Journal.CleanLinesHaveNonNegativeTotals | server/accounts/models.py:37-41 | when every line passes its own check, both entry totals are non-negative |
| Journal.Validate | server/accounts/serializers.py:61-69 | the submitted entry is accepted exactly when the sums of its debits and credits (absent = 0) agree, and is then returned unchanged |
| Journal.ValidateIgnoresLineShape | server/accounts/serializers.py:61-69 | the serializer accepts a line with both a debit and a credit that the line's own check refuses |
| Journal.Stored | server/accounts/serializers.py:75-78 | one stored row per submitted line, in order, linked to the entry, with absent amounts stored as 0 |
| Journal.StoredTotals | server/accounts/serializers.py:55-63 | the stored rows have exactly the totals the serializer checked |
| Journal.ValidateAgreesWithClean | server/accounts/serializers.py:61-69 | the serializer accepts an entry exactly when the model's `clean` accepts its stored lines |
| Journal.StoredSnoc | server/accounts/serializers.py:75-78 | the stored rows grow one submitted line at a time |
| Journal.LookupNewEntry | server/accounts/serializers.py:71-80 | after a create, looking up the new entry's lines finds exactly its stored rows |
| Journal.JournalStore.Create | server/accounts/serializers.py:71-80 | the header is stored under the new id, then exactly one row per submitted line is appended; every line still belongs to a stored header; the new entry's totals equal the submitted sums |
| Sales.GenerateInvoiceNo | server/sales/models.py:18-21 | the number is "SA" followed by at least eight digits whose value is the highest existing id plus one, or 1 when there is no sale |
| Sales.FirstInvoiceNo | server/sales/models.py:18-21 | with no sales the first number is SA00000001 |
| Sales.InvoiceNoLength | server/sales/models.py:21 | below 10^8 every number is exactly ten characters long |
| Sales.InvoiceNoRoundTrip | server/sales/models.py:18-21 | the next id is read back out of the generated number, so distinct ids give distinct numbers |
| Sales.InvoiceNoEncodesId | server/sales/models.py:18-21 | when ids have no gaps, a sale's number encodes its own id |
| Sales.AssignInvoiceNo | server/sales/models.py:23-26 | a non-empty invoice number is kept as given; an absent or empty one is replaced by a generated, well-formed number |
| Sales.SaleProductSave | server/sales/models.py:46-61 | only a newly created line with a matching stock row changes stock: that row's sale quantity grows by the line quantity and its current quantity drops by it but not below 0; every other row and the stock value are unchanged |
| Sales.ClampedDeductionConsistency | server/sales/models.py:57-60 | the clamped deduction keeps current = purchase − sale − damage exactly when there was enough stock |
| Sales.UpdateStockOnSale | server/sales/signals.py:10-35 | on creation only: no stock row for the product or too little current stock is refused with the matching error and nothing changes; otherwise only the first stock row changes, by the checked deduction; an update does nothing |
| Sales.CheckedDeductionProperties | server/sales/signals.py:29-33 | the checked deduction conserves sale + current, leaves current non-negative, keeps a consistent row consistent and values stock at the purchase price |
| Sales.ValidateReturn | server/sales/serializers.py:152-159 | a return is accepted exactly when its quantity is positive and at most the sold quantity less what was already returned |
| Sales.ReturnRemainingExactly | server/sales/serializers.py:155-158 | exactly the remaining quantity can be returned and one more cannot |
| Sales.PerformReturn | server/sales/views.py:55-79 | the line's returned quantity grows by the return; the product's first stock row gets the quantity back, its sale quantity drops but not below 0 and its value is recomputed; without a stock row only the line changes |
| Sales.RestockUndoesCheckedDeduction | server/sales/views.py:69-78 | a return of q exactly undoes a checked sale deduction of q |
| Sales.ReturnedNeverExceedsSold | server/sales/serializers.py:152-159 | an accepted return keeps returned quantity ≤ sold quantity |
| Sales.ValidatePayment | server/sales/serializers.py:71-89 | accepted exactly when a bank-transfer, cheque or online payment (case-insensitive) has a bank and an account number and a cheque payment also has a cheque number; any other mode is accepted; accepted data is unchanged |
| Sales.ReceiverEffect | server/sales/signals.py:21-35 | the receiver's effect on the stock table refuses exactly when the product has no stock row or its first row holds too little |
| Sales.LineEffect | server/sales/models.py:46-61 | one new line's stock effect refuses exactly when the receiver is connected and refuses; it keeps the table's size |
| Sales.UnconnectedNeverFails | server/sales/models.py:46-61 | without the receiver no run of a sale's lines is refused |
| Sales.LinesEffectStopsAtRefusal | server/sales/serializers.py:121-135 | a refusal at one line is the refusal of every longer run of lines, the whole sale included |
| Sales.DoubleDeduction | server/sales/models.py:46-61 | with the receiver connected, a line whose stock lookup finds the product's first row has its quantity deducted from that row twice |
| Sales.SingleDeduction | server/sales/signals.py:21-35 | the intended single deduction: refused exactly when there is no row or too little stock; otherwise the sale quantity grows by exactly the line quantity, sale + current is conserved, current stays non-negative, consistency is kept and no other row changes |
| Sales.SalesStore.LastId | server/sales/models.py:19 | the highest existing sale id, absent exactly when there are no sales |
| Sales.SalesStore.Create | server/sales/serializers.py:121-135 | the creation as intended, payments linked to the new sale; atomic: fails exactly when some line's stock effect refuses, with that error, and then no sale, line, payment or stock row changes; on success the numbered header, one row per product line, one row per payment are appended and stock holds the composed effect of all lines |
| Sales.SalesStore.AddLines | server/sales/serializers.py:128-129 | the line loop fails exactly when some line's stock effect refuses and then restores lines and stock; otherwise every line is appended and stock holds the composed effect |
| Sales.SalesStore.LineStockEffect | server/sales/models.py:46-61 | one line's stock effect (receiver, then clamped deduction) refuses exactly as LineEffect does and otherwise leaves stock as LineEffect computes |
| Sales.SalesStore.AddPayments | server/sales/serializers.py:132-133 | as intended: every payment is appended, in order, linked to the sale |
| Sales.SalesStore.CreateAsWritten | server/sales/serializers.py:49-135 | as written: a sale with payments is always refused and changes nothing: `SaleIdRequired` when no `sale_id` is sent, else the first payment `validate` refuses with its error, else the stock refusal or the duplicate `sale` argument of line 133; a sale without payments has exactly the outcome of Create: on a stock refusal that error and nothing changed, otherwise the numbered header, one row per product line, no payment rows and stock at the composed effect of the lines |
| Sales.FirstInvalidPayment | server/sales/serializers.py:71-89 | the index of the first payment the nested payment serializer refuses: every earlier payment passes `validate`, the one at the index fails it, and the index is the number of payments exactly when all pass |
| CustomerStatements.FirstMatch | client/src/pages/sales/CustomerStatements.jsx:63-65 | the index of the first customer whose id reads as the selected id, or −1 exactly when none does |
| CustomerStatements.FindCustomer | client/src/pages/sales/CustomerStatements.jsx:61-67 | no customer exactly when no id matches; otherwise the first customer, in list order, whose id matches |
| CustomerStatements.CustomerSales | client/src/pages/sales/CustomerStatements.jsx:86-89 | a sale is kept exactly when it has a customer and that customer's id is the selected one |
| CustomerStatements.FirstTen | client/src/pages/sales/CustomerStatements.jsx:145 | the first ten characters of the payment date (all of it when shorter), a prefix of it |
| CustomerStatements.Recompute | client/src/pages/sales/CustomerStatements.jsx:163-167 | the same rows in the same order, each carrying as balance the start plus the net of every row up to and including it |
| CustomerStatements.PushPayments | client/src/pages/sales/CustomerStatements.jsx:133-156 | one payment row pushed per payment, in order, and the received total grows by the sale's paid sum |
| CustomerStatements.CollectRows | client/src/pages/sales/CustomerStatements.jsx:110-157 | after the opening row, each sale contributes its invoice row and then its payment rows; invoiced and received totals are the sums of payable and paid |
| CustomerStatements.RunningBalances | client/src/pages/sales/CustomerStatements.jsx:163-167 | rows get their running balances from the opening amount and the closing is the opening plus the net of all sorted rows |
| CustomerStatements.Statement | client/src/pages/sales/CustomerStatements.jsx:75-176 | with no matching customer the rows are empty and every total is 0; otherwise opening = previous due, invoiced and received are the sums over the customer's sales, rows are the sorted rows with running balances from the opening, and closing = opening + net of all rows |
| CustomerStatements.OpeningRowMeaning | client/src/pages/sales/CustomerStatements.jsx:96-107 | an opening row exists exactly for a non-zero previous due; it is a debit when positive and a credit when negative, with net equal to the due |
| CustomerStatements.PaymentRowsKinds | client/src/pages/sales/CustomerStatements.jsx:142-155 | every row pushed for a payment is a payment row |
| CustomerStatements.RowCounts | client/src/pages/sales/CustomerStatements.jsx:113-157 | one invoice row per sale and one payment row per payment |
| CustomerStatements.PaymentRowsNet | client/src/pages/sales/CustomerStatements.jsx:152-153 | a sale's payment rows net out to minus its paid sum |
| CustomerStatements.SaleRowsNet | client/src/pages/sales/CustomerStatements.jsx:113-157 | the sales' rows net out to invoiced minus received |
| CustomerStatements.SortedRowsNet | client/src/pages/sales/CustomerStatements.jsx:160 | all rows, in the sorted order, net out to the opening row's amount plus invoiced minus received |
| CustomerStatements.StatementSorted | client/src/pages/sales/CustomerStatements.jsx:160-167 | recomputing balances keeps the ascending date order |
| CustomerStatements.StatementStable | client/src/pages/sales/CustomerStatements.jsx:160 | rows of the same date keep the order they were pushed in (stable sort) |
| CustomerStatements.RunningBalance | client/src/pages/sales/CustomerStatements.jsx:164-166 | each row's balance is the previous row's plus its debit minus its credit; the first starts from the opening amount |
| CustomerStatements.OpeningCountedTwice | client/src/pages/sales/CustomerStatements.jsx:93-107 | as written, a non-zero previous due appears twice in the closing balance: closing = 2·due + invoiced − received |
| CustomerStatements.OpeningCountedTwiceExample | client/src/pages/sales/CustomerStatements.jsx:163-173 | a customer owing 100 with no sales is shown closing at 200 |
| CustomerStatements.CorrectedRows | client/src/pages/sales/CustomerStatements.jsx:163-167 | the corrected statement has one row per pushed row |
| CustomerStatements.CorrectedClosingMeaning | client/src/pages/sales/CustomerStatements.jsx:163-173 | with the running balance started from 0, closing = previous due + invoiced − received, and it is the last row's balance |
| CustomerStatements.LastBalance | client/src/pages/sales/CustomerStatements.jsx:163-173 | the last balance counted from 0 is the net of all rows |
| SalesInvoices.AlreadyReturnedNone | client/src/pages/sales/Invoices.jsx:382-384 | a line with no recorded return has 0 already returned |
| SalesInvoices.AlreadyReturnedAppend | client/src/pages/sales/Invoices.jsx:382-384 | a new return adds its quantity to its own line's returned total and to no other line's |
| SalesInvoices.FormForLine | client/src/pages/sales/Invoices.jsx:429-450 | the dialog shows the chosen line's sold quantity and price, what has already been returned of that line, and an empty quantity and amount |
| SalesInvoices.ReturnAmount | client/src/pages/sales/Invoices.jsx:415-427 | the amount is max(0, quantity) × price to within half a cent, and 0 for a quantity not above 0 |
| SalesInvoices.CheckReturn | client/src/pages/sales/Invoices.jsx:452-473 | a quantity not above 0 is refused first; then a quantity that with what was returned exceeds the sold quantity; then a line without an id; otherwise the post carries the line id, the quantity, the date and the remarks |
| SalesInvoices.ReturnStaysWithinSold | client/src/pages/sales/Invoices.jsx:452-481 | an accepted return adds exactly its quantity to the line's returned total, which stays at most the sold quantity |
| SalesInvoices.FindMode | client/src/pages/sales/Invoices.jsx:809 | the index of the first payment mode with that id, or −1 exactly when none has it |
| SalesInvoices.ModeLabel | client/src/pages/sales/Invoices.jsx:809-810 | the label of the first mode with the selected id, or "" when none matches |
| SalesInvoices.BuildPaymentPayload | client/src/pages/sales/Invoices.jsx:791-821 | refused without a sale, then for a paid amount not above 0, then for one above the due by more than 0.0001; otherwise the payload carries the sale id, the mode label, the bank only when one is chosen, the account and cheque numbers, empty remarks and the amount rounded to cents |
| SalesInvoices.PaymentWithinPayable | client/src/pages/sales/Invoices.jsx:800-807 | an accepted payment is non-negative and leaves the sale paid at most half a cent plus the tolerance beyond its payable amount |
| SalesInvoices.Prefill | client/src/pages/sales/Invoices.jsx:726-737 | the dialog opens with the due to two decimals when it is above 0 and empty otherwise |
| SalesInvoices.Round2Cents | client/src/pages/sales/Invoices.jsx:818 | a whole number of cents is unchanged by rounding to cents |
| SalesInvoices.PrefillAccepted | client/src/pages/sales/Invoices.jsx:726-737 | a due of whole cents is pre-filled exactly and that amount is accepted as it stands |
| SalesInvoices.FilteredIsOneFilter | client/src/pages/sales/Invoices.jsx:340-359 | the chain of three filters is a single filter by all settings at once |
| SalesInvoices.FilteredMembers | client/src/pages/sales/Invoices.jsx:340-359 | the list holds exactly the sales that meet every setting: customer, district and bill number (case-insensitive, trimmed) |
| SalesInvoices.NoFiltersKeepsAll | client/src/pages/sales/Invoices.jsx:340-359 | with no setting every sale is listed, in order |
| SalesInvoices.Toggled | client/src/pages/sales/Invoices.jsx:333-337 | the toggled id is in the set exactly when it was not before; every other id is unaffected |
| SalesInvoices.ToggleTwice | client/src/pages/sales/Invoices.jsx:333-337 | toggling the same row twice restores the set |
| SalesInvoices.PrintFigures | client/src/pages/sales/Invoices.jsx:514-529 | the printed paid amount is the sum of the payments and total due = previous due + gross − paid |
| SalesInvoices.PrintedDueMatchesDialog | client/src/pages/sales/Invoices.jsx:520-529 | the printed due (from total and discount) equals the dialog's due (from the payable amount) exactly when payable = total − discount |
| SalesInvoices.InvoicesPage.ToggleRow | client/src/pages/sales/Invoices.jsx:333-337 | the expanded set becomes the toggled set |
| SalesInvoices.InvoicesPage.ApplyFilters | client/src/pages/sales/Invoices.jsx:340-359 | the listed sales are the filtered sales (the page invariant) and the page returns to 1 |
| SalesInvoices.InvoicesPage.SetFilters | client/src/pages/sales/Invoices.jsx:361-370 | the new settings are stored and the list becomes every loaded sale that meets them, on page 1 |
| SalesInvoices.InvoicesPage.OpenReturnModal | client/src/pages/sales/Invoices.jsx:373-408 | the dialog opens exactly for a sale with lines, on its first line with no message; otherwise nothing changes |
| SalesInvoices.InvoicesPage.SelectReturnLine | client/src/pages/sales/Invoices.jsx:429-450 | the dialog switches to the chosen line, keeping the date and the remarks |
| SalesInvoices.InvoicesPage.HandleReturnQtyChange | client/src/pages/sales/Invoices.jsx:415-427 | the quantity is kept as typed, the amount recomputed from it and its message cleared |
| SalesInvoices.InvoicesPage.CloseReturnModal | client/src/pages/sales/Invoices.jsx:491-506 | the dialog is closed and its form cleared |
| SalesInvoices.InvoicesPage.PostReturn | client/src/pages/sales/Invoices.jsx:475-510 | the return is posted; when the server takes it returns and sales are reloaded and the dialog closed and cleared; when it refuses nothing else changes |
| SalesInvoices.InvoicesPage.SubmitReturn | client/src/pages/sales/Invoices.jsx:452-511 | nothing is posted exactly when the checks refuse, with the quantity message shown only for a quantity not above 0; an accepted return is posted once and the page is reloaded and cleared only when the server takes it |
| SalesInvoices.InvoicesPage.OpenPayModal | client/src/pages/sales/Invoices.jsx:720-741 | the payment dialog opens on the sale with the fields cleared and the amount pre-filled from the due |
| SalesInvoices.InvoicesPage.PostPayment | client/src/pages/sales/Invoices.jsx:827-839 | the payload is posted; when the server takes it sales are reloaded and the dialog closed and cleared; when it refuses nothing else changes |
| SalesInvoices.InvoicesPage.HandleSavePayment | client/src/pages/sales/Invoices.jsx:823-840 | nothing is posted exactly when the payload is refused, with that error; otherwise it is posted once and the dialog is cleared only when the server takes it |
| SalesPayments.MakeRow | client/src/pages/sales/Payments.jsx:50-62 | the flat row carries the payment's id, date and paid amount (unparsable = 0), the sale's date and the due passed in |
| SalesPayments.SaleRows | client/src/pages/sales/Payments.jsx:43-63 | one row per payment in the given order, each carrying the due left after the payments up to and including it |
| SalesPayments.SortedPays | client/src/pages/sales/Payments.jsx:37-41 | a permutation of the sale's payments in ascending date order (payment date, else sale date, else 1970-01-01) |
| SalesPayments.NewestFirstOrder | client/src/pages/sales/Payments.jsx:67-71 | sorting with the newest-first key puts later dates ahead |
| SalesPayments.PushPayments | client/src/pages/sales/Payments.jsx:45-63 | the inner loop appends exactly the sale's rows in the sorted order, with cumulativePaid carried along |
| SalesPayments.LoadSalesWithPayments | client/src/pages/sales/Payments.jsx:21-73 | the rows are a permutation of every sale's payment rows, sorted newest first |
| SalesPayments.OneRowPerPayment | client/src/pages/sales/Payments.jsx:32-64 | one flat row per payment of every sale |
| SalesPayments.DueNonIncreasing | client/src/pages/sales/Payments.jsx:43-48 | with no negative payment, the due after a sale's payments never rises along the sorted payments |
| SalesPayments.LastDueIsRemaining | client/src/pages/sales/Payments.jsx:43-48 | the last payment of a sale leaves max(0, payable − everything paid) |
| SalesPayments.FilteredPayments | client/src/pages/sales/Payments.jsx:96-103 | a blank (after trimming) search keeps every row; otherwise a row is kept exactly when its invoice number or customer name contains the search text lower-cased but not trimmed |
| SalesPayments.SaleRowsPaid | client/src/pages/sales/Payments.jsx:46-59 | a sale's rows carry exactly its paid amounts |
| SalesPayments.AllRowsPaid | client/src/pages/sales/Payments.jsx:32-64 | all rows carry, together, every payment of every sale |
| SalesPayments.BlankSearchTotal | client/src/pages/sales/Payments.jsx:105-108 | with a blank search the total received is every payment of every sale |
| ProductSales.FirstStock | client/src/pages/sales/ProductSales.jsx:294 | the index of the first stock row of the product, or the list's length exactly when no row holds it |
| ProductSales.BasePrice | client/src/pages/sales/ProductSales.jsx:299-309 | from the product's first stock row its sale price, else its purchase price, else the product's price, else 0; without a stock row the product's price or 0; an unparsable value reads as 0 |
| ProductSales.FirstRowWins | client/src/pages/sales/ProductSales.jsx:294-307 | rows listed after the product's first stock row change neither its base price nor its quantity on hand |
| ProductSales.StockOnHand | client/src/pages/sales/ProductSales.jsx:296-297 | the current quantity of the product's first stock row, or 0 without one |
| ProductSales.FirstProduct | client/src/pages/sales/ProductSales.jsx:335 | the index of the first product with that id, or the list's length exactly when none has it |
| ProductSales.Trunc | client/src/pages/sales/ProductSales.jsx:384 | parseInt of a number: the integer towards zero within one of it |
| ProductSales.ParseIntNum | client/src/pages/sales/ProductSales.jsx:446 | parseInt of a field is a number exactly when the field holds one |
| ProductSales.ParseWhole | client/src/pages/sales/ProductSales.jsx:384-391 | a whole quantity typed or set back into the field reads back as itself |
| ProductSales.UnitPrice | client/src/pages/sales/ProductSales.jsx:399-404 | price = base × (1 + percentage / 100) |
| ProductSales.MarkUpBounds | client/src/pages/sales/ProductSales.jsx:399-404 | no mark-up keeps the base price, a non-negative mark-up never lowers a non-negative base, and a discount of at most 100% never makes the price negative |
| ProductSales.LineTotal | client/src/pages/sales/ProductSales.jsx:408-413 | price × quantity for a quantity above 0, otherwise 0 |
| ProductSales.LineTotalMonotone | client/src/pages/sales/ProductSales.jsx:408-413 | a line total is non-negative for a non-negative price and never shrinks as the quantity grows |
| ProductSales.AppendKeepsUnique | client/src/pages/sales/ProductSales.jsx:433-453 | appending a line for a product not yet listed keeps the listed product ids unique |
| ProductSales.RemoveKeepsUnique | client/src/pages/sales/ProductSales.jsx:469-471 | removing a line keeps the listed product ids unique |
| ProductSales.Payable | client/src/pages/sales/ProductSales.jsx:474-484 | payable = total − discount, or 0 when that is below 0 |
| ProductSales.TotalAfterChange | client/src/pages/sales/ProductSales.jsx:474-479 | adding a line adds its total to the total amount; removing line i takes its total off |
| ProductSales.PayableDiscount | client/src/pages/sales/ProductSales.jsx:481-483 | a larger discount never raises the payable, and a non-negative discount never makes it exceed a non-negative total |
| ProductSales.TotalPaid | client/src/pages/sales/ProductSales.jsx:514-520 | the paid total is a number exactly when every payment's amount parses |
| ProductSales.TotalPaidAfterAdd | client/src/pages/sales/ProductSales.jsx:491-497 | adding a payment adds its amount to the paid total |
| ProductSales.TotalPaidAfterRemove | client/src/pages/sales/ProductSales.jsx:509-511 | removing payment i takes its amount off the paid total |
| ProductSales.SalePage.SetProductData | client/src/pages/sales/ProductSales.jsx:290-316 | the page shows the product's quantity on hand and its base price to two decimals (as base and as price), with quantity and percentage cleared and the total 0 |
| ProductSales.SalePage.ChooseProduct | client/src/pages/sales/ProductSales.jsx:318-378 | clearing the picker clears the product fields; a loaded product's id selects it and fills its data; an unknown id leaves the product fields as they were |
| ProductSales.SalePage.Recalculate | client/src/pages/sales/ProductSales.jsx:381-414 | with a product chosen, a quantity above the stock on hand is reset to the stock (to 0 when there is none) and nothing else changes; otherwise the price becomes the marked-up base and the total price × quantity, both to two decimals; without a product nothing changes |
| ProductSales.SalePage.AddProduct | client/src/pages/sales/ProductSales.jsx:417-466 | refused in order without a product, with a missing or non-positive quantity, with a price not above 0, or for a product already listed, and then nothing changes; otherwise the line is appended (ids stay unique) and the product fields are cleared |
| ProductSales.SalePage.RemoveProduct | client/src/pages/sales/ProductSales.jsx:469-471 | only line idx leaves the list and ids stay unique |
| ProductSales.SalePage.AddPayment | client/src/pages/sales/ProductSales.jsx:491-507 | accepted exactly when a mode and an amount are given; then the payment is appended and the fields cleared, otherwise nothing changes |
| ProductSales.SalePage.RemovePayment | client/src/pages/sales/ProductSales.jsx:509-511 | only payment index leaves the list |
| ProductsPurchases.LineTotal | client/src/pages/purchases/ProductsPurchases.jsx:221-226 | price × whole quantity to within half a cent, an empty or unparsable field counting as 0; 0 for a zero quantity |
| ProductsPurchases.Payable | client/src/pages/purchases/ProductsPurchases.jsx:260-269 | payable + discount = total: no clamp at 0 |
| ProductsPurchases.TotalAfterChange | client/src/pages/purchases/ProductsPurchases.jsx:254-265 | adding a line adds its total to the total amount; removing line i takes its total off |
| ProductsPurchases.PayableUnclamped | client/src/pages/purchases/ProductsPurchases.jsx:267-268 | the payable goes below 0 exactly when the discount exceeds the total, and otherwise equals the clamped payable of the sale page |
| ProductsPurchases.TotalPaid | client/src/pages/purchases/ProductsPurchases.jsx:342-345 | the paid total is a number exactly when every payment's amount parses |
| ProductsPurchases.TotalPaidAfterAdd | client/src/pages/purchases/ProductsPurchases.jsx:313-319 | adding a payment adds its amount to the paid total |
| ProductsPurchases.CheckSubmit | client/src/pages/purchases/ProductsPurchases.jsx:351-353 | refused in order without a supplier, without products, without payments; accepted exactly when all three are there |
| ProductsPurchases.PurchasePage.ChooseProduct | client/src/pages/purchases/ProductsPurchases.jsx:204-216 | as written: choosing a product shows the quantity on hand of its first stock row (0 without a row); clearing the picker keeps the old quantity, so the display matches the selection only when it already showed 0 |
| ProductsPurchases.PurchasePage.ChooseProductCorrected | client/src/pages/purchases/ProductsPurchases.jsx:204-216 | as intended: the choice is kept and the display always shows the selection's quantity on hand, 0 without a choice or a row |
| ProductsPurchases.PurchasePage.Recalculate | client/src/pages/purchases/ProductsPurchases.jsx:221-226 | the line total becomes price × quantity to two decimals |
| ProductsPurchases.PurchasePage.AddProduct | client/src/pages/purchases/ProductsPurchases.jsx:229-252 | accepted exactly when a product, a quantity and a price are given; then the line is appended (the same product may be listed twice) and the product fields cleared; otherwise nothing changes |
| ProductsPurchases.PurchasePage.RemoveProduct | client/src/pages/purchases/ProductsPurchases.jsx:255-257 | only line index leaves the list |
| ProductsPurchases.PurchasePage.AddPayment | client/src/pages/purchases/ProductsPurchases.jsx:313-329 | accepted exactly when a mode and an amount are given; then the payment is appended and the fields cleared, otherwise nothing changes |
| ProductsPurchases.PurchasePage.RemovePayment | client/src/pages/purchases/ProductsPurchases.jsx:338-340 | only payment index leaves the list |
| ProductsPurchases.PurchasePage.Submit | client/src/pages/purchases/ProductsPurchases.jsx:348-384 | refused exactly when the submit checks refuse, with their error and nothing posted; otherwise one payload with the current total, discount, unclamped payable, paid total, lines and payments is posted, whether or not the server takes it |
| Dashboard.SalesInIsFilteredSum | client/src/pages/Dashboard.jsx:127-131 | the month's sales are the sum of the payable amounts of the sales dated in that month |
| Dashboard.MonthlyStats | client/src/pages/Dashboard.jsx:107-160 | sales this month sum the month's sales; expenses this month sum the month's expenses and salaries; net = sales − expenses |
| Dashboard.ChartValues | client/src/pages/Dashboard.jsx:297-303 | each chart figure is the month's figure held at 0: equal to it when it is not negative, 0 otherwise |
| Dashboard.InventorySnapshot | client/src/pages/Dashboard.jsx:163-188 | the low-stock count never exceeds the number of stock rows |
| Dashboard.InventoryAppend | client/src/pages/Dashboard.jsx:163-188 | each snapshot figure (units on hand, low-stock count, damaged count, stock value) of two lists together is the sum of the two lists' figures |
| Dashboard.LowStockOfOne | client/src/pages/Dashboard.jsx:168-172 | a row counts as low exactly when its reorder level is a number and its current quantity is at most that level |
| Dashboard.StatusOf | client/src/pages/Dashboard.jsx:200-205 | Unpaid exactly when nothing is paid of a positive payable; Paid exactly when a positive payable is fully paid; Partially Paid exactly when something is paid and something is due; N/A exactly when the payable is not above 0 |
| Dashboard.AgreesWithPurchaseStatus | client/src/pages/Dashboard.jsx:200-205 | the dashboard's status equals the purchase list's computeStatus except for a payable not above 0 with something paid, which the dashboard calls N/A and the purchase list Paid |
| Dashboard.StatusMatchesDue | client/src/pages/Dashboard.jsx:199-205 | Paid leaves nothing due, Partially Paid leaves something but less than the payable due, Unpaid leaves the whole payable due |
| Dashboard.CustomerLabel | client/src/pages/Dashboard.jsx:210-213 | the customer column is never empty (customer name, else shop name, else "N/A") |
| Dashboard.RowOf | client/src/pages/Dashboard.jsx:193-219 | a recent invoice shows its payable, what was paid, due = max(0, payable − paid) and the status of those figures |
| Dashboard.RecentInvoices | client/src/pages/Dashboard.jsx:191-221 | the first five sales as listed (fewer when there are fewer), each as its row |
| JsNumber.Max0 | client/src/pages/purchases/Invoices.jsx:73 | `Math.max(0, x)`, as the purchase, payment, bill, dashboard and sale pages use it for dues: never negative, never below x, and either 0 or x |
| PurchaseInvoices.ComputeStatus | client/src/pages/purchases/Invoices.jsx:37-43 | N/A exactly when payable and paid are both not above 0; Unpaid exactly when nothing is paid of a positive payable; Paid exactly when something is paid and it covers the payable; Partially Paid exactly when something is paid and less than the payable |
| PurchaseInvoices.VendorLabel | client/src/pages/purchases/Invoices.jsx:82 | the vendor column is never empty (vendor name, else shop name, else "N/A") |
| PurchaseInvoices.MapPurchase | client/src/pages/purchases/Invoices.jsx:65-84 | a row keeps its purchase and carries its payable, the sum of its payments, due = max(0, payable − paid) and the status of those figures |
| PurchaseInvoices.LoadPurchases | client/src/pages/purchases/Invoices.jsx:65-93 | the rows are a permutation of the mapped purchases, sorted by purchase date newest first (missing dates as 1970-01-01) |
| PurchaseInvoices.FilteredPurchases | client/src/pages/purchases/Invoices.jsx:112-126 | a row is kept exactly when, for a non-blank trimmed search, its invoice number or vendor contains it case-insensitively, and its status matches unless the filter is "all" |
| PurchaseInvoices.NoFilterShowsAll | client/src/pages/purchases/Invoices.jsx:112-126 | with no search and "all" statuses every row is shown, in order |
| PurchaseInvoices.TotalDueBounds | client/src/pages/purchases/Invoices.jsx:128-136 | the header's total due is never negative and is at least total payable − total paid |
| PurchaseInvoices.DueZeroMeaning | client/src/pages/purchases/Invoices.jsx:37-43 | for non-negative amounts a purchase owes nothing exactly when its status is Paid or N/A |
| PurchaseInvoices.Round2 | client/src/pages/purchases/Invoices.jsx:150 | toFixed(2) read back as a number: within half a cent of the amount |
| PurchaseInvoices.BuildPayload | client/src/pages/purchases/Invoices.jsx:196-204 | the payload carries the purchase id and the mode; bank name and account only for Bank or Cheque, the cheque number only for Cheque; the amount within half a cent of what was typed |
| PurchaseInvoices.InvoicesPage.OpenPayModal | client/src/pages/purchases/Invoices.jsx:139-153 | the dialog opens exactly when something is due, with the fields cleared and the due to two decimals filled in; otherwise nothing changes |
| PurchaseInvoices.InvoicesPage.ClosePayModal | client/src/pages/purchases/Invoices.jsx:155-166 | the dialog is closed and its fields cleared; the list and filters are untouched |
| PurchaseInvoices.InvoicesPage.HandleSavePayment | client/src/pages/purchases/Invoices.jsx:178-218 | refused in order without a purchase, for an amount not above 0, above the due by more than 0.0001, or without a mode, and then nothing is posted; otherwise the payload is posted once; only when the server takes it is the list reloaded and the dialog closed |
| PurchaseInvoices.SavedWithinDue | client/src/pages/purchases/Invoices.jsx:187-203 | an accepted payment is posted as a non-negative amount at most half a cent plus the tolerance above the due |
| Bills.ComputeStatus | client/src/pages/purchases/Bills.jsx:19-26 | N/A exactly when payable and paid are both not above 0; Unpaid, Paid and Partially Paid exactly as on the purchase invoices page |
| Bills.StatusAgreesWithInvoices | client/src/pages/purchases/Bills.jsx:19-26 | the final N/A fallback is never reached: this status agrees with the purchase invoices page's on every input |
| Bills.BillNo | client/src/pages/purchases/Bills.jsx:61 | the bill number is never empty: the invoice number when there is one, else "PUR-" followed by the id's digits |
| Bills.MapBill | client/src/pages/purchases/Bills.jsx:45-72 | a bill carries the purchase's id, date, number, vendor label, total and payable, the sum of its payments, due = max(0, payable − paid) and the status of those figures |
| Bills.NewestFirstOrder | client/src/pages/purchases/Bills.jsx:75-79 | sorting with the newest-first key puts later dates ahead |
| Bills.LoadBills | client/src/pages/purchases/Bills.jsx:36-81 | the bills are a permutation of the mapped purchases, newest first (missing dates as 1970-01-01), bills of the same date keeping the server's order |
| Bills.FilteredBills | client/src/pages/purchases/Bills.jsx:98-112 | a bill is kept exactly when, for a non-blank trimmed search, its number or vendor contains it case-insensitively, and its status matches unless the filter is "all" |
| Bills.StatusFiltersPartition | client/src/pages/purchases/Bills.jsx:98-124 | the total due under "all" is the total due under one status plus the total due of the other bills |
| PurchasePayments.InvoiceLabel | client/src/pages/purchases/PurchasePayments.jsx:67 | the invoice column is never empty |
| PurchasePayments.VendorLabel | client/src/pages/purchases/PurchasePayments.jsx:41-42 | the vendor column is never empty |
| PurchasePayments.MakeRow | client/src/pages/purchases/PurchasePayments.jsx:65-80 | the row carries the payment's id, its paid amount (unparsable = 0), its raw date and the due passed in |
| PurchasePayments.PayRows | client/src/pages/purchases/PurchasePayments.jsx:56-81 | one row per payment in the given order, each carrying the due left after the payments up to and including it |
| PurchasePayments.SortedPays | client/src/pages/purchases/PurchasePayments.jsx:47-54 | a permutation of the purchase's payments, oldest first, ties broken by id |
| PurchasePayments.NewestFirstOrder | client/src/pages/purchases/PurchasePayments.jsx:85-89 | sorting with the newest-first key puts later payment dates ahead |
| PurchasePayments.PushPayments | client/src/pages/purchases/PurchasePayments.jsx:58-81 | the inner loop appends exactly the purchase's rows in the sorted order, with runningPaid carried along |
| PurchasePayments.FetchPurchasePayments | client/src/pages/purchases/PurchasePayments.jsx:28-91 | the rows are a permutation of every purchase's payment rows, sorted by payment date newest first |
| PurchasePayments.OneRowPerPayment | client/src/pages/purchases/PurchasePayments.jsx:39-82 | exactly one row per payment |
| PurchasePayments.PaymentsOldestFirst | client/src/pages/purchases/PurchasePayments.jsx:47-54 | within a purchase the payments run oldest first, and by id on the same date |
| PurchasePayments.DueNonIncreasing | client/src/pages/purchases/PurchasePayments.jsx:56-61 | with no negative amount, the due after a purchase's payments never rises along them |
| PurchasePayments.PayRowsPaid | client/src/pages/purchases/PurchasePayments.jsx:59-77 | a purchase's rows carry exactly its paid amounts |
| PurchasePayments.RowsCarryAllPayments | client/src/pages/purchases/PurchasePayments.jsx:39-89 | the sorted rows carry, between them, every payment of every purchase once |
| PurchasePayments.FilteredPayments | client/src/pages/purchases/PurchasePayments.jsx:108-118 | an empty trimmed search keeps every row; otherwise a row is kept exactly when its invoice or vendor contains the trimmed, lower-cased search |
| PurchasePayments.EmptySearchTotal | client/src/pages/purchases/PurchasePayments.jsx:120-126 | with an empty search the total received is every payment of every purchase |
| ManualJournal.IsBalanced | client/src/pages/accounting/ManualJournal.jsx:35-37 | balanced exactly when every amount is a number, the debit and credit totals (empty = 0) are equal and the debit total is above 0 |
| ManualJournal.BlankFormNotBalanced | client/src/pages/accounting/ManualJournal.jsx:8-10 | a form of blank lines has both totals 0 and is not balanced |
| ManualJournal.CleanedLines | client/src/pages/accounting/ManualJournal.jsx:45-50 | one posted line per form line, in order, each the cleaned form line |
| ManualJournal.ProblemOf | client/src/pages/accounting/ManualJournal.jsx:56-67 | a cleaned line has no problem exactly when it names an account, does not have both amounts above 0 and does not have both amounts 0 |
| ManualJournal.FirstProblem | client/src/pages/accounting/ManualJournal.jsx:53-68 | the validation loop reports the first line with a problem, and that problem, or nothing exactly when every line passes |
| ManualJournal.JournalForm.constructor | client/src/pages/accounting/ManualJournal.jsx:8-14 | the form opens with one blank line and empty header fields |
| ManualJournal.JournalForm.AddLine | client/src/pages/accounting/ManualJournal.jsx:21-23 | exactly one blank line is appended |
| ManualJournal.JournalForm.RemoveLine | client/src/pages/accounting/ManualJournal.jsx:25-27 | exactly line i is removed; the rest keep their order |
| ManualJournal.JournalForm.UpdateLine | client/src/pages/accounting/ManualJournal.jsx:29-33 | only the given field of the given line changes |
| ManualJournal.JournalForm.Submit | client/src/pages/accounting/ManualJournal.jsx:39-85 | NotBalanced exactly when the journal is not balanced; the first bad line exactly when it is balanced and some line has a problem; in both cases nothing is sent or changed; otherwise the cleaned entry is sent once, and the form is reset to one blank line and empty header fields exactly when the server accepts it |
| ManualJournal.WithoutIndex | client/src/pages/accounting/ManualJournal.jsx:26 | filtering out index i is removing exactly element i |
| ManualJournal.RemoveAddedLine | client/src/pages/accounting/ManualJournal.jsx:21-27 | removing the line just added restores the form |
| ManualJournal.PostedTotals | client/src/pages/accounting/ManualJournal.jsx:45-50 | the posted lines have the form's debit and credit totals |
| JournalVoucher.ConvertBelowHundred | client/src/components/vouchers/JournalVoucherPDF.jsx:16 | below 20 the ones word; otherwise the tens word and the ones word (when there is one) joined by one blank |
| JournalVoucher.ConvertBelowThousand | client/src/components/vouchers/JournalVoucherPDF.jsx:17 | for any count: below 100 as ConvertBelowHundred; otherwise `ones[n / 100]` ("undefined" past the table), "Hundred" and the words of the rest, joined by single blanks |
| JournalVoucher.OnesAt | client/src/components/vouchers/JournalVoucherPDF.jsx:12-17 | `ones[i]` is the table's word for every index inside the table (past its end the page prints JavaScript's `undefined`) |
| JournalVoucher.AddGroup | client/src/components/vouchers/JournalVoucherPDF.jsx:21-23 | one crore, lakh or thousand step, for any count of the unit, appends the group's words and unit and keeps the remainder; a number below the group size passes through |
| JournalVoucher.WordsSplit | client/src/components/vouchers/JournalVoucherPDF.jsx:21-24 | for every n, the words of n are its crore group (any number of crores), its lakh and thousand groups and the words of the rest |
| JournalVoucher.NumberToWords | client/src/components/vouchers/JournalVoucherPDF.jsx:11-27 | for every integer, the text built step by step and trimmed is the reference spelling: "Zero" for 0, nothing for a negative number, else the words joined by single blanks |
| JournalVoucher.InWordsTrimmed | client/src/components/vouchers/JournalVoucherPDF.jsx:26 | for every integer the text never starts or ends with a blank; it is non-empty for every n ≥ 0 and empty for a negative n |
| JournalVoucher.InWordsThirteen | client/src/components/vouchers/JournalVoucherPDF.jsx:12-16 | 13 is "Thirteen" |
| JournalVoucher.InWordsHundred | client/src/components/vouchers/JournalVoucherPDF.jsx:17 | 100 is "One Hundred" |
| JournalVoucher.InWordsForty | client/src/components/vouchers/JournalVoucherPDF.jsx:13-16 | 40 is "Forty" |
| JournalVoucher.InWordsLakhs | client/src/components/vouchers/JournalVoucherPDF.jsx:21-26 | 150000 is "One Lakh Fifty Thousand" |
| JournalVoucher.InWordsThousandCrore | client/src/components/vouchers/JournalVoucherPDF.jsx:12-21 | a thousand crore is spelt "Ten Hundred Crore" and two thousand crore "undefined Hundred Crore", as the crore count is not split further |
| JournalVoucher.CentsNearest | client/src/components/vouchers/JournalVoucherPDF.jsx:8 | the cents toFixed(2) prints are the nearest to the amount, halves upwards |
| JournalVoucher.Money | client/src/components/vouchers/JournalVoucherPDF.jsx:6-9 | "0.00" for what is not a number |
| JournalVoucher.ToFixed2Value | client/src/components/vouchers/JournalVoucherPDF.jsx:8 | the printed amount reads back as the amount rounded to the nearest hundredth, with its sign |
| JournalVoucher.MoneyZero | client/src/components/vouchers/JournalVoucherPDF.jsx:6-9 | 0 prints as "0.00" and a tiny negative amount as "-0.00" |
| JournalVoucher.MoneyOneDecimal | client/src/components/vouchers/JournalVoucherPDF.jsx:6-9 | 1234.5 prints as "1234.50" |
| JournalVoucher.Round | client/src/components/vouchers/JournalVoucherPDF.jsx:29 | Math.round: the nearest integer, halves upwards |
| JournalVoucher.AmountInWords | client/src/components/vouchers/JournalVoucherPDF.jsx:29 | for every amount: the words of the rounded amount followed by " Taka Only", and just " Taka Only" for what is not a number |
| JournalVoucher.VoucherNo | client/src/components/vouchers/JournalVoucherPDF.jsx:109 | "JV-" followed by at least six digits |
| JournalVoucher.VoucherNoRoundTrip | client/src/components/vouchers/JournalVoucherPDF.jsx:109 | the id is read back from the voucher number, so distinct journals get distinct numbers; below 10^6 the number is nine characters long |
| AddStaff.DigitsIn | client/src/pages/Staffs/AddStaff.jsx:178 | only digits are kept, never more characters than were typed |
| AddStaff.DigitsInAppend | client/src/pages/Staffs/AddStaff.jsx:178 | stripping non-digits works piece by piece: the digits of a + b are the digits of a followed by those of b |
| AddStaff.MaskDigits | client/src/pages/Staffs/AddStaff.jsx:178-179 | at most eight characters, all digits |
| AddStaff.DateMaskShape | client/src/pages/Staffs/AddStaff.jsx:178-186 | the masked value has at most 10 characters; two digits or fewer are left as they are; a slash stands at position 2 exactly when there are more than two digits, at position 5 exactly when there are more than four, and nowhere else |
| AddStaff.DateMaskDigits | client/src/pages/Staffs/AddStaff.jsx:178-186 | removing the slashes gives back exactly the first eight typed digits |
| AddStaff.DateMaskIdempotent | client/src/pages/Staffs/AddStaff.jsx:175-189 | typing the masked value again leaves it unchanged |
| AddStaff.DateMaskKeepsShownDate | client/src/pages/Staffs/AddStaff.jsx:175-189 | a complete DD/MM/YYYY date passes through the mask unchanged |
| AddStaff.SplitThree | client/src/pages/Staffs/AddStaff.jsx:438 | three digit fields joined by a non-digit separator split back into the same three fields |
| AddStaff.FormatDateRoundTrip | client/src/pages/Staffs/AddStaff.jsx:436-446 | an ISO YYYY-MM-DD date is shown as a DD/MM/YYYY date, and formatDate turns it back into the same ISO date |
| AddStaff.FormatDateShowRoundTrip | client/src/pages/Staffs/AddStaff.jsx:436-446 | a DD/MM/YYYY date becomes an ISO date, and formatDateShow turns it back into the same shown date |
| AddStaff.ExponentAt | client/src/pages/Staffs/AddStaff.jsx:263 | -1, or the index of an 'e' or 'E' in the text |
| AddStaff.Processed | client/src/pages/Staffs/AddStaff.jsx:261-265 | the stored value has the typed length; it is upper-cased exactly when the input is a text input, the field is not in the skip list and the value is not numeric, and is kept as typed otherwise |
| AddStaff.ToUpperIdempotent | client/src/pages/Staffs/AddStaff.jsx:12-14 | upper-casing twice is upper-casing once |
| AddStaff.ProcessedIdempotent | client/src/pages/Staffs/AddStaff.jsx:245-276 | processing the stored value again leaves it unchanged |
| AddStaff.DigitsAreNumeric | client/src/pages/Staffs/AddStaff.jsx:263 | a non-empty run of decimal digits is numeric, so isNaN is false for it |
| AddStaff.DigitsKeptAsTyped | client/src/pages/Staffs/AddStaff.jsx:261-265 | a number typed as digits is stored as typed in every field |
| AddStaff.CopyAddressSpec | client/src/pages/Staffs/AddStaff.jsx:196-205 | each permanent field receives its present field's value (or is absent with it); every other field is kept |
| AddStaff.AddressPairsDisjoint | client/src/pages/Staffs/AddStaff.jsx:199-204 | the six present-address fields and the six permanent ones are twelve distinct names, so the copy is well defined |
| AddStaff.StaffForm.constructor | client/src/pages/Staffs/AddStaff.jsx:91-146 | the form opens with the initial fields, empty lists and inputs, the exam input holding the eight blank exam fields (lines 215-224), and the box unticked |
| AddStaff.BlankExam | client/src/pages/Staffs/AddStaff.jsx:215-224 | the first exam input holds exactly the eight exam fields, all blank |
| AddStaff.FirstExamRecord | client/src/pages/Staffs/AddStaff.jsx:280-291 | the first exam added after typing one field carries all eight fields: the typed value, the exam's name and blanks |
| AddStaff.StaffForm.HandleDateInput | client/src/pages/Staffs/AddStaff.jsx:175-189 | only the named field changes, to the masked value |
| AddStaff.StaffForm.HandleChange | client/src/pages/Staffs/AddStaff.jsx:245-276 | only the named field changes, to the processed value |
| AddStaff.StaffForm.HandleCheckboxChange | client/src/pages/Staffs/AddStaff.jsx:192-207 | the flag follows the box; ticking copies the present address into the permanent one, unticking leaves the fields as they are |
| AddStaff.StaffForm.AddRemark | client/src/pages/Staffs/AddStaff.jsx:329-350 | a remark whose three fields are all blank after trimming is ignored; otherwise it is appended and the input is cleared |
| AddStaff.StaffForm.RemoveRemark | client/src/pages/Staffs/AddStaff.jsx:353-360 | exactly the remark at the index is removed; the rest keep their order |
| AddStaff.StaffForm.AddJob | client/src/pages/Staffs/AddStaff.jsx:372-393 | a job whose five fields are all blank after trimming is ignored; otherwise it is appended and the input is cleared |
| AddStaff.StaffForm.RemoveJob | client/src/pages/Staffs/AddStaff.jsx:396-403 | exactly the job at the index is removed; the rest keep their order |
| AddStaff.StaffForm.HandleAddExam | client/src/pages/Staffs/AddStaff.jsx:280-291 | without a selected exam nothing changes; otherwise the typed record with the exam's name is appended and the inputs are cleared |
| AddStaff.StaffForm.HandleExamChange | client/src/pages/Staffs/AddStaff.jsx:294-312 | only the named exam field changes, to the value processed with the exam skip list |
| AddStaff.StaffForm.HandleRemove | client/src/pages/Staffs/AddStaff.jsx:314-318 | exactly the exam record at the index is removed; the rest keep their order |
| AddStaff.RemoveLastAdded | client/src/pages/Staffs/AddStaff.jsx:314-318 | removing the item just added restores the list |
| Assets.DashRuns | client/src/pages/assets/Assets.jsx:21 | no whitespace is left, the result is no longer than the input, and every character is a '-' or comes from the input |
| Assets.KeepCodeChars | client/src/pages/assets/Assets.jsx:22 | only A–Z, 0–9 and '-' remain, each taken from the input, never more than were there |
| Assets.AutoGenerateCode | client/src/pages/assets/Assets.jsx:16-23 | an empty name gives an empty code, and every code consists only of A–Z, 0–9 and '-' |
| Assets.CodeUnchanged | client/src/pages/assets/Assets.jsx:16-23 | text made only of upper-case letters, digits and '-' is its own code |
| Assets.AutoGenerateCodeIdempotent | client/src/pages/assets/Assets.jsx:16-23 | generating a code from a generated code changes nothing |
| Assets.TrimPadded | client/src/pages/assets/Assets.jsx:19 | trimming drops the whitespace around a word that starts and ends with a non-blank, and nothing else |
| Assets.DashRunsJoin | client/src/pages/assets/Assets.jsx:21 | words separated by whitespace runs come out joined by exactly one '-' each |
| Assets.ToUpperJoin | client/src/pages/assets/Assets.jsx:20 | upper-casing words joined by whitespace upper-cases each word and leaves the separators |
| Assets.AutoGenerateCodeWords | client/src/pages/assets/Assets.jsx:16-23 | a name made of letter/digit words separated by whitespace runs, with any whitespace around it, gives the upper-cased words joined by single dashes |
| Assets.Quantity | client/src/pages/assets/Assets.jsx:105-106 | an empty quantity field counts as 0 |
| Assets.AssetForm.constructor | client/src/pages/assets/Assets.jsx:8-14 | the page opens with the empty form (today's date, damaged "0"), automatic codes on and nothing sent |
| Assets.AssetForm.OnChange | client/src/pages/assets/Assets.jsx:71-84 | a quantity field takes "" or a string of digits and ignores any other input; every other field takes the value as typed; nothing else changes, and the quantity fields hold only digits |
| Assets.AssetForm.OnNameInput | client/src/pages/assets/Assets.jsx:256-264 | typing a name sets the name and the name query; the code follows the generated code exactly while automatic codes are on |
| Assets.AssetForm.ResetForm | client/src/pages/assets/Assets.jsx:86-92 | the form is empty again and automatic code generation is back on |
| Assets.AssetForm.OnEdit | client/src/pages/assets/Assets.jsx:148-160 | the form shows the asset (today's date when it has none), the editing id is the asset's and automatic codes are off |
| Assets.AssetForm.OnSubmit | client/src/pages/assets/Assets.jsx:97-143 | refused, with nothing sent or changed, exactly for a missing name or code, a total of 0, or more damaged than total, in that order; otherwise one request is sent, a PUT when editing and a POST otherwise, carrying positive totals with damaged ≤ total, and the form is reset exactly when the server accepts it |
| PurchaseExpense.VendorKey | client/src/pages/expenses/PurchaseExpense.jsx:129-133 | "" without a vendor; a vendor with an id is keyed by the id's decimal digits |
| PurchaseExpense.Label | client/src/pages/expenses/PurchaseExpense.jsx:122 | an option's caption is never empty |
| PurchaseExpense.FirstIndex | client/src/pages/expenses/PurchaseExpense.jsx:119 | the index of the first purchase with the key, and no earlier one has it; or -1 exactly when none has it |
| PurchaseExpense.FirstSeenAdd | client/src/pages/expenses/PurchaseExpense.jsx:119-124 | a key met for the first time is added last, with the option made from that purchase |
| PurchaseExpense.FirstValuesAdd | client/src/pages/expenses/PurchaseExpense.jsx:119-124 | when a new key goes last, every key still maps to the option of the first purchase carrying it |
| PurchaseExpense.FirstOrderAdd | client/src/pages/expenses/PurchaseExpense.jsx:119-124 | when a new key goes last, the keys stay in the order of their first occurrence |
| PurchaseExpense.FirstSeenKeep | client/src/pages/expenses/PurchaseExpense.jsx:115-119 | a purchase without a key, or with a key already present, leaves the options as they are |
| PurchaseExpense.OptionsFollowOrder | client/src/pages/expenses/PurchaseExpense.jsx:111-127 | the i-th option carries the i-th key met and the caption of the first purchase with that key |
| PurchaseExpense.OptionsMeaning | client/src/pages/expenses/PurchaseExpense.jsx:111-127 | every option's key is non-empty and its caption comes from the first purchase with that key; options are ordered by where their keys first occur; every keyed purchase has an option |
| PurchaseExpense.VendorOptions | client/src/pages/expenses/PurchaseExpense.jsx:111-127 | one option per vendor key, in the order the keys first occur, each labelled after the first purchase with that key, and every keyed purchase has its option |
| PurchaseExpense.FilteredIsOneFilter | client/src/pages/expenses/PurchaseExpense.jsx:136-169 | the chain of filters keeps, in order, exactly the purchases that meet the search, the vendor and both date bounds |
| PurchaseExpense.NoFiltersKeepsAll | client/src/pages/expenses/PurchaseExpense.jsx:136-169 | with every filter empty every purchase is listed |
| PurchaseExpense.TotalSplitsByFilter | client/src/pages/expenses/PurchaseExpense.jsx:171-174 | the total shown plus the total of the hidden purchases is the total payable of all purchases |
| PurchaseExpense.EscapeCsv | client/src/pages/expenses/PurchaseExpense.jsx:183-194 | null gives ""; text without a double quote, comma or line feed is kept as it is |
| PurchaseExpense.EscapeCsvRoundTrip | client/src/pages/expenses/PurchaseExpense.jsx:183-194 | reading an escaped field back as CSV gives the value, so escaping loses nothing |
| PurchaseExpense.EscapeCsvEncloses | client/src/pages/expenses/PurchaseExpense.jsx:186-191 | the field is enclosed in double quotes exactly when the value holds a double quote, a comma or a line feed |
| Expense.IdText | client/src/pages/expenses/Expense.jsx:228 | String of an id is its decimal digits, and of a missing id "null" |
| Expense.IdTextMatches | client/src/pages/expenses/Expense.jsx:228 | a filter holding the digits of n matches a row exactly when the row's id is n |
| Expense.FilteredExpenses | client/src/pages/expenses/Expense.jsx:210-237 | a row is listed exactly when it is one of the rows and passes every filter |
| Expense.CategoryFilterById | client/src/pages/expenses/Expense.jsx:228 | with the category filter set to an id's digits, only rows of that category are listed, and every row of it that the other filters pass is |
| Expense.DateRangeInclusive | client/src/pages/expenses/Expense.jsx:232-233 | a dated row passes both bounds exactly when from ≤ date ≤ to, compared as strings |
| Expense.MissingDateKept | client/src/pages/expenses/Expense.jsx:232-233 | a row without a date is never dropped by the date bounds |
| Expense.SearchIgnoresCase | client/src/pages/expenses/Expense.jsx:212-225 | searching for the upper-case form of a text keeps the same rows |
| Expense.TotalSplitsByFilter | client/src/pages/expenses/Expense.jsx:239-242 | the total shown plus the total of the hidden rows is the total of all rows |
| Expense.NoFiltersKeepsAll | client/src/pages/expenses/Expense.jsx:210-242 | with every filter off, every row is listed and the total covers all of them |
| Expense.Fields | client/src/pages/expenses/Expense.jsx:249-257 | one exported value per heading |
| Expense.EncloseAll | client/src/pages/expenses/Expense.jsx:260 | one cell per value, each enclosed in double quotes |
| Expense.EncloseAllRoundTrip | client/src/pages/expenses/Expense.jsx:260 | every cell reads back as the value it was made from |
| Expense.CsvLines | client/src/pages/expenses/Expense.jsx:247-260 | the heading line and then one line per listed row |
| Expense.RowLines | client/src/pages/expenses/Expense.jsx:249-260 | line i is the quoted cells of row i joined by commas |
| Expense.NullExportsEmpty | client/src/pages/expenses/Expense.jsx:260 | a null amount is exported as an empty quoted cell |
| Expense.OrNull | client/src/pages/expenses/Expense.jsx:178-179 | an empty field is sent as null, any other value as itself |
| Expense.ExpenseForm.constructor | client/src/pages/expenses/Expense.jsx:9-24 | the form starts empty, with nothing posted |
| Expense.ExpenseForm.OnChange | client/src/pages/expenses/Expense.jsx:153-156 | only the named field changes, to the value typed |
| Expense.ExpenseForm.ResetForm | client/src/pages/expenses/Expense.jsx:158 | the form is empty again and the posted expenses stay |
| Expense.ExpenseForm.OnSubmit | client/src/pages/expenses/Expense.jsx:160-195 | refused, with nothing posted, exactly without category, amount or date, and then exactly without recorded_by; otherwise the payload (empty mode and bank sent as null, the business id or null) is posted once, and the form is cleared exactly when the server accepts it |
| ExpenseReport.InRange | client/src/pages/expenses/ExpenseReport.jsx:121-140 | without bounds every row passes; with a bound a row without a date fails; a date that does not parse passes |
| ExpenseReport.InRangeBetween | client/src/pages/expenses/ExpenseReport.jsx:121-140 | with both bounds valid, a valid date is in range exactly when it lies between them, both days included |
| ExpenseReport.InRangeWidens | client/src/pages/expenses/ExpenseReport.jsx:121-140 | a row inside a range is inside every wider range |
| ExpenseReport.GeneralDate | client/src/pages/expenses/ExpenseReport.jsx:144 | a general expense has no date exactly when expense_date, date and created_at are all empty |
| ExpenseReport.KeepSalary | client/src/pages/expenses/ExpenseReport.jsx:151-157 | a salary row without a month is always kept |
| ExpenseReport.MonthStartOfMonth | client/src/pages/expenses/ExpenseReport.jsx:154-155 | a month YYYY-MM is compared as its first day, YYYY-MM-01 |
| ExpenseReport.SalaryAmount | client/src/pages/expenses/ExpenseReport.jsx:173-179 | a row's amount is total_salary when present, and otherwise base + allowance + bonus, with missing parts counting as 0 |
| ExpenseReport.ReportTotals | client/src/pages/expenses/ExpenseReport.jsx:168-195 | the grand total is the general, salary and purchase totals added, and the record count is the number of rows listed in the three registers, never more than there are |
| ExpenseReport.NoBoundsKeepsEverything | client/src/pages/expenses/ExpenseReport.jsx:122 | without bounds every row of the three registers is listed and counted |
| ExpenseReport.TotalsSplitByRange | client/src/pages/expenses/ExpenseReport.jsx:143-187 | in each register, the total shown plus the total of the rows the range hides is the total of all rows |
| CategoryReport.CategoryOf | client/src/pages/reports/Expenses/ExpenseReport.jsx:49 | a row's category is never empty: a missing one becomes "Uncategorized" |
| CategoryReport.InCategory | client/src/pages/reports/Expenses/ExpenseReport.jsx:48-54 | exactly the rows of one category, and no more rows than there are |
| CategoryReport.InCategorySnoc | client/src/pages/reports/Expenses/ExpenseReport.jsx:53 | one more row joins the end of its own category's list and no other |
| CategoryReport.GroupsStep | client/src/pages/reports/Expenses/ExpenseReport.jsx:49-53 | each turn of the loop keeps every group exactly the rows of its category seen so far |
| CategoryReport.GroupedData | client/src/pages/reports/Expenses/ExpenseReport.jsx:45-57 | there is a group exactly for each category that occurs; each group holds that category's rows in their original order, and every row is in its category's group |
| CategoryReport.KeysTotalSnoc | client/src/pages/reports/Expenses/ExpenseReport.jsx:62-63 | one more row adds its amount once to the subtotal of its category |
| CategoryReport.SubtotalsAddUp | client/src/pages/reports/Expenses/ExpenseReport.jsx:62-71 | the subtotals of distinct categories covering every row add up to the grand total, NaN included |
| CategoryReport.GroupsAddUp | client/src/pages/reports/Expenses/ExpenseReport.jsx:45-71 | the subtotals of the groups built, listed in any order, add up to the grand total |
| CashReconciliation.InitialWellFormed | client/src/pages/accounting/CashReconciliation.jsx:9-20 | the initial denomination table has distinct ids, positive values and digit-only counts |
| CashReconciliation.KeepDigits | client/src/pages/accounting/CashReconciliation.jsx:84 | only digits remain, never more characters than were typed |
| CashReconciliation.KeepDigitsOfDigits | client/src/pages/accounting/CashReconciliation.jsx:84 | a count already made of digits is kept as it is, so stripping twice is stripping once |
| CashReconciliation.PhysicalTotalNonNegative | client/src/pages/accounting/CashReconciliation.jsx:53-60 | the counted cash is never negative |
| CashReconciliation.EmptyCountsTotalZero | client/src/pages/accounting/CashReconciliation.jsx:34-36 | a table whose counts are all empty holds no cash |
| CashReconciliation.SetCount | client/src/pages/accounting/CashReconciliation.jsx:78-89 | the row with the id takes the digits of the value as its count; ids, values and every other row stay |
| CashReconciliation.SetCountWellFormed | client/src/pages/accounting/CashReconciliation.jsx:78-89 | changing a count keeps the table well formed |
| CashReconciliation.SetCountTotal | client/src/pages/accounting/CashReconciliation.jsx:53-60 | changing one row's count changes the cash total by exactly that row's change |
| CashReconciliation.UntouchedTotal | client/src/pages/accounting/CashReconciliation.jsx:78-89 | a change aimed at an id the table does not have changes nothing |
| CashReconciliation.StatusOf | client/src/pages/accounting/CashReconciliation.jsx:67-69 | Short exactly below zero, Excess exactly above zero, Balanced exactly at zero |
| CashReconciliation.CashReconciler.constructor | client/src/pages/accounting/CashReconciliation.jsx:24-39 | the form starts blank with empty counts and no history |
| CashReconciliation.CashReconciler.HandleDenomChange | client/src/pages/accounting/CashReconciliation.jsx:78-89 | the table becomes SetCount of the old one, and stays well formed |
| CashReconciliation.CashReconciler.ResetForm | client/src/pages/accounting/CashReconciliation.jsx:91-101 | the form is blank and the counts empty again; the history stays |
| CashReconciliation.CashReconciler.SaveReconciliation | client/src/pages/accounting/CashReconciliation.jsx:103-120 | nothing happens exactly when the date or the cashier is missing; otherwise a record of the book closing (opening + receipts − payments), the counted cash, their difference and its status goes first in the history and the form is reset |
| CashReconciliation.SavedStatusMeaning | client/src/pages/accounting/CashReconciliation.jsx:62-69 | a saved status is Balanced exactly when the counted cash equals the book closing, and Short exactly when it is less |
| CashReconciliation.ResetIsBalanced | client/src/pages/accounting/CashReconciliation.jsx:91-101 | after a reset nothing is counted and the status is Balanced |
| BankReconciliation.UnreconciledAppend | client/src/pages/accounting/BankReconciliation.jsx:95-109 | the open total of two lists put together is the sum of theirs |
| BankReconciliation.UnreconciledSingle | client/src/pages/accounting/BankReconciliation.jsx:98-99 | one entry counts debit − credit exactly when it is not reconciled |
| BankReconciliation.UnreconciledPlusReconciled | client/src/pages/accounting/BankReconciliation.jsx:95-109 | the net of all entries is the open total plus the net of the reconciled ones |
| BankReconciliation.Toggle | client/src/pages/accounting/BankReconciliation.jsx:174-188 | every entry with the id has its mark flipped and every other entry stays |
| BankReconciliation.ToggleTwice | client/src/pages/accounting/BankReconciliation.jsx:174-188 | toggling the same id twice restores the list |
| BankReconciliation.ToggleAbsent | client/src/pages/accounting/BankReconciliation.jsx:174-188 | toggling an id no entry has changes nothing |
| BankReconciliation.ToggleAppend | client/src/pages/accounting/BankReconciliation.jsx:176-178 | a toggle acts on each part of a list separately |
| BankReconciliation.ToggleUnreconciled | client/src/pages/accounting/BankReconciliation.jsx:95-109 | with distinct ids, marking an open entry reconciled removes its net from the open total, and unmarking adds it back |
| BankReconciliation.StatusOf | client/src/pages/accounting/BankReconciliation.jsx:91-93 | More in Books exactly above zero, More in Bank exactly below, Balanced exactly at zero |
| BankReconciliation.BankReconciler.constructor | client/src/pages/accounting/BankReconciliation.jsx:47-79 | account 1, empty summary and line forms, the sample book entries, no bank entries and no history |
| BankReconciliation.BankReconciler.AddBankEntry | client/src/pages/accounting/BankReconciliation.jsx:128-157 | added exactly when there is a date, a reference and a debit or credit other than 0; then one open entry is appended and the line form cleared, otherwise nothing changes |
| BankReconciliation.BankReconciler.ToggleBookReconciled | client/src/pages/accounting/BankReconciliation.jsx:174-180 | the book entries become Toggle of the old ones |
| BankReconciliation.BankReconciler.ToggleBankReconciled | client/src/pages/accounting/BankReconciliation.jsx:182-188 | the bank entries become Toggle of the old ones |
| BankReconciliation.BankReconciler.ClearForm | client/src/pages/accounting/BankReconciliation.jsx:190-199 | the as-of date, both closings, the preparer and the remarks are cleared; the account and period stay |
| BankReconciliation.BankReconciler.SaveReconciliation | client/src/pages/accounting/BankReconciliation.jsx:201-223 | saved exactly with an as-of date and a preparer; then a record of both closings, their difference, its status and the account name goes first in the history and the summary is cleared; otherwise nothing changes |
| BankReconciliation.SampleUnreconciled | client/src/pages/accounting/BankReconciliation.jsx:16-44 | the sample book entries have 8000 open: the 20000 receipt less the 12000 rent |
| PettyCash.DocNoParts | client/src/pages/accounting/PettyCash.jsx:156 | a number is the prefix followed by at least four digits that read back as the count |
| PettyCash.DocNoRoundTrip | client/src/pages/accounting/PettyCash.jsx:156 | the count is read back from the number, so different counts give different numbers |
| PettyCash.CountsOfNumbers | client/src/pages/accounting/PettyCash.jsx:156 | numbers made from different counts differ, and each reads back as its own count |
| PettyCash.FirstNumbers | client/src/pages/accounting/PettyCash.jsx:156-214 | the first requisition, voucher and replenishment numbers are PCR-0001, PCV-0001 and PCRL-0001 |
| PettyCash.NumberedAppend | client/src/pages/accounting/PettyCash.jsx:156-170 | appending a record numbered with the new count keeps every record numbered by its position |
| PettyCash.NumbersDistinct | client/src/pages/accounting/PettyCash.jsx:156-225 | numbered records never share a number: each number carries its own position |
| PettyCash.CurrentBalance | client/src/pages/accounting/PettyCash.jsx:98-113 | the balance is a number exactly when the fund limit and every voucher and replenishment amount are numbers |
| PettyCash.VoucherLowersBalance | client/src/pages/accounting/PettyCash.jsx:98-113 | a new voucher lowers the balance by its amount |
| PettyCash.ReplenishmentRaisesBalance | client/src/pages/accounting/PettyCash.jsx:98-113 | a new replenishment raises the balance by its amount |
| PettyCash.StartingBalance | client/src/pages/accounting/PettyCash.jsx:21-113 | the page starts at 50000 + 3000 − 1200 = 51800 |
| PettyCash.PettyCashBook.constructor | client/src/pages/accounting/PettyCash.jsx:21-95 | the page starts with a 50000 fund, one record of each kind, empty entry forms and a balance of 51800 |
| PettyCash.PettyCashBook.SaveFund | client/src/pages/accounting/PettyCash.jsx:122-129 | the fund takes the settings form's name, custodian and limit, an empty limit being 0 |
| PettyCash.PettyCashBook.AddRequisition | client/src/pages/accounting/PettyCash.jsx:146-180 | added exactly with a date, a requester, a purpose and an amount; then the requisition numbered after the count is appended and the form emptied, otherwise nothing changes |
| PettyCash.PettyCashBook.AddVoucher | client/src/pages/accounting/PettyCash.jsx:182-208 | added exactly with a date, a payee and an amount; then the voucher numbered after the count is appended and the form emptied, otherwise nothing changes |
| PettyCash.PettyCashBook.AddReplenishment | client/src/pages/accounting/PettyCash.jsx:210-232 | added exactly with a date and an amount; then the replenishment numbered after the count is appended and the form emptied, otherwise nothing changes |
| Sorting.Sort | client/src/pages/purchases/Bills.jsx:75-79 | the sorted rows are a permutation of the input |
| Sorting.SortSorted | client/src/pages/purchases/Bills.jsx:75-79 | the rows come out ordered by the comparator's key |
| Sorting.SortStable | client/src/pages/purchases/Bills.jsx:75-79 | rows with equal keys keep their input order, as Array.prototype.sort guarantees |
| Sorting.SumSort | client/src/pages/purchases/Bills.jsx:75-79 | sorting moves rows but keeps every total over them |
| ProductSales.SalePage.constructor | client/src/pages/sales/ProductSales.jsx:127-161 | the page opens with nothing selected, zero figures, blank inputs and no lines or payments |
| ProductsPurchases.PurchasePage.constructor | client/src/pages/purchases/ProductsPurchases.jsx:100-114 | the page opens with nothing selected, blank inputs, zero totals and no lines, payments or posts |
| PurchaseInvoices.InvoicesPage.constructor | client/src/pages/purchases/Invoices.jsx:9-26 | no purchases, an empty search, the "all" status filter and a closed, cleared payment dialog |
| SalesInvoices.InvoicesPage.constructor | client/src/pages/sales/Invoices.jsx:108-168 | no sales, page 1, no filters, no expanded rows, closed and cleared return and payment dialogs, nothing posted |
| PurchaseInvoices.MapAll | client/src/pages/purchases/Invoices.jsx:65-84 | one row per purchase, in order, each mapped on its own |
| Bills.MapBills | client/src/pages/purchases/Bills.jsx:45-72 | one bill per purchase, in order, each mapped on its own |
| PurchasePayments.AllRowsPaid | client/src/pages/purchases/PurchasePayments.jsx:56-81 | the rows together carry exactly what the purchases record as paid |
| Sales.ClampedEffect | server/sales/models.py:46-61 | the clamped deduction of `SaleProduct.save` never adds or removes a stock row |
| Sales.LinesEffectUpTo | server/sales/serializers.py:121-135 | when the first n lines are accepted the stock table keeps the same number of rows |
| Sales.LinesEffect | server/sales/serializers.py:121-135 | when every line is accepted the stock table has the same rows as before; the effects of the lines are composed in order |
| JsNumber.Add | client/src/pages/reports/Expenses/ExpenseReport.jsx:62-63 | JavaScript `+` on numbers: the sum is a number exactly when both terms are, NaN absorbs |
| JsNumber.NumSum | client/src/pages/reports/Expenses/ExpenseReport.jsx:62-63 | a `reduce` sum is a number exactly when every term is |
| JsNumber.NumSumAppend | client/src/pages/reports/Expenses/ExpenseReport.jsx:62-71 | the sum of two lists put together is the sum of their sums |
| JsNumber.NumSumFinite | client/src/pages/reports/Expenses/ExpenseReport.jsx:62-63 | when every term is a number, the sum is the ordinary sum |
| Text.NatToString | client/src/pages/expenses/Expense.jsx:228 | `String(n)` of a natural number: decimal digits without leading zeros that read back as n |
| Text.PadStart | client/src/pages/accounting/PettyCash.jsx:156 | `padStart` gives the width, or the text itself when it is already that long |
| Text.PadStartParts | client/src/pages/accounting/PettyCash.jsx:156 | the padded text ends with the text and starts with fill characters only |
| Text.ZeroPaddedValue | client/src/pages/accounting/PettyCash.jsx:156 | zero padding keeps the number: the padded digits read back as n |
| Text.ToUpper | client/src/pages/Staffs/AddStaff.jsx:12-14 | each ASCII letter is upper-cased and the length is kept |
| Text.ToLower | client/src/pages/sales/Invoices.jsx:353 | each ASCII letter is lower-cased and the length is kept |
| Text.Trim | client/src/pages/assets/Assets.jsx:19 | the result neither starts nor ends with whitespace, and it is empty exactly when the text is all whitespace |
| Text.ContainsIff | client/src/pages/sales/Invoices.jsx:353 | `includes` holds exactly when some window of the text equals the searched text |
| Text.Split | client/src/pages/Staffs/AddStaff.jsx:438 | `split` gives at least one part, and no part holds the separator |
| Text.SplitJoin | client/src/pages/Staffs/AddStaff.jsx:438-445 | parts without the separator, joined by it, split back into the same parts |
| Csv.Enclose | client/src/pages/expenses/Expense.jsx:260 | the cell starts and ends with a double quote |
| Csv.EncloseRoundTrip | client/src/pages/expenses/Expense.jsx:260 | reading an enclosed cell as CSV gives back exactly the value |
| Csv.BareRoundTrip | client/src/pages/expenses/PurchaseExpense.jsx:193 | a value without a double quote, comma or line feed reads back as itself when written bare |

## Left out

- BankLedger.Ledger.RecalculateBalances: the body of `BankAccount.recalculate_balances` is not part of the source shown (server/master/models.py:83-103). It is a method that may change only the derived balance fields of the one account and keeps every opening balance; no replay algorithm is attributed to it.
- Sales.SalesStore.Create: whether the `post_save` receiver of server/sales/signals.py is registered is decided in server/sales/apps.py, which is not part of this model. Create therefore takes it as the parameter `connected` and is proved for both cases.
- Sales.SalesStore.LineStockEffect: the stock row that `SaleProduct.save` finds by product and product code (server/sales/models.py:52-55) is the parameter `lookup`. The stock model `StockProduct` is not part of this model, and the fields its serializer lists have no product code, so the filter cannot be computed here. Sales.DoubleDeduction is stated for a lookup that finds the product's first row.
- Text.ToUpper: maps only the ASCII letters. JavaScript's `toUpperCase` also maps other letters, some of them to two characters ("ß" becomes "SS"), so the length-preserving contract holds only for such text. It feeds the searches, Assets.AutoGenerateCode and AddStaff.Processed.
- Text.ToLower: maps only the ASCII letters, for the same reason as Text.ToUpper. It feeds every case-insensitive search filter.
- JsNumber.Add: JavaScript numbers are IEEE doubles. The model adds exact reals and keeps only NaN. Sums and roundings are therefore exact, including ProductSales.TotalPaid, PurchaseInvoices.Round2, SalesInvoices.Round2Cents, JournalVoucher.ToFixed2Value and CategoryReport.SubtotalsAddUp. The Python side is unaffected: Reports.PercentChangeRounding uses Decimal, which is exact.
- ProductSales.ParseIntNum: a field is one `Input` carrying the number its text parses to, and `parseInt` is modelled as truncation of that number. The real `parseInt` stops at the first character that is not a digit, so a quantity field holding "1e3" gives 1 in the page (client/src/pages/sales/ProductSales.jsx:384 and 446) but 1000 here. The model agrees with the page for every plain decimal quantity.
- ProductSales.ParseQty: reads a quantity like ProductSales.ParseIntNum and shares its gap for exponent and other non-digit text.
- ProductsPurchases.LineTotal: counts the quantity through ProductSales.ParseQty and shares the same gap for exponent text (client/src/pages/purchases/ProductsPurchases.jsx:223 and 365).
- Sales.PerformReturn: the view recomputes the stock value as the quantity times `float(purchase_price)`, a binary double, before storing it in a decimal field (server/sales/views.py:76-77). The model multiplies exact integers, so the rounding of that double is not captured.
- PurchasePayments.FetchPurchasePayments: the date parser is a total function from text to a time key. In the page, `new Date(bad)` gives NaN, and a comparator returning NaN treats the pair as equal. The order of payments with unreadable dates is not modelled.
- SalesPayments.LoadSalesWithPayments: does not model unreadable dates, for the same reason as PurchasePayments.FetchPurchasePayments.
- Bills.LoadBills: does not model unreadable dates, for the same reason as PurchasePayments.FetchPurchasePayments.
- CustomerStatements.Statement: does not model unreadable dates, for the same reason as PurchasePayments.FetchPurchasePayments.
- PurchaseInvoices.LoadPurchases: does not model unreadable dates, for the same reason as PurchasePayments.FetchPurchasePayments.
- PurchaseInvoices.InvoicesPage.ClosePayModal: the `savingPayment` guard is not modelled. Requests complete before the next handler runs here, so the dialog is never closed while a payment is being saved.
- CategoryReport.CategoryOf: the page groups rows in a plain object. A category named after an inherited property, such as "constructor" or "__proto__", behaves differently there. The model uses a map.
- ExpenseReport.InRange: the date parser is a parameter returning a day number. The end-of-day `setHours` bound and time zones are not modelled.
- Dashboard: the six-month trend (client/src/pages/Dashboard.jsx:224-284) depends on the clock and time zone, and is not modelled.
- Formatting: `toLocaleString`, currency symbols and the HTML/PDF print views are not modelled. Only the `toFixed(2)` figures that the pages compare or post are modelled.
- React and browser plumbing is not modelled: hooks wiring, `localStorage`, window events, Blob downloads, Axios calls and the loading flags. Plain field setters that only copy an input into the form are covered by the handlers that use the fields; examples are `handleCashFormChange`, `handleSummaryChange`, `handleReqChange` and `handleRemarkChange`. AddStaff.StaffForm.HandleChange models only the text branch of `handleChange`: the file branch (`files[0]`) and the checkbox branch (`checked`) store a browser object or a flag, and are not modelled.
- The following handlers only fetch, render or copy a record into the form, and are not modelled:
  - AddStaff's `handleSubmit`, which assembles `FormData`, and its staff fetch;
  - the asset combobox selection;
  - the expense and asset deletes.
- Framework plumbing is not modelled: Django/DRF viewsets, routers, admin and `transaction.atomic` internals. Atomicity of a sale's creation is modelled as an all-or-nothing result.
- Concurrency is not modelled. The source takes no locks, and `generate_invoice_no` reads the largest id without one. The model is a single sequential store.
- The report views (server/reports/views.py) are ORM aggregation and are not modelled; only `percent_change` is.
- The purchase stock signal (server/purchase/signals.py) is commented out in the source, so there is no purchase-line stock update to model.
- Authentication, the user and staff accounts, and the settings/master CRUD pages are not part of this model.

## Findings

| source | as written | input that shows it | evidently intended | confidence | as-written member | corrected member |
|---|---|---|---|---|---|---|
| client/src/pages/sales/CustomerStatements.jsx:93-107 | the previous due becomes an opening row whose debit is that due, and the running balance (lines 163-167) also starts at that due, so the closing balance counts it twice | a customer owing 100 from before, with no sales in the period: the statement closes at 200 | the closing balance is the previous due plus invoiced minus received (the running balance starts at 0) | not executed | CustomerStatements.OpeningCountedTwice | CustomerStatements.CorrectedClosingMeaning |
| server/sales/models.py:46-61 | `SaleProduct.save` deducts the line's quantity from the stock row itself (clamped at 0) after `super().save()`, which fires the `update_stock_on_sale` receiver (server/sales/signals.py), and that receiver deducts the same quantity again | with the receiver registered, a new line of quantity q whose product code leads to the product's first stock row, holding at least q: that row's sale quantity grows by 2q | each sale line is deducted once, checked against stock, conserving sale + current quantity | not executed; applies only when the receiver is registered | Sales.DoubleDeduction | Sales.SingleDeduction |
| server/sales/serializers.py:49-53 | the required `sale_id` field refuses a payment without `sale_id`, and when one is sent, `create` passes `sale` twice to `SalePayment.objects.create` (line 133), which raises a TypeError and rolls back the sale | a sale posted with one payment: refused with 400 without `sale_id`, rolled back with it | the payments are stored linked to the new sale | not executed | Sales.SalesStore.CreateAsWritten | Sales.SalesStore.Create |
| client/src/pages/purchases/ProductsPurchases.jsx:204-210 | clearing the product picker calls `setSelectedPartNumber`, which is not declared, so the handler throws before `setCurrentStock(0)` | choose a product with 5 on hand, then clear the picker: 5 stays shown | the quantity on hand is reset to 0 | not executed | ProductsPurchases.PurchasePage.ChooseProduct | ProductsPurchases.PurchasePage.ChooseProductCorrected |
