# Banking app core, modelled in Dafny

This project models the logic of a Next.js banking application:

- **Statement export.** The route `app/api/transactions-pdf/route.ts` does this work:
  - it cleans transaction names;
  - it formats categories and dollar amounts;
  - it builds the customer name;
  - it assembles an HTML report from every account of the signed-in user;
  - it renders the report to a PDF attachment.
- **Account listing.** The route `app/api/get-accounts/route.ts` builds one account record per bank connection and totals the current balances.
- **Transfer records.** The server actions in `lib/actions/transaction.actions.ts`:
  - store a record with a default channel and category;
  - list a bank's records, sent first, then received.
- **Address autocomplete.** This is `components/StyledPopupMapAutocomplete.tsx`. It holds a suggestion list with a keyboard highlight. Choosing a suggestion fills the address fields.
- **Side sheet.** In `components/ui/sheet.tsx`, the dialog finds its title among its children, falls back to a default title, and traps focus with Escape and Tab.
- **Transfer form.** `components/PaymentTransferForm.tsx` validates its fields. Its submit sequence runs the bank lookups, then the transfer, then the stored record, then the reset.
- **Display components.** These are `components/TransactionsTable.tsx`, `components/RecentTransactions.tsx` and `components/RightSidebar.tsx`:
  - row colouring and signed amounts;
  - per-account tabs and tables;
  - the stacked bank cards.

Each source file is one module:

| module | file |
|---|---|
| `TransactionsPdf` | `transactions_pdf.dfy` |
| `GetAccounts` | `get_accounts.dfy` |
| `TransactionActions` | `transaction_actions.dfy` |
| `AddressAutocomplete` | `address_autocomplete.dfy` |
| `Sheet` | `sheet.dfy` |
| `PaymentTransferForm` | `payment_transfer_form.dfy` |
| `TransactionsTable` | `transactions_table.dfy` |
| `RecentTransactions` | `recent_transactions.dfy` |
| `RightSidebar` | `right_sidebar.dfy` |

Three shared modules hold what several files use:

- `Wrappers`: Option and Result, JavaScript truthiness, `a || b`, and `Promise.all`.
- `Seqs`: filter, concatenation and sums.
- `Text`: ASCII case, the JavaScript `trim` whitespace set, and split and join on a space.

The form of each part follows the source:

- **Pure helpers and the route handlers** are functions. Their properties are lemmas.
- **Address autocomplete.** Its state lives in React state that the handlers update. It is the class `AddressAutocomplete.Autocomplete`. Each method is specified by a transition function on the state value, and the lemmas are stated about those functions.
- **Sheet key handler.** It is a transition function. The class `Sheet.Page` applies its effect to the focused element, the default-prevented flag and the clicks.
- **Transfer form.** It is the class `PaymentTransferForm.Form`:
  - its loading flag and values;
  - the transfers, records and navigations it has sent out.
- **Title search.** The search in the sheet loops over the children. It is the method `Sheet.FindSheetTitleText`, proved against a pre-order specification.

Money is integer cents throughout. Calls to the database, the bank aggregator, the payment service and the browser are function-typed parameters. A call that throws is a `Failure` result.

## Model

| member | source | states |
|---|---|---|
| Wrappers.AllSucceed | app/api/get-accounts/route.ts:17-38 | `Promise.all` over a list: success iff every call succeeds, then the results in order; otherwise the error of the first failing call |
| TransactionsPdf.FormatTransactionName | app/api/transactions-pdf/route.ts:11-13 | the cleaned name holds only ASCII letters, digits and spaces, and is never longer than the input |
| TransactionsPdf.FormatTransactionNameIdempotent | app/api/transactions-pdf/route.ts:11-13 | cleaning a cleaned name changes nothing |
| TransactionsPdf.FormatTransactionNameKeepsClean | app/api/transactions-pdf/route.ts:11-13 | a name made only of allowed characters is kept whole |
| TransactionsPdf.FormatTransactionNameCount | app/api/transactions-pdf/route.ts:12 | every occurrence of an allowed character survives; every other character is removed |
| TransactionsPdf.FormatTransactionNameAppend | app/api/transactions-pdf/route.ts:12 | cleaning works piecewise over a concatenation, so the kept characters stay in order |
| TransactionsPdf.FormatCategoryIsCategoryText | app/api/transactions-pdf/route.ts:18-23 | the replace, lower-case, split, capitalise and join pipeline equals a per-character rule: upper-case at each word start, lower-case elsewhere |
| TransactionsPdf.FormatCategoryNotAvailable | app/api/transactions-pdf/route.ts:16-23 | the result is "N/A" exactly when the category is missing or empty |
| TransactionsPdf.FormatCategoryShape | app/api/transactions-pdf/route.ts:18-23 | for a present category: same length; no underscore left; a space exactly where the input had a space or an underscore; no lower-case letter at a word start and no upper-case letter elsewhere |
| TransactionsPdf.FormatCategoryIdempotent | app/api/transactions-pdf/route.ts:18-23 | formatting a formatted non-empty category changes nothing |
| TransactionsPdf.FormatCategoryOfNotAvailable | app/api/transactions-pdf/route.ts:16-23 | the missing-category marker is not a fixed point: formatting "N/A" again gives "N/a" |
| TransactionsPdf.FormatCategory | app/api/transactions-pdf/route.ts:16-24 | a missing or empty category gives "N/A"; a present one keeps its length (its shape is stated by the lemmas above) |
| TransactionsPdf.NatToDecimal | app/api/transactions-pdf/route.ts:28 | the whole-dollar numeral is all digits, denotes the number, and has no leading zero |
| TransactionsPdf.FormatAmount | app/api/transactions-pdf/route.ts:27-29 | a formatted amount starts with "$" and has at least five characters |
| TransactionsPdf.FormatAmountRoundTrip | app/api/transactions-pdf/route.ts:27-29 | every formatted amount reads back as the same number of cents |
| TransactionsPdf.FormatAmountSign | app/api/transactions-pdf/route.ts:27-29 | a minus follows the "$" exactly for negative amounts; there are always a point and two decimals |
| TransactionsPdf.CustomerNameFallback | app/api/transactions-pdf/route.ts:62 | the name is "N/A" exactly when both parts are missing or blank (or the joined name trims to "N/A"); otherwise it is trimmed and non-empty |
| TransactionsPdf.CustomerNameFull | app/api/transactions-pdf/route.ts:62 | two present, trimmed names give "first last" |
| TransactionsPdf.CustomerNameFirstOnly | app/api/transactions-pdf/route.ts:62 | a trimmed first name alone gives that name, with no trailing space |
| TransactionsPdf.CustomerName | app/api/transactions-pdf/route.ts:62 | the customer name is never empty and never starts or ends with whitespace; it is either "N/A" or the trimmed "first last" |
| TransactionsPdf.Row | app/api/transactions-pdf/route.ts:124-137 | a row's cells: the cleaned name, an amount that reads back to the transaction's cents, "Pending" exactly for a pending transaction and "Completed" otherwise, the formatted date, the channel fallback and the formatted category |
| TransactionsPdf.Section | app/api/transactions-pdf/route.ts:103-141 | an account's summary keeps its name, official name and mask, shows a balance that reads back to its cents, and has one row per transaction in order |
| TransactionsPdf.BuildReport | app/api/transactions-pdf/route.ts:54-143 | the report carries the customer name and the download date, and one section per fetched account in order |
| TransactionsPdf.RenderReport | app/api/transactions-pdf/route.ts:64-146 | the document always opens with the fixed head and closes with the fixed tail |
| TransactionsPdf.ReportStructure | app/api/transactions-pdf/route.ts:95-143 | the header carries the customer name and the download date; one section per account in order, with the account's name, official name, mask and a balance that reads back to its cents; one row per transaction in order, with the cleaned name, an amount that reads back to the transaction's cents, "Pending" exactly for pending transactions, the formatted date, the channel falling back from payment channel to channel to "N/A", and the formatted category |
| TransactionsPdf.RenderSectionsAppend | app/api/transactions-pdf/route.ts:101-143 | the sections' markup is each section's markup in turn, so the document keeps the account order |
| TransactionsPdf.RenderRowsAppend | app/api/transactions-pdf/route.ts:123-138 | a table body's markup is each row's markup in turn, so the table keeps the transaction order |
| TransactionsPdf.RenderTwoRows | app/api/transactions-pdf/route.ts:125-137 | two rows render as the first row's cells followed by the second row's cells |
| TransactionsPdf.RenderWithoutSections | app/api/transactions-pdf/route.ts:64-146 | a report without sections renders as the header alone between the fixed head and tail |
| TransactionsPdf.NoAccountsNoSections | app/api/transactions-pdf/route.ts:54-146 | a user with no accounts gets a header-only document, not an error |
| TransactionsPdf.PendingThenCompleted | app/api/transactions-pdf/route.ts:130 | a pending and then a completed transaction give two rows, "Pending" then "Completed" |
| TransactionsPdf.GetOutcome | app/api/transactions-pdf/route.ts:49-180 | with no signed-in user the answer is 500 with the runtime's null-user message, not an unauthenticated response. A failing account list, account fetch (the first failing one in list order) or rendering gives 500 with that step's own message. When every step succeeds, the answer is the attachment with the PDF header and file name, holding exactly the bytes rendered from the report of the fetched accounts |
| TransactionsPdf.Get | app/api/transactions-pdf/route.ts:49-180 | no user gives 500 with the null-user message; every error answer is a 500; an attachment is always "application/pdf" named Bank-Statement.pdf |
| GetAccounts.ToAccount | app/api/get-accounts/route.ts:18-36 | a bank's record exists iff the aggregator call succeeds with at least one account; its id and balance come from the first account, and its item id and sharable id from the bank |
| GetAccounts.Get | app/api/get-accounts/route.ts:5-55 | a missing or empty user id gives 400 "Missing userId"; with a present user id, every error is 500 "Server Error". Success iff the bank lookup and every per-bank call succeed; then the records are exactly each bank's record (ToAccount), one per bank in bank order, with the bank count and the total as the sum of the current balances the aggregator reported |
| GetAccounts.Balances | app/api/get-accounts/route.ts:41-44 | the amounts the reduce adds: each account's current balance in order, a null balance adding 0 |
| GetAccounts.NoBanksZeroTotal | app/api/get-accounts/route.ts:40-44 | a user with no banks gets an empty list, zero banks and a zero total |
| GetAccounts.TotalSplits | app/api/get-accounts/route.ts:41-44 | the total over two lists of accounts is the sum of their totals |
| TransactionActions.WithDefaults | lib/actions/transaction.actions.ts:21-25 | the stored record has the caller's keys plus channel and category; the caller's fields win; the missing ones default to "online" and "Transfer" |
| TransactionActions.CreateTransaction | lib/actions/transaction.actions.ts:13-32 | a record is returned iff the database accepts the record with defaults; a database error gives no record and no exception |
| TransactionActions.GetTransactionsByBankId | lib/actions/transaction.actions.ts:34-68 | a result iff both queries succeed; the sent documents come first, then the received ones; the total is the sum of both totals |
| TransactionActions.MergeOverCollection | lib/actions/transaction.actions.ts:38-62 | over a collection answering each equality query with its first page (25 documents) and the count of all matches: the total is the number of documents the bank sent plus the number it received; the listing holds at most 50 documents and never more than the total, and fewer as soon as either side has more than a page; each document appears at most as often as it was sent plus received, and exactly that often when neither side exceeds a page |
| TransactionActions.FirstPage | lib/actions/transaction.actions.ts:38-54 | a query without a limit receives the first 25 matches in order (all of them when there are fewer) and the count of every match |
| AddressAutocomplete.FirstTruthy | components/StyledPopupMapAutocomplete.tsx:88-91 | a chain of "or" fallbacks ending in "" gives "" iff no alternative is truthy, and otherwise the first truthy one |
| AddressAutocomplete.FieldsFromPlace | components/StyledPopupMapAutocomplete.tsx:85-91 | each address field is the first truthy value of its own fallback chain |
| AddressAutocomplete.OnChangeSpec | components/StyledPopupMapAutocomplete.tsx:127-131 | typing sets the query and the street field and hides the map; the other fields, the list, the highlight and the chosen place stay |
| AddressAutocomplete.FetchSpec | components/StyledPopupMapAutocomplete.tsx:46-66 | the search as written: a query shorter than three characters changes nothing; otherwise only the list is replaced, and the highlight is kept |
| AddressAutocomplete.MouseDownSpec | components/StyledPopupMapAutocomplete.tsx:74-80 | a press inside changes nothing; outside, the list is cleared, the map hidden and the highlight dropped; the query, fields and chosen place stay |
| AddressAutocomplete.SelectSpec | components/StyledPopupMapAutocomplete.tsx:85-103 | choosing a place fills the fields from it, keeps its coordinates, shows the map and clears the list; the query and highlight stay |
| AddressAutocomplete.KeyDownSpec | components/StyledPopupMapAutocomplete.tsx:105-113 | throws exactly for Enter with the highlight past the end of a non-empty list, and then changes nothing. With no suggestions, or for other keys, nothing changes. The arrows only move the highlight, and it lands inside the list |
| AddressAutocomplete.HandlersKeepHighlightFloor | components/StyledPopupMapAutocomplete.tsx:42-113 | no handler moves the highlight below -1 |
| AddressAutocomplete.KeysIgnoredWithoutResults | components/StyledPopupMapAutocomplete.tsx:106 | with no suggestions a key press changes nothing |
| AddressAutocomplete.ArrowKeysClamp | components/StyledPopupMapAutocomplete.tsx:108-109 | ArrowDown moves one down, and from the last suggestion or a highlight past the end lands exactly on the last suggestion; ArrowUp moves one up, but never above the first |
| AddressAutocomplete.EnterSelectsHighlighted | components/StyledPopupMapAutocomplete.tsx:110-111 | Enter on a highlighted suggestion is exactly the selection of that suggestion: it fills the fields from it, keeps its coordinates, opens the map and clears the list, and keeps the query and the highlight |
| AddressAutocomplete.EnterOutcomes | components/StyledPopupMapAutocomplete.tsx:105-113 | Enter without a highlight does nothing. A key press throws exactly for Enter with the highlight past the end of a non-empty list, and then nothing changes |
| AddressAutocomplete.ShortQueryNoFetch | components/StyledPopupMapAutocomplete.tsx:48 | a query shorter than three characters leaves the state unchanged |
| AddressAutocomplete.SelectFallbacks | components/StyledPopupMapAutocomplete.tsx:86-91 | without address parts, the street is the display name and the other fields are empty. A truthy road is the street. With no city and no town, the village is the city |
| AddressAutocomplete.StaleHighlightThrows | components/StyledPopupMapAutocomplete.tsx:105-113 | a concrete run of the handlers as written, which ends with Enter throwing (see Findings) |
| AddressAutocomplete.FetchResettingSpec | components/StyledPopupMapAutocomplete.tsx:63 | the corrected search: a short query changes nothing; otherwise the list is replaced and the highlight reset to -1 |
| AddressAutocomplete.CorrectedHandlersKeepHighlight | components/StyledPopupMapAutocomplete.tsx:63 | if the search resets the highlight, every handler keeps it at -1 or inside the list |
| AddressAutocomplete.CorrectedNeverThrows | components/StyledPopupMapAutocomplete.tsx:110-111 | with the highlight inside the list, no key press throws |
| AddressAutocomplete.Autocomplete.constructor | components/StyledPopupMapAutocomplete.tsx:38-42 | empty query and list, no highlight, map hidden, nothing selected |
| AddressAutocomplete.Autocomplete.OnChange | components/StyledPopupMapAutocomplete.tsx:127-131 | typing sets the query and the street field and hides the map |
| AddressAutocomplete.Autocomplete.FetchAddresses | components/StyledPopupMapAutocomplete.tsx:46-66 | a query of three or more characters replaces the suggestions with the geocoder's answer and resets the highlight (the corrected search) |
| AddressAutocomplete.Autocomplete.MouseDown | components/StyledPopupMapAutocomplete.tsx:74-80 | a click outside clears the list and the highlight and hides the map; a click inside changes nothing |
| AddressAutocomplete.MouseEnterSpec | components/StyledPopupMapAutocomplete.tsx:143 | hovering suggestion `index` sets the highlight to it, inside the list; the query, list, map, coordinates and fields stay |
| AddressAutocomplete.Autocomplete.MouseEnter | components/StyledPopupMapAutocomplete.tsx:143 | hovering a suggestion highlights it |
| AddressAutocomplete.Autocomplete.Select | components/StyledPopupMapAutocomplete.tsx:85-103 | choosing a place fills the fields, keeps its coordinates, shows the map and clears the list |
| AddressAutocomplete.Autocomplete.KeyDown | components/StyledPopupMapAutocomplete.tsx:105-113 | the key handler's transition, which never throws while the highlight stays inside the list |
| Sheet.TitleText | components/ui/sheet.tsx:40-43 | the text taken from a title (its string children joined, then trimmed) never starts or ends with whitespace |
| Sheet.IsTitleIffText | components/ui/sheet.tsx:39-45 | a `SheetTitle` element answers the search exactly when its trimmed text is non-empty |
| Sheet.FirstTitle | components/ui/sheet.tsx:32-55 | no answer iff no element in the list is a title; an answer is non-empty and trimmed |
| Sheet.FirstTitleIsFirst | components/ui/sheet.tsx:32-55 | the answer is the text of the title at the smallest position |
| Sheet.TitleOf | components/ui/sheet.tsx:32-55 | the search's answer: none exactly when no element, in pre-order, is a title with text; an answer is non-empty and trimmed |
| Sheet.FindSheetTitleText | components/ui/sheet.tsx:32-55 | the loop over the children, with its descent into each element, finds the first title in pre-order |
| Sheet.TitleOfIsTrimmed | components/ui/sheet.tsx:40-45 | a found title is non-empty and trimmed |
| Sheet.SkipsNonElements | components/ui/sheet.tsx:34 | strings and numbers among the children are skipped |
| Sheet.EmptyTitleSearchesOn | components/ui/sheet.tsx:39-51 | a title with only whitespace does not stop the search: its own children come next, then its siblings |
| Sheet.FirstInPreOrderWins | components/ui/sheet.tsx:39-45 | a title wins over any title inside its later siblings |
| Sheet.AccessibleTitle | components/ui/sheet.tsx:130 | a given title wins, even an empty one; otherwise the found title; with neither, "Sheet dialog"; without a given title the result is never empty |
| Sheet.KeyDownEffect | components/ui/sheet.tsx:168-201 | only Escape clicks; a focus change is always to a focusable element and prevents the default |
| Sheet.EscapeCloses | components/ui/sheet.tsx:170-178 | "Escape" or "Esc" prevents the default and clicks the close button, with no focus change |
| Sheet.OtherKeysIgnored | components/ui/sheet.tsx:181-189 | keys other than Escape and Tab, and Tab with nothing focusable, do nothing |
| Sheet.TabWraps | components/ui/sheet.tsx:191-200 | Shift+Tab on the first element focuses the last, and Tab on the last focuses the first. The default is prevented in exactly those two cases |
| Sheet.Page.HandleKeyDown | components/ui/sheet.tsx:168-201 | the handler's effect applied to the page: focus, the default-prevented flag, the clicks made |
| Sheet.ContentSide | components/ui/sheet.tsx:118 | the side is the one given, otherwise the right-hand side |
| Sheet.SideClasses | components/ui/sheet.tsx:105-110 | each side's classes begin with the slide-out animation to that side |
| Sheet.SideClassesDistinct | components/ui/sheet.tsx:105-110 | the four sides have four different class strings |
| PaymentTransferForm.Validate | components/PaymentTransferForm.tsx:30-36 | each error is reported exactly when its rule fails. The note is never reported. No errors exactly when the e-mail is valid, the amount and the bank are non-empty, and the sharable id has at least 8 characters |
| PaymentTransferForm.NoteNeverValidated | components/PaymentTransferForm.tsx:32 | the note never affects validation |
| PaymentTransferForm.DefaultsRejected | components/PaymentTransferForm.tsx:91-97 | the untouched form reports the amount, the bank and the sharable id |
| PaymentTransferForm.TransferRecord | components/PaymentTransferForm.tsx:120-128 | the record has exactly seven fields: the note, amount and e-mail from the form, and the user and bank ids of the sender's bank and of the receiver's bank |
| PaymentTransferForm.Banks | components/PaymentTransferForm.tsx:104-110 | both banks exactly when the id decrypts and both lookups succeed and find a bank; the sender is the bank chosen in the form, the receiver the bank of the decrypted account |
| PaymentTransferForm.SubmitSpec | components/PaymentTransferForm.tsx:100-141 | a transfer is requested iff both banks are found, using the two funding sources and the amount. A record is stored iff the transfer returns something truthy. The form is reset iff the record is created |
| PaymentTransferForm.StoredRecordFields | components/PaymentTransferForm.tsx:120-130 | the stored record gets channel "online" and category "Transfer", with sender and receiver from the right banks |
| PaymentTransferForm.Form.constructor | components/PaymentTransferForm.tsx:87-98 | not loading, every field empty, nothing sent |
| PaymentTransferForm.Form.Submit | components/PaymentTransferForm.tsx:100-141 | the loading flag is down on every way out; transfers, records, the reset and the navigation home follow the submit sequence |
| PaymentTransferForm.Form.HandleSubmit | components/PaymentTransferForm.tsx:145 | invalid values change nothing; valid values run the submit sequence |
| TransactionsTable.BadgeStyleOf | components/TransactionsTable.tsx:15-20 | a category's own style if it has one, else the default style |
| TransactionsTable.DisplayedAmount | components/TransactionsTable.tsx:70 | a debit gets a minus before the formatted amount; every other type shows it unchanged |
| TransactionsTable.Rows | components/TransactionsTable.tsx:45-90 | one row per transaction, in order |
| TransactionsTable.RowOf | components/TransactionsTable.tsx:45-90 | a row's key, cleaned name, signed amount, status and channel; the background and the amount colour both follow the outgoing test; each badge takes its style from the table |
| TransactionsTable.OutgoingColouring | components/TransactionsTable.tsx:52-70 | the row background and the amount colour agree; a row is coloured outgoing exactly when its displayed amount starts with a minus |
| TransactionsTable.DebitOfNegativeShowsTwoMinuses | components/TransactionsTable.tsx:70 | a debit whose formatted amount is already negative shows "--" |
| TransactionsTable.RowsAppend | components/TransactionsTable.tsx:45 | the rows of a concatenation are the rows of its parts |
| RecentTransactions.CurrentAccountId | components/RecentTransactions.tsx:15 | the requested account if truthy; otherwise the first account's id; with no accounts, none |
| RecentTransactions.ViewAllHref | components/RecentTransactions.tsx:23 | the history link carries the open account's id, or the text "undefined" without one |
| RecentTransactions.TabValues | components/RecentTransactions.tsx:29-36 | one trigger per account in order, then "password" |
| RecentTransactions.AccountPanels | components/RecentTransactions.tsx:38-57 | one table per account, holding the transactions with that account's id; missing transactions count as none |
| RecentTransactions.PanelHoldsOwnTransactions | components/RecentTransactions.tsx:52-54 | a table shows only its account's transactions, and every transaction of that account; each transaction occurs in the table exactly as often as in the list when it is the account's, and never otherwise |
| RecentTransactions.PanelKeepsOrder | components/RecentTransactions.tsx:52-54 | the table of a list split in two is the table of the first part followed by that of the second, so the table keeps the list's order |
| RecentTransactions.PanelsDisjoint | components/RecentTransactions.tsx:52-54 | accounts with different ids never show the same transaction |
| RecentTransactions.NoTransactionsEmptyTables | components/RecentTransactions.tsx:10 | without transactions every table is empty |
| RecentTransactions.DefaultTabIsFirstTrigger | components/RecentTransactions.tsx:15-31 | with no requested account, the open tab is the first trigger |
| RecentTransactions.ContentValues | components/RecentTransactions.tsx:38-59 | the contents: each account's id in order, then "account" and "password" |
| RecentTransactions.AccountContentHasNoTrigger | components/RecentTransactions.tsx:29-59 | the "account" content has no trigger unless some account's id is "account" |
| RightSidebar.Stack | components/RightSidebar.tsx:49-66 | no stack without banks. Otherwise the reserved height is 60 per card plus 120. Card i sits 40·i down and 20·i left, with stacking order n−i |
| RightSidebar.StackingOrder | components/RightSidebar.tsx:65 | the stacking orders run from n down to 1: each card is drawn over every later card |
| RightSidebar.CardsStartInsideReservedHeight | components/RightSidebar.tsx:52-62 | every card's top edge lies inside the reserved height, with the extra 120 still below it |
| RightSidebar.CardsCascade | components/RightSidebar.tsx:55-62 | later cards sit strictly lower and further left |

## Left out

- The PDF rendering itself is out of scope: the headless browser, the byte buffer and the response body. The renderer is a parameter, and the PDF is opaque bytes.
- The document's style sheet and the template's whitespace are left out. The fixed head is abbreviated, and only the report's structure and text are kept.
- Dates are out of scope: `formatDate`, `toLocaleDateString`, the clock and the transaction-status helper are parameters. The transactions table's date cell, `formatDateTime(new Date(t.date)).dateTime` (components/TransactionsTable.tsx:78), is left out of TransactionsTable.RowOf.
- Amounts are integer cents. The model leaves out `Number()` conversion, floating-point rounding in `toFixed`, and a negative amount that rounds to "-0.00".
- Every call into the database, the bank aggregator, the payment service and `decryptId` is a parameter. A throw is a `Failure`, and a result that may be missing is an `Option`.
- `Promise.all` is modelled as an in-order map whose first failing call wins. Concurrency and timing are not modelled.
- The session lookup is out of scope: `getLoggedInUser` is an optional user.
- Address search is not modelled beyond its result: the debounce delay, the geolocation viewbox, the request URL and the map widget. The geocoder's answer is a parameter.
- The blur after a selection (a timer) is left out.
- AddressAutocomplete.Autocomplete.Select keeps the coordinates as the geocoder's strings, because `parseFloat` is floating point.
- The e-mail syntax check of the schema is the parameter `isEmail`. Lengths count characters, not UTF-16 code units.
- Case mapping covers ASCII letters only. Characters outside ASCII keep their case.
- Tailwind class merging (`cn`) and the styling class strings are left out. Exceptions are the row colours, the sheet sides and the card positions, which are modelled.
- The cards' scale and opacity are left out (floating point), as are the user name on the cards.
- The sheet's description-id effect, `autoFocus` and the DOM queries are left out. The focusable elements and the close button are inputs.
- React rendering is left out. A child's `children` prop counts as present when its list is non-empty.
- The loading flag while a submit is in flight is not modelled. A submit runs to completion, so only the final `isLoading == false` is stated.
- TransactionsPdf.FormatCategoryIdempotent: stated for present, non-empty categories only, because formatting the "N/A" marker again gives "N/a" (TransactionsPdf.FormatCategoryOfNotAvailable).
- TransactionActions.MergeOverCollection: the database is read as answering each query with its first page and the count of all matches. The page size of 25 is the database's default for a query without a limit, which the source does not set. Later pages are never fetched, so a bank with more than a page of transfers on either side gets an incomplete listing with a larger total.
- TransactionsTable.BadgeStyleOf: the style table is a map, so only its own entries are found. In the source it is a plain object, and a category that names an inherited object property ("constructor", "toString") finds a truthy function, skips the default, and leaves the badge's classes undefined. The aggregator's category names never hit this.
- Logging is left out: the `console.error` calls in components/PaymentTransferForm.tsx:137 and app/api/get-accounts/route.ts:52, the `console.log` calls in lib/actions/transaction.actions.ts:30 and :66, and the render-time `console.log` calls in components/TransactionsTable.tsx:47-48. None of them changes a result.
- `parseStringify` (lib/actions/transaction.actions.ts:28 and :64) is a JSON round-trip. The model treats it as the identity on documents, which are plain data with no `undefined` fields.
- AddressAutocomplete.Autocomplete.FetchAddresses: the class uses the corrected search, which also resets the highlight. The search as written is AddressAutocomplete.FetchSpec, and its consequence is shown by AddressAutocomplete.StaleHighlightThrows.

## Findings

| source | as written | input that shows it | evidently intended | confidence | as-written member | corrected member |
|---|---|---|---|---|---|---|
| components/StyledPopupMapAutocomplete.tsx:63 | new suggestions replace the list but keep the old highlight index, and Enter reads `results[activeIndex]` whenever the index is at least 0 | three suggestions; ArrowDown three times, so the highlight is 2; Enter selects and clears the list; type "main st"; one suggestion arrives; Enter reads `results[2]`, which is undefined, and `handleSelect` throws on `place.address` | a new list resets the highlight to -1, so the highlight always stays inside the list | not executed | AddressAutocomplete.StaleHighlightThrows | AddressAutocomplete.CorrectedNeverThrows |
