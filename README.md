# Expense tracker front end: a Dafny model of its view logic

This is a model of the deterministic logic inside a React expense-tracker
client. The client lists, adds, edits and deletes income and expense
transactions and categories through a REST back end. The model covers:

- the two list query builders. The dashboard builds `page`, `limit=5`, then
  optional `categoryId`/`from`/`to`. The income page builds `page`,
  `limit=10`, `type=income`, the optional filters, then a `sortBy`/`order`
  pair mapped from a sort name. Queries are ordered lists of key/value pairs,
  built step by step by a `URLSearchParams`-like class.
- the dashboard's CSV export of the loaded page: a fixed header, one
  unquoted, comma-joined row per transaction, and newline-joined lines.
- the state machines of the dashboard, the income page, the transaction form,
  the filter panel and the categories page. Each handler is a method on a
  class whose fields are the component's state. The method returns the
  ordered trace of what the handler does: the requests it sends, the toasts
  or alerts it shows, the callbacks it invokes and the file it downloads.

Every HTTP call is a parameter `Outcome<T>` (`Success(answer)` or
`Failure`). The host's `toLocaleDateString`, `String(number)` and
`Number(text)` are function-typed parameters.

One module per source file: `Dashboard`, `Income`, `TransactionForm`,
`ExpenseFilters` and `Categories`. Three shared modules support them:
`Common` (records, requests, effects), `Text` (`join`, a splitter, decimal
text) and `Query` (search parameters, `get`, the optional filter entries).

The transaction form has no inline category creation; categories are created
on the categories page.

## Model

| member | source | states |
|---|---|---|
| `Common.OrEmpty` | src/pages/Dashboard.jsx:33 | `v \|\| ""`: a truthy note is kept; a missing or empty note becomes "" |
| `Query.FilterParamsKeys` | src/pages/Dashboard.jsx:53-55 | the optional entries are exactly the truthy ones among categoryId, from and to, in that order |
| `Query.FilterParamsValues` | src/pages/Income.jsx:21-23 | `get` reads each of categoryId, from and to back unchanged when truthy, and nothing when falsy |
| `Dashboard.BuildParams` | src/pages/Dashboard.jsx:49-55 | the step-by-step appends produce exactly the dashboard query |
| `Dashboard.DashboardQueryPrefix` | src/pages/Dashboard.jsx:50-52 | the query starts with `page=<pageNumber>`, then `limit=5`; `get("page")` returns the requested page |
| `Dashboard.DashboardQueryKeys` | src/pages/Dashboard.jsx:51-55 | the key order is page, limit, then categoryId, from and to, each present only when its filter is truthy |
| `Dashboard.DashboardQueryFilterValues` | src/pages/Dashboard.jsx:53-55 | categoryId, from and to reach the server exactly when truthy, with unchanged values |
| `Dashboard.DashboardQueryIgnoresSort` | src/pages/Dashboard.jsx:49-55 | the query never holds `type`, `sortBy` or `order`, and a filter's sort does not change it |
| `Dashboard.CategoryCell` | src/pages/Dashboard.jsx:31 | the cell is the category's name when the category is present with a non-empty name, and "-" otherwise; it is never empty |
| `Dashboard.RowLines` | src/pages/Dashboard.jsx:28-37 | one line per transaction, in list order; line i is transaction i's five fields joined by "," |
| `Dashboard.CsvFirstLine` | src/pages/Dashboard.jsx:27-38 | the first line of any export is exactly `Date,Type,Category,Amount,Note` |
| `Dashboard.CsvLines` | src/pages/Dashboard.jsx:27-38 | when no field holds a newline, n transactions give n+1 lines: the header, then each transaction's row in list order |
| `Dashboard.RowFields` | src/pages/Dashboard.jsx:28-37 | when no field holds a comma, reading a row back at the commas recovers exactly [date, type, category or "-", amount, note or ""] |
| `Dashboard.RowColumnCount` | src/pages/Dashboard.jsx:36-37 | fields are not quoted, unlike section 2 of RFC 4180: a row reads back as 5 columns plus one per comma inside its fields |
| `Dashboard.CommaInNoteShiftsColumns` | src/pages/Dashboard.jsx:33-37 | a note "tea,snacks" on an otherwise comma-free row yields six columns |
| `Dashboard.DashboardView.constructor` | src/pages/Dashboard.jsx:12-19 | the initial state: empty list, page 1 of 1, no balance, totals 0, nothing being edited |
| `Dashboard.DashboardView.LoadExpenses` | src/pages/Dashboard.jsx:49-63 | sends exactly one GET with the dashboard query; success replaces the list, page and total pages with the answer; failure changes nothing |
| `Dashboard.DashboardView.LoadNetBalance` | src/pages/Dashboard.jsx:65-70 | sends one GET to the balance endpoint; success shows the three totals; failure changes nothing |
| `Dashboard.DashboardView.Mount` | src/pages/Dashboard.jsx:85-88 | on mount, loads page 1 with no filters, then the balance |
| `Dashboard.DashboardView.ExportCsv` | src/pages/Dashboard.jsx:21-47 | an empty list only raises the "No transactions to export" toast and downloads nothing; otherwise it downloads `transactions.csv` holding the CSV of the loaded page; no state changes |
| `Dashboard.DashboardView.DeleteExpense` | src/pages/Dashboard.jsx:72-83 | a declined confirmation sends nothing; a failed DELETE shows an error and sends only the DELETE; a successful one sends the DELETE, then reloads the current page without filters and then the balance, once each |
| `Dashboard.DeleteTraceRequests` | src/pages/Dashboard.jsx:72-83 | the requests of a confirmed delete's trace: the DELETE alone after a failure; after a success, the DELETE, one page reload and one balance reload, in that order |
| `Dashboard.DashboardView.Prev` | src/pages/Dashboard.jsx:180 | sends nothing exactly when page = 1; otherwise loads page−1 with an empty filter object |
| `Dashboard.DashboardView.Next` | src/pages/Dashboard.jsx:186 | sends nothing exactly when page = totalPages; otherwise loads page+1 with an empty filter object |
| `Dashboard.DashboardView.EditTransaction` | src/pages/Dashboard.jsx:166 | the Edit button hands that transaction to the form |
| `Dashboard.DashboardView.ClearEdit` | src/pages/Dashboard.jsx:136 | `clearEdit` leaves edit mode |
| `Dashboard.DashboardView.FormSucceeded` | src/pages/Dashboard.jsx:137-141 | `onSuccess` reloads page 1 and the balance, and leaves edit mode |
| `Income.BuildParams` | src/pages/Income.jsx:15-40 | the step-by-step appends, including four independent sort checks, produce exactly the income query |
| `Income.SortMapping` | src/pages/Income.jsx:25-40 | latest → (createdAt, desc), oldest → (createdAt, asc), amountDesc → (amount, desc), amountAsc → (amount, asc); any other sort, or none, selects no pair |
| `Income.SortPairInjective` | src/pages/Income.jsx:25-40 | different recognised sort names select different pairs |
| `Income.IncomeQueryPrefix` | src/pages/Income.jsx:16-19 | the query starts with `page`, then `limit=10`, then `type=income`; `get` returns the requested page and "income" |
| `Income.IncomeQueryKeys` | src/pages/Income.jsx:16-40 | after `type` come categoryId, from and to (each only when truthy, in that order), then `sortBy` and `order` only for a recognised sort |
| `Income.IncomeQuerySort` | src/pages/Income.jsx:25-40 | at most one `sortBy` and one `order`; a `sortBy` is present exactly when the sort is one of the four names, and the pair carries the mapped values |
| `Income.IncomeQueryFilterValues` | src/pages/Income.jsx:21-23 | categoryId, from and to reach the server exactly when truthy, with unchanged values |
| `Income.IncomeView.constructor` | src/pages/Income.jsx:9-13 | the initial state: empty list, page 1 of 1, filters hidden |
| `Income.IncomeView.LoadIncome` | src/pages/Income.jsx:15-47 | sends exactly one GET with the income query; success replaces the list and pagination; failure changes nothing |
| `Income.IncomeView.Mount` | src/pages/Income.jsx:49-51 | on mount, loads page 1 with no filters |
| `Income.IncomeView.ToggleFilters` | src/pages/Income.jsx:59 | the button flips whether the filter panel is shown |
| `Income.IncomeView.OnFilter` | src/pages/Income.jsx:66 | applying filters always loads page 1 with those filters, whatever page argument the panel adds |
| `Income.IncomeView.Prev` | src/pages/Income.jsx:92 | sends nothing exactly when page = 1; otherwise loads page−1 with an empty filter object |
| `Income.IncomeView.Next` | src/pages/Income.jsx:98 | sends nothing exactly when page = totalPages; otherwise loads page+1 with an empty filter object |
| `Income.PageTurnDropsFilters` | src/pages/Income.jsx:92-98 | a page turn sends only page, limit and type: the applied filters and sort are dropped |
| `ExpenseFilters.FilterPanel.constructor` | src/components/ExpenseFilters.jsx:5-9 | the initial filter state: categoryId "", from "", to "", sort "latest" |
| `ExpenseFilters.FilterPanel.Mount` | src/components/ExpenseFilters.jsx:11-15 | on mount, one GET of all categories; success fills the selector |
| `ExpenseFilters.FilterPanel.ChooseSort` | src/components/ExpenseFilters.jsx:96-105 | the sort field only ever takes one of the four option values |
| `ExpenseFilters.FilterPanel.Apply` | src/components/ExpenseFilters.jsx:17-19 | on a panel whose sort is a selector option, emits exactly the current {categoryId, from, to, sort}, with no page argument, and the page's query then holds exactly one `sortBy`; no state changes |
| `ExpenseFilters.FilterPanel.Clear` | src/components/ExpenseFilters.jsx:20-26 | resets all four fields to their initial values and emits an empty filter object with page 1 |
| `ExpenseFilters.AppliedPanelQuery` | src/components/ExpenseFilters.jsx:17-19 | applying a panel makes the income page send exactly one `sortBy`, and send each of categoryId, from and to exactly when that field is non-empty |
| `ExpenseFilters.ClearedPanelQuery` | src/components/ExpenseFilters.jsx:25 | after Clear, the income page sends only page=1, limit and type: no sort, although the panel shows "latest" again |
| `Categories.CategoriesView.constructor` | src/pages/Categories.jsx:7-11 | the initial state: empty name, empty list, no category in edit mode, empty editor |
| `Categories.CategoriesView.LoadCategories` | src/pages/Categories.jsx:13-16 | one GET of the categories; success replaces the list; failure changes nothing |
| `Categories.CategoriesView.CreateCategory` | src/pages/Categories.jsx:18-34 | an empty name sends nothing and changes nothing; a failed POST keeps the name; a successful one clears the name and reloads the list |
| `Categories.CategoriesView.StartEdit` | src/pages/Categories.jsx:124-128 | edit mode holds the chosen category, and the editor holds its name |
| `Categories.CategoriesView.UpdateCategory` | src/pages/Categories.jsx:36-55 | an empty editor sends nothing and stays in edit mode; a failed PUT keeps both edit fields; a successful one leaves edit mode (none, "") and reloads the list |
| `Categories.CategoriesView.DeleteCategory` | src/pages/Categories.jsx:57-68 | sends nothing unless the confirmation is accepted; success reloads the list; failure only reports |
| `TransactionForm.PrefillDate` | src/components/TransactionForm.jsx:33 | the prefilled date is the prefix of the transaction's date of length min(10, length) |
| `TransactionForm.PrefillCategoryId` | src/components/TransactionForm.jsx:31 | a missing category prefills "", a present one its id |
| `TransactionForm.Form.constructor` | src/components/TransactionForm.jsx:9-14 | the initial fields: amount "", note "", categoryId "", type "expense", date "", no categories |
| `TransactionForm.Form.TypeChanged` | src/components/TransactionForm.jsx:17-25 | on mount and after each change of type: one GET of that type's categories, and the chosen category is cleared |
| `TransactionForm.Form.ChooseType` | src/components/TransactionForm.jsx:111 | choosing a different type clears categoryId and reloads the categories for it; choosing the same type does nothing |
| `TransactionForm.Form.StartEditingAsWritten` | src/components/TransactionForm.jsx:23-35 | as written: the fields show the edited transaction, but when its type differs from the form's, the category it set is cleared again |
| `TransactionForm.Form.StartEditing` | src/components/TransactionForm.jsx:27-35 | as intended: amount, note or "", category id or "", type and the 10-character date of the edited transaction, whatever the previous type |
| `TransactionForm.Form.Submit` | src/components/TransactionForm.jsx:37-77 | a missing amount, category or type sends nothing and changes nothing; failure raises an alert, changes no field and calls nothing; success resets every field, then calls clearEdit and onSuccess |
| `TransactionForm.SaveRequestShape` | src/components/TransactionForm.jsx:46-61 | PUT to `/transactions/<id>` exactly in edit mode, otherwise POST to `/transactions`; the body is {Number(amount), categoryId, type, note, date}, with the last four unchanged |
| `TransactionForm.LoadedZeroIsMissing` | src/components/TransactionForm.jsx:40 | a prefilled amount of 0 fails the required-amount check, while a typed "0" passes |
| `TransactionForm.EditIncomeAsWritten` | src/components/TransactionForm.jsx:23-35 | editing an income transaction with category c1 from a blank form leaves categoryId "" |
| `TransactionForm.EditIncomeIntended` | src/components/TransactionForm.jsx:27-35 | the same edit with the intended prefill leaves categoryId "c1" |
| `Text.SplitJoin` | src/pages/Dashboard.jsx:36-38 | splitting at a separator undoes joining at it when no part holds the separator (the converse is `Text.SplitJoinOnlyIf`) |
| `Text.SplitJoinOnlyIf` | src/pages/Dashboard.jsx:36-38 | conversely, when splitting undoes joining, no part held the separator |
| `Text.JoinedPieceCount` | src/pages/Dashboard.jsx:36-37 | a joined line reads back as one piece per part, plus one per separator inside a part |

## Left out

- The HTTP client and the back end. Each call's answer is a parameter. Answers are applied in the order the requests were sent. Interleaved callbacks, and a stale answer overwriting a newer one, are not modelled.
- Percent-encoding by `URLSearchParams`. Queries are lists of unencoded pairs. The raw `type` interpolated into `/categories?type=<t>` is modelled as the pair `("type", t)`.
- The Blob, object URL and anchor click of the CSV download. These are the effect `Download("transactions.csv", text)`.
- `toLocaleDateString`, `String(number)` and `Number(text)`. They are host functions passed as parameters. `Number` of non-numeric text (NaN) is not modelled: `parseNumber` returns a real.
- A transaction's `date` and `type` are always strings. A missing date (`date?.slice`) and a missing type (joined as "") are not modelled.
- The `onChange` handlers that copy an input's text into a field. They are JSX markup, and the fields are public. The type and sort selectors are modelled because they have effects or a value range.
- React scheduling in general. A handler's setters are applied together, then the effects whose dependencies changed run.
- The form's `editingTransaction` prop after a save. The parent changes it through `clearEdit` and `onSuccess`; `Submit` leaves it alone.
- Load calls without a `catch` (`loadExpenses`, `loadIncome`, `loadNetBalance`, `loadCategories`). On failure they change nothing and show nothing. The unhandled rejection is not modelled.
- `e.preventDefault()`, `console.error`, the balance card's colour and the unmounting of the hidden filter panel.
- The login, register and logout pages, the layout, navigation bar, button and chart components, and the styling configuration. They hold HTTP calls, storage, routing and presentation only.

## Findings

| source | as written | input that shows it | evidently intended | confidence | as-written member | corrected member |
|---|---|---|---|---|---|---|
| src/components/TransactionForm.jsx:23-35 | the prefill effect sets `categoryId` and `type`. If `type` changed, the effect keyed on `type` runs after the re-render and sets `categoryId` back to "" | form in its initial type "expense"; edit `{type: "income", categoryId: {_id: "c1"}}` | the form shows category c1, as line 31 sets it | high, not executed | `TransactionForm.EditIncomeAsWritten` | `TransactionForm.Form.StartEditing` |
