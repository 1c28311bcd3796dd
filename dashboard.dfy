/** The dashboard page: the list query it sends (five transactions a page),
    the CSV export of the loaded page, deletion behind a confirmation, the
    balance cards and the Prev/Next pagination. */
module Dashboard {
  import opened Common
  import opened Text
  import opened Query

  /** The dashboard's fixed page size (`limit`). */
  const PageSize := 5

  // ---------------------------------------------------------------------
  // The list query

  /** The parameters `loadExpenses(filters, pageNumber)` sends: `page`, `limit`,
      then the truthy filters. `type` and the sort are never sent. */
  function DashboardQuery(f: Filters, pageNumber: int): seq<Param>
  {
    [("page", IntToString(pageNumber)), ("limit", IntToString(PageSize))] + FilterParams(f)
  }

  function ListRequest(f: Filters, pageNumber: int): Request
  {
    Get("/transactions", DashboardQuery(f, pageNumber))
  }

  const BalanceRequest: Request := Get("/analytics/net-balance", [])

  /** Builds the list parameters one `append` at a time, as `loadExpenses` does. */
  method BuildParams(filters: Filters, pageNumber: int) returns (params: seq<Param>)
    ensures params == DashboardQuery(filters, pageNumber)
  {
    var p := new SearchParams();
    p.Append("page", IntToString(pageNumber));
    p.Append("limit", IntToString(PageSize));
    if Truthy(filters.categoryId) {
      p.Append("categoryId", filters.categoryId.value);
    }
    if Truthy(filters.from) {
      p.Append("from", filters.from.value);
    }
    if Truthy(filters.to) {
      p.Append("to", filters.to.value);
    }
    params := p.entries;
  }

  /** The query always opens with `page=<pageNumber>` and then `limit=5`, and
      the server reads back the page it was asked for. */
  lemma DashboardQueryPrefix(f: Filters, pageNumber: int)
    ensures |DashboardQuery(f, pageNumber)| >= 2
    ensures DashboardQuery(f, pageNumber)[0] == ("page", IntToString(pageNumber))
    ensures DashboardQuery(f, pageNumber)[1] == ("limit", "5")
    ensures Lookup(DashboardQuery(f, pageNumber), "page") == Some(IntToString(pageNumber))
  {
    assert IntToString(PageSize) == "5";
  }

  /** The keys are `page`, `limit`, then categoryId, from and to in that fixed
      order, each only when its filter is truthy. */
  lemma DashboardQueryKeys(f: Filters, pageNumber: int)
    ensures Keys(DashboardQuery(f, pageNumber)) ==
      ["page", "limit"]
      + (if Truthy(f.categoryId) then ["categoryId"] else [])
      + (if Truthy(f.from) then ["from"] else [])
      + (if Truthy(f.to) then ["to"] else [])
  {
    var head := [("page", IntToString(pageNumber)), ("limit", IntToString(PageSize))];
    var rest := FilterParams(f);
    assert DashboardQuery(f, pageNumber) == head + rest;
    assert Keys(head) == ["page", "limit"];
    KeysAppend(head, rest);
    FilterParamsKeys(f);
  }

  /** The optional filters reach the server exactly when truthy, with their
      values unchanged. */
  lemma DashboardQueryFilterValues(f: Filters, pageNumber: int)
    ensures Lookup(DashboardQuery(f, pageNumber), "categoryId") == (if Truthy(f.categoryId) then f.categoryId else None)
    ensures Lookup(DashboardQuery(f, pageNumber), "from") == (if Truthy(f.from) then f.from else None)
    ensures Lookup(DashboardQuery(f, pageNumber), "to") == (if Truthy(f.to) then f.to else None)
  {
    var head := [("page", IntToString(pageNumber)), ("limit", IntToString(PageSize))];
    LookupAppend(head, FilterParams(f), "categoryId");
    LookupAppend(head, FilterParams(f), "from");
    LookupAppend(head, FilterParams(f), "to");
    FilterParamsValues(f);
  }

  /** The dashboard never sends `type`, `sortBy` or `order`: a filter's sort
      has no effect on its query. */
  lemma DashboardQueryIgnoresSort(f: Filters, pageNumber: int, sort: Option<string>)
    ensures DashboardQuery(f.(sort := sort), pageNumber) == DashboardQuery(f, pageNumber)
    ensures "type" !in Keys(DashboardQuery(f, pageNumber))
    ensures "sortBy" !in Keys(DashboardQuery(f, pageNumber))
    ensures "order" !in Keys(DashboardQuery(f, pageNumber))
  {
    DashboardQueryKeys(f, pageNumber);
  }

  // ---------------------------------------------------------------------
  // CSV export

  const CsvHeader: seq<string> := ["Date", "Type", "Category", "Amount", "Note"]

  /** `t.categoryId?.name || "-"`. */
  function CategoryCell(t: Transaction): (cell: string)
    ensures cell != ""
    ensures t.category.Some? && t.category.value.name != "" ==> cell == t.category.value.name
    ensures !(t.category.Some? && t.category.value.name != "") ==> cell == "-"
  {
    if t.category.Some? && t.category.value.name != "" then t.category.value.name else "-"
  }

  /** The five fields of a transaction's row. `formatDate` is the host's
      `new Date(d).toLocaleDateString()` and `showNumber` its `String(n)`. */
  function Row(t: Transaction, formatDate: string -> string, showNumber: real -> string): (r: seq<string>)
  {
    [formatDate(t.date), t.txType, CategoryCell(t), showNumber(t.amount), OrEmpty(t.note)]
  }

  /** One comma-joined line per transaction, in list order. */
  function RowLines(ts: seq<Transaction>, formatDate: string -> string, showNumber: real -> string): (lines: seq<string>)
    ensures |lines| == |ts|
    ensures forall i :: 0 <= i < |ts| ==> lines[i] == Join(Row(ts[i], formatDate, showNumber), ',')
  {
    if ts == [] then []
    else [Join(Row(ts[0], formatDate, showNumber), ',')] + RowLines(ts[1..], formatDate, showNumber)
  }

  /** The exported text: the header line, then the row lines, joined by
      newlines, with no quoting of any field. */
  function Csv(ts: seq<Transaction>, formatDate: string -> string, showNumber: real -> string): string
  {
    Join([Join(CsvHeader, ',')] + RowLines(ts, formatDate, showNumber), '\n')
  }

  /** No field of a transaction's row contains `c`. */
  predicate RowAvoids(t: Transaction, formatDate: string -> string, showNumber: real -> string, c: char)
  {
    forall i :: 0 <= i < 5 ==> c !in Row(t, formatDate, showNumber)[i]
  }

  /** The header line. */
  lemma HeaderLine()
    ensures Join(CsvHeader, ',') == "Date,Type,Category,Amount,Note"
  {
  }

  /** No row line holds a newline when no field of its transaction does. */
  lemma RowLinesAvoid(ts: seq<Transaction>, formatDate: string -> string, showNumber: real -> string)
    requires forall k :: 0 <= k < |ts| ==> RowAvoids(ts[k], formatDate, showNumber, '\n')
    ensures forall i :: 0 <= i < |ts| ==> '\n' !in RowLines(ts, formatDate, showNumber)[i]
  {
    forall i | 0 <= i < |ts|
      ensures '\n' !in RowLines(ts, formatDate, showNumber)[i]
    {
      assert RowAvoids(ts[i], formatDate, showNumber, '\n');
      JoinAvoids(Row(ts[i], formatDate, showNumber), ',', '\n');
    }
  }

  /** The first line of the export is always exactly the header. */
  lemma CsvFirstLine(ts: seq<Transaction>, formatDate: string -> string, showNumber: real -> string)
    ensures Split(Csv(ts, formatDate, showNumber), '\n')[0] == "Date,Type,Category,Amount,Note"
  {
    var header := Join(CsvHeader, ',');
    HeaderLine();
    var rows := RowLines(ts, formatDate, showNumber);
    if ts == [] {
      SplitWithoutSeparator(header, '\n');
    } else {
      assert ([header] + rows)[1..] == rows;
      SplitAtFirstSeparator(header, Join(rows, '\n'), '\n');
    }
  }

  /** When no field holds a newline, the export has one line per transaction
      after the header, in list order, and each line is that transaction's
      comma-joined row. */
  lemma CsvLines(ts: seq<Transaction>, formatDate: string -> string, showNumber: real -> string)
    requires forall k :: 0 <= k < |ts| ==> RowAvoids(ts[k], formatDate, showNumber, '\n')
    ensures |Split(Csv(ts, formatDate, showNumber), '\n')| == |ts| + 1
    ensures Split(Csv(ts, formatDate, showNumber), '\n') ==
      ["Date,Type,Category,Amount,Note"] + RowLines(ts, formatDate, showNumber)
  {
    var header := Join(CsvHeader, ',');
    HeaderLine();
    var rows := RowLines(ts, formatDate, showNumber);
    var lines := [header] + rows;
    RowLinesAvoid(ts, formatDate, showNumber);
    forall i | 0 <= i < |lines|
      ensures '\n' !in lines[i]
    {
      if i > 0 {
        assert lines[i] == rows[i - 1];
      }
    }
    SplitJoin(lines, '\n');
  }

  /** Reading a row back at the commas recovers its five fields when none of
      them holds a comma. */
  lemma RowFields(t: Transaction, formatDate: string -> string, showNumber: real -> string)
    requires RowAvoids(t, formatDate, showNumber, ',')
    ensures Split(Join(Row(t, formatDate, showNumber), ','), ',') == Row(t, formatDate, showNumber)
  {
    SplitJoin(Row(t, formatDate, showNumber), ',');
  }

  /** No field is quoted (unlike section 2 of RFC 4180): every comma inside a
      field adds a column when the row is read back. */
  lemma RowColumnCount(t: Transaction, formatDate: string -> string, showNumber: real -> string)
    ensures |Split(Join(Row(t, formatDate, showNumber), ','), ',')| ==
      5 + TotalOccurrences(Row(t, formatDate, showNumber), ',')
  {
    JoinedPieceCount(Row(t, formatDate, showNumber), ',');
  }

  /** A note such as "tea,snacks" on an otherwise comma-free row turns it
      into six columns. */
  lemma CommaInNoteShiftsColumns(t: Transaction, formatDate: string -> string, showNumber: real -> string)
    requires t.note == Some("tea,snacks")
    requires ',' !in formatDate(t.date) && ',' !in t.txType
    requires ',' !in CategoryCell(t) && ',' !in showNumber(t.amount)
    ensures |Split(Join(Row(t, formatDate, showNumber), ','), ',')| == 6
  {
    var row := Row(t, formatDate, showNumber);
    RowColumnCount(t, formatDate, showNumber);
    NoteOccurrences();
    SingleCommaRow(row[0], row[1], row[2], row[3], row[4]);
    assert row == [row[0], row[1], row[2], row[3], row[4]];
  }

  lemma SingleCommaRow(a: string, b: string, c: string, d: string, e: string)
    requires ',' !in a && ',' !in b && ',' !in c && ',' !in d && Occurrences(e, ',') == 1
    ensures TotalOccurrences([a, b, c, d, e], ',') == 1
  {
    var row := [a, b, c, d, e];
    assert row[4..] == [e];
    assert TotalOccurrences(row[3..], ',') == 1;
    assert TotalOccurrences(row[1..], ',') == 1;
  }

  lemma NoteOccurrences()
    ensures Occurrences("tea,snacks", ',') == 1
  {
    assert "tea,snacks" == "tea" + "," + "snacks";
    assert ',' !in "tea" && ',' !in "snacks";
    assert Occurrences(",", ',') == 1 by { assert ","[1..] == ""; }
    OccurrencesAppend("tea" + ",", "snacks", ',');
    OccurrencesAppend("tea", ",", ',');
  }

  /** The requests of the two traces a confirmed delete can produce: the
      DELETE alone after a failure; after a success, the DELETE, one list
      reload and one balance reload. */
  lemma DeleteTraceRequests(id: string, p: int)
    ensures Requests([Send(Delete("/transactions/" + id)), Show(ToastError("Failed to delete transaction"))])
      == [Delete("/transactions/" + id)]
    ensures Requests([Send(Delete("/transactions/" + id)), Show(ToastSuccess("Transaction deleted")),
                      Send(ListRequest(NoFilters, p)), Send(BalanceRequest)])
      == [Delete("/transactions/" + id), ListRequest(NoFilters, p), BalanceRequest]
  {
    var d, l, b := Send(Delete("/transactions/" + id)), Send(ListRequest(NoFilters, p)), Send(BalanceRequest);
    var e, s := Show(ToastError("Failed to delete transaction")), Show(ToastSuccess("Transaction deleted"));
    assert Requests([b]) == [b.request] by { assert [b][1..] == []; }
    assert Requests([l, b]) == [l.request] + Requests([b]) by { assert [l, b][1..] == [b]; }
    assert Requests([s, l, b]) == Requests([l, b]) by { assert [s, l, b][1..] == [l, b]; }
    assert Requests([d, s, l, b]) == [d.request] + Requests([s, l, b]) by { assert [d, s, l, b][1..] == [s, l, b]; }
    assert Requests([e]) == [] by { assert [e][1..] == []; }
    assert Requests([d, e]) == [d.request] + Requests([e]) by { assert [d, e][1..] == [e]; }
  }

  // ---------------------------------------------------------------------
  // The page's state and its handlers

  class DashboardView {
    var transactions: seq<Transaction>
    var page: int
    var totalPages: int
    var netBalance: Option<real>
    var incomeTotal: real
    var expenseTotal: real
    var editingTransaction: Option<Transaction>

    constructor ()
      ensures transactions == [] && page == 1 && totalPages == 1
      ensures netBalance == None && incomeTotal == 0.0 && expenseTotal == 0.0
      ensures editingTransaction == None
    {
      transactions, page, totalPages := [], 1, 1;
      netBalance, incomeTotal, expenseTotal := None, 0.0, 0.0;
      editingTransaction := None;
    }

    /** The list shows exactly the page the server answered with. */
    predicate Shows(r: PageResult)
      reads this
    {
      transactions == r.items && page == r.page && totalPages == r.totalPages
    }

    /** The three cards show exactly the server's totals. */
    predicate ShowsBalance(b: Balance)
      reads this
    {
      incomeTotal == b.income && expenseTotal == b.expense && netBalance == Some(b.netBalance)
    }

    /** `loadExpenses(filters, pageNumber)`: one GET; a successful answer
        replaces the list and the pagination, a failed one changes nothing. */
    method LoadExpenses(filters: Filters, pageNumber: int, reply: Outcome<PageResult>) returns (trace: seq<Effect>)
      modifies this`transactions, this`page, this`totalPages
      ensures trace == [Send(ListRequest(filters, pageNumber))]
      ensures reply.Success? ==> Shows(reply.value)
      ensures reply.Failure? ==> unchanged(this)
    {
      var params := BuildParams(filters, pageNumber);
      trace := [Send(Get("/transactions", params))];
      if reply.Success? {
        transactions := reply.value.items;
        page := reply.value.page;
        totalPages := reply.value.totalPages;
      }
    }

    /** `loadNetBalance()`: one GET; a successful answer sets the three
        totals, a failed one changes nothing. */
    method LoadNetBalance(reply: Outcome<Balance>) returns (trace: seq<Effect>)
      modifies this`incomeTotal, this`expenseTotal, this`netBalance
      ensures trace == [Send(BalanceRequest)]
      ensures reply.Success? ==> ShowsBalance(reply.value)
      ensures reply.Failure? ==> unchanged(this)
    {
      trace := [Send(BalanceRequest)];
      if reply.Success? {
        incomeTotal := reply.value.income;
        expenseTotal := reply.value.expense;
        netBalance := Some(reply.value.netBalance);
      }
    }

    /** The mount effect: the first page with no filters, then the balance. */
    method Mount(listReply: Outcome<PageResult>, balanceReply: Outcome<Balance>) returns (trace: seq<Effect>)
      modifies this`transactions, this`page, this`totalPages, this`incomeTotal, this`expenseTotal, this`netBalance
      ensures trace == [Send(ListRequest(NoFilters, 1)), Send(BalanceRequest)]
      ensures listReply.Success? ==> Shows(listReply.value)
      ensures listReply.Failure? ==> unchanged(this`transactions, this`page, this`totalPages)
      ensures balanceReply.Success? ==> ShowsBalance(balanceReply.value)
      ensures balanceReply.Failure? ==> unchanged(this`incomeTotal, this`expenseTotal, this`netBalance)
    {
      var t1 := LoadExpenses(NoFilters, 1, listReply);
      var t2 := LoadNetBalance(balanceReply);
      trace := t1 + t2;
    }

    /** `exportCSV()`: an empty list only raises an error toast; otherwise the
        loaded page is offered as `transactions.csv`. Nothing changes. */
    method ExportCsv(formatDate: string -> string, showNumber: real -> string) returns (trace: seq<Effect>)
      ensures transactions == [] ==> trace == [Show(ToastError("No transactions to export"))]
      ensures transactions != [] ==> trace == [Download("transactions.csv", Csv(transactions, formatDate, showNumber))]
    {
      if |transactions| == 0 {
        trace := [Show(ToastError("No transactions to export"))];
        return;
      }
      var rows := RowLines(transactions, formatDate, showNumber);
      var csv := Join([Join(CsvHeader, ',')] + rows, '\n');
      trace := [Download("transactions.csv", csv)];
    }

    /** `deleteExpense(id)`: nothing is sent unless the user confirms; a failed
        DELETE only shows an error; a successful one reloads the current page
        (without filters) and then the balance. */
    method DeleteExpense(id: string, confirmed: bool, deleteReply: Outcome<()>,
                         listReply: Outcome<PageResult>, balanceReply: Outcome<Balance>)
      returns (trace: seq<Effect>)
      modifies this`transactions, this`page, this`totalPages, this`incomeTotal, this`expenseTotal, this`netBalance
      ensures !confirmed ==> trace == [] && unchanged(this)
      ensures confirmed && deleteReply.Failure? ==>
        trace == [Send(Delete("/transactions/" + id)), Show(ToastError("Failed to delete transaction"))]
        && unchanged(this)
      ensures confirmed && deleteReply.Success? ==>
        trace == [Send(Delete("/transactions/" + id)), Show(ToastSuccess("Transaction deleted")),
                  Send(ListRequest(NoFilters, old(page))), Send(BalanceRequest)]
      ensures Requests(trace) ==
        if !confirmed then []
        else if deleteReply.Failure? then [Delete("/transactions/" + id)]
        else [Delete("/transactions/" + id), ListRequest(NoFilters, old(page)), BalanceRequest]
      ensures confirmed && deleteReply.Success? && listReply.Success? ==> Shows(listReply.value)
      ensures confirmed && deleteReply.Success? && listReply.Failure? ==>
        unchanged(this`transactions, this`page, this`totalPages)
      ensures confirmed && deleteReply.Success? && balanceReply.Success? ==> ShowsBalance(balanceReply.value)
      ensures confirmed && deleteReply.Success? && balanceReply.Failure? ==>
        unchanged(this`incomeTotal, this`expenseTotal, this`netBalance)
    {
      if !confirmed {
        trace := [];
        return;
      }
      DeleteTraceRequests(id, page);
      trace := [Send(Delete("/transactions/" + id))];
      if deleteReply.Failure? {
        trace := trace + [Show(ToastError("Failed to delete transaction"))];
        return;
      }
      trace := trace + [Show(ToastSuccess("Transaction deleted"))];
      var t1 := LoadExpenses(NoFilters, page, listReply);
      var t2 := LoadNetBalance(balanceReply);
      trace := trace + t1 + t2;
    }

    /** The Prev button: disabled exactly on page 1; otherwise it loads the
        previous page without filters. */
    method Prev(reply: Outcome<PageResult>) returns (trace: seq<Effect>)
      modifies this`transactions, this`page, this`totalPages
      ensures trace == [] <==> old(page) == 1
      ensures old(page) == 1 ==> unchanged(this)
      ensures old(page) != 1 ==> trace == [Send(ListRequest(NoFilters, old(page) - 1))]
      ensures old(page) != 1 && reply.Success? ==> Shows(reply.value)
      ensures reply.Failure? ==> unchanged(this)
    {
      if page == 1 {
        trace := [];
      } else {
        trace := LoadExpenses(NoFilters, page - 1, reply);
      }
    }

    /** The Next button: disabled exactly on the last page; otherwise it loads
        the next page without filters. */
    method Next(reply: Outcome<PageResult>) returns (trace: seq<Effect>)
      modifies this`transactions, this`page, this`totalPages
      ensures trace == [] <==> old(page) == old(totalPages)
      ensures old(page) == old(totalPages) ==> unchanged(this)
      ensures old(page) != old(totalPages) ==> trace == [Send(ListRequest(NoFilters, old(page) + 1))]
      ensures old(page) != old(totalPages) && reply.Success? ==> Shows(reply.value)
      ensures reply.Failure? ==> unchanged(this)
    {
      if page == totalPages {
        trace := [];
      } else {
        trace := LoadExpenses(NoFilters, page + 1, reply);
      }
    }

    /** The Edit button of a row hands that transaction to the form. */
    method EditTransaction(t: Transaction)
      modifies this`editingTransaction
      ensures editingTransaction == Some(t)
    {
      editingTransaction := Some(t);
    }

    /** The form's `clearEdit` callback. */
    method ClearEdit()
      modifies this`editingTransaction
      ensures editingTransaction == None
    {
      editingTransaction := None;
    }

    /** The form's `onSuccess` callback: reload page 1 without filters and the
        balance, and leave edit mode. */
    method FormSucceeded(listReply: Outcome<PageResult>, balanceReply: Outcome<Balance>) returns (trace: seq<Effect>)
      modifies this
      ensures trace == [Send(ListRequest(NoFilters, 1)), Send(BalanceRequest)]
      ensures editingTransaction == None
      ensures listReply.Success? ==> Shows(listReply.value)
      ensures listReply.Failure? ==> transactions == old(transactions) && page == old(page) && totalPages == old(totalPages)
      ensures balanceReply.Success? ==> ShowsBalance(balanceReply.value)
      ensures balanceReply.Failure? ==>
        incomeTotal == old(incomeTotal) && expenseTotal == old(expenseTotal) && netBalance == old(netBalance)
    {
      var t1 := LoadExpenses(NoFilters, 1, listReply);
      var t2 := LoadNetBalance(balanceReply);
      editingTransaction := None;
      trace := t1 + t2;
    }
  }
}
