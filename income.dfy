/** The income page: its list query (ten income transactions a page, with
    the sort mapped to a `sortBy`/`order` pair), the filter panel's callback
    and the Prev/Next pagination. */
module Income {
  import opened Common
  import opened Text
  import opened Query

  /** The income page's fixed page size (`limit`). */
  const PageSize := 10

  /** The `sortBy`/`order` pair a sort name selects; any other value (or a
      missing sort) selects none. */
  function SortPair(sort: Option<string>): (pair: Option<(string, string)>)
  {
    if sort == Some("latest") then Some(("createdAt", "desc"))
    else if sort == Some("oldest") then Some(("createdAt", "asc"))
    else if sort == Some("amountDesc") then Some(("amount", "desc"))
    else if sort == Some("amountAsc") then Some(("amount", "asc"))
    else None
  }

  /** The sort names the page recognises. */
  const SortNames: set<string> := {"latest", "oldest", "amountDesc", "amountAsc"}

  function SortParams(sort: Option<string>): (q: seq<Param>)
  {
    match SortPair(sort)
    case Some(pair) => [("sortBy", pair.0), ("order", pair.1)]
    case None => []
  }

  /** The three entries every income query opens with. */
  function Head(pageNumber: int): seq<Param>
  {
    [("page", IntToString(pageNumber)), ("limit", IntToString(PageSize)), ("type", "income")]
  }

  /** The parameters `loadIncome(filters, pageNumber)` sends. */
  function IncomeQuery(f: Filters, pageNumber: int): seq<Param>
  {
    Head(pageNumber) + FilterParams(f) + SortParams(f.sort)
  }

  function ListRequest(f: Filters, pageNumber: int): Request
  {
    Get("/transactions", IncomeQuery(f, pageNumber))
  }

  /** Builds the parameters one `append` at a time, as `loadIncome` does. */
  method BuildParams(filters: Filters, pageNumber: int) returns (params: seq<Param>)
    ensures params == IncomeQuery(filters, pageNumber)
  {
    var p := new SearchParams();
    p.Append("page", IntToString(pageNumber));
    p.Append("limit", IntToString(PageSize));
    p.Append("type", "income");

    if Truthy(filters.categoryId) {
      p.Append("categoryId", filters.categoryId.value);
    }
    if Truthy(filters.from) {
      p.Append("from", filters.from.value);
    }
    if Truthy(filters.to) {
      p.Append("to", filters.to.value);
    }
    AppendSort(p, filters.sort);
    params := p.entries;
  }

  /** The four independent sort checks of `loadIncome`, of which at most one
      fires. */
  method AppendSort(p: SearchParams, sort: Option<string>)
    modifies p
    ensures p.entries == old(p.entries) + SortParams(sort)
  {
    if sort == Some("latest") {
      p.Append("sortBy", "createdAt");
      p.Append("order", "desc");
    }
    if sort == Some("oldest") {
      p.Append("sortBy", "createdAt");
      p.Append("order", "asc");
    }
    if sort == Some("amountDesc") {
      p.Append("sortBy", "amount");
      p.Append("order", "desc");
    }
    if sort == Some("amountAsc") {
      p.Append("sortBy", "amount");
      p.Append("order", "asc");
    }
  }

  /** The sort table: latest and oldest order by creation time, the amount
      sorts by amount; descending for latest and amountDesc. A sort outside the
      four names selects no pair. */
  lemma SortMapping(sort: Option<string>)
    ensures SortPair(Some("latest")) == Some(("createdAt", "desc"))
    ensures SortPair(Some("oldest")) == Some(("createdAt", "asc"))
    ensures SortPair(Some("amountDesc")) == Some(("amount", "desc"))
    ensures SortPair(Some("amountAsc")) == Some(("amount", "asc"))
    ensures SortPair(sort).Some? <==> sort.Some? && sort.value in SortNames
  {
  }

  /** Different sort names select different pairs. */
  lemma SortPairInjective(a: Option<string>, b: Option<string>)
    requires SortPair(a).Some? && SortPair(a) == SortPair(b)
    ensures a == b
  {
  }

  /** The number of entries with a given key. */
  function KeyCount(q: seq<Param>, key: string): (n: nat)
    ensures n <= |q|
    ensures n == 0 <==> key !in Keys(q)
  {
    if q == [] then 0 else (if q[0].0 == key then 1 else 0) + KeyCount(q[1..], key)
  }

  lemma {:induction false} KeyCountAppend(a: seq<Param>, b: seq<Param>, key: string)
    ensures KeyCount(a + b, key) == KeyCount(a, key) + KeyCount(b, key)
  {
    if a == [] {
      assert a + b == b;
    } else {
      assert (a + b)[1..] == a[1..] + b;
      KeyCountAppend(a[1..], b, key);
    }
  }

  /** The keys of the three head entries. */
  lemma HeadKeys(pageNumber: int)
    ensures Keys(Head(pageNumber)) == ["page", "limit", "type"]
  {
    KeysOfThree(("page", IntToString(pageNumber)), ("limit", IntToString(PageSize)), ("type", "income"));
  }

  /** What `get` reads from the three head entries. */
  lemma HeadLookups(pageNumber: int)
    ensures Lookup(Head(pageNumber), "page") == Some(IntToString(pageNumber))
    ensures Lookup(Head(pageNumber), "type") == Some("income")
  {
    var a, b, c := ("page", IntToString(pageNumber)), ("limit", IntToString(PageSize)), ("type", "income");
    LookupOfThree(a, b, c, "page");
    LookupOfThree(a, b, c, "type");
  }

  /** The keys the sort entries contribute. */
  lemma SortParamsKeys(sort: Option<string>)
    ensures Keys(SortParams(sort)) == if sort.Some? && sort.value in SortNames then ["sortBy", "order"] else []
  {
  }

  /** The values the sort entries carry. */
  lemma SortParamsLookups(sort: Option<string>)
    ensures SortPair(sort).Some? ==>
      Lookup(SortParams(sort), "sortBy") == Some(SortPair(sort).value.0)
      && Lookup(SortParams(sort), "order") == Some(SortPair(sort).value.1)
  {
  }

  /** The query opens with `page`, `limit=10` and `type=income`, in that order,
      and the server reads back the page it was asked for. */
  lemma IncomeQueryPrefix(f: Filters, pageNumber: int)
    ensures |IncomeQuery(f, pageNumber)| >= 3
    ensures IncomeQuery(f, pageNumber)[0] == ("page", IntToString(pageNumber))
    ensures IncomeQuery(f, pageNumber)[1] == ("limit", "10")
    ensures IncomeQuery(f, pageNumber)[2] == ("type", "income")
    ensures Lookup(IncomeQuery(f, pageNumber), "page") == Some(IntToString(pageNumber))
    ensures Lookup(IncomeQuery(f, pageNumber), "type") == Some("income")
  {
    LimitText();
    var h, rest := Head(pageNumber), FilterParams(f) + SortParams(f.sort);
    assert IncomeQuery(f, pageNumber) == h + rest;
    HeadKeys(pageNumber);
    HeadLookups(pageNumber);
    LookupAppend(h, rest, "page");
    LookupAppend(h, rest, "type");
  }

  /** `String(10)`. */
  lemma LimitText()
    ensures IntToString(PageSize) == "10"
  {
  }

  /** After `type` come categoryId, from and to, each only when truthy and in
      that order, then the sort pair when the sort is recognised. */
  lemma IncomeQueryKeys(f: Filters, pageNumber: int)
    ensures Keys(IncomeQuery(f, pageNumber)) ==
      ["page", "limit", "type"]
      + (if Truthy(f.categoryId) then ["categoryId"] else [])
      + (if Truthy(f.from) then ["from"] else [])
      + (if Truthy(f.to) then ["to"] else [])
      + (if f.sort.Some? && f.sort.value in SortNames then ["sortBy", "order"] else [])
  {
    var h, fp, sp := Head(pageNumber), FilterParams(f), SortParams(f.sort);
    HeadKeys(pageNumber);
    SortParamsKeys(f.sort);
    FilterParamsKeys(f);
    KeysAppend(h + fp, sp);
    KeysAppend(h, fp);
    assert Keys(IncomeQuery(f, pageNumber)) == Keys(h) + Keys(fp) + Keys(sp);
  }

  /** Neither `sortBy` nor `order` occurs before the sort entries. */
  lemma FrontAvoidsSort(f: Filters, pageNumber: int)
    ensures KeyCount(Head(pageNumber) + FilterParams(f), "sortBy") == 0
    ensures KeyCount(Head(pageNumber) + FilterParams(f), "order") == 0
    ensures Lookup(Head(pageNumber) + FilterParams(f), "sortBy") == None
    ensures Lookup(Head(pageNumber) + FilterParams(f), "order") == None
  {
    HeadKeys(pageNumber);
    FilterParamsKeys(f);
    KeysAppend(Head(pageNumber), FilterParams(f));
    var ks := Keys(FilterParams(f));
    assert forall k :: k in ks ==> k == "categoryId" || k == "from" || k == "to";
    assert "sortBy" !in Keys(Head(pageNumber)) + ks && "order" !in Keys(Head(pageNumber)) + ks;
  }

  /** How often the sort entries name each sort key. */
  lemma SortParamsCounts(sort: Option<string>)
    ensures KeyCount(SortParams(sort), "sortBy") == (if sort.Some? && sort.value in SortNames then 1 else 0)
    ensures KeyCount(SortParams(sort), "order") == KeyCount(SortParams(sort), "sortBy")
  {
    SortParamsKeys(sort);
  }

  /** At most one `sortBy` and one `order` are sent, exactly when the sort is
      one of the four names, and they carry the mapped pair. */
  lemma IncomeQuerySort(f: Filters, pageNumber: int)
    ensures KeyCount(IncomeQuery(f, pageNumber), "sortBy") <= 1
    ensures KeyCount(IncomeQuery(f, pageNumber), "order") <= 1
    ensures KeyCount(IncomeQuery(f, pageNumber), "sortBy") == 1 <==> f.sort.Some? && f.sort.value in SortNames
    ensures SortPair(f.sort).Some? ==>
      Lookup(IncomeQuery(f, pageNumber), "sortBy") == Some(SortPair(f.sort).value.0)
      && Lookup(IncomeQuery(f, pageNumber), "order") == Some(SortPair(f.sort).value.1)
  {
    var front := Head(pageNumber) + FilterParams(f);
    var back := SortParams(f.sort);
    assert IncomeQuery(f, pageNumber) == front + back;
    FrontAvoidsSort(f, pageNumber);
    SortParamsCounts(f.sort);
    SortParamsLookups(f.sort);
    KeyCountAppend(front, back, "sortBy");
    KeyCountAppend(front, back, "order");
    LookupAppend(front, back, "sortBy");
    LookupAppend(front, back, "order");
  }

  /** The optional filters reach the server exactly when truthy, with their
      values unchanged. */
  lemma IncomeQueryFilterValues(f: Filters, pageNumber: int)
    ensures Lookup(IncomeQuery(f, pageNumber), "categoryId") == (if Truthy(f.categoryId) then f.categoryId else None)
    ensures Lookup(IncomeQuery(f, pageNumber), "from") == (if Truthy(f.from) then f.from else None)
    ensures Lookup(IncomeQuery(f, pageNumber), "to") == (if Truthy(f.to) then f.to else None)
  {
    FilterParamsValues(f);
    RestLookup(f, pageNumber, "categoryId");
    RestLookup(f, pageNumber, "from");
    RestLookup(f, pageNumber, "to");
  }

  /** `get` of a key that is neither a head key nor a sort key reads the
      filter entries. */
  lemma RestLookup(f: Filters, pageNumber: int, key: string)
    requires key !in ["page", "limit", "type", "sortBy", "order"]
    ensures Lookup(IncomeQuery(f, pageNumber), key) == Lookup(FilterParams(f), key)
  {
    var h, fp, sp := Head(pageNumber), FilterParams(f), SortParams(f.sort);
    HeadKeys(pageNumber);
    SortParamsKeys(f.sort);
    assert IncomeQuery(f, pageNumber) == h + (fp + sp);
    LookupAppend(h, fp + sp, key);
    LookupAppend(fp, sp, key);
  }

  class IncomeView {
    var transactions: seq<Transaction>
    var page: int
    var totalPages: int
    var showFilters: bool

    constructor ()
      ensures transactions == [] && page == 1 && totalPages == 1 && !showFilters
    {
      transactions, page, totalPages, showFilters := [], 1, 1, false;
    }

    /** The list shows exactly the page the server answered with. */
    predicate Shows(r: PageResult)
      reads this
    {
      transactions == r.items && page == r.page && totalPages == r.totalPages
    }

    /** `loadIncome(filters, pageNumber)`: one GET; a successful answer
        replaces the list and the pagination, a failed one changes nothing. */
    method LoadIncome(filters: Filters, pageNumber: int, reply: Outcome<PageResult>) returns (trace: seq<Effect>)
      modifies this`transactions, this`page, this`totalPages
      ensures trace == [Send(ListRequest(filters, pageNumber))]
      ensures reply.Success? ==> Shows(reply.value)
      ensures reply.Failure? ==> unchanged(this)
    {
      var params := BuildParams(filters, pageNumber);
      trace := [Send(Get("/transactions", params))];
      if reply.Success? {
        transactions := reply.value.items;
        page := reply.value.page;
        totalPages := reply.value.totalPages;
      }
    }

    /** The mount effect: the first page with no filters. */
    method Mount(reply: Outcome<PageResult>) returns (trace: seq<Effect>)
      modifies this`transactions, this`page, this`totalPages
      ensures trace == [Send(ListRequest(NoFilters, 1))]
      ensures reply.Success? ==> Shows(reply.value)
      ensures reply.Failure? ==> unchanged(this)
    {
      trace := LoadIncome(NoFilters, 1, reply);
    }

    /** The Show/Hide Filters button. */
    method ToggleFilters()
      modifies this`showFilters
      ensures showFilters == !old(showFilters)
    {
      showFilters := !showFilters;
    }

    /** The filter panel's `onFilter(filters, ...)`: whatever extra argument the
        panel passes, the page loads page 1 with the given filters. */
    method OnFilter(filters: Filters, extra: Option<int>, reply: Outcome<PageResult>) returns (trace: seq<Effect>)
      modifies this`transactions, this`page, this`totalPages
      ensures trace == [Send(ListRequest(filters, 1))]
      ensures reply.Success? ==> Shows(reply.value)
      ensures reply.Failure? ==> unchanged(this)
    {
      trace := LoadIncome(filters, 1, reply);
    }

    /** The Prev button: disabled exactly on page 1; otherwise it loads the
        previous page with an empty filter object. */
    method Prev(reply: Outcome<PageResult>) returns (trace: seq<Effect>)
      modifies this`transactions, this`page, this`totalPages
      ensures trace == [] <==> old(page) == 1
      ensures old(page) == 1 ==> unchanged(this)
      ensures old(page) != 1 ==> trace == [Send(ListRequest(NoFilters, old(page) - 1))]
      ensures old(page) != 1 && reply.Success? ==> Shows(reply.value)
      ensures reply.Failure? ==> unchanged(this)
    {
      if page == 1 {
        trace := [];
      } else {
        trace := LoadIncome(NoFilters, page - 1, reply);
      }
    }

    /** The Next button: disabled exactly on the last page; otherwise it loads
        the next page with an empty filter object. */
    method Next(reply: Outcome<PageResult>) returns (trace: seq<Effect>)
      modifies this`transactions, this`page, this`totalPages
      ensures trace == [] <==> old(page) == old(totalPages)
      ensures old(page) == old(totalPages) ==> unchanged(this)
      ensures old(page) != old(totalPages) ==> trace == [Send(ListRequest(NoFilters, old(page) + 1))]
      ensures old(page) != old(totalPages) && reply.Success? ==> Shows(reply.value)
      ensures reply.Failure? ==> unchanged(this)
    {
      if page == totalPages {
        trace := [];
      } else {
        trace := LoadIncome(NoFilters, page + 1, reply);
      }
    }
  }

  /** Prev and Next carry an empty filter object, so a page turn drops the
      applied category, date range and sort: only the three fixed entries
      are sent. */
  lemma PageTurnDropsFilters(pageNumber: int)
    ensures Keys(IncomeQuery(NoFilters, pageNumber)) == ["page", "limit", "type"]
  {
    IncomeQueryKeys(NoFilters, pageNumber);
  }
}
