/** The filter panel shown on the income page: four fields (category, date
    range, sort), an Apply button that hands the current values to the page
    and a Clear button that resets them. */
module ExpenseFilters {
  import opened Common
  import Income
  import opened Query
  import Text

  /** The values the sort selector offers: exactly the sort names the income
      page maps to a `sortBy`/`order` pair. */
  const SortOptions: set<string> := Income.SortNames

  class FilterPanel {
    var categories: seq<Category>
    var categoryId: string
    var from: string
    var to: string
    var sort: string

    /** The sort field only ever holds one of the selector's options. */
    predicate Valid()
      reads this
    {
      sort in SortOptions
    }

    /** Every field holds its initial value. */
    predicate Cleared()
      reads this
    {
      categoryId == "" && from == "" && to == "" && sort == "latest"
    }

    constructor ()
      ensures Valid() && Cleared() && categories == []
    {
      categories := [];
      categoryId, from, to, sort := "", "", "", "latest";
    }

    /** The mount effect: `GET /categories` fills the category selector. */
    method Mount(reply: Outcome<seq<Category>>) returns (trace: seq<Effect>)
      modifies this`categories
      ensures trace == [Send(Get("/categories", []))]
      ensures reply.Success? ==> categories == reply.value
      ensures reply.Failure? ==> unchanged(this)
    {
      trace := [Send(Get("/categories", []))];
      if reply.Success? {
        categories := reply.value;
      }
    }

    /** Choosing an entry of the sort selector. */
    method ChooseSort(s: string)
      requires s in SortOptions
      modifies this`sort
      ensures sort == s && Valid()
    {
      sort := s;
    }

    /** The Apply button: hands exactly the four current values to the page,
        with no page argument, and changes nothing. Since the sort field only
        holds a selector option, the page's query then carries exactly one
        `sortBy`. */
    method Apply() returns (trace: seq<Effect>)
      requires Valid()
      ensures trace == [Invoke(OnFilter(Filters(Some(categoryId), Some(from), Some(to), Some(sort)), None))]
      ensures Income.KeyCount(Income.IncomeQuery(trace[0].callback.filters, 1), "sortBy") == 1
    {
      trace := [Invoke(OnFilter(Filters(Some(categoryId), Some(from), Some(to), Some(sort)), None))];
      AppliedPanelQuery(categoryId, from, to, sort);
    }

    /** The Clear button: resets the four fields and hands an empty filter
        object to the page, with page 1. */
    method Clear() returns (trace: seq<Effect>)
      modifies this`categoryId, this`from, this`to, this`sort
      ensures Cleared() && Valid()
      ensures trace == [Invoke(OnFilter(NoFilters, Some(1)))]
    {
      categoryId := "";
      from := "";
      to := "";
      sort := "latest";
      trace := [Invoke(OnFilter(NoFilters, Some(1)))];
    }
  }

  /** Apply on a valid panel always makes the income page send a sort: the
      selector cannot hold a value the page does not map. Empty fields send
      no filter entry. */
  lemma AppliedPanelQuery(categoryId: string, from: string, to: string, sort: string)
    requires sort in SortOptions
    ensures
      var q := Income.IncomeQuery(Filters(Some(categoryId), Some(from), Some(to), Some(sort)), 1);
      Income.KeyCount(q, "sortBy") == 1
      && (categoryId == "" <==> Lookup(q, "categoryId") == None)
      && (from == "" <==> Lookup(q, "from") == None)
      && (to == "" <==> Lookup(q, "to") == None)
  {
    var f := Filters(Some(categoryId), Some(from), Some(to), Some(sort));
    Income.IncomeQuerySort(f, 1);
    Income.IncomeQueryFilterValues(f, 1);
  }

  /** Clear does not restore the initial query: its empty filter object has no
      sort, so the page sends no `sortBy` even though the panel shows "latest"
      again; only page 1, the limit and the type are sent. */
  lemma ClearedPanelQuery()
    ensures Keys(Income.IncomeQuery(NoFilters, 1)) == ["page", "limit", "type"]
    ensures Lookup(Income.IncomeQuery(NoFilters, 1), "page") == Some("1")
  {
    Income.IncomeQueryKeys(NoFilters, 1);
    Income.IncomeQueryPrefix(NoFilters, 1);
    assert Text.IntToString(1) == "1";
  }
}
