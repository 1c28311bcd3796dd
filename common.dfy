/** Values shared by the pages and components of the expense tracker: the
    records the server sends, the filter object, the requests a component
    issues and the other effects a handler has on the world. */
module Common {

  datatype Option<+T> = None | Some(value: T)

  /** The abstract outcome of one HTTP call: the server's decoded answer, or a
      rejected promise (network error, non-2xx status). */
  datatype Outcome<+T> = Success(value: T) | Failure

  /** One `key=value` entry of a query string, before percent-encoding. */
  type Param = (string, string)

  /** A category as the server returns it (`{_id, name}`). */
  datatype Category = Category(id: string, name: string)

  /** A transaction as listed by `GET /transactions`. `category` is the
      server-populated `categoryId` object; `None` stands for every value on
      which `categoryId?.name` and `categoryId?._id` are undefined (null, absent,
      or an unpopulated id string). */
  datatype Transaction = Transaction(
    id: string,
    amount: real,
    txType: string,
    category: Option<Category>,
    note: Option<string>,
    date: string)

  /** The body of a `GET /transactions` answer: `{expenses, page, totalPages}`. */
  datatype PageResult = PageResult(items: seq<Transaction>, page: int, totalPages: int)

  /** The body of a `GET /analytics/net-balance` answer. */
  datatype Balance = Balance(income: real, expense: real, netBalance: real)

  /** The filter object handed to a list loader; `None` is a missing key. */
  datatype Filters = Filters(
    categoryId: Option<string>,
    from: Option<string>,
    to: Option<string>,
    sort: Option<string>)

  /** The object literal `{}`. */
  const NoFilters := Filters(None, None, None, None)

  /** JavaScript truthiness of an optional string: present and non-empty. */
  predicate Truthy(v: Option<string>) {
    v.Some? && v.value != ""
  }

  /** `v || ""` for an optional string. */
  function OrEmpty(v: Option<string>): (r: string)
    ensures Truthy(v) ==> r == v.value
    ensures !Truthy(v) ==> r == ""
  {
    if v.Some? then v.value else ""
  }

  /** A JSON request body. */
  datatype Payload =
    | TransactionPayload(amount: real, categoryId: string, txType: string, note: string, date: string)
    | CategoryPayload(name: string)

  /** A request issued through the API client; `query` is the parameter list
      appended after `?`. */
  datatype Request =
    | Get(path: string, query: seq<Param>)
    | Post(path: string, body: Payload)
    | Put(path: string, body: Payload)
    | Delete(path: string)

  /** A user-visible notification: a toast or a blocking `alert`. */
  datatype Message = ToastSuccess(text: string) | ToastError(text: string) | Alert(text: string)

  /** A callback a component invokes on its parent. */
  datatype Callback =
    | ClearEdit
    | OnSuccess
    | OnFilter(filters: Filters, page: Option<int>)

  /** One observable effect of an event handler, in the order it happens. */
  datatype Effect =
    | Send(request: Request)
    | Show(message: Message)
    | Invoke(callback: Callback)
    | Download(fileName: string, contents: string)

  /** The requests of a trace, in order. */
  function Requests(trace: seq<Effect>): (r: seq<Request>)
    ensures |r| <= |trace|
    ensures forall q :: q in r ==> Send(q) in trace
  {
    if trace == [] then []
    else (if trace[0].Send? then [trace[0].request] else []) + Requests(trace[1..])
  }
}
