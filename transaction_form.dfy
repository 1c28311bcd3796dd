/** The transaction form: six state fields, the effects that load the
    categories of the chosen type and clear the chosen category when the type
    changes, the prefill from a transaction being edited, and the submit
    handler that validates, sends a POST or a PUT and resets the form. */
module TransactionForm {
  import opened Common

  /** The amount field holds either the text the user typed or, after a
      prefill, the transaction's number as the server sent it. */
  datatype AmountField = Typed(text: string) | Loaded(value: real)

  /** JavaScript truthiness of the amount field (`!!amount`): typed text is
      truthy when non-empty, a loaded number when non-zero. */
  predicate Filled(a: AmountField)
  {
    match a
    case Typed(text) => text != ""
    case Loaded(value) => value != 0.0
  }

  /** `Number(amount)`; `parseNumber` is the host's conversion of text. */
  function AmountNumber(a: AmountField, parseNumber: string -> real): real
  {
    match a
    case Typed(text) => parseNumber(text)
    case Loaded(value) => value
  }

  /** `GET /categories?type=<t>`. */
  function CategoriesRequest(t: string): Request
  {
    Get("/categories", [("type", t)])
  }

  /** `date?.slice(0, 10)`: the first ten characters, or all of a shorter
      date. */
  function PrefillDate(d: string): (r: string)
    ensures r <= d
    ensures |r| == if |d| < 10 then |d| else 10
  {
    if |d| < 10 then d else d[..10]
  }

  /** `categoryId?._id || ""`. */
  function PrefillCategoryId(t: Transaction): (id: string)
    ensures t.category.None? ==> id == ""
    ensures t.category.Some? ==> id == t.category.value.id
  {
    if t.category.Some? then t.category.value.id else ""
  }

  /** The callbacks the parent supplied, in the order a successful save
      invokes them. */
  function SuccessCallbacks(hasClearEdit: bool, hasOnSuccess: bool): seq<Effect>
  {
    (if hasClearEdit then [Invoke(ClearEdit)] else []) + (if hasOnSuccess then [Invoke(OnSuccess)] else [])
  }

  class Form {
    var amount: AmountField
    var note: string
    var categoryId: string
    var txType: string
    var categories: seq<Category>
    var date: string
    /** The `editingTransaction` prop. */
    var editing: Option<Transaction>
    /** Whether the parent passed `clearEdit` and `onSuccess`. */
    const hasClearEdit: bool
    const hasOnSuccess: bool

    /** The fields hold the values of a blank form. */
    predicate IsReset()
      reads this
    {
      amount == Typed("") && note == "" && categoryId == "" && txType == "expense" && date == ""
    }

    /** The fields hold the values the prefill takes from `t`. */
    predicate ShowsPrefillOf(t: Transaction)
      reads this
    {
      amount == Loaded(t.amount) && note == OrEmpty(t.note) && txType == t.txType
      && date == PrefillDate(t.date)
    }

    /** Amount, category and type are all truthy. */
    predicate Ready()
      reads this
    {
      Filled(amount) && categoryId != "" && txType != ""
    }

    /** The request a save sends: a PUT to the edited transaction, otherwise a
        POST; the body carries `Number(amount)` and the other four fields as
        they are. */
    function SaveRequest(parseNumber: string -> real): Request
      reads this
    {
      var body := TransactionPayload(AmountNumber(amount, parseNumber), categoryId, txType, note, date);
      if editing.Some? then Put("/transactions/" + editing.value.id, body) else Post("/transactions", body)
    }

    constructor (hasClearEdit: bool, hasOnSuccess: bool)
      ensures IsReset() && categories == [] && editing == None
      ensures this.hasClearEdit == hasClearEdit && this.hasOnSuccess == hasOnSuccess
    {
      amount, note, categoryId, txType, date := Typed(""), "", "", "expense", "";
      categories, editing := [], None;
      this.hasClearEdit, this.hasOnSuccess := hasClearEdit, hasOnSuccess;
    }

    /** The two effects keyed on `type`, run on mount and after every change
        of type: load the categories of the current type and clear the chosen
        category. */
    method TypeChanged(reply: Outcome<seq<Category>>) returns (trace: seq<Effect>)
      modifies this`categories, this`categoryId
      ensures trace == [Send(CategoriesRequest(txType))]
      ensures categoryId == ""
      ensures reply.Success? ==> categories == reply.value
      ensures reply.Failure? ==> categories == old(categories)
    {
      trace := [Send(CategoriesRequest(txType))];
      if reply.Success? {
        categories := reply.value;
      }
      categoryId := "";
    }

    /** Choosing a type in the selector: a different type reloads the
        categories for it and clears the chosen category. */
    method ChooseType(t: string, reply: Outcome<seq<Category>>) returns (trace: seq<Effect>)
      modifies this`txType, this`categories, this`categoryId
      ensures t == old(txType) ==> trace == [] && unchanged(this)
      ensures t != old(txType) ==> trace == [Send(CategoriesRequest(t))] && txType == t && categoryId == ""
      ensures t != old(txType) && reply.Success? ==> categories == reply.value
      ensures reply.Failure? ==> categories == old(categories)
    {
      if t == txType {
        trace := [];
        return;
      }
      txType := t;
      trace := TypeChanged(reply);
    }

    /** The prefill effect as the source has it. It copies the edited
        transaction into the fields; when that changes the type, the effects
        keyed on `type` then run and clear the category it just set. */
    method StartEditingAsWritten(t: Option<Transaction>, reply: Outcome<seq<Category>>) returns (trace: seq<Effect>)
      modifies this`editing, this`amount, this`note, this`categoryId, this`txType, this`date, this`categories
      ensures editing == t
      ensures t.None? ==>
        trace == [] && unchanged(this`amount, this`note, this`categoryId, this`txType, this`date, this`categories)
      ensures t.Some? ==> ShowsPrefillOf(t.value)
      ensures t.Some? && t.value.txType == old(txType) ==>
        trace == [] && categoryId == PrefillCategoryId(t.value) && categories == old(categories)
      ensures t.Some? && t.value.txType != old(txType) ==>
        trace == [Send(CategoriesRequest(t.value.txType))] && categoryId == ""
        && (reply.Success? ==> categories == reply.value)
        && (reply.Failure? ==> categories == old(categories))
    {
      editing := t;
      trace := [];
      if t.Some? {
        var tx := t.value;
        var typeChanges := tx.txType != txType;
        amount := Loaded(tx.amount);
        note := OrEmpty(tx.note);
        categoryId := PrefillCategoryId(tx);
        txType := tx.txType;
        date := PrefillDate(tx.date);
        if typeChanges {
          trace := TypeChanged(reply);
        }
      }
    }

    /** The prefill as intended: the fields show the edited transaction,
        including its category, whatever type the form had before; a change
        of type still reloads the categories of the new type. */
    method StartEditing(t: Option<Transaction>, reply: Outcome<seq<Category>>) returns (trace: seq<Effect>)
      modifies this`editing, this`amount, this`note, this`categoryId, this`txType, this`date, this`categories
      ensures editing == t
      ensures t.None? ==>
        trace == [] && unchanged(this`amount, this`note, this`categoryId, this`txType, this`date, this`categories)
      ensures t.Some? ==> ShowsPrefillOf(t.value) && categoryId == PrefillCategoryId(t.value)
      ensures t.Some? && t.value.txType == old(txType) ==> trace == [] && categories == old(categories)
      ensures t.Some? && t.value.txType != old(txType) ==>
        trace == [Send(CategoriesRequest(t.value.txType))]
        && (reply.Success? ==> categories == reply.value)
        && (reply.Failure? ==> categories == old(categories))
    {
      editing := t;
      trace := [];
      if t.Some? {
        var tx := t.value;
        var typeChanges := tx.txType != txType;
        amount := Loaded(tx.amount);
        note := OrEmpty(tx.note);
        txType := tx.txType;
        date := PrefillDate(tx.date);
        if typeChanges {
          trace := TypeChanged(reply);
        }
        categoryId := PrefillCategoryId(tx);
      }
    }

    /** `handleSubmit`: with a missing amount, category or type nothing is sent
        and nothing changes; otherwise the save request is sent; a failure
        only raises an alert; a success resets the form, calls `clearEdit` and
        `onSuccess`, and (when the type was not already "expense") the type
        effects reload the expense categories. */
    method Submit(parseNumber: string -> real, saveReply: Outcome<()>, reply: Outcome<seq<Category>>)
      returns (trace: seq<Effect>)
      modifies this`amount, this`note, this`categoryId, this`txType, this`date, this`categories
      ensures !old(Ready()) ==>
        trace == [Show(Alert("Amount, category and type are required"))] && unchanged(this)
      ensures old(Ready()) && saveReply.Failure? ==>
        trace == [Send(old(SaveRequest(parseNumber))), Show(Alert("Failed to save transaction"))]
        && unchanged(this)
      ensures old(Ready()) && saveReply.Success? ==>
        IsReset() && editing == old(editing)
        && trace == [Send(old(SaveRequest(parseNumber)))] + SuccessCallbacks(hasClearEdit, hasOnSuccess)
                    + (if old(txType) != "expense" then [Send(CategoriesRequest("expense"))] else [])
        && (old(txType) != "expense" && reply.Success? ==> categories == reply.value)
        && (old(txType) == "expense" || reply.Failure? ==> categories == old(categories))
    {
      if !Ready() {
        trace := [Show(Alert("Amount, category and type are required"))];
        return;
      }
      var request := SaveRequest(parseNumber);
      trace := [Send(request)];
      if saveReply.Failure? {
        trace := trace + [Show(Alert("Failed to save transaction"))];
        return;
      }
      var typeChanges := txType != "expense";
      amount := Typed("");
      note := "";
      categoryId := "";
      txType := "expense";
      date := "";
      trace := trace + SuccessCallbacks(hasClearEdit, hasOnSuccess);
      if typeChanges {
        var reload := TypeChanged(reply);
        trace := trace + reload;
      }
    }
  }

  /** The save request is a PUT to the edited transaction's path exactly in
      edit mode, and its body passes every field but the amount through
      unchanged. */
  lemma SaveRequestShape(form: Form, parseNumber: string -> real)
    ensures form.editing.Some? <==> form.SaveRequest(parseNumber).Put?
    ensures form.editing.Some? ==> form.SaveRequest(parseNumber).path == "/transactions/" + form.editing.value.id
    ensures form.editing.None? ==> form.SaveRequest(parseNumber) == Post("/transactions", form.SaveRequest(parseNumber).body)
    ensures form.SaveRequest(parseNumber).body ==
      TransactionPayload(AmountNumber(form.amount, parseNumber), form.categoryId, form.txType, form.note, form.date)
  {
  }

  /** A prefilled zero amount counts as missing (`!0` is true), so a
      zero-amount transaction cannot be saved again without retyping it. */
  lemma LoadedZeroIsMissing()
    ensures !Filled(Loaded(0.0))
    ensures Filled(Typed("0"))
  {
  }

  /** The edit of an income transaction from a blank form (type "expense"),
      as the source behaves: the category the prefill sets is cleared. */
  method EditIncomeAsWritten() returns (t: Transaction, categoryId: string)
    ensures t.category == Some(Category("c1", "Salary")) && t.txType == "income"
    ensures categoryId == ""
  {
    var form := new Form(true, true);
    t := Transaction("t1", 500.0, "income", Some(Category("c1", "Salary")), None, "2024-01-02T00:00:00.000Z");
    var _ := form.StartEditingAsWritten(Some(t), Failure);
    categoryId := form.categoryId;
  }

  /** The same edit with the intended prefill keeps the category. */
  method EditIncomeIntended() returns (t: Transaction, categoryId: string)
    ensures t.category == Some(Category("c1", "Salary")) && t.txType == "income"
    ensures categoryId == "c1"
  {
    var form := new Form(true, true);
    t := Transaction("t1", 500.0, "income", Some(Category("c1", "Salary")), None, "2024-01-02T00:00:00.000Z");
    var _ := form.StartEditing(Some(t), Failure);
    categoryId := form.categoryId;
  }
}
