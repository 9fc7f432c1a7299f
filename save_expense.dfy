/**
 * The required-field check of POST /saveExpense (app.js:378-396): the request
 * is refused with status 400 when any of six fields is falsy; otherwise the
 * expense, `month` included, goes to the store.
 */
module SaveExpense {

  /** A JSON request-body value as JavaScript sees it. */
  datatype JsValue =
    | Undefined             // the field is absent
    | Null
    | Bool(b: bool)
    | Number(n: real)
    | Str(s: string)
    | Object                // any object or array

  /** JavaScript truthiness: false, 0, "", null and undefined are falsy. */
  predicate Truthy(v: JsValue)
  {
    match v
    case Undefined => false
    case Null => false
    case Bool(b) => b
    case Number(n) => n != 0.0
    case Str(s) => s != ""
    case Object => true
  }

  datatype SaveExpenseBody = SaveExpenseBody(
    expenseName: JsValue, category: JsValue, date: JsValue, time: JsValue,
    amount: JsValue, userId: JsValue, month: JsValue)

  /** What the handler does: refuse with a status and a message, or hand the record to the store. */
  datatype Reply =
    | Refused(status: int, error: string)
    | Store(record: SaveExpenseBody)

  /** The six fields the handler insists on, in the order it tests them. */
  function RequiredFields(body: SaveExpenseBody): seq<JsValue>
  {
    [body.expenseName, body.category, body.date, body.time, body.amount, body.userId]
  }

  /**
   * The handler's decision. It refuses exactly when one of the six required
   * fields is falsy, always with 400 and the same message; otherwise it stores
   * every field of the body, `month` included.
   */
  function HandleSaveExpense(body: SaveExpenseBody): (r: Reply)
    ensures r.Refused? <==> exists i :: 0 <= i < 6 && !Truthy(RequiredFields(body)[i])
    ensures r.Refused? ==> r.status == 400 && r.error == "All fields are required"
    ensures r.Store? ==> r.record == body
  {
    if !Truthy(body.expenseName) || !Truthy(body.category) || !Truthy(body.date)
      || !Truthy(body.time) || !Truthy(body.amount) || !Truthy(body.userId)
    then
      assert !Truthy(body.expenseName) ==> !Truthy(RequiredFields(body)[0]);
      assert !Truthy(body.category) ==> !Truthy(RequiredFields(body)[1]);
      assert !Truthy(body.date) ==> !Truthy(RequiredFields(body)[2]);
      assert !Truthy(body.time) ==> !Truthy(RequiredFields(body)[3]);
      assert !Truthy(body.amount) ==> !Truthy(RequiredFields(body)[4]);
      assert !Truthy(body.userId) ==> !Truthy(RequiredFields(body)[5]);
      Refused(400, "All fields are required")
    else
      Store(body)
  }

  /** `month` is never looked at: changing it never changes whether the request is refused. */
  lemma MonthNotRequired(body: SaveExpenseBody, month: JsValue)
    ensures HandleSaveExpense(body).Refused? == HandleSaveExpense(body.(month := month)).Refused?
  {
    assert RequiredFields(body) == RequiredFields(body.(month := month));
  }

  /** A zero amount, an empty string and null are falsy, so each is refused. */
  lemma FalsyAmountsRefused(body: SaveExpenseBody)
    ensures HandleSaveExpense(body.(amount := Number(0.0))).Refused?
    ensures HandleSaveExpense(body.(amount := Str(""))).Refused?
    ensures HandleSaveExpense(body.(amount := Null)).Refused?
  {
    assert RequiredFields(body.(amount := Number(0.0)))[4] == Number(0.0);
    assert RequiredFields(body.(amount := Str("")))[4] == Str("");
    assert RequiredFields(body.(amount := Null))[4] == Null;
  }

  /** The string "0", unlike the number 0, is truthy: with the other fields present it passes. */
  lemma StringZeroAmountPasses(body: SaveExpenseBody)
    requires forall i :: 0 <= i < 6 && i != 4 ==> Truthy(RequiredFields(body)[i])
    ensures HandleSaveExpense(body.(amount := Str("0"))).Store?
  {
    var b := body.(amount := Str("0"));
    assert forall i :: 0 <= i < 6 && i != 4 ==> RequiredFields(b)[i] == RequiredFields(body)[i];
  }
}
