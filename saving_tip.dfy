/**
 * generateMoneySavingTip (app.js:9-119): per-category totals, the weightage
 * vector fed to the predictor, one tip per category, and the random pick.
 * The predictor is a parameter and the random number a `draw` in [0, 1).
 */
module SavingTip {

  import opened Optional
  import opened Categories
  import opened CategoryTotals
  import opened TipCascade

  /** A tip: its template, the category it names and the percent of salary it quotes. */
  datatype Tip = Tip(kind: TipKind, category: string, percent: real)

  /**
   * The share of the monthly salary spent, in percent. A zero amount is
   * falsy in JavaScript and gives 0 without dividing (app.js:68-70).
   */
  function PercentOfSalary(amountSpent: real, monthlySalary: real): (p: real)
    requires monthlySalary > 0.0
    ensures p * monthlySalary == 100.0 * amountSpent
    ensures amountSpent == 0.0 ==> p == 0.0
    ensures amountSpent >= 0.0 ==> p >= 0.0
  {
    if amountSpent == 0.0 then 0.0 else amountSpent / monthlySalary * 100.0
  }

  /** A percent threshold of the cascade is a fraction of the salary. */
  lemma PercentAboveThreshold(amountSpent: real, monthlySalary: real, t: real)
    requires monthlySalary > 0.0
    ensures PercentOfSalary(amountSpent, monthlySalary) > t <==> 100.0 * amountSpent > t * monthlySalary
  {
    var p := PercentOfSalary(amountSpent, monthlySalary);
    if p > t {
      assert p * monthlySalary > t * monthlySalary;
    } else {
      assert p * monthlySalary <= t * monthlySalary;
    }
  }

  /** The weightage vector fed to the predictor: each category's spend over the salary, in list order. */
  function RatioVector(expenses: seq<Expense>, monthlySalary: real): (r: seq<real>)
    requires monthlySalary > 0.0
    ensures |r| == |CategoryList|
    ensures forall i :: 0 <= i < |r| ==> r[i] * monthlySalary == Spent(expenses, CategoryList[i])
  {
    seq(|CategoryList|, i requires 0 <= i < |CategoryList| => Spent(expenses, CategoryList[i]) / monthlySalary)
  }

  /**
   * Fills `categoryWeightages` category by category (app.js:38-42) and returns
   * `Object.values` of it, which lists the values in insertion order, that is
   * in category order.
   */
  method BuildCategoryWeightages(amounts: map<string, real>, monthlySalary: real) returns (weightages: seq<real>)
    requires monthlySalary > 0.0
    requires forall c :: c in CategoryList ==> c in amounts
    ensures |weightages| == |CategoryList|
    ensures forall i :: 0 <= i < |CategoryList| ==>
      weightages[i] == amounts[CategoryList[i]] / monthlySalary
      && weightages[i] * monthlySalary == amounts[CategoryList[i]]
  {
    weightages := [];
    for i := 0 to |CategoryList|
      invariant |weightages| == i
      invariant forall k :: 0 <= k < i ==> weightages[k] == amounts[CategoryList[k]] / monthlySalary
    {
      var amountSpent := amounts[CategoryList[i]];
      weightages := weightages + [amountSpent / monthlySalary];
    }
  }

  /**
   * `prediction[i]`: the predictor's output for the `i`-th category, or
   * `undefined` when the output array is shorter than that.
   */
  function WeightageAt(prediction: seq<real>, i: nat): Option<real>
  {
    if i < |prediction| then Some(prediction[i]) else None
  }

  /** The tip for one category. */
  function TipFor(category: string, amountSpent: real, weightage: Option<real>, monthlySalary: real): Tip
    requires monthlySalary > 0.0
  {
    var percent := PercentOfSalary(amountSpent, monthlySalary);
    Tip(Classify(category, weightage, percent), category, percent)
  }

  /** `finalWeightages.map(...)`: one tip per category, in category order (app.js:61-115). */
  function Tips(amounts: map<string, real>, prediction: seq<real>, monthlySalary: real): (tips: seq<Tip>)
    requires monthlySalary > 0.0
    requires forall c :: c in CategoryList ==> c in amounts
    ensures |tips| == |CategoryList|
    ensures forall i :: 0 <= i < |tips| ==>
      tips[i].category == CategoryList[i]
      && tips[i].percent == PercentOfSalary(amounts[CategoryList[i]], monthlySalary)
      && tips[i].kind == Classify(CategoryList[i], WeightageAt(prediction, i), tips[i].percent)
  {
    seq(|CategoryList|, i requires 0 <= i < |CategoryList| =>
      TipFor(CategoryList[i], amounts[CategoryList[i]], WeightageAt(prediction, i), monthlySalary))
  }

  /** Every category gets exactly one tip, and every tip names one of the categories. */
  lemma OneTipPerCategory(amounts: map<string, real>, prediction: seq<real>, monthlySalary: real, c: string)
    requires monthlySalary > 0.0
    requires forall c :: c in CategoryList ==> c in amounts
    ensures var tips := Tips(amounts, prediction, monthlySalary);
      (c in CategoryList <==> exists i :: 0 <= i < |tips| && tips[i].category == c)
      && forall i, j :: 0 <= i < |tips| && 0 <= j < |tips| && tips[i].category == c && tips[j].category == c ==> i == j
  {
    CategoryListFacts();
    var tips := Tips(amounts, prediction, monthlySalary);
    if c in CategoryList {
      var i :| 0 <= i < |CategoryList| && CategoryList[i] == c;
      assert tips[i].category == c;
    }
  }

  /** `Math.floor(draw * n)` for a draw in [0, 1): the index of the chosen tip. */
  function PickIndex(draw: real, n: nat): (i: nat)
    requires 0.0 <= draw < 1.0
    requires n > 0
    ensures i < n
    ensures i as real <= draw * n as real < i as real + 1.0
  {
    var x := draw * n as real;
    assert 0.0 <= x < n as real;
    x.Floor
  }

  /** Every tip can be the one returned: the draw i/n picks index i. */
  lemma EveryTipCanBePicked(i: nat, n: nat)
    requires i < n
    ensures 0.0 <= i as real / n as real < 1.0
    ensures PickIndex(i as real / n as real, n) == i
  {
    var d := i as real / n as real;
    assert d * n as real == i as real;
  }

  /** The vector built from the category totals is the weightage vector of the expenses. */
  lemma WeightagesAreRatioVector(expenses: seq<Expense>, amounts: map<string, real>,
                                 monthlySalary: real, weightages: seq<real>)
    requires monthlySalary > 0.0
    requires forall c :: c in amounts <==> c in CategoryList
    requires forall c :: c in amounts ==> amounts[c] == Spent(expenses, c)
    requires |weightages| == |CategoryList|
    requires forall i :: 0 <= i < |CategoryList| ==> weightages[i] == amounts[CategoryList[i]] / monthlySalary
    ensures weightages == RatioVector(expenses, monthlySalary)
  {
    var ratios := RatioVector(expenses, monthlySalary);
    forall i | 0 <= i < |ratios| ensures weightages[i] == ratios[i] {
      assert ratios[i] == Spent(expenses, CategoryList[i]) / monthlySalary;
    }
  }

  /**
   * The whole generator. Its tip is the one at the drawn index of the tips
   * built from the category totals and the predictor's output on the
   * weightage vector; it names one of the fifteen categories and quotes that
   * category's spend as a percent of the salary.
   */
  method GenerateMoneySavingTip(expenses: seq<Expense>, monthlySalary: real,
                                predict: seq<real> -> seq<real>, draw: real) returns (tip: Tip)
    requires monthlySalary > 0.0
    requires 0.0 <= draw < 1.0
    ensures var k := PickIndex(draw, |CategoryList|);
      && tip.category == CategoryList[k]
      && tip.percent == PercentOfSalary(Spent(expenses, tip.category), monthlySalary)
      && tip.kind == Classify(tip.category, WeightageAt(predict(RatioVector(expenses, monthlySalary)), k), tip.percent)
  {
    var amounts := BuildCategoryAmounts(expenses);
    var weightages := BuildCategoryWeightages(amounts, monthlySalary);
    WeightagesAreRatioVector(expenses, amounts, monthlySalary, weightages);
    var prediction := predict(weightages);
    var tips := Tips(amounts, prediction, monthlySalary);
    var k := PickIndex(draw, |tips|);
    tip := tips[k];

  }

  /** With no expenses every tip quotes 0 percent, whatever the predictor returned. */
  lemma NoExpensesZeroPercent(amounts: map<string, real>, prediction: seq<real>, monthlySalary: real, i: nat)
    requires monthlySalary > 0.0
    requires forall c :: c in amounts <==> c in CategoryList
    requires forall c :: c in amounts ==> amounts[c] == Spent([], c)
    requires i < |CategoryList|
    ensures Tips(amounts, prediction, monthlySalary)[i].percent == 0.0
  {
    assert amounts[CategoryList[i]] == 0.0;
  }

  /**
   * With no expenses, a category whose weightage is not above 0.05 gets
   * "moderate amount" exactly when it is "Rent or Mortgage" or "Insurance",
   * and "didn't spend anything" otherwise.
   */
  lemma NoExpensesTips(amounts: map<string, real>, prediction: seq<real>, monthlySalary: real, i: nat)
    requires monthlySalary > 0.0
    requires forall c :: c in amounts <==> c in CategoryList
    requires forall c :: c in amounts ==> amounts[c] == Spent([], c)
    requires i < |CategoryList|
    requires !Above(WeightageAt(prediction, i), 0.05)
    ensures var t := Tips(amounts, prediction, monthlySalary)[i];
      && (t.kind == ModerateAmount <==> t.category == RentOrMortgage || t.category == Insurance)
      && (t.kind != ModerateAmount ==> t.kind == DidNotSpendAnything)
  {
    var t := Tips(amounts, prediction, monthlySalary)[i];
    NoExpensesZeroPercent(amounts, prediction, monthlySalary, i);
    ModerateOnlyForRentAndInsurance(t.category, WeightageAt(prediction, i), t.percent);
  }

  /**
   * 400 spent on "Groceries" out of a salary of 2000 is exactly 20 percent,
   * which is not above 20: without a weightage branch it gets "keep an eye".
   */
  lemma GroceriesAtTwentyPercent()
    ensures PercentOfSalary(400.0, 2000.0) == 20.0
    ensures Classify(Groceries, None, PercentOfSalary(400.0, 2000.0)) == KeepAnEye
  {
  }
}
