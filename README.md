# finance_backend: money-saving tips, pagination and expense validation

A Dafny model of the logic in `app.js` of a personal-finance backend:

- **generateMoneySavingTip** (app.js:9-119). Totals a user's expenses over a
  fixed list of fifteen categories. Divides each total by the monthly salary
  to get the weightage vector for a predictor. Turns each category's
  predicted weightage and its percent of salary into one of nine tip
  templates through an if/else cascade where the first match wins. Returns
  one of the fifteen tips, chosen with `Math.random`.
- **GET /paginatedUsers** (app.js:597-621). Works out the page of the user
  list to return, the page count and the next and previous page links.
- **POST /saveExpense** (app.js:378-396). Refuses a request with status 400
  when any of six fields is falsy.

Modules, one per component:

- `Categories`: the fifteen category names, in order.
- `CategoryTotals`: the imperative totals loop.
- `TipCascade`: the cascade, plus the same decision written as an ordered
  rule table.
- `SavingTip`: percent of salary, the weightage loop, the tip list, the pick
  and the whole generator.
- `Pagination`: the page arithmetic, with JavaScript `slice` and `Math.ceil`.
- `SaveExpense`: JavaScript truthiness and the required-field check.
- `Optional`: an `Option` type, where `None` stands for `undefined`.

Modelling choices:

- Amounts, salary, weightages and percents are `real`, meaning exact
  arithmetic in place of JavaScript doubles.
- The brain.js network is a parameter `predict: seq<real> -> seq<real>`. The
  generator applies it to the weightage vector, as `net.run` does
  (app.js:60).
- `prediction[i]` past the end of the predictor's output is `undefined` in
  JavaScript, and every `>` test with it is false. The model gives it as
  `None`. The cascade's weightage tests are `Above`, which is
  false on `None`. The network is trained with a one-element output
  (`output: [1]`, app.js:54), so its prediction is probably one long. In
  that case only the first category can reach a weightage branch. The model
  allows an output of any length.
- `Math.random()` is a parameter `draw` with `0 <= draw < 1`. The index
  `Math.floor(draw * 15)` is proved in range, and every index is proved
  reachable.
- The code divides by the salary with no zero-income fallback, so the model
  requires `monthlySalary > 0`.
- The weightage tests compare whatever the predictor returned, `undefined`
  included; nothing bounds the weightage to [0, 1].

## Model

| member | source | states |
|---|---|---|
| Categories.CategoryListFacts | app.js:10-26 | the list has fifteen distinct names, and "Hospital" is not among them |
| CategoryTotals.BuildCategoryAmounts | app.js:28-35 | the dictionary's keys are exactly the fifteen categories; each key holds the sum of `amount` over the expenses of that category; the loop invariants carry this from the zero-initialisation through the accumulation |
| CategoryTotals.SpentAppend | app.js:31-35 | the total over a concatenation of expense lists is the sum of the totals of the parts |
| CategoryTotals.SpentIgnoresOtherCategories | app.js:31-35 | expenses of other categories, added before or after, leave a category's total unchanged |
| CategoryTotals.UnknownCategoryChangesNoTotal | app.js:29-35 | an expense whose category is not one of the fifteen changes none of the fifteen totals |
| CategoryTotals.SpentPermutation | app.js:31-35 | the totals do not depend on the order of the expenses: a permutation gives the same totals |
| CategoryTotals.TotalsSumToRecognizedSpend | app.js:29-35 | the fifteen totals add up to the summed amount of the expenses in recognised categories |
| TipCascade.Classify | app.js:72-114 | each of the nine templates is chosen exactly on its region: the weightage thresholds 0.5, 0.25, 0.1 and 0.05 in turn, then the review categories, then percent thresholds 30, 20 and 10, with every earlier test failed |
| TipCascade.FirstMatch | app.js:72-114 | an ordered rule table yields the template of the first rule whose test holds, with every earlier rule failing, and None exactly when no rule holds |
| TipCascade.ClassifyIsFirstMatchingRule | app.js:72-114 | the cascade equals the first-match reading of the nine-rule table on every input, and the table always decides |
| TipCascade.WeightageBranchesIgnorePercent | app.js:72-87 | when the weightage is above 0.05 the template depends on the weightage alone, not on the category or the percent, and is one of the four weightage templates |
| TipCascade.ModerateOnlyForRentAndInsurance | app.js:88-95 | among the fifteen categories, "moderate amount" goes exactly to "Rent or Mortgage" and "Insurance" when the weightage is not above 0.05, whatever the percent; the "Hospital" test never succeeds |
| SavingTip.PercentOfSalary | app.js:67-70 | the percent times the salary is 100 times the amount; a zero amount gives 0, and a non-negative amount gives a non-negative percent |
| SavingTip.PercentAboveThreshold | app.js:96-107 | a percent above threshold t means the amount is above t percent of the salary, and conversely |
| SavingTip.RatioVector | app.js:38-42 | the weightage vector has fifteen entries; entry i times the salary is the spend on category i |
| SavingTip.BuildCategoryWeightages | app.js:38-42 | the loop yields, in category order, each category's total divided by the salary |
| SavingTip.WeightagesAreRatioVector | app.js:38-42 | the vector built from the loop's totals equals the weightage vector of the expenses |
| SavingTip.Tips | app.js:61-115 | fifteen tips in category order; tip i names category i, quotes its percent and has the template the cascade gives for prediction entry i |
| SavingTip.OneTipPerCategory | app.js:61-66 | a name has a tip exactly when it is one of the fifteen categories, and no category gets two tips |
| SavingTip.PickIndex | app.js:118 | floor(draw * n) lies in [0, n) and is the floor of draw * n |
| SavingTip.EveryTipCanBePicked | app.js:118 | every index i < n is chosen by some draw in [0, 1), namely i/n |
| SavingTip.GenerateMoneySavingTip | app.js:9-119 | the returned tip is the one at the drawn index: it names that category, quotes the category's spend as a percent of salary, and has the template the cascade gives for the predictor's output on the weightage vector |
| SavingTip.NoExpensesZeroPercent | app.js:67-70 | with no expenses every one of the fifteen tips quotes 0 percent, whatever the predictor returned |
| SavingTip.NoExpensesTips | app.js:88-114 | with no expenses and a weightage not above 0.05, a tip is "moderate amount" exactly for Rent or Mortgage and Insurance, and "didn't spend anything" otherwise |
| SavingTip.GroceriesAtTwentyPercent | app.js:100-107 | 400 spent out of 2000 is exactly 20 percent; that is not above 20, so "Groceries" gets "keep an eye" |
| Pagination.Ceil | app.js:607 | `Math.ceil`: the least integer not below x |
| Pagination.JsSlice | app.js:619 | `slice` has at most the list's length; for non-negative bounds its length is the clamped window and element i is list element start+i; a negative start counts from the end (element i is list element max(len+start, 0)+i), and with a negative end the length is exactly max(max(len+end, 0) - from, 0), where from is the clamped start |
| Pagination.Paginate | app.js:602-619 | totalUser is the list's length; next is page+1, set iff page*limit < total; prev is page-1, set iff (page-1)*limit > 0; the page count is null iff the limit is 0 |
| Pagination.PageCountIsCeiling | app.js:607 | for limit >= 1 the page count c satisfies c*limit >= total and (c-1)*limit < total, that is c = ceil(total/limit) |
| Pagination.CeilOfQuotient | app.js:607 | ceil(n/l) for l >= 1 is the least c >= 0 with c*l >= n |
| Pagination.PageIsWindow | app.js:602-619 | for page, limit >= 1 the result is the users from (page-1)*limit up to min(page*limit, total), empty past the end, at most `limit` long; prev is set iff page >= 2 |
| Pagination.PageNonEmptyWithinCount | app.js:607-619 | for page, limit >= 1 a page has users exactly when page <= pageCount |
| Pagination.NextPageIsNonEmpty | app.js:609-613 | a next link always points at a page that has users |
| Pagination.PagesTile | app.js:602-619 | pages 1..k, read in order, are the first min(k*limit, total) users |
| Pagination.AllPagesCoverUsers | app.js:602-619 | pages 1..pageCount, read in order, give back the whole user list |
| Pagination.ZeroLimit | app.js:602-619 | with limit 0 the result is empty, prev is unset, pageCount is null, and next is set iff there are users |
| SaveExpense.HandleSaveExpense | app.js:383-396 | refused iff one of the six required fields (expenseName, category, date, time, amount, userId) is falsy, always with 400 and "All fields are required"; otherwise the seven destructured fields, month included, go to the store |
| SaveExpense.MonthNotRequired | app.js:379-385 | changing `month` never changes whether the request is refused |
| SaveExpense.FalsyAmountsRefused | app.js:383-385 | an amount of 0, of "" or of null is refused |
| SaveExpense.StringZeroAmountPasses | app.js:383-385 | with the other fields present, the string amount "0" is truthy and is accepted |

## Left out

- Training and running the brain.js network (app.js:44-64): a foreign floating-point library. Its effect enters only as the `predict` parameter, applied to the weightage vector.
- `Math.random` (app.js:118): it becomes the `draw` parameter.
- `toFixed(2)` and the tip texts (app.js:73-113): a tip is its template, its category and its percent as a real. This also drops the duplicated sentence in the last template.
- NaN and Infinity. An unknown category makes JavaScript do `undefined += amount`, which creates a NaN-valued key (app.js:34). The model skips such an expense, since only the fifteen keys are ever read. A zero or missing salary (app.js:41, app.js:69) is excluded by requiring `monthlySalary > 0`. Non-numeric amounts are not modelled.
- BuildCategoryAmounts: real addition is associative, so the model does not capture double-precision rounding differences between summation orders.
- The /getSavingTip route (app.js:148-176) passes the whole user document from `User.findOne` as `monthlySalary`, not a number. The model takes a numeric salary instead and does not model this mismatch.
- `parseInt` yielding NaN for page or limit (app.js:599-600): page and limit are integers in the model.
- Paginate: page, limit, `page * limit`, `(page - 1) * limit`, `page + 1` and `page - 1` are JavaScript doubles, which round above 2^53; the model computes them exactly, so it agrees with the code only while all of them stay below 2^53 in magnitude. A `parseInt` result of Infinity (a very long digit string) is not modelled either.
- The database reads (`User.find`, `Expense.aggregate`, `Expense.create`) and its answers or errors. This includes the month `$switch` tables (app.js:186-235), which run inside the database.
- SaveExpense.HandleSaveExpense: a NaN amount (falsy in JavaScript) is not modelled, because `real` has no NaN.
- Express setup and routing, bcrypt, JWT, nodemailer, the date arithmetic of the daily expense routes, `/getAllUser` and `/deleteUser`, image upload and retrieval, and `app.listen` (app.js:121-595 and app.js:623-625, apart from the parts above): these are direct pass-throughs to libraries or the store.
- userDetails.js: it holds only schema declarations, with no behaviour.
