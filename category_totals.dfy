/**
 * Per-category totals of a user's expenses (app.js:28-35): every one of the
 * fifteen categories starts at zero and each expense adds its amount to the
 * total of its own category.
 */
module CategoryTotals {

  import opened Categories

  /** One aggregated expense row as the generator receives it. */
  datatype Expense = Expense(category: string, amount: real)

  /** What one expense contributes to the total of category `c`. */
  function Contribution(e: Expense, c: string): real
  {
    if e.category == c then e.amount else 0.0
  }

  /**
   * The amount spent on category `c`: the sum of `amount` over the expenses
   * whose category is `c`, accumulated in list order.
   */
  function Spent(expenses: seq<Expense>, c: string): real
    decreases |expenses|
  {
    if expenses == [] then 0.0
    else Spent(expenses[..|expenses| - 1], c) + Contribution(expenses[|expenses| - 1], c)
  }

  /** The sum of the amounts of the expenses whose category is one of the fifteen. */
  function RecognizedTotal(expenses: seq<Expense>): real
    decreases |expenses|
  {
    if expenses == [] then 0.0
    else
      var e := expenses[|expenses| - 1];
      RecognizedTotal(expenses[..|expenses| - 1]) + (if e.category in CategoryList then e.amount else 0.0)
  }

  /** The sum of `Spent(expenses, c)` over the categories `cs`. */
  function SpentOverCategories(expenses: seq<Expense>, cs: seq<string>): real
    decreases |cs|
  {
    if cs == [] then 0.0 else Spent(expenses, cs[0]) + SpentOverCategories(expenses, cs[1..])
  }

  /**
   * Builds the `categoryAmounts` dictionary: first every category is set to
   * zero, then each expense whose category is a key adds its amount to it.
   * The result has exactly the fifteen categories as keys, each holding the
   * category's spend.
   */
  method BuildCategoryAmounts(expenses: seq<Expense>) returns (amounts: map<string, real>)
    ensures forall c :: c in amounts <==> c in CategoryList
    ensures forall c :: c in amounts ==> amounts[c] == Spent(expenses, c)
  {
    amounts := map[];
    for i := 0 to |CategoryList|
      invariant forall c :: c in amounts <==> c in CategoryList[..i]
      invariant forall c :: c in amounts ==> amounts[c] == 0.0
    {
      amounts := amounts[CategoryList[i] := 0.0];
    }
    assert CategoryList[..|CategoryList|] == CategoryList;
    for j := 0 to |expenses|
      invariant forall c :: c in amounts <==> c in CategoryList
      invariant forall c :: c in amounts ==> amounts[c] == Spent(expenses[..j], c)
    {
      var e := expenses[j];
      assert expenses[..j + 1][..j] == expenses[..j];
      if e.category in amounts {
        amounts := amounts[e.category := amounts[e.category] + e.amount];
      }
    }
    assert expenses[..|expenses|] == expenses;
  }

  /** Totals over a concatenation are the sums of the totals of the parts. */
  lemma {:induction false} SpentAppend(a: seq<Expense>, b: seq<Expense>, c: string)
    ensures Spent(a + b, c) == Spent(a, c) + Spent(b, c)
    decreases |b|
  {
    if b == [] {
      assert a + b == a;
    } else {
      var b' := b[..|b| - 1];
      assert (a + b)[..|a + b| - 1] == a + b';
      SpentAppend(a, b', c);
    }
  }

  /** Expenses none of which is in category `c` leave the total of `c` unchanged. */
  lemma {:induction false} SpentIgnoresOtherCategories(expenses: seq<Expense>, extra: seq<Expense>, c: string)
    requires forall k :: 0 <= k < |extra| ==> extra[k].category != c
    ensures Spent(expenses + extra, c) == Spent(expenses, c)
    ensures Spent(extra + expenses, c) == Spent(expenses, c)
  {
    SpentAppend(expenses, extra, c);
    SpentAppend(extra, expenses, c);
    SpentOfNone(extra, c);
  }

  lemma {:induction false} SpentOfNone(extra: seq<Expense>, c: string)
    requires forall k :: 0 <= k < |extra| ==> extra[k].category != c
    ensures Spent(extra, c) == 0.0
    decreases |extra|
  {
    if extra != [] {
      SpentOfNone(extra[..|extra| - 1], c);
    }
  }

  /** An expense whose category is not one of the fifteen changes none of the fifteen totals. */
  lemma UnknownCategoryChangesNoTotal(expenses: seq<Expense>, e: Expense, c: string)
    requires e.category !in CategoryList
    requires c in CategoryList
    ensures Spent(expenses + [e], c) == Spent(expenses, c)
  {
    SpentIgnoresOtherCategories(expenses, [e], c);
  }

  /** Removing the expense at position `k` takes away exactly its contribution. */
  lemma {:induction false} SpentRemove(expenses: seq<Expense>, k: nat, c: string)
    requires k < |expenses|
    ensures Spent(expenses, c) == Spent(expenses[..k] + expenses[k + 1..], c) + Contribution(expenses[k], c)
  {
    assert expenses == expenses[..k] + ([expenses[k]] + expenses[k + 1..]);
    SpentAppend(expenses[..k], [expenses[k]] + expenses[k + 1..], c);
    SpentAppend([expenses[k]], expenses[k + 1..], c);
    SpentAppend(expenses[..k], expenses[k + 1..], c);
    assert [expenses[k]][..0] == [];
  }

  /** The totals do not depend on the order of the expenses. */
  lemma {:induction false} SpentPermutation(a: seq<Expense>, b: seq<Expense>, c: string)
    requires multiset(a) == multiset(b)
    ensures Spent(a, c) == Spent(b, c)
    decreases |a|
  {
    if a == [] {
      assert |b| == |multiset(b)| == 0;
    } else {
      var x := a[|a| - 1];
      var a' := a[..|a| - 1];
      assert a == a' + [x];
      assert x in multiset(b);
      var k :| 0 <= k < |b| && b[k] == x;
      var b' := b[..k] + b[k + 1..];
      assert b == b[..k] + [x] + b[k + 1..];
      assert multiset(b) == multiset(b[..k]) + multiset{x} + multiset(b[k + 1..]);
      assert multiset(b') == multiset(b[..k]) + multiset(b[k + 1..]);
      assert multiset(a) == multiset(a') + multiset{x};
      assert multiset(a') == multiset(a) - multiset{x};
      assert multiset(b') == multiset(b) - multiset{x};
      SpentPermutation(a', b', c);
      SpentRemove(b, k, c);
    }
  }

  /** Adding one expense shifts the category-wise sum by what it contributes to the fifteen. */
  lemma {:induction false} SpentOverCategoriesStep(expenses: seq<Expense>, e: Expense, cs: seq<string>)
    requires Distinct(cs)
    ensures SpentOverCategories(expenses + [e], cs)
         == SpentOverCategories(expenses, cs) + (if e.category in cs then e.amount else 0.0)
    decreases |cs|
  {
    if cs != [] {
      assert (expenses + [e])[..|expenses + [e]| - 1] == expenses;
      assert Distinct(cs[1..]);
      SpentOverCategoriesStep(expenses, e, cs[1..]);
      assert e.category in cs <==> e.category == cs[0] || e.category in cs[1..];
      assert e.category == cs[0] ==> e.category !in cs[1..];
    }
  }

  lemma {:induction false} SpentOverNoExpenses(cs: seq<string>)
    ensures SpentOverCategories([], cs) == 0.0
    decreases |cs|
  {
    if cs != [] { SpentOverNoExpenses(cs[1..]); }
  }

  /**
   * The fifteen totals add up to the sum of the amounts of the expenses in
   * recognised categories; expenses in any other category contribute nothing.
   */
  lemma {:induction false} TotalsSumToRecognizedSpend(expenses: seq<Expense>)
    ensures SpentOverCategories(expenses, CategoryList) == RecognizedTotal(expenses)
    decreases |expenses|
  {
    if expenses == [] {
      SpentOverNoExpenses(CategoryList);
    } else {
      var e := expenses[|expenses| - 1];
      var rest := expenses[..|expenses| - 1];
      assert expenses == rest + [e];
      CategoryListFacts();
      TotalsSumToRecognizedSpend(rest);
      SpentOverCategoriesStep(rest, e, CategoryList);
    }
  }
}
