/**
 * The if/else cascade that turns one category's weightage and percent of
 * salary into one of nine tip templates (app.js:72-114). The first branch
 * whose test succeeds decides the template.
 */
module TipCascade {

  import opened Optional
  import opened Categories

  /** The nine tip templates, in the order in which the cascade tries them. */
  datatype TipKind =
    | SpentVeryLittle       // "You spent very little on ..."
    | SpentSomeSpendMore    // "You spent some money on ... spend a bit more"
    | DidNotSpendMuch       // "You didn't spend much on ..."
    | VerySmallAmount       // "You spent a very small amount on ..."
    | ModerateAmount        // "You spent a moderate amount on ..."
    | SpentALot             // "You spent a lot on ..."
    | SpentQuiteABit        // "You spent quite a bit on ..."
    | KeepAnEye             // "You spent some money on ... Keep an eye"
    | DidNotSpendAnything   // "You didn't spend anything on ..."

  /**
   * `weightage > t` in JavaScript. A weightage the network did not produce is
   * `undefined` (None here), and every comparison with it is false.
   */
  predicate Above(weightage: Option<real>, t: real)
  {
    weightage.Some? && weightage.value > t
  }

  /** The categories the cascade sends to the "moderate amount" template. */
  predicate ReviewCategory(category: string)
  {
    category == Hospital || category == RentOrMortgage || category == Insurance
  }

  /**
   * The cascade itself. Each template is chosen exactly on the region left
   * over by the tests before it.
   */
  function Classify(category: string, weightage: Option<real>, percent: real): (k: TipKind)
    ensures k == SpentVeryLittle <==> Above(weightage, 0.5)
    ensures k == SpentSomeSpendMore <==> !Above(weightage, 0.5) && Above(weightage, 0.25)
    ensures k == DidNotSpendMuch <==> !Above(weightage, 0.25) && Above(weightage, 0.1)
    ensures k == VerySmallAmount <==> !Above(weightage, 0.1) && Above(weightage, 0.05)
    ensures k == ModerateAmount <==> !Above(weightage, 0.05) && ReviewCategory(category)
    ensures k == SpentALot <==> !Above(weightage, 0.05) && !ReviewCategory(category) && percent > 30.0
    ensures k == SpentQuiteABit
        <==> !Above(weightage, 0.05) && !ReviewCategory(category) && 20.0 < percent <= 30.0
    ensures k == KeepAnEye
        <==> !Above(weightage, 0.05) && !ReviewCategory(category) && 10.0 < percent <= 20.0
    ensures k == DidNotSpendAnything
        <==> !Above(weightage, 0.05) && !ReviewCategory(category) && percent <= 10.0
  {
    if Above(weightage, 0.5) then SpentVeryLittle
    else if Above(weightage, 0.25) then SpentSomeSpendMore
    else if Above(weightage, 0.1) then DidNotSpendMuch
    else if Above(weightage, 0.05) then VerySmallAmount
    else if ReviewCategory(category) then ModerateAmount
    else if percent > 30.0 then SpentALot
    else if percent > 20.0 then SpentQuiteABit
    else if percent > 10.0 then KeepAnEye
    else DidNotSpendAnything
  }

  // ---------------------------------------------------------------------
  // The same decision written as an ordered rule table: a list of
  // (test, template) pairs read top to bottom, first match wins.
  // ---------------------------------------------------------------------

  datatype Guard =
    | WeightageAbove(threshold: real)
    | CategoryOneOf(names: seq<string>)
    | PercentAbove(threshold: real)
    | Otherwise

  datatype Rule = Rule(guard: Guard, kind: TipKind)

  predicate Holds(g: Guard, category: string, weightage: Option<real>, percent: real)
  {
    match g
    case WeightageAbove(t) => Above(weightage, t)
    case CategoryOneOf(names) => category in names
    case PercentAbove(t) => percent > t
    case Otherwise => true
  }

  const TipRules: seq<Rule> := [
    Rule(WeightageAbove(0.5), SpentVeryLittle),
    Rule(WeightageAbove(0.25), SpentSomeSpendMore),
    Rule(WeightageAbove(0.1), DidNotSpendMuch),
    Rule(WeightageAbove(0.05), VerySmallAmount),
    Rule(CategoryOneOf([Hospital, RentOrMortgage, Insurance]), ModerateAmount),
    Rule(PercentAbove(30.0), SpentALot),
    Rule(PercentAbove(20.0), SpentQuiteABit),
    Rule(PercentAbove(10.0), KeepAnEye),
    Rule(Otherwise, DidNotSpendAnything)
  ]

  /** The template of the first rule whose test holds, if any does. */
  function FirstMatch(rules: seq<Rule>, category: string, weightage: Option<real>, percent: real): (r: Option<TipKind>)
    ensures r.None? <==> forall i :: 0 <= i < |rules| ==> !Holds(rules[i].guard, category, weightage, percent)
    ensures r.Some? ==>
      exists i :: 0 <= i < |rules| && Holds(rules[i].guard, category, weightage, percent)
        && rules[i].kind == r.value
        && forall j :: 0 <= j < i ==> !Holds(rules[j].guard, category, weightage, percent)
  {
    if rules == [] then None
    else if Holds(rules[0].guard, category, weightage, percent) then
      Some(rules[0].kind)
    else
      var r := FirstMatch(rules[1..], category, weightage, percent);
      assert forall i :: 1 <= i < |rules| ==> rules[i] == rules[1..][i - 1];
      if r.Some? then
        var i :| 0 <= i < |rules[1..]| && Holds(rules[1..][i].guard, category, weightage, percent)
          && rules[1..][i].kind == r.value
          && forall j :: 0 <= j < i ==> !Holds(rules[1..][j].guard, category, weightage, percent);
        assert Holds(rules[i + 1].guard, category, weightage, percent) && rules[i + 1].kind == r.value;
        assert forall j :: 0 <= j < i + 1 ==> !Holds(rules[j].guard, category, weightage, percent);
        r
      else r
  }

  /** The cascade agrees with the rule table on every input, and the table always decides. */
  lemma ClassifyIsFirstMatchingRule(category: string, weightage: Option<real>, percent: real)
    ensures FirstMatch(TipRules, category, weightage, percent) == Some(Classify(category, weightage, percent))
  {
    var k := Classify(category, weightage, percent);
    var r := FirstMatch(TipRules, category, weightage, percent);
    assert Holds(TipRules[8].guard, category, weightage, percent);
    var i :| 0 <= i < |TipRules| && Holds(TipRules[i].guard, category, weightage, percent)
      && TipRules[i].kind == r.value
      && forall j :: 0 <= j < i ==> !Holds(TipRules[j].guard, category, weightage, percent);
    assert ReviewCategory(category) <==> category in [Hospital, RentOrMortgage, Insurance];
    if i == 0 { assert r.value == k; }
    else if i == 1 { assert !Holds(TipRules[0].guard, category, weightage, percent); }
    else if i == 2 { assert !Holds(TipRules[1].guard, category, weightage, percent); }
    else if i == 3 { assert !Holds(TipRules[2].guard, category, weightage, percent); }
    else if i == 4 { assert !Holds(TipRules[3].guard, category, weightage, percent); }
    else if i == 5 { assert !Holds(TipRules[3].guard, category, weightage, percent) && !Holds(TipRules[4].guard, category, weightage, percent); }
    else if i == 6 { assert !Holds(TipRules[3].guard, category, weightage, percent) && !Holds(TipRules[4].guard, category, weightage, percent) && !Holds(TipRules[5].guard, category, weightage, percent); }
    else if i == 7 { assert !Holds(TipRules[3].guard, category, weightage, percent) && !Holds(TipRules[4].guard, category, weightage, percent) && !Holds(TipRules[6].guard, category, weightage, percent); }
    else { assert !Holds(TipRules[3].guard, category, weightage, percent) && !Holds(TipRules[4].guard, category, weightage, percent) && !Holds(TipRules[7].guard, category, weightage, percent); }
  }

  /** The four weightage branches look only at the weightage, never at the category or the percent. */
  lemma WeightageBranchesIgnorePercent(c1: string, c2: string, weightage: Option<real>, p1: real, p2: real)
    requires Above(weightage, 0.05)
    ensures Classify(c1, weightage, p1) == Classify(c2, weightage, p2)
    ensures Classify(c1, weightage, p1) in {SpentVeryLittle, SpentSomeSpendMore, DidNotSpendMuch, VerySmallAmount}
  {
  }

  /**
   * Among the fifteen categories, the "moderate amount" template goes to
   * exactly "Rent or Mortgage" and "Insurance" when the weightage is not
   * above 0.05, whatever the percent: the "Hospital" test never succeeds.
   */
  lemma ModerateOnlyForRentAndInsurance(category: string, weightage: Option<real>, percent: real)
    requires category in CategoryList
    ensures Classify(category, weightage, percent) == ModerateAmount
        <==> !Above(weightage, 0.05) && (category == RentOrMortgage || category == Insurance)
  {
    CategoryListFacts();
  }
}
