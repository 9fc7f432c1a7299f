/**
 * The fixed, ordered list of the fifteen spending categories that the
 * money-saving-tip generator works over (app.js:10-26).
 */
module Categories {

  const FoodAndDrinks: string := "Food and Drinks"
  const Groceries: string := "Groceries"
  const RentOrMortgage: string := "Rent or Mortgage"
  const Utilities: string := "Utilities"
  const Transportation: string := "Transportation"
  const PersonalCare: string := "Personal care"
  const ClothingAndAccessories: string := "Clothing and Accessories"
  const Entertainment: string := "Entertainment"
  const Travel: string := "Travel"
  const GiftsAndDonations: string := "Gifts and Donations"
  const MedicalAndHealth: string := "Medical and Health"
  const Insurance: string := "Insurance"
  const Education: string := "Education"
  const HomeMaintenance: string := "Home Maintenance and Repairs"
  const Miscellaneous: string := "Miscellaneous"

  /** Compared against by the cascade (app.js:89), but not one of the fifteen categories. */
  const Hospital: string := "Hospital"

  /** The categories, in the order in which the generator visits them. */
  const CategoryList: seq<string> := [
    FoodAndDrinks, Groceries, RentOrMortgage, Utilities, Transportation,
    PersonalCare, ClothingAndAccessories, Entertainment, Travel,
    GiftsAndDonations, MedicalAndHealth, Insurance, Education,
    HomeMaintenance, Miscellaneous
  ]

  const CategoryCount: nat := 15

  /** No category appears twice in a list. */
  predicate Distinct(cs: seq<string>)
  {
    forall i, j :: 0 <= i < j < |cs| ==> cs[i] != cs[j]
  }

  /** The list has fifteen entries, no two alike, and "Hospital" is not one of them. */
  lemma CategoryListFacts()
    ensures |CategoryList| == CategoryCount
    ensures Distinct(CategoryList)
    ensures Hospital !in CategoryList
  {
  }
}
