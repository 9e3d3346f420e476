/** The fixed category taxonomy of the transaction form: the categories offered for
    each transaction type, and the subcategories of each expense category. */
module Taxonomy {
  import opened JsValues

  datatype TxType = Income | Expense

  /** The string the schema's `type` enum uses for each transaction type. */
  function TypeName(t: TxType): string {
    match t
    case Income => "income"
    case Expense => "expense"
  }

  /** The transaction type a string names, if any. */
  function TypeOfName(s: string): (r: Option<TxType>)
    ensures r.Some? ==> TypeName(r.value) == s
  {
    if s == "income" then Some(Income)
    else if s == "expense" then Some(Expense)
    else None
  }

  lemma TypeNameRoundTrip(t: TxType)
    ensures TypeOfName(TypeName(t)) == Some(t)
  {
  }

  const IncomeCategories: seq<string> :=
    ["Salary/wages", "Bonuses and commissions", "Investment income", "Side business revenue"]

  const ExpenseCategories: seq<string> := [
    "Housing & Utilities",
    "Transportation",
    "Food & Groceries",
    "Healthcare",
    "Personal Care",
    "Savings & Financial Goals",
    "Insurance & Protection",
    "Entertainment & Recreation",
    "Miscellaneous"
  ]

  const SubcategoryTable: map<string, seq<string>> := map[
    "Housing & Utilities" := ["Rent/mortgage payments", "Electricity, water, gas", "Internet and phone", "Home maintenance/repairs", "Home insurance", "Property taxes"],
    "Transportation" := ["Car payment", "Auto insurance", "Gas/fuel", "Vehicle maintenance", "Public transit/rideshare", "Parking fees"],
    "Food & Groceries" := ["Groceries", "Restaurants/takeout", "Coffee shops", "Meal delivery"],
    "Healthcare" := ["Health insurance premiums", "Medications", "Doctor visits", "Dental care", "Vision care", "Medical supplies"],
    "Personal Care" := ["Haircuts/grooming", "Clothing", "Laundry/dry cleaning", "Gym membership", "Personal hygiene items"],
    "Savings & Financial Goals" := ["Emergency fund", "Retirement accounts", "Investment contributions", "Specific savings goals", "Debt repayment"],
    "Insurance & Protection" := ["Life insurance", "Disability insurance", "Renters/homeowners insurance", "Identity theft protection"],
    "Entertainment & Recreation" := ["Streaming services", "Hobbies", "Movies/concerts/events", "Sports/recreation", "Books/media"],
    "Miscellaneous" := ["Gifts", "Charitable donations", "Pet expenses", "Education/courses", "Professional dues", "Banking fees"]
  ]

  /** No name occurs twice (the select renders each name as a React key). */
  predicate Distinct(s: seq<string>) {
    forall i, j :: 0 <= i < j < |s| ==> s[i] != s[j]
  }

  /** The category list offered for a transaction type. */
  function Categories(t: TxType): seq<string> {
    match t
    case Income => IncomeCategories
    case Expense => ExpenseCategories
  }

  /** The subcategory list of a category: its table entry, or empty when it has none. */
  function SubcategoriesFor(category: string): (r: seq<string>)
    ensures r != [] <==> category in ExpenseCategories
  {
    SubcategoryKeysAreExpenseCategories();
    if category in SubcategoryTable then SubcategoryTable[category] else []
  }

  /** The keys of the subcategory table are exactly the expense categories. */
  lemma SubcategoryKeysAreExpenseCategories()
    ensures forall c :: c in SubcategoryTable <==> c in ExpenseCategories
    ensures forall c :: c in SubcategoryTable ==> SubcategoryTable[c] != []
  {
  }

  /** Each type has a fixed, non-empty list of distinct names: 4 for income, 9 for expense. */
  lemma CategoriesShape(t: TxType)
    ensures |Categories(t)| == (if t == Income then 4 else 9)
    ensures Distinct(Categories(t))
  {
  }

  /** No category is offered for both types. */
  lemma CategoryListsDisjoint(c: string)
    ensures !(c in IncomeCategories && c in ExpenseCategories)
  {
  }

  /** No income category has subcategories. */
  lemma IncomeCategoriesHaveNoSubcategories(c: string)
    requires c in Categories(Income)
    ensures c !in SubcategoryTable && SubcategoriesFor(c) == []
  {
  }

  /** Every subcategory list is free of repeated names. */
  lemma SubcategoryListsDistinct(c: string)
    ensures Distinct(SubcategoriesFor(c))
  {
  }
}
