/**
 The `Sale` record of the analytics app: the only entity the views read.

 Amounts are exact integer cents (the schema stores a decimal with two
 fractional digits), dates are integer day numbers, and the description is
 a character sequence.
 */
module Sales {

  /**
   The four product categories of the schema's choices. A closed datatype
   assumes every stored sale carries one of them: the ORM's save and bulk
   insert paths do not validate choices, so this is an assumption about the
   store's contents, not something the app enforces.
   */
  datatype Category = ELEC | FOOD | BOOK | CLOT

  /** The stored code of a category: what the views put in chart labels. */
  function Code(c: Category): (r: string)
    ensures |r| == 4
  {
    match c
    case ELEC => "ELEC"
    case FOOD => "FOOD"
    case BOOK => "BOOK"
    case CLOT => "CLOT"
  }

  /** Distinct categories have distinct codes, so a code names one category. */
  lemma CodeInjective(c: Category, d: Category)
    ensures Code(c) == Code(d) ==> c == d
  {
  }

  const AllCategories: set<Category> := {ELEC, FOOD, BOOK, CLOT}

  // The column limits below document the schema only; nothing in the views
  // relies on them, and the ORM's write paths do not check them.

  /** The description column holds at most this many characters. */
  const MaxDescriptionLength: nat := 100

  /** Ten decimal digits, two of them after the point: |cents| stays below 10^10. */
  const AmountCentsBound: int := 10_000_000_000

  datatype Sale = Sale(category: Category, amount: int, date: int, description: string)

  /** What the schema lets the store hold. */
  predicate ValidSale(s: Sale)
  {
    && |s.description| <= MaxDescriptionLength
    && -AmountCentsBound < s.amount < AmountCentsBound
  }

  /** Sum of the amounts of a sequence of sales (recursion on the last element). */
  function TotalAmount(sales: seq<Sale>): int
  {
    if sales == [] then 0 else TotalAmount(sales[..|sales| - 1]) + sales[|sales| - 1].amount
  }

  /** The grouping keys the views use. */
  function SaleDate(s: Sale): int { s.date }

  function SaleCategory(s: Sale): Category { s.category }
}
