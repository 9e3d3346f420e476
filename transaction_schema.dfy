/** The validation schema of a transaction (`transactionSchema`): the rules a form
    record must meet before it is submitted, the typed record a successful check
    yields, the form's default record, and a stricter taxonomy check that the
    schema itself does not make. */
module TransactionSchema {
  import opened JsValues
  import opened Taxonomy

  datatype Field = Date | Time | Amount | Type | Category | Subcategory | Description

  /** A form record before validation: one dynamic value per field, `Undefined`
      where the field is absent. */
  datatype Candidate = Candidate(
    date: Value, time: Value, amount: Value, txType: Value,
    category: Value, subcategory: Value, description: Value)

  function Get(c: Candidate, f: Field): Value {
    match f
    case Date => c.date
    case Time => c.time
    case Amount => c.amount
    case Type => c.txType
    case Category => c.category
    case Subcategory => c.subcategory
    case Description => c.description
  }

  /** The record with one field replaced, as a user edit of that field leaves it. */
  function Set(c: Candidate, f: Field, v: Value): (r: Candidate)
    ensures forall g :: Get(r, g) == if g == f then v else Get(c, g)
  {
    match f
    case Date => c.(date := v)
    case Time => c.(time := v)
    case Amount => c.(amount := v)
    case Type => c.(txType := v)
    case Category => c.(category := v)
    case Subcategory => c.(subcategory := v)
    case Description => c.(description := v)
  }

  /** The record whose every field is absent. */
  const Empty: Candidate :=
    Candidate(Undefined, Undefined, Undefined, Undefined, Undefined, Undefined, Undefined)

  /** The rule kinds the schema uses. */
  datatype Rule =
    | AnyString                     // z.string()
    | PositiveNumber                // z.number().positive()
    | OneOf(options: seq<string>)   // z.enum([...])
    | Optional(inner: Rule)         // <rule>.optional()

  predicate Accepts(rule: Rule, v: Value) {
    match rule
    case AnyString => v.Str?
    case PositiveNumber => v.Num? && v.n > 0.0
    case OneOf(options) => v.Str? && v.s in options
    case Optional(inner) => v.Undefined? || Accepts(inner, v)
  }

  /** The schema as declared: each field with its rule, in declaration order. */
  const Shape: seq<(Field, Rule)> := [
    (Date, AnyString),
    (Time, AnyString),
    (Amount, PositiveNumber),
    (Type, OneOf(["income", "expense"])),
    (Category, AnyString),
    (Subcategory, AnyString),
    (Description, Optional(AnyString))
  ]

  /** The fields of `c` that fail their rule in `shape`, in declaration order: the
      field-level messages the form shows. */
  function Issues(shape: seq<(Field, Rule)>, c: Candidate): (r: seq<Field>)
    ensures |r| <= |shape|
    ensures forall f :: f in r <==>
      exists i :: 0 <= i < |shape| && shape[i].0 == f && !Accepts(shape[i].1, Get(c, f))
  {
    if shape == [] then []
    else
      var rest := Issues(shape[1..], c);
      assert forall i :: 1 <= i < |shape| ==> shape[i] == shape[1..][i - 1];
      if Accepts(shape[0].1, Get(c, shape[0].0)) then rest else [shape[0].0] + rest
  }

  /** The rule each field must meet, stated independently of `Shape` and `Issues`. */
  predicate FieldOk(c: Candidate, f: Field) {
    match f
    case Date => c.date.Str?
    case Time => c.time.Str?
    case Amount => c.amount.Num? && c.amount.n > 0.0
    case Type => c.txType == Str("income") || c.txType == Str("expense")
    case Category => c.category.Str?
    case Subcategory => c.subcategory.Str?
    case Description => c.description.Undefined? || c.description.Str?
  }

  /** Validity: every field meets its rule. */
  predicate IsValid(c: Candidate) {
    forall f :: FieldOk(c, f)
  }


  /** A record that passed the schema: every field has its inferred type. */
  datatype TransactionRecord = TransactionRecord(
    date: string, time: string, amount: real, txType: TxType,
    category: string, subcategory: string, description: Option<string>)

  /** The invariant the schema guarantees of every record it yields. */
  predicate WellFormed(r: TransactionRecord) {
    r.amount > 0.0
  }

  /** A typed record written back as form values. */
  function ToCandidate(r: TransactionRecord): Candidate {
    Candidate(
      Str(r.date), Str(r.time), Num(r.amount), Str(TypeName(r.txType)),
      Str(r.category), Str(r.subcategory),
      match r.description case None => Undefined case Some(d) => Str(d))
  }

  /** The outcome of checking a record against the schema. */
  datatype ParseResult = Parsed(record: TransactionRecord) | Invalid(issues: seq<Field>)

  /** Checks a form record against `Shape`; a record passes exactly when no field fails. */
  function SafeParse(c: Candidate): (r: ParseResult)
    ensures r.Parsed? ==> WellFormed(r.record) && ToCandidate(r.record) == c
    ensures r.Invalid? ==> r.issues != [] && r.issues == Issues(Shape, c)
  {
    var issues := Issues(Shape, c);
    if issues != [] then Invalid(issues)
    else
      ShapeAcceptsIffValid(c);
      assert FieldOk(c, Date) && FieldOk(c, Time) && FieldOk(c, Amount) && FieldOk(c, Type);
      assert FieldOk(c, Category) && FieldOk(c, Subcategory) && FieldOk(c, Description);
      var t := if c.txType == Str("income") then Income else Expense;
      Parsed(TransactionRecord(
        c.date.s, c.time.s, c.amount.n, t, c.category.s, c.subcategory.s,
        if c.description.Str? then Some(c.description.s) else None))
  }

  /** A field fails the schema exactly when its rule in `FieldOk` fails. */
  lemma FieldIssue(c: Candidate, f: Field)
    ensures f in Issues(Shape, c) <==> !FieldOk(c, f)
  {
    forall j | 0 <= j < |Shape| ensures Position(Shape[j].0) == j {
      ShapeIndexed(j);
    }
    var i := Position(f);
    assert Shape[i].0 == f by { ShapeIndexed(i); }
    assert Accepts(Shape[i].1, Get(c, f)) <==> FieldOk(c, f) by {
      assert "expense"[0] != "income"[0];
    }
  }

  /** Where a field sits in `Shape`. */
  function Position(f: Field): (i: nat)
    ensures i < |Shape| && Shape[i].0 == f
  {
    match f
    case Date => 0
    case Time => 1
    case Amount => 2
    case Type => 3
    case Category => 4
    case Subcategory => 5
    case Description => 6
  }

  /** Each field occurs in `Shape` once, at its `Position`. */
  lemma ShapeIndexed(j: nat)
    requires j < |Shape|
    ensures Position(Shape[j].0) == j
  {
    if j == 0 {} else if j == 1 {} else if j == 2 {} else if j == 3 {}
    else if j == 4 {} else if j == 5 {} else {}
  }

  lemma ShapeAcceptsIffValid(c: Candidate)
    ensures Issues(Shape, c) == [] <==> IsValid(c)
  {
    forall f: Field { FieldIssue(c, f); }
    var issues := Issues(Shape, c);
    if issues != [] {
      assert issues[0] in issues;
    }
    if !IsValid(c) {
      var f :| !FieldOk(c, f);
      assert f in issues;
    }
  }

  /** The schema accepts a record exactly when `IsValid` holds. */
  lemma SafeParseIffValid(c: Candidate)
    ensures SafeParse(c).Parsed? <==> IsValid(c)
  {
    ShapeAcceptsIffValid(c);
  }

  /** Every well-formed typed record passes the schema unchanged. */
  lemma SafeParseRoundTrip(r: TransactionRecord)
    requires WellFormed(r)
    ensures SafeParse(ToCandidate(r)) == Parsed(r)
  {
    var c := ToCandidate(r);
    ShapeAcceptsIffValid(c);
    TypeNameRoundTrip(r.txType);
    assert "expense"[0] != "income"[0];
  }

  /** An amount of zero or below, or one that is not a number, is rejected. */
  lemma NonPositiveAmountRejected(c: Candidate)
    requires !c.amount.Num? || c.amount.n <= 0.0
    ensures Amount in Issues(Shape, c) && SafeParse(c).Invalid?
  {
    FieldIssue(c, Amount);
  }

  /** A type other than the exact strings "income" and "expense" is rejected. */
  lemma TypeOutsideEnumRejected(c: Candidate)
    requires c.txType != Str("income") && c.txType != Str("expense")
    ensures Type in Issues(Shape, c) && SafeParse(c).Invalid?
  {
    FieldIssue(c, Type);
  }

  /** Date, time, category and subcategory must be present strings; description
      may be absent but not `null` or a non-string. */
  lemma PresenceRules(c: Candidate, f: Field)
    requires f in {Date, Time, Category, Subcategory}
    ensures f in Issues(Shape, c) <==> !Get(c, f).Str?
    ensures Description in Issues(Shape, c) <==> !(c.description.Undefined? || c.description.Str?)
  {
    FieldIssue(c, f);
    FieldIssue(c, Description);
  }

  /** The schema does not look at the taxonomy: any strings in category and
      subcategory keep a valid record valid. */
  lemma CategoryNotCheckedAgainstTaxonomy(c: Candidate, category: string, subcategory: string)
    requires IsValid(c)
    ensures SafeParse(c.(category := Str(category), subcategory := Str(subcategory))).Parsed?
  {
    var edited := c.(category := Str(category), subcategory := Str(subcategory));
    forall f ensures FieldOk(edited, f) {
      assert FieldOk(c, f);
    }
    SafeParseIffValid(edited);
  }

  /** The form's initial values; date and time are today's, in `yyyy-MM-dd` and `HH:mm`. */
  function Defaults(today: string, now: string): Candidate {
    Candidate(Str(today), Str(now), Num(0.0), Str("expense"), Str(""), Str(""), Str(""))
  }

  /** The default record fails on its amount and on nothing else. */
  lemma DefaultsFailOnlyOnAmount(today: string, now: string)
    ensures forall f :: f in Issues(Shape, Defaults(today, now)) <==> f == Amount
  {
    forall f: Field { FieldIssue(Defaults(today, now), f); }
  }

  /** Setting a positive amount is all the default record needs to pass. */
  lemma DefaultsPassWithPositiveAmount(today: string, now: string, n: real)
    requires n > 0.0
    ensures SafeParse(Set(Defaults(today, now), Amount, Num(n))).Parsed?
  {
    SafeParseIffValid(Set(Defaults(today, now), Amount, Num(n)));
  }

  /** The stricter check the schema does not make: the category is one offered for
      the record's type, and the subcategory one listed for that category (empty
      when the category has no subcategories). */
  predicate TaxonomyConsistent(r: TransactionRecord) {
    && r.category in Categories(r.txType)
    && (if SubcategoriesFor(r.category) == [] then r.subcategory == ""
        else r.subcategory in SubcategoriesFor(r.category))
  }

  /** Every subcategory the table lists forms a consistent expense record with its category. */
  lemma ListedSubcategoriesConsistent(r: TransactionRecord)
    requires r.txType == Expense && r.category in SubcategoryTable
    requires r.subcategory in SubcategoryTable[r.category]
    ensures TaxonomyConsistent(r)
  {
    SubcategoryKeysAreExpenseCategories();
  }

  /** A consistent income record has an empty subcategory. */
  lemma IncomeRecordsHaveNoSubcategory(r: TransactionRecord)
    requires TaxonomyConsistent(r) && r.txType == Income
    ensures r.subcategory == ""
  {
    IncomeCategoriesHaveNoSubcategories(r.category);
  }

  /** The schema admits records the taxonomy rejects: an expense in "Electronics". */
  lemma SchemaAdmitsOffTaxonomyRecord(today: string, now: string)
    ensures var c := Candidate(Str(today), Str(now), Num(250.5), Str("expense"),
                               Str("Electronics"), Str("Groceries"), Undefined);
            SafeParse(c).Parsed? && !TaxonomyConsistent(SafeParse(c).record)
  {
    var c := Candidate(Str(today), Str(now), Num(250.5), Str("expense"),
                       Str("Electronics"), Str("Groceries"), Undefined);
    SafeParseIffValid(c);
    assert "Electronics" !in ExpenseCategories by {
      assert forall e :: e in ExpenseCategories ==> e[0] != 'E' || e[1] != 'l';
    }
  }
}
