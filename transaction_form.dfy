/** The transaction import form (`TransactionImport`): the selected file kind, the
    last imported data and the editable form values, the update a completed import
    makes to them, and the category and subcategory options the selects derive
    from the current values. */
module TransactionForm {
  import opened JsValues
  import opened Taxonomy
  import opened TransactionSchema
  import opened ImportAction

  /** The part of the form's state an import can change. */
  datatype FormState = FormState(values: Candidate, importedData: Option<Payload>)

  /** What a settled import does to the form (`handleFileUpload` after its `await`):
      a rejected import throws before any update; an error result is only logged; a
      truthy `data` replaces the form values wholesale and becomes `importedData`. */
  function Merge(s: FormState, outcome: Settled<ImportResult>): FormState {
    match outcome
    case Rejected => s
    case Fulfilled(Error(_)) => s
    case Fulfilled(Data(p)) => if PayloadTruthy(p) then FormState(FieldsOf(p), Some(p)) else s
  }

  /** A whole upload: with no file chosen nothing happens; otherwise the file and the
      selected kind go to the import action and its outcome is merged. */
  function Upload(s: FormState, fileType: string, file: Option<File>, ps: Parsers): FormState {
    if file.None? then s
    else Merge(s, ImportTransaction(FormData(file, Some(fileType)), ps).outcome)
  }

  /** Only a fulfilled, truthy `data` result changes the form. */
  lemma MergeKeepsStateUnlessData(s: FormState, outcome: Settled<ImportResult>)
    ensures Merge(s, outcome) != s ==>
      outcome.Fulfilled? && outcome.value.Data? && PayloadTruthy(outcome.value.data)
  {
  }

  /** A truthy `data` result overwrites both the values and `importedData`, whatever
      they were: edits made before the import are discarded. */
  lemma MergeOverwritesWholesale(s1: FormState, s2: FormState, p: Payload)
    requires PayloadTruthy(p)
    ensures Merge(s1, Fulfilled(Data(p))) == Merge(s2, Fulfilled(Data(p)))
    ensures Merge(s1, Fulfilled(Data(p))) == FormState(FieldsOf(p), Some(p))
  {
  }

  /** Importing the same outcome twice is the same as importing it once. */
  lemma MergeIdempotent(s: FormState, outcome: Settled<ImportResult>)
    ensures Merge(Merge(s, outcome), outcome) == Merge(s, outcome)
  {
  }

  /** An object payload sets exactly its fields, so the form shows what the parser returned. */
  lemma ObjectImportShowsParsedFields(s: FormState, c: Candidate)
    ensures Merge(s, Fulfilled(Data(Object(c)))).values == c
  {
  }

  /** With a kind the form's select offers, an upload never produces an error result;
      it ends in the chosen parser's outcome. */
  lemma UploadFromFormReachesParser(s: FormState, k: FileKind, f: File, ps: Parsers)
    ensures Upload(s, KindName(k), Some(f), ps) ==
      match Invoke(ps, ParserFor(k), f)
      case Rejected => s
      case Fulfilled(p) => Merge(s, Fulfilled(Data(p)))
  {
    KnownKindCallsItsParser(f, k, ps);
  }

  class TransactionImport {
    var fileType: string
    var importedData: Option<Payload>
    var formValues: Candidate

    /** The selected kind is always one the import action recognises. */
    ghost predicate Valid()
      reads this
    {
      KindOf(Some(fileType)).Some?
    }

    function State(): FormState
      reads this
    {
      FormState(formValues, importedData)
    }

    /** The category select's options, derived from the current `type` on each render. */
    function CategoryChoices(): seq<string>
      reads this
    {
      CategoryOptions(formValues.txType)
    }

    /** The subcategory select's options, derived from the current `category` on each render. */
    function SubcategoryChoices(): seq<string>
      reads this
    {
      SubcategoryOptions(formValues.category)
    }

    /** A fresh form: bank statement selected, nothing imported, default values for
        the given current date and time. */
    constructor (today: string, now: string)
      ensures Valid() && fileType == KindName(BankStatement)
      ensures State() == FormState(Defaults(today, now), None)
    {
      fileType := KindName(BankStatement);
      importedData := None;
      formValues := Defaults(today, now);
    }

    /** The file-kind select. */
    method SelectFileType(k: FileKind)
      modifies this`fileType
      ensures fileType == KindName(k) && Valid()
    {
      fileType := KindName(k);
      KindNameRoundTrip(k);
    }

    /** A user edit of one form field. */
    method EditField(f: Field, v: Value)
      modifies this`formValues
      ensures formValues == Set(old(formValues), f, v)
    {
      formValues := Set(formValues, f, v);
    }

    /** The file input's change handler. `calls` records the parsers the import invoked. */
    method HandleFileUpload(file: Option<File>, ps: Parsers) returns (ghost calls: seq<Parser>)
      modifies this`formValues, this`importedData
      ensures State() == Upload(old(State()), fileType, file, ps)
      ensures file.None? ==> calls == [] && State() == old(State())
      ensures Valid() && file.Some? ==> calls == [ParserFor(KindOf(Some(fileType)).value)]
    {
      if file.None? {
        return [];
      }
      var run := ImportTransaction(FormData(file, Some(fileType)), ps);
      calls := run.calls;
      if Valid() {
        KnownKindCallsItsParser(file.value, KindOf(Some(fileType)).value, ps);
      }
      if run.outcome.Rejected? {
        return;
      }
      var result := run.outcome.value;
      if result.Error? && result.message != "" {
        // the message is logged; the form is left as it was
      } else if result.Data? && PayloadTruthy(result.data) {
        importedData := Some(result.data);
        formValues := FieldsOf(result.data);
      }
    }
  }

  /** What rendering a select's options yields: the option names, or a `TypeError`
      thrown while rendering. */
  datatype Rendered<+T> = Items(items: T) | TypeError

  /** The category options as written: `categories[type].map(...)` indexes the table
      with the current `type` and calls `map` on whatever it finds. */
  function CategoryOptionsAsWritten(typeValue: Value): Rendered<seq<string>> {
    match PropertyKey(typeValue)
    case None => TypeError
    case Some(k) =>
      if k == "income" then Items(IncomeCategories)
      else if k == "expense" then Items(ExpenseCategories)
      else TypeError
  }

  /** The category options: the list of the current type, none for any other value. */
  function CategoryOptions(typeValue: Value): seq<string> {
    match PropertyKey(typeValue)
    case None => []
    case Some(k) =>
      match TypeOfName(k)
      case None => []
      case Some(t) => Categories(t)
  }

  /** The options follow the type: exactly the 4 income or the 9 expense categories. */
  lemma CategoryOptionsFollowType(t: TxType)
    ensures CategoryOptions(Str(TypeName(t))) == Categories(t)
    ensures CategoryOptionsAsWritten(Str(TypeName(t))) == Items(Categories(t))
  {
    TypeNameRoundTrip(t);
  }

  /** As written, any `type` other than "income" or "expense" makes rendering throw;
      where it does not throw it agrees with `CategoryOptions`. */
  lemma CategoryOptionsAsWrittenThrows(v: Value)
    ensures CategoryOptionsAsWritten(v) == TypeError <==> CategoryOptions(v) == []
    ensures CategoryOptionsAsWritten(v).Items? ==> CategoryOptionsAsWritten(v).items == CategoryOptions(v)
  {
  }

  /** An import whose object has no `type`, or an unknown one, leaves the category
      select unrenderable as written. */
  lemma ImportWithoutTypeBreaksCategorySelect(s: FormState, k: FileKind, f: File, ps: Parsers, c: Candidate)
    requires Invoke(ps, ParserFor(k), f) == Fulfilled(Object(c))
    requires c.txType.Undefined? || (c.txType.Str? && TypeOfName(c.txType.s).None?)
    ensures Upload(s, KindName(k), Some(f), ps).values == c
    ensures CategoryOptionsAsWritten(c.txType) == TypeError
  {
    UploadFromFormReachesParser(s, k, f, ps);
    CategoryOptionsAsWrittenThrows(c.txType);
  }

  /** The subcategory options as written: `category && subcategories[category]?.map(...)`;
      the optional chain guards only a missing entry, not an inherited member. */
  function SubcategoryOptionsAsWritten(category: Value): Rendered<seq<string>> {
    if !Truthy(category) then Items([])
    else
      match PropertyKey(category)
      case None => Items([])
      case Some(k) =>
        if k in SubcategoryTable then Items(SubcategoryTable[k])
        else if k in InheritedMembers then TypeError
        else Items([])
  }

  /** The subcategory options: the table's own entry for the current category, and
      none when the category is falsy or has no entry. */
  function SubcategoryOptions(category: Value): seq<string> {
    if !Truthy(category) then []
    else
      match PropertyKey(category)
      case None => []
      case Some(k) => SubcategoriesFor(k)
  }

  /** For a category string: no options for '' or a name without an entry, otherwise
      the listed sequence; options exist only for expense categories. */
  lemma SubcategoryOptionsForName(c: string)
    ensures SubcategoryOptions(Str(c)) == (if c in SubcategoryTable then SubcategoryTable[c] else [])
    ensures SubcategoryOptions(Str(c)) != [] <==> c in ExpenseCategories
  {
    SubcategoryKeysAreExpenseCategories();
  }

  /** An income category offers no subcategories. */
  lemma IncomeCategoryOffersNoSubcategories(c: string)
    requires c in Categories(Income)
    ensures SubcategoryOptions(Str(c)) == [] && SubcategoryOptionsAsWritten(Str(c)) == Items([])
  {
  }

  /** As written, rendering throws exactly for a category naming an inherited member
      such as "constructor"; otherwise it agrees with `SubcategoryOptions`. */
  lemma SubcategoryOptionsAsWrittenThrows(v: Value)
    ensures SubcategoryOptionsAsWritten(v) == TypeError <==>
      Truthy(v) && PropertyKey(v).Some? && PropertyKey(v).value in InheritedMembers
    ensures SubcategoryOptionsAsWritten(v).Items? ==> SubcategoryOptionsAsWritten(v).items == SubcategoryOptions(v)
  {
  }
}
