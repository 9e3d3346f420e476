# Transaction import form — a Dafny model

This project models the core of a small personal-finance form. The user picks a
file kind (bank statement, invoice or receipt) and uploads a file. A server action
hands the file to one of three parsers. The parsers' output replaces the form's
values, and the form validates a transaction record against a declarative schema
before it is submitted.

Modules, one per component:

- `JsValues`: the JavaScript values the form handles. It covers `undefined`, `null`,
  booleans, numbers, strings, and objects or arrays. It also defines truthiness, the
  property key a value becomes when it indexes an object, the members every object
  inherits, and how a promise settles.
- `Taxonomy`: the `categories` and `subcategories` tables, and lookups into them.
- `TransactionSchema`: `transactionSchema` written as data. `Shape` lists each field
  with its rule, and `Issues` interprets it. `IsValid` states the same rules field by
  field and is proved equivalent. `SafeParse` yields a typed record, and `ToCandidate`
  round-trips with it. The module also holds the form's default values and a stricter
  taxonomy check, `TaxonomyConsistent`, that the schema itself does not make.
- `ImportAction`: `importTransaction` as a pure function. It returns the settled
  result and the sequence of parsers it invoked. The three parsers are
  function-valued parameters and may reject.
- `TransactionForm`: the `TransactionImport` component as a class. Its fields are
  `fileType`, `importedData` and `formValues`. `Merge` and `Upload` state what an
  import does to that state. The module also has the category and subcategory option
  derivations, both as written and corrected (see Findings).

Three facts about the code shape the model:

- `transactionSchema` checks category and subcategory only as strings. It never
  looks them up in the taxonomy, and the subcategory is a required string.
  `SafeParse` models the schema. `TaxonomyConsistent` is a separate, stricter check.
- A parser failure rejects the action's promise and is never turned into an error
  result. The handler's `await` then throws before any state update, which is
  modelled as `Rejected`.
- The default record fails only on its zero amount. Its empty category passes the
  schema.

## Model

| member | source | states |
|---|---|---|
| `Taxonomy.TypeNameRoundTrip` | app/components/transaction-import.tsx:18 | each transaction type's enum string reads back as that type |
| `Taxonomy.SubcategoriesFor` | app/components/transaction-import.tsx:41-51 | a category has a non-empty subcategory list exactly when it is an expense category |
| `Taxonomy.SubcategoryKeysAreExpenseCategories` | app/components/transaction-import.tsx:26-51 | the subcategory table's keys are exactly the 9 expense categories, each with a non-empty list |
| `Taxonomy.CategoriesShape` | app/components/transaction-import.tsx:26-39 | income has 4 categories and expense 9, with no repeated name in either list |
| `Taxonomy.CategoryListsDisjoint` | app/components/transaction-import.tsx:26-39 | no category is listed for both types |
| `Taxonomy.IncomeCategoriesHaveNoSubcategories` | app/components/transaction-import.tsx:27-51 | no income category has an entry in the subcategory table |
| `Taxonomy.SubcategoryListsDistinct` | app/components/transaction-import.tsx:41-51 | no subcategory list repeats a name |
| `TransactionSchema.Set` | app/components/transaction-import.tsx:150 | a field edit changes that field and leaves every other field as it was |
| `TransactionSchema.Issues` | app/components/transaction-import.tsx:14-22 | a field is reported exactly when the schema lists it with a rule its value fails |
| `TransactionSchema.FieldIssue` | app/components/transaction-import.tsx:14-22 | for each field, the schema reports it exactly when the field-by-field rule fails |
| `TransactionSchema.ShapeAcceptsIffValid` | app/components/transaction-import.tsx:14-22 | no field is reported exactly when the field-by-field validity predicate holds |
| `TransactionSchema.SafeParse` | app/components/transaction-import.tsx:14-24 | a parsed record has a positive amount and writes back to exactly the input; a rejection lists the failing fields |
| `TransactionSchema.SafeParseIffValid` | app/components/transaction-import.tsx:14-22 | the schema accepts a record exactly when the field-by-field rules hold |
| `TransactionSchema.SafeParseRoundTrip` | app/components/transaction-import.tsx:14-24 | every typed record with a positive amount passes the schema unchanged |
| `TransactionSchema.NonPositiveAmountRejected` | app/components/transaction-import.tsx:17 | an amount that is zero, negative or not a number is rejected |
| `TransactionSchema.TypeOutsideEnumRejected` | app/components/transaction-import.tsx:18 | a type other than exactly "income" or "expense" is rejected |
| `TransactionSchema.PresenceRules` | app/components/transaction-import.tsx:15-21 | date, time, category and subcategory must be strings; description may be absent but must otherwise be a string |
| `TransactionSchema.CategoryNotCheckedAgainstTaxonomy` | app/components/transaction-import.tsx:19-20 | any strings in category and subcategory keep a valid record valid |
| `TransactionSchema.DefaultsFailOnlyOnAmount` | app/components/transaction-import.tsx:59-67 | the default record fails on its amount and on no other field |
| `TransactionSchema.DefaultsPassWithPositiveAmount` | app/components/transaction-import.tsx:59-67 | the default record passes once its amount is set to any positive number |
| `TransactionSchema.ListedSubcategoriesConsistent` | app/components/transaction-import.tsx:41-51 | every listed subcategory forms a taxonomy-consistent expense record with its category |
| `TransactionSchema.IncomeRecordsHaveNoSubcategory` | app/components/transaction-import.tsx:26-51 | a taxonomy-consistent income record has an empty subcategory |
| `TransactionSchema.SchemaAdmitsOffTaxonomyRecord` | app/components/transaction-import.tsx:19-20 | the schema accepts an expense in "Electronics", which the taxonomy does not list |
| `ImportAction.KindOf` | app/actions/import-transaction.ts:15-26 | a recognised kind is the one whose name the declared kind string is |
| `ImportAction.KindNameRoundTrip` | app/actions/import-transaction.ts:15-24 | each kind's name is recognised as that kind |
| `ImportAction.ImportTransaction` | app/actions/import-transaction.ts:5-32 | at most one parser runs; no parser runs exactly when the result is an error; a rejection follows a parser call |
| `ImportAction.MissingFileCheckedFirst` | app/actions/import-transaction.ts:9-11 | with no file the result is "No file uploaded", whatever the kind, and no parser runs |
| `ImportAction.UnknownKindCallsNoParser` | app/actions/import-transaction.ts:25-26 | an unrecognised kind gives "Invalid file type" and no parser runs |
| `ImportAction.KnownKindCallsItsParser` | app/actions/import-transaction.ts:15-31 | a recognised kind calls its own parser exactly once and returns its output unchanged as data, or rejects with it |
| `ImportAction.ParserChoiceInjective` | app/actions/import-transaction.ts:15-24 | distinct kinds call distinct parsers |
| `ImportAction.ErrorMessages` | app/actions/import-transaction.ts:9-27 | an error result says "No file uploaded" exactly when the file is missing, and "Invalid file type" exactly when a file is present but the kind is unrecognised |
| `TransactionForm.MergeKeepsStateUnlessData` | app/components/transaction-import.tsx:84-91 | a rejection, an error result or a falsy data result leaves the values and the imported data unchanged |
| `TransactionForm.MergeOverwritesWholesale` | app/components/transaction-import.tsx:88-91 | a truthy data result replaces the values and the imported data, whatever they held before |
| `TransactionForm.MergeIdempotent` | app/components/transaction-import.tsx:84-91 | merging the same outcome twice equals merging it once |
| `TransactionForm.ObjectImportShowsParsedFields` | app/components/transaction-import.tsx:89-90 | an imported object becomes exactly the form values |
| `TransactionForm.UploadFromFormReachesParser` | app/components/transaction-import.tsx:76-91 | with a kind the select offers, an upload never ends in an error result; it applies the chosen parser's outcome |
| `TransactionForm.TransactionImport.constructor` | app/components/transaction-import.tsx:53-68 | a new form has bank statement selected, no imported data, and the default values |
| `TransactionForm.TransactionImport.SelectFileType` | app/components/transaction-import.tsx:99-107 | the selected kind becomes the form's file type, which stays a recognised kind |
| `TransactionForm.TransactionImport.EditField` | app/components/transaction-import.tsx:150 | an edit replaces one field of the form values |
| `TransactionForm.TransactionImport.HandleFileUpload` | app/components/transaction-import.tsx:76-92 | the new state is the upload's merge of the old; with no file nothing changes and no parser runs; otherwise exactly the selected kind's parser runs once |
| `TransactionForm.CategoryOptionsFollowType` | app/components/transaction-import.tsx:192 | the category options for a type are exactly its listed categories, in order |
| `TransactionForm.CategoryOptionsAsWrittenThrows` | app/components/transaction-import.tsx:192 | as written, rendering throws exactly when the type names neither list; otherwise it gives the corrected options |
| `TransactionForm.ImportWithoutTypeBreaksCategorySelect` | app/components/transaction-import.tsx:192 | an imported object with no type, or an unknown one, becomes the form values, and the category select then throws as written |
| `TransactionForm.SubcategoryOptionsForName` | app/components/transaction-import.tsx:217 | a category's subcategory options are its listed sequence, or empty for '' or a name without an entry; they are non-empty exactly for expense categories |
| `TransactionForm.IncomeCategoryOffersNoSubcategories` | app/components/transaction-import.tsx:217 | an income category offers no subcategories, as written and corrected |
| `TransactionForm.SubcategoryOptionsAsWrittenThrows` | app/components/transaction-import.tsx:217 | as written, rendering throws exactly for a truthy category naming an inherited member; otherwise it gives the corrected options |
| `TransactionSchema.Accepts` | app/components/transaction-import.tsx:15-21 | what each rule kind accepts: a string, a positive number, one of the enum strings, or undefined for an optional rule; `FieldIssue` ties it field by field to `FieldOk` |
| `TransactionSchema.FieldOk` | app/components/transaction-import.tsx:15-21 | each field's rule stated on its own, independently of the schema list; `FieldIssue` proves the schema reports exactly the fields that fail it |
| `TransactionSchema.IsValid` | app/components/transaction-import.tsx:14-22 | a record is valid when every field meets its rule; `ShapeAcceptsIffValid` and `SafeParseIffValid` prove the schema accepts exactly these records |
| `TransactionSchema.Defaults` | app/components/transaction-import.tsx:59-67 | the initial values, with today's date and time as parameters; `DefaultsFailOnlyOnAmount` and `DefaultsPassWithPositiveAmount` state how they validate |
| `Taxonomy.Categories` | app/components/transaction-import.tsx:26-39 | the category list of each type; `CategoriesShape` and `CategoryListsDisjoint` state its size, distinctness and disjointness |
| `ImportAction.ParserFor` | app/actions/import-transaction.ts:15-24 | which parser each kind calls; `ParserChoiceInjective` proves distinct kinds call distinct parsers |
| `ImportAction.Invoke` | app/actions/import-transaction.ts:17-23 | calling the chosen parser on the file; `KnownKindCallsItsParser` proves the action returns its outcome unchanged |
| `TransactionForm.Merge` | app/components/transaction-import.tsx:84-91 | what a settled import does to the form; `MergeKeepsStateUnlessData`, `MergeOverwritesWholesale` and `MergeIdempotent` state its behaviour |
| `TransactionForm.Upload` | app/components/transaction-import.tsx:76-92 | a whole upload: no file changes nothing, otherwise the action's outcome is merged; `UploadFromFormReachesParser` states the outcome for a kind the select offers |
| `TransactionForm.CategoryOptionsAsWritten` | app/components/transaction-import.tsx:192 | the category options as the code computes them, throwing for an unknown type; `CategoryOptionsAsWrittenThrows` states when |
| `TransactionForm.CategoryOptions` | app/components/transaction-import.tsx:192 | the corrected category options, empty for an unknown type; `CategoryOptionsFollowType` proves they are the type's list |
| `TransactionForm.SubcategoryOptionsAsWritten` | app/components/transaction-import.tsx:217 | the subcategory options as the code computes them, throwing for an inherited member name; `SubcategoryOptionsAsWrittenThrows` states when |
| `TransactionForm.SubcategoryOptions` | app/components/transaction-import.tsx:217 | the corrected subcategory options from the table's own entries; `SubcategoryOptionsForName` and `IncomeCategoryOffersNoSubcategories` state them |

## Findings

| source | as written | input that shows it | evidently intended | confidence | as-written member | corrected member |
|---|---|---|---|---|---|---|
| app/components/transaction-import.tsx:192 | `categories[type].map(...)` calls `map` on `undefined` when `type` names neither list, so rendering throws a `TypeError` | an import whose parsed object has `"type": "refund"`, or is a non-empty object with no `type` (the parser prompts never ask for one) | the category select offers no options until a known type is chosen | medium; not executed | `TransactionForm.CategoryOptionsAsWrittenThrows` | `TransactionForm.CategoryOptionsFollowType` |
| app/components/transaction-import.tsx:217 | `subcategories[category]?.map(...)` guards only a missing entry; an inherited member such as `constructor` is a function with no `map`, so rendering throws a `TypeError` | an import whose parsed object has `"category": "constructor"` | a category without its own entry offers no subcategories | medium; not executed | `TransactionForm.SubcategoryOptionsAsWrittenThrows` | `TransactionForm.SubcategoryOptionsForName` |

The corrected derivations are `TransactionForm.CategoryOptions` and
`TransactionForm.SubcategoryOptions`. The form class uses them for its select
options (`CategoryChoices`, `SubcategoryChoices`). With no `type` at all, the first
finding also relies on react-hook-form's `watch` returning `undefined` after a
`reset` to an object that lacks the key. The `"refund"` input does not rely on that.

## Left out

- The parsers in `lib/llm_parser.ts` are not part of this model. They make network
  calls, read file text, build prompts and call `JSON.parse`. Each parser is a
  function parameter that fulfils with a JSON payload or rejects.
- `lib/parsers`, which the action imports, is not part of this model either. It is
  covered by the same parser parameters.
- JSX rendering, styling and the UI components are left out. Only the option lists
  the two selects derive are modelled.
- zod, react-hook-form and date-fns internals are left out. `Issues` reports which
  fields fail, not zod's message texts. The resolver running the schema at submit
  is not modelled.
- `onSubmit` and `console.error` only log, so they are left out.
- Floating point: amounts are `real`. NaN, infinities and the `parseFloat` of the
  amount input are not modelled.
- Numbers used as property keys give no key (`PropertyKey` returns `None`). Their
  decimal forms never name a table entry or an inherited member.
- The current date and time of the defaults (`new Date()` with `format`) are
  parameters.
- Overlapping imports are not modelled. The source has a race: a late response can
  overwrite a newer one. Each upload is modelled as one atomic step.
- FormData transport: the server action receives exactly the entries the client
  appended.
- The `accept` list of file extensions on the file input is not enforced.
- A non-object payload given to `form.reset` is modelled as every field reading
  `undefined` (`FieldsOf`).
- With a category of `0`, React renders the number as text inside the select. It is
  modelled as no options.
- ObjectImportShowsParsedFields: ignores react-hook-form's handling of an empty
  object in `form.reset`. The library treats `reset({})` like `reset()` and restores
  the current default values. The model makes every imported object the form values
  exactly, so the lemma matches the library only for a non-empty object.
