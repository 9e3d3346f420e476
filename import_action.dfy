/** The server action `importTransaction`: it checks that a file was uploaded,
    chooses a parser by the declared file kind, and returns the parser's output as
    `data` or a message as `error`. The three parsers are opaque collaborators,
    passed in as functions; every run records which parsers it invoked. */
module ImportAction {
  import opened JsValues
  import opened TransactionSchema

  /** An uploaded file: its name and its text. */
  datatype File = File(name: string, text: string)

  /** The two entries of the submitted form data; an entry that was never appended is `None`. */
  datatype FormData = FormData(file: Option<File>, fileType: Option<string>)

  datatype FileKind = BankStatement | Invoice | Receipt

  /** The string a file kind is declared by. */
  function KindName(k: FileKind): string {
    match k
    case BankStatement => "bankStatement"
    case Invoice => "invoice"
    case Receipt => "receipt"
  }

  /** The `switch` on the declared kind: the recognised kinds, anything else `None`. */
  function KindOf(fileType: Option<string>): (r: Option<FileKind>)
    ensures r.Some? ==> fileType == Some(KindName(r.value))
  {
    match fileType
    case None => None
    case Some(s) =>
      if s == "bankStatement" then Some(BankStatement)
      else if s == "invoice" then Some(Invoice)
      else if s == "receipt" then Some(Receipt)
      else None
  }

  lemma KindNameRoundTrip(k: FileKind)
    ensures KindOf(Some(KindName(k))) == Some(k)
  {
  }

  /** What a parser's promise resolves to: the result of `JSON.parse`, either an object
      (read as a form record, absent keys `Undefined`) or any other JSON value. */
  datatype Payload = Object(fields: Candidate) | Other(v: Value)

  /** The truthiness of a payload: objects are truthy, other values as JavaScript says. */
  predicate PayloadTruthy(p: Payload) {
    match p
    case Object(_) => true
    case Other(v) => Truthy(v)
  }

  /** The form values a payload sets when the form is reset to it: an object's own
      fields; for any other value every field reads as `undefined`. */
  function FieldsOf(p: Payload): Candidate {
    match p
    case Object(c) => c
    case Other(_) => Empty
  }

  datatype Parser = ParseCsv | ParseInvoice | ParseReceipt

  /** The three opaque parsers; each may reject (network or JSON errors). */
  datatype Parsers = Parsers(
    csv: File -> Settled<Payload>,
    invoice: File -> Settled<Payload>,
    receipt: File -> Settled<Payload>)

  function ParserFor(k: FileKind): Parser {
    match k
    case BankStatement => ParseCsv
    case Invoice => ParseInvoice
    case Receipt => ParseReceipt
  }

  function Invoke(ps: Parsers, p: Parser, f: File): Settled<Payload> {
    match p
    case ParseCsv => ps.csv(f)
    case ParseInvoice => ps.invoice(f)
    case ParseReceipt => ps.receipt(f)
  }

  /** The value the action returns: `{data}` or `{error}`, never both. */
  datatype ImportResult = Data(data: Payload) | Error(message: string)

  const NoFileMessage: string := "No file uploaded"
  const InvalidTypeMessage: string := "Invalid file type"

  /** One run of the action: how its promise settles, and the parsers it invoked in order. */
  datatype Run = Run(outcome: Settled<ImportResult>, calls: seq<Parser>)

  function ImportTransaction(form: FormData, ps: Parsers): (r: Run)
    ensures |r.calls| <= 1
    ensures r.calls == [] <==> r.outcome.Fulfilled? && r.outcome.value.Error?
    ensures r.outcome.Rejected? ==> |r.calls| == 1
  {
    if form.file.None? then Run(Fulfilled(Error(NoFileMessage)), [])
    else
      match KindOf(form.fileType)
      case None => Run(Fulfilled(Error(InvalidTypeMessage)), [])
      case Some(k) =>
        var p := ParserFor(k);
        match Invoke(ps, p, form.file.value)
        case Rejected => Run(Rejected, [p])
        case Fulfilled(parsed) => Run(Fulfilled(Data(parsed)), [p])
  }

  /** Without a file the result is "No file uploaded", whatever the kind, and no parser runs. */
  lemma MissingFileCheckedFirst(fileType: Option<string>, ps: Parsers)
    ensures ImportTransaction(FormData(None, fileType), ps) == Run(Fulfilled(Error(NoFileMessage)), [])
  {
  }

  /** An unrecognised kind gives "Invalid file type" and no parser runs. */
  lemma UnknownKindCallsNoParser(f: File, fileType: Option<string>, ps: Parsers)
    requires KindOf(fileType).None?
    ensures ImportTransaction(FormData(Some(f), fileType), ps) == Run(Fulfilled(Error(InvalidTypeMessage)), [])
  {
  }

  /** A recognised kind runs exactly its own parser exactly once, and the result carries
      that parser's output unchanged as `data`. */
  lemma KnownKindCallsItsParser(f: File, k: FileKind, ps: Parsers)
    ensures var r := ImportTransaction(FormData(Some(f), Some(KindName(k))), ps);
            && r.calls == [ParserFor(k)]
            && (Invoke(ps, ParserFor(k), f).Rejected? ==> r.outcome.Rejected?)
            && (Invoke(ps, ParserFor(k), f).Fulfilled? ==>
                  r.outcome == Fulfilled(Data(Invoke(ps, ParserFor(k), f).value)))
  {
    KindNameRoundTrip(k);
  }

  /** The kinds map to the parsers one to one. */
  lemma ParserChoiceInjective(k1: FileKind, k2: FileKind)
    ensures ParserFor(k1) == ParserFor(k2) <==> k1 == k2
  {
  }

  /** An error result carries one of the two messages, and only when no parser ran. */
  lemma ErrorMessages(form: FormData, ps: Parsers)
    requires ImportTransaction(form, ps).outcome.Fulfilled?
    requires ImportTransaction(form, ps).outcome.value.Error?
    ensures var m := ImportTransaction(form, ps).outcome.value.message;
            (m == NoFileMessage <==> form.file.None?)
            && (m == InvalidTypeMessage <==> form.file.Some? && KindOf(form.fileType).None?)
  {
  }
}
