/**
 * The document value of the invoice generator: one `InvoiceData` holding the
 * issuing company, the client, the ordered line items and the free-text fields.
 * Every entity is an immutable value; edits build new values.
 */
module Types {
  import opened Wrappers

  /** The two kinds of document; the enum's string values are its names. */
  datatype DocumentType = Invoice | Quotation

  /** The string a `DocumentType` member stands for. */
  function DocumentTypeName(t: DocumentType): string {
    match t
    case Invoice => "INVOICE"
    case Quotation => "QUOTATION"
  }

  /** The member named by `s`, if `s` is one of the two names. */
  function DocumentTypeFromName(s: string): (r: Option<DocumentType>)
    ensures r.Some? <==> s == "INVOICE" || s == "QUOTATION"
    ensures r.Some? ==> DocumentTypeName(r.value) == s
  {
    if s == "INVOICE" then Some(Invoice)
    else if s == "QUOTATION" then Some(Quotation)
    else None
  }

  /** Names and members correspond one to one. */
  lemma DocumentTypeNameRoundTrip(t: DocumentType)
    ensures DocumentTypeFromName(DocumentTypeName(t)) == Some(t)
  {
  }

  /**
   * One billable row. `quantity` comes from an integer parse; `unitPrice` is
   * kept as an exact real (the browser's floating point is not modelled).
   */
  datatype LineItem = LineItem(id: string, description: string, quantity: int, unitPrice: real)

  datatype ClientDetails = ClientDetails(name: string, email: string, address: string, phone: string)

  /** The issuing party; `logoUrl` and `signatureUrl` are optional properties. */
  datatype CompanyDetails = CompanyDetails(
    name: string,
    ownerName: string,
    address: string,
    email: string,
    website: string,
    logoUrl: Option<string>,
    signatureUrl: Option<string>)

  datatype InvoiceData = InvoiceData(
    documentType: DocumentType,
    documentNumber: string,
    date: string,
    dueDate: string,
    client: ClientDetails,
    company: CompanyDetails,
    items: seq<LineItem>,
    notes: string,
    terms: string,
    currencySymbol: string)

  /** Line items are addressed by `id`; addressing is only exact when no id repeats. */
  predicate UniqueIds(items: seq<LineItem>) {
    forall i, j :: 0 <= i < j < |items| ==> items[i].id != items[j].id
  }

  /** Some item carries `id`. */
  predicate HasId(items: seq<LineItem>, id: string) {
    exists i :: 0 <= i < |items| && items[i].id == id
  }
}
