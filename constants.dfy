/**
 * The built-in default document and the standard terms text. The three
 * clock-derived fields are parameters (`Clock`), since the source reads the
 * current date when the module is loaded.
 */
module Constants {
  import opened Wrappers
  import opened Types

  /** The standard payment and refund terms (a template literal in the source). */
  const GuaranteeText: string :=
    "PAYMENT TERMS:\n"
    + "Full payment is due prior to the start of services.\n"
    + "\n"
    + "REFUND & GURU GUARANTEE:\n"
    + "\"I do refund if student follow what I did and no personal issue but still not pass within 3 prop firm challenges.\"\n"
    + "\n"
    + "ADDITIONAL CONDITIONS:\n"
    + "1. The student must provide proof of adherence to the specific strategy taught.\n"
    + "2. \"No personal issue\" is defined as zero violations of risk management rules or emotional trading errors.\n"
    + "3. The refund applies only after the failure of the 3rd challenge attempt under these strict conditions."

  /**
   * What the clock contributes: the current year as decimal text, today's
   * date and the date seven days later, both as ISO `YYYY-MM-DD` text.
   */
  datatype Clock = Clock(yearText: string, today: string, inOneWeek: string)

  const DefaultCompany: CompanyDetails := CompanyDetails(
    "TradeQuest", "Head Mentor", "Global Financial District", "support@tradequest.com", "",
    None, Some(""))

  const DefaultClient: ClientDetails := ClientDetails(
    "Aspiring Trader", "student@example.com", "123 Market Lane", "+1 555-0123")

  const DefaultItems: seq<LineItem> := [
    LineItem("1", "VIP Forex Mentorship (Lifetime Access)", 1, 1500.0),
    LineItem("2", "Prop Firm Funding Service", 1, 997.0)
  ]

  const DefaultNotes: string := "Welcome to TradeQuest. Success is the only option."

  /** The default document for a session started at `clock`. */
  function InitialData(clock: Clock): (r: InvoiceData)
    ensures r.documentType == Quotation && r.currencySymbol == "$"
    ensures r.documentNumber == "TQ-" + clock.yearText + "-001"
    ensures r.date == clock.today && r.dueDate == clock.inOneWeek
    ensures r.terms == GuaranteeText
    ensures r.company.logoUrl == None && r.company.signatureUrl == Some("")
    ensures |r.items| == 2 && r.items[0].id == "1" && r.items[1].id == "2"
    ensures UniqueIds(r.items)
  {
    InvoiceData(
      Quotation,
      "TQ-" + clock.yearText + "-001",
      clock.today,
      clock.inOneWeek,
      DefaultClient,
      DefaultCompany,
      DefaultItems,
      DefaultNotes,
      GuaranteeText,
      "$")
  }
}
