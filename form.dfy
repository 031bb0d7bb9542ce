/**
 * The edit handlers of the document form. Each builds a new document from the
 * old one (shallow copies with one branch replaced) and hands it on; none
 * mutates in place, so each is a function from document to document.
 */
module InvoiceForm {
  import opened Wrappers
  import opened Types
  import Constants
  import GeminiService
  import InvoicePreview

  // ---------------------------------------------------------------------------
  // Section fields: `handleInputChange(section, field, value)`
  // ---------------------------------------------------------------------------

  datatype CompanyField = CompanyName | OwnerName | CompanyAddress | CompanyEmail | Website | LogoUrl | SignatureUrl

  datatype ClientField = ClientName | ClientEmail | ClientAddress | Phone

  /** A section of the document and one of its text fields. */
  datatype Target = Company(companyField: CompanyField) | Client(clientField: ClientField)

  /** The value of one company property; the two optional ones may be absent. */
  function CompanyFieldValue(c: CompanyDetails, f: CompanyField): Option<string> {
    match f
    case CompanyName => Some(c.name)
    case OwnerName => Some(c.ownerName)
    case CompanyAddress => Some(c.address)
    case CompanyEmail => Some(c.email)
    case Website => Some(c.website)
    case LogoUrl => c.logoUrl
    case SignatureUrl => c.signatureUrl
  }

  function ClientFieldValue(k: ClientDetails, f: ClientField): string {
    match f
    case ClientName => k.name
    case ClientEmail => k.email
    case ClientAddress => k.address
    case Phone => k.phone
  }

  /** A company profile is determined by the values of its fields. */
  lemma CompanyFieldsDetermine(c1: CompanyDetails, c2: CompanyDetails)
    requires forall f :: CompanyFieldValue(c1, f) == CompanyFieldValue(c2, f)
    ensures c1 == c2
  {
    assert CompanyFieldValue(c1, CompanyName) == CompanyFieldValue(c2, CompanyName);
    assert CompanyFieldValue(c1, OwnerName) == CompanyFieldValue(c2, OwnerName);
    assert CompanyFieldValue(c1, CompanyAddress) == CompanyFieldValue(c2, CompanyAddress);
    assert CompanyFieldValue(c1, CompanyEmail) == CompanyFieldValue(c2, CompanyEmail);
    assert CompanyFieldValue(c1, Website) == CompanyFieldValue(c2, Website);
    assert CompanyFieldValue(c1, LogoUrl) == CompanyFieldValue(c2, LogoUrl);
    assert CompanyFieldValue(c1, SignatureUrl) == CompanyFieldValue(c2, SignatureUrl);
  }

  /** A client profile is determined by the values of its fields. */
  lemma ClientFieldsDetermine(k1: ClientDetails, k2: ClientDetails)
    requires forall f :: ClientFieldValue(k1, f) == ClientFieldValue(k2, f)
    ensures k1 == k2
  {
    assert ClientFieldValue(k1, ClientName) == ClientFieldValue(k2, ClientName);
    assert ClientFieldValue(k1, ClientEmail) == ClientFieldValue(k2, ClientEmail);
    assert ClientFieldValue(k1, ClientAddress) == ClientFieldValue(k2, ClientAddress);
    assert ClientFieldValue(k1, Phone) == ClientFieldValue(k2, Phone);
  }

  /** `{ ...company, [field]: value }`; setting an optional property makes it present. */
  function SetCompanyField(c: CompanyDetails, f: CompanyField, v: string): (r: CompanyDetails)
    ensures CompanyFieldValue(r, f) == Some(v)
    ensures forall g :: g != f ==> CompanyFieldValue(r, g) == CompanyFieldValue(c, g)
  {
    match f
    case CompanyName => c.(name := v)
    case OwnerName => c.(ownerName := v)
    case CompanyAddress => c.(address := v)
    case CompanyEmail => c.(email := v)
    case Website => c.(website := v)
    case LogoUrl => c.(logoUrl := Some(v))
    case SignatureUrl => c.(signatureUrl := Some(v))
  }

  /** `{ ...client, [field]: value }`. */
  function SetClientField(k: ClientDetails, f: ClientField, v: string): (r: ClientDetails)
    ensures ClientFieldValue(r, f) == v
    ensures forall g :: g != f ==> ClientFieldValue(r, g) == ClientFieldValue(k, g)
  {
    match f
    case ClientName => k.(name := v)
    case ClientEmail => k.(email := v)
    case ClientAddress => k.(address := v)
    case Phone => k.(phone := v)
  }

  /**
   * `handleInputChange`: the named field of the named section becomes `v`;
   * every other field of that section and every other part of the document
   * keeps its value.
   */
  function InputChange(d: InvoiceData, t: Target, v: string): (r: InvoiceData)
    ensures t.Company? ==> r.(company := d.company) == d
    ensures t.Company? ==> CompanyFieldValue(r.company, t.companyField) == Some(v)
    ensures t.Company? ==> forall g :: g != t.companyField ==>
      CompanyFieldValue(r.company, g) == CompanyFieldValue(d.company, g)
    ensures t.Client? ==> r.(client := d.client) == d
    ensures t.Client? ==> ClientFieldValue(r.client, t.clientField) == v
    ensures t.Client? ==> forall g :: g != t.clientField ==>
      ClientFieldValue(r.client, g) == ClientFieldValue(d.client, g)
  {
    match t
    case Company(f) => d.(company := SetCompanyField(d.company, f, v))
    case Client(f) => d.(client := SetClientField(d.client, f, v))
  }

  /** Writing back the value a field already holds gives back the same document. */
  lemma InputChangeIdempotent(d: InvoiceData, t: Target, v: string)
    requires t.Company? ==> CompanyFieldValue(d.company, t.companyField) == Some(v)
    requires t.Client? ==> ClientFieldValue(d.client, t.clientField) == v
    ensures InputChange(d, t, v) == d
  {
    var r := InputChange(d, t, v);
    match t
    case Company(f) =>
      CompanyFieldsDetermine(r.company, d.company);
    case Client(f) =>
      ClientFieldsDetermine(r.client, d.client);
  }

  /**
   * `clearLogo`: the logo property becomes the empty string (present, not
   * removed); nothing else changes.
   */
  function ClearLogo(d: InvoiceData): (r: InvoiceData)
    ensures r.company.logoUrl == Some("")
    ensures r.company.(logoUrl := d.company.logoUrl) == d.company
    ensures r.(company := d.company) == d
  {
    InputChange(d, Company(LogoUrl), "")
  }

  // ---------------------------------------------------------------------------
  // Root fields: `handleRootChange(field, value)`
  // ---------------------------------------------------------------------------

  datatype RootField = DocumentTypeField | DocumentNumber | Date | DueDate | CurrencySymbol | Notes | Terms

  /** The text a root field holds; the document type is held as its enum name. */
  function RootFieldValue(d: InvoiceData, f: RootField): string {
    match f
    case DocumentTypeField => DocumentTypeName(d.documentType)
    case DocumentNumber => d.documentNumber
    case Date => d.date
    case DueDate => d.dueDate
    case CurrencySymbol => d.currencySymbol
    case Notes => d.notes
    case Terms => d.terms
  }

  /** A root edit the form can send: the type select only offers the two enum names. */
  predicate ValidRootValue(f: RootField, v: string) {
    f == DocumentTypeField ==> DocumentTypeFromName(v).Some?
  }

  /**
   * `handleRootChange`: the named root field becomes `v`; the other root
   * fields, both profiles and the items are untouched.
   */
  function RootChange(d: InvoiceData, f: RootField, v: string): (r: InvoiceData)
    requires ValidRootValue(f, v)
    ensures RootFieldValue(r, f) == v
    ensures forall g :: g != f ==> RootFieldValue(r, g) == RootFieldValue(d, g)
    ensures r.company == d.company && r.client == d.client && r.items == d.items
  {
    match f
    case DocumentTypeField => d.(documentType := DocumentTypeFromName(v).value)
    case DocumentNumber => d.(documentNumber := v)
    case Date => d.(date := v)
    case DueDate => d.(dueDate := v)
    case CurrencySymbol => d.(currencySymbol := v)
    case Notes => d.(notes := v)
    case Terms => d.(terms := v)
  }

  /** Writing back the value a root field already holds gives back the same document. */
  lemma RootChangeIdempotent(d: InvoiceData, f: RootField)
    ensures ValidRootValue(f, RootFieldValue(d, f))
    ensures RootChange(d, f, RootFieldValue(d, f)) == d
  {
    if f == DocumentTypeField {
      DocumentTypeNameRoundTrip(d.documentType);
    }
  }

  /** `handleResetTerms`: only the terms change, back to the standard text. */
  function ResetTerms(d: InvoiceData): (r: InvoiceData)
    ensures r.terms == Constants.GuaranteeText
    ensures r.(terms := d.terms) == d
  {
    d.(terms := Constants.GuaranteeText)
  }

  // ---------------------------------------------------------------------------
  // Line items, addressed by id
  // ---------------------------------------------------------------------------

  /** A new value for one line-item field. */
  datatype ItemEdit = SetDescription(description: string) | SetQuantity(quantity: int) | SetUnitPrice(unitPrice: real)

  /** `{ ...item, [field]: value }`: the id and the other two fields stay. */
  function EditItem(it: LineItem, e: ItemEdit): (r: LineItem)
    ensures r.id == it.id
    ensures r.description == (if e.SetDescription? then e.description else it.description)
    ensures r.quantity == (if e.SetQuantity? then e.quantity else it.quantity)
    ensures r.unitPrice == (if e.SetUnitPrice? then e.unitPrice else it.unitPrice)
  {
    match e
    case SetDescription(s) => it.(description := s)
    case SetQuantity(q) => it.(quantity := q)
    case SetUnitPrice(p) => it.(unitPrice := p)
  }

  /**
   * `items.map(item => item.id === id ? { ...item, [field]: value } : item)`:
   * same length and order; every item carrying `id` is edited, every other
   * item is kept as it was.
   */
  function UpdateItems(items: seq<LineItem>, id: string, e: ItemEdit): (r: seq<LineItem>)
    ensures |r| == |items|
    ensures forall i :: 0 <= i < |items| ==> r[i].id == items[i].id
    ensures forall i :: 0 <= i < |items| && items[i].id != id ==> r[i] == items[i]
    ensures forall i :: 0 <= i < |items| && items[i].id == id ==> r[i] == EditItem(items[i], e)
  {
    if items == [] then []
    else
      [if items[0].id == id then EditItem(items[0], e) else items[0]] + UpdateItems(items[1..], id, e)
  }

  /** An id no item carries leaves the items as they were. */
  lemma UpdateAbsentId(items: seq<LineItem>, id: string, e: ItemEdit)
    requires !HasId(items, id)
    ensures UpdateItems(items, id, e) == items
  {
    var r := UpdateItems(items, id, e);
    assert forall i :: 0 <= i < |items| ==> r[i] == items[i];
  }

  /** `updateLineItem`: only the items change, as `UpdateItems` says. */
  function UpdateLineItem(d: InvoiceData, id: string, e: ItemEdit): (r: InvoiceData)
    ensures r.(items := d.items) == d
    ensures |r.items| == |d.items|
    ensures forall i :: 0 <= i < |d.items| && d.items[i].id != id ==> r.items[i] == d.items[i]
    ensures forall i :: 0 <= i < |d.items| && d.items[i].id == id ==> r.items[i] == EditItem(d.items[i], e)
  {
    d.(items := UpdateItems(d.items, id, e))
  }

  /** Editing keeps the ids, so it keeps them unique. */
  lemma UpdateKeepsUniqueIds(items: seq<LineItem>, id: string, e: ItemEdit)
    requires UniqueIds(items)
    ensures UniqueIds(UpdateItems(items, id, e))
  {
  }

  /** `parseInt(text) || 0`: a failed parse (NaN) is stored as 0, never rejected. */
  function QuantityInput(parsed: Option<int>): (r: int)
    ensures parsed.None? ==> r == 0
    ensures parsed.Some? ==> r == parsed.value
  {
    parsed.GetOr(0)
  }

  /** `parseFloat(text) || 0`: a failed parse (NaN) is stored as 0, never rejected. */
  function PriceInput(parsed: Option<real>): (r: real)
    ensures parsed.None? ==> r == 0.0
    ensures parsed.Some? ==> r == parsed.value
  {
    parsed.GetOr(0.0)
  }

  /** The item appended by "Add Item", under a freshly generated id. */
  function NewItem(newId: string): (r: LineItem)
    ensures r.id == newId && r.quantity == 1
    ensures InvoicePreview.LineTotal(r) == 0.0
  {
    LineItem(newId, "New Service", 1, 0.0)
  }

  /**
   * `addLineItem`: exactly one item is appended at the end; the earlier items
   * and the rest of the document stay.
   */
  function AddLineItem(d: InvoiceData, newId: string): (r: InvoiceData)
    ensures |r.items| == |d.items| + 1
    ensures r.items[..|d.items|] == d.items
    ensures r.items[|d.items|] == LineItem(newId, "New Service", 1, 0.0)
    ensures r.(items := d.items) == d
  {
    d.(items := d.items + [NewItem(newId)])
  }

  /** With an id no item carries, the ids stay unique. */
  lemma AddKeepsUniqueIds(d: InvoiceData, newId: string)
    requires UniqueIds(d.items)
    requires !HasId(d.items, newId)
    ensures UniqueIds(AddLineItem(d, newId).items)
  {
    var r := AddLineItem(d, newId).items;
    forall i, j | 0 <= i < j < |r| ensures r[i].id != r[j].id {
      if j == |d.items| {
        assert r[i] == d.items[i];
      } else {
        assert r[i] == d.items[i] && r[j] == d.items[j];
      }
    }
  }

  /**
   * `items.filter(item => item.id !== id)`: the items whose id differs, in
   * their original order.
   */
  function RemoveItems(items: seq<LineItem>, id: string): (r: seq<LineItem>)
    ensures |r| <= |items|
    ensures forall it :: it in r <==> it in items && it.id != id
    ensures !HasId(items, id) ==> r == items
  {
    if items == [] then []
    else
      var rest := RemoveItems(items[1..], id);
      assert !HasId(items, id) ==> !HasId(items[1..], id) by {
        if HasId(items[1..], id) {
          var i :| 0 <= i < |items[1..]| && items[1..][i].id == id;
          assert items[i + 1].id == id;
        }
      }
      if items[0].id == id then rest else [items[0]] + rest
  }

  /** Filtering distributes over concatenation, so the relative order of survivors is kept. */
  lemma {:induction false} RemoveConcat(a: seq<LineItem>, b: seq<LineItem>, id: string)
    ensures RemoveItems(a + b, id) == RemoveItems(a, id) + RemoveItems(b, id)
  {
    if a == [] {
      assert a + b == b;
    } else {
      assert (a + b)[0] == a[0];
      assert (a + b)[1..] == a[1..] + b;
      RemoveConcat(a[1..], b, id);
    }
  }

  /** How many items carry `id`. */
  function CountId(items: seq<LineItem>, id: string): nat {
    if items == [] then 0 else (if items[0].id == id then 1 else 0) + CountId(items[1..], id)
  }

  /** Removal drops exactly the items that carry `id`. */
  lemma {:induction false} RemoveLength(items: seq<LineItem>, id: string)
    ensures |RemoveItems(items, id)| == |items| - CountId(items, id)
  {
    if items != [] {
      RemoveLength(items[1..], id);
    }
  }

  /** With unique ids, an id is carried once if present and never if absent. */
  lemma {:induction false} CountUnique(items: seq<LineItem>, id: string)
    requires UniqueIds(items)
    ensures CountId(items, id) == if HasId(items, id) then 1 else 0
  {
    if items != [] {
      var tail := items[1..];
      assert UniqueIds(tail) by {
        forall i, j | 0 <= i < j < |tail| ensures tail[i].id != tail[j].id {
          assert tail[i] == items[i + 1] && tail[j] == items[j + 1];
        }
      }
      CountUnique(tail, id);
      if items[0].id == id {
        UniqueIdsSplit(items, 0);
      } else {
        assert HasId(items, id) <==> HasId(tail, id) by {
          if HasId(items, id) {
            var i :| 0 <= i < |items| && items[i].id == id;
            assert i > 0 && tail[i - 1].id == id;
          }
          if HasId(tail, id) {
            var i :| 0 <= i < |tail| && tail[i].id == id;
            assert items[i + 1].id == id;
          }
        }
      }
    }
  }

  /** With unique ids, removal shortens the list by one if the id is present, else not at all. */
  lemma RemoveUniqueLength(items: seq<LineItem>, id: string)
    requires UniqueIds(items)
    ensures |RemoveItems(items, id)| == if HasId(items, id) then |items| - 1 else |items|
  {
    RemoveLength(items, id);
    CountUnique(items, id);
  }

  /** No item before position `k` carries the id of item `k` when ids are unique. */
  lemma UniqueIdsSplit(items: seq<LineItem>, k: nat)
    requires UniqueIds(items) && k < |items|
    ensures !HasId(items[..k], items[k].id)
    ensures !HasId(items[k + 1..], items[k].id)
  {
    var after := items[k + 1..];
    assert forall i :: 0 <= i < k ==> items[..k][i] == items[i];
    assert forall i :: 0 <= i < |after| ==> after[i] == items[k + 1 + i];
  }

  /** With unique ids, removing the id of item `k` cuts out exactly that item. */
  lemma RemoveAt(items: seq<LineItem>, k: nat, id: string)
    requires UniqueIds(items)
    requires k < |items| && items[k].id == id
    ensures RemoveItems(items, id) == items[..k] + items[k + 1..]
  {
    var before, after := items[..k], items[k + 1..];
    assert items == before + ([items[k]] + after);
    UniqueIdsSplit(items, k);
    RemoveConcat(before, [items[k]] + after, id);
    RemoveConcat([items[k]], after, id);
    assert RemoveItems([items[k]], id) == [] by {
      assert [items[k]][1..] == [];
    }
    assert RemoveItems(before, id) == before;
    assert RemoveItems(after, id) == after;
  }

  /** Removal keeps the ids unique. */
  lemma RemoveKeepsUniqueIds(items: seq<LineItem>, id: string)
    requires UniqueIds(items)
    ensures UniqueIds(RemoveItems(items, id))
  {
    if HasId(items, id) {
      var k :| 0 <= k < |items| && items[k].id == id;
      RemoveAt(items, k, id);
      UniqueWithout(items, k);
    }
  }

  /** Cutting one item out of a list with unique ids leaves the ids unique. */
  lemma UniqueWithout(items: seq<LineItem>, k: nat)
    requires UniqueIds(items) && k < |items|
    ensures UniqueIds(items[..k] + items[k + 1..])
  {
    var r := items[..k] + items[k + 1..];
    forall i, j | 0 <= i < j < |r|
      ensures r[i].id != r[j].id
    {
      var i', j' := if i < k then i else i + 1, if j < k then j else j + 1;
      assert r[i] == items[i'] && r[j] == items[j'] && i' < j';
    }
  }

  /** `removeLineItem`: only the items change, to those whose id differs. */
  function RemoveLineItem(d: InvoiceData, id: string): (r: InvoiceData)
    ensures r.(items := d.items) == d
    ensures forall it :: it in r.items <==> it in d.items && it.id != id
    ensures !HasId(d.items, id) ==> r == d
  {
    d.(items := RemoveItems(d.items, id))
  }

  // ---------------------------------------------------------------------------
  // The two text-generation handlers
  // ---------------------------------------------------------------------------

  /** What a handler hands on: the next document and the alert it raises, if any. */
  datatype Outcome = Outcome(doc: InvoiceData, alert: Option<string>)

  const PolishFailedAlert: string := "Failed to polish text. Check API Key."

  /**
   * `handlePolishTerms`: on success only the terms change, to the polished
   * text; on failure the document is unchanged and an alert is raised.
   */
  function PolishTerms(d: InvoiceData, reply: GeminiService.ServiceReply): (r: Outcome)
    ensures reply.ServiceFault? ==> r == Outcome(d, Some(PolishFailedAlert))
    ensures reply.Reply? ==> r.alert.None? && r.doc.(terms := d.terms) == d
    ensures reply.Reply? && GeminiService.Trim(reply.text) != "" ==> r.doc.terms == GeminiService.Trim(reply.text)
    ensures reply.Reply? && GeminiService.Trim(reply.text) == "" ==> r.doc == d
  {
    match GeminiService.PolishLegalText(d.terms, reply)
    case None => Outcome(d, Some(PolishFailedAlert))
    case Some(polished) => Outcome(d.(terms := polished), None)
  }

  /**
   * `handleGenerateNote`: only the notes change; since the service never
   * fails, the handler's own failure branch is never taken.
   */
  function GenerateNote(d: InvoiceData, reply: GeminiService.ServiceReply): (r: Outcome)
    ensures r.alert.None?
    ensures r.doc.(notes := d.notes) == d
    ensures reply.ServiceFault? ==> r.doc.notes == GeminiService.FallbackNote
    ensures reply.Reply? ==> r.doc.notes == GeminiService.Trim(reply.text)
  {
    Outcome(d.(notes := GeminiService.GenerateThankYouNote(reply)), None)
  }

  // ---------------------------------------------------------------------------
  // Replies that arrive after other edits
  //
  // Both text-generation handlers await the service and then spread the
  // document they captured when the button was pressed over whatever the
  // document has become in the meantime.
  // ---------------------------------------------------------------------------

  /** As written: a successful polish replaces the current document with the captured one plus the polished terms. */
  function PolishArrivedAsWritten(captured: InvoiceData, current: InvoiceData, reply: GeminiService.ServiceReply)
    : (r: InvoiceData)
    ensures reply.ServiceFault? ==> r == current
    ensures reply.Reply? ==> r.(terms := captured.terms) == captured
  {
    var out := PolishTerms(captured, reply);
    if out.alert.Some? then current else out.doc
  }

  /** As written, an edit made while the polish request is in flight is lost. */
  lemma StalePolishDropsEdit(captured: InvoiceData, note: string, reply: GeminiService.ServiceReply)
    requires captured.notes != note && reply.Reply?
    ensures PolishArrivedAsWritten(captured, captured.(notes := note), reply).notes != note
  {
  }

  /**
   * As written, a company edit made while the polish request is in flight is
   * reverted: the captured company comes back.
   */
  lemma StalePolishRevertsCompany(captured: InvoiceData, company: CompanyDetails, reply: GeminiService.ServiceReply)
    requires captured.company != company && reply.Reply?
    ensures PolishArrivedAsWritten(captured, captured.(company := company), reply).company == captured.company
  {
  }

  /** Corrected: the polished terms are merged into the current document; nothing else changes. */
  function PolishArrived(captured: InvoiceData, current: InvoiceData, reply: GeminiService.ServiceReply)
    : (r: InvoiceData)
    ensures reply.ServiceFault? ==> r == current
    ensures r.(terms := current.terms) == current
    ensures reply.Reply? && GeminiService.Trim(reply.text) != "" ==> r.terms == GeminiService.Trim(reply.text)
    ensures reply.Reply? && GeminiService.Trim(reply.text) == "" ==> r.terms == captured.terms
  {
    match GeminiService.PolishLegalText(captured.terms, reply)
    case None => current
    case Some(polished) => current.(terms := polished)
  }

  /** Without an edit in between, the corrected merge is exactly the handler's own result. */
  lemma PolishArrivedUninterrupted(d: InvoiceData, reply: GeminiService.ServiceReply)
    ensures PolishArrived(d, d, reply) == PolishTerms(d, reply).doc
  {
  }

  /** As written: the generated note replaces the current document with the captured one plus the note. */
  function NoteArrivedAsWritten(captured: InvoiceData, current: InvoiceData, reply: GeminiService.ServiceReply)
    : (r: InvoiceData)
    ensures r.(notes := captured.notes) == captured
  {
    GenerateNote(captured, reply).doc
  }

  /** As written, an edit made while the note request is in flight is lost. */
  lemma StaleNoteDropsEdit(captured: InvoiceData, terms: string, reply: GeminiService.ServiceReply)
    requires captured.terms != terms
    ensures NoteArrivedAsWritten(captured, captured.(terms := terms), reply).terms != terms
  {
  }

  /**
   * As written, a company edit made while the note request is in flight is
   * reverted: the captured company comes back.
   */
  lemma StaleNoteRevertsCompany(captured: InvoiceData, company: CompanyDetails, reply: GeminiService.ServiceReply)
    requires captured.company != company
    ensures NoteArrivedAsWritten(captured, captured.(company := company), reply).company == captured.company
  {
  }

  /** Corrected: the note is merged into the current document; nothing else changes. */
  function NoteArrived(current: InvoiceData, reply: GeminiService.ServiceReply): (r: InvoiceData)
    ensures r.(notes := current.notes) == current
    ensures r.notes == GeminiService.GenerateThankYouNote(reply)
  {
    current.(notes := GeminiService.GenerateThankYouNote(reply))
  }

  /** Without an edit in between, the corrected merge is exactly the handler's own result. */
  lemma NoteArrivedUninterrupted(d: InvoiceData, reply: GeminiService.ServiceReply)
    ensures NoteArrived(d, reply) == GenerateNote(d, reply).doc
  {
  }

  // ---------------------------------------------------------------------------
  // Every edit the form can hand to its owner
  // ---------------------------------------------------------------------------

  datatype FormEdit =
    | InputChangeEdit(target: Target, value: string)
    | RootChangeEdit(field: RootField, text: string)
    | UpdateItemEdit(itemId: string, edit: ItemEdit)
    | AddItemEdit(newId: string)
    | RemoveItemEdit(removeId: string)
    | ResetTermsEdit
    | ClearLogoEdit
    | PolishTermsEdit(polishReply: GeminiService.ServiceReply)
    | GenerateNoteEdit(noteReply: GeminiService.ServiceReply)

  predicate ValidEdit(e: FormEdit) {
    e.RootChangeEdit? ==> ValidRootValue(e.field, e.text)
  }

  /** An edit of the line items: update, add or remove. */
  predicate IsItemEdit(e: FormEdit) {
    e.UpdateItemEdit? || e.AddItemEdit? || e.RemoveItemEdit?
  }

  /**
   * The document after the edit: the item edits change the items and nothing
   * else, and no other edit touches the items.
   */
  function ApplyEdit(d: InvoiceData, e: FormEdit): (r: InvoiceData)
    requires ValidEdit(e)
    ensures IsItemEdit(e) ==> r.(items := d.items) == d
    ensures !IsItemEdit(e) ==> r.items == d.items
  {
    match e
    case InputChangeEdit(t, v) => InputChange(d, t, v)
    case RootChangeEdit(f, v) => RootChange(d, f, v)
    case UpdateItemEdit(id, ie) => UpdateLineItem(d, id, ie)
    case AddItemEdit(newId) => AddLineItem(d, newId)
    case RemoveItemEdit(id) => RemoveLineItem(d, id)
    case ResetTermsEdit => ResetTerms(d)
    case ClearLogoEdit => ClearLogo(d)
    case PolishTermsEdit(reply) => PolishTerms(d, reply).doc
    case GenerateNoteEdit(reply) => GenerateNote(d, reply).doc
  }

  /**
   * The handlers that spread a new company object. All others copy the
   * document shallowly and so pass on the very same company object.
   */
  predicate RebuildsCompany(e: FormEdit)
    ensures RebuildsCompany(e) ==> ValidEdit(e)
    ensures RebuildsCompany(e) ==>
              forall d {:trigger ApplyEdit(d, e)} :: ApplyEdit(d, e).(company := d.company) == d
  {
    (e.InputChangeEdit? && e.target.Company?) || e.ClearLogoEdit?
  }

  /** An edit that does not rebuild the company object leaves the company as it was. */
  lemma OtherEditsKeepCompany(d: InvoiceData, e: FormEdit)
    requires ValidEdit(e) && !RebuildsCompany(e)
    ensures ApplyEdit(d, e).company == d.company
  {
  }

  /**
   * Every edit keeps the ids unique, provided an added item gets an id no
   * item carries yet.
   */
  lemma EditKeepsUniqueIds(d: InvoiceData, e: FormEdit)
    requires ValidEdit(e) && UniqueIds(d.items)
    requires e.AddItemEdit? ==> !HasId(d.items, e.newId)
    ensures UniqueIds(ApplyEdit(d, e).items)
  {
    match e
    case UpdateItemEdit(id, ie) => UpdateKeepsUniqueIds(d.items, id, ie);
    case AddItemEdit(newId) => AddKeepsUniqueIds(d, newId);
    case RemoveItemEdit(id) => RemoveKeepsUniqueIds(d.items, id);
    case _ =>
  }

  /** Adding an item (unit price 0) leaves the subtotal unchanged. */
  lemma AddKeepsSubtotal(d: InvoiceData, newId: string)
    ensures InvoicePreview.Subtotal(AddLineItem(d, newId).items) == InvoicePreview.Subtotal(d.items)
  {
    InvoicePreview.SubtotalSnoc(d.items, NewItem(newId));
  }

  /** With unique ids, removing the id of item `k` takes exactly its line total off the subtotal. */
  lemma RemoveSubtotal(items: seq<LineItem>, k: nat, id: string)
    requires UniqueIds(items)
    requires k < |items| && items[k].id == id
    ensures InvoicePreview.Subtotal(RemoveItems(items, id))
         == InvoicePreview.Subtotal(items) - InvoicePreview.LineTotal(items[k])
  {
    RemoveAt(items, k, id);
    InvoicePreview.SubtotalWithout(items, k);
  }

}
