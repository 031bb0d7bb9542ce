/**
 * What the printable preview derives from a document: the per-row totals,
 * the subtotal (a left fold over the items starting at 0), the total (equal to
 * the subtotal: no tax, discount or fee), and which optional blocks appear.
 */
module InvoicePreview {
  import opened Wrappers
  import opened Types
  import Constants

  /** The amount one row contributes: quantity times unit price. */
  function LineTotal(it: LineItem): real {
    it.quantity as real * it.unitPrice
  }

  /** Reference definition: the plain sum of all line totals. */
  function SumOfLineTotals(items: seq<LineItem>): real {
    if items == [] then 0.0 else LineTotal(items[0]) + SumOfLineTotals(items[1..])
  }

  /**
   * `items.reduce((acc, item) => acc + lineTotal(item), acc)`: a left fold.
   * When no row has a negative amount, the fold never falls below its start.
   */
  function Reduce(acc: real, items: seq<LineItem>): (r: real)
    ensures (forall i :: 0 <= i < |items| ==> LineTotal(items[i]) >= 0.0) ==> r >= acc
    decreases |items|
  {
    if items == [] then acc else Reduce(acc + LineTotal(items[0]), items[1..])
  }

  /** The left fold equals the accumulator plus the plain sum. */
  lemma {:induction false} ReduceIsSum(acc: real, items: seq<LineItem>)
    ensures Reduce(acc, items) == acc + SumOfLineTotals(items)
    decreases |items|
  {
    if items != [] {
      ReduceIsSum(acc + LineTotal(items[0]), items[1..]);
    }
  }

  /** The subtotal shown under the table. */
  function Subtotal(items: seq<LineItem>): (r: real)
    ensures r == SumOfLineTotals(items)
  {
    ReduceIsSum(0.0, items);
    Reduce(0.0, items)
  }

  /** The total due: the sum of the line totals, with nothing added or taken off. */
  function Total(d: InvoiceData): (r: real)
    ensures r == SumOfLineTotals(d.items)
  {
    Subtotal(d.items)
  }

  lemma SubtotalOfNoItems()
    ensures Subtotal([]) == 0.0
  {
  }

  /** The sum splits over a concatenation. */
  lemma {:induction false} SumConcat(a: seq<LineItem>, b: seq<LineItem>)
    ensures SumOfLineTotals(a + b) == SumOfLineTotals(a) + SumOfLineTotals(b)
  {
    if a == [] {
      assert a + b == b;
    } else {
      assert (a + b)[1..] == a[1..] + b;
      SumConcat(a[1..], b);
    }
  }

  /** Appending one item adds exactly its line total to the subtotal. */
  lemma SubtotalSnoc(items: seq<LineItem>, it: LineItem)
    ensures Subtotal(items + [it]) == Subtotal(items) + it.quantity as real * it.unitPrice
  {
    SumConcat(items, [it]);
    assert SumOfLineTotals([it]) == LineTotal(it) + SumOfLineTotals([it][1..]);
    assert [it][1..] == [];
  }

  /** Cutting item `k` out of the list takes exactly its line total off the subtotal. */
  lemma SubtotalWithout(items: seq<LineItem>, k: nat)
    requires k < |items|
    ensures Subtotal(items[..k] + items[k + 1..]) == Subtotal(items) - LineTotal(items[k])
  {
    var before, after := items[..k], items[k + 1..];
    assert items == before + ([items[k]] + after);
    SumConcat(before, [items[k]] + after);
    SumConcat([items[k]], after);
    SumConcat(before, after);
    assert [items[k]][1..] == [];
  }

  /** One row of the items table as displayed. */
  datatype Row = Row(description: string, quantity: int, unitPrice: real, total: real)

  /** `items.map(...)`: one row per item, in order, each with its own line total. */
  function Rows(items: seq<LineItem>): (r: seq<Row>)
    ensures |r| == |items|
    ensures forall i :: 0 <= i < |items| ==>
      r[i] == Row(items[i].description, items[i].quantity, items[i].unitPrice,
                  items[i].quantity as real * items[i].unitPrice)
  {
    if items == [] then []
    else
      var it := items[0];
      [Row(it.description, it.quantity, it.unitPrice, LineTotal(it))] + Rows(items[1..])
  }

  function SumOfRowTotals(rows: seq<Row>): real {
    if rows == [] then 0.0 else rows[0].total + SumOfRowTotals(rows[1..])
  }

  /** The "Total" column adds up to the subtotal line (in exact arithmetic). */
  lemma {:induction false} RowsAddUpToSubtotal(items: seq<LineItem>)
    ensures SumOfRowTotals(Rows(items)) == Subtotal(items)
  {
    if items != [] {
      assert Rows(items)[1..] == Rows(items[1..]);
      RowsAddUpToSubtotal(items[1..]);
    }
  }

  /** JavaScript truthiness of an optional string: present and non-empty. */
  predicate Truthy(s: Option<string>) {
    s.Some? && s.value != ""
  }

  datatype LogoView = CustomLogo(src: string) | DefaultLogo

  /** The header shows the uploaded logo when there is one, the built-in logo otherwise. */
  function Logo(c: CompanyDetails): (r: LogoView)
    ensures r.CustomLogo? <==> c.logoUrl.Some? && c.logoUrl.value != ""
    ensures r.CustomLogo? ==> c.logoUrl == Some(r.src)
  {
    if Truthy(c.logoUrl) then CustomLogo(c.logoUrl.value) else DefaultLogo
  }

  datatype SignatureView = SignatureImage(src: string) | Spacer

  /** Above the signature line: the signature image when there is one, an empty spacer otherwise. */
  function Signature(c: CompanyDetails): (r: SignatureView)
    ensures r.SignatureImage? <==> c.signatureUrl.Some? && c.signatureUrl.value != ""
    ensures r.SignatureImage? ==> c.signatureUrl == Some(r.src)
  {
    if Truthy(c.signatureUrl) then SignatureImage(c.signatureUrl.value) else Spacer
  }

  datatype NotesView = NotesBlock(text: string) | NoNotes

  /** The footer block appears only when the notes are non-empty. */
  function Notes(d: InvoiceData): (r: NotesView)
    ensures r.NotesBlock? <==> d.notes != ""
    ensures r.NotesBlock? ==> r.text == d.notes
  {
    if d.notes != "" then NotesBlock(d.notes) else NoNotes
  }

  /** The default document's subtotal: 1 * 1500 + 1 * 997. */
  lemma DefaultSubtotal(clock: Constants.Clock)
    ensures Subtotal(Constants.InitialData(clock).items) == 2497.0
  {
    var items := Constants.InitialData(clock).items;
    assert items[1..][1..] == [];
  }
}
