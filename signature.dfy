/**
 * The signature surface: a two-state machine (idle / drawing) driven by
 * press, move and release events, plus the "Clear" button. The pixels are
 * outside the model; what it keeps is the stroke recorded since the last press
 * and the document, into which a finished stroke is written as the surface's
 * encoded snapshot.
 */
module SignatureCapture {
  import opened Wrappers
  import opened Types
  import InvoiceForm

  /** A point in surface coordinates (already offset by the surface's position). */
  datatype Point = Point(x: real, y: real)

  datatype PadState = PadState(isDrawing: bool, stroke: seq<Point>, doc: InvoiceData)

  /**
   * Press: mouse-down or touch-start. Move: mouse-move or touch-move.
   * Release: mouse-up, mouse-leave or touch-end, carrying the snapshot the
   * surface would encode at that moment. Clear: the "Clear" button.
   */
  datatype PadEvent = Press(at: Point) | Move(to: Point) | Release(snapshot: string) | Clear

  /** The signature field's edit, as sent through `handleInputChange`. */
  function WriteSignature(d: InvoiceData, url: string): InvoiceData {
    InvoiceForm.InputChange(d, InvoiceForm.Company(InvoiceForm.SignatureUrl), url)
  }

  /**
   * One event applied to the pad. A press always starts drawing, a release
   * always stops it, and the other events keep the flag; the document changes
   * only on a release while drawing or on "Clear".
   */
  function Step(s: PadState, e: PadEvent): (r: PadState)
    ensures r.isDrawing <==> e.Press? || (s.isDrawing && !e.Release?)
    ensures r.doc != s.doc ==> e.Clear? || (e.Release? && s.isDrawing)
    ensures !e.Press? && !s.isDrawing ==> r.stroke == s.stroke
  {
    match e
    case Press(p) => PadState(true, [p], s.doc)
    case Move(p) => if s.isDrawing then s.(stroke := s.stroke + [p]) else s
    case Release(snapshot) =>
      if s.isDrawing then PadState(false, s.stroke, WriteSignature(s.doc, snapshot)) else s
    case Clear => s.(doc := WriteSignature(s.doc, ""))
  }

  /**
   * A release while drawing is the very edit the form sends for the
   * signature field, and that edit rebuilds the company object, so the save
   * effect runs for it.
   */
  lemma ReleaseIsSavedEdit(s: PadState, snap: string)
    requires s.isDrawing
    ensures var e := InvoiceForm.InputChangeEdit(InvoiceForm.Company(InvoiceForm.SignatureUrl), snap);
      InvoiceForm.ValidEdit(e) && InvoiceForm.RebuildsCompany(e)
      && Step(s, Release(snap)).doc == InvoiceForm.ApplyEdit(s.doc, e)
  {
  }

  /** "Clear" is likewise the signature field's edit, to the empty text. */
  lemma ClearIsSavedEdit(s: PadState)
    ensures var e := InvoiceForm.InputChangeEdit(InvoiceForm.Company(InvoiceForm.SignatureUrl), "");
      InvoiceForm.ValidEdit(e) && InvoiceForm.RebuildsCompany(e)
      && Step(s, Clear).doc == InvoiceForm.ApplyEdit(s.doc, e)
  {
  }

  /** A sequence of events applied in order. */
  function Run(s: PadState, events: seq<PadEvent>): PadState
    decreases |events|
  {
    if events == [] then s else Run(Step(s, events[0]), events[1..])
  }

  /** The document differs from `d` at most in the company's signature. */
  predicate SameExceptSignature(r: InvoiceData, d: InvoiceData) {
    r.(company := d.company) == d && r.company.(signatureUrl := d.company.signatureUrl) == d.company
  }

  /** The snapshots carried by the release events of `events`. */
  function Snapshots(events: seq<PadEvent>): set<string> {
    set i | 0 <= i < |events| && events[i].Release? :: events[i].snapshot
  }

  /** A single event touches nothing in the document but the signature. */
  lemma StepTouchesOnlySignature(s: PadState, e: PadEvent)
    ensures SameExceptSignature(Step(s, e).doc, s.doc)
  {
  }

  /** However long the event sequence, nothing in the document but the signature changes. */
  lemma {:induction false} RunTouchesOnlySignature(s: PadState, events: seq<PadEvent>)
    ensures SameExceptSignature(Run(s, events).doc, s.doc)
    decreases |events|
  {
    if events != [] {
      StepTouchesOnlySignature(s, events[0]);
      RunTouchesOnlySignature(Step(s, events[0]), events[1..]);
    }
  }

  /**
   * After any event sequence the signature is the one it was, the empty
   * string left by "Clear", or the snapshot of some release.
   */
  lemma {:induction false} RunSignatureOrigin(s: PadState, events: seq<PadEvent>)
    ensures var url := Run(s, events).doc.company.signatureUrl;
      url == s.doc.company.signatureUrl || url == Some("")
      || (url.Some? && url.value in Snapshots(events))
    decreases |events|
  {
    if events != [] {
      var t := Step(s, events[0]);
      RunSignatureOrigin(t, events[1..]);
      var url := Run(s, events).doc.company.signatureUrl;
      if url == t.doc.company.signatureUrl && url != s.doc.company.signatureUrl && url != Some("") {
        assert events[0].Release? && url == Some(events[0].snapshot);
        assert events[0].snapshot in Snapshots(events);
      } else if url.Some? && url.value in Snapshots(events[1..]) {
        var i :| 0 <= i < |events[1..]| && events[1..][i].Release? && events[1..][i].snapshot == url.value;
        assert events[i + 1] == events[1..][i];
      }
    }
  }

  /** While idle, moves and releases change nothing. */
  lemma {:induction false} IdleIgnoresMovesAndReleases(s: PadState, events: seq<PadEvent>)
    requires !s.isDrawing
    requires forall i :: 0 <= i < |events| ==> events[i].Move? || events[i].Release?
    ensures Run(s, events) == s
    decreases |events|
  {
    if events != [] {
      IdleIgnoresMovesAndReleases(Step(s, events[0]), events[1..]);
    }
  }

  /** The moves of a stroke, in the order they happened. */
  function MovePoints(moves: seq<PadEvent>): seq<Point>
    requires forall i :: 0 <= i < |moves| ==> moves[i].Move?
  {
    if moves == [] then [] else [moves[0].to] + MovePoints(moves[1..])
  }

  /** While drawing, a run of moves extends the stroke by their points and nothing else. */
  lemma {:induction false} MovesExtendStroke(s: PadState, moves: seq<PadEvent>)
    requires s.isDrawing
    requires forall i :: 0 <= i < |moves| ==> moves[i].Move?
    ensures Run(s, moves) == s.(stroke := s.stroke + MovePoints(moves))
    decreases |moves|
  {
    if moves == [] {
      assert s.stroke + [] == s.stroke;
    } else {
      var t := Step(s, moves[0]);
      MovesExtendStroke(t, moves[1..]);
      assert t.stroke + MovePoints(moves[1..]) == s.stroke + MovePoints(moves);
    }
  }

  /**
   * A whole stroke: press, any number of moves, release. It ends idle, the
   * signature is the released snapshot, and the stroke holds the press point
   * followed by the move points.
   */
  lemma Stroke(s: PadState, at: Point, moves: seq<PadEvent>, snapshot: string)
    requires forall i :: 0 <= i < |moves| ==> moves[i].Move?
    ensures var r := Run(s, [Press(at)] + moves + [Release(snapshot)]);
      !r.isDrawing && r.stroke == [at] + MovePoints(moves)
      && r.doc.company.signatureUrl == Some(snapshot)
      && SameExceptSignature(r.doc, s.doc)
  {
    var events := [Press(at)] + moves + [Release(snapshot)];
    var pressed := Step(s, Press(at));
    MovesExtendStroke(pressed, moves);
    RunConcat(pressed, moves, [Release(snapshot)]);
    assert events[1..] == moves + [Release(snapshot)];
    assert Run(Run(pressed, moves), [Release(snapshot)])
        == Step(Run(pressed, moves), Release(snapshot));
  }

  /** Running two sequences one after the other is running their concatenation. */
  lemma {:induction false} RunConcat(s: PadState, a: seq<PadEvent>, b: seq<PadEvent>)
    ensures Run(s, a + b) == Run(Run(s, a), b)
    decreases |a|
  {
    if a == [] {
      assert a + b == b;
    } else {
      assert (a + b)[0] == a[0] && (a + b)[1..] == a[1..] + b;
      RunConcat(Step(s, a[0]), a[1..], b);
    }
  }

  /** The signature surface of the form, holding the drawing flag and the document. */
  class SignaturePad {
    var isDrawing: bool
    var stroke: seq<Point>
    var data: InvoiceData

    function State(): PadState
      reads this
    {
      PadState(isDrawing, stroke, data)
    }

    /** The surface starts idle. */
    constructor (d: InvoiceData)
      ensures State() == PadState(false, [], d)
    {
      isDrawing := false;
      stroke := [];
      data := d;
    }

    /** `startDrawing`: enter the drawing state and begin a new stroke at the press point. */
    method StartDrawing(at: Point)
      modifies this
      ensures State() == Step(old(State()), Press(at))
      ensures isDrawing && stroke == [at] && data == old(data)
    {
      isDrawing := true;
      stroke := [at];
    }

    /** `draw`: does nothing unless drawing; otherwise extends the stroke. */
    method Draw(to: Point)
      modifies this
      ensures State() == Step(old(State()), Move(to))
      ensures !old(isDrawing) ==> State() == old(State())
      ensures old(isDrawing) ==> isDrawing && stroke == old(stroke) + [to] && data == old(data)
    {
      if !isDrawing {
        return;
      }
      stroke := stroke + [to];
    }

    /**
     * `stopDrawing`: when drawing, leave the drawing state and write the
     * surface's snapshot into the company's signature; otherwise nothing.
     */
    method StopDrawing(snapshot: string)
      modifies this
      ensures State() == Step(old(State()), Release(snapshot))
      ensures !isDrawing
      ensures old(isDrawing) ==>
        data.company.signatureUrl == Some(snapshot) && SameExceptSignature(data, old(data))
      ensures !old(isDrawing) ==> data == old(data)
    {
      if !isDrawing {
        return;
      }
      isDrawing := false;
      data := WriteSignature(data, snapshot);
    }

    /** `clearSignature`: the signature becomes empty; the drawing flag is not touched. */
    method ClearSignature()
      modifies this
      ensures State() == Step(old(State()), Clear)
      ensures isDrawing == old(isDrawing)
      ensures data.company.signatureUrl == Some("") && SameExceptSignature(data, old(data))
    {
      data := WriteSignature(data, "");
    }
  }
}
