/**
 * The two text-generation calls, reduced to their error policies. The network
 * request is outside the model: its outcome is a `ServiceReply`, either the
 * reply text as the service sent it or a fault (missing credential, network or
 * service error). A response without text reads as the empty text, which both
 * calls treat exactly as a reply that trims to nothing.
 */
module GeminiService {
  import opened Wrappers

  datatype ServiceReply = Reply(text: string) | ServiceFault

  /** The fixed note used when note generation fails. */
  const FallbackNote: string := "Thank you for your business."

  /**
   * The characters `String.prototype.trim` strips: the white space and line
   * terminator code points of section 12.2 and 12.3 of ECMA-262.
   */
  const JsWhitespace: set<int> :=
    {0x09, 0x0A, 0x0B, 0x0C, 0x0D, 0x20, 0xA0, 0x1680,
     0x2000, 0x2001, 0x2002, 0x2003, 0x2004, 0x2005, 0x2006, 0x2007, 0x2008, 0x2009, 0x200A,
     0x2028, 0x2029, 0x202F, 0x205F, 0x3000, 0xFEFF}

  predicate IsJsWhitespace(ch: char) {
    ch as int in JsWhitespace
  }

  function TrimStart(s: string): (r: string)
    ensures |r| <= |s| && r == s[|s| - |r|..]
    ensures forall k :: 0 <= k < |s| - |r| ==> IsJsWhitespace(s[k])
    ensures r != [] ==> !IsJsWhitespace(r[0])
    decreases |s|
  {
    if s != [] && IsJsWhitespace(s[0]) then TrimStart(s[1..]) else s
  }

  function TrimEnd(s: string): (r: string)
    ensures |r| <= |s| && r == s[..|r|]
    ensures forall k :: |r| <= k < |s| ==> IsJsWhitespace(s[k])
    ensures r != [] ==> !IsJsWhitespace(r[|r| - 1])
    decreases |s|
  {
    if s != [] && IsJsWhitespace(s[|s| - 1]) then TrimEnd(s[..|s| - 1]) else s
  }

  /** `r` is `s` with the white space before index `i` and after `r` cut off. */
  predicate TrimmedAt(s: string, r: string, i: nat) {
    i + |r| <= |s| && r == s[i..i + |r|]
    && (forall k :: 0 <= k < i ==> IsJsWhitespace(s[k]))
    && (forall k :: i + |r| <= k < |s| ==> IsJsWhitespace(s[k]))
  }

  /**
   * `String.prototype.trim`: the slice of `s` left after cutting white space
   * off both ends; it is empty exactly when `s` is all white space.
   */
  function Trim(s: string): (r: string)
    ensures exists i :: TrimmedAt(s, r, i)
    ensures r != [] ==> !IsJsWhitespace(r[0]) && !IsJsWhitespace(r[|r| - 1])
    ensures r == [] <==> forall k :: 0 <= k < |s| ==> IsJsWhitespace(s[k])
  {
    TrimBothEnds(s);
    TrimEnd(TrimStart(s))
  }

  lemma TrimBothEnds(s: string)
    ensures TrimmedAt(s, TrimEnd(TrimStart(s)), |s| - |TrimStart(s)|)
    ensures TrimEnd(TrimStart(s)) == [] <==> forall k :: 0 <= k < |s| ==> IsJsWhitespace(s[k])
  {
    var t := TrimStart(s);
    TrimmedSlice(s, t, TrimEnd(t), |s| - |t|);
  }

  /**
   * `t` is `s` from index `i` with leading white space gone, and `r` is `t`
   * with trailing white space gone: `r` is the trimmed slice of `s`, empty
   * exactly when `s` is all white space.
   */
  lemma TrimmedSlice(s: string, t: string, r: string, i: nat)
    requires i <= |s| && t == s[i..] && (forall k :: 0 <= k < i ==> IsJsWhitespace(s[k]))
    requires t != [] ==> !IsJsWhitespace(t[0])
    requires |r| <= |t| && r == t[..|r|] && (forall k :: |r| <= k < |t| ==> IsJsWhitespace(t[k]))
    ensures TrimmedAt(s, r, i)
    ensures r == [] <==> forall k :: 0 <= k < |s| ==> IsJsWhitespace(s[k])
  {
    CutEnd(s, t, r, i);
    if r != [] {
      assert s[i] == r[0];
    }
  }

  /** Cutting trailing white space off a suffix of `s` leaves a slice of `s`. */
  lemma CutEnd(s: string, t: string, r: string, i: nat)
    requires i <= |s| && t == s[i..] && |r| <= |t| && r == t[..|r|]
    requires forall k :: |r| <= k < |t| ==> IsJsWhitespace(t[k])
    ensures i + |r| <= |s| && r == s[i..i + |r|]
    ensures forall k :: i + |r| <= k < |s| ==> IsJsWhitespace(s[k])
  {
    forall k | i + |r| <= k < |s|
      ensures IsJsWhitespace(s[k])
    {
      assert s[k] == t[k - i];
    }
  }

  /**
   * `polishLegalText`: the trimmed reply, or the raw text when the reply trims
   * to nothing; a fault is re-thrown, which the model writes as `None`.
   */
  function PolishLegalText(rawText: string, reply: ServiceReply): (r: Option<string>)
    ensures reply.ServiceFault? <==> r.None?
    ensures reply.Reply? && Trim(reply.text) != "" ==> r == Some(Trim(reply.text))
    ensures reply.Reply? && Trim(reply.text) == "" ==> r == Some(rawText)
  {
    match reply
    case ServiceFault => None
    case Reply(text) => Some(if Trim(text) != "" then Trim(text) else rawText)
  }

  /**
   * `generateThankYouNote`: never fails; a fault yields the fixed fallback
   * note, a reply its trimmed text (possibly empty).
   */
  function GenerateThankYouNote(reply: ServiceReply): (r: string)
    ensures reply.ServiceFault? ==> r == FallbackNote
    ensures reply.Reply? ==> r == Trim(reply.text)
  {
    match reply
    case ServiceFault => FallbackNote
    case Reply(text) => Trim(text)
  }

  /** A reply of white space only leaves the terms as they were sent. */
  lemma BlankPolishKeepsRawText(rawText: string, text: string)
    requires forall k :: 0 <= k < |text| ==> IsJsWhitespace(text[k])
    ensures PolishLegalText(rawText, Reply(text)) == Some(rawText)
  {
  }
}
