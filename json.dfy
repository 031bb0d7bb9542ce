/**
 * The JSON text under which the company profile is cached: `JSON.stringify`
 * of a company object and `JSON.parse` of a flat object whose members are all
 * strings, with the round trip between them proved.
 *
 * Strings are sequences of Unicode scalar values, so there are no lone
 * surrogates to escape and a `\u` escape naming a surrogate is refused.
 */
module Json {
  import opened Wrappers
  import opened Types

  // ---------------------------------------------------------------------------
  // JSON.stringify
  // ---------------------------------------------------------------------------

  function HexDigit(n: nat): char
    requires n < 16
  {
    "0123456789abcdef"[n]
  }

  /** A character `JSON.stringify` writes as itself. */
  predicate IsPlain(ch: char) {
    ch != '"' && ch != '\\' && ch as int >= 0x20
  }

  /**
   * How `JSON.stringify` writes one character inside a string literal: a
   * plain character as itself, any other as an escape starting with a
   * backslash; no control character is ever written.
   */
  function EscapeChar(ch: char): (r: string)
    ensures r == [ch] <==> IsPlain(ch)
    ensures !IsPlain(ch) ==> |r| >= 2 && r[0] == '\\'
    ensures forall k :: 0 <= k < |r| ==> r[k] as int >= 0x20
  {
    if ch == '"' then "\\\""
    else if ch == '\\' then "\\\\"
    else if ch as int == 0x08 then "\\b"
    else if ch == '\t' then "\\t"
    else if ch == '\n' then "\\n"
    else if ch as int == 0x0C then "\\f"
    else if ch == '\r' then "\\r"
    else if ch as int < 0x20 then "\\u00" + [HexDigit(ch as int / 16), HexDigit(ch as int % 16)]
    else [ch]
  }

  /** The escaped text of a string literal, one character at a time; never shorter than the text. */
  function Escape(s: string): (r: string)
    ensures |r| >= |s|
  {
    if s == [] then [] else EscapeChar(s[0]) + Escape(s[1..])
  }

  /**
   * No control character appears in escaped text, and text made of plain
   * characters is written unchanged.
   */
  lemma {:induction false} EscapeSafe(s: string)
    ensures forall k :: 0 <= k < |Escape(s)| ==> Escape(s)[k] as int >= 0x20
    ensures (forall k :: 0 <= k < |s| ==> IsPlain(s[k])) ==> Escape(s) == s
  {
    if s != [] {
      EscapeSafe(s[1..]);
      var head, tail := EscapeChar(s[0]), Escape(s[1..]);
      assert Escape(s) == head + tail;
      forall k | 0 <= k < |Escape(s)|
        ensures Escape(s)[k] as int >= 0x20
      {
        if k < |head| {
          assert Escape(s)[k] == head[k];
        } else {
          assert Escape(s)[k] == tail[k - |head|];
        }
      }
      if forall k :: 0 <= k < |s| ==> IsPlain(s[k]) {
        assert IsPlain(s[0]);
        assert forall k :: 0 <= k < |s[1..]| ==> IsPlain(s[1..][k]) by {
          forall k | 0 <= k < |s[1..]| ensures IsPlain(s[1..][k]) {
            assert s[1..][k] == s[k + 1];
          }
        }
        assert [s[0]] + s[1..] == s;
      }
    }
  }

  /** A string literal: the escaped text between double quotes. */
  function Quote(s: string): string {
    "\"" + Escape(s) + "\""
  }

  function Member(m: (string, string)): string {
    Quote(m.0) + ":" + Quote(m.1)
  }

  function JoinMembers(ms: seq<(string, string)>): string {
    if ms == [] then ""
    else if |ms| == 1 then Member(ms[0])
    else Member(ms[0]) + "," + JoinMembers(ms[1..])
  }

  /**
   * The members `JSON.stringify` writes for a company profile: its string
   * properties in declaration order, an absent optional property left out.
   */
  function CompanyMembers(c: CompanyDetails): seq<(string, string)> {
    [("name", c.name), ("ownerName", c.ownerName), ("address", c.address),
     ("email", c.email), ("website", c.website)]
    + (if c.logoUrl.Some? then [("logoUrl", c.logoUrl.value)] else [])
    + (if c.signatureUrl.Some? then [("signatureUrl", c.signatureUrl.value)] else [])
  }

  /** `JSON.stringify(company)`: an object literal, so never the empty string. */
  function Encode(c: CompanyDetails): (r: string)
    ensures r != [] && r[0] == '{' && r[|r| - 1] == '}'
  {
    "{" + JoinMembers(CompanyMembers(c)) + "}"
  }

  // ---------------------------------------------------------------------------
  // JSON.parse
  // ---------------------------------------------------------------------------

  predicate IsWhitespace(ch: char) {
    ch == ' ' || ch == '\t' || ch == '\n' || ch == '\r'
  }

  /** Drops leading JSON whitespace. */
  function SkipWs(t: string): (r: string)
    ensures |r| <= |t|
    ensures r == [] || !IsWhitespace(r[0])
  {
    if t != [] && IsWhitespace(t[0]) then SkipWs(t[1..]) else t
  }

  function HexValue(ch: char): (r: Option<nat>)
    ensures r.Some? ==> r.value < 16
  {
    if '0' <= ch <= '9' then Some(ch as int - '0' as int)
    else if 'a' <= ch <= 'f' then Some(ch as int - 'a' as int + 10)
    else if 'A' <= ch <= 'F' then Some(ch as int - 'A' as int + 10)
    else None
  }

  /** The value of four hexadecimal digits. */
  function Hex4(t: string): (r: Option<nat>)
    requires |t| == 4
    ensures r.Some? ==> r.value < 0x10000
  {
    match (HexValue(t[0]), HexValue(t[1]), HexValue(t[2]), HexValue(t[3]))
    case (Some(a), Some(b), Some(c), Some(d)) => Some(((a * 16 + b) * 16 + c) * 16 + d)
    case _ => None
  }

  /** The character an escape stands for; `t` starts just after the backslash. */
  function ParseEscape(t: string): (r: Option<(char, string)>)
    ensures r.Some? ==> |r.value.1| < |t|
  {
    if t == [] then None
    else if t[0] == '"' || t[0] == '\\' || t[0] == '/' then Some((t[0], t[1..]))
    else if t[0] == 'b' then Some((0x08 as char, t[1..]))
    else if t[0] == 'f' then Some((0x0C as char, t[1..]))
    else if t[0] == 'n' then Some(('\n', t[1..]))
    else if t[0] == 'r' then Some(('\r', t[1..]))
    else if t[0] == 't' then Some(('\t', t[1..]))
    else if t[0] == 'u' && |t| >= 5 then
      match Hex4(t[1..5])
      case None => None
      case Some(v) => if 0xD800 <= v < 0xE000 then None else Some((v as char, t[5..]))
    else None
  }

  /** Puts `ch` in front of a parsed string, keeping what follows it. */
  function Cons(ch: char, r: Option<(string, string)>): (r': Option<(string, string)>)
    ensures r'.Some? <==> r.Some?
    ensures r'.Some? ==> r'.value == ([ch] + r.value.0, r.value.1)
  {
    match r
    case None => None
    case Some((s, after)) => Some(([ch] + s, after))
  }

  /**
   * The contents of a string literal and what follows its closing quote; `t`
   * starts just after the opening quote. Raw control characters are refused.
   */
  function ParseStringBody(t: string): (r: Option<(string, string)>)
    ensures r.Some? ==> |r.value.1| < |t|
    decreases |t|
  {
    if t == [] then None
    else if t[0] == '"' then Some(([], t[1..]))
    else if t[0] == '\\' then
      match ParseEscape(t[1..])
      case None => None
      case Some((ch, rest)) => Cons(ch, ParseStringBody(rest))
    else if t[0] as int < 0x20 then None
    else Cons(t[0], ParseStringBody(t[1..]))
  }

  function ParseString(t: string): (r: Option<(string, string)>)
    ensures r.Some? ==> |r.value.1| < |t|
  {
    if t != [] && t[0] == '"' then ParseStringBody(t[1..]) else None
  }

  /** `"key" : "value"`, starting at the key's opening quote. */
  function ParseMember(t: string): (r: Option<((string, string), string)>)
    ensures r.Some? ==> |r.value.1| < |t|
  {
    match ParseString(t)
    case None => None
    case Some((key, r1)) =>
      var r2 := SkipWs(r1);
      if r2 == [] || r2[0] != ':' then None
      else
        match ParseString(SkipWs(r2[1..]))
        case None => None
        case Some((value, r3)) => Some(((key, value), r3))
  }

  /** One or more members separated by commas, up to and including the closing brace. */
  function ParseMembers(t: string): (r: Option<(seq<(string, string)>, string)>)
    decreases |t|
  {
    match ParseMember(t)
    case None => None
    case Some((m, r1)) =>
      var r2 := SkipWs(r1);
      if r2 != [] && r2[0] == '}' then Some(([m], r2[1..]))
      else if r2 != [] && r2[0] == ',' then ConsMember(m, ParseMembers(SkipWs(r2[1..])))
      else None
  }

  /** Puts member `m` in front of a parsed member list, keeping what follows it. */
  function ConsMember(m: (string, string), r: Option<(seq<(string, string)>, string)>)
    : (r': Option<(seq<(string, string)>, string)>)
    ensures r'.Some? <==> r.Some?
    ensures r'.Some? ==> r'.value == ([m] + r.value.0, r.value.1)
  {
    match r
    case None => None
    case Some((ms, after)) => Some(([m] + ms, after))
  }

  /** An object literal whose members are all strings. */
  function ParseObject(t: string): Option<(seq<(string, string)>, string)> {
    if t == [] || t[0] != '{' then None
    else
      var r := SkipWs(t[1..]);
      if r != [] && r[0] == '}' then Some(([], r[1..])) else ParseMembers(r)
  }

  /** `JSON.parse` keeps the last of several members with the same key. */
  function Lookup(ms: seq<(string, string)>, key: string): Option<string> {
    if ms == [] then None
    else if ms[|ms| - 1].0 == key then Some(ms[|ms| - 1].1)
    else Lookup(ms[..|ms| - 1], key)
  }

  /**
   * The profile a parsed object describes: it exists exactly when the five
   * required members are present; each field is the last member under its key.
   */
  function CompanyFromMembers(ms: seq<(string, string)>): (r: Option<CompanyDetails>)
    ensures r.Some? <==> (Lookup(ms, "name").Some? && Lookup(ms, "ownerName").Some?
                          && Lookup(ms, "address").Some? && Lookup(ms, "email").Some?
                          && Lookup(ms, "website").Some?)
    ensures r.Some? ==> (r.value.name == Lookup(ms, "name").value
                         && r.value.ownerName == Lookup(ms, "ownerName").value
                         && r.value.address == Lookup(ms, "address").value
                         && r.value.email == Lookup(ms, "email").value
                         && r.value.website == Lookup(ms, "website").value)
    ensures r.Some? ==> r.value.logoUrl == Lookup(ms, "logoUrl") && r.value.signatureUrl == Lookup(ms, "signatureUrl")
  {
    var name, owner, address := Lookup(ms, "name"), Lookup(ms, "ownerName"), Lookup(ms, "address");
    var email, website := Lookup(ms, "email"), Lookup(ms, "website");
    if name.Some? && owner.Some? && address.Some? && email.Some? && website.Some? then
      Some(CompanyDetails(name.value, owner.value, address.value, email.value, website.value,
                          Lookup(ms, "logoUrl"), Lookup(ms, "signatureUrl")))
    else None
  }

  /** `JSON.parse(text)` read as a company profile; `None` when the text does not parse to one. */
  function Decode(text: string): (r: Option<CompanyDetails>)
    ensures SkipWs(text) == [] || SkipWs(text)[0] != '{' ==> r.None?
  {
    match ParseObject(SkipWs(text))
    case None => None
    case Some((ms, rest)) => if SkipWs(rest) == [] then CompanyFromMembers(ms) else None
  }

  // ---------------------------------------------------------------------------
  // Round trip
  // ---------------------------------------------------------------------------

  lemma SkipWsNone(t: string)
    requires t != [] && !IsWhitespace(t[0])
    ensures SkipWs(t) == t
  {
  }

  lemma HexDigitValue(n: nat)
    requires n < 16
    ensures HexValue(HexDigit(n)) == Some(n)
  {
    var digits := "0123456789abcdef";
    assert digits[n] == HexDigit(n);
    if n < 10 {
      assert digits[n] as int == '0' as int + n;
    } else {
      assert digits[n] as int == 'a' as int + n - 10;
    }
  }

  /** A control character without a short escape is written `\u00XX` and read back. */
  lemma UnicodeEscapeRoundTrip(ch: char, tail: string)
    requires ch as int < 0x20 && ch as int !in {0x08, 0x09, 0x0A, 0x0C, 0x0D}
    ensures ParseEscape(EscapeChar(ch)[1..] + tail) == Some((ch, tail))
  {
    var n := ch as int;
    var h1, h2 := HexDigit(n / 16), HexDigit(n % 16);
    var t := EscapeChar(ch)[1..] + tail;
    assert EscapeChar(ch) == "\\u00" + [h1, h2];
    assert t == ['u', '0', '0', h1, h2] + tail;
    HexDigitValue(n / 16);
    HexDigitValue(n % 16);
    assert HexValue('0') == Some(0);
    assert t[1..5] == ['0', '0', h1, h2];
    assert Hex4(t[1..5]) == Some(n);
    assert t[5..] == tail;
  }

  /** A character with an escape sequence is read back through `ParseEscape`. */
  lemma EscapedCharRoundTrip(ch: char, tail: string)
    requires EscapeChar(ch) != [ch]
    ensures EscapeChar(ch)[0] == '\\'
    ensures ParseEscape(EscapeChar(ch)[1..] + tail) == Some((ch, tail))
  {
    if ch as int < 0x20 && ch as int !in {0x08, 0x09, 0x0A, 0x0C, 0x0D} {
      UnicodeEscapeRoundTrip(ch, tail);
    } else {
      assert |EscapeChar(ch)| == 2;
      assert (EscapeChar(ch)[1..] + tail)[1..] == tail;
    }
  }

  /** An escaped character parses back to itself. */
  lemma EscapeCharRoundTrip(ch: char, tail: string)
    ensures ParseStringBody(EscapeChar(ch) + tail) == Cons(ch, ParseStringBody(tail))
  {
    var t := EscapeChar(ch) + tail;
    if EscapeChar(ch) == [ch] {
      assert t[0] == ch && t[1..] == tail;
    } else {
      EscapedCharRoundTrip(ch, tail);
      assert t[0] == '\\';
      assert t[1..] == EscapeChar(ch)[1..] + tail;
    }
  }

  /** The escaped text of `s`, closed by a quote, parses back to `s`. */
  lemma {:induction false} EscapeRoundTrip(s: string, rest: string)
    ensures ParseStringBody(Escape(s) + "\"" + rest) == Some((s, rest))
  {
    if s == [] {
      assert Escape(s) + "\"" + rest == ['"'] + rest;
    } else {
      var tail := Escape(s[1..]) + "\"" + rest;
      assert Escape(s) + "\"" + rest == EscapeChar(s[0]) + tail;
      EscapeRoundTrip(s[1..], rest);
      EscapeCharRoundTrip(s[0], tail);
      assert [s[0]] + s[1..] == s;
    }
  }

  lemma QuoteRoundTrip(s: string, rest: string)
    ensures ParseString(Quote(s) + rest) == Some((s, rest))
  {
    var t := Quote(s) + rest;
    assert t[1..] == Escape(s) + "\"" + rest;
    EscapeRoundTrip(s, rest);
  }

  lemma MemberRoundTrip(m: (string, string), rest: string)
    ensures ParseMember(Member(m) + rest) == Some((m, rest))
  {
    var t := Member(m) + rest;
    var r1 := ":" + Quote(m.1) + rest;
    assert t == Quote(m.0) + r1;
    QuoteRoundTrip(m.0, r1);
    SkipWsNone(r1);
    assert r1[1..] == Quote(m.1) + rest;
    SkipWsNone(r1[1..]);
    QuoteRoundTrip(m.1, rest);
  }

  lemma JoinMembersStart(ms: seq<(string, string)>)
    requires ms != []
    ensures JoinMembers(ms) != [] && JoinMembers(ms)[0] == '"'
  {
  }

  /** The last member, then the closing brace. */
  lemma LastMemberRoundTrip(m: (string, string), rest: string)
    ensures ParseMembers(Member(m) + "}" + rest) == Some(([m], rest))
  {
    var r1 := "}" + rest;
    assert Member(m) + "}" + rest == Member(m) + r1;
    MemberRoundTrip(m, r1);
    SkipWsNone(r1);
    assert r1[1..] == rest;
  }

  /** A member, a comma, then the remaining members. */
  lemma NextMemberRoundTrip(m: (string, string), tail: string)
    requires tail != [] && tail[0] == '"'
    ensures ParseMembers(Member(m) + "," + tail) == ConsMember(m, ParseMembers(tail))
  {
    var r1 := "," + tail;
    assert Member(m) + "," + tail == Member(m) + r1;
    MemberRoundTrip(m, r1);
    SkipWsNone(r1);
    assert r1[1..] == tail;
    SkipWsNone(tail);
  }

  /** A non-empty member list written out and closed by a brace parses back to itself. */
  lemma {:induction false} MembersRoundTrip(ms: seq<(string, string)>, rest: string)
    requires ms != []
    ensures ParseMembers(JoinMembers(ms) + "}" + rest) == Some((ms, rest))
  {
    if |ms| == 1 {
      assert JoinMembers(ms) == Member(ms[0]);
      LastMemberRoundTrip(ms[0], rest);
      assert [ms[0]] == ms;
    } else {
      var tail := JoinMembers(ms[1..]) + "}" + rest;
      assert JoinMembers(ms) + "}" + rest == Member(ms[0]) + "," + tail;
      JoinMembersStart(ms[1..]);
      NextMemberRoundTrip(ms[0], tail);
      MembersRoundTrip(ms[1..], rest);
      assert [ms[0]] + ms[1..] == ms;
    }
  }

  predicate DistinctKeys(ms: seq<(string, string)>) {
    forall i, j :: 0 <= i < j < |ms| ==> ms[i].0 != ms[j].0
  }

  /** With distinct keys, every member is found under its own key. */
  lemma {:induction false} LookupDistinct(ms: seq<(string, string)>, i: nat)
    requires DistinctKeys(ms) && i < |ms|
    ensures Lookup(ms, ms[i].0) == Some(ms[i].1)
    decreases |ms|
  {
    var last := |ms| - 1;
    if i < last {
      var init := ms[..last];
      assert init[i] == ms[i];
      assert DistinctKeys(init) by {
        forall p, q | 0 <= p < q < |init| ensures init[p].0 != init[q].0 {
          assert init[p] == ms[p] && init[q] == ms[q];
        }
      }
      LookupDistinct(init, i);
    }
  }

  /** A key no member carries is not found. */
  lemma {:induction false} LookupAbsent(ms: seq<(string, string)>, key: string)
    requires forall i :: 0 <= i < |ms| ==> ms[i].0 != key
    ensures Lookup(ms, key) == None
    decreases |ms|
  {
    if ms != [] {
      var init := ms[..|ms| - 1];
      assert forall i :: 0 <= i < |init| ==> init[i] == ms[i];
      LookupAbsent(init, key);
    }
  }

  lemma CompanyMembersRoundTrip(c: CompanyDetails)
    ensures CompanyFromMembers(CompanyMembers(c)) == Some(c)
  {
    var ms := CompanyMembers(c);
    var keys := ["name", "ownerName", "address", "email", "website", "logoUrl", "signatureUrl"];
    assert forall i, j :: 0 <= i < j < |keys| ==> keys[i] != keys[j];
    var n := 5 + (if c.logoUrl.Some? then 1 else 0);
    assert |ms| == n + (if c.signatureUrl.Some? then 1 else 0);
    assert forall i :: 0 <= i < 5 ==> ms[i].0 == keys[i];
    assert c.logoUrl.Some? ==> ms[5].0 == keys[5];
    assert c.signatureUrl.Some? ==> ms[n].0 == keys[6];
    assert DistinctKeys(ms);
    LookupDistinct(ms, 0);
    LookupDistinct(ms, 1);
    LookupDistinct(ms, 2);
    LookupDistinct(ms, 3);
    LookupDistinct(ms, 4);
    if c.logoUrl.Some? {
      LookupDistinct(ms, 5);
    } else {
      LookupAbsent(ms, "logoUrl");
    }
    if c.signatureUrl.Some? {
      LookupDistinct(ms, n);
    } else {
      LookupAbsent(ms, "signatureUrl");
    }
  }

  /** What is saved decodes to the profile that was saved. */
  lemma DecodeEncode(c: CompanyDetails)
    ensures Decode(Encode(c)) == Some(c)
  {
    var ms := CompanyMembers(c);
    var t := Encode(c);
    var body := JoinMembers(ms) + "}" + [];
    assert t == "{" + body;
    SkipWsNone(t);
    assert t[1..] == body;
    JoinMembersStart(ms);
    SkipWsNone(body);
    MembersRoundTrip(ms, []);
    assert ParseObject(t) == Some((ms, []));
    CompanyMembersRoundTrip(c);
  }
}
