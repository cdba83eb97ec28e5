/** The part of JSON the brainstorm steps rely on: a decoder for texts that are an
    array of strings (`json.loads` on such a text, RFC 8259 grammar, with the
    strict string rules of Python's decoder), the matching encoder, and a value
    type for what `json.loads` returns in general. */
module Json {
  import opened Common
  import opened Text

  /** A decoded JSON value (`json.loads` result): `None`, a bool, a number (kept
      as its literal), a `str`, a `list` or a `dict`. */
  datatype JsonValue =
    | JNull
    | JBool(b: bool)
    | JNumber(literal: string)
    | JString(s: string)
    | JArray(items: seq<JsonValue>)
    | JObject(members: seq<(string, JsonValue)>)

  /** The strings of a list whose elements are all strings, in order; `None` as
      soon as one element is not a string. */
  function StringItems(items: seq<JsonValue>): (r: Option<seq<string>>)
    ensures r.Some? <==> forall k :: 0 <= k < |items| ==> items[k].JString?
    ensures r.Some? ==> |r.value| == |items| && forall k :: 0 <= k < |items| ==> r.value[k] == items[k].s
  {
    if items == [] then Some([])
    else if !items[0].JString? then None
    else match StringItems(items[1..])
      case None => None
      case Some(rest) => Some([items[0].s] + rest)
  }

  /** JSON's insignificant white space. */
  predicate IsJsonSpace(c: char)
  {
    c == ' ' || c == '\t' || c == '\n' || c == '\r'
  }

  /** The text after any leading white space. */
  function SkipWs(s: string): (r: string)
    ensures |r| <= |s|
    ensures r != [] ==> !IsJsonSpace(r[0])
  {
    if s != [] && IsJsonSpace(s[0]) then SkipWs(s[1..]) else s
  }

  predicate IsHex(c: char)
  {
    ('0' <= c <= '9') || ('a' <= c <= 'f') || ('A' <= c <= 'F')
  }

  function HexValue(c: char): (v: nat)
    requires IsHex(c)
    ensures v < 16
  {
    if '0' <= c <= '9' then c as int - '0' as int
    else if 'a' <= c <= 'f' then c as int - 'a' as int + 10
    else c as int - 'A' as int + 10
  }

  /** The digit `d` as the encoder writes it. */
  function HexDigit(d: nat): (c: char)
    requires d < 16
    ensures IsHex(c) && HexValue(c) == d
  {
    if d < 10 then (d + '0' as int) as char else (d - 10 + 'a' as int) as char
  }

  /** The four hex digits of a `\uXXXX` escape, as a number. */
  function Hex4(s: string): (v: nat)
    requires |s| == 4 && IsHex(s[0]) && IsHex(s[1]) && IsHex(s[2]) && IsHex(s[3])
    ensures v < 0x10000
  {
    ((HexValue(s[0]) * 16 + HexValue(s[1])) * 16 + HexValue(s[2])) * 16 + HexValue(s[3])
  }

  predicate Hex4At(s: string, i: nat)
  {
    i + 4 <= |s| && IsHex(s[i]) && IsHex(s[i + 1]) && IsHex(s[i + 2]) && IsHex(s[i + 3])
  }

  /** The text after `\u`: one code point, or a surrogate pair written as two
      escapes. A lone surrogate is refused (see README). */
  function UnicodeEscape(s: string): (r: Option<(char, string)>)
    ensures r.Some? ==> |r.value.1| < |s|
  {
    if !Hex4At(s, 0) then None
    else
      var v := Hex4(s[..4]);
      if 0xD800 <= v <= 0xDBFF then
        if 10 <= |s| && s[4] == '\\' && s[5] == 'u' && Hex4At(s, 6) && 0xDC00 <= Hex4(s[6..10]) <= 0xDFFF then
          var w := Hex4(s[6..10]);
          Some(((0x10000 + (v - 0xD800) * 0x400 + (w - 0xDC00)) as char, s[10..]))
        else None
      else if 0xDC00 <= v <= 0xDFFF then None
      else Some((v as char, s[4..]))
  }

  /** The text after a backslash inside a string: the character it stands for and
      what follows the escape. */
  function Escape(s: string): (r: Option<(char, string)>)
    ensures r.Some? ==> |r.value.1| < |s|
  {
    if s == [] then None
    else if s[0] == '"' then Some(('"', s[1..]))
    else if s[0] == '\\' then Some(('\\', s[1..]))
    else if s[0] == '/' then Some(('/', s[1..]))
    else if s[0] == 'b' then Some(('\U{0008}', s[1..]))
    else if s[0] == 'f' then Some(('\U{000c}', s[1..]))
    else if s[0] == 'n' then Some(('\n', s[1..]))
    else if s[0] == 'r' then Some(('\r', s[1..]))
    else if s[0] == 't' then Some(('\t', s[1..]))
    else if s[0] == 'u' then UnicodeEscape(s[1..])
    else None
  }

  /** The text after an opening quote: the string's contents and what follows the
      closing quote. Raw control characters are refused, as in strict mode. */
  function StringBody(s: string): (r: Option<(string, string)>)
    ensures r.Some? ==> |r.value.1| < |s|
    decreases |s|
  {
    if s == [] then None
    else if s[0] == '"' then Some(("", s[1..]))
    else if s[0] == '\\' then
      match Escape(s[1..])
      case None => None
      case Some((c, rest)) =>
        match StringBody(rest)
        case None => None
        case Some((x, after)) => Some(([c] + x, after))
    else if s[0] < ' ' then None
    else
      match StringBody(s[1..])
      case None => None
      case Some((x, after)) => Some(([s[0]] + x, after))
  }

  /** The elements of a non-empty array, starting at the first element's opening
      quote: strings separated by commas, up to and including the closing
      bracket. A comma directly before `]` is refused. */
  function Items(s: string): (r: Option<(seq<string>, string)>)
    ensures r.Some? ==> |r.value.1| < |s| && |r.value.0| >= 1
    decreases |s|, 1
  {
    if s == [] || s[0] != '"' then None
    else
      var body := StringBody(s[1..]);
      if body.None? then None else ItemsAfter(body.value.0, SkipWs(body.value.1))
  }

  /** What follows the element `x` (white space already skipped): `]` ends the
      array, `,` introduces the next element. */
  function ItemsAfter(x: string, r: string): (res: Option<(seq<string>, string)>)
    ensures res.Some? ==> |res.value.1| < |r| && |res.value.0| >= 1
    decreases |r|, 0
  {
    if r == [] then None
    else if r[0] == ']' then Some(([x], r[1..]))
    else if r[0] == ',' then
      var more := Items(SkipWs(r[1..]));
      if more.None? then None else Some(([x] + more.value.0, more.value.1))
    else None
  }

  /** `json.loads(s)` when `s` is a JSON array of strings; `None` for every other
      text (not JSON, or JSON of another shape). */
  function DecodeStringArray(s: string): Option<seq<string>>
  {
    var s1 := SkipWs(s);
    if s1 == [] || s1[0] != '[' then None else ArrayBody(SkipWs(s1[1..]))
  }

  /** The text after the opening bracket and any white space: `]` for the empty
      array, else the elements; only white space may follow the array. */
  function ArrayBody(s: string): Option<seq<string>>
  {
    if s != [] && s[0] == ']' then
      if SkipWs(s[1..]) == [] then Some([]) else None
    else
      var items := Items(s);
      if items.Some? && SkipWs(items.value.1) == [] then Some(items.value.0) else None
  }

  // ----- encoder -----------------------------------------------------------

  function EncodeChar(c: char): string
  {
    if c == '"' then "\\\""
    else if c == '\\' then "\\\\"
    else if c < ' ' then "\\u00" + [HexDigit(c as int / 16), HexDigit(c as int % 16)]
    else [c]
  }

  function EncodeChars(x: string): string
  {
    if x == [] then "" else EncodeChar(x[0]) + EncodeChars(x[1..])
  }

  /** A JSON string literal for `x`. */
  function EncodeString(x: string): string
  {
    "\"" + EncodeChars(x) + "\""
  }

  function Quoted(xs: seq<string>): (r: seq<string>)
    ensures |r| == |xs| && forall k :: 0 <= k < |xs| ==> r[k] == EncodeString(xs[k])
  {
    if xs == [] then [] else [EncodeString(xs[0])] + Quoted(xs[1..])
  }

  /** A compact JSON array of the strings `xs`. */
  function EncodeStringArray(xs: seq<string>): string
  {
    "[" + Join(",", Quoted(xs)) + "]"
  }

  lemma HexPair(c: char)
    requires c < ' '
    ensures Hex4("00" + [HexDigit(c as int / 16), HexDigit(c as int % 16)]) == c as int
  {
  }

  /** One encoded character followed by anything is read back as that character. */
  lemma StringBodyChar(c: char, rest: string)
    ensures StringBody(EncodeChar(c) + rest) ==
      match StringBody(rest)
      case None => None
      case Some((x, after)) => Some(([c] + x, after))
  {
    var s := EncodeChar(c) + rest;
    if c == '"' || c == '\\' {
      assert s[1..][1..] == rest;
    } else if c < ' ' {
      var t := s[1..][1..];
      assert t[..4] == "00" + [HexDigit(c as int / 16), HexDigit(c as int % 16)];
      HexPair(c);
      assert t[4..] == rest;
    } else {
      assert s[1..] == rest;
    }
  }

  /** The encoded characters, a closing quote and any tail read back as the
      characters and the tail. */
  lemma {:induction false} StringBodyRoundTrip(x: string, tail: string)
    ensures StringBody(EncodeChars(x) + "\"" + tail) == Some((x, tail))
    decreases |x|
  {
    if x == [] {
      assert (EncodeChars(x) + "\"" + tail)[1..] == tail;
    } else {
      var rest := EncodeChars(x[1..]) + "\"" + tail;
      assert EncodeChars(x) + "\"" + tail == EncodeChar(x[0]) + rest;
      StringBodyRoundTrip(x[1..], tail);
      StringBodyChar(x[0], rest);
      assert [x[0]] + x[1..] == x;
    }
  }

  /** A string literal read at the head of a text leaves what follows it. */
  lemma StringLiteralAt(x: string, r: string)
    ensures |EncodeString(x) + r| >= 1 && (EncodeString(x) + r)[0] == '"'
    ensures StringBody((EncodeString(x) + r)[1..]) == Some((x, r))
  {
    var s := EncodeString(x) + r;
    assert s[1..] == EncodeChars(x) + "\"" + r;
    StringBodyRoundTrip(x, r);
  }

  /** An element read at the head of the text is followed by the rest of the list. */
  lemma ItemsHead(s: string, x: string, r: string)
    requires |s| >= 1 && s[0] == '"' && StringBody(s[1..]) == Some((x, r))
    requires |r| >= 1 && !IsJsonSpace(r[0])
    ensures Items(s) == ItemsAfter(x, r)
  {
  }

  lemma ItemsComma(x: string, more: string, xs: seq<string>, after: string)
    requires Items(more) == Some((xs, after))
    requires |more| >= 1 && !IsJsonSpace(more[0])
    ensures ItemsAfter(x, "," + more) == Some(([x] + xs, after))
  {
    assert ("," + more)[1..] == more;
  }

  lemma LastItem(x: string, tail: string)
    ensures Items(EncodeString(x) + ("]" + tail)) == Some(([x], tail))
  {
    var r := "]" + tail;
    var s := EncodeString(x) + r;
    StringLiteralAt(x, r);
    ItemsHead(s, x, r);
    assert r[1..] == tail;
  }

  lemma NextItem(x: string, more: string, xs: seq<string>, after: string)
    requires |more| >= 1 && more[0] == '"'
    requires Items(more) == Some((xs, after))
    ensures Items(EncodeString(x) + ("," + more)) == Some(([x] + xs, after))
  {
    var r := "," + more;
    var s := EncodeString(x) + r;
    StringLiteralAt(x, r);
    ItemsHead(s, x, r);
    ItemsComma(x, more, xs, after);
  }

  lemma {:induction false} ItemsRoundTrip(xs: seq<string>, tail: string)
    requires |xs| >= 1
    ensures Items(Join(",", Quoted(xs)) + "]" + tail) == Some((xs, tail))
    decreases |xs|
  {
    var q := Quoted(xs);
    if |xs| == 1 {
      assert Join(",", q) + "]" + tail == EncodeString(xs[0]) + ("]" + tail);
      LastItem(xs[0], tail);
      assert [xs[0]] == xs;
    } else {
      var more := Join(",", Quoted(xs[1..])) + "]" + tail;
      assert q[1..] == Quoted(xs[1..]);
      assert Join(",", q) + "]" + tail == EncodeString(xs[0]) + ("," + more);
      assert Quoted(xs[1..])[0] == EncodeString(xs[1]);
      assert more[0] == '"';
      ItemsRoundTrip(xs[1..], tail);
      NextItem(xs[0], more, xs[1..], tail);
      assert [xs[0]] + xs[1..] == xs;
    }
  }

  /** A text that opens a bracket and then holds the elements up to the end. */
  lemma DecodeHead(s: string, body: string, xs: seq<string>)
    requires s == "[" + body && |body| >= 1 && body[0] == '"'
    requires Items(body) == Some((xs, ""))
    ensures DecodeStringArray(s) == Some(xs)
  {
    assert SkipWs(s) == s;
    assert s[1..] == body;
    assert SkipWs(body) == body;
    assert ArrayBody(body) == Some(xs);
  }

  /** Decoding an encoded array gives the strings back. */
  lemma DecodeEncode(xs: seq<string>)
    ensures DecodeStringArray(EncodeStringArray(xs)) == Some(xs)
  {
    var s := EncodeStringArray(xs);
    if xs == [] {
      assert s == "[]";
      assert s[1..] == "]";
    } else {
      var body := Join(",", Quoted(xs)) + "]";
      assert s == "[" + body;
      assert body == Join(",", Quoted(xs)) + "]" + "";
      ItemsRoundTrip(xs, "");
      assert Quoted(xs)[0] == EncodeString(xs[0]);
      DecodeHead(s, body, xs);
    }
  }

  /** Every encoded array starts with `[` and ends with `]`. */
  lemma EncodeBrackets(xs: seq<string>)
    ensures |EncodeStringArray(xs)| >= 2
    ensures EncodeStringArray(xs)[0] == '[' && EncodeStringArray(xs)[|EncodeStringArray(xs)| - 1] == ']'
  {
  }
}
