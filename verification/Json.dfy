/** JSON strings and objects (RFC 8259, section 7) as Python's `json.dumps` with
    `ensure_ascii=False` and Go's `json.Marshal` write them, and a decoder for what they write. */
module Json {
  import opened Text

  type Members = seq<(string, string)>

  // ---------------------------------------------------------------- writing

  function HexDigit(n: nat): char
    requires n < 16
  {
    "0123456789abcdef"[n]
  }

  function UnicodeEscape(n: nat): string
    requires n < 0x10000
  {
    ['\\', 'u', HexDigit(n / 16 / 16 / 16), HexDigit(n / 16 / 16 % 16), HexDigit(n / 16 % 16), HexDigit(n % 16)]
  }

  /** Characters only Go escapes: its encoder is HTML-safe by default and also escapes the two
      Unicode line separators. */
  predicate OnlyGoEscapes(c: char) {
    c == '<' || c == '>' || c == '&' || c == '\U{2028}' || c == '\U{2029}'
  }

  function Escape(rt: Runtime, c: char): string {
    if c == '"' then "\\\""
    else if c == '\\' then "\\\\"
    else if c == '\U{8}' then "\\b"
    else if c == '\U{C}' then "\\f"
    else if c == '\n' then "\\n"
    else if c == '\r' then "\\r"
    else if c == '\t' then "\\t"
    else if c < ' ' || (rt.Go? && OnlyGoEscapes(c)) then UnicodeEscape(c as int)
    else [c]
  }

  function EscapeAll(rt: Runtime, s: string): string {
    if s == "" then "" else Escape(rt, s[0]) + EscapeAll(rt, s[1..])
  }

  function Quote(rt: Runtime, s: string): string {
    "\"" + EscapeAll(rt, s) + "\""
  }

  function EncodeMember(rt: Runtime, m: (string, string)): string {
    Quote(rt, m.0) + ":" + Quote(rt, m.1)
  }

  /** Members with `,` between them and no whitespace, then the closing brace. */
  function EncodeTail(rt: Runtime, ms: Members): string {
    if ms == [] then "}"
    else "," + EncodeMember(rt, ms[0]) + EncodeTail(rt, ms[1..])
  }

  function EncodeObject(rt: Runtime, ms: Members): string {
    if ms == [] then "{}"
    else "{" + EncodeMember(rt, ms[0]) + EncodeTail(rt, ms[1..])
  }

  // ---------------------------------------------------------------- reading

  function HexValue(c: char): Option<nat> {
    if '0' <= c <= '9' then Some(c as int - '0' as int)
    else if 'a' <= c <= 'f' then Some(c as int - 'a' as int + 10)
    else if 'A' <= c <= 'F' then Some(c as int - 'A' as int + 10)
    else None
  }

  /** The four hex digits at the start of `s`. */
  function ReadHex4(s: string): (r: Option<nat>)
    ensures r.Some? ==> r.value < 0x10000
  {
    if |s| < 4 then None
    else match (HexValue(s[0]), HexValue(s[1]), HexValue(s[2]), HexValue(s[3]))
      case (Some(a), Some(b), Some(c), Some(d)) =>
        if a < 16 && b < 16 && c < 16 && d < 16 then Some(a * 4096 + b * 256 + c * 16 + d) else None
      case _ => None
  }

  function ShortEscape(c: char): Option<char> {
    if c == '"' || c == '\\' || c == '/' then Some(c)
    else if c == 'b' then Some('\U{8}')
    else if c == 'f' then Some('\U{C}')
    else if c == 'n' then Some('\n')
    else if c == 'r' then Some('\r')
    else if c == 't' then Some('\t')
    else None
  }

  /** One character of a string body and the number of input characters it takes. A pair of
      surrogate escapes is one character; a lone surrogate is an error. */
  function ReadChar(s: string): (r: Option<(char, nat)>)
    ensures r.Some? ==> 1 <= r.value.1 <= |s|
  {
    if s == "" || s[0] == '"' || s[0] < ' ' then None
    else if s[0] != '\\' then Some((s[0], 1))
    else if |s| < 2 then None
    else if s[1] != 'u' then
      match ShortEscape(s[1]) case Some(c) => Some((c, 2)) case None => None
    else match ReadHex4(s[2..])
      case None => None
      case Some(n) =>
        if n < 0xD800 || 0xDFFF < n then Some((n as char, 6))
        else if n < 0xDC00 && |s| >= 12 && s[6] == '\\' && s[7] == 'u' then
          match ReadHex4(s[8..])
          case Some(m) =>
            if 0xDC00 <= m <= 0xDFFF
            then Some(((0x10000 + (n - 0xD800) * 1024 + (m - 0xDC00)) as char, 12))
            else None
          case None => None
        else None
  }

  /** The body of a string up to its closing quote, and what follows the quote. */
  function ReadBody(s: string): Option<(string, string)> {
    if s == "" then None
    else if s[0] == '"' then Some(("", s[1..]))
    else match ReadChar(s)
      case None => None
      case Some((c, n)) =>
        match ReadBody(s[n..])
        case None => None
        case Some((body, rest)) => Some(([c] + body, rest))
  }

  function ReadString(s: string): Option<(string, string)> {
    if s == "" || s[0] != '"' then None else ReadBody(s[1..])
  }

  function ReadMember(s: string): Option<((string, string), string)> {
    match ReadString(s)
    case None => None
    case Some((key, afterKey)) =>
      if afterKey == "" || afterKey[0] != ':' then None
      else match ReadString(afterKey[1..])
        case None => None
        case Some((value, rest)) => Some(((key, value), rest))
  }

  lemma {:induction false} ReadBodyShortens(s: string)
    ensures ReadBody(s).Some? ==> |ReadBody(s).value.1| < |s|
    decreases |s|
  {
    if s != "" && s[0] != '"' && ReadChar(s).Some? {
      ReadBodyShortens(s[ReadChar(s).value.1..]);
    }
  }

  lemma ReadMemberShortens(s: string)
    ensures ReadMember(s).Some? ==> |ReadMember(s).value.1| < |s|
  {
    if ReadMember(s).Some? {
      ReadBodyShortens(s[1..]);
      var afterKey := ReadString(s).value.1;
      ReadBodyShortens(afterKey[1..][1..]);
    }
  }

  function ReadTail(s: string): Option<Members>
    decreases |s|
  {
    if s == "}" then Some([])
    else if s == "" || s[0] != ',' then None
    else
      ReadMemberShortens(s[1..]);
      match ReadMember(s[1..])
      case None => None
      case Some((m, rest)) =>
        match ReadTail(rest) case None => None case Some(ms) => Some([m] + ms)
  }

  /** The members of a whole object text, in the order written. */
  function DecodeObject(s: string): Option<Members> {
    if s == "{}" then Some([])
    else if s == "" || s[0] != '{' then None
    else match ReadMember(s[1..])
      case None => None
      case Some((m, rest)) =>
        match ReadTail(rest) case None => None case Some(ms) => Some([m] + ms)
  }

  // ---------------------------------------------------------------- reading back what was written

  lemma HexSplit(n: nat)
    requires n < 0x10000
    ensures n / 16 / 16 / 16 < 16
    ensures n / 16 / 16 / 16 * 4096 + n / 16 / 16 % 16 * 256 + n / 16 % 16 * 16 + n % 16 == n
  {
    var a := n / 16;
    var b := a / 16;
    assert n == 16 * a + n % 16;
    assert a == 16 * b + a % 16;
    assert b == 16 * (b / 16) + b % 16;
  }

  lemma HexRoundTrip(n: nat, s: string)
    requires n < 0x10000 && |s| >= 4
    requires s[0] == HexDigit(n / 16 / 16 / 16) && s[1] == HexDigit(n / 16 / 16 % 16)
    requires s[2] == HexDigit(n / 16 % 16) && s[3] == HexDigit(n % 16)
    ensures ReadHex4(s) == Some(n)
  {
    HexDigitRoundTrip(n / 16 / 16 / 16);
    HexDigitRoundTrip(n / 16 / 16 % 16);
    HexDigitRoundTrip(n / 16 % 16);
    HexDigitRoundTrip(n % 16);
    HexSplit(n);
  }

  lemma HexDigitRoundTrip(n: nat)
    requires n < 16
    ensures HexValue(HexDigit(n)) == Some(n)
  {
  }

  lemma ReadUnicodeEscape(n: nat, rest: string)
    requires n < 0xD800
    ensures |UnicodeEscape(n)| == 6 && UnicodeEscape(n)[0] == '\\'
    ensures ReadChar(UnicodeEscape(n) + rest) == Some((n as char, 6))
  {
    var s := UnicodeEscape(n) + rest;
    HexRoundTrip(n, s[2..]);
    hide ReadHex4;
    hide HexDigit;
  }

  lemma EscapeForms(rt: Runtime, c: char)
    ensures || (c as int < 0xD800 && Escape(rt, c) == UnicodeEscape(c as int))
            || (Escape(rt, c) == [c] && c != '"' && c != '\\' && c >= ' ')
            || (|Escape(rt, c)| == 2 && Escape(rt, c)[0] == '\\' && Escape(rt, c)[1] != 'u'
                && ShortEscape(Escape(rt, c)[1]) == Some(c))
  {
    hide UnicodeEscape;
  }

  lemma ReadEscapedChar(rt: Runtime, c: char, rest: string)
    ensures Escape(rt, c)[0] != '"'
    ensures ReadChar(Escape(rt, c) + rest) == Some((c, |Escape(rt, c)|))
  {
    EscapeForms(rt, c);
    hide Escape;
    hide ReadHex4;
    hide ShortEscape;
    if c as int < 0xD800 && Escape(rt, c) == UnicodeEscape(c as int) {
      ReadUnicodeEscape(c as int, rest);
      hide ReadChar;
    }
  }

  lemma {:induction false} ReadEscapedBody(rt: Runtime, v: string, rest: string)
    ensures ReadBody(EscapeAll(rt, v) + "\"" + rest) == Some((v, rest))
  {
    if v == "" {
      assert EscapeAll(rt, v) + "\"" + rest == "\"" + rest;
    } else {
      var e := Escape(rt, v[0]);
      var tail := EscapeAll(rt, v[1..]) + "\"" + rest;
      var s := EscapeAll(rt, v) + "\"" + rest;
      assert s == e + tail;
      ReadEscapedChar(rt, v[0], tail);
      assert s[|e|..] == tail;
      ReadEscapedBody(rt, v[1..], rest);
      assert [v[0]] + v[1..] == v;
    }
  }

  lemma ReadQuoted(rt: Runtime, v: string, rest: string)
    ensures ReadString(Quote(rt, v) + rest) == Some((v, rest))
  {
    ReadEscapedBody(rt, v, rest);
    var s := Quote(rt, v) + rest;
    assert s[1..] == EscapeAll(rt, v) + "\"" + rest;
  }

  lemma ReadEncodedMember(rt: Runtime, m: (string, string), rest: string)
    ensures ReadMember(EncodeMember(rt, m) + rest) == Some((m, rest))
  {
    MemberParts(Quote(rt, m.0), Quote(rt, m.1), rest);
    ReadQuoted(rt, m.0, ":" + (Quote(rt, m.1) + rest));
    ReadQuoted(rt, m.1, rest);
  }

  lemma MemberParts(key: string, value: string, rest: string)
    ensures (key + ":" + value) + rest == key + (":" + (value + rest))
    ensures (":" + (value + rest))[1..] == value + rest
  {
  }

  lemma Parts(open: string, member: string, tail: string)
    requires |open| == 1
    ensures (open + member + tail)[1..] == member + tail
  {
  }

  lemma {:induction false} ReadEncodedTail(rt: Runtime, ms: Members)
    ensures ReadTail(EncodeTail(rt, ms)) == Some(ms)
  {
    if ms != [] {
      Parts(",", EncodeMember(rt, ms[0]), EncodeTail(rt, ms[1..]));
      ReadEncodedMember(rt, ms[0], EncodeTail(rt, ms[1..]));
      ReadEncodedTail(rt, ms[1..]);
      assert [ms[0]] + ms[1..] == ms;
    }
  }

  /** Either encoder's output reads back to the members it was given, whatever characters they
      hold: quotes, backslashes and control characters included. */
  lemma DecodeEncode(rt: Runtime, ms: Members)
    ensures DecodeObject(EncodeObject(rt, ms)) == Some(ms)
  {
    if ms != [] {
      Parts("{", EncodeMember(rt, ms[0]), EncodeTail(rt, ms[1..]));
      ReadEncodedMember(rt, ms[0], EncodeTail(rt, ms[1..]));
      ReadEncodedTail(rt, ms[1..]);
      assert [ms[0]] + ms[1..] == ms;
    }
  }

  // ---------------------------------------------------------------- where the two encoders part

  /** No character of `s` is one that only Go escapes. */
  predicate SharedAlphabet(s: string) {
    forall i :: 0 <= i < |s| ==> !OnlyGoEscapes(s[i])
  }

  lemma {:induction false} EscapeLengths(s: string)
    ensures |EscapeAll(Python, s)| <= |EscapeAll(Go, s)|
    ensures |EscapeAll(Python, s)| == |EscapeAll(Go, s)| <==> SharedAlphabet(s)
    ensures SharedAlphabet(s) ==> EscapeAll(Python, s) == EscapeAll(Go, s)
  {
    if s != "" {
      EscapeLengths(s[1..]);
      assert SharedAlphabet(s) <==> !OnlyGoEscapes(s[0]) && SharedAlphabet(s[1..]) by {
        assert forall i :: 1 <= i < |s| ==> s[i] == s[1..][i - 1];
        assert forall i :: 0 <= i < |s[1..]| ==> s[1..][i] == s[i + 1];
      }
    }
  }

  /** The runtimes write the same text for one list of members exactly when no key and no value
      holds a character that only Go escapes. */
  predicate MembersShared(ms: Members) {
    forall i :: 0 <= i < |ms| ==> SharedAlphabet(ms[i].0) && SharedAlphabet(ms[i].1)
  }

  lemma MemberLengths(m: (string, string))
    ensures |EncodeMember(Python, m)| <= |EncodeMember(Go, m)|
    ensures |EncodeMember(Python, m)| == |EncodeMember(Go, m)| <==> SharedAlphabet(m.0) && SharedAlphabet(m.1)
    ensures SharedAlphabet(m.0) && SharedAlphabet(m.1) ==> EncodeMember(Python, m) == EncodeMember(Go, m)
  {
    EscapeLengths(m.0);
    EscapeLengths(m.1);
  }

  lemma {:induction false} TailLengths(ms: Members)
    ensures |EncodeTail(Python, ms)| <= |EncodeTail(Go, ms)|
    ensures |EncodeTail(Python, ms)| == |EncodeTail(Go, ms)| <==> MembersShared(ms)
    ensures MembersShared(ms) ==> EncodeTail(Python, ms) == EncodeTail(Go, ms)
  {
    if ms != [] {
      MemberLengths(ms[0]);
      TailLengths(ms[1..]);
      MembersSharedSplit(ms);
    }
  }

  lemma MembersSharedSplit(ms: Members)
    requires ms != []
    ensures MembersShared(ms) <==> SharedAlphabet(ms[0].0) && SharedAlphabet(ms[0].1) && MembersShared(ms[1..])
  {
    assert forall i :: 1 <= i < |ms| ==> ms[i] == ms[1..][i - 1];
    assert forall i :: 0 <= i < |ms[1..]| ==> ms[1..][i] == ms[i + 1];
  }

  lemma EncodersAgree(ms: Members)
    ensures EncodeObject(Python, ms) == EncodeObject(Go, ms) <==> MembersShared(ms)
  {
    if ms != [] {
      MemberLengths(ms[0]);
      TailLengths(ms[1..]);
      MembersSharedSplit(ms);
    }
  }

  // ---------------------------------------------------------------- which text is written

  /** Written as it stands by this runtime: not a quote, backslash or control character, and for Go
      not one of the five it escapes besides. */
  predicate Plain(rt: Runtime, c: char) {
    c != '"' && c != '\\' && ' ' <= c && (rt == Go ==> c !in ['<', '>', '&', '\U{2028}', '\U{2029}'])
  }

  /** The characters with a two-character form. */
  const SHORT_FORMS: string := ['"', '\\', '\U{8}', '\U{9}', '\U{A}', '\U{C}', '\U{D}']

  /** Section 7 of RFC 8259 leaves a choice; this is the choice both encoders make. A plain character
      is itself, seven have a two-character form, and the rest are `\u` and the code in four
      lower-case hexadecimal digits. */
  lemma EscapedAs(rt: Runtime, c: char)
    ensures Plain(rt, c) <==> Escape(rt, c) == [c]
    ensures c == '"' ==> Escape(rt, c) == ['\\', '"']
    ensures c == '\\' ==> Escape(rt, c) == ['\\', '\\']
    ensures c == '\U{8}' ==> Escape(rt, c) == ['\\', 'b']
    ensures c == '\U{9}' ==> Escape(rt, c) == ['\\', 't']
    ensures c == '\U{A}' ==> Escape(rt, c) == ['\\', 'n']
    ensures c == '\U{C}' ==> Escape(rt, c) == ['\\', 'f']
    ensures c == '\U{D}' ==> Escape(rt, c) == ['\\', 'r']
    ensures !Plain(rt, c) && c !in SHORT_FORMS ==> IsHexForm(Escape(rt, c), c as int)
  {
    if !Plain(rt, c) && c !in SHORT_FORMS {
      HexSplit(c as int);
      LowerHexDigits(c as int);
    }
  }

  /** A digit 0 to 9 or a letter a to f, and its value. */
  ghost predicate LowerHex(d: char, n: int) {
    ('0' <= d <= '9' && n == d as int - '0' as int) || ('a' <= d <= 'f' && n == d as int - 'a' as int + 10)
  }

  ghost predicate IsHexForm(e: string, code: int) {
    && |e| == 6 && e[0] == '\\' && e[1] == 'u'
    && exists a, b, c, d ::
         && LowerHex(e[2], a) && LowerHex(e[3], b) && LowerHex(e[4], c) && LowerHex(e[5], d)
         && code == 16 * (16 * (16 * a + b) + c) + d
  }

  lemma LowerDigit(n: nat)
    requires n < 16
    ensures LowerHex(HexDigit(n), n)
  {
  }

  lemma LowerHexDigits(n: nat)
    requires n < 0x10000
    ensures IsHexForm(UnicodeEscape(n), n)
  {
    HexSplit(n);
    var a, b, c, d := n / 16 / 16 / 16, n / 16 / 16 % 16, n / 16 % 16, n % 16;
    LowerDigit(a);
    LowerDigit(b);
    LowerDigit(c);
    LowerDigit(d);
    hide HexDigit;
    hide LowerHex;
    var e := UnicodeEscape(n);
    assert LowerHex(e[2], a) && LowerHex(e[3], b) && LowerHex(e[4], c) && LowerHex(e[5], d);
  }

  /** A string is written character by character, in order. */
  lemma {:induction false} EscapeAllConcat(rt: Runtime, a: string, b: string)
    ensures EscapeAll(rt, a + b) == EscapeAll(rt, a) + EscapeAll(rt, b)
  {
    hide Escape;
    if a == "" {
      assert a + b == b;
    } else {
      assert (a + b)[0] == a[0] && (a + b)[1..] == a[1..] + b;
      EscapeAllConcat(rt, a[1..], b);
    }
  }

  lemma EscapeOne(rt: Runtime, c: char)
    ensures EscapeAll(rt, [c]) == Escape(rt, c)
  {
    hide Escape;
    assert [c][1..] == "";
    assert EscapeAll(rt, "") == "";
  }

  /** Text of plain characters is written as it stands. */
  lemma {:induction false} PlainAsIs(rt: Runtime, s: string)
    requires forall c :: c in s ==> Plain(rt, c)
    ensures EscapeAll(rt, s) == s
  {
    if s != "" {
      EscapedAs(rt, s[0]);
      hide Escape;
      PlainAsIs(rt, s[1..]);
      assert [s[0]] + s[1..] == s;
    }
  }
}
