/** JSON string content: escaping and decoding. */
module JsonText {
  import opened Options

  /** What `trim` strips: the Unicode white space characters. */
  predicate IsSpace(c: char) {
    || '\t' <= c <= '\r' || c == ' ' || c == '\U{85}' || c == '\U{A0}' || c == '\U{1680}'
    || '\U{2000}' <= c <= '\U{200A}' || c == '\U{2028}' || c == '\U{2029}' || c == '\U{202F}'
    || c == '\U{205F}' || c == '\U{3000}'
  }

  function TrimStart(s: string): (r: string)
    ensures |r| <= |s|
  {
    if s != [] && IsSpace(s[0]) then TrimStart(s[1..]) else s
  }

  function TrimEnd(s: string): (r: string)
    ensures |r| <= |s|
  {
    if s != [] && IsSpace(s[|s| - 1]) then TrimEnd(s[..|s| - 1]) else s
  }

  function Trim(s: string): (r: string)
    ensures |r| <= |s|
  {
    TrimEnd(TrimStart(s))
  }

  /** A text that neither starts nor ends with white space. */
  predicate Tight(s: string) {
    s != [] && !IsSpace(s[0]) && !IsSpace(s[|s| - 1])
  }

  lemma TrimTight(s: string)
    requires Tight(s)
    ensures Trim(s) == s
  {
  }

  // ------------------------------------------------------------ escaping

  function HexDigit(n: nat): char
    requires n < 16
  {
    if n < 10 then '0' + (n as char) else 'a' + ((n - 10) as char)
  }

  /** The escape of one character, as in section 7 of RFC 8259. */
  function EscapeChar(c: char): (r: string)
    ensures r != [] && (r[0] == '\\' <==> r != [c])
  {
    if c == '\"' then ['\\', '\"']
    else if c == '\\' then ['\\', '\\']
    else if c == '\U{08}' then ['\\', 'b']
    else if c == '\U{0C}' then ['\\', 'f']
    else if c == '\n' then ['\\', 'n']
    else if c == '\r' then ['\\', 'r']
    else if c == '\t' then ['\\', 't']
    else if c <= '\U{1F}' then ['\\', 'u', '0', '0', HexDigit(c as int / 16), HexDigit(c as int % 16)]
    else [c]
  }

  function Escape(s: string): string {
    if s == [] then [] else EscapeChar(s[0]) + Escape(s[1..])
  }

  function Quote(s: string): string {
    ['\"'] + Escape(s) + ['\"']
  }

  /** `json_escape`. */
  method JsonEscape(s: string) returns (encoded: string)
    ensures encoded == Quote(s)
  {
    encoded := ['\"'];
    for i := 0 to |s|
      invariant encoded + Escape(s[i..]) == ['\"'] + Escape(s)
    {
      assert s[i..][1..] == s[i + 1..];
      assert (encoded + EscapeChar(s[i])) + Escape(s[i + 1..]) == encoded + (EscapeChar(s[i]) + Escape(s[i + 1..]));
      encoded := encoded + EscapeChar(s[i]);
    }
    assert s[|s|..] == [];
    assert encoded + [] == encoded;
    encoded := encoded + ['\"'];
  }

  // ------------------------------------------------------------ decoding

  function HexValue(c: char): Option<nat> {
    if '0' <= c <= '9' then Some(c as int - '0' as int)
    else if 'a' <= c <= 'f' then Some(c as int - 'a' as int + 10)
    else if 'A' <= c <= 'F' then Some(c as int - 'A' as int + 10)
    else None
  }

  function HexNumber(t: string, n: nat): Option<nat> {
    if t == [] then Some(n)
    else match HexValue(t[0])
      case None => None
      case Some(d) => HexNumber(t[1..], 16 * n + d)
  }

  /** One past what `k` more digits can make of `n`. */
  function HexLimit(n: nat, k: nat): nat
    decreases k
  {
    if k == 0 then n + 1 else HexLimit(16 * n + 15, k - 1)
  }

  lemma HexLimitGrows(m: nat, n: nat, k: nat)
    requires m <= n
    ensures HexLimit(m, k) <= HexLimit(n, k)
    decreases k
  {
    if k > 0 {
      HexLimitGrows(16 * m + 15, 16 * n + 15, k - 1);
    }
  }

  lemma {:induction false} HexNumberLimit(t: string, n: nat)
    requires HexNumber(t, n).Some?
    ensures HexNumber(t, n).value < HexLimit(n, |t|)
    decreases |t|
  {
    if t != [] {
      var d := HexValue(t[0]).value;
      HexNumberLimit(t[1..], 16 * n + d);
      HexLimitGrows(16 * n + d, 16 * n + 15, |t| - 1);
    }
  }

  lemma HexNumberBound(t: string)
    requires HexNumber(t, 0).Some? && (|t| == 3 || |t| == 4)
    ensures HexNumber(t, 0).value < 0x10000
  {
    HexNumberLimit(t, 0);
    assert HexLimit(0, 3) == HexLimit(15, 2) == HexLimit(255, 1) == HexLimit(4095, 0) == 4096;
    assert HexLimit(0, 4) == HexLimit(15, 3) == HexLimit(255, 2) == HexLimit(4095, 1) == HexLimit(65535, 0) == 65536;
  }

  /** Four hex digits; a leading plus sign passes too, as in the integer parser. */
  function Hex4(t: string): (r: Option<nat>)
    requires |t| == 4
    ensures r.Some? ==> r.value < 0x10000
  {
    var digits := if t[0] == '+' then t[1..] else t;
    if HexNumber(digits, 0).Some? then HexNumberBound(digits); HexNumber(digits, 0) else None
  }

  function Simple(e: char): Option<char> {
    if e == '\"' || e == '\\' || e == '/' then Some(e)
    else if e == 'b' then Some('\U{08}')
    else if e == 'f' then Some('\U{0C}')
    else if e == 'n' then Some('\n')
    else if e == 'r' then Some('\r')
    else if e == 't' then Some('\t')
    else None
  }

  /** The character of a `\u` escape at the start of `t` (after the `u`) and how much it uses. */
  function UnicodeEscape(t: string): (r: Option<(char, nat)>)
    ensures r.Some? ==> 0 < r.value.1 <= |t|
  {
    if |t| < 4 then None
    else match Hex4(t[..4])
      case None => None
      case Some(code) =>
        if 0xD800 <= code < 0xDC00 then
          if |t| < 10 || t[4] != '\\' || t[5] != 'u' then None
          else match Hex4(t[6..10])
            case None => None
            case Some(low) =>
              if 0xDC00 <= low < 0xE000 then Some(((0x10000 + (code - 0xD800) * 0x400 + (low - 0xDC00)) as char, 10))
              else None
        else if 0xDC00 <= code < 0xE000 then None
        else Some((code as char, 4))
  }

  function Before(c: char, rest: Option<string>): Option<string> {
    match rest case None => None case Some(s) => Some([c] + s)
  }

  /** String content up to the closing quote, which must end the text. */
  function Decode(t: string): Option<string>
    decreases |t|
  {
    if t == [] then None
    else if t[0] == '\"' then if Trim(t[1..]) == [] then Some([]) else None
    else if t[0] != '\\' then if t[0] < ' ' then None else Before(t[0], Decode(t[1..]))
    else if |t| < 2 then None
    else if Simple(t[1]).Some? then Before(Simple(t[1]).value, Decode(t[2..]))
    else if t[1] != 'u' || UnicodeEscape(t[2..]).None? then None
    else
      var u := UnicodeEscape(t[2..]).value;
      Before(u.0, Decode(t[2 + u.1..]))
  }

  /** `quoted_decoded`. */
  function Unquote(s: string): Option<string> {
    var t := Trim(s);
    if t == [] || t[0] != '\"' then None else Decode(t[1..])
  }

  function After(out: string, rest: Option<string>): Option<string> {
    match rest case None => None case Some(s) => Some(out + s)
  }

  lemma AfterBefore(out: string, c: char, rest: Option<string>)
    ensures After(out, Before(c, rest)) == After(out + [c], rest)
  {
    if rest.Some? {
      assert out + ([c] + rest.value) == (out + [c]) + rest.value;
    }
  }

  method QuotedDecoded(s: string) returns (r: Option<string>)
    ensures r == Unquote(s)
  {
    var t := Trim(s);
    if t == [] || t[0] != '\"' {
      return None;
    }
    ghost var whole := t[1..];
    t := t[1..];
    var out := [];
    assert After(out, Decode(t)) == Decode(whole) by {
      if Decode(whole).Some? { assert [] + Decode(whole).value == Decode(whole).value; }
    }
    while t != []
      invariant After(out, Decode(t)) == Decode(whole)
      decreases |t|
    {
      var c := t[0];
      if c == '\"' {
        assert out + [] == out;
        return if Trim(t[1..]) == [] then Some(out) else None;
      }
      var ch, used;
      if c != '\\' {
        if c < ' ' {
          return None;
        }
        ch, used := c, 1;
      } else {
        if |t| < 2 {
          return None;
        }
        if Simple(t[1]).Some? {
          ch, used := Simple(t[1]).value, 2;
        } else if t[1] != 'u' || UnicodeEscape(t[2..]).None? {
          return None;
        } else {
          var u := UnicodeEscape(t[2..]).value;
          ch, used := u.0, 2 + u.1;
        }
      }
      AfterBefore(out, ch, Decode(t[used..]));
      out, t := out + [ch], t[used..];
    }
    r := None;
  }

  // ------------------------------------------------------------ the round trip

  lemma HexDigitValue(n: nat)
    requires n < 16
    ensures HexValue(HexDigit(n)) == Some(n)
  {
  }

  lemma ControlEscape(c: char, rest: string)
    requires c <= '\U{1F}'
    ensures UnicodeEscape(['0', '0', HexDigit(c as int / 16), HexDigit(c as int % 16)] + rest) == Some((c, 4))
  {
    var a, b := HexDigit(c as int / 16), HexDigit(c as int % 16);
    var h := ['0', '0', a, b];
    HexDigitValue(c as int / 16);
    HexDigitValue(c as int % 16);
    assert (h + rest)[..4] == h;
    assert h[1..] == ['0', a, b] && h[1..][1..] == [a, b] && h[1..][1..][1..] == [b] && h[1..][1..][1..][1..] == [];
    assert HexNumber([b], c as int / 16) == Some(c as int);
    assert HexNumber([a, b], 0) == HexNumber([b], c as int / 16) by { assert [a, b][1..] == [b]; }
    assert HexNumber(h, 0) == HexNumber(['0', a, b], 0) == HexNumber([a, b], 0) by {
      assert ['0', a, b][1..] == [a, b];
    }
  }

  /** Decoding undoes the escape of one character. */
  lemma DecodeEscapeChar(c: char, rest: string)
    ensures Decode(EscapeChar(c) + rest) == Before(c, Decode(rest))
  {
    var e := EscapeChar(c);
    if e == [c] {
      assert (e + rest)[1..] == rest;
    } else if |e| == 2 {
      assert (e + rest)[2..] == rest && Simple(e[1]) == Some(c);
    } else {
      var t := e + rest;
      assert t[2..] == ['0', '0', HexDigit(c as int / 16), HexDigit(c as int % 16)] + rest;
      ControlEscape(c, rest);
      assert t[6..] == rest;
    }
  }

  /** Decoding an escaped string gives it back, for every string. */
  lemma {:induction false} DecodeEscape(s: string)
    ensures Decode(Escape(s) + ['\"']) == Some(s)
  {
    if s == [] {
      assert Escape(s) + ['\"'] == ['\"'];
      assert ['\"'][1..] == [];
    } else {
      var rest := Escape(s[1..]) + ['\"'];
      assert Escape(s) + ['\"'] == EscapeChar(s[0]) + rest;
      DecodeEscape(s[1..]);
      DecodeEscapeChar(s[0], rest);
      assert [s[0]] + s[1..] == s;
    }
  }

  lemma UnquoteQuote(s: string)
    ensures Unquote(Quote(s)) == Some(s)
  {
    var q := Quote(s);
    TrimTight(q);
    assert q[1..] == Escape(s) + ['\"'];
    DecodeEscape(s);
  }

  // ------------------------------------------------------------ the escapes of section 7 of RFC 8259

  /** Each two-character escape stands for its character; no other letter but `u` may follow. */
  lemma SimpleEscapes(e: char, rest: string)
    ensures e == '\"' || e == '\\' || e == '/' ==> Decode(['\\', e] + rest) == Before(e, Decode(rest))
    ensures e == 'b' ==> Decode(['\\', e] + rest) == Before(8 as char, Decode(rest))
    ensures e == 't' ==> Decode(['\\', e] + rest) == Before(9 as char, Decode(rest))
    ensures e == 'n' ==> Decode(['\\', e] + rest) == Before(10 as char, Decode(rest))
    ensures e == 'f' ==> Decode(['\\', e] + rest) == Before(12 as char, Decode(rest))
    ensures e == 'r' ==> Decode(['\\', e] + rest) == Before(13 as char, Decode(rest))
    ensures e !in ['\"', '\\', '/', 'b', 't', 'n', 'f', 'r', 'u'] ==> Decode(['\\', e] + rest) == None
  {
    assert (['\\', e] + rest)[2..] == rest;
  }

  /** The escaper writes the short escape where there is one, four hex digits for the other control
      characters, and every other character as it is. */
  lemma EscapeTable(c: char)
    ensures c == '\"' || c == '\\' ==> EscapeChar(c) == ['\\', c]
    ensures c == 8 as char ==> EscapeChar(c) == ['\\', 'b']
    ensures c == 9 as char ==> EscapeChar(c) == ['\\', 't']
    ensures c == 10 as char ==> EscapeChar(c) == ['\\', 'n']
    ensures c == 12 as char ==> EscapeChar(c) == ['\\', 'f']
    ensures c == 13 as char ==> EscapeChar(c) == ['\\', 'r']
    ensures c < ' ' && c as int !in {8, 9, 10, 12, 13} ==> EscapeChar(c) == ['\\', 'u'] + Hex4Of(c as int)
    ensures c >= ' ' && c != '\"' && c != '\\' ==> EscapeChar(c) == [c]
  {
  }

  /** Four hex digits. */
  function Hex4Of(n: nat): string
    requires n < 0x10000
  {
    [HexDigit(n / 0x1000), HexDigit(n / 0x100 % 16), HexDigit(n / 16 % 16), HexDigit(n % 16)]
  }

  lemma HexNumberStep(d: char, t: string, n: nat, v: nat)
    requires HexValue(d) == Some(v)
    ensures HexNumber([d] + t, n) == HexNumber(t, 16 * n + v)
  {
    assert ([d] + t)[1..] == t;
  }

  /** The digits of a number, read from the left. */
  lemma HexParts(n: nat)
    requires n < 0x10000
    ensures n / 0x1000 < 16 && 16 * (n / 0x1000) + n / 0x100 % 16 == n / 0x100
    ensures 16 * (n / 0x100) + n / 16 % 16 == n / 16 && 16 * (n / 16) + n % 16 == n
  {
  }

  lemma Hex4Reads(n: nat)
    requires n < 0x10000
    ensures Hex4(Hex4Of(n)) == Some(n)
  {
    HexParts(n);
    var p, q, r, s := n / 0x1000, n / 0x100 % 16, n / 16 % 16, n % 16;
    FourDigits(p, q, r, s);
  }

  lemma FourDigits(p: nat, q: nat, r: nat, s: nat)
    requires p < 16 && q < 16 && r < 16 && s < 16
    ensures Hex4([HexDigit(p), HexDigit(q), HexDigit(r), HexDigit(s)]) == Some(16 * (16 * (16 * p + q) + r) + s)
  {
    var a, b, c, d := HexDigit(p), HexDigit(q), HexDigit(r), HexDigit(s);
    HexDigitValue(p);
    HexDigitValue(q);
    HexDigitValue(r);
    HexDigitValue(s);
    HexNumberStep(a, [b, c, d], 0, p);
    HexNumberStep(b, [c, d], p, q);
    HexNumberStep(c, [d], 16 * p + q, r);
    HexNumberStep(d, [], 16 * (16 * p + q) + r, s);
    assert [a] + [b, c, d] == [a, b, c, d] && [b] + [c, d] == [b, c, d] && [c] + [d] == [c, d] && [d] + [] == [d];
  }

  /** A character as clients that escape everything beyond ASCII send it: one escape up to
      U+FFFF, a surrogate pair above. */
  function Utf16Escape(c: char): string {
    var n := c as int;
    if n < 0x10000 then ['\\', 'u'] + Hex4Of(n)
    else
      ['\\', 'u'] + Hex4Of(0xD800 + (n - 0x10000) / 0x400) + (['\\', 'u'] + Hex4Of(0xDC00 + (n - 0x10000) % 0x400))
  }

  lemma OneEscape(n: nat, rest: string)
    requires n < 0xD800 || 0xE000 <= n < 0x10000
    ensures UnicodeEscape(Hex4Of(n) + rest) == Some((n as char, 4))
  {
    assert (Hex4Of(n) + rest)[..4] == Hex4Of(n);
    Hex4Reads(n);
  }

  lemma PairEscape(high: nat, low: nat, rest: string)
    requires 0xD800 <= high < 0xDC00 && 0xDC00 <= low < 0xE000
    ensures UnicodeEscape(Hex4Of(high) + (['\\', 'u'] + Hex4Of(low)) + rest)
         == Some(((0x10000 + (high - 0xD800) * 0x400 + (low - 0xDC00)) as char, 10))
  {
    var t := Hex4Of(high) + (['\\', 'u'] + Hex4Of(low)) + rest;
    assert t[..4] == Hex4Of(high) && t[6..10] == Hex4Of(low);
    Hex4Reads(high);
    Hex4Reads(low);
  }

  /** Every character decodes from its escape, those beyond U+FFFF from their surrogate pair. */
  lemma DecodeUtf16(c: char, rest: string)
    ensures Decode(Utf16Escape(c) + rest) == Before(c, Decode(rest))
  {
    var n, t := c as int, Utf16Escape(c) + rest;
    if n < 0x10000 {
      OneEscape(n, rest);
      assert t[2..] == Hex4Of(n) + rest && t[6..] == rest;
    } else {
      var high, low := 0xD800 + (n - 0x10000) / 0x400, 0xDC00 + (n - 0x10000) % 0x400;
      PairEscape(high, low, rest);
      assert t[2..] == Hex4Of(high) + (['\\', 'u'] + Hex4Of(low)) + rest && t[12..] == rest;
      assert 0x10000 + (high - 0xD800) * 0x400 + (low - 0xDC00) == n;
    }
  }

  /** A string of such escapes decodes to the string. */
  function Utf16Escapes(s: string): string {
    if s == [] then [] else Utf16Escape(s[0]) + Utf16Escapes(s[1..])
  }

  lemma {:induction false} DecodeUtf16All(s: string)
    ensures Decode(Utf16Escapes(s) + ['\"']) == Some(s)
  {
    if s == [] {
      assert Utf16Escapes(s) + ['\"'] == ['\"'] && ['\"'][1..] == [];
    } else {
      var rest := Utf16Escapes(s[1..]) + ['\"'];
      assert Utf16Escapes(s) + ['\"'] == Utf16Escape(s[0]) + rest;
      DecodeUtf16All(s[1..]);
      DecodeUtf16(s[0], rest);
      assert [s[0]] + s[1..] == s;
    }
  }

  lemma EscapeRefused(t: string)
    requires UnicodeEscape(t).None?
    ensures Decode(['\\', 'u'] + t) == None
  {
    assert (['\\', 'u'] + t)[2..] == t;
  }

  /** A lone surrogate is refused. */
  lemma LoneSurrogateRefused(n: nat, rest: string)
    requires 0xD800 <= n < 0xE000 && (n < 0xDC00 ==> |rest| < 2 || rest[0] != '\\' || rest[1] != 'u')
    ensures Decode(['\\', 'u'] + (Hex4Of(n) + rest)) == None
  {
    LoneEscape(n, rest);
    EscapeRefused(Hex4Of(n) + rest);
  }

  lemma LoneEscape(n: nat, rest: string)
    requires 0xD800 <= n < 0xE000 && (n < 0xDC00 ==> |rest| < 2 || rest[0] != '\\' || rest[1] != 'u')
    ensures UnicodeEscape(Hex4Of(n) + rest) == None
  {
    var t := Hex4Of(n) + rest;
    assert t[..4] == Hex4Of(n);
    Hex4Reads(n);
  }
}
