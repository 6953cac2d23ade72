/** JSON values: the compact printer, the validating splitters, and their agreement. */
module JsonValue {
  import opened Options
  import opened JsonText
  import opened JsonSplit

  /** A number carries the text it prints as. */
  datatype Json =
    | JNull | JBool(b: bool) | JNum(text: string) | JStr(s: string)
    | JArr(items: seq<Json>) | JObj(members: seq<Member>)

  datatype Member = Member(key: string, value: Json)

  // ------------------------------------------------------------ scalars

  predicate Digit(c: char) { '0' <= c <= '9' }

  function SkipDigits(s: string, i: nat): (r: nat)
    requires i <= |s|
    ensures i <= r <= |s| && forall k :: i <= k < r ==> Digit(s[k])
    decreases |s| - i
  {
    if i < |s| && Digit(s[i]) then SkipDigits(s, i + 1) else i
  }

  predicate Has(s: string, i: nat, c: char) { i < |s| && s[i] == c }

  /** Where the integer, fraction and exponent parts end; none is a malformed part. */
  function IntegerEnd(s: string, i: nat): (r: Option<nat>)
    ensures r.Some? ==> i < r.value <= |s| && forall k :: i <= k < r.value ==> Digit(s[k])
  {
    if i >= |s| then None
    else if s[i] == '0' then if i + 1 < |s| && Digit(s[i + 1]) then None else Some(i + 1)
    else if '1' <= s[i] <= '9' then Some(SkipDigits(s, i + 1))
    else None
  }

  function FractionEnd(s: string, i: nat): (r: Option<nat>)
    requires i <= |s|
    ensures r.Some? ==> i <= r.value <= |s| && forall k :: i <= k < r.value ==> NumberChar(s[k])
  {
    if !Has(s, i, '.') then Some(i)
    else
      var e := SkipDigits(s, i + 1);
      if e == i + 1 then None else Some(e)
  }

  function ExponentEnd(s: string, i: nat): (r: Option<nat>)
    requires i <= |s|
    ensures r.Some? ==> i <= r.value <= |s| && forall k :: i <= k < r.value ==> NumberChar(s[k])
  {
    if !Has(s, i, 'e') && !Has(s, i, 'E') then Some(i)
    else
      var j := if Has(s, i + 1, '+') || Has(s, i + 1, '-') then i + 2 else i + 1;
      var e := SkipDigits(s, j);
      if e == j then None else Some(e)
  }

  predicate NumberChar(c: char) { Digit(c) || c == '-' || c == '+' || c == '.' || c == 'e' || c == 'E' }

  /** The number grammar of section 6 of RFC 8259. */
  predicate IsNumber(s: string) {
    match IntegerEnd(s, if Has(s, 0, '-') then 1 else 0)
    case None => false
    case Some(i) =>
      match FractionEnd(s, i)
      case None => false
      case Some(j) => ExponentEnd(s, j) == Some(|s|)
  }

  lemma NumberChars(s: string)
    requires IsNumber(s)
    ensures s != [] && (s[0] == '-' || Digit(s[0])) && forall k :: 0 <= k < |s| ==> NumberChar(s[k])
  {
    var i := IntegerEnd(s, if Has(s, 0, '-') then 1 else 0).value;
    var j := FractionEnd(s, i).value;
    forall k | 0 <= k < |s| ensures NumberChar(s[k]) {
      if k < i {
      } else if k < j {
      } else {
        assert ExponentEnd(s, j).Some?;
      }
    }
  }

  /** Where the string content `t` closes; a control character or no quote is malformed. */
  function StringEnd(t: string, escaped: bool): (r: Option<nat>)
    ensures r.Some? ==> r.value < |t|
    decreases |t|
  {
    if t == [] then None
    else if !escaped && t[0] == '\"' then Some(0)
    else if !escaped && t[0] != '\\' && t[0] < ' ' then None
    else match StringEnd(t[1..], !escaped && t[0] == '\\')
      case None => None
      case Some(e) => Some(e + 1)
  }

  predicate IsString(s: string) {
    s != [] &&
    match StringEnd(s[1..], false)
    case None => false
    case Some(e) => Unquote(s[..e + 2]).Some? && Trim(s[e + 2..]) == []
  }

  // ------------------------------------------------------------ the splitters

  /** The colon that ends the key of an object member. */
  function FindColon(t: string, quoted: bool, escaped: bool): (r: Option<nat>)
    ensures r.Some? ==> r.value < |t|
    decreases |t|
  {
    if t == [] then None
    else if !quoted && t[0] == ':' then Some(0)
    else
      var q := if quoted then escaped || t[0] != '\"' else t[0] == '\"';
      match FindColon(t[1..], q, quoted && !escaped && t[0] == '\\')
      case None => None
      case Some(i) => Some(i + 1)
  }

  method ColonIndex(t: string) returns (r: Option<nat>)
    ensures r == FindColon(t, false, false)
  {
    var quoted, escaped := false, false;
    assert t[0..] == t;
    for i := 0 to |t|
      invariant escaped ==> quoted
      invariant FindColon(t, false, false)
             == match FindColon(t[i..], quoted, escaped) case None => None case Some(k) => Some(i + k)
    {
      var c := t[i];
      assert t[i..][1..] == t[i + 1..];
      if quoted {
        if escaped {
          escaped := false;
        } else if c == '\\' {
          escaped := true;
        } else if c == '\"' {
          quoted := false;
        }
      } else if c == '\"' {
        quoted := true;
      } else if c == ':' {
        return Some(i);
      }
    }
    r := None;
  }

  function Inside(s: string): string
    requires |s| >= 2
  {
    s[1..|s| - 1]
  }

  predicate QuotedKey(k: string) { |k| >= 2 && k[0] == '\"' && k[|k| - 1] == '\"' }

  predicate IsValue(s: string)
    decreases |s|, 2
  {
    var t := Trim(s);
    && t != []
    && if t[0] == '\"' then IsString(t)
       else if t[0] == '{' then SplitObject(t, false).Some?
       else if t[0] == '[' then SplitArray(t).Some?
       else if t[0] == 't' then t == "true"
       else if t[0] == 'f' then t == "false"
       else if t[0] == 'n' then t == "null"
       else (t[0] == '-' || Digit(t[0])) && IsNumber(t)
  }

  function SplitArray(s: string): Option<seq<string>>
    decreases |s|, 1
  {
    match Split(s, '[', ']')
    case None => None
    case Some(items) =>
      if forall i :: 0 <= i < |items| ==> IsValue(items[i]) then Some(items) else None
  }

  /** `strict` keys must be free of escapes. */
  predicate KeyOk(key: string, strict: bool) {
    QuotedKey(key) && if strict then '\\' !in key else IsString(key)
  }

  function MemberParts(key: string, value: string, strict: bool): Option<(string, string)>
    decreases |value|, 3
  {
    if KeyOk(key, strict) && IsValue(value) then Some((Inside(key), value)) else None
  }

  /** The key text and value text of a member. */
  function SplitMember(pair: string, strict: bool): Option<(string, string)>
    decreases |pair|, 4
  {
    match FindColon(pair, false, false)
    case None => None
    case Some(i) => MemberParts(Trim(pair[..i]), Trim(pair[i + 1..]), strict)
  }

  function SplitMembers(pairs: seq<string>, strict: bool, size: nat): Option<seq<(string, string)>>
    requires forall i :: 0 <= i < |pairs| ==> |pairs[i]| < size
    decreases size, 0, |pairs|
  {
    if pairs == [] then Some([])
    else match SplitMember(pairs[0], strict)
      case None => None
      case Some(m) =>
        match SplitMembers(pairs[1..], strict, size)
        case None => None
        case Some(rest) => Some([m] + rest)
  }

  function SplitObject(s: string, strict: bool): Option<seq<(string, string)>>
    decreases |s|, 1
  {
    match Split(s, '{', '}')
    case None => None
    case Some(pairs) => SplitMembers(pairs, strict, |s|)
  }

  // ------------------------------------------------------------ the printer

  function Print(v: Json): string
    decreases v
  {
    match v
    case JNull => "null"
    case JBool(b) => if b then "true" else "false"
    case JNum(text) => text
    case JStr(s) => Quote(s)
    case JArr(items) => ['['] + Join(Texts(items)) + [']']
    case JObj(members) => ['{'] + Join(Pairs(members)) + ['}']
  }

  function Texts(items: seq<Json>): (r: seq<string>)
    ensures |r| == |items|
    decreases items
  {
    if items == [] then [] else [Print(items[0])] + Texts(items[1..])
  }

  function PairText(m: Member): string
    decreases m
  {
    Quote(m.key) + ([':'] + Print(m.value))
  }

  function Pairs(members: seq<Member>): (r: seq<string>)
    ensures |r| == |members|
    decreases members
  {
    if members == [] then [] else [PairText(members[0])] + Pairs(members[1..])
  }

  /** Every number in the value is a number. */
  predicate Printable(v: Json)
    decreases v
  {
    match v
    case JNum(text) => IsNumber(text)
    case JArr(items) => forall i :: 0 <= i < |items| ==> Printable(items[i])
    case JObj(members) => forall i :: 0 <= i < |members| ==> Printable(members[i].value)
    case _ => true
  }

  function Max(a: nat, b: nat): nat { if a < b then b else a }

  /** How many brackets deep a value nests. */
  function Depth(v: Json): nat
    decreases v
  {
    match v
    case JArr(items) => 1 + DepthAll(items)
    case JObj(members) => 1 + DepthMembers(members)
    case _ => 0
  }

  function DepthAll(items: seq<Json>): nat
    decreases items
  {
    if items == [] then 0 else Max(Depth(items[0]), DepthAll(items[1..]))
  }

  function DepthMembers(members: seq<Member>): nat
    decreases members
  {
    if members == [] then 0 else Max(Depth(members[0].value), DepthMembers(members[1..]))
  }
}
