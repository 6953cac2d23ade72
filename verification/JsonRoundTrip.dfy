/** Splitting a compactly printed value gives its printed members, exactly when it nests within
    the limit. */
module JsonRoundTrip {
  import opened Options
  import opened JsonText
  import opened JsonSplit
  import opened JsonValue

  // ------------------------------------------------------------ scanning texts

  /** A mode outside strings, within the limit. */
  function At(d: nat): Mode { Mode(d, false, false) }

  lemma ScanConcat(m: Mode, a: string, b: string)
    ensures ScanAll(m, a + b) == match ScanAll(m, a) case None => None case Some(n) => ScanAll(n, b)
    ensures Whole(m, a + b) <==> Whole(m, a) && (ScanAll(m, a).Some? ==> Whole(ScanAll(m, a).value, b))
    decreases |a|
  {
    if a == [] {
      assert a + b == b;
    } else {
      assert (a + b)[1..] == a[1..] + b;
      if ScanStep(m, a[0]).Some? {
        ScanConcat(ScanStep(m, a[0]).value, a[1..], b);
      }
    }
  }

  predicate Special(c: char) { c == '\"' || c == '{' || c == '}' || c == '[' || c == ']' || c == ',' }

  predicate Plain(t: string) { forall i :: 0 <= i < |t| ==> !Special(t[i]) }

  /** Text without special characters leaves the scanner where it was. */
  lemma {:induction false} ScanPlain(d: nat, t: string)
    requires Plain(t)
    ensures ScanAll(At(d), t) == Some(At(d)) && Whole(At(d), t)
    decreases |t|
  {
    if t != [] {
      assert Plain(t[1..]);
      ScanPlain(d, t[1..]);
    }
  }

  /** Inside a string, the escape of one character leaves the scanner inside it. */
  lemma ScanEscapeChar(d: nat, c: char)
    ensures var m := Mode(d, true, false); ScanAll(m, EscapeChar(c)) == Some(m) && Whole(m, EscapeChar(c))
  {
    var m, e := Mode(d, true, false), EscapeChar(c);
    if |e| == 2 {
      var esc := Mode(d, true, true);
      assert e[1..] == [e[1]] && e[1..][1..] == [];
      assert ScanStep(m, e[0]) == Some(esc) && ScanStep(esc, e[1]) == Some(m);
      assert ScanAll(esc, e[1..]) == Some(m) && Whole(esc, e[1..]);
    } else if |e| == 6 {
      var esc := Mode(d, true, true);
      HexPlain(c as int / 16);
      HexPlain(c as int % 16);
      QuotedPlain(d, e[2..]);
      assert e[1..][1..] == e[2..];
      assert ScanStep(m, e[0]) == Some(esc) && ScanStep(esc, e[1]) == Some(m);
      assert ScanAll(m, e) == ScanAll(esc, e[1..]) == ScanAll(m, e[2..]);
    } else {
      assert e[1..] == [];
    }
  }

  lemma HexPlain(n: nat)
    requires n < 16
    ensures HexDigit(n) != '\"' && HexDigit(n) != '\\' && HexDigit(n) >= ' '
  {
  }

  lemma {:induction false} QuotedPlain(d: nat, t: string)
    requires forall i :: 0 <= i < |t| ==> t[i] != '\"' && t[i] != '\\'
    ensures var m := Mode(d, true, false); ScanAll(m, t) == Some(m) && Whole(m, t)
    decreases |t|
  {
    if t != [] {
      QuotedPlain(d, t[1..]);
    }
  }

  lemma {:induction false} ScanEscape(d: nat, s: string)
    ensures var m := Mode(d, true, false); ScanAll(m, Escape(s)) == Some(m) && Whole(m, Escape(s))
  {
    if s != [] {
      ScanEscapeChar(d, s[0]);
      ScanEscape(d, s[1..]);
      ScanConcat(Mode(d, true, false), EscapeChar(s[0]), Escape(s[1..]));
    }
  }

  lemma ScanQuote(d: nat, s: string)
    ensures ScanAll(At(d), Quote(s)) == Some(At(d)) && Whole(At(d), Quote(s))
  {
    var m := Mode(d, true, false);
    ScanEscape(d, s);
    ScanConcat(m, Escape(s), ['\"']);
    assert ['\"'][1..] == [];
    var t := Escape(s) + ['\"'];
    assert Quote(s) == ['\"'] + t && Quote(s)[1..] == t;
  }

  // ------------------------------------------------------------ scanning printed values

  /** What scanning a printed value at depth `d` should give. */
  predicate Scans(t: string, d: nat, deep: nat) {
    && ScanAll(At(d), t) == (if d + deep <= MAX_DEPTH then Some(At(d)) else None)
    && Whole(At(d), t)
  }

  lemma {:induction false} ScanPrint(v: Json, d: nat)
    requires Printable(v) && d <= MAX_DEPTH
    ensures Scans(Print(v), d, Depth(v))
    decreases v
  {
    match v
    case JNull => ScanPlain(d, Print(v));
    case JBool(_) => ScanPlain(d, Print(v));
    case JNum(text) =>
      NumberChars(text);
      ScanPlain(d, text);
    case JStr(s) => ScanQuote(d, s);
    case JArr(items) =>
      if d < MAX_DEPTH { ScanTexts(items, d + 1); }
      ScanBracketed('[', Join(Texts(items)), ']', d, DepthAll(items));
    case JObj(members) =>
      if d < MAX_DEPTH { ScanPairs(members, d + 1); }
      ScanBracketed('{', Join(Pairs(members)), '}', d, DepthMembers(members));
  }

  lemma ScanBracketed(open: char, inner: string, close: char, d: nat, deep: nat)
    requires (open == '[' && close == ']') || (open == '{' && close == '}')
    requires d < MAX_DEPTH ==> Scans(inner, d + 1, deep)
    ensures Scans([open] + inner + [close], d, 1 + deep)
  {
    var t := inner + [close];
    var s := [open] + inner + [close];
    assert s == [open] + t && s[1..] == t;
    if d < MAX_DEPTH {
      ScanConcat(At(d + 1), inner, [close]);
      assert [close][1..] == [];
    }
  }

  /** Inside brackets a separating comma is nothing special. */
  lemma ScanComma(d: nat)
    requires d >= 1
    ensures ScanAll(At(d), [',']) == Some(At(d)) && Whole(At(d), [','])
  {
    assert [','][1..] == [];
  }

  lemma ScanJoinStep(t: string, rest: string, d: nat, a: nat, b: nat)
    requires d >= 1 && Scans(t, d, a) && Scans(rest, d, b)
    ensures Scans(t + [','] + rest, d, Max(a, b))
  {
    ScanComma(d);
    ScanConcat(At(d), [','], rest);
    ScanConcat(At(d), t, [','] + rest);
    assert t + [','] + rest == t + ([','] + rest);
  }

  lemma {:induction false} ScanTexts(items: seq<Json>, d: nat)
    requires (forall i :: 0 <= i < |items| ==> Printable(items[i])) && 1 <= d <= MAX_DEPTH
    ensures Scans(Join(Texts(items)), d, DepthAll(items))
    decreases items
  {
    if items != [] {
      var t, rest := Print(items[0]), items[1..];
      ScanPrint(items[0], d);
      assert Texts(items)[1..] == Texts(rest);
      if rest == [] {
        assert Texts(items) == [t];
      } else {
        ScanTexts(rest, d);
        ScanJoinStep(t, Join(Texts(rest)), d, Depth(items[0]), DepthAll(rest));
      }
    }
  }

  lemma ScanPair(key: string, t: string, d: nat, deep: nat)
    requires Scans(t, d, deep)
    ensures Scans(Quote(key) + ([':'] + t), d, deep)
  {
    ScanQuote(d, key);
    assert ([':'] + t)[1..] == t;
    ScanConcat(At(d), Quote(key), [':'] + t);
  }

  lemma {:induction false} ScanPairs(members: seq<Member>, d: nat)
    requires (forall i :: 0 <= i < |members| ==> Printable(members[i].value)) && 1 <= d <= MAX_DEPTH
    ensures Scans(Join(Pairs(members)), d, DepthMembers(members))
    decreases members
  {
    if members != [] {
      var m, rest := members[0], members[1..];
      ScanPrint(m.value, d);
      ScanPair(m.key, Print(m.value), d, Depth(m.value));
      assert Pairs(members)[1..] == Pairs(rest);
      if rest == [] {
        assert Pairs(members) == [PairText(m)];
      } else {
        ScanPairs(rest, d);
        ScanJoinStep(PairText(m), Join(Pairs(rest)), d, Depth(m.value), DepthMembers(rest));
      }
    }
  }

  // ------------------------------------------------------------ printed values are items

  lemma NumberTight(text: string)
    requires IsNumber(text)
    ensures Tight(text)
  {
    NumberChars(text);
  }

  lemma PrintTight(v: Json)
    requires Printable(v)
    ensures Tight(Print(v))
  {
    if v.JNum? { NumberTight(v.text); }
  }

  lemma PrintCell(v: Json)
    requires Printable(v) && Depth(v) <= MAX_DEPTH
    ensures Cell(Print(v))
  {
    PrintTight(v);
    ScanPrint(v, 0);
  }

  lemma PairCell(m: Member)
    requires Printable(m.value) && Depth(m.value) <= MAX_DEPTH
    ensures Cell(PairText(m))
  {
    PairNests(m);
  }

  lemma {:induction false} TextsAt(items: seq<Json>, i: nat)
    requires i < |items|
    ensures Texts(items)[i] == Print(items[i])
    decreases i
  {
    if i > 0 {
      TextsAt(items[1..], i - 1);
      assert Texts(items)[i] == Texts(items[1..])[i - 1];
    }
  }

  lemma {:induction false} PairsAt(members: seq<Member>, i: nat)
    requires i < |members|
    ensures Pairs(members)[i] == PairText(members[i])
    decreases i
  {
    if i > 0 {
      PairsAt(members[1..], i - 1);
      assert Pairs(members)[i] == Pairs(members[1..])[i - 1];
    }
  }

  /** The depth of a list is within a bound when every element's is. */
  lemma DepthAllBound(items: seq<Json>, n: nat)
    ensures DepthAll(items) <= n <==> forall i :: 0 <= i < |items| ==> Depth(items[i]) <= n
  {
    if items != [] {
      DepthAllBound(items[1..], n);
      if DepthAll(items) <= n {
        forall i | 0 <= i < |items| ensures Depth(items[i]) <= n {
          if i > 0 { assert items[i] == items[1..][i - 1]; }
        }
      }
    }
  }

  lemma DepthMembersBound(members: seq<Member>, n: nat)
    ensures DepthMembers(members) <= n <==> forall i :: 0 <= i < |members| ==> Depth(members[i].value) <= n
  {
    if members != [] {
      DepthMembersBound(members[1..], n);
      if DepthMembers(members) <= n {
        forall i | 0 <= i < |members| ensures Depth(members[i].value) <= n {
          if i > 0 { assert members[i] == members[1..][i - 1]; }
        }
      }
    }
  }

  // ------------------------------------------------------------ strings validate

  /** A position found `n` characters further on. */
  function Shift(n: nat, r: Option<nat>): Option<nat> {
    match r case None => None case Some(i) => Some(n + i)
  }

  lemma EndOverChar(c: char, rest: string)
    ensures StringEnd(EscapeChar(c) + rest, false)
         == Shift(|EscapeChar(c)|, StringEnd(rest, false))
  {
    var e := EscapeChar(c);
    var t := e + rest;
    if |e| == 1 {
      assert t[1..] == rest;
    } else if |e| == 2 {
      assert t[1..][1..] == rest;
      assert StringEnd(t[1..], true) == Shift(1, StringEnd(rest, false));
    } else {
      HexPlain(c as int / 16);
      HexPlain(c as int % 16);
      var u := ['0', '0', HexDigit(c as int / 16), HexDigit(c as int % 16)];
      EndOverPlain(u, rest);
      assert t[1..][1..] == u + rest;
      assert StringEnd(t[1..], true) == Shift(1, StringEnd(u + rest, false));
    }
  }

  lemma {:induction false} EndOverPlain(u: string, rest: string)
    requires forall i :: 0 <= i < |u| ==> u[i] != '\"' && u[i] != '\\' && u[i] >= ' '
    ensures StringEnd(u + rest, false) == Shift(|u|, StringEnd(rest, false))
    decreases |u|
  {
    if u == [] {
      assert u + rest == rest;
    } else {
      assert (u + rest)[1..] == u[1..] + rest;
      EndOverPlain(u[1..], rest);
    }
  }

  lemma {:induction false} EndOfEscape(s: string)
    ensures StringEnd(Escape(s) + ['\"'], false) == Some(|Escape(s)|)
  {
    if s == [] {
      assert Escape(s) + ['\"'] == ['\"'];
    } else {
      var rest := Escape(s[1..]) + ['\"'];
      assert Escape(s) + ['\"'] == EscapeChar(s[0]) + rest;
      EndOfEscape(s[1..]);
      EndOverChar(s[0], rest);
    }
  }

  lemma QuoteIsString(s: string)
    ensures IsString(Quote(s))
  {
    var q := Quote(s);
    assert q[1..] == Escape(s) + ['\"'];
    EndOfEscape(s);
    var e := |Escape(s)|;
    assert q[..e + 2] == q && q[e + 2..] == [];
    UnquoteQuote(s);
  }

  // ------------------------------------------------------------ the main results

  /** A printed value validates exactly when it nests at most one deeper than the limit. */
  lemma {:induction false} PrintedIsValue(v: Json)
    requires Printable(v)
    ensures IsValue(Print(v)) <==> Depth(v) <= MAX_DEPTH + 1
    decreases v, 1
  {
    PrintTight(v);
    TrimTight(Print(v));
    match v
    case JNull =>
    case JBool(_) =>
    case JNum(text) => NumberChars(text);
    case JStr(s) => QuoteIsString(s);
    case JArr(items) => SplitPrintedArray(items);
    case JObj(members) => SplitPrintedMembers(members, false);
  }

  /** Splitting a printed array gives its printed items in order, exactly when they nest within
      the limit. */
  lemma {:induction false} SplitPrintedArray(items: seq<Json>)
    requires forall i :: 0 <= i < |items| ==> Printable(items[i])
    ensures SplitArray(Print(JArr(items))) == if DepthAll(items) <= MAX_DEPTH then Some(Texts(items)) else None
    decreases items, 0
  {
    var texts := Texts(items);
    DepthAllBound(items, MAX_DEPTH);
    if DepthAll(items) <= MAX_DEPTH {
      forall i | 0 <= i < |texts| ensures Cell(texts[i]) && IsValue(texts[i]) {
        TextsAt(items, i);
        PrintCell(items[i]);
        PrintedIsValue(items[i]);
      }
      SplitJoin(texts, '[', ']');
    } else {
      TooDeepArray(items);
    }
  }

  lemma PrintCellOrDeep(v: Json)
    requires Printable(v)
    ensures if Depth(v) <= MAX_DEPTH then Cell(Print(v)) else TooDeep(Print(v)) && !Cell(Print(v))
  {
    PrintTight(v);
    ScanPrint(v, 0);
  }

  lemma TooDeepArray(items: seq<Json>)
    requires (forall i :: 0 <= i < |items| ==> Printable(items[i])) && DepthAll(items) > MAX_DEPTH
    ensures Split(Print(JArr(items)), '[', ']').None?
  {
    DeepTexts(items);
    SplitTooDeep(Texts(items), '[', ']');
  }

  lemma DeepTexts(items: seq<Json>)
    requires (forall i :: 0 <= i < |items| ==> Printable(items[i])) && DepthAll(items) > MAX_DEPTH
    ensures CellsOrDeep(Texts(items)) && !Cells(Texts(items))
  {
    forall i | 0 <= i < |items|
      ensures if Depth(items[i]) <= MAX_DEPTH then Cell(Texts(items)[i])
              else TooDeep(Texts(items)[i]) && !Cell(Texts(items)[i])
    {
      TextsAt(items, i);
      PrintCellOrDeep(items[i]);
    }
    DepthAllBound(items, MAX_DEPTH);
  }

  lemma PairCellOrDeep(m: Member)
    requires Printable(m.value)
    ensures if Depth(m.value) <= MAX_DEPTH then Cell(PairText(m)) else TooDeep(PairText(m)) && !Cell(PairText(m))
  {
    PairNests(m);
  }

  lemma TooDeepObject(members: seq<Member>)
    requires (forall i :: 0 <= i < |members| ==> Printable(members[i].value)) && DepthMembers(members) > MAX_DEPTH
    ensures Split(Print(JObj(members)), '{', '}').None?
  {
    DeepPairs(members);
    SplitTooDeep(Pairs(members), '{', '}');
  }

  lemma DeepPairs(members: seq<Member>)
    requires (forall i :: 0 <= i < |members| ==> Printable(members[i].value)) && DepthMembers(members) > MAX_DEPTH
    ensures CellsOrDeep(Pairs(members)) && !Cells(Pairs(members))
  {
    forall i | 0 <= i < |members|
      ensures if Depth(members[i].value) <= MAX_DEPTH then Cell(Pairs(members)[i])
              else TooDeep(Pairs(members)[i]) && !Cell(Pairs(members)[i])
    {
      PairsAt(members, i);
      PairCellOrDeep(members[i]);
    }
    DepthMembersBound(members, MAX_DEPTH);
  }

  lemma PairNests(m: Member)
    requires Printable(m.value)
    ensures Tight(PairText(m)) && Scans(PairText(m), 0, Depth(m.value))
  {
    PrintTight(m.value);
    ScanPrint(m.value, 0);
    ScanPair(m.key, Print(m.value), 0, Depth(m.value));
  }

  // ------------------------------------------------------------ objects

  predicate PlainKey(key: string) { '\\' !in Escape(key) }

  /** A key without escapes prints as itself. */
  lemma {:induction false} PlainKeyIsItself(key: string)
    requires PlainKey(key)
    ensures Escape(key) == key
  {
    if key != [] {
      var c, rest := key[0], key[1..];
      assert EscapeChar(c)[0] in Escape(key) && EscapeChar(c)[0] != '\\';
      assert forall x :: x in Escape(rest) ==> x in Escape(key);
      PlainKeyIsItself(rest);
      assert [c] + rest == key;
    }
  }

  /** The first colon outside strings follows the key. */
  lemma {:induction false} ColonOverQuoted(s: string, rest: string)
    ensures FindColon(Escape(s) + rest, true, false)
         == Shift(|Escape(s)|, FindColon(rest, true, false))
  {
    if s == [] {
      assert Escape(s) + rest == rest;
    } else {
      var tail := Escape(s[1..]) + rest;
      assert Escape(s) + rest == EscapeChar(s[0]) + tail;
      ColonOverQuoted(s[1..], rest);
      ColonOverChar(s[0], tail);
    }
  }

  lemma ColonOverChar(c: char, rest: string)
    ensures FindColon(EscapeChar(c) + rest, true, false)
         == Shift(|EscapeChar(c)|, FindColon(rest, true, false))
  {
    var e := EscapeChar(c);
    var t := e + rest;
    if |e| == 1 {
      assert t[1..] == rest;
    } else if |e| == 2 {
      assert t[1..][1..] == rest;
      assert FindColon(t[1..], true, true) == Shift(1, FindColon(rest, true, false));
    } else {
      HexPlain(c as int / 16);
      HexPlain(c as int % 16);
      var u := ['0', '0', HexDigit(c as int / 16), HexDigit(c as int % 16)];
      ColonOverPlain(u, rest);
      assert t[1..][1..] == u + rest;
      assert FindColon(t[1..], true, true) == Shift(1, FindColon(u + rest, true, false));
    }
  }

  lemma {:induction false} ColonOverPlain(u: string, rest: string)
    requires forall i :: 0 <= i < |u| ==> u[i] != '\"' && u[i] != '\\'
    ensures FindColon(u + rest, true, false) == Shift(|u|, FindColon(rest, true, false))
    decreases |u|
  {
    if u == [] {
      assert u + rest == rest;
    } else {
      assert (u + rest)[1..] == u[1..] + rest;
      ColonOverPlain(u[1..], rest);
    }
  }

  lemma ColonOfPair(key: string, t: string)
    ensures FindColon(Quote(key) + ([':'] + t), false, false) == Some(|Quote(key)|)
  {
    var p := Quote(key) + ([':'] + t);
    var rest := ['\"'] + ([':'] + t);
    assert p[1..] == Escape(key) + rest;
    ColonOverQuoted(key, rest);
    assert rest[1..] == [':'] + t;
    assert FindColon([':'] + t, false, false) == Some(0);
  }

  lemma PairSlices(q: string, t: string)
    ensures var p := q + ([':'] + t); |p| == |q| + 1 + |t| && p[..|q|] == q && p[|q| + 1..] == t
  {
  }

  /** Splitting a pair whose parts are known. */
  lemma SplitParts(q: string, t: string, strict: bool)
    requires FindColon(q + ([':'] + t), false, false) == Some(|q|) && Trim(q) == q && Trim(t) == t
    ensures SplitMember(q + ([':'] + t), strict) == MemberParts(q, t, strict)
  {
    PairSlices(q, t);
  }

  lemma QuoteKey(key: string)
    ensures var q := Quote(key); Trim(q) == q && QuotedKey(q) && Inside(q) == Escape(key)
  {
    TrimTight(Quote(key));
  }

  lemma QuoteKeyOk(key: string, strict: bool)
    ensures KeyOk(Quote(key), strict) <==> !strict || PlainKey(key)
  {
    QuoteKey(key);
    if strict {
      BackslashInQuote(key);
    } else {
      QuoteIsString(key);
    }
  }

  lemma BackslashInQuote(key: string)
    ensures '\\' in Quote(key) <==> '\\' in Escape(key)
  {
    var q, e := Quote(key), Escape(key);
    assert forall i :: 0 <= i < |e| ==> q[i + 1] == e[i];
    assert forall i :: 0 < i < |q| - 1 ==> q[i] == e[i - 1];
  }

  /** A printed member splits into its key text and printed value; a strict key must be plain. */
  lemma SplitPrintedMember(m: Member, strict: bool)
    requires Printable(m.value) && IsValue(Print(m.value))
    ensures SplitMember(PairText(m), strict)
         == if strict && !PlainKey(m.key) then None else Some((Escape(m.key), Print(m.value)))
  {
    var t := Print(m.value);
    ColonOfPair(m.key, t);
    PrintTight(m.value);
    TrimTight(t);
    QuoteKey(m.key);
    QuoteKeyOk(m.key, strict);
    SplitParts(Quote(m.key), t, strict);
  }

  /** What splitting the members should give. */
  function MemberTexts(members: seq<Member>): seq<(string, string)> {
    if members == [] then [] else [(Escape(members[0].key), Print(members[0].value))] + MemberTexts(members[1..])
  }

  predicate KeysFit(members: seq<Member>, strict: bool) {
    strict ==> forall i :: 0 <= i < |members| ==> PlainKey(members[i].key)
  }

  lemma SplitMembersStep(pairs: seq<string>, strict: bool, size: nat)
    requires pairs != [] && forall i :: 0 <= i < |pairs| ==> |pairs[i]| < size
    ensures SplitMembers(pairs, strict, size)
         == if SplitMember(pairs[0], strict).None? || SplitMembers(pairs[1..], strict, size).None? then None
            else Some([SplitMember(pairs[0], strict).value] + SplitMembers(pairs[1..], strict, size).value)
  {
  }

  /** Each member is printable, validates, and prints shorter than `size`. */
  ghost predicate Ready(members: seq<Member>, size: nat) {
    forall i :: 0 <= i < |members| ==>
      Printable(members[i].value) && IsValue(Print(members[i].value)) && |PairText(members[i])| < size
  }

  lemma PairsShort(members: seq<Member>, size: nat)
    requires Ready(members, size)
    ensures forall i :: 0 <= i < |members| ==> |Pairs(members)[i]| < size
  {
    forall i | 0 <= i < |members| ensures |Pairs(members)[i]| < size {
      PairsAt(members, i);
    }
  }

  lemma {:induction false} SplitPairs(members: seq<Member>, strict: bool, size: nat)
    requires Ready(members, size) && forall i :: 0 <= i < |members| ==> |Pairs(members)[i]| < size
    ensures SplitMembers(Pairs(members), strict, size)
         == if KeysFit(members, strict) then Some(MemberTexts(members)) else None
    decreases |members|
  {
    if members != [] {
      var m, rest := members[0], members[1..];
      assert Ready(rest, size) by {
        assert forall i :: 0 <= i < |rest| ==> rest[i] == members[i + 1];
      }
      PairsShort(rest, size);
      SplitPrintedMember(m, strict);
      SplitMembersStep(Pairs(members), strict, size);
      assert Pairs(members)[1..] == Pairs(rest) && Pairs(members)[0] == PairText(m);
      SplitPairs(rest, strict, size);
      KeysFitStep(members, strict);
    }
  }

  lemma KeysFitStep(members: seq<Member>, strict: bool)
    requires members != []
    ensures KeysFit(members, strict) <==> KeysFit(members[1..], strict) && (strict ==> PlainKey(members[0].key))
  {
    var rest := members[1..];
    assert forall i :: 0 < i < |members| ==> members[i] == rest[i - 1];
    assert forall i :: 0 <= i < |rest| ==> rest[i] == members[i + 1];
  }

  lemma {:induction false} SplitPrintedMembers(members: seq<Member>, strict: bool)
    requires forall i :: 0 <= i < |members| ==> Printable(members[i].value)
    ensures SplitObject(Print(JObj(members)), strict)
         == if DepthMembers(members) <= MAX_DEPTH && KeysFit(members, strict) then Some(MemberTexts(members)) else None
    decreases members, 0
  {
    var texts := Pairs(members);
    DepthMembersBound(members, MAX_DEPTH);
    if DepthMembers(members) <= MAX_DEPTH {
      forall i | 0 <= i < |texts|
        ensures Cell(texts[i]) && texts[i] == PairText(members[i]) && IsValue(Print(members[i].value))
      {
        PairsAt(members, i);
        PairCell(members[i]);
        PrintedIsValue(members[i].value);
      }
      SplitJoin(texts, '{', '}');
      SplitPairs(members, strict, |Print(JObj(members))|);
    } else {
      TooDeepObject(members);
    }
  }

  lemma MemberTextsAt(members: seq<Member>, i: nat)
    requires i < |members|
    ensures |MemberTexts(members)| == |members|
    ensures MemberTexts(members)[i] == (Escape(members[i].key), Print(members[i].value))
  {
    if |members| > 1 {
      MemberTextsAt(members[1..], if i == 0 then 0 else i - 1);
    }
  }

  /** Splitting a printed object with plain keys within the limit gives its keys and printed
      values in order; with a key that needs escapes, or nested deeper, it is refused. */
  lemma SplitPrintedObject(members: seq<Member>)
    requires forall i :: 0 <= i < |members| ==> Printable(members[i].value)
    ensures var r := SplitObject(Print(JObj(members)), true);
            && (r.Some? <==> DepthMembers(members) <= MAX_DEPTH && KeysFit(members, true))
            && (r.Some? ==> |r.value| == |members|)
            && (r.Some? ==> forall i :: 0 <= i < |members| ==> r.value[i] == (members[i].key, Print(members[i].value)))
  {
    SplitPrintedMembers(members, true);
    if members != [] { MemberTextsAt(members, 0); }
    if KeysFit(members, true) {
      forall i | 0 <= i < |members|
        ensures i < |MemberTexts(members)| && MemberTexts(members)[i] == (members[i].key, Print(members[i].value))
      {
        MemberTextsAt(members, i);
        PlainKeyIsItself(members[i].key);
      }
    }
  }
}
