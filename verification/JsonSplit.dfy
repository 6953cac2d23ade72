/** Splitting JSON arrays and objects, and its agreement with the compact printer. */
module JsonSplit {
  import opened Options
  import opened JsonText

  const MAX_DEPTH: nat := 128

  // ------------------------------------------------------------ the scanner

  /** Where a scanner is: bracket depth, inside a string, after a backslash. */
  datatype Mode = Mode(depth: int, quoted: bool, escaped: bool)

  const TOP: Mode := Mode(0, false, false)

  function QuoteStep(m: Mode, c: char): Mode {
    if m.escaped then m.(escaped := false)
    else if c == '\\' then m.(escaped := true)
    else if c == '\"' then m.(quoted := false)
    else m
  }

  /** One character; none is nesting too deep or a bracket too many. */
  function ScanStep(m: Mode, c: char): Option<Mode> {
    if m.quoted then Some(QuoteStep(m, c))
    else if c == '\"' then Some(m.(quoted := true))
    else if c == '{' || c == '[' then if m.depth + 1 > MAX_DEPTH then None else Some(m.(depth := m.depth + 1))
    else if c == '}' || c == ']' then if m.depth - 1 < 0 then None else Some(m.(depth := m.depth - 1))
    else Some(m)
  }

  function ScanAll(m: Mode, t: string): Option<Mode>
    decreases |t|
  {
    if t == [] then Some(m)
    else match ScanStep(m, t[0])
      case None => None
      case Some(n) => ScanAll(n, t[1..])
  }

  predicate TopComma(m: Mode, c: char) {
    !m.quoted && m.depth == 0 && c == ','
  }

  /** No comma of `t` separates items. */
  predicate Whole(m: Mode, t: string)
    decreases |t|
  {
    t != [] ==> !TopComma(m, t[0]) && (ScanStep(m, t[0]).Some? ==> Whole(ScanStep(m, t[0]).value, t[1..]))
  }

  /** The items of `rest`, with `cur` the text of the current item so far. */
  function Pieces(m: Mode, cur: string, rest: string, items: seq<string>, comma: bool): (r: Option<seq<string>>)
    ensures r.Some? ==> items <= r.value && forall i :: |items| <= i < |r.value| ==> |r.value[i]| <= |cur| + |rest|
    decreases |rest|
  {
    if rest == [] then
      if m.quoted || m.depth != 0 then None
      else if Trim(cur) != [] then Some(items + [Trim(cur)])
      else if comma then None
      else Some(items)
    else match ScanStep(m, rest[0])
      case None => None
      case Some(n) =>
        if !TopComma(m, rest[0]) then Pieces(n, cur + [rest[0]], rest[1..], items, comma)
        else if Trim(cur) == [] then None
        else Pieces(n, [], rest[1..], items + [Trim(cur)], true)
  }

  function Split(s: string, open: char, close: char): (r: Option<seq<string>>)
    ensures r.Some? ==> forall i :: 0 <= i < |r.value| ==> |r.value[i]| + 2 <= |s|
  {
    var t := Trim(s);
    if |t| < 2 || t[0] != open || t[|t| - 1] != close then None
    else Pieces(TOP, [], t[1..|t| - 1], [], false)
  }

  /** The scanning loop of `split`. */
  method SplitItems(s: string, open: char, close: char) returns (r: Option<seq<string>>)
    ensures r == Split(s, open, close)
  {
    var t := Trim(s);
    if |t| < 2 || t[0] != open || t[|t| - 1] != close {
      return None;
    }
    var content := t[1..|t| - 1];
    var items: seq<string> := [];
    var depth, last, comma, quoted, escaped := 0, 0, false, false, false;
    for i := 0 to |content|
      invariant last <= i
      invariant Pieces(Mode(depth, quoted, escaped), content[last..i], content[i..], items, comma)
             == Pieces(TOP, [], content, [], false)
    {
      var c := content[i];
      assert content[i..][1..] == content[i + 1..];
      assert content[last..i] + [c] == content[last..i + 1];
      if quoted {
        if escaped {
          escaped := false;
        } else if c == '\\' {
          escaped := true;
        } else if c == '\"' {
          quoted := false;
        }
      } else if c == '\"' {
        quoted := true;
      } else if c == '{' || c == '[' {
        depth := depth + 1;
        if depth > MAX_DEPTH {
          return None;
        }
      } else if c == '}' || c == ']' {
        depth := depth - 1;
        if depth < 0 {
          return None;
        }
      } else if c == ',' && depth == 0 {
        var item := Trim(content[last..i]);
        if item == [] {
          return None;
        }
        items := items + [item];
        last := i + 1;
        comma := true;
        assert content[last..i + 1] == [];
      }
    }
    if quoted || depth != 0 {
      return None;
    }
    var tail := Trim(content[last..]);
    assert content[last..] == content[last..|content|];
    if tail != [] {
      items := items + [tail];
    } else if comma {
      return None;
    }
    r := Some(items);
  }

  // ------------------------------------------------------------ splitting what was joined

  function Join(texts: seq<string>): string {
    if texts == [] then [] else if |texts| == 1 then texts[0] else texts[0] + [','] + Join(texts[1..])
  }

  /** A text the splitter takes as one item. */
  predicate Cell(t: string) {
    Tight(t) && ScanAll(TOP, t) == Some(TOP) && Whole(TOP, t)
  }

  predicate Cells(texts: seq<string>) {
    forall i :: 0 <= i < |texts| ==> Cell(texts[i])
  }

  /** Scanning on over a text without separators. */
  lemma PiecesOver(m: Mode, cur: string, t: string, rest: string, items: seq<string>, comma: bool)
    requires Whole(m, t)
    ensures Pieces(m, cur, t + rest, items, comma)
         == match ScanAll(m, t) case None => None case Some(n) => Pieces(n, cur + t, rest, items, comma)
    decreases |t|
  {
    if t == [] {
      assert t + rest == rest && cur + t == cur;
    } else {
      assert (t + rest)[1..] == t[1..] + rest;
      if ScanStep(m, t[0]).Some? {
        PiecesOver(ScanStep(m, t[0]).value, cur + [t[0]], t[1..], rest, items, comma);
        assert cur + [t[0]] + t[1..] == cur + t;
      }
    }
  }

  lemma JoinStep(texts: seq<string>)
    requires |texts| > 1
    ensures Join(texts) == texts[0] + ([','] + Join(texts[1..]))
  {
    assert texts[0] + [','] + Join(texts[1..]) == texts[0] + ([','] + Join(texts[1..]));
  }

  /** A cell followed by a comma becomes an item. */
  lemma PiecesCell(t: string, rest: string, items: seq<string>, comma: bool)
    requires Cell(t)
    ensures Pieces(TOP, [], t + ([','] + rest), items, comma) == Pieces(TOP, [], rest, items + [t], true)
  {
    PiecesOver(TOP, [], t, [','] + rest, items, comma);
    PiecesAtComma(t, rest, items, comma);
    assert [] + t == t;
  }

  lemma PiecesAtComma(t: string, rest: string, items: seq<string>, comma: bool)
    requires Tight(t)
    ensures Pieces(TOP, t, [','] + rest, items, comma) == Pieces(TOP, [], rest, items + [t], true)
  {
    TrimTight(t);
    assert ([','] + rest)[1..] == rest;
  }

  /** A last cell becomes the last item. */
  lemma PiecesLast(t: string, items: seq<string>, comma: bool)
    requires Cell(t)
    ensures Pieces(TOP, [], t, items, comma) == Some(items + [t])
  {
    assert t + [] == t && [] + t == t;
    PiecesOver(TOP, [], t, [], items, comma);
    TrimTight(t);
  }

  /** Splitting joined cells gives them back in order. */
  lemma {:induction false} PiecesJoin(texts: seq<string>, items: seq<string>, comma: bool)
    requires Cells(texts) && (comma ==> texts != [])
    ensures Pieces(TOP, [], Join(texts), items, comma) == Some(items + texts)
    decreases |texts|
  {
    if texts == [] {
      assert items + texts == items;
    } else if |texts| == 1 {
      PiecesLast(texts[0], items, comma);
      assert texts == [texts[0]];
    } else {
      var t, rest := texts[0], texts[1..];
      CellsRest(texts);
      JoinStep(texts);
      PiecesCell(t, Join(rest), items, comma);
      PiecesJoin(rest, items + [t], true);
      Regroup(items, texts);
    }
  }

  lemma Regroup(items: seq<string>, texts: seq<string>)
    requires texts != []
    ensures (items + [texts[0]]) + texts[1..] == items + texts
  {
    assert texts == [texts[0]] + texts[1..];
  }

  lemma CellsRest(texts: seq<string>)
    requires Cells(texts) && texts != []
    ensures Cells(texts[1..])
  {
    assert forall i :: 0 <= i < |texts| - 1 ==> texts[1..][i] == texts[i + 1];
  }

  /** Over a text that nests too deep the scan fails. */
  predicate TooDeep(t: string) {
    Whole(TOP, t) && ScanAll(TOP, t).None?
  }

  lemma PiecesFail(t: string, rest: string, items: seq<string>, comma: bool)
    requires TooDeep(t)
    ensures Pieces(TOP, [], t + rest, items, comma).None?
  {
    PiecesOver(TOP, [], t, rest, items, comma);
  }

  ghost predicate CellsOrDeep(texts: seq<string>) {
    forall i :: 0 <= i < |texts| ==> Cell(texts[i]) || TooDeep(texts[i])
  }

  /** One text that nests too deep spoils the join. */
  lemma {:induction false} PiecesTooDeep(texts: seq<string>, items: seq<string>, comma: bool)
    requires CellsOrDeep(texts) && !Cells(texts)
    ensures Pieces(TOP, [], Join(texts), items, comma).None?
    decreases |texts|
  {
    var t, rest := texts[0], texts[1..];
    if TooDeep(t) {
      if |texts| == 1 {
        assert t + [] == t;
        PiecesFail(t, [], items, comma);
      } else {
        JoinStep(texts);
        PiecesFail(t, [','] + Join(rest), items, comma);
      }
    } else {
      DeepRest(texts);
      JoinStep(texts);
      PiecesCell(t, Join(rest), items, comma);
      PiecesTooDeep(rest, items + [t], true);
    }
  }

  lemma DeepRest(texts: seq<string>)
    requires CellsOrDeep(texts) && !Cells(texts) && Cell(texts[0])
    ensures |texts| > 1 && CellsOrDeep(texts[1..]) && !Cells(texts[1..])
  {
    var rest := texts[1..];
    var j :| 0 <= j < |texts| && !Cell(texts[j]);
    assert rest[j - 1] == texts[j];
    assert forall i :: 0 <= i < |rest| ==> rest[i] == texts[i + 1];
  }

  lemma SplitJoin(texts: seq<string>, open: char, close: char)
    requires Cells(texts) && !IsSpace(open) && !IsSpace(close)
    ensures Split([open] + Join(texts) + [close], open, close) == Some(texts)
  {
    var s := [open] + Join(texts) + [close];
    TrimTight(s);
    assert s[1..|s| - 1] == Join(texts);
    PiecesJoin(texts, [], false);
    assert [] + texts == texts;
  }

  lemma SplitTooDeep(texts: seq<string>, open: char, close: char)
    requires CellsOrDeep(texts) && !Cells(texts) && !IsSpace(open) && !IsSpace(close)
    ensures Split([open] + Join(texts) + [close], open, close).None?
  {
    var s := [open] + Join(texts) + [close];
    TrimTight(s);
    assert s[1..|s| - 1] == Join(texts);
    PiecesTooDeep(texts, [], false);
  }

  // ------------------------------------------------------------ what any text splits into

  /** A text whose brackets and quotes close and that no top-level comma divides. */
  predicate Balanced(t: string) {
    ScanAll(TOP, t) == Some(TOP) && Whole(TOP, t)
  }

  predicate PartAt(raw: seq<string>, items: seq<string>, i: nat) {
    i < |raw| && i < |items| && Balanced(raw[i]) && Trim(raw[i]) == items[i] && items[i] != []
  }

  /** `raw` are balanced texts that are `items` but for the white space around each. */
  ghost predicate PartsOf(raw: seq<string>, items: seq<string>) {
    |raw| == |items| && forall i :: 0 <= i < |items| ==> PartAt(raw, items, i)
  }

  /** The content of brackets is blank, or balanced non-empty parts joined by commas. */
  ghost predicate MadeOf(content: string, items: seq<string>) {
    if items == [] then Trim(content) == []
    else exists raw :: PartsOf(raw, items) && content == Join(raw)
  }

  lemma ScanSnoc(m: Mode, t: string, c: char)
    requires ScanAll(m, t).Some? && Whole(m, t)
    ensures ScanAll(m, t + [c]) == ScanStep(ScanAll(m, t).value, c)
    ensures Whole(m, t + [c]) <==> !TopComma(ScanAll(m, t).value, c)
    decreases |t|
  {
    if t == [] {
      assert (t + [c])[1..] == [];
    } else {
      assert (t + [c])[1..] == t[1..] + [c];
      ScanSnoc(ScanStep(m, t[0]).value, t[1..], c);
    }
  }

  /** A scanner that is outside a string is not after a backslash. */
  predicate Settled(m: Mode) { m.escaped ==> m.quoted }

  /** `raw` and `more` are what is left of a scan: the parts it still finds. */
  ghost predicate Finds(text: string, comma: bool, raw: seq<string>, more: seq<string>) {
    if more == [] then !comma && Trim(text) == [] else PartsOf(raw, more) && text == Join(raw)
  }

  lemma PiecesEnd(m: Mode, cur: string, items: seq<string>, comma: bool) returns (raw: seq<string>, more: seq<string>)
    requires ScanAll(TOP, cur) == Some(m) && Whole(TOP, cur) && Settled(m)
    requires Pieces(m, cur, [], items, comma).Some?
    ensures Pieces(m, cur, [], items, comma) == Some(items + more) && Finds(cur, comma, raw, more)
  {
    raw, more := [cur], if Trim(cur) == [] then [] else [Trim(cur)];
    assert m == TOP && items + [] == items;
    assert more != [] ==> PartAt(raw, more, 0);
  }

  /** What one more character does to a scan that succeeds. */
  lemma PiecesStep(m: Mode, cur: string, rest: string, items: seq<string>, comma: bool)
    requires rest != [] && Pieces(m, cur, rest, items, comma).Some?
    ensures var c, tail, r := rest[0], rest[1..], Pieces(m, cur, rest, items, comma);
            ScanStep(m, c).Some? &&
            if TopComma(m, c) then Trim(cur) != [] && r == Pieces(m, [], tail, items + [Trim(cur)], true)
            else r == Pieces(ScanStep(m, c).value, cur + [c], tail, items, comma)
  {
  }

  lemma {:induction false} PiecesParts(m: Mode, cur: string, rest: string, items: seq<string>, comma: bool)
      returns (raw: seq<string>, more: seq<string>)
    requires ScanAll(TOP, cur) == Some(m) && Whole(TOP, cur) && Settled(m)
    requires Pieces(m, cur, rest, items, comma).Some?
    ensures Pieces(m, cur, rest, items, comma) == Some(items + more) && Finds(cur + rest, comma, raw, more)
    decreases |rest|
  {
    if rest == [] {
      assert cur + rest == cur;
      raw, more := PiecesEnd(m, cur, items, comma);
    } else {
      var c, tail := rest[0], rest[1..];
      PiecesStep(m, cur, rest, items, comma);
      ScanSnoc(TOP, cur, c);
      if !TopComma(m, c) {
        raw, more := PiecesParts(ScanStep(m, c).value, cur + [c], tail, items, comma);
        assert cur + rest == (cur + [c]) + tail;
      } else {
        raw, more := PiecesParts(TOP, [], tail, items + [Trim(cur)], true);
        raw, more := CommaParts(cur, rest, items, comma, raw, more);
      }
    }
  }

  lemma CommaParts(cur: string, rest: string, items: seq<string>, comma: bool, raw: seq<string>, more: seq<string>)
      returns (raw': seq<string>, more': seq<string>)
    requires Balanced(cur) && Trim(cur) != [] && rest != [] && rest[0] == ','
    requires Finds([] + rest[1..], true, raw, more)
    ensures items + more' == (items + [Trim(cur)]) + more && Finds(cur + rest, comma, raw', more')
  {
    raw', more' := [cur] + raw, [Trim(cur)] + more;
    assert raw'[1..] == raw && [] + rest[1..] == rest[1..] && rest == [','] + rest[1..];
    JoinStep(raw');
    forall i | 0 <= i < |more'| ensures PartAt(raw', more', i) {
      if i > 0 { assert PartAt(raw, more, i - 1); }
    }
  }

  lemma {:induction false} PiecesOf(raw: seq<string>, parts: seq<string>, items: seq<string>, comma: bool)
    requires parts != [] && PartsOf(raw, parts)
    ensures Pieces(TOP, [], Join(raw), items, comma) == Some(items + parts)
    decreases |raw|
  {
    assert PartAt(raw, parts, 0);
    var t := raw[0];
    if |raw| == 1 {
      assert t + [] == t && [] + t == t;
      PiecesOver(TOP, [], t, [], items, comma);
      assert parts == [parts[0]];
    } else {
      var rest := Join(raw[1..]);
      JoinStep(raw);
      PiecesOver(TOP, [], t, [','] + rest, items, comma);
      assert [] + t == t && ([','] + rest)[1..] == rest;
      forall i | 0 <= i < |parts| - 1 ensures PartAt(raw[1..], parts[1..], i) {
        assert PartAt(raw, parts, i + 1);
      }
      PiecesOf(raw[1..], parts[1..], items + [parts[0]], true);
      Regroup(items, parts);
    }
  }

  lemma {:induction false} PiecesBlank(cur: string, t: string, items: seq<string>)
    requires Trim(cur + t) == [] && (forall i :: 0 <= i < |t| ==> IsSpace(t[i]))
    ensures Pieces(TOP, cur, t, items, false) == Some(items)
    decreases |t|
  {
    if t == [] {
      assert cur + t == cur;
    } else {
      assert (cur + [t[0]]) + t[1..] == cur + t;
      PiecesBlank(cur + [t[0]], t[1..], items);
    }
  }

  lemma {:induction false} BlankIsSpace(t: string)
    requires Trim(t) == []
    ensures forall i :: 0 <= i < |t| ==> IsSpace(t[i])
    decreases |t|
  {
    if t != [] {
      if IsSpace(t[0]) {
        BlankIsSpace(t[1..]);
        assert t == [t[0]] + t[1..];
      } else {
        KeepsFirst(t);
        assert false;
      }
    }
  }

  lemma {:induction false} KeepsFirst(t: string)
    requires t != [] && !IsSpace(t[0])
    ensures TrimEnd(t) != []
    decreases |t|
  {
    if IsSpace(t[|t| - 1]) { KeepsFirst(t[..|t| - 1]); }
  }

  /** For every text: it splits into `items` exactly when, but for white space around it, it is
      the brackets around nothing or around balanced, non-empty parts joined by single commas
      that are the items but for white space around each. */
  lemma SplitIff(s: string, open: char, close: char, items: seq<string>)
    ensures Split(s, open, close) == Some(items)
       <==> var t := Trim(s);
            |t| >= 2 && t[0] == open && t[|t| - 1] == close && MadeOf(t[1..|t| - 1], items)
  {
    var t := Trim(s);
    if |t| >= 2 && t[0] == open && t[|t| - 1] == close {
      ContentIff(t[1..|t| - 1], items);
    }
  }

  lemma ContentIff(content: string, items: seq<string>)
    ensures Pieces(TOP, [], content, [], false) == Some(items) <==> MadeOf(content, items)
  {
    assert [] + content == content && [] + items == items;
    if Pieces(TOP, [], content, [], false) == Some(items) {
      var raw, more := PiecesParts(TOP, [], content, [], false);
      assert [] + more == more;
    }
    if MadeOf(content, items) {
      if items == [] {
        BlankIsSpace(content);
        PiecesBlank([], content, []);
      } else {
        var raw :| PartsOf(raw, items) && content == Join(raw);
        PiecesOf(raw, items, [], false);
      }
    }
  }
}
