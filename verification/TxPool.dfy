/** One group of the transaction pool: best first, hash-distinct, bounded. */
module TxPool {
  import opened Options
  import opened OrderedList

  datatype Ordering = FeePurity | Fee | Fifo

  datatype Tx = Tx(hash: nat, purity: int, fee: int)

  datatype Outcome = Stored | Underpriced | NoRoom

  /** `max` of zero is no bound. */
  datatype Group = Group(max: nat, ordering: Ordering)

  /** First come, first served ranks everything the same. */
  function Priority(o: Ordering, tx: Tx): int {
    match o case FeePurity => tx.purity case Fee => tx.fee case Fifo => 0
  }

  function Better(o: Ordering): (Tx, Tx) -> bool {
    (a: Tx, b: Tx) => Priority(o, a) > Priority(o, b)
  }

  function FindHash(s: seq<Tx>, hash: nat): (r: Option<nat>)
    ensures r.Some? ==> r.value < |s| && s[r.value].hash == hash
    ensures r.None? ==> forall i :: 0 <= i < |s| ==> s[i].hash != hash
  {
    if s == [] then None
    else if s[0].hash == hash then Some(0)
    else match FindHash(s[1..], hash) case None => None case Some(i) => Some(i + 1)
  }

  function Cut<T>(s: seq<T>, i: nat): seq<T>
    requires i < |s|
  {
    s[..i] + s[i + 1..]
  }

  /** The entry of the same hash out of the way. */
  function Cleared(s: seq<Tx>, tx: Tx): seq<Tx> {
    match FindHash(s, tx.hash) case None => s case Some(i) => Cut(s, i)
  }

  predicate IsUnderpriced(g: Group, s: seq<Tx>, tx: Tx) {
    var i := FindHash(s, tx.hash);
    i.Some? && !Better(g.ordering)(tx, s[i.value])
  }

  predicate HasNoRoom(g: Group, s: seq<Tx>, tx: Tx) {
    g.max > 0 && |s| >= g.max && !Better(g.ordering)(tx, s[|s| - 1])
  }

  function Added(g: Group, s: seq<Tx>, tx: Tx): seq<Tx> {
    if g.max == 0 then Insert(s, tx, Better(g.ordering)) else Bounded(s, g.max, tx, Better(g.ordering))
  }

  /** What an insert answers and leaves behind; the entry it replaces goes before room is checked. */
  function Offered(g: Group, s: seq<Tx>, tx: Tx): (Outcome, seq<Tx>) {
    if IsUnderpriced(g, s, tx) then (Underpriced, s)
    else
      var rest := Cleared(s, tx);
      if HasNoRoom(g, rest, tx) then (NoRoom, rest) else (Stored, Added(g, rest, tx))
  }

  class TxGroup {
    const max: nat
    const ordering: Ordering
    var txs: seq<Tx>

    constructor (max: nat, ordering: Ordering)
      ensures this.max == max && this.ordering == ordering && txs == []
    {
      this.max, this.ordering, txs := max, ordering, [];
    }

    method FindIndex(hash: nat) returns (r: Option<nat>)
      ensures r == FindHash(txs, hash)
    {
      assert txs[0..] == txs;
      for i := 0 to |txs|
        invariant FindHash(txs, hash) == match FindHash(txs[i..], hash) case None => None case Some(k) => Some(i + k)
      {
        assert txs[i..][1..] == txs[i + 1..];
        if txs[i].hash == hash {
          return Some(i);
        }
      }
      r := None;
    }

    /** `TxGroup::insert`. */
    method Insert(tx: Tx) returns (r: Outcome)
      modifies this
      ensures (r, txs) == Offered(Group(max, ordering), old(txs), tx)
    {
      var better := Better(ordering);
      var idx := FindIndex(tx.hash);
      if idx.Some? {
        if !better(tx, txs[idx.value]) {
          return Underpriced;
        }
        txs := txs[..idx.value] + txs[idx.value + 1..];
      }
      if max > 0 && |txs| >= max {
        if !better(tx, txs[|txs| - 1]) {
          return NoRoom;
        }
      }
      Add(tx);
      r := Stored;
    }

    /** Put the transaction in its place and cut the overflow. */
    method Add(tx: Tx)
      modifies this
      ensures txs == Added(Group(max, ordering), old(txs), tx)
    {
      var pos := FindPosition(txs, tx, Better(ordering));
      txs := txs[..pos] + [tx] + txs[pos..];
      if max > 0 && |txs| > max {
        txs := txs[..|txs| - 1];
      }
    }
  }

  // ------------------------------------------------------------ what every insert keeps

  ghost predicate DistinctHashes(s: seq<Tx>) {
    forall i, j :: 0 <= i < j < |s| ==> s[i].hash != s[j].hash
  }

  ghost predicate GroupOk(g: Group, s: seq<Tx>) {
    Sorted(s, Better(g.ordering)) && DistinctHashes(s) && (g.max > 0 ==> |s| <= g.max)
  }

  lemma BetterIsOrder(o: Ordering)
    ensures WeakOrder(Better(o))
  {
  }

  lemma CutAt<T>(s: seq<T>, i: nat)
    requires i < |s|
    ensures |Cut(s, i)| == |s| - 1 && forall k :: 0 <= k < |s| - 1 ==> Cut(s, i)[k] == if k < i then s[k] else s[k + 1]
  {
  }

  lemma CutOk(g: Group, s: seq<Tx>, i: nat)
    requires GroupOk(g, s) && i < |s|
    ensures GroupOk(g, Cut(s, i))
  {
    CutAt(s, i);
  }

  lemma CutHas(s: seq<Tx>, i: nat, x: Tx)
    requires DistinctHashes(s) && i < |s|
    ensures x in Cut(s, i) <==> x in s && x.hash != s[i].hash
  {
    CutAt(s, i);
    var c := Cut(s, i);
    if x in s && x.hash != s[i].hash {
      var k :| 0 <= k < |s| && s[k] == x;
      assert c[if k < i then k else k - 1] == x;
    }
    if x in c {
      var k :| 0 <= k < |c| && c[k] == x;
      assert x == s[if k < i then k else k + 1];
    }
  }

  lemma ClearedHas(s: seq<Tx>, tx: Tx, x: Tx)
    requires DistinctHashes(s)
    ensures x in Cleared(s, tx) <==> x in s && x.hash != tx.hash
  {
    if FindHash(s, tx.hash).Some? {
      CutHas(s, FindHash(s, tx.hash).value, x);
    }
  }

  lemma ClearedOk(g: Group, s: seq<Tx>, tx: Tx)
    requires GroupOk(g, s)
    ensures GroupOk(g, Cleared(s, tx)) && forall i :: 0 <= i < |Cleared(s, tx)| ==> Cleared(s, tx)[i].hash != tx.hash
    ensures |Cleared(s, tx)| == |s| - (if FindHash(s, tx.hash).Some? then 1 else 0)
  {
    var c := Cleared(s, tx);
    if FindHash(s, tx.hash).Some? {
      CutOk(g, s, FindHash(s, tx.hash).value);
    }
    forall i | 0 <= i < |c| ensures c[i].hash != tx.hash {
      ClearedHas(s, tx, c[i]);
      assert c[i] in c;
    }
  }

  /** Everything that was or is offered, in or out of the list, after an insert. */
  lemma InsertHas(s: seq<Tx>, tx: Tx, before: (Tx, Tx) -> bool, x: Tx)
    ensures x in Insert(s, tx, before) <==> x in s || x == tx
  {
    var p := Position(s, tx, before);
    assert s == s[..p] + s[p..];
  }

  lemma InsertDistinct(s: seq<Tx>, tx: Tx, before: (Tx, Tx) -> bool)
    requires DistinctHashes(s) && forall i :: 0 <= i < |s| ==> s[i].hash != tx.hash
    ensures DistinctHashes(Insert(s, tx, before))
  {
    var r := Insert(s, tx, before);
    forall i, j | 0 <= i < j < |r| ensures r[i].hash != r[j].hash {
      InsertAt(s, tx, before, i);
      InsertAt(s, tx, before, j);
    }
  }

  lemma AddedOk(g: Group, s: seq<Tx>, tx: Tx)
    requires GroupOk(g, s) && forall i :: 0 <= i < |s| ==> s[i].hash != tx.hash
    ensures GroupOk(g, Added(g, s, tx))
  {
    var before := Better(g.ordering);
    BetterIsOrder(g.ordering);
    InsertSorted(s, tx, before);
    InsertDistinct(s, tx, before);
  }

  /** Every insert keeps the group sorted, hash-distinct and within capacity, and a rejected one
      changes nothing, although the entry to replace is taken out before the room is checked. */
  lemma OfferKeeps(g: Group, s: seq<Tx>, tx: Tx)
    requires GroupOk(g, s)
    ensures GroupOk(g, Offered(g, s, tx).1)
    ensures !Offered(g, s, tx).0.Stored? ==> Offered(g, s, tx).1 == s
  {
    ClearedOk(g, s, tx);
    if !IsUnderpriced(g, s, tx) && !HasNoRoom(g, Cleared(s, tx), tx) {
      AddedOk(g, Cleared(s, tx), tx);
    }
  }

  // ------------------------------------------------------------ nothing better was turned away

  predicate HeldAs(g: Group, s: seq<Tx>, x: Tx, i: nat) {
    i < |s| && s[i].hash == x.hash && Priority(g.ordering, s[i]) >= Priority(g.ordering, x)
  }

  ghost predicate AllAtLeast(g: Group, s: seq<Tx>, x: Tx) {
    forall i :: 0 <= i < |s| ==> Priority(g.ordering, s[i]) >= Priority(g.ordering, x)
  }

  /** An offer was served: its hash is held at least as high, or the group is full of entries
      none of which ranks below it. */
  ghost predicate Served(g: Group, s: seq<Tx>, x: Tx) {
    (exists i :: HeldAs(g, s, x, i)) || (g.max > 0 && |s| == g.max && AllAtLeast(g, s, x))
  }

  /** A full sorted list whose last entry ranks at least as high has no entry below. */
  lemma LastIsLowest(g: Group, s: seq<Tx>, x: Tx)
    requires Sorted(s, Better(g.ordering)) && s != [] && Priority(g.ordering, s[|s| - 1]) >= Priority(g.ordering, x)
    ensures AllAtLeast(g, s, x)
  {
    forall i | 0 <= i < |s| ensures Priority(g.ordering, s[i]) >= Priority(g.ordering, x) {
      if i < |s| - 1 { assert !Better(g.ordering)(s[|s| - 1], s[i]); }
    }
  }

  /** What is in the list before the overflow is cut, is served after. */
  lemma InsertedServed(g: Group, s: seq<Tx>, tx: Tx, x: Tx, i: nat)
    requires GroupOk(g, s) && HeldAs(g, Insert(s, tx, Better(g.ordering)), x, i)
    ensures Served(g, Added(g, s, tx), x)
  {
    var r := Insert(s, tx, Better(g.ordering));
    var a := Added(g, s, tx);
    BetterIsOrder(g.ordering);
    InsertSorted(s, tx, Better(g.ordering));
    if i < |a| {
      assert HeldAs(g, a, x, i);
    } else {
      LastIsLowest(g, r, x);
      assert a == r[..|r| - 1];
    }
  }

  lemma NewlyServed(g: Group, s: seq<Tx>, tx: Tx)
    requires GroupOk(g, s)
    ensures Served(g, Offered(g, s, tx).1, tx)
  {
    ClearedOk(g, s, tx);
    var rest := Cleared(s, tx);
    if IsUnderpriced(g, s, tx) {
      assert HeldAs(g, s, tx, FindHash(s, tx.hash).value);
    } else if HasNoRoom(g, rest, tx) {
      LastIsLowest(g, rest, tx);
    } else {
      var p := Position(rest, tx, Better(g.ordering));
      InsertAt(rest, tx, Better(g.ordering), p);
      InsertedServed(g, rest, tx, tx, p);
    }
  }

  /** Served stays served. */
  lemma StillServed(g: Group, s: seq<Tx>, tx: Tx, x: Tx)
    requires GroupOk(g, s) && Served(g, s, x) && Offered(g, s, tx).0.Stored?
    ensures Served(g, Offered(g, s, tx).1, x)
  {
    ClearedOk(g, s, tx);
    if exists i :: HeldAs(g, s, x, i) {
      var i :| HeldAs(g, s, x, i);
      HeldStays(g, s, tx, x, i);
    } else {
      FullStays(g, s, tx, x);
    }
  }

  lemma HeldStays(g: Group, s: seq<Tx>, tx: Tx, x: Tx, i: nat)
    requires GroupOk(g, s) && HeldAs(g, s, x, i) && Offered(g, s, tx).0.Stored?
    ensures Served(g, Offered(g, s, tx).1, x)
  {
    ClearedOk(g, s, tx);
    var rest := Cleared(s, tx);
    var r := Insert(rest, tx, Better(g.ordering));
    var e := if x.hash == tx.hash then tx else s[i];
    InsertHas(rest, tx, Better(g.ordering), e);
    ClearedHas(s, tx, e);
    if x.hash == tx.hash {
      SameHashAt(s, i, tx);
    }
    assert e in r;
    var k :| 0 <= k < |r| && r[k] == e;
    assert HeldAs(g, r, x, k);
    InsertedServed(g, rest, tx, x, k);
  }

  lemma SameHashAt(s: seq<Tx>, i: nat, tx: Tx)
    requires DistinctHashes(s) && i < |s| && s[i].hash == tx.hash
    ensures FindHash(s, tx.hash) == Some(i)
  {
  }

  lemma FullStays(g: Group, s: seq<Tx>, tx: Tx, x: Tx)
    requires GroupOk(g, s) && Offered(g, s, tx).0.Stored? && g.max > 0 && |s| == g.max && AllAtLeast(g, s, x)
    ensures Served(g, Offered(g, s, tx).1, x)
  {
    ClearedOk(g, s, tx);
    var rest := Cleared(s, tx);
    var r := Insert(rest, tx, Better(g.ordering));
    var a := Offered(g, s, tx).1;
    assert Priority(g.ordering, tx) >= Priority(g.ordering, x);
    forall i | 0 <= i < |a| ensures Priority(g.ordering, a[i]) >= Priority(g.ordering, x) {
      assert a[i] == r[i] && r[i] in r;
      InsertHas(rest, tx, Better(g.ordering), r[i]);
      ClearedHas(s, tx, r[i]);
    }
  }

  // ------------------------------------------------------------ every run of inserts

  function Run(g: Group, offers: seq<Tx>): seq<Tx> {
    if offers == [] then [] else Offered(g, Run(g, offers[..|offers| - 1]), offers[|offers| - 1]).1
  }

  /** After any run of inserts: the group is sorted, hash-distinct and within capacity, and no
      offer whose hash is absent ranked above any retained entry. */
  lemma {:induction false} RunServesAll(g: Group, offers: seq<Tx>, k: nat)
    requires k < |offers|
    ensures GroupOk(g, Run(g, offers)) && Served(g, Run(g, offers), offers[k])
  {
    var n := |offers| - 1;
    var s := Run(g, offers[..n]);
    RunOk(g, offers[..n]);
    OfferKeeps(g, s, offers[n]);
    if k == n {
      NewlyServed(g, s, offers[n]);
    } else {
      RunServesAll(g, offers[..n], k);
      assert offers[..n][k] == offers[k];
      if Offered(g, s, offers[n]).0.Stored? {
        StillServed(g, s, offers[n], offers[k]);
      }
    }
  }

  lemma {:induction false} RunOk(g: Group, offers: seq<Tx>)
    ensures GroupOk(g, Run(g, offers))
  {
    if offers != [] {
      RunOk(g, offers[..|offers| - 1]);
      OfferKeeps(g, Run(g, offers[..|offers| - 1]), offers[|offers| - 1]);
    }
  }

  // ------------------------------------------------------------ what the group ranks by

  predicate Holds(s: seq<Tx>, hash: nat) {
    exists i :: 0 <= i < |s| && s[i].hash == hash
  }

  ghost predicate PurityDescends(s: seq<Tx>) {
    forall i, j :: 0 <= i < j < |s| ==> s[i].purity >= s[j].purity
  }

  ghost predicate FeeDescends(s: seq<Tx>) {
    forall i, j :: 0 <= i < j < |s| ==> s[i].fee >= s[j].fee
  }

  ghost predicate NonePurer(s: seq<Tx>, x: Tx) {
    forall i :: 0 <= i < |s| ==> s[i].purity >= x.purity
  }

  ghost predicate NoneDearer(s: seq<Tx>, x: Tx) {
    forall i :: 0 <= i < |s| ==> s[i].fee >= x.fee
  }

  /** After any run a group by fee purity descends in fee purity, and no offer whose hash is
      absent had a higher one than any retained entry. */
  lemma PurityRun(max: nat, offers: seq<Tx>, k: nat)
    requires k < |offers|
    ensures var s := Run(Group(max, FeePurity), offers);
            && PurityDescends(s)
            && (!Holds(s, offers[k].hash) ==> NonePurer(s, offers[k]))
            && (Holds(s, offers[k].hash) ==> exists i :: 0 <= i < |s| && s[i].hash == offers[k].hash
                                                         && s[i].purity >= offers[k].purity)
  {
    var g := Group(max, FeePurity);
    RunServesAll(g, offers, k);
    var s := Run(g, offers);
    forall i, j | 0 <= i < j < |s| ensures s[i].purity >= s[j].purity {
      assert !Better(FeePurity)(s[j], s[i]);
    }
    ServedMeans(g, s, offers[k]);
  }

  /** After any run a group by fee descends in fee, and no offer whose hash is absent had a
      higher one than any retained entry. */
  lemma FeeRun(max: nat, offers: seq<Tx>, k: nat)
    requires k < |offers|
    ensures var s := Run(Group(max, Fee), offers);
            && FeeDescends(s)
            && (!Holds(s, offers[k].hash) ==> NoneDearer(s, offers[k]))
            && (Holds(s, offers[k].hash) ==> exists i :: 0 <= i < |s| && s[i].hash == offers[k].hash
                                                         && s[i].fee >= offers[k].fee)
  {
    var g := Group(max, Fee);
    RunServesAll(g, offers, k);
    var s := Run(g, offers);
    forall i, j | 0 <= i < j < |s| ensures s[i].fee >= s[j].fee {
      assert !Better(Fee)(s[j], s[i]);
    }
    ServedMeans(g, s, offers[k]);
  }

  /** A served offer, split on whether its hash is held. */
  lemma ServedMeans(g: Group, s: seq<Tx>, x: Tx)
    requires Served(g, s, x)
    ensures !Holds(s, x.hash) ==> AllAtLeast(g, s, x)
    ensures Holds(s, x.hash) ==> exists i :: HeldAs(g, s, x, i)
  {
    if Holds(s, x.hash) && !exists i :: HeldAs(g, s, x, i) {
      var i :| 0 <= i < |s| && s[i].hash == x.hash;
      assert HeldAs(g, s, x, i);
    }
  }

  /** The offers whose hash no earlier offer has. */
  function FirstSeen(offers: seq<Tx>): seq<Tx> {
    if offers == [] then []
    else
      var n := |offers| - 1;
      FirstSeen(offers[..n]) + (if Holds(offers[..n], offers[n].hash) then [] else [offers[n]])
  }

  lemma {:induction false} FirstSeenHolds(offers: seq<Tx>, hash: nat)
    ensures Holds(FirstSeen(offers), hash) <==> Holds(offers, hash)
  {
    if offers != [] {
      var n := |offers| - 1;
      FirstSeenHolds(offers[..n], hash);
      assert offers == offers[..n] + [offers[n]];
      HoldsSnoc(offers[..n], offers[n], hash);
      HoldsSnoc(FirstSeen(offers[..n]), offers[n], hash);
      assert FirstSeen(offers[..n]) + [] == FirstSeen(offers[..n]);
    }
  }

  lemma HoldsSnoc(s: seq<Tx>, x: Tx, hash: nat)
    ensures Holds(s + [x], hash) <==> Holds(s, hash) || x.hash == hash
  {
    var t := s + [x];
    assert t[|s|] == x;
    if Holds(s, hash) {
      var i :| 0 <= i < |s| && s[i].hash == hash;
      assert t[i].hash == hash;
    }
  }

  /** One offer to a first-in-first-out group: kept at the end if its hash is new and there is
      room, else nothing changes. */
  lemma FifoOffer(max: nat, s: seq<Tx>, tx: Tx)
    requires max > 0 ==> |s| <= max
    ensures Offered(Group(max, Fifo), s, tx).1
         == if Holds(s, tx.hash) || (max > 0 && |s| >= max) then s else s + [tx]
  {
    PositionIs(s, tx, Better(Fifo), |s|);
    assert s[..|s|] + [tx] + s[|s|..] == s + [tx];
  }

  function Kept(max: nat, s: seq<Tx>): seq<Tx> { if max == 0 then s else Take(s, max) }

  /** A first-in-first-out group holds the first offers of distinct hash, in order of arrival. */
  lemma {:induction false} FifoRun(max: nat, offers: seq<Tx>)
    ensures Run(Group(max, Fifo), offers) == Kept(max, FirstSeen(offers))
  {
    if offers != [] {
      var n := |offers| - 1;
      var before, seen := offers[..n], FirstSeen(offers[..n]);
      FifoRun(max, before);
      FirstSeenHolds(before, offers[n].hash);
      FifoOffer(max, Kept(max, seen), offers[n]);
      KeptNext(max, seen, offers[n]);
    }
  }

  lemma KeptNext(max: nat, seen: seq<Tx>, tx: Tx)
    ensures Holds(Kept(max, seen), tx.hash) ==> Holds(seen, tx.hash)
    ensures Kept(max, seen + [tx])
         == if max > 0 && |Kept(max, seen)| >= max then Kept(max, seen) else Kept(max, seen) + [tx]
    ensures (max > 0 && |Kept(max, seen)| >= max) || Kept(max, seen) == seen
  {
  }

  /** What a group by fee purity answers: a held hash is replaced exactly by a higher purity, a
      new one refused exactly by a full group none of whose entries is lower. */
  lemma PurityAnswers(max: nat, s: seq<Tx>, tx: Tx)
    requires PurityDescends(s) && DistinctHashes(s) && (max > 0 ==> |s| <= max)
    ensures var r := Offered(Group(max, FeePurity), s, tx).0;
            && (r == Underpriced <==> exists i :: 0 <= i < |s| && s[i].hash == tx.hash && s[i].purity >= tx.purity)
            && (r == NoRoom <==> !Holds(s, tx.hash) && max > 0 && |s| >= max && NonePurer(s, tx))
  {
    AnswerCases(Group(max, FeePurity), s, tx);
    assert Sorted(s, Better(FeePurity));
  }

  /** The same by fee. */
  lemma FeeAnswers(max: nat, s: seq<Tx>, tx: Tx)
    requires FeeDescends(s) && DistinctHashes(s) && (max > 0 ==> |s| <= max)
    ensures var r := Offered(Group(max, Fee), s, tx).0;
            && (r == Underpriced <==> exists i :: 0 <= i < |s| && s[i].hash == tx.hash && s[i].fee >= tx.fee)
            && (r == NoRoom <==> !Holds(s, tx.hash) && max > 0 && |s| >= max && NoneDearer(s, tx))
  {
    AnswerCases(Group(max, Fee), s, tx);
  }

  lemma AnswerCases(g: Group, s: seq<Tx>, tx: Tx)
    requires DistinctHashes(s) && (g.max > 0 ==> |s| <= g.max)
    ensures FindHash(s, tx.hash).Some? <==> Holds(s, tx.hash)
    ensures forall i :: 0 <= i < |s| && s[i].hash == tx.hash ==> FindHash(s, tx.hash) == Some(i)
    ensures FindHash(s, tx.hash).Some? ==> !HasNoRoom(g, Cleared(s, tx), tx)
  {
    if FindHash(s, tx.hash).Some? {
      CutAt(s, FindHash(s, tx.hash).value);
    }
  }

  lemma OfferedHas(g: Group, s: seq<Tx>, tx: Tx, x: Tx)
    requires GroupOk(g, s) && x in Offered(g, s, tx).1
    ensures x in s || x == tx
  {
    OfferKeeps(g, s, tx);
    if Offered(g, s, tx).0.Stored? {
      InsertHas(Cleared(s, tx), tx, Better(g.ordering), x);
      ClearedHas(s, tx, x);
    }
  }

  /** Whatever a group retains was offered. */
  lemma {:induction false} RetainedWasOffered(g: Group, offers: seq<Tx>, x: Tx)
    requires x in Run(g, offers)
    ensures x in offers
  {
    if offers != [] {
      var n := |offers| - 1;
      RunOk(g, offers[..n]);
      OfferedHas(g, Run(g, offers[..n]), offers[n], x);
      if x != offers[n] {
        RetainedWasOffered(g, offers[..n], x);
      }
    }
  }
}
