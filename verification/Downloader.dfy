/** The block downloader: a window of requests, responses in any order, one contiguous
    stream of batches out. */
module Downloader {
  const SYNC_WINDOW: nat := 3
  const MAX_BLOCKS: nat := 10000

  /** A decoded response header. */
  datatype Header = Header(tip: nat, start: nat, end: nat, count: nat, request: nat)

  /** The checks of the wire decoder. */
  predicate WellFormed(h: Header) {
    1 <= h.start <= h.end && h.count == h.end - h.start + 1 && h.count <= MAX_BLOCKS
  }

  /** `inflight` maps a request to the height it asks for, `pending` buffers responses by start. */
  datatype Session = Session(nextReq: nat, nextStart: nat, tip: nat, inflight: map<nat, nat>,
                             pending: map<nat, Header>, nextApply: nat)

  /** `Ignored` leaves the session alone, `Broken` ends it, `Stalled` is a response that does not
      advance, `Drained` hands batches on. */
  datatype Outcome = Ignored | Broken | Stalled | Drained(ready: seq<Header>, caughtUp: bool)

  function Min(a: nat, b: nat): nat { if a < b then a else b }

  predicate CanFill(s: Session) {
    |s.inflight| < SYNC_WINDOW && s.nextStart <= s.tip
  }

  function Filled(s: Session): Session {
    s.(nextReq := s.nextReq + 1, nextStart := s.nextStart + MAX_BLOCKS,
       inflight := s.inflight[s.nextReq := s.nextStart])
  }

  /** Requests until the window is full or the tip is covered. */
  function FillAll(s: Session): (r: Session)
    ensures !CanFill(r)
    decreases if s.nextStart <= s.tip then s.tip - s.nextStart + 1 else 0
  {
    if CanFill(s) then FillAll(Filled(s)) else s
  }

  /** At most `n` requests. */
  function FillSome(s: Session, n: nat): Session
    decreases n
  {
    if n == 0 || !CanFill(s) then s else FillSome(Filled(s), n - 1)
  }

  /** A request that could not be sent is withdrawn; only its number is used up. */
  function Withdrawn(s: Session): Session {
    s.(nextReq := s.nextReq + 1, inflight := s.inflight - {s.nextReq})
  }

  /** Requests numbered from `req` for consecutive windows from `start`. */
  predicate InOrder(requests: seq<(nat, nat)>, req: nat, start: nat) {
    forall i :: 0 <= i < |requests| ==> requests[i] == (req + i, start + i * MAX_BLOCKS)
  }

  lemma {:induction false} FillSomeAll(s: Session, n: nat)
    requires !CanFill(FillSome(s, n))
    ensures FillSome(s, n) == FillAll(s)
    decreases n
  {
    if n > 0 && CanFill(s) {
      FillSomeAll(Filled(s), n - 1);
    }
  }

  predicate Short(s: Session, h: Header) {
    h.end < Min(s.nextApply + MAX_BLOCKS - 1, s.tip)
  }

  /** Keep only what starts below `next`. */
  function KeepBelow(s: Session, next: nat): Session {
    s.(inflight := map r | r in s.inflight && s.inflight[r] < next :: s.inflight[r],
       pending := map x | x in s.pending && x < next :: s.pending[x],
       nextStart := next)
  }

  /** Hand on the batch at the applied height; a short one discards the plan beyond it. */
  function Advanced(s: Session): (r: Session)
    requires s.nextApply in s.pending
  {
    var h := s.pending[s.nextApply];
    var moved := s.(pending := s.pending - {s.nextApply}, nextApply := h.end + 1);
    if Short(s, h) then KeepBelow(moved, h.end + 1) else moved
  }

  /** The batches a drain hands on, in order, the session after it, and whether every response
      it met advanced. */
  function Drain(s: Session): (r: (seq<Header>, Session, bool))
    decreases |s.pending|
  {
    if s.nextApply !in s.pending then ([], s, true)
    else
      var h := s.pending[s.nextApply];
      if h.end < s.nextApply then ([], s.(pending := s.pending - {s.nextApply}), false)
      else if Short(s, h) then ([h], Advanced(s), true)
      else
        var rest := Drain(Advanced(s));
        ([h] + rest.0, rest.1, rest.2)
  }

  function Accepted(s: Session, h: Header): Session {
    s.(inflight := s.inflight - {h.request}, tip := if h.tip > s.tip then h.tip else s.tip,
       pending := s.pending[h.start := h])
  }

  predicate CaughtUp(s: Session) {
    s.nextApply >= s.tip + 1 && s.inflight == map[] && s.pending == map[]
  }

  function Respond(s: Session, h: Header): (Outcome, Session) {
    if h.request !in s.inflight then (Ignored, s)
    else if h.start != s.inflight[h.request] || h.count > MAX_BLOCKS then (Broken, s)
    else
      var d := Drain(Accepted(s, h));
      (if d.2 then Drained(d.0, CaughtUp(d.1)) else Stalled, d.1)
  }

  // ------------------------------------------------------------ the session as it runs

  class SyncSession {
    var nextReq: nat
    var nextStart: nat
    var tip: nat
    var inflight: map<nat, nat>
    var pending: map<nat, Header>
    var nextApply: nat

    function Abs(): Session
      reads this
    {
      Session(nextReq, nextStart, tip, inflight, pending, nextApply)
    }

    constructor (start: nat, tip: nat)
      ensures Abs() == Session(1, start, tip, map[], map[], start)
    {
      nextReq, nextStart, this.tip, inflight, pending, nextApply := 1, start, tip, map[], map[], start;
    }

    /** Plan the next request. */
    method Ask() returns (req: nat, start: nat)
      modifies this
      ensures Abs() == Filled(old(Abs())) && req == old(nextReq) && start == old(nextStart)
    {
      req, start := nextReq, nextStart;
      nextReq := nextReq + 1;
      nextStart := start + MAX_BLOCKS;
      inflight := inflight[req := start];
    }

    /** Take a planned request back. */
    method Withdraw(req: nat, start: nat)
      modifies this
      ensures Abs() == old(Abs()).(inflight := old(inflight) - {req}, nextStart := start)
    {
      inflight := inflight - {req};
      nextStart := start;
    }

    /** `sync_fill_window`: `sendable` requests go out before a send fails. A failed one is
        withdrawn and ends the session. */
    method FillWindow(sendable: nat) returns (requests: seq<(nat, nat)>, ok: bool)
      modifies this
      ensures ok <==> !CanFill(FillSome(old(Abs()), sendable))
      ensures Abs() == if ok then FillAll(old(Abs())) else Withdrawn(FillSome(old(Abs()), sendable))
      ensures |requests| == nextReq - old(nextReq) - if ok then 0 else 1
      ensures InOrder(requests, old(nextReq), old(nextStart))
    {
      requests := [];
      ghost var s := Abs();
      while |inflight| < SYNC_WINDOW && nextStart <= tip
        invariant |requests| <= sendable && FillSome(Abs(), sendable - |requests|) == FillSome(s, sendable)
        invariant |requests| == nextReq - s.nextReq && nextStart == s.nextStart + |requests| * MAX_BLOCKS
        invariant InOrder(requests, s.nextReq, s.nextStart)
        decreases if nextStart <= tip then tip - nextStart + 1 else 0
      {
        ghost var t := Abs();
        var req, start := Ask();
        if |requests| == sendable {
          Withdraw(req, start);
          assert inflight == t.inflight - {req};
          return requests, false;
        }
        requests := requests + [(req, start)];
      }
      FillSomeAll(s, sendable);
      ok := true;
    }

    /** One round of the drain loop. */
    method HandOn() returns (item: Header, short: bool)
      requires nextApply in pending && pending[nextApply].end >= nextApply
      modifies this
      ensures Abs() == Advanced(old(Abs())) && |pending| < |old(pending)|
      ensures item == old(pending)[old(nextApply)] && short == Short(old(Abs()), item)
    {
      item := pending[nextApply];
      var next := item.end + 1;
      short := item.end < Min(nextApply + MAX_BLOCKS - 1, tip);
      pending := pending - {nextApply};
      ghost var rest := pending;
      nextApply := next;
      if short {
        inflight := map q | q in inflight && inflight[q] < next :: inflight[q];
        pending := map x | x in pending && x < next :: pending[x];
        nextStart := next;
        assert pending.Keys <= rest.Keys;
        Smaller(pending.Keys, rest.Keys);
      }
    }

    /** The planning part of `handle_blocks_message`. */
    method HandleBlocks(h: Header) returns (r: Outcome)
      modifies this
      ensures (r, Abs()) == Respond(old(Abs()), h)
    {
      if h.request !in inflight {
        return Ignored;
      }
      if h.start != inflight[h.request] || h.count > MAX_BLOCKS {
        return Broken;
      }
      inflight := inflight - {h.request};
      tip := if h.tip > tip then h.tip else tip;
      pending := pending[h.start := h];
      var ready, advanced := DrainReady();
      if !advanced {
        return Stalled;
      }
      r := Drained(ready, nextApply >= tip + 1 && inflight == map[] && pending == map[]);
    }

    /** Hand on buffered batches while the next one is there, stopping after a short one and
        at one that does not advance. */
    method DrainReady() returns (ready: seq<Header>, advanced: bool)
      modifies this
      ensures (ready, Abs(), advanced) == Drain(old(Abs()))
    {
      ghost var s := Abs();
      ready := [];
      assert ready + Drain(s).0 == Drain(s).0;
      while nextApply in pending
        invariant ready + Drain(Abs()).0 == Drain(s).0 && Drain(Abs()).1 == Drain(s).1 && Drain(Abs()).2 == Drain(s).2
        decreases |pending|
      {
        if pending[nextApply].end + 1 <= nextApply {
          pending := pending - {nextApply};
          assert ready + [] == ready;
          return ready, false;
        }
        var item, short := HandOn();
        if short {
          ready := ready + [item];
          return ready, true;
        }
        assert ready + ([item] + Drain(Abs()).0) == (ready + [item]) + Drain(Abs()).0;
        ready := ready + [item];
      }
      assert ready + [] == ready;
      advanced := true;
    }
  }

  lemma Smaller(a: set<nat>, b: set<nat>)
    requires a <= b
    ensures |a| <= |b|
  {
    if x :| x in a {
      Smaller(a - {x}, b - {x});
    }
  }

  // ------------------------------------------------------------ the plan

  /** A height some request in flight asks for, or some buffered response starts at. */
  predicate Asked(s: Session, x: nat) {
    exists r :: r in s.inflight && s.inflight[r] == x
  }

  predicate Planned(s: Session, x: nat) {
    x in s.pending || Asked(s, x)
  }

  /** A window boundary between the applied height and the next request. */
  predicate OnGrid(s: Session, x: int) {
    s.nextApply <= x < s.nextStart && (x - s.nextApply) % MAX_BLOCKS == 0
  }

  /** Each start is asked for once, by an earlier request, and not buffered as well. */
  ghost predicate AskedOnce(s: Session) {
    && (forall r :: r in s.inflight ==> r < s.nextReq && s.inflight[r] !in s.pending)
    && (forall r, q :: r in s.inflight && q in s.inflight && r != q ==> s.inflight[r] != s.inflight[q])
  }

  ghost predicate PendingOk(s: Session) {
    forall x :: x in s.pending ==> WellFormed(s.pending[x]) && s.pending[x].start == x
  }

  /** What is planned is exactly the grid from the applied height to the next request, all of
      it at or below the tip. */
  ghost predicate Aligned(s: Session) {
    && s.nextApply <= s.nextStart && (s.nextStart - s.nextApply) % MAX_BLOCKS == 0
    && (forall x: nat :: Planned(s, x) <==> OnGrid(s, x))
    && (forall x: nat :: Planned(s, x) ==> x <= s.tip)
  }

  /** Nothing is left to plan: everything up to the tip is handed on. */
  predicate Done(s: Session) {
    s.inflight == map[] && s.pending == map[] && s.nextApply > s.tip && s.nextStart > s.tip
  }

  ghost predicate PlanOk(s: Session) {
    AskedOnce(s) && PendingOk(s) && (Aligned(s) || Done(s))
  }

  /** Between messages nothing that could be handed on is kept back. */
  ghost predicate Inv(s: Session) {
    PlanOk(s) && s.nextApply !in s.pending && s.nextApply >= 1
  }

  lemma FilledKeeps(s: Session)
    requires PlanOk(s) && CanFill(s)
    ensures PlanOk(Filled(s))
  {
    var t := Filled(s);
    assert !Planned(s, s.nextStart) by {
      assert !OnGrid(s, s.nextStart);
    }
    forall x: nat ensures Planned(t, x) <==> Planned(s, x) || x == s.nextStart {
      AskedFilled(s, x);
    }
    forall x: nat ensures OnGrid(t, x) <==> OnGrid(s, x) || x == s.nextStart {
      GridGrows(s.nextApply, s.nextStart, x);
    }
  }

  lemma AskedFilled(s: Session, x: nat)
    requires s.nextReq !in s.inflight
    ensures Asked(Filled(s), x) <==> Asked(s, x) || x == s.nextStart
  {
    var t := Filled(s);
    assert t.inflight[s.nextReq] == s.nextStart;
    if Asked(s, x) {
      var r :| r in s.inflight && s.inflight[r] == x;
      assert r in t.inflight && t.inflight[r] == x;
    }
  }

  /** The grid up to one window further has exactly one more point. */
  lemma GridGrows(lo: int, hi: int, x: int)
    requires lo <= hi && (hi - lo) % MAX_BLOCKS == 0
    ensures (lo <= x < hi + MAX_BLOCKS && (x - lo) % MAX_BLOCKS == 0)
       <==> (lo <= x < hi && (x - lo) % MAX_BLOCKS == 0) || x == hi
  {
    if hi <= x < hi + MAX_BLOCKS && (x - lo) % MAX_BLOCKS == 0 {
      assert (x - hi) % MAX_BLOCKS == 0;
    }
  }

  lemma AcceptedKeeps(s: Session, h: Header)
    requires PlanOk(s) && h.request in s.inflight && h.start == s.inflight[h.request] && WellFormed(h)
    ensures PlanOk(Accepted(s, h)) && Aligned(Accepted(s, h))
  {
    var t := Accepted(s, h);
    assert Asked(s, h.start);
    forall x: nat ensures Planned(t, x) <==> Planned(s, x) {
      if x != h.start && Asked(s, x) {
        var r :| r in s.inflight && s.inflight[r] == x;
        assert r in t.inflight && t.inflight[r] == x;
      }
      if Asked(t, x) {
        var r :| r in t.inflight && t.inflight[r] == x;
        assert r in s.inflight && s.inflight[r] == x;
      }
    }
    assert forall x: nat :: OnGrid(t, x) <==> OnGrid(s, x);
  }

  /** A batch that is not short either fills its window or ends the plan. */
  lemma FullAdvance(s: Session)
    requires PlanOk(s) && Aligned(s) && s.nextApply in s.pending && !Short(s, s.pending[s.nextApply])
    ensures PlanOk(Advanced(s))
  {
    var h, t := s.pending[s.nextApply], Advanced(s);
    assert Planned(s, s.nextApply);
    AdvancedPlan(s);
    if h.end == s.nextApply + MAX_BLOCKS - 1 {
      forall x: nat ensures OnGrid(t, x) <==> OnGrid(s, x) && x != s.nextApply {
        GridShrinks(s.nextApply, s.nextStart, x);
      }
      GridShrinks(s.nextApply, s.nextStart, s.nextStart);
    } else {
      LastWindow(s);
    }
  }

  /** Dropping the applied start from the plan leaves the rest as it was. */
  lemma AdvancedPlan(s: Session)
    requires AskedOnce(s) && s.nextApply in s.pending && !Short(s, s.pending[s.nextApply])
    ensures forall x: nat :: Planned(Advanced(s), x) <==> Planned(s, x) && x != s.nextApply
  {
    var t := Advanced(s);
    forall x: nat ensures Planned(t, x) <==> Planned(s, x) && x != s.nextApply {
      assert Asked(t, x) <==> Asked(s, x);
    }
  }

  lemma GridShrinks(lo: int, hi: int, x: int)
    requires lo < hi && (hi - lo) % MAX_BLOCKS == 0
    ensures lo + MAX_BLOCKS <= hi && (hi - (lo + MAX_BLOCKS)) % MAX_BLOCKS == 0
    ensures (lo + MAX_BLOCKS <= x < hi && (x - (lo + MAX_BLOCKS)) % MAX_BLOCKS == 0)
       <==> (lo <= x < hi && (x - lo) % MAX_BLOCKS == 0) && x != lo
  {
    assert (x - (lo + MAX_BLOCKS)) % MAX_BLOCKS == (x - lo) % MAX_BLOCKS;
    assert (hi - (lo + MAX_BLOCKS)) % MAX_BLOCKS == (hi - lo) % MAX_BLOCKS;
  }

  /** A partial batch that reaches the tip is the last of the plan. */
  lemma LastWindow(s: Session)
    requires AskedOnce(s) && PendingOk(s) && Aligned(s) && s.nextApply in s.pending
    requires var h := s.pending[s.nextApply]; !Short(s, h) && h.end != s.nextApply + MAX_BLOCKS - 1
    ensures Done(Advanced(s))
  {
    var h, t := s.pending[s.nextApply], Advanced(s);
    assert s.tip <= h.end < s.nextApply + MAX_BLOCKS - 1;
    OnlyPlanned(s);
    assert s.nextStart > s.tip by {
      assert Planned(s, s.nextApply);
    }
    AdvancedPlan(s);
    NothingPlanned(t);
  }

  /** No other boundary lies at or below the tip. */
  lemma OnlyPlanned(s: Session)
    requires Aligned(s) && s.tip < s.nextApply + MAX_BLOCKS - 1
    ensures forall x: nat :: Planned(s, x) ==> x == s.nextApply
    ensures OnGrid(s, s.nextApply) ==> s.nextStart >= s.nextApply + MAX_BLOCKS
  {
    forall x: nat | Planned(s, x) ensures x == s.nextApply {
      assert OnGrid(s, x);
    }
  }

  lemma NothingPlanned(t: Session)
    requires forall x: nat :: !Planned(t, x)
    ensures t.inflight == map[] && t.pending == map[]
  {
    if t.inflight != map[] || t.pending != map[] {
      SomethingPlanned(t);
    }
  }

  lemma SomethingPlanned(t: Session)
    requires t.inflight != map[] || t.pending != map[]
    ensures exists x: nat :: Planned(t, x)
  {
    if t.pending != map[] {
      var x :| x in t.pending;
      assert Planned(t, x);
    } else {
      var r :| r in t.inflight;
      assert Planned(t, t.inflight[r]);
    }
  }

  /** A short batch throws the rest of the plan away and resumes right behind itself. */
  lemma ShortAdvance(s: Session)
    requires PlanOk(s) && Aligned(s) && s.nextApply in s.pending && Short(s, s.pending[s.nextApply])
    ensures PlanOk(Advanced(s)) && Aligned(Advanced(s))
    ensures var t := Advanced(s); t.inflight == map[] && t.pending == map[] && t.nextStart == t.nextApply <= t.tip
  {
    var next, t := s.pending[s.nextApply].end + 1, Advanced(s);
    forall r | r in s.inflight ensures s.inflight[r] >= next {
      BeyondWindow(s, s.inflight[r]);
    }
    forall x | x in s.pending && x != s.nextApply ensures x >= next {
      BeyondWindow(s, x);
    }
    assert t.inflight == map[] && t.pending == map[];
    assert forall x: nat :: !Planned(t, x);
  }

  /** Every other planned start is at least a window further. */
  lemma BeyondWindow(s: Session, x: nat)
    requires Aligned(s) && Planned(s, x) && x != s.nextApply
    ensures x >= s.nextApply + MAX_BLOCKS
  {
    assert OnGrid(s, x);
  }

  // ------------------------------------------------------------ draining

  /** Batches that follow one another from `lo` up to just below `hi`. */
  predicate Consecutive(b: seq<Header>, lo: nat, hi: nat) {
    if b == [] then lo == hi
    else b[0].start == lo && lo <= b[0].end && Consecutive(b[1..], b[0].end + 1, hi)
  }

  lemma ConsecutiveAppend(a: seq<Header>, b: seq<Header>, lo: nat, mid: nat, hi: nat)
    requires Consecutive(a, lo, mid) && Consecutive(b, mid, hi)
    ensures Consecutive(a + b, lo, hi)
    decreases |a|
  {
    if a == [] {
      assert a + b == b;
    } else {
      assert (a + b)[1..] == a[1..] + b;
      ConsecutiveAppend(a[1..], b, a[0].end + 1, mid, hi);
    }
  }

  /** A drain of well-formed responses hands on consecutive batches from the applied height and
      meets none that does not advance. */
  lemma {:induction false} DrainConsecutive(s: Session)
    requires PendingOk(s)
    ensures Consecutive(Drain(s).0, s.nextApply, Drain(s).1.nextApply)
    ensures s.nextApply <= Drain(s).1.nextApply && Drain(s).2
    decreases |s.pending|
  {
    if s.nextApply in s.pending && !Short(s, s.pending[s.nextApply]) {
      var rest := Drain(Advanced(s));
      DrainConsecutive(Advanced(s));
      assert ([s.pending[s.nextApply]] + rest.0)[1..] == rest.0;
    }
  }

  /** ... and leaves a sound plan with nothing held back. */
  lemma {:induction false} DrainKeeps(s: Session)
    requires PlanOk(s)
    ensures PlanOk(Drain(s).1) && Drain(s).1.nextApply !in Drain(s).1.pending
    decreases |s.pending|
  {
    if s.nextApply in s.pending {
      if Short(s, s.pending[s.nextApply]) {
        ShortAdvance(s);
      } else {
        FullAdvance(s);
        DrainKeeps(Advanced(s));
      }
    }
  }

  // ------------------------------------------------------------ every run

  datatype Event = Ask | Answer(h: Header)

  /** One request, or one well-formed response that does not end the session. */
  predicate Next(s: Session, e: Event, out: seq<Header>, s': Session) {
    match e
    case Ask => CanFill(s) && s' == Filled(s) && out == []
    case Answer(h) =>
      && WellFormed(h) && !Respond(s, h).0.Broken? && s' == Respond(s, h).1
      && out == match Respond(s, h).0 case Drained(ready, _) => ready case _ => []
  }

  lemma NextKeeps(s: Session, e: Event, out: seq<Header>, s': Session)
    requires Inv(s) && Next(s, e, out, s')
    ensures Inv(s') && Consecutive(out, s.nextApply, s'.nextApply)
  {
    match e
    case Ask => FilledKeeps(s);
    case Answer(h) =>
      if !Respond(s, h).0.Ignored? {
        AcceptedKeeps(s, h);
        DrainKeeps(Accepted(s, h));
        DrainConsecutive(Accepted(s, h));
      }
  }

  /** The batches of a run, in the order they were handed on. */
  function Stream(outs: seq<seq<Header>>): seq<Header> {
    if outs == [] then [] else Stream(outs[..|outs| - 1]) + outs[|outs| - 1]
  }

  ghost predicate NextAt(states: seq<Session>, events: seq<Event>, outs: seq<seq<Header>>, i: nat) {
    i < |events| && i < |outs| && i + 1 < |states| && Next(states[i], events[i], outs[i], states[i + 1])
  }

  ghost predicate Run(states: seq<Session>, events: seq<Event>, outs: seq<seq<Header>>) {
    && |states| == |events| + 1 == |outs| + 1
    && forall i :: 0 <= i < |events| ==> NextAt(states, events, outs, i)
  }

  /** For any order of responses, short responses and growing tip: the batches handed on cover
      consecutive heights from the first, with no gap and no overlap. */
  lemma {:induction false} RunIsContiguous(states: seq<Session>, events: seq<Event>, outs: seq<seq<Header>>, i: nat)
    requires Run(states, events, outs) && Inv(states[0]) && i < |states|
    ensures Inv(states[i]) && Consecutive(Stream(outs[..i]), states[0].nextApply, states[i].nextApply)
  {
    if i > 0 {
      RunIsContiguous(states, events, outs, i - 1);
      assert NextAt(states, events, outs, i - 1);
      NextKeeps(states[i - 1], events[i - 1], outs[i - 1], states[i]);
      assert outs[..i][..i - 1] == outs[..i - 1];
      ConsecutiveAppend(Stream(outs[..i - 1]), outs[i - 1], states[0].nextApply, states[i - 1].nextApply,
                        states[i].nextApply);
    }
  }

  lemma StartInv(start: nat, tip: nat)
    requires 1 <= start <= tip
    ensures Inv(Session(1, start, tip, map[], map[], start))
  {
    var s := Session(1, start, tip, map[], map[], start);
    assert forall x: nat :: !Planned(s, x);
  }

  /** In every reachable state the next needed height is in flight, or can be asked for now,
      or everything up to the tip is handed on and nothing is outstanding. */
  lemma NextHeightIsCovered(s: Session)
    requires Inv(s)
    ensures Asked(s, s.nextApply) || (CanFill(s) && s.nextStart == s.nextApply) || CaughtUp(s)
  {
    if !Done(s) {
      if s.nextApply < s.nextStart {
        assert OnGrid(s, s.nextApply) && Planned(s, s.nextApply);
      } else {
        forall x: nat ensures !Planned(s, x) {
          assert !OnGrid(s, x);
        }
        NothingPlanned(s);
      }
    }
  }

  /** The response that completes the download says so. */
  lemma LastResponseFinishes(s: Session, h: Header)
    requires Inv(s) && WellFormed(h) && Respond(s, h).0.Drained?
    ensures var t := Respond(s, h).1;
            Respond(s, h).0.caughtUp <==> !Asked(t, t.nextApply) && !(CanFill(t) && t.nextStart == t.nextApply)
  {
    AcceptedKeeps(s, h);
    DrainKeeps(Accepted(s, h));
    DrainConsecutive(Accepted(s, h));
    var t := Respond(s, h).1;
    NextHeightIsCovered(t);
    if CaughtUp(t) && CanFill(t) {
      assert t.nextStart <= t.tip < t.nextApply;
    }
  }

  // ------------------------------------------------------------ the remote tip

  /** A response to a request in flight: the only kind a session listens to. */
  predicate Heard(s: Session, e: Event) {
    e.Answer? && e.h.request in s.inflight
  }

  /** The tips announced up to state `n`: the first, then that of every response heard. */
  function Announced(states: seq<Session>, events: seq<Event>, n: nat): seq<nat>
    requires n < |states| && n <= |events|
  {
    if n == 0 then [states[0].tip]
    else Announced(states, events, n - 1) + (if Heard(states[n - 1], events[n - 1]) then [events[n - 1].h.tip] else [])
  }

  /** `t` is the largest of `s`. */
  predicate Largest(s: seq<nat>, t: nat) {
    t in s && forall x :: x in s ==> x <= t
  }

  predicate AllBelow(s: seq<nat>, t: nat) {
    forall x :: x in s ==> x < t
  }

  lemma LargestNext(s: seq<nat>, t: nat, x: nat)
    requires Largest(s, t)
    ensures Largest(s + [x], if x > t then x else t)
  {
    assert (s + [x])[|s|] == x;
  }

  lemma {:induction false} DrainKeepsTip(s: Session)
    ensures Drain(s).1.tip == s.tip
    decreases |s.pending|
  {
    if s.nextApply in s.pending && s.pending[s.nextApply].end >= s.nextApply && !Short(s, s.pending[s.nextApply]) {
      DrainKeepsTip(Advanced(s));
    }
  }

  /** A response heard raises the tip to what it announces; nothing else moves it. */
  lemma TipMoves(s: Session, e: Event, out: seq<Header>, s': Session)
    requires Next(s, e, out, s')
    ensures s'.tip == if Heard(s, e) && e.h.tip > s.tip then e.h.tip else s.tip
  {
    if e.Answer? {
      DrainKeepsTip(Accepted(s, e.h));
    }
  }

  /** In every state of every run the tip is the largest announced so far: at least the first
      and that of every response heard, and equal to one of them. */
  lemma {:induction false} TipIsLargest(states: seq<Session>, events: seq<Event>, outs: seq<seq<Header>>, i: nat)
    requires Run(states, events, outs) && i < |states|
    ensures Largest(Announced(states, events, i), states[i].tip)
  {
    if i > 0 {
      TipIsLargest(states, events, outs, i - 1);
      assert NextAt(states, events, outs, i - 1);
      TipMoves(states[i - 1], events[i - 1], outs[i - 1], states[i]);
      if Heard(states[i - 1], events[i - 1]) {
        LargestNext(Announced(states, events, i - 1), states[i - 1].tip, events[i - 1].h.tip);
      }
    }
  }

  /** A caught-up answer means that the stream reaches the largest tip ever announced. */
  lemma CaughtUpReachesTip(states: seq<Session>, events: seq<Event>, outs: seq<seq<Header>>, i: nat)
    requires Run(states, events, outs) && Inv(states[0]) && i < |events| && events[i].Answer?
    requires var r := Respond(states[i], events[i].h).0; r.Drained? && r.caughtUp
    ensures Consecutive(Stream(outs[..i + 1]), states[0].nextApply, states[i + 1].nextApply)
    ensures AllBelow(Announced(states, events, i + 1), states[i + 1].nextApply)
  {
    assert NextAt(states, events, outs, i);
    RunIsContiguous(states, events, outs, i + 1);
    TipIsLargest(states, events, outs, i + 1);
  }

  // ------------------------------------------------------------ the window

  lemma {:induction false} DrainShrinks(s: Session)
    ensures Drain(s).1.inflight.Keys <= s.inflight.Keys
    decreases |s.pending|
  {
    if s.nextApply in s.pending && s.pending[s.nextApply].end >= s.nextApply && !Short(s, s.pending[s.nextApply]) {
      DrainShrinks(Advanced(s));
    }
  }

  /** Never more than three requests are in flight. */
  lemma WindowKept(s: Session, e: Event, out: seq<Header>, s': Session)
    requires Next(s, e, out, s') && |s.inflight| <= 3
    ensures |s'.inflight| <= 3
  {
    match e
    case Ask =>
    case Answer(h) =>
      DrainShrinks(Accepted(s, h));
      assert s'.inflight.Keys <= s.inflight.Keys;
      Smaller(s'.inflight.Keys, s.inflight.Keys);
  }

  /** Filling stops only at three requests in flight or past the tip. */
  lemma {:induction false} FillsWindow(s: Session)
    ensures |FillAll(s).inflight| >= 3 || FillAll(s).nextStart > s.tip
    decreases if s.nextStart <= s.tip then s.tip - s.nextStart + 1 else 0
  {
    if CanFill(s) {
      FillsWindow(Filled(s));
    }
  }

  /** A batch that fills its window leaves the rest of the plan as it was; one that ends before
      both its window and the tip discards it. */
  lemma OnlyShortDiscards(s: Session)
    requires s.nextApply in s.pending
    ensures var h, t := s.pending[s.nextApply], Advanced(s);
            && t.nextApply == h.end + 1 && t.tip == s.tip && t.nextReq == s.nextReq
            && (h.end >= s.nextApply + 9999 || h.end >= s.tip ==>
                  t.inflight == s.inflight && t.nextStart == s.nextStart && t.pending == s.pending - {s.nextApply})
            && (h.end < s.nextApply + 9999 && h.end < s.tip ==>
                  && t.nextStart == h.end + 1
                  && (forall r :: r in t.inflight <==> r in s.inflight && s.inflight[r] <= h.end)
                  && (forall x :: x in t.pending <==> x in s.pending && x != s.nextApply && x <= h.end))
  {
  }
}
