/** The bounded ring that hands decoded blocks to the applier in order. */
module Ring {
  import opened Options

  /** `next` is one past the last sequence taken; `inFlight` counts reservations, decoded or not. */
  datatype RingState = RingState(items: seq<Option<nat>>, inFlight: nat, next: nat, end: Option<nat>, stopped: bool)

  /** What a call does under the lock: it has to wait, it is told to stop, or it went through. */
  datatype Reply = Wait | Stop | Went

  function Empty(n: nat): seq<Option<nat>> { seq(n, _ => None) }

  function Reserved(s: RingState): RingState { s.(inFlight := s.inFlight + 1) }

  function Released(s: RingState): RingState
    requires s.inFlight > 0
  {
    s.(inFlight := s.inFlight - 1)
  }

  function Published(s: RingState, seqNo: nat): RingState
    requires |s.items| > 0
  {
    s.(items := s.items[seqNo % |s.items| := Some(seqNo)])
  }

  function Taken(s: RingState, seqNo: nat): RingState
    requires |s.items| > 0 && s.inFlight > 0
  {
    s.(items := s.items[seqNo % |s.items| := None], next := seqNo + 1, inFlight := s.inFlight - 1)
  }

  /** A call on the ring; `NoCall` is a step of a thread that does not touch it. */
  datatype RingCall =
    | NoCall | CallReserve | CallRelease
    | CallPublish(seqNo: nat) | CallTake(seqNo: nat) | CallClose(total: nat) | CallStop

  predicate SlotFilled(s: RingState, seqNo: nat)
    requires |s.items| > 0
  {
    s.items[seqNo % |s.items|].Some?
  }

  /** What a caller owes the ring. */
  predicate Ready(s: RingState, c: RingCall) {
    match c
    case CallRelease => s.inFlight > 0
    case CallPublish(n) =>
      |s.items| > 0 && s.inFlight > 0 && (!s.stopped ==> n < s.next + |s.items| && !SlotFilled(s, n))
    case CallTake(n) => |s.items| > 0 && (SlotFilled(s, n) ==> s.inFlight > 0)
    case _ => true
  }

  function Answer(s: RingState, c: RingCall): Reply
    requires Ready(s, c)
  {
    match c
    case CallReserve => if s.stopped then Stop else if s.inFlight >= |s.items| then Wait else Went
    case CallPublish(n) => if s.stopped then Stop else Went
    case CallTake(n) =>
      if SlotFilled(s, n) then Went else if s.stopped || (s.end.Some? && n >= s.end.value) then Stop else Wait
    case _ => Went
  }

  function Effect(s: RingState, c: RingCall): RingState
    requires Ready(s, c)
  {
    match c
    case NoCall => s
    case CallReserve => if Answer(s, c).Went? then Reserved(s) else s
    case CallRelease => Released(s)
    case CallPublish(n) => if s.stopped then Released(s) else Published(s, n)
    case CallTake(n) => if SlotFilled(s, n) then Taken(s, n) else s
    case CallClose(total) => s.(end := Some(total))
    case CallStop => s.(stopped := true)
  }

  /** One pass under the mutex per call; a `Wait` reply is a wait on the condition variable. */
  class SlotRing {
    const items: array<Option<nat>>
    var inFlight: nat
    var next: nat
    var end: Option<nat>
    var stopped: bool

    function State(): RingState
      reads this, items
    {
      RingState(items[..], inFlight, next, end, stopped)
    }

    constructor (capacity: nat)
      ensures fresh(items) && items.Length == capacity
      ensures State() == RingState(Empty(capacity), 0, 0, None, false)
    {
      items := new Option<nat>[capacity](_ => None);
      inFlight, next, end, stopped := 0, 0, None, false;
      new;
      assert items[..] == Empty(capacity);
    }

    method Reserve() returns (r: Reply)
      modifies this
      ensures r == Answer(old(State()), CallReserve) && State() == Effect(old(State()), CallReserve)
    {
      if !stopped && inFlight >= items.Length {
        return Wait;
      }
      if stopped {
        return Stop;
      }
      inFlight := inFlight + 1;
      r := Went;
    }

    method Release()
      requires Ready(State(), CallRelease)
      modifies this
      ensures State() == Effect(old(State()), CallRelease)
    {
      inFlight := inFlight - 1;
    }

    method PublishReserved(seqNo: nat) returns (ok: bool)
      requires Ready(State(), CallPublish(seqNo))
      modifies this, items
      ensures ok <==> Answer(old(State()), CallPublish(seqNo)) == Went
      ensures State() == Effect(old(State()), CallPublish(seqNo))
    {
      if stopped {
        inFlight := inFlight - 1;
        return false;
      }
      items[seqNo % items.Length] := Some(seqNo);
      ok := true;
    }

    method Take(seqNo: nat) returns (r: Reply, slot: Option<nat>)
      requires Ready(State(), CallTake(seqNo))
      modifies this, items
      ensures slot == old(items[seqNo % items.Length]) && r == Answer(old(State()), CallTake(seqNo))
      ensures State() == Effect(old(State()), CallTake(seqNo))
    {
      slot := items[seqNo % items.Length];
      if slot.Some? {
        items[seqNo % items.Length] := None;
        next, inFlight := seqNo + 1, inFlight - 1;
        return Went, slot;
      }
      r := if stopped || (end.Some? && seqNo >= end.value) then Stop else Wait;
    }

    method Close(total: nat)
      modifies this
      ensures State() == Effect(old(State()), CallClose(total))
    {
      end := Some(total);
    }

    method StopAll()
      modifies this
      ensures State() == Effect(old(State()), CallStop)
    {
      stopped := true;
    }
  }
}
