/** Feeder, decoders and applier around the ring, in every interleaving. */
module Pipeline {
  import opened Options
  import opened Ring

  /** A decoder holds a reservation before it asks for a job. */
  datatype Worker = Idle | Holding | Decoding(job: nat) | Gone

  /** Between batches, inside a batch with frames left, ring closed, sender dropped. */
  datatype Feeder = Between | Sending(left: nat) | Closed | Dropped

  /** `queue` is the bounded channel, `fed` the next sequence number, `want` the applier's. */
  datatype Pipe = Pipe(ring: RingState, queue: seq<nat>, fed: nat, feeder: Feeder, workers: seq<Worker>,
                       want: nat, applying: bool, taken: seq<nat>)

  datatype PipeStep =
    | FeedBatch(frames: nat) | FeedSend | FeedClose | FeedDrop
    | Reserve(w: nat) | Receive(w: nat) | Publish(w: nat)
    | Take | ApplyEnd | ApplyFail | Abort

  function Start(capacity: nat, workers: nat): Pipe {
    Pipe(RingState(Empty(capacity), 0, 0, None, false), [], 0, Between, seq(workers, _ => Idle), 0, true, [])
  }

  predicate AllGone(ws: seq<Worker>) { forall i :: 0 <= i < |ws| ==> ws[i].Gone? }

  ghost predicate Step(p: Pipe, s: PipeStep, p': Pipe) {
    var c := |p.ring.items|;
    && c > 0
    && match s
       case FeedBatch(frames) =>
         p.feeder.Between? && p' == p.(feeder := if frames == 0 then Between else Sending(frames))
       case FeedSend =>
         && p.feeder.Sending? && p.feeder.left > 0 && |p.queue| < c && !AllGone(p.workers)
         && p' == p.(queue := p.queue + [p.fed], fed := p.fed + 1,
                     feeder := if p.feeder.left == 1 then Between else Sending(p.feeder.left - 1))
       case FeedClose =>
         // cancelled, source at its end or failed, or nobody left to receive
         && (p.feeder.Between? || (p.feeder.Sending? && AllGone(p.workers)))
         && p' == p.(feeder := Closed, ring := p.ring.(end := Some(p.fed)))
       case FeedDrop =>
         p.feeder.Closed? && p' == p.(feeder := Dropped)
       case Reserve(w) =>
         && w < |p.workers| && p.workers[w].Idle?
         && (if p.ring.stopped then p' == p.(workers := p.workers[w := Gone])
             else p.ring.inFlight < c && p' == p.(workers := p.workers[w := Holding], ring := Reserved(p.ring)))
       case Receive(w) =>
         && w < |p.workers| && p.workers[w].Holding?
         && (if p.queue != [] then p' == p.(workers := p.workers[w := Decoding(p.queue[0])], queue := p.queue[1..])
             else && p.feeder.Dropped? && p.ring.inFlight > 0
                  && p' == p.(workers := p.workers[w := Gone], ring := Released(p.ring)))
       case Publish(w) =>
         && w < |p.workers| && p.workers[w].Decoding?
         && (if p.ring.stopped then
               p.ring.inFlight > 0 && p' == p.(workers := p.workers[w := Gone], ring := Released(p.ring))
             else p' == p.(workers := p.workers[w := Idle], ring := Published(p.ring, p.workers[w].job)))
       case Take =>
         && p.applying && p.ring.items[p.want % c].Some? && p.ring.inFlight > 0
         && p' == p.(ring := Taken(p.ring, p.want), want := p.want + 1,
                     taken := p.taken + [p.ring.items[p.want % c].value])
       case ApplyEnd =>
         && p.applying && p.ring.items[p.want % c].None?
         && (p.ring.stopped || (p.ring.end.Some? && p.want >= p.ring.end.value))
         && p' == p.(applying := false)
       case ApplyFail =>
         p.applying && p' == p.(applying := false, ring := p.ring.(stopped := true))
       case Abort =>
         !p.ring.stopped && p' == p.(ring := p.ring.(stopped := true))
  }

  // ------------------------------------------------------------ counting

  function Weight(w: Worker, idle: nat, hold: nat, decode: nat): nat {
    match w case Idle => idle case Holding => hold case Decoding(_) => decode case Gone => 0
  }

  /** The workers' weights summed. */
  function Tally(ws: seq<Worker>, idle: nat, hold: nat, decode: nat): nat {
    if ws == [] then 0 else Weight(ws[0], idle, hold, decode) + Tally(ws[1..], idle, hold, decode)
  }

  lemma TallyUpdate(ws: seq<Worker>, i: nat, x: Worker, idle: nat, hold: nat, decode: nat)
    requires i < |ws|
    ensures Tally(ws[i := x], idle, hold, decode) + Weight(ws[i], idle, hold, decode)
         == Tally(ws, idle, hold, decode) + Weight(x, idle, hold, decode)
  {
    if i == 0 {
      assert ws[i := x][1..] == ws[1..];
    } else {
      assert ws[i := x][1..] == ws[1..][i - 1 := x];
      TallyUpdate(ws[1..], i - 1, x, idle, hold, decode);
    }
  }

  lemma TallyBound(ws: seq<Worker>, i: nat)
    requires i < |ws|
    ensures Tally(ws, 0, 1, 0) + (if ws[i].Holding? then 0 else 1) <= |ws|
  {
    TallyAtMost(ws[1..]);
    if i > 0 {
      TallyBound(ws[1..], i - 1);
    }
  }

  lemma TallyAtMost(ws: seq<Worker>)
    ensures Tally(ws, 0, 1, 0) <= |ws|
  {
  }

  function Filled(items: seq<Option<nat>>): nat {
    if items == [] then 0 else (if items[0].Some? then 1 else 0) + Filled(items[1..])
  }

  lemma FilledUpdate(items: seq<Option<nat>>, i: nat, x: Option<nat>)
    requires i < |items|
    ensures Filled(items[i := x]) + (if items[i].Some? then 1 else 0) == Filled(items) + (if x.Some? then 1 else 0)
  {
    if i == 0 {
      assert items[i := x][1..] == items[1..];
    } else {
      assert items[i := x][1..] == items[1..][i - 1 := x];
      FilledUpdate(items[1..], i - 1, x);
    }
  }

  lemma FilledNone(n: nat)
    ensures Filled(Empty(n)) == 0
  {
    if n > 0 {
      assert Empty(n)[1..] == Empty(n - 1);
      FilledNone(n - 1);
    }
  }

  lemma TallyIdle(n: nat)
    ensures Tally(seq(n, _ => Idle), 0, 1, 0) == Tally(seq(n, _ => Idle), 0, 1, 1) == 0
  {
    if n > 0 {
      assert seq(n, _ => Idle)[1..] == seq(n - 1, _ => Idle);
      TallyIdle(n - 1);
    }
  }

  /** Two numbers less than `c` apart never share a remainder. */
  lemma SameSlot(a: nat, b: nat, c: nat)
    requires c > 0 && a % c == b % c && a < b + c && b < a + c
    ensures a == b
  {
    var x, y := a / c, b / c;
    assert a == x * c + a % c && b == y * c + b % c;
    if x < y { MulGap(x, y, c); } else if y < x { MulGap(y, x, c); }
  }

  lemma MulGap(x: nat, y: nat, c: nat)
    requires x < y
    ensures x * c + c <= y * c
  {
    assert y * c == (y - 1) * c + c;
    if x < y - 1 {
      MulGap(x, y - 1, c);
    }
  }

  // ------------------------------------------------------------ the invariant

  /** Jobs received so far: the channel is first in, first out. */
  function Received(p: Pipe): int { p.fed - |p.queue| }

  ghost predicate QueueOk(p: Pipe) {
    && |p.queue| <= |p.ring.items| && |p.queue| <= p.fed
    && forall i :: 0 <= i < |p.queue| ==> p.queue[i] == Received(p) + i
  }

  /** Published jobs sit in their own slot and are still to be taken. */
  ghost predicate SlotsOk(items: seq<Option<nat>>, want: nat, received: int) {
    forall i :: 0 <= i < |items| && items[i].Some? ==>
      items[i].value % |items| == i && want <= items[i].value < received
  }

  /** Jobs being decoded are distinct, still to be taken, and not published. */
  ghost predicate DecodingOk(ws: seq<Worker>, items: seq<Option<nat>>, want: nat, received: int) {
    && |items| > 0
    && (forall i :: 0 <= i < |ws| && ws[i].Decoding? ==>
          want <= ws[i].job < received && items[ws[i].job % |items|] != Some(ws[i].job))
    && (forall i, j :: 0 <= i < j < |ws| && ws[i].Decoding? && ws[j].Decoding? ==> ws[i].job != ws[j].job)
  }

  predicate Placed(ws: seq<Worker>, items: seq<Option<nat>>, n: nat) {
    |items| > 0 && (items[n % |items|] == Some(n) || Decoding(n) in ws)
  }

  ghost predicate AllPlaced(ws: seq<Worker>, items: seq<Option<nat>>, want: nat, received: int) {
    forall n :: want <= n < received ==> Placed(ws, items, n)
  }

  /** Until a stop, every received job not yet taken is being decoded or published. */
  ghost predicate NoneLost(p: Pipe) {
    !p.ring.stopped ==> AllPlaced(p.workers, p.ring.items, p.want, Received(p))
  }

  /** Reservations: one for each worker at work and each filled slot; until a stop also one
      for each waiting worker and each job between the applier and the channel. */
  ghost predicate CountsOk(p: Pipe) {
    && p.ring.inFlight == Tally(p.workers, 0, 1, 1) + Filled(p.ring.items) <= |p.ring.items|
    && Received(p) - p.want + Tally(p.workers, 0, 1, 0) <= |p.ring.items|
    && (!p.ring.stopped ==> p.ring.inFlight == Tally(p.workers, 0, 1, 0) + Received(p) - p.want)
  }

  ghost predicate EndOk(p: Pipe) {
    && (p.feeder.Closed? || p.feeder.Dropped? ==> p.ring.end == Some(p.fed))
    && (p.feeder.Between? || p.feeder.Sending? ==> p.ring.end.None?)
    && (p.feeder.Sending? ==> p.feeder.left > 0)
    && (!p.ring.stopped ==>
          forall i :: 0 <= i < |p.workers| && p.workers[i].Gone? ==> p.feeder.Dropped? && p.queue == [])
    && (!p.applying && !p.ring.stopped ==> p.ring.end.Some? && p.want == p.fed)
  }

  /** The applier has taken jobs 0, 1, 2, ... each once. */
  ghost predicate TakenOk(p: Pipe) {
    |p.taken| == p.want == p.ring.next && p.want <= Received(p) && forall i :: 0 <= i < p.want ==> p.taken[i] == i
  }

  ghost predicate Inv(p: Pipe) {
    && 0 < |p.workers| < |p.ring.items|
    && QueueOk(p) && TakenOk(p) && EndOk(p) && NoneLost(p) && CountsOk(p)
    && SlotsOk(p.ring.items, p.want, Received(p))
    && DecodingOk(p.workers, p.ring.items, p.want, Received(p))
  }

  lemma StartInv(capacity: nat, workers: nat)
    requires 0 < workers < capacity
    ensures Inv(Start(capacity, workers))
  {
    FilledNone(capacity);
    TallyIdle(workers);
  }

  // ------------------------------------------------------------ every step keeps it

  lemma KeepsFeed(p: Pipe, s: PipeStep, p': Pipe)
    requires Inv(p) && Step(p, s, p') && (s.FeedBatch? || s.FeedSend? || s.FeedClose? || s.FeedDrop?)
    ensures Inv(p')
  {
  }

  lemma KeepsReserve(p: Pipe, w: nat, p': Pipe)
    requires Inv(p) && Step(p, Reserve(w), p')
    ensures Inv(p')
  {
    var x := p'.workers[w];
    TallyUpdate(p.workers, w, x, 0, 1, 0);
    TallyUpdate(p.workers, w, x, 0, 1, 1);
    StillPlaced(p.workers, w, x, p.ring.items, p.want, Received(p));
  }

  /** Changing a worker that decodes nothing loses nothing. */
  lemma StillPlaced(ws: seq<Worker>, w: nat, x: Worker, items: seq<Option<nat>>, want: nat, received: int)
    requires w < |ws| && !ws[w].Decoding?
    ensures AllPlaced(ws, items, want, received) ==> AllPlaced(ws[w := x], items, want, received)
  {
    if AllPlaced(ws, items, want, received) {
      var next := ws[w := x];
      forall n | want <= n < received ensures Placed(next, items, n) {
        assert Placed(ws, items, n);
        if i :| 0 <= i < |ws| && ws[i] == Decoding(n) {
          assert next[i] == Decoding(n);
        }
      }
    }
  }

  lemma KeepsReceive(p: Pipe, w: nat, p': Pipe)
    requires Inv(p) && Step(p, Receive(w), p')
    ensures Inv(p')
  {
    var x := p'.workers[w];
    TallyUpdate(p.workers, w, x, 0, 1, 0);
    TallyUpdate(p.workers, w, x, 0, 1, 1);
    StillPlaced(p.workers, w, x, p.ring.items, p.want, Received(p));
    if p.queue != [] {
      ReceivedPlaced(p, w, p');
      assert Received(p') == Received(p) + 1;
      assert SlotsOk(p'.ring.items, p'.want, Received(p'));
    }
  }

  /** The job just received is the next one, and its decoder has it. */
  lemma ReceivedPlaced(p: Pipe, w: nat, p': Pipe)
    requires Inv(p) && Step(p, Receive(w), p') && p.queue != []
    requires !p.ring.stopped ==> AllPlaced(p'.workers, p.ring.items, p.want, Received(p))
    ensures QueueOk(p') && NoneLost(p')
    ensures DecodingOk(p'.workers, p'.ring.items, p'.want, Received(p'))
  {
    var n := p.queue[0];
    assert p'.workers[w] == Decoding(n);
    assert n == Received(p) && Received(p') == n + 1;
    forall i | 0 <= i < |p'.queue| ensures p'.queue[i] == Received(p') + i {
      assert p'.queue[i] == p.queue[i + 1];
    }
  }

  lemma KeepsPublish(p: Pipe, w: nat, p': Pipe)
    requires Inv(p) && Step(p, Publish(w), p')
    ensures Inv(p')
  {
    var x := p'.workers[w];
    var n := p.workers[w].job;
    TallyUpdate(p.workers, w, x, 0, 1, 0);
    TallyUpdate(p.workers, w, x, 0, 1, 1);
    if !p.ring.stopped {
      SlotFree(p, w);
      FilledUpdate(p.ring.items, n % |p.ring.items|, Some(n));
      PublishedPlaced(p, w, p');
    }
  }

  /** The slot a decoder publishes into is empty, and its job fits the ring. */
  lemma SlotFree(p: Pipe, w: nat)
    requires Inv(p) && w < |p.workers| && p.workers[w].Decoding?
    ensures var n, c := p.workers[w].job, |p.ring.items|;
            p.ring.items[n % c].None? && n < p.ring.next + c && p.ring.inFlight > 0
  {
    var n, c := p.workers[w].job, |p.ring.items|;
    TallyUpdate(p.workers, w, Gone, 0, 1, 1);
    if p.ring.items[n % c].Some? {
      SameSlot(p.ring.items[n % c].value, n, c);
    }
  }

  lemma PublishedPlaced(p: Pipe, w: nat, p': Pipe)
    requires Inv(p) && Step(p, Publish(w), p') && !p.ring.stopped
    requires p.ring.items[p.workers[w].job % |p.ring.items|].None?
    ensures NoneLost(p') && SlotsOk(p'.ring.items, p'.want, Received(p'))
    ensures DecodingOk(p'.workers, p'.ring.items, p'.want, Received(p'))
  {
    var n := p.workers[w].job;
    forall m | p.want <= m < Received(p) ensures Placed(p'.workers, p'.ring.items, m) {
      assert Placed(p.workers, p.ring.items, m);
      if m != n {
        if i :| 0 <= i < |p.workers| && p.workers[i] == Decoding(m) {
          assert p'.workers[i] == Decoding(m);
        }
      }
    }
  }

  /** The slot the applier waits for never holds another job. */
  lemma SlotIsWanted(p: Pipe)
    requires Inv(p)
    ensures var i := p.want % |p.ring.items|; p.ring.items[i].Some? ==> p.ring.items[i] == Some(p.want)
  {
    var c := |p.ring.items|;
    if p.ring.items[p.want % c].Some? {
      SameSlot(p.ring.items[p.want % c].value, p.want, c);
    }
  }

  lemma KeepsTake(p: Pipe, p': Pipe)
    requires Inv(p) && Step(p, Take, p')
    ensures Inv(p')
  {
    var i := p.want % |p.ring.items|;
    SlotIsWanted(p);
    FilledUpdate(p.ring.items, i, None);
    TakenPlaced(p, p');
  }

  lemma TakenPlaced(p: Pipe, p': Pipe)
    requires Inv(p) && Step(p, Take, p') && p.ring.items[p.want % |p.ring.items|] == Some(p.want)
    ensures NoneLost(p') && SlotsOk(p'.ring.items, p'.want, Received(p'))
    ensures DecodingOk(p'.workers, p'.ring.items, p'.want, Received(p'))
  {
    forall m | p'.want <= m < Received(p') && !p.ring.stopped ensures Placed(p'.workers, p'.ring.items, m) {
      assert Placed(p.workers, p.ring.items, m);
    }
  }

  lemma KeepsApply(p: Pipe, s: PipeStep, p': Pipe)
    requires Inv(p) && Step(p, s, p') && (s.ApplyEnd? || s.ApplyFail? || s.Abort?)
    ensures Inv(p')
  {
    if s.ApplyEnd? && !p.ring.stopped {
      assert p.want == p.fed;
    }
  }

  lemma StepKeepsInv(p: Pipe, s: PipeStep, p': Pipe)
    requires Inv(p) && Step(p, s, p')
    ensures Inv(p')
  {
    match s
    case FeedBatch(_) => KeepsFeed(p, s, p');
    case FeedSend => KeepsFeed(p, s, p');
    case FeedClose => KeepsFeed(p, s, p');
    case FeedDrop => KeepsFeed(p, s, p');
    case Reserve(w) => KeepsReserve(p, w, p');
    case Receive(w) => KeepsReceive(p, w, p');
    case Publish(w) => KeepsPublish(p, w, p');
    case Take => KeepsTake(p, p');
    case _ => KeepsApply(p, s, p');
  }

  /** The one call on the ring that a step makes. */
  function CallOf(p: Pipe, s: PipeStep): RingCall {
    match s
    case FeedClose => CallClose(p.fed)
    case Reserve(_) => CallReserve
    case Receive(_) => if p.queue == [] then CallRelease else NoCall
    case Publish(w) => if w < |p.workers| && p.workers[w].Decoding? then CallPublish(p.workers[w].job) else NoCall
    case Take => CallTake(p.want)
    case ApplyEnd => CallTake(p.want)
    case ApplyFail => CallStop
    case Abort => CallStop
    case _ => NoCall
  }

  /** Every step does to the ring exactly what one of its methods does: the method may be
      called, it does not have to wait, its reply decides where the thread goes, and the ring
      ends up as the method leaves it. */
  lemma StepIsRingCall(p: Pipe, s: PipeStep, p': Pipe)
    requires Inv(p) && Step(p, s, p')
    ensures Ready(p.ring, CallOf(p, s)) && Answer(p.ring, CallOf(p, s)) != Wait
    ensures p'.ring == Effect(p.ring, CallOf(p, s))
    ensures s.Reserve? || s.Publish? ==> (Answer(p.ring, CallOf(p, s)) == Stop <==> p'.workers[s.w].Gone?)
    ensures s.Take? ==> Answer(p.ring, CallOf(p, s)) == Went
    ensures s.ApplyEnd? ==> Answer(p.ring, CallOf(p, s)) == Stop
  {
    if s.Publish? {
      SlotFree(p, s.w);
    }
  }

  // ------------------------------------------------------------ runs

  ghost predicate StepAt(states: seq<Pipe>, steps: seq<PipeStep>, i: nat) {
    i < |steps| && i + 1 < |states| && Step(states[i], steps[i], states[i + 1])
  }

  ghost predicate Run(states: seq<Pipe>, steps: seq<PipeStep>) {
    |states| == |steps| + 1 && forall i :: 0 <= i < |steps| ==> StepAt(states, steps, i)
  }

  lemma {:induction false} RunInv(states: seq<Pipe>, steps: seq<PipeStep>, i: nat)
    requires Run(states, steps) && Inv(states[0]) && i < |states|
    ensures Inv(states[i])
  {
    if i > 0 {
      RunInv(states, steps, i - 1);
      assert StepAt(states, steps, i - 1);
      StepKeepsInv(states[i - 1], steps[i - 1], states[i]);
    }
  }

  /** No two jobs between applier and channel share a slot. */
  ghost predicate OwnSlots(p: Pipe) {
    |p.ring.items| > 0 &&
    forall m: nat, n: nat :: p.want <= m < n < Received(p) ==> m % |p.ring.items| != n % |p.ring.items|
  }

  /** In every interleaving: the applier has taken jobs 0, 1, 2, ... each once, reservations
      never exceed the capacity, no two jobs between applier and channel share a slot, and an
      applier that stopped without a stop signal has taken every job ever sent. */
  lemma RunDeliversInOrder(states: seq<Pipe>, steps: seq<PipeStep>, capacity: nat, workers: nat, i: nat)
    requires Run(states, steps) && states[0] == Start(capacity, workers) && 0 < workers < capacity && i < |states|
    ensures var p := states[i];
            && |p.taken| == p.want && (forall k :: 0 <= k < p.want ==> p.taken[k] == k)
            && p.ring.inFlight <= |p.ring.items|
            && (!p.applying && !p.ring.stopped ==> p.ring.end == Some(p.fed) && p.want == p.fed)
    ensures OwnSlots(states[i])
  {
    StartInv(capacity, workers);
    RunInv(states, steps, i);
    var p := states[i];
    forall m: nat, n: nat | p.want <= m < n < Received(p) ensures m % |p.ring.items| != n % |p.ring.items| {
      if m % |p.ring.items| == n % |p.ring.items| {
        SameSlot(m, n, |p.ring.items|);
      }
    }
  }

  // ------------------------------------------------------------ nothing gets stuck

  predicate Finished(p: Pipe) {
    !p.applying && p.feeder.Dropped? && AllGone(p.workers)
  }

  /** Work left: every step but taking a new batch uses some up. */
  function Rank(p: Pipe): nat {
    var feeder :=
      match p.feeder case Between => 2 case Sending(left) => 5 * left + 2 case Closed => 1 case Dropped => 0;
    feeder + 4 * |p.queue| + Filled(p.ring.items) + Tally(p.workers, 2, 1, 4)
    + (if p.applying then 1 else 0) + (if p.ring.stopped then 0 else 1)
  }

  lemma PublishRank(p: Pipe, w: nat, p': Pipe)
    requires Inv(p) && Step(p, Publish(w), p')
    ensures Rank(p') < Rank(p)
  {
    TallyUpdate(p.workers, w, p'.workers[w], 2, 1, 4);
    SlotFree(p, w);
    FilledUpdate(p.ring.items, p.workers[w].job % |p.ring.items|, Some(p.workers[w].job));
  }

  lemma TakeRank(p: Pipe, p': Pipe)
    requires Step(p, Take, p')
    ensures Rank(p') < Rank(p)
  {
    FilledUpdate(p.ring.items, p.want % |p.ring.items|, None);
  }

  lemma WorkerRank(p: Pipe, s: PipeStep, p': Pipe)
    requires Step(p, s, p') && (s.Reserve? || s.Receive?)
    ensures Rank(p') < Rank(p)
  {
    TallyUpdate(p.workers, s.w, p'.workers[s.w], 2, 1, 4);
  }

  /** Every step except a new batch from the source brings the pipeline closer to its end. */
  lemma RankFalls(p: Pipe, s: PipeStep, p': Pipe)
    requires Inv(p) && Step(p, s, p') && !s.FeedBatch?
    ensures Rank(p') < Rank(p)
  {
    match s
    case Reserve(w) => WorkerRank(p, s, p');
    case Receive(w) => WorkerRank(p, s, p');
    case Publish(w) => PublishRank(p, w, p');
    case Take => TakeRank(p, p');
    case _ =>
  }

  /** A worker that is not gone can always move, unless it waits for a job or for room. */
  lemma WorkerMoves(p: Pipe, w: nat) returns (s: PipeStep, p': Pipe)
    requires Inv(p) && w < |p.workers| && !p.workers[w].Gone?
    requires p.workers[w].Idle? ==> p.ring.stopped || p.ring.inFlight < |p.ring.items|
    requires p.workers[w].Holding? ==> p.queue != [] || p.feeder.Dropped?
    ensures Step(p, s, p') && (s == Reserve(w) || s == Receive(w) || s == Publish(w))
  {
    match p.workers[w]
    case Idle =>
      s := Reserve(w);
      p' := if p.ring.stopped then p.(workers := p.workers[w := Gone])
            else p.(workers := p.workers[w := Holding], ring := Reserved(p.ring));
    case Holding =>
      s := Receive(w);
      TallyUpdate(p.workers, w, Gone, 0, 1, 1);
      p' := if p.queue != [] then p.(workers := p.workers[w := Decoding(p.queue[0])], queue := p.queue[1..])
            else p.(workers := p.workers[w := Gone], ring := Released(p.ring));
    case Decoding(n) =>
      s := Publish(w);
      SlotFree(p, w);
      p' := if p.ring.stopped then p.(workers := p.workers[w := Gone], ring := Released(p.ring))
            else p.(workers := p.workers[w := Idle], ring := Published(p.ring, n));
  }

  lemma TakeMoves(p: Pipe) returns (p': Pipe)
    requires Inv(p) && p.applying && p.ring.items[p.want % |p.ring.items|].Some?
    ensures Step(p, Take, p')
  {
    var i := p.want % |p.ring.items|;
    FilledUpdate(p.ring.items, i, None);
    p' := p.(ring := Taken(p.ring, p.want), want := p.want + 1, taken := p.taken + [p.ring.items[i].value]);
  }

  /** With nothing between applier and channel, some worker can serve a waiting channel. */
  lemma CaughtUpMoves(p: Pipe) returns (s: PipeStep, p': Pipe)
    requires Inv(p) && !p.ring.stopped && p.want == Received(p) && p.queue != []
    ensures Step(p, s, p') && (s.Reserve? || s.Receive? || s.Publish?)
  {
    var w := 0;
    assert !p.workers[w].Gone?;
    TallyBound(p.workers, w);
    s, p' := WorkerMoves(p, w);
  }

  /** A feeder in the middle of a batch can send, find nobody left, or wait for a worker that moves. */
  lemma SendingMoves(p: Pipe) returns (s: PipeStep, p': Pipe)
    requires Inv(p) && p.feeder.Sending? && (p.ring.stopped || |p.queue| < |p.ring.items|)
    ensures Step(p, s, p') && !s.FeedBatch? && !s.ApplyFail? && !s.Abort?
  {
    if AllGone(p.workers) {
      s, p' := FeedClose, p.(feeder := Closed, ring := p.ring.(end := Some(p.fed)));
    } else if |p.queue| < |p.ring.items| {
      s := FeedSend;
      p' := p.(queue := p.queue + [p.fed], fed := p.fed + 1,
               feeder := if p.feeder.left == 1 then Between else Sending(p.feeder.left - 1));
    } else {
      var w :| 0 <= w < |p.workers| && !p.workers[w].Gone?;
      s, p' := WorkerMoves(p, w);
    }
  }

  /** A feeder that is not gone can move, given what the source answers, once nothing waits in
      the channel. */
  lemma FeederMoves(p: Pipe) returns (s: PipeStep, p': Pipe)
    requires Inv(p) && !p.feeder.Dropped? && (p.ring.stopped || p.queue == [])
    ensures Step(p, s, p') && !s.FeedBatch? && !s.ApplyFail? && !s.Abort?
  {
    match p.feeder
    case Between => s, p' := FeedClose, p.(feeder := Closed, ring := p.ring.(end := Some(p.fed)));
    case Closed => s, p' := FeedDrop, p.(feeder := Dropped);
    case Sending(_) => s, p' := SendingMoves(p);
  }

  lemma ApplierMoves(p: Pipe) returns (s: PipeStep, p': Pipe)
    requires Inv(p) && p.applying
    ensures Step(p, s, p') && !s.FeedBatch? && !s.ApplyFail? && !s.Abort?
  {
    var i := p.want % |p.ring.items|;
    if p.ring.items[i].Some? {
      s := Take;
      p' := TakeMoves(p);
    } else if p.ring.stopped || (p.ring.end.Some? && p.want >= p.ring.end.value) {
      s, p' := ApplyEnd, p.(applying := false);
    } else if p.want < Received(p) {
      assert Placed(p.workers, p.ring.items, p.want);
      var w :| 0 <= w < |p.workers| && p.workers[w] == Decoding(p.want);
      s, p' := WorkerMoves(p, w);
    } else if p.queue != [] {
      s, p' := CaughtUpMoves(p);
    } else {
      s, p' := FeederMoves(p);
    }
  }

  lemma RestMoves(p: Pipe) returns (s: PipeStep, p': Pipe)
    requires Inv(p) && !p.applying && !Finished(p)
    ensures Step(p, s, p') && !s.FeedBatch? && !s.ApplyFail? && !s.Abort?
  {
    if !p.feeder.Dropped? {
      s, p' := FeederMoves(p);
    } else {
      var w :| 0 <= w < |p.workers| && !p.workers[w].Gone?;
      TallyBound(p.workers, w);
      s, p' := WorkerMoves(p, w);
    }
  }

  /** No unfinished reachable state is stuck: some thread can move on its own, and since the
      rank falls with every move the pipeline ends once the source does. */
  lemma NeverStuck(p: Pipe) returns (s: PipeStep, p': Pipe)
    requires Inv(p) && !Finished(p)
    ensures Step(p, s, p') && Rank(p') < Rank(p) && !s.ApplyFail? && !s.Abort?
  {
    if p.applying {
      s, p' := ApplierMoves(p);
    } else {
      s, p' := RestMoves(p);
    }
    RankFalls(p, s, p');
  }
}
