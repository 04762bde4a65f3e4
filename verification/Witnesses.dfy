/**
 Two short runs of a fresh queue with its default deadline that show where the queue does
 not do what its comments say: a late completion ends the wrong turn, and a merged batch
 that is put back loses its carried-over events.
 */
module Witnesses {
  import opened Basics
  import opened Events
  import opened QueueModel
  import opened QueueRuns
  import C = Conservation

  const ONE: Channel := 7

  function Sample(id: EventId): QueuedEvent {
    QueuedEvent(ONE, Event(id, 0), 0.0, "", false)
  }

  /** The run `ops` of `w0` leads to `w`. */
  ghost predicate Leads(w0: World, ops: seq<Op>, w: World) {
    LegalRun(w0, ops) && Run(w0, ops) == w
  }

  lemma LeadsOn(w0: World, ops: seq<Op>, w: World, op: Op)
    requires Leads(w0, ops, w) && Legal(w, op)
    ensures Leads(w0, ops + [op], Apply(w, op))
  {
    RunSnoc(w0, ops, op);
  }

  /** Only one channel is in use: its queue, the deadline of its turn if one is in flight, its cancelled batch. */
  datatype Shape = Shape(queue: seq<QueuedEvent>, flying: Option<Time>, cancelled: seq<BatchEvent>)

  ghost predicate Tables(s: State) {
    && s.withheld == map[] && s.retryAfter == map[] && s.dedup.Queue?
    && s.inFlightDeadline == DEFAULT_IN_FLIGHT_DEADLINE_SECS as real
    && s.queues.Keys <= {ONE} && (ONE in s.queues ==> s.queues[ONE] != [])
  }

  ghost predicate Looks(s: State, sh: Shape) {
    && Tables(s)
    && QueueOf(s, ONE) == sh.queue
    && (ONE in s.inFlight <==> sh.flying.Some?)
    && Entry(s.deadlines, ONE) == sh.flying
    && CancelledOf(s, ONE) == sh.cancelled
  }

  lemma LooksPush(s: State, sh: Shape, e: QueuedEvent)
    requires Looks(s, sh) && e.channel == ONE && sh.queue == []
    ensures Looks(Push(s, e).0, sh.(queue := [e]))
  {
    assert [] + [e] == [e];
  }

  lemma LooksComplete(s: State, sh: Shape, now: Time)
    requires Looks(s, sh)
    ensures Looks(MarkComplete(s, ONE, now), sh.(flying := None))
  {
  }

  lemma LooksExpire(s: State, sh: Shape, now: Time)
    requires Looks(s, sh)
    ensures Looks(Expire(s, now), if sh.flying.Some? && now >= sh.flying.value then sh.(flying := None) else sh)
  {
  }

  lemma SortOne(b: BatchEvent)
    ensures SortByCreated([b]) == [b]
  {
    assert [b][..0] == [];
    assert SortByCreated([]) == [];
  }

  lemma LooksReady(s: State, sh: Shape, now: Time)
    requires Looks(s, sh) && sh.queue != [] && sh.flying.None?
    ensures MayFlush(s, now, ONE) && Eligible(s, now, ONE)
  {
    assert forall d :: Eligible(s, now, d) ==> d == ONE;
  }

  lemma DrainedOne(s: State, e: QueuedEvent)
    requires QueueOf(s, ONE) == [e]
    ensures Drained(s, ONE) == [ToBatch(e)] && DrainCount([e]) == 1 && [e][1..] == []
  {
    assert [e][..1] == [e];
    assert AllToBatch([e]) == [ToBatch(e)];
    SortOne(ToBatch(e));
  }

  lemma LooksDispatch(s: State, sh: Shape, now: Time)
    requires Looks(s, sh) && |sh.queue| == 1 && sh.flying.None? && Eligible(s, now, ONE)
    ensures var (s1, b) := FlushAs(s, now, ONE);
      && Looks(s1, Shape([], Some(now + DEFAULT_IN_FLIGHT_DEADLINE_SECS as real), []))
      && b.channel == ONE && b.events == [ToBatch(sh.queue[0])] && b.cancelledEvents == sh.cancelled
  {
    assert sh.queue == [sh.queue[0]];
    DrainedOne(s, sh.queue[0]);
    assert PutQueue(s.queues, ONE, []) == s.queues - {ONE};
  }

  lemma LooksFlush(w: World, sh: Shape, now: Time)
    requires Looks(w.q, sh) && |sh.queue| == 1 && (sh.flying.Some? ==> now >= sh.flying.value)
    ensures Legal(w, FlushOp(now, ONE))
    ensures var w1 := Apply(w, FlushOp(now, ONE)); var b := Flushed(w, FlushOp(now, ONE));
      && Looks(w1.q, Shape([], Some(now + DEFAULT_IN_FLIGHT_DEADLINE_SECS as real), []))
      && w1.out == w.out + [b]
      && b.channel == ONE && b.events == [ToBatch(sh.queue[0])] && b.cancelledEvents == sh.cancelled
  {
    LooksExpire(w.q, sh, now);
    LooksReady(Expire(w.q, now), sh.(flying := None), now);
    LooksDispatch(Expire(w.q, now), sh.(flying := None), now);
  }

  // ---- one operation at the end of a run ----

  lemma ThenPush(w0: World, ops: seq<Op>, w: World, sh: Shape, id: EventId) returns (ops': seq<Op>, w': World)
    requires Leads(w0, ops, w) && Looks(w.q, sh) && sh.queue == []
    ensures ops' == ops + [PushOp(Sample(id))] && Leads(w0, ops', w')
    ensures Looks(w'.q, sh.(queue := [Sample(id)])) && w'.out == w.out
  {
    LeadsOn(w0, ops, w, PushOp(Sample(id)));
    LooksPush(w.q, sh, Sample(id));
    ops', w' := ops + [PushOp(Sample(id))], Apply(w, PushOp(Sample(id)));
  }

  lemma ThenFlush(w0: World, ops: seq<Op>, w: World, sh: Shape, now: Time)
    returns (ops': seq<Op>, w': World, b: FlushBatch)
    requires Leads(w0, ops, w) && Looks(w.q, sh) && |sh.queue| == 1
    requires sh.flying.Some? ==> now >= sh.flying.value
    ensures ops' == ops + [FlushOp(now, ONE)] && Leads(w0, ops', w')
    ensures Looks(w'.q, Shape([], Some(now + DEFAULT_IN_FLIGHT_DEADLINE_SECS as real), [])) && w'.out == w.out + [b]
    ensures b.channel == ONE && b.events == [ToBatch(sh.queue[0])] && b.cancelledEvents == sh.cancelled
  {
    LooksFlush(w, sh, now);
    LeadsOn(w0, ops, w, FlushOp(now, ONE));
    ops', w', b := ops + [FlushOp(now, ONE)], Apply(w, FlushOp(now, ONE)), Flushed(w, FlushOp(now, ONE));
  }

  lemma ThenComplete(w0: World, ops: seq<Op>, w: World, sh: Shape, now: Time) returns (ops': seq<Op>, w': World)
    requires Leads(w0, ops, w) && Looks(w.q, sh)
    ensures ops' == ops + [CompleteOp(ONE, now)] && Leads(w0, ops', w')
    ensures Looks(w'.q, sh.(flying := None)) && w'.out == w.out
  {
    LooksComplete(w.q, sh, now);
    LeadsOn(w0, ops, w, CompleteOp(ONE, now));
    ops', w' := ops + [CompleteOp(ONE, now)], Apply(w, CompleteOp(ONE, now));
  }

  lemma LooksCancel(w: World, sh: Shape, b: FlushBatch)
    requires Looks(w.q, sh) && sh.cancelled == [] && w.out == [b] && b.channel == ONE && b.cancelledEvents == []
    ensures Legal(w, CancelOp(0, Steer))
    ensures var w1 := Apply(w, CancelOp(0, Steer)); Looks(w1.q, sh.(cancelled := b.events)) && w1.out == []
  {
    assert [] + b.cancelledEvents + b.events == b.events;
  }

  lemma ThenCancel(w0: World, ops: seq<Op>, w: World, sh: Shape, b: FlushBatch) returns (ops': seq<Op>, w': World)
    requires Leads(w0, ops, w) && Looks(w.q, sh) && sh.cancelled == []
    requires w.out == [b] && b.channel == ONE && b.cancelledEvents == []
    ensures ops' == ops + [CancelOp(0, Steer)] && Leads(w0, ops', w')
    ensures Looks(w'.q, sh.(cancelled := b.events)) && w'.out == []
  {
    LooksCancel(w, sh, b);
    LeadsOn(w0, ops, w, CancelOp(0, Steer));
    ops', w' := ops + [CancelOp(0, Steer)], Apply(w, CancelOp(0, Steer));
  }

  /** A batch put back leaves the events it had carried over behind. */
  lemma ThenPreserve(w0: World, ops: seq<Op>, w: World, x: BatchEvent) returns (ops': seq<Op>, w': World)
    requires Leads(w0, ops, w)
    requires |w.out| == 1 && w.out[0].channel == ONE && w.out[0].cancelledEvents == [x]
    ensures ops' == ops + [PreserveOp(0)] && Leads(w0, ops', w')
    ensures BookOf(w', ONE).notPutBack[x.event.id] > 0
  {
    LeadsOn(w0, ops, w, PreserveOp(0));
    ops', w' := ops + [PreserveOp(0)], Apply(w, PreserveOp(0));
    C.BookAfter(w, PreserveOp(0), ONE);
    assert BIds([x]) == [x.event.id];
  }

  // ---- a late completion ----

  /** Two turns on one channel; the first expires, and its completion arrives while the second runs. */
  function LateCompletion(): seq<Op> {
    [PushOp(Sample(1)), FlushOp(0.0, ONE), PushOp(Sample(2)), FlushOp(7300.0, ONE),
     CompleteOp(ONE, 7301.0), PushOp(Sample(3)), FlushOp(7302.0, ONE)]
  }

  /** The first two turns. */
  lemma TwoTurns(w0: World) returns (ops: seq<Op>, w: World)
    requires Looks(w0.q, Shape([], None, []))
    ensures ops == LateCompletion()[..4] && Leads(w0, ops, w)
    ensures Looks(w.q, Shape([], Some(14600.0), []))
  {
    var b: FlushBatch;
    ops, w := ThenPush(w0, [], w0, Shape([], None, []), 1);
    ops, w, b := ThenFlush(w0, ops, w, Shape([Sample(1)], None, []), 0.0);
    ops, w := ThenPush(w0, ops, w, Shape([], Some(7300.0), []), 2);
    ops, w, b := ThenFlush(w0, ops, w, Shape([Sample(2)], Some(7300.0), []), 7300.0);
  }

  /** The late completion and the third flush. */
  lemma ThirdTurn(w0: World, ops4: seq<Op>, w4: World) returns (ops: seq<Op>, w: World)
    requires ops4 == LateCompletion()[..4] && Leads(w0, ops4, w4) && Looks(w4.q, Shape([], Some(14600.0), []))
    ensures ops == LateCompletion() && Leads(w0, ops, w)
  {
    var b: FlushBatch;
    ops, w := ThenComplete(w0, ops4, w4, Shape([], Some(14600.0), []), 7301.0);
    ops, w := ThenPush(w0, ops, w, Shape([], None, []), 3);
    ops, w, b := ThenFlush(w0, ops, w, Shape([Sample(3)], None, []), 7302.0);
  }

  /**
   Completion names a channel, not a turn. In this run of a queue with its default deadline the second
   turn is due at 14600, yet the first turn's late completion lets the channel be flushed at 7302.
   */
  lemma LateCompletionReopens(w0: World)
    requires w0 == Start(Queue, DEFAULT_IN_FLIGHT_DEADLINE_SECS as real)
    ensures LegalRun(w0, LateCompletion()) && LegalRun(w0, LateCompletion()[..4])
    ensures LateCompletion()[6] == FlushOp(7302.0, ONE)
    ensures Entry(Run(w0, LateCompletion()[..4]).q.deadlines, ONE) == Some(14600.0)
  {
    var ops4, w4 := TwoTurns(w0);
    var ops, w := ThirdTurn(w0, ops4, w4);
  }

  // ---- a merged batch put back ----

  /** A turn is cancelled, its event is merged into the next batch, and that batch is put back. */
  function MergedPutBack(): seq<Op> {
    [PushOp(Sample(1)), FlushOp(0.0, ONE), CancelOp(0, Steer), CompleteOp(ONE, 1.0),
     PushOp(Sample(2)), FlushOp(2.0, ONE), PreserveOp(0)]
  }

  /** The first turn, cancelled and completed. */
  lemma CancelledTurn(w0: World) returns (ops: seq<Op>, w: World)
    requires Looks(w0.q, Shape([], None, [])) && w0.out == []
    ensures ops == MergedPutBack()[..4] && Leads(w0, ops, w)
    ensures Looks(w.q, Shape([], None, [ToBatch(Sample(1))])) && w.out == []
  {
    var b: FlushBatch;
    ops, w := ThenPush(w0, [], w0, Shape([], None, []), 1);
    ops, w, b := ThenFlush(w0, ops, w, Shape([Sample(1)], None, []), 0.0);
    ops, w := ThenCancel(w0, ops, w, Shape([], Some(7300.0), []), b);
    ops, w := ThenComplete(w0, ops, w, Shape([], Some(7300.0), b.events), 1.0);
  }

  /** The merged batch, put back. */
  lemma MergedTurn(w0: World, ops4: seq<Op>, w4: World) returns (ops: seq<Op>, w: World)
    requires ops4 == MergedPutBack()[..4] && Leads(w0, ops4, w4)
    requires Looks(w4.q, Shape([], None, [ToBatch(Sample(1))])) && w4.out == []
    ensures ops == MergedPutBack() && Leads(w0, ops, w) && BookOf(w, ONE).notPutBack[1] > 0
  {
    var b: FlushBatch;
    ops, w := ThenPush(w0, ops4, w4, Shape([], None, [ToBatch(Sample(1))]), 2);
    ops, w, b := ThenFlush(w0, ops, w, Shape([Sample(2)], None, [ToBatch(Sample(1))]), 2.0);
    ops, w := ThenPreserve(w0, ops, w, ToBatch(Sample(1)));
  }

  lemma MergedRun(w0: World) returns (ops: seq<Op>, w: World)
    requires Looks(w0.q, Shape([], None, [])) && w0.out == []
    ensures ops == MergedPutBack() && Leads(w0, ops, w) && BookOf(w, ONE).notPutBack[1] > 0
  {
    var ops4, w4 := CancelledTurn(w0);
    ops, w := MergedTurn(w0, ops4, w4);
  }

  /** Nothing else accounts for an event that was accepted once and not put back. */
  ghost predicate Lost(w: World, x: EventId) {
    && C.Accepted(w, ONE, x) && BookOf(w, ONE).notPutBack[x] == 1
    && C.Held(w.q, ONE, x) == 0 && C.OutIds(w.out, ONE)[x] == 0
  }

  lemma Gone(w0: World, ops: seq<Op>, w: World, x: EventId)
    requires C.Empty(w0) && Leads(w0, ops, w) && C.DistinctPushes(ops) && BookOf(w, ONE).notPutBack[x] > 0
    ensures Lost(w, x)
  {
    C.SingleRun(w0, ops, x);
    assert C.Balanced(w, ONE, x) && BookOf(w, ONE).accepted[x] <= 1;
  }

  lemma MergedLoss(w0: World) returns (ops: seq<Op>, w: World)
    requires Looks(w0.q, Shape([], None, [])) && C.Empty(w0)
    ensures ops == MergedPutBack() && Leads(w0, ops, w) && Lost(w, 1)
  {
    ops, w := MergedRun(w0);
    Gone(w0, ops, w, 1);
  }

  /**
   Putting a merged batch back loses its carried-over events: after this run of a fresh queue the first
   event, accepted and never finished, is in no table and in no outstanding batch.
   */
  lemma MergedBatchLosesCarriedEvents(w0: World)
    requires w0 == Start(Queue, DEFAULT_IN_FLIGHT_DEADLINE_SECS as real)
    ensures LegalRun(w0, MergedPutBack()) && Lost(Run(w0, MergedPutBack()), 1)
  {
    var ops, w := MergedLoss(w0);
  }
}
