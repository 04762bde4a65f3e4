/**
 Runs of the event queue together with what its callers hold.

 A `World` is the queue, the batches that were flushed and not handed back yet,
 and per channel a `Book` saying where each accepted event ended. `Apply` is one
 operation; a run is any legal sequence of operations.
 */
module QueueRuns {
  import opened Basics
  import opened Events
  import opened QueueModel

  /**
   One queue operation. `i` is the position of a batch among the outstanding ones;
   `pick` is the channel the hash-map iteration yields. `Tick` is a call that only
   expires: has_flushable_work, or a flush_next that finds nothing.
   `Finish` is the caller dropping a batch it is done with.
   */
  datatype Op =
    | PushOp(e: QueuedEvent)
    | FlushOp(now: Time, pick: Channel)
    | TickOp(now: Time)
    | CompleteOp(c: Channel, now: Time)
    | RequeueOp(i: nat, now: Time, nanos: nat)
    | PreserveOp(i: nat)
    | CancelOp(i: nat, reason: CancelReason)
    | FinishOp(i: nat)
    | DrainOp(c: Channel)
    | WithholdOp(c: Channel, id: EventId)
    | ReleaseOp(c: Channel, id: EventId)
    | RemoveOp(c: Channel, id: EventId)
    | ExtendOp(c: Channel, secs: nat, now: Time)
    | CompactOp(now: Time)

  /** Where the accepted events of one channel went, by event id with multiplicity. */
  datatype Book = Book(
    accepted: multiset<EventId>,
    finished: multiset<EventId>,
    deadLettered: multiset<EventId>,
    drained: multiset<EventId>,
    steered: multiset<EventId>,
    trimmed: multiset<EventId>,
    notPutBack: multiset<EventId>)

  const BLANK: Book := Book(multiset{}, multiset{}, multiset{}, multiset{}, multiset{}, multiset{}, multiset{})

  datatype World = World(q: State, out: seq<FlushBatch>, books: map<Channel, Book>)

  function Start(dedup: DedupMode, deadline: Time): World {
    World(Initial(dedup, deadline), [], map[])
  }

  function BookOf(w: World, c: Channel): Book {
    if c in w.books then w.books[c] else BLANK
  }

  // ---- one operation ----

  predicate HandsBack(op: Op) {
    op.RequeueOp? || op.PreserveOp? || op.CancelOp? || op.FinishOp?
  }

  /** A batch is handed back only while it is outstanding; a flush picks what flush_next may pick. */
  ghost predicate Legal(w: World, op: Op) {
    && (HandsBack(op) ==> op.i < |w.out|)
    && (op.FlushOp? ==> MayFlush(Expire(w.q, op.now), op.now, op.pick))
  }

  function Without(out: seq<FlushBatch>, i: nat): seq<FlushBatch>
    requires i < |out|
  {
    out[..i] + out[i + 1..]
  }

  ghost function NextState(w: World, op: Op): State
    requires Legal(w, op)
  {
    match op
    case PushOp(e) => Push(w.q, e).0
    case FlushOp(now, pick) => FlushAs(Expire(w.q, now), now, pick).0
    case TickOp(now) => Expire(w.q, now)
    case CompleteOp(c, now) => MarkComplete(w.q, c, now)
    case RequeueOp(i, now, nanos) => Requeue(w.q, w.out[i], now, nanos).0
    case PreserveOp(i) => RequeuePreserve(w.q, w.out[i])
    case CancelOp(i, reason) => RequeueCancelled(w.q, w.out[i], reason)
    case FinishOp(_) => w.q
    case DrainOp(c) => DrainChannel(w.q, c).0
    case WithholdOp(c, id) => Withhold(w.q, c, id).0
    case ReleaseOp(c, id) => Release(w.q, c, id)
    case RemoveOp(c, id) => RemoveEvent(w.q, c, id)
    case ExtendOp(c, secs, now) => Extend(w.q, c, secs, now)
    case CompactOp(now) => Compact(w.q, now)
  }

  /** The batch an operation returns to its caller, when it is a flush. */
  ghost function Flushed(w: World, op: Op): FlushBatch
    requires op.FlushOp?
  {
    FlushAs(Expire(w.q, op.now), op.now, op.pick).1
  }

  ghost function NextOut(w: World, op: Op): seq<FlushBatch>
    requires Legal(w, op)
  {
    if op.FlushOp? then w.out + [Flushed(w, op)]
    else if HandsBack(op) then Without(w.out, op.i)
    else w.out
  }

  function QSet(q: seq<QueuedEvent>): multiset<EventId> {
    multiset(QIds(q))
  }

  function BSet(b: seq<BatchEvent>): multiset<EventId> {
    multiset(BIds(b))
  }

  function ExpiryLoss(s: State, now: Time, c: Channel): multiset<EventId> {
    if c in Expired(s, now) && c in s.withheld then QSet(Overflow(s.withheld[c] + QueueOf(s, c))) else multiset{}
  }

  function Copies(s: State, c: Channel, id: EventId): nat {
    QSet(WithheldOf(s, c))[id] + QSet(QueueOf(s, c))[id]
  }

  /** The book entries of one operation for one channel: exactly the events each removal drops. */
  ghost function NextBook(w: World, op: Op, c: Channel): Book
    requires Legal(w, op)
  {
    var b := BookOf(w, c);
    match op
    case PushOp(e) =>
      if e.channel != c || Refuses(w.q, c) then b
      else
        b.(accepted := b.accepted + multiset{e.event.id},
           trimmed := b.trimmed + (if |QueueOf(w.q, c)| >= MAX_PENDING_PER_CHANNEL
                                   then multiset{QueueOf(w.q, c)[0].event.id} else multiset{}))
    case FlushOp(now, _) => b.(trimmed := b.trimmed + ExpiryLoss(w.q, now, c))
    case TickOp(now) => b.(trimmed := b.trimmed + ExpiryLoss(w.q, now, c))
    case RequeueOp(i, now, nanos) =>
      if w.out[i].channel != c then b
      else if Requeue(w.q, w.out[i], now, nanos).1.Some? then
        b.(deadLettered := b.deadLettered + BSet(Full(w.out[i])))
      else
        b.(trimmed := b.trimmed + QSet(Overflow(PutBack(w.q, w.out[i]))),
           notPutBack := b.notPutBack + BSet(w.out[i].cancelledEvents))
    case PreserveOp(i) =>
      if w.out[i].channel != c then b
      else
        b.(trimmed := b.trimmed + QSet(Overflow(PutBack(w.q, w.out[i]))),
           notPutBack := b.notPutBack + BSet(w.out[i].cancelledEvents))
    case FinishOp(i) =>
      if w.out[i].channel != c then b else b.(finished := b.finished + BSet(Full(w.out[i])))
    case DrainOp(d) =>
      if d != c then b
      else b.(drained := b.drained + QSet(QueueOf(w.q, c)) + QSet(WithheldOf(w.q, c)) + BSet(CancelledOf(w.q, c)))
    case ReleaseOp(d, id) =>
      if d != c || FirstIndex(WithheldOf(w.q, c), id) == |WithheldOf(w.q, c)| then b
      else
        b.(trimmed := b.trimmed
             + QSet(Overflow([WithheldOf(w.q, c)[FirstIndex(WithheldOf(w.q, c), id)]] + QueueOf(w.q, c))))
    case RemoveOp(d, id) =>
      if d != c then b else b.(steered := b.steered + multiset{}[id := Copies(w.q, c, id)])
    case _ => b
  }

  ghost function Touched(w: World, op: Op): set<Channel> {
    w.books.Keys + w.q.withheld.Keys + w.q.queues.Keys + w.q.cancelled.Keys
    + (set i | 0 <= i < |w.out| :: w.out[i].channel)
    + (if op.PushOp? then {op.e.channel} else {})
  }

  ghost function Apply(w: World, op: Op): World
    requires Legal(w, op)
  {
    World(NextState(w, op), NextOut(w, op), map c | c in Touched(w, op) :: NextBook(w, op, c))
  }

  // ---- runs ----

  ghost predicate LegalRun(w: World, ops: seq<Op>)
    decreases |ops|
  {
    ops == [] || (Legal(w, ops[0]) && LegalRun(Apply(w, ops[0]), ops[1..]))
  }

  ghost function Run(w: World, ops: seq<Op>): World
    requires LegalRun(w, ops)
    decreases |ops|
  {
    if ops == [] then w else Run(Apply(w, ops[0]), ops[1..])
  }

  lemma {:induction false} RunAppend(w: World, a: seq<Op>, b: seq<Op>)
    ensures LegalRun(w, a + b) <==> LegalRun(w, a) && LegalRun(Run(w, a), b)
    ensures LegalRun(w, a + b) ==> Run(w, a + b) == Run(Run(w, a), b)
    decreases |a|
  {
    if a == [] {
      assert a + b == b;
    } else {
      assert (a + b)[1..] == a[1..] + b && (a + b)[0] == a[0];
      if Legal(w, a[0]) {
        RunAppend(Apply(w, a[0]), a[1..], b);
      }
    }
  }

  lemma RunOne(w: World, op: Op)
    requires Legal(w, op)
    ensures LegalRun(w, [op]) && Run(w, [op]) == Apply(w, op)
  {
    assert [op][1..] == [];
    assert LegalRun(Apply(w, op), []);
  }

  lemma RunSnoc(w: World, ops: seq<Op>, op: Op)
    requires LegalRun(w, ops) && Legal(Run(w, ops), op)
    ensures LegalRun(w, ops + [op]) && Run(w, ops + [op]) == Apply(Run(w, ops), op)
  {
    RunOne(Run(w, ops), op);
    RunAppend(w, ops, [op]);
  }

  // ---- the invariant of every reachable state ----

  /** The three in-flight tables have the same keys. */
  ghost predicate TurnTables(inFlight: set<Channel>, deadlines: map<Channel, Time>, batchSizes: map<Channel, nat>) {
    deadlines.Keys == inFlight && batchSizes.Keys == inFlight
  }

  /** Every stored queue holds 1 to 500 events. */
  ghost predicate QueueTable(queues: map<Channel, seq<QueuedEvent>>) {
    forall c :: c in queues ==> 1 <= |queues[c]| <= MAX_PENDING_PER_CHANNEL
  }

  ghost predicate WithheldTable(withheld: map<Channel, seq<QueuedEvent>>) {
    forall c :: c in withheld ==> withheld[c] != []
  }

  ghost predicate CancelTables(cancelled: map<Channel, seq<BatchEvent>>, reasons: map<Channel, CancelReason>) {
    cancelled.Keys == reasons.Keys && forall c :: c in cancelled ==> cancelled[c] != []
  }

  ghost predicate StateInv(s: State) {
    && TurnTables(s.inFlight, s.deadlines, s.batchSizes)
    && QueueTable(s.queues)
    && WithheldTable(s.withheld)
    && CancelTables(s.cancelled, s.cancelReasons)
  }

  ghost predicate OutInv(out: seq<FlushBatch>) {
    forall i :: 0 <= i < |out| ==> out[i].events != []
  }

  ghost predicate Inv(w: World) {
    StateInv(w.q) && OutInv(w.out)
  }

  lemma InvExpire(s: State, now: Time)
    requires StateInv(s)
    ensures StateInv(Expire(s, now))
  {
    var e := Expire(s, now);
    forall c | c in e.queues ensures 1 <= |e.queues[c]| <= MAX_PENDING_PER_CHANNEL {
      assert e.queues[c] == Recovered(s.queues, s.withheld, Expired(s, now), c);
    }
  }

  lemma InvFlush(s: State, now: Time, c: Channel)
    requires StateInv(s) && MayFlush(s, now, c)
    ensures StateInv(FlushAs(s, now, c).0)
    ensures FlushAs(s, now, c).1.events != []
  {
    var q := QueueOf(s, c);
    if Eligible(s, now, c) {
      assert |Drained(s, c)| == DrainCount(q);
      var s1 := s.(queues := PutQueue(s.queues, c, q[DrainCount(q)..]));
      assert StateInv(s1);
    }
  }

  lemma InvWithhold(s: State, c: Channel, id: EventId)
    requires StateInv(s)
    ensures StateInv(Withhold(s, c, id).0)
  {
    var q := QueueOf(s, c);
    var k := FirstIndex(q, id);
    if k < |q| {
      assert |RemoveAt(q, k)| == |q| - 1;
    }
  }

  lemma InvRelease(s: State, c: Channel, id: EventId)
    requires StateInv(s)
    ensures StateInv(Release(s, c, id))
  {
    var w := WithheldOf(s, c);
    var k := FirstIndex(w, id);
    if k < |w| {
      assert 1 <= |Trim([w[k]] + QueueOf(s, c))| <= MAX_PENDING_PER_CHANNEL;
    }
  }

  lemma InvRemove(s: State, c: Channel, id: EventId)
    requires StateInv(s)
    ensures StateInv(RemoveEvent(s, c, id))
  {
    var s1 := RemoveEvent(s, c, id);
    forall d | d in s1.queues ensures 1 <= |s1.queues[d]| <= MAX_PENDING_PER_CHANNEL {
      assert d in s.queues;
    }
  }

  lemma InvPutBack(s: State, b: FlushBatch)
    requires StateInv(s) && b.events != []
    ensures StateInv(RequeuePreserve(s, b))
  {
    assert 1 <= |Trim(PutBack(s, b))| <= MAX_PENDING_PER_CHANNEL;
  }

  lemma InvRequeue(s: State, b: FlushBatch, now: Time, nanos: nat)
    requires StateInv(s) && b.events != []
    ensures StateInv(Requeue(s, b, now, nanos).0)
  {
    InvPutBack(s, b);
  }

  lemma InvCancelled(s: State, b: FlushBatch, reason: CancelReason)
    requires StateInv(s) && b.events != []
    ensures StateInv(RequeueCancelled(s, b, reason))
  {
    assert CancelledOf(s, b.channel) + b.cancelledEvents + b.events != [];
  }

  lemma InvHandBack(w: World, op: Op)
    requires Inv(w) && Legal(w, op) && HandsBack(op)
    ensures StateInv(NextState(w, op))
  {
    var b := w.out[op.i];
    if op.CancelOp? {
      InvCancelled(w.q, b, op.reason);
    } else if op.FinishOp? {
      assert NextState(w, op) == w.q;
    } else if op.PreserveOp? {
      InvPutBack(w.q, b);
    } else {
      InvRequeue(w.q, b, op.now, op.nanos);
    }
  }

  lemma InvPush(s: State, e: QueuedEvent)
    requires StateInv(s)
    ensures StateInv(Push(s, e).0)
  {
  }

  lemma TurnEnds(inFlight: set<Channel>, deadlines: map<Channel, Time>, batchSizes: map<Channel, nat>, c: Channel)
    requires TurnTables(inFlight, deadlines, batchSizes)
    ensures TurnTables(inFlight - {c}, deadlines - {c}, batchSizes - {c})
  {
  }

  lemma InvComplete(s: State, c: Channel, now: Time)
    requires StateInv(s)
    ensures StateInv(MarkComplete(s, c, now))
  {
    TurnEnds(s.inFlight, s.deadlines, s.batchSizes, c);
  }

  lemma InvDrain(s: State, c: Channel)
    requires StateInv(s)
    ensures StateInv(DrainChannel(s, c).0)
  {
  }

  lemma InvState(w: World, op: Op)
    requires Inv(w) && Legal(w, op)
    ensures StateInv(NextState(w, op))
  {
    if op.FlushOp? {
      InvExpire(w.q, op.now);
      InvFlush(Expire(w.q, op.now), op.now, op.pick);
    } else if op.TickOp? {
      InvExpire(w.q, op.now);
    } else if HandsBack(op) {
      InvHandBack(w, op);
    } else if op.WithholdOp? {
      InvWithhold(w.q, op.c, op.id);
    } else if op.ReleaseOp? {
      InvRelease(w.q, op.c, op.id);
    } else if op.RemoveOp? {
      InvRemove(w.q, op.c, op.id);
    } else if op.PushOp? {
      InvPush(w.q, op.e);
    } else if op.CompleteOp? {
      InvComplete(w.q, op.c, op.now);
    } else if op.DrainOp? {
      InvDrain(w.q, op.c);
    } else {
      assert op.ExtendOp? || op.CompactOp?;
    }
  }

  lemma InvFlushed(w: World, op: Op)
    requires StateInv(w.q) && Legal(w, op) && op.FlushOp?
    ensures Flushed(w, op).events != []
  {
    InvExpire(w.q, op.now);
    InvFlush(Expire(w.q, op.now), op.now, op.pick);
  }

  lemma InvOut(w: World, op: Op)
    requires OutInv(w.out) && Legal(w, op) && (op.FlushOp? ==> Flushed(w, op).events != [])
    ensures OutInv(NextOut(w, op))
  {
  }

  lemma InvStep(w: World, op: Op)
    requires Inv(w) && Legal(w, op)
    ensures Inv(Apply(w, op))
  {
    InvState(w, op);
    if op.FlushOp? {
      InvFlushed(w, op);
    }
    InvOut(w, op);
  }

  /** Every run from a good state ends in a good state; so does each of its prefixes, which are runs too. */
  lemma {:induction false} InvRun(w: World, ops: seq<Op>)
    requires Inv(w) && LegalRun(w, ops)
    ensures Inv(Run(w, ops))
    decreases |ops|
  {
    if ops != [] {
      InvStep(w, ops[0]);
      InvRun(Apply(w, ops[0]), ops[1..]);
    }
  }

  // ---- operations on other channels ----

  function Entry<V>(m: map<Channel, V>, c: Channel): Option<V> {
    if c in m then Some(m[c]) else None
  }

  /** The tables agree on channel `c`, retry bookkeeping aside. */
  ghost predicate SameTables(s: State, s1: State, c: Channel) {
    && Entry(s1.queues, c) == Entry(s.queues, c)
    && Entry(s1.withheld, c) == Entry(s.withheld, c)
    && Entry(s1.cancelled, c) == Entry(s.cancelled, c)
    && Entry(s1.cancelReasons, c) == Entry(s.cancelReasons, c)
    && (c in s1.inFlight <==> c in s.inFlight)
    && Entry(s1.deadlines, c) == Entry(s.deadlines, c)
    && Entry(s1.batchSizes, c) == Entry(s.batchSizes, c)
  }

  ghost predicate Same(s: State, s1: State, c: Channel) {
    && SameTables(s, s1, c)
    && Entry(s1.retryAfter, c) == Entry(s.retryAfter, c)
    && Entry(s1.retryCounts, c) == Entry(s.retryCounts, c)
  }

  /** The operation works on channel `c`. */
  ghost predicate Concerns(w: World, op: Op, c: Channel)
    requires Legal(w, op)
  {
    match op
    case PushOp(e) => e.channel == c
    case FlushOp(now, pick) => pick == c || c in Expired(w.q, now)
    case TickOp(now) => c in Expired(w.q, now)
    case RequeueOp(i, _, _) => w.out[i].channel == c
    case PreserveOp(i) => w.out[i].channel == c
    case CancelOp(i, _) => w.out[i].channel == c
    case FinishOp(i) => false
    case CompactOp(_) => false
    case CompleteOp(d, _) => d == c
    case DrainOp(d) => d == c
    case WithholdOp(d, _) => d == c
    case ReleaseOp(d, _) => d == c
    case RemoveOp(d, _) => d == c
    case ExtendOp(d, _, _) => d == c
  }

  lemma FrameExpire(s: State, now: Time, c: Channel)
    requires c !in Expired(s, now)
    ensures Same(s, Expire(s, now), c)
  {
  }

  lemma PutElsewhere(m: map<Channel, seq<QueuedEvent>>, p: Channel, q: seq<QueuedEvent>, c: Channel)
    requires p != c
    ensures Entry(PutQueue(m, p, q), c) == Entry(m, c)
  {
  }

  lemma FrameDispatch(s: State, now: Time, p: Channel, size: nat, c: Channel)
    requires p != c
    ensures Same(s, Dispatch(s, now, p, size), c)
  {
  }

  lemma FrameFlush(s: State, now: Time, p: Channel, c: Channel)
    requires p != c
    ensures Same(s, FlushAs(s, now, p).0, c)
  {
    if Eligible(s, now, p) {
      var q := QueueOf(s, p);
      var s1 := s.(queues := PutQueue(s.queues, p, q[DrainCount(q)..]));
      PutElsewhere(s.queues, p, q[DrainCount(q)..], c);
      assert Same(s, s1, c);
      FrameDispatch(s1, now, p, |Drained(s, p)|, c);
    } else {
      FrameDispatch(s, now, p, |CancelledOf(s, p)|, c);
    }
  }

  lemma FrameWithhold(s: State, d: Channel, id: EventId, c: Channel)
    requires d != c
    ensures Same(s, Withhold(s, d, id).0, c)
  {
    var q := QueueOf(s, d);
    var k := FirstIndex(q, id);
    if k < |q| {
      PutElsewhere(s.queues, d, RemoveAt(q, k), c);
    }
  }

  lemma FrameRelease(s: State, d: Channel, id: EventId, c: Channel)
    requires d != c
    ensures Same(s, Release(s, d, id), c)
  {
    var q := WithheldOf(s, d);
    var k := FirstIndex(q, id);
    if k < |q| {
      PutElsewhere(s.withheld, d, RemoveAt(q, k), c);
    }
  }

  lemma FrameRemove(s: State, d: Channel, id: EventId, c: Channel)
    requires d != c
    ensures Same(s, RemoveEvent(s, d, id), c)
  {
  }

  /** New retry tables and queues that agree with the old ones on `c`. */
  lemma FrameRetry(s: State, after: map<Channel, Time>, counts: map<Channel, nat>,
                   queues: map<Channel, seq<QueuedEvent>>, c: Channel)
    requires Entry(after, c) == Entry(s.retryAfter, c) && Entry(counts, c) == Entry(s.retryCounts, c)
    requires Entry(queues, c) == Entry(s.queues, c)
    ensures Same(s, s.(retryAfter := after, retryCounts := counts, queues := queues), c)
  {
  }

  /** The same for new in-flight tables. */
  lemma FrameTurn(s: State, inFlight: set<Channel>, deadlines: map<Channel, Time>, sizes: map<Channel, nat>, c: Channel)
    requires c in inFlight <==> c in s.inFlight
    requires Entry(deadlines, c) == Entry(s.deadlines, c) && Entry(sizes, c) == Entry(s.batchSizes, c)
    ensures Same(s, s.(inFlight := inFlight, deadlines := deadlines, batchSizes := sizes), c)
  {
  }

  lemma FrameRequeue(s: State, b: FlushBatch, now: Time, nanos: nat, c: Channel)
    requires b.channel != c
    ensures Same(s, Requeue(s, b, now, nanos).0, c)
  {
    var (s1, dead) := Requeue(s, b, now, nanos);
    if dead.Some? {
      FrameRetry(s, s.retryAfter - {b.channel}, s.retryCounts - {b.channel}, s.queues, c);
    } else {
      FrameRetry(s, s1.retryAfter, s1.retryCounts, s1.queues, c);
    }
  }

  lemma FrameHandBack(w: World, op: Op, c: Channel)
    requires Legal(w, op) && HandsBack(op) && !Concerns(w, op, c)
    ensures Same(w.q, NextState(w, op), c)
  {
    if op.RequeueOp? {
      FrameRequeue(w.q, w.out[op.i], op.now, op.nanos, c);
    } else if op.PreserveOp? {
      assert NextState(w, op) == RequeuePreserve(w.q, w.out[op.i]);
    } else if op.CancelOp? {
      assert NextState(w, op) == RequeueCancelled(w.q, w.out[op.i], op.reason);
    }
  }

  lemma FramePush(s: State, e: QueuedEvent, c: Channel)
    requires e.channel != c
    ensures Same(s, Push(s, e).0, c)
  {
    var s1 := Push(s, e).0;
    assert s1 == s || s1 == s.(queues := s1.queues);
    assert Entry(s1.queues, c) == Entry(s.queues, c);
  }

  lemma FrameComplete(s: State, d: Channel, now: Time, c: Channel)
    requires d != c
    ensures Same(s, MarkComplete(s, d, now), c)
  {
    var s0 := s.(inFlight := s.inFlight - {d}, deadlines := s.deadlines - {d}, batchSizes := s.batchSizes - {d});
    FrameTurn(s, s0.inFlight, s0.deadlines, s0.batchSizes, c);
    if !(d in s.retryAfter && s.retryAfter[d] > now) {
      FrameRetry(s0, s.retryAfter - {d}, s.retryCounts - {d}, s.queues, c);
    }
  }

  lemma FrameDrain(s: State, d: Channel, c: Channel)
    requires d != c
    ensures Same(s, DrainChannel(s, d).0, c)
  {
  }

  lemma FrameExtend(s: State, d: Channel, secs: nat, now: Time, c: Channel)
    requires d != c
    ensures Same(s, Extend(s, d, secs, now), c)
  {
  }

  lemma FrameSteer(w: World, op: Op, c: Channel)
    requires Legal(w, op) && (op.WithholdOp? || op.ReleaseOp? || op.RemoveOp? || op.ExtendOp?) && op.c != c
    ensures Same(w.q, NextState(w, op), c)
  {
    if op.WithholdOp? {
      FrameWithhold(w.q, op.c, op.id, c);
    } else if op.ReleaseOp? {
      FrameRelease(w.q, op.c, op.id, c);
    } else if op.RemoveOp? {
      FrameRemove(w.q, op.c, op.id, c);
    } else {
      FrameExtend(w.q, op.c, op.secs, op.now, c);
    }
  }

  lemma FrameExpiring(w: World, op: Op, c: Channel)
    requires Legal(w, op) && (op.FlushOp? || op.TickOp?) && !Concerns(w, op, c)
    ensures Same(w.q, NextState(w, op), c)
  {
    FrameExpire(w.q, op.now, c);
    if op.FlushOp? {
      FrameFlush(Expire(w.q, op.now), op.now, op.pick, c);
    }
  }

  /** What an operation on other channels leaves alone: everything but passed throttles on compaction. */
  lemma Frame(w: World, op: Op, c: Channel)
    requires Legal(w, op) && !Concerns(w, op, c)
    ensures SameTables(w.q, NextState(w, op), c)
    ensures !op.CompactOp? ==> Same(w.q, NextState(w, op), c)
  {
    if op.FlushOp? || op.TickOp? {
      FrameExpiring(w, op, c);
    } else if HandsBack(op) {
      FrameHandBack(w, op, c);
    } else if op.PushOp? {
      FramePush(w.q, op.e, c);
    } else if op.CompleteOp? {
      FrameComplete(w.q, op.c, op.now, c);
    } else if op.DrainOp? {
      FrameDrain(w.q, op.c, c);
    } else if op.CompactOp? {
      assert NextState(w, op) == Compact(w.q, op.now);
    } else {
      FrameSteer(w, op, c);
    }
  }
}
