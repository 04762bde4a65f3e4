/**
 Conservation: no run of the queue loses or duplicates an accepted event.
 */
module Conservation {
  import opened Basics
  import opened Events
  import opened QueueModel
  import opened QueueRuns

  /** The events of channel `c` in outstanding batches. */
  function OutIds(out: seq<FlushBatch>, c: Channel): multiset<EventId> {
    if out == [] then multiset{}
    else
      var b := out[|out| - 1];
      OutIds(out[..|out| - 1], c) + (if b.channel == c then BSet(Full(b)) else multiset{})
  }

  function Spent(b: Book, x: EventId): nat {
    b.finished[x] + b.deadLettered[x] + b.drained[x] + b.steered[x] + b.trimmed[x] + b.notPutBack[x]
  }

  function Held(s: State, c: Channel, x: EventId): nat {
    QSet(QueueOf(s, c))[x] + QSet(WithheldOf(s, c))[x] + BSet(CancelledOf(s, c))[x]
  }

  /** Each accepted copy of `x` on `c` is accounted for exactly once. */
  ghost predicate Balanced(w: World, c: Channel, x: EventId) {
    BookOf(w, c).accepted[x] == Held(w.q, c, x) + OutIds(w.out, c)[x] + Spent(BookOf(w, c), x)
  }

  // ---- small facts about the pieces ----

  lemma TrimSplits(q: seq<QueuedEvent>)
    ensures QSet(q) == QSet(Trim(q)) + QSet(Overflow(q))
  {
    if |q| > MAX_PENDING_PER_CHANNEL {
      QIdsSplit(q, MAX_PENDING_PER_CHANNEL);
    } else {
      assert QIds([]) == [];
    }
  }

  lemma AllToBatchIds(q: seq<QueuedEvent>)
    ensures BSet(AllToBatch(q)) == QSet(q)
  {
    assert BIds(AllToBatch(q)) == QIds(q);
  }

  lemma AllToQueuedIds(c: Channel, b: seq<BatchEvent>)
    ensures QSet(AllToQueued(c, b)) == BSet(b)
  {
    assert QIds(AllToQueued(c, b)) == BIds(b);
  }

  lemma PutBackIds(s: State, b: FlushBatch)
    ensures QSet(Trim(PutBack(s, b))) + QSet(Overflow(PutBack(s, b))) == BSet(b.events) + QSet(QueueOf(s, b.channel))
  {
    TrimSplits(PutBack(s, b));
    AllToQueuedIds(b.channel, b.events);
    QIdsAppend(AllToQueued(b.channel, b.events), QueueOf(s, b.channel));
  }

  lemma FullIds(b: FlushBatch)
    ensures BSet(Full(b)) == BSet(b.cancelledEvents) + BSet(b.events)
  {
    BIdsAppend(b.cancelledEvents, b.events);
  }

  /** The copies of `x` a batch of channel `c` carries. */
  function Share(b: FlushBatch, c: Channel, x: EventId): nat {
    if b.channel == c then BSet(Full(b))[x] else 0
  }

  lemma OutIdsLast(out: seq<FlushBatch>, b: FlushBatch, c: Channel, x: EventId)
    ensures OutIds(out + [b], c)[x] == OutIds(out, c)[x] + Share(b, c, x)
  {
    assert (out + [b])[..|out|] == out;
  }

  lemma {:induction false} OutIdsAppend(a: seq<FlushBatch>, b: seq<FlushBatch>, c: Channel, x: EventId)
    ensures OutIds(a + b, c)[x] == OutIds(a, c)[x] + OutIds(b, c)[x]
  {
    if b == [] {
      assert a + b == a;
    } else {
      var init, last := b[..|b| - 1], b[|b| - 1];
      assert b == init + [last] && a + b == (a + init) + [last];
      OutIdsAppend(a, init, c, x);
      OutIdsLast(init, last, c, x);
      OutIdsLast(a + init, last, c, x);
    }
  }

  lemma OutIdsWithout(out: seq<FlushBatch>, i: nat, c: Channel, x: EventId)
    requires i < |out|
    ensures OutIds(out, c)[x] == OutIds(Without(out, i), c)[x] + Share(out[i], c, x)
  {
    var before, after := out[..i], out[i + 1..];
    assert out == (before + [out[i]]) + after;
    OutIdsAppend(before, after, c, x);
    OutIdsAppend(before + [out[i]], after, c, x);
    OutIdsLast(before, out[i], c, x);
  }

  // ---- each operation keeps the balance ----

  /** Two queues joined and trimmed hold what both held, less the overflow. */
  lemma JoinCount(a: seq<QueuedEvent>, b: seq<QueuedEvent>, x: EventId)
    ensures QSet(a)[x] + QSet(b)[x] == QSet(Trim(a + b))[x] + QSet(Overflow(a + b))[x]
  {
    QIdsAppend(a, b);
    TrimSplits(a + b);
    var parts := QSet(Trim(a + b)) + QSet(Overflow(a + b));
    assert QSet(a + b)[x] == parts[x];
  }

  lemma ExpireTables(s: State, now: Time, c: Channel)
    ensures var e := Expire(s, now);
      if c in Expired(s, now) && c in s.withheld
      then QueueOf(e, c) == Trim(s.withheld[c] + QueueOf(s, c)) && WithheldOf(e, c) == []
      else QueueOf(e, c) == QueueOf(s, c) && WithheldOf(e, c) == WithheldOf(s, c)
  {
    assert QueueOf(Expire(s, now), c) == Recovered(s.queues, s.withheld, Expired(s, now), c);
  }

  lemma ExpireHeld(s: State, now: Time, c: Channel, x: EventId)
    ensures Held(s, c, x) == Held(Expire(s, now), c, x) + ExpiryLoss(s, now, c)[x]
  {
    ExpireTables(s, now, c);
    JoinCount(WithheldOf(s, c), QueueOf(s, c), x);
    assert QIds([]) == [];
    assert CancelledOf(Expire(s, now), c) == CancelledOf(s, c);
  }

  lemma LookupPut(m: map<Channel, seq<QueuedEvent>>, c: Channel, q: seq<QueuedEvent>, d: Channel)
    ensures Lookup(PutQueue(m, c, q), d) == if d == c then q else Lookup(m, d)
  {
  }

  lemma DrainedIds(s: State, c: Channel)
    ensures QSet(QueueOf(s, c)) == BSet(Drained(s, c)) + QSet(QueueOf(s, c)[DrainCount(QueueOf(s, c))..])
  {
    var q := QueueOf(s, c);
    var n := DrainCount(q);
    QIdsSplit(q, n);
    AllToBatchIds(q[..n]);
    SortIds(AllToBatch(q[..n]));
  }

  lemma FlushQueuedHeld(s: State, now: Time, p: Channel, x: EventId)
    ensures Held(s, p, x) == Held(FlushQueued(s, now, p).0, p, x) + BSet(Full(FlushQueued(s, now, p).1))[x]
  {
    var (s1, b) := FlushQueued(s, now, p);
    var q := QueueOf(s, p);
    var rest := q[DrainCount(q)..];
    assert BIds([]) == [];
    LookupPut(s.queues, p, rest, p);
    DrainedIds(s, p);
    FullIds(b);
    assert QSet(q)[x] == BSet(b.events)[x] + QSet(rest)[x];
    assert QueueOf(s1, p) == rest && WithheldOf(s1, p) == WithheldOf(s, p) && CancelledOf(s1, p) == [];
    assert BSet(Full(b))[x] == BSet(CancelledOf(s, p))[x] + BSet(b.events)[x];
  }

  lemma FlushCancelledHeld(s: State, now: Time, p: Channel, x: EventId)
    ensures Held(s, p, x) == Held(FlushCancelled(s, now, p).0, p, x) + BSet(Full(FlushCancelled(s, now, p).1))[x]
  {
    var (s1, b) := FlushCancelled(s, now, p);
    assert BIds([]) == [];
    assert Full(b) == CancelledOf(s, p);
    assert QueueOf(s1, p) == QueueOf(s, p) && WithheldOf(s1, p) == WithheldOf(s, p) && CancelledOf(s1, p) == [];
  }

  lemma PushCount(q: seq<QueuedEvent>, e: QueuedEvent, x: EventId)
    ensures QSet(q + [e])[x] == QSet(q)[x] + multiset{e.event.id}[x]
  {
    QIdsAppend(q, [e]);
    assert QIds([e]) == [e.event.id];
  }

  lemma HeadCount(q: seq<QueuedEvent>, x: EventId)
    requires q != []
    ensures QSet(q)[x] == QSet(q[1..])[x] + multiset{q[0].event.id}[x]
  {
    QIdsSplit(q, 1);
    assert QIds(q[..1]) == [q[0].event.id];
  }

  lemma PushHeld(s: State, e: QueuedEvent, x: EventId)
    requires !Refuses(s, e.channel)
    ensures
      var q := QueueOf(s, e.channel);
      Held(Push(s, e).0, e.channel, x) + (if |q| >= MAX_PENDING_PER_CHANNEL then multiset{q[0].event.id}[x] else 0)
      == Held(s, e.channel, x) + multiset{e.event.id}[x]
  {
    var q, s1 := QueueOf(s, e.channel), Push(s, e).0;
    var room := if |q| >= MAX_PENDING_PER_CHANNEL then q[1..] else q;
    PushCount(room, e, x);
    if |q| >= MAX_PENDING_PER_CHANNEL {
      HeadCount(q, x);
    }
    assert s1 == s.(queues := s.queues[e.channel := room + [e]]);
    assert QueueOf(s1, e.channel) == room + [e];
  }

  /** Moving the event at `k` from `q` to the end of `w` keeps the count. */
  lemma MoveCount(q: seq<QueuedEvent>, k: nat, w: seq<QueuedEvent>, x: EventId)
    requires k < |q|
    ensures QSet(RemoveAt(q, k))[x] + QSet(w + [q[k]])[x] == QSet(q)[x] + QSet(w)[x]
  {
    QIdsRemoveAt(q, k);
    PushCount(w, q[k], x);
  }

  lemma WithholdHeld(s: State, c: Channel, id: EventId, x: EventId)
    ensures Held(Withhold(s, c, id).0, c, x) == Held(s, c, x)
  {
    var q := QueueOf(s, c);
    var k := FirstIndex(q, id);
    if k < |q| {
      var s1 := Withhold(s, c, id).0;
      MoveCount(q, k, WithheldOf(s, c), x);
      LookupPut(s.queues, c, RemoveAt(q, k), c);
      assert QueueOf(s1, c) == RemoveAt(q, k);
      assert WithheldOf(s1, c) == WithheldOf(s, c) + [q[k]];
      assert CancelledOf(s1, c) == CancelledOf(s, c);
    }
  }

  lemma ReleaseHeld(s: State, c: Channel, id: EventId, x: EventId)
    ensures
      var w := WithheldOf(s, c);
      var k := FirstIndex(w, id);
      Held(s, c, x) ==
        Held(Release(s, c, id), c, x) + (if k < |w| then QSet(Overflow([w[k]] + QueueOf(s, c)))[x] else 0)
  {
    var w := WithheldOf(s, c);
    var k := FirstIndex(w, id);
    if k < |w| {
      var s1 := Release(s, c, id);
      var q := [w[k]] + QueueOf(s, c);
      QIdsRemoveAt(w, k);
      JoinCount([w[k]], QueueOf(s, c), x);
      assert QIds([w[k]]) == [w[k].event.id];
      assert QSet(w)[x] == QSet(RemoveAt(w, k))[x] + QSet([w[k]])[x];
      LookupPut(s.withheld, c, RemoveAt(w, k), c);
      assert QueueOf(s1, c) == Trim(q) && WithheldOf(s1, c) == RemoveAt(w, k);
    }
  }

  lemma RemoveHeld(s: State, c: Channel, id: EventId, x: EventId)
    ensures Held(s, c, x) == Held(RemoveEvent(s, c, id), c, x) + (if x == id then Copies(s, c, id) else 0)
  {
    var s1 := RemoveEvent(s, c, id);
    CountWithoutId(WithheldOf(s, c), id, x);
    CountWithoutId(QueueOf(s, c), id, x);
    assert QueueOf(s1, c) == WithoutId(QueueOf(s, c), id);
    assert WithheldOf(s1, c) == WithoutId(WithheldOf(s, c), id);
  }

  lemma SameHeld(s: State, s1: State, c: Channel, x: EventId)
    requires Entry(s1.queues, c) == Entry(s.queues, c)
    requires Entry(s1.withheld, c) == Entry(s.withheld, c)
    requires Entry(s1.cancelled, c) == Entry(s.cancelled, c)
    ensures Held(s1, c, x) == Held(s, c, x)
  {
    assert QueueOf(s1, c) == QueueOf(s, c) && WithheldOf(s1, c) == WithheldOf(s, c);
    assert CancelledOf(s1, c) == CancelledOf(s, c);
  }

  /** A flush moves events from the queue and the cancelled table into the batch, and nothing else. */
  lemma FlushHeld(s: State, now: Time, p: Channel, c: Channel, x: EventId)
    ensures FlushAs(s, now, p).1.channel == p
    ensures Held(s, c, x) ==
      Held(FlushAs(s, now, p).0, c, x) + (if p == c then BSet(Full(FlushAs(s, now, p).1))[x] else 0)
  {
    if c != p {
      FrameFlush(s, now, p, c);
      SameHeld(s, FlushAs(s, now, p).0, c, x);
    } else if Eligible(s, now, p) {
      FlushQueuedHeld(s, now, p, x);
    } else {
      FlushCancelledHeld(s, now, p, x);
    }
  }

  predicate OnChannel(op: Op) {
    op.DrainOp? || op.WithholdOp? || op.ReleaseOp? || op.RemoveOp?
  }

  /** Operations on one channel leave the events of the others alone. */
  lemma OtherHeld(w: World, op: Op, c: Channel, x: EventId)
    requires Legal(w, op) && !op.FlushOp? && !op.TickOp?
    requires HandsBack(op) ==> w.out[op.i].channel != c
    requires op.PushOp? ==> op.e.channel != c
    requires OnChannel(op) ==> op.c != c
    ensures Held(NextState(w, op), c, x) == Held(w.q, c, x)
  {
    var s1 := NextState(w, op);
    if !Concerns(w, op, c) {
      Frame(w, op, c);
    } else {
      assert op.CompleteOp? || op.ExtendOp?;
      assert s1.queues == w.q.queues && s1.withheld == w.q.withheld && s1.cancelled == w.q.cancelled;
    }
    SameHeld(w.q, s1, c, x);
  }

  lemma PutBackHeld(s: State, b: FlushBatch, s1: State, x: EventId)
    requires s1.queues == s.queues[b.channel := Trim(PutBack(s, b))]
    requires s1.withheld == s.withheld && s1.cancelled == s.cancelled
    ensures Held(s1, b.channel, x) + QSet(Overflow(PutBack(s, b)))[x] + BSet(b.cancelledEvents)[x]
         == Held(s, b.channel, x) + BSet(Full(b))[x]
  {
    PutBackIds(s, b);
    FullIds(b);
    assert QueueOf(s1, b.channel) == Trim(PutBack(s, b));
    var l, r := QSet(Trim(PutBack(s, b))) + QSet(Overflow(PutBack(s, b))), BSet(b.events) + QSet(QueueOf(s, b.channel));
    assert l[x] == r[x];
  }

  lemma CancelHeld(s: State, b: FlushBatch, reason: CancelReason, x: EventId)
    ensures Held(RequeueCancelled(s, b, reason), b.channel, x) == Held(s, b.channel, x) + BSet(Full(b))[x]
  {
    var old' := CancelledOf(s, b.channel);
    BIdsAppend(old' + b.cancelledEvents, b.events);
    BIdsAppend(old', b.cancelledEvents);
    FullIds(b);
    assert CancelledOf(RequeueCancelled(s, b, reason), b.channel) == old' + b.cancelledEvents + b.events;
  }

  lemma DrainHeld(s: State, c: Channel, x: EventId)
    ensures Held(DrainChannel(s, c).0, c, x) == 0
  {
    assert QIds([]) == [] && BIds([]) == [];
  }

  /** A channel no table, batch or book mentions. */
  ghost predicate Unknown(w: World, c: Channel) {
    && BookOf(w, c) == BLANK
    && QueueOf(w.q, c) == [] && WithheldOf(w.q, c) == [] && CancelledOf(w.q, c) == []
    && c !in w.q.withheld
    && forall i :: 0 <= i < |w.out| ==> w.out[i].channel != c
  }

  lemma BlankRemoval(w: World, op: Op, c: Channel)
    requires Unknown(w, c) && OnChannel(op)
    ensures NextBook(w, op, c) == BLANK
  {
    assert QIds([]) == [] && BIds([]) == [];
    if op.RemoveOp? && op.c == c {
      assert Copies(w.q, c, op.id) == 0;
      assert multiset{}[op.id := 0] == multiset{};
    }
  }

  lemma BlankStays(w: World, op: Op, c: Channel)
    requires Unknown(w, c) && Legal(w, op) && (op.PushOp? ==> op.e.channel != c)
    ensures NextBook(w, op, c) == BLANK
  {
    if OnChannel(op) {
      BlankRemoval(w, op, c);
    } else if op.FlushOp? || op.TickOp? {
      assert ExpiryLoss(w.q, op.now, c) == multiset{};
    } else if HandsBack(op) {
      assert w.out[op.i].channel != c;
    }
  }

  lemma BookAfter(w: World, op: Op, c: Channel)
    requires Legal(w, op)
    ensures BookOf(Apply(w, op), c) == NextBook(w, op, c)
  {
    if c !in Touched(w, op) {
      assert forall i :: 0 <= i < |w.out| ==> w.out[i].channel in Touched(w, op);
      BlankStays(w, op, c);
    }
  }

  lemma OutAfter(w: World, op: Op, c: Channel, x: EventId)
    requires Legal(w, op)
    ensures HandsBack(op) ==> OutIds(w.out, c)[x] == OutIds(NextOut(w, op), c)[x] + Share(w.out[op.i], c, x)
    ensures op.FlushOp? ==> OutIds(NextOut(w, op), c)[x] == OutIds(w.out, c)[x] + Share(Flushed(w, op), c, x)
  {
    if HandsBack(op) {
      OutIdsWithout(w.out, op.i, c, x);
    } else if op.FlushOp? {
      OutIdsLast(w.out, Flushed(w, op), c, x);
    }
  }

  /** Handing back `out[i]` puts its events into the tables or the book, once each. */
  ghost predicate HandedBack(w: World, op: Op, c: Channel, x: EventId)
    requires Legal(w, op) && HandsBack(op)
  {
    && NextBook(w, op, c).accepted == BookOf(w, c).accepted
    && Held(NextState(w, op), c, x) + Spent(NextBook(w, op, c), x)
       == Held(w.q, c, x) + Spent(BookOf(w, c), x) + BSet(Full(w.out[op.i]))[x]
  }

  /** The book of a batch put back: the overflow is trimmed and the carried-over events are not put back. */
  ghost function PutBackBook(book: Book, s: State, b: FlushBatch): Book {
    book.(trimmed := book.trimmed + QSet(Overflow(PutBack(s, b))),
          notPutBack := book.notPutBack + BSet(b.cancelledEvents))
  }

  lemma PutBackSpent(book: Book, s: State, b: FlushBatch, x: EventId)
    ensures Spent(PutBackBook(book, s, b), x)
         == Spent(book, x) + QSet(Overflow(PutBack(s, b)))[x] + BSet(b.cancelledEvents)[x]
  {
  }

  lemma BalanceRequeue(w: World, i: nat, now: Time, nanos: nat, x: EventId)
    requires i < |w.out|
    ensures HandedBack(w, RequeueOp(i, now, nanos), w.out[i].channel, x)
  {
    var b, op := w.out[i], RequeueOp(i, now, nanos);
    var book := BookOf(w, b.channel);
    assert NextState(w, op) == Requeue(w.q, b, now, nanos).0;
    if Requeue(w.q, b, now, nanos).1.None? {
      assert NextBook(w, op, b.channel) == PutBackBook(book, w.q, b);
      PutBackSpent(book, w.q, b, x);
      PutBackHeld(w.q, b, Requeue(w.q, b, now, nanos).0, x);
    } else {
      assert NextBook(w, op, b.channel) == book.(deadLettered := book.deadLettered + BSet(Full(b)));
    }
  }

  lemma BalancePreserve(w: World, i: nat, x: EventId)
    requires i < |w.out|
    ensures HandedBack(w, PreserveOp(i), w.out[i].channel, x)
  {
    var b, op := w.out[i], PreserveOp(i);
    var book := BookOf(w, b.channel);
    assert NextState(w, op) == RequeuePreserve(w.q, b);
    assert NextBook(w, op, b.channel) == PutBackBook(book, w.q, b);
    PutBackSpent(book, w.q, b, x);
    PutBackHeld(w.q, b, RequeuePreserve(w.q, b), x);
  }

  lemma BookOfCancel(w: World, i: nat, reason: CancelReason)
    requires i < |w.out|
    ensures NextBook(w, CancelOp(i, reason), w.out[i].channel) == BookOf(w, w.out[i].channel)
    ensures NextState(w, CancelOp(i, reason)) == RequeueCancelled(w.q, w.out[i], reason)
  {
  }

  lemma BalanceCancel(w: World, i: nat, reason: CancelReason, x: EventId)
    requires i < |w.out|
    ensures HandedBack(w, CancelOp(i, reason), w.out[i].channel, x)
  {
    BookOfCancel(w, i, reason);
    CancelHeld(w.q, w.out[i], reason, x);
  }

  lemma BalanceFinish(w: World, i: nat, x: EventId)
    requires i < |w.out|
    ensures HandedBack(w, FinishOp(i), w.out[i].channel, x)
  {
  }

  lemma BalanceHandBack(w: World, op: Op, c: Channel, x: EventId)
    requires Legal(w, op) && HandsBack(op) && w.out[op.i].channel == c
    ensures HandedBack(w, op, c, x)
  {
    if op.RequeueOp? {
      BalanceRequeue(w, op.i, op.now, op.nanos, x);
    } else if op.PreserveOp? {
      BalancePreserve(w, op.i, x);
    } else if op.CancelOp? {
      BalanceCancel(w, op.i, op.reason, x);
    } else {
      BalanceFinish(w, op.i, x);
    }
  }

  ghost predicate Carries(w: World, op: Op, c: Channel, x: EventId)
    requires Legal(w, op)
  {
    && NextBook(w, op, c).accepted == BookOf(w, c).accepted
    && Held(NextState(w, op), c, x) + Spent(NextBook(w, op, c), x) == Held(w.q, c, x) + Spent(BookOf(w, c), x)
  }

  lemma BalanceDrain(w: World, c: Channel, x: EventId)
    ensures Carries(w, DrainOp(c), c, x)
  {
    DrainHeld(w.q, c, x);
    var b, b' := BookOf(w, c), NextBook(w, DrainOp(c), c);
    assert b'.drained[x] == b.drained[x] + Held(w.q, c, x);
  }

  lemma BalanceRelease(w: World, c: Channel, id: EventId, x: EventId)
    ensures Carries(w, ReleaseOp(c, id), c, x)
  {
    ReleaseHeld(w.q, c, id, x);
  }

  lemma BalanceWithhold(w: World, c: Channel, id: EventId, x: EventId)
    ensures Carries(w, WithholdOp(c, id), c, x)
  {
    WithholdHeld(w.q, c, id, x);
    assert NextState(w, WithholdOp(c, id)) == Withhold(w.q, c, id).0;
    assert NextBook(w, WithholdOp(c, id), c) == BookOf(w, c);
  }

  lemma BalanceRemove(w: World, c: Channel, id: EventId, x: EventId)
    ensures Carries(w, RemoveOp(c, id), c, x)
  {
    RemoveHeld(w.q, c, id, x);
    var b, b' := BookOf(w, c), NextBook(w, RemoveOp(c, id), c);
    assert b'.steered[x] == b.steered[x] + (if x == id then Copies(w.q, c, id) else 0);
  }

  lemma BalanceOwn(w: World, op: Op, c: Channel, x: EventId)
    requires Legal(w, op) && OnChannel(op) && op.c == c
    ensures Carries(w, op, c, x)
  {
    match op
    case DrainOp(_) => BalanceDrain(w, c, x);
    case WithholdOp(_, id) => BalanceWithhold(w, c, id, x);
    case ReleaseOp(_, id) => BalanceRelease(w, c, id, x);
    case RemoveOp(_, id) => BalanceRemove(w, c, id, x);
  }

  lemma BalancePush(w: World, e: QueuedEvent, c: Channel, x: EventId)
    ensures
      NextBook(w, PushOp(e), c).accepted[x] + Held(w.q, c, x) + Spent(BookOf(w, c), x)
      == BookOf(w, c).accepted[x] + Held(Push(w.q, e).0, c, x) + Spent(NextBook(w, PushOp(e), c), x)
  {
    if Refuses(w.q, e.channel) {
    } else if e.channel == c {
      PushHeld(w.q, e, x);
    } else {
      OtherHeld(w, PushOp(e), c, x);
    }
  }

  lemma BalanceLocal(w: World, op: Op, c: Channel, x: EventId)
    requires Legal(w, op) && !HandsBack(op) && !op.FlushOp? && !op.TickOp?
    ensures
      NextBook(w, op, c).accepted[x] + Held(w.q, c, x) + Spent(BookOf(w, c), x)
      == BookOf(w, c).accepted[x] + Held(NextState(w, op), c, x) + Spent(NextBook(w, op, c), x)
  {
    if op.PushOp? {
      BalancePush(w, op.e, c, x);
    } else if OnChannel(op) && op.c == c {
      BalanceOwn(w, op, c, x);
    } else {
      OtherHeld(w, op, c, x);
      assert NextBook(w, op, c) == BookOf(w, c);
    }
  }

  /** Copies accepted, stored and spent move together, apart from what enters or leaves the outstanding batches. */
  ghost predicate Moves(w: World, op: Op, c: Channel, x: EventId, taken: nat, back: nat)
    requires Legal(w, op)
  {
    NextBook(w, op, c).accepted[x] + Held(w.q, c, x) + Spent(BookOf(w, c), x) + back
    == BookOf(w, c).accepted[x] + Held(NextState(w, op), c, x) + Spent(NextBook(w, op, c), x) + taken
  }

  lemma BalanceBack(w: World, op: Op, c: Channel, x: EventId)
    requires Legal(w, op) && HandsBack(op)
    ensures Moves(w, op, c, x, 0, Share(w.out[op.i], c, x))
  {
    if w.out[op.i].channel == c {
      BalanceHandBack(w, op, c, x);
    } else {
      OtherHeld(w, op, c, x);
      assert NextBook(w, op, c) == BookOf(w, c);
    }
  }

  lemma BalanceExpiring(w: World, op: Op, c: Channel, x: EventId)
    requires Legal(w, op) && (op.FlushOp? || op.TickOp?)
    ensures Moves(w, op, c, x, if op.FlushOp? then Share(Flushed(w, op), c, x) else 0, 0)
  {
    ExpireHeld(w.q, op.now, c, x);
    assert NextBook(w, op, c).trimmed[x] == BookOf(w, c).trimmed[x] + ExpiryLoss(w.q, op.now, c)[x];
    if op.FlushOp? {
      FlushHeld(Expire(w.q, op.now), op.now, op.pick, c, x);
    }
  }

  lemma BalanceStep(w: World, op: Op, c: Channel, x: EventId)
    requires Legal(w, op) && Balanced(w, c, x)
    ensures Balanced(Apply(w, op), c, x)
  {
    BookAfter(w, op, c);
    OutAfter(w, op, c, x);
    if HandsBack(op) {
      BalanceBack(w, op, c, x);
    } else if op.FlushOp? || op.TickOp? {
      BalanceExpiring(w, op, c, x);
    } else {
      BalanceLocal(w, op, c, x);
    }
  }

  lemma {:induction false} BalanceRun(w: World, ops: seq<Op>, c: Channel, x: EventId)
    requires LegalRun(w, ops) && Balanced(w, c, x)
    ensures Balanced(Run(w, ops), c, x)
    decreases |ops|
  {
    if ops != [] {
      BalanceStep(w, ops[0], c, x);
      BalanceRun(Apply(w, ops[0]), ops[1..], c, x);
    }
  }

  // ---- the theorem ----

  /** Every place an accepted event can be. `InBatch(i)` is the i-th outstanding batch. */
  datatype Place = InQueue | InSideTable | InCancelled | InBatch(i: nat)
                 | WasFinished | WasDeadLettered | WasDrained | WasSteered | WasTrimmed | WasNotPutBack

  /** Copies of `x` at a place of channel `c`. */
  ghost function CopiesAt(w: World, c: Channel, x: EventId, p: Place): nat {
    match p
    case InQueue => QSet(QueueOf(w.q, c))[x]
    case InSideTable => QSet(WithheldOf(w.q, c))[x]
    case InCancelled => BSet(CancelledOf(w.q, c))[x]
    case InBatch(i) => if i < |w.out| && w.out[i].channel == c then BSet(Full(w.out[i]))[x] else 0
    case WasFinished => BookOf(w, c).finished[x]
    case WasDeadLettered => BookOf(w, c).deadLettered[x]
    case WasDrained => BookOf(w, c).drained[x]
    case WasSteered => BookOf(w, c).steered[x]
    case WasTrimmed => BookOf(w, c).trimmed[x]
    case WasNotPutBack => BookOf(w, c).notPutBack[x]
  }

  ghost predicate Accepted(w: World, c: Channel, x: EventId) {
    BookOf(w, c).accepted[x] > 0
  }

  ghost predicate NeverPushed(ops: seq<Op>, x: EventId) {
    forall k :: 0 <= k < |ops| && ops[k].PushOp? ==> ops[k].e.event.id != x
  }

  ghost predicate DistinctPushes(ops: seq<Op>) {
    forall j, k :: 0 <= j < k < |ops| && ops[j].PushOp? && ops[k].PushOp? ==> ops[j].e.event.id != ops[k].e.event.id
  }

  lemma AcceptedStep(w: World, op: Op, c: Channel, x: EventId)
    requires Legal(w, op)
    ensures BookOf(Apply(w, op), c).accepted[x] ==
      BookOf(w, c).accepted[x]
      + (if op.PushOp? && op.e.channel == c && op.e.event.id == x && !Refuses(w.q, c) then 1 else 0)
  {
    BookAfter(w, op, c);
  }

  lemma {:induction false} AcceptedUnchanged(w: World, ops: seq<Op>, c: Channel, x: EventId)
    requires LegalRun(w, ops) && NeverPushed(ops, x)
    ensures BookOf(Run(w, ops), c).accepted[x] == BookOf(w, c).accepted[x]
    decreases |ops|
  {
    if ops != [] {
      AcceptedStep(w, ops[0], c, x);
      AcceptedUnchanged(Apply(w, ops[0]), ops[1..], c, x);
    }
  }

  /** Distinct pushes: an id is accepted at most once, and on one channel only. */
  lemma {:induction false} AcceptedOnce(w: World, ops: seq<Op>, c: Channel, d: Channel, x: EventId)
    requires LegalRun(w, ops) && DistinctPushes(ops)
    requires BookOf(w, c).accepted[x] == 0 && BookOf(w, d).accepted[x] == 0
    ensures BookOf(Run(w, ops), c).accepted[x] <= 1
    ensures c != d ==> BookOf(Run(w, ops), c).accepted[x] + BookOf(Run(w, ops), d).accepted[x] <= 1
    decreases |ops|
  {
    if ops != [] {
      var w1, rest := Apply(w, ops[0]), ops[1..];
      AcceptedStep(w, ops[0], c, x);
      AcceptedStep(w, ops[0], d, x);
      if ops[0].PushOp? && ops[0].e.event.id == x {
        assert NeverPushed(rest, x);
        AcceptedUnchanged(w1, rest, c, x);
        AcceptedUnchanged(w1, rest, d, x);
      } else {
        AcceptedOnce(w1, rest, c, d, x);
      }
    }
  }

  lemma {:induction false} SomeBatch(out: seq<FlushBatch>, c: Channel, x: EventId) returns (i: nat)
    requires OutIds(out, c)[x] > 0
    ensures i < |out| && out[i].channel == c && BSet(Full(out[i]))[x] > 0
  {
    i := |out| - 1;
    if !(out[i].channel == c && BSet(Full(out[i]))[x] > 0) {
      i := SomeBatch(out[..i], c, x);
    }
  }

  lemma OneBatch(out: seq<FlushBatch>, c: Channel, x: EventId, i: nat)
    requires i < |out| && out[i].channel == c
    ensures BSet(Full(out[i]))[x] <= OutIds(out, c)[x]
  {
    OutIdsWithout(out, i, c, x);
  }

  lemma TwoBatches(out: seq<FlushBatch>, c: Channel, x: EventId, i: nat, j: nat)
    requires i < j < |out| && out[i].channel == c && out[j].channel == c
    ensures BSet(Full(out[i]))[x] + BSet(Full(out[j]))[x] <= OutIds(out, c)[x]
  {
    OutIdsWithout(out, j, c, x);
    assert Without(out, j)[i] == out[i];
    OneBatch(Without(out, j), c, x, i);
  }

  lemma BatchesAt(w: World, c: Channel, x: EventId, p: Place)
    ensures p.InBatch? ==> CopiesAt(w, c, x, p) <= OutIds(w.out, c)[x]
  {
    if p.InBatch? && p.i < |w.out| && w.out[p.i].channel == c {
      OneBatch(w.out, c, x, p.i);
    }
  }

  /** Two places that are not batches, or one that is. */
  lemma NoTwoApart(w: World, c: Channel, x: EventId, p: Place, p': Place)
    requires Balanced(w, c, x) && BookOf(w, c).accepted[x] <= 1 && p != p' && !p'.InBatch?
    ensures CopiesAt(w, c, x, p) + CopiesAt(w, c, x, p') <= 1
  {
    match p
    case InBatch(i) => BatchesAt(w, c, x, p);
    case InQueue =>
    case InSideTable =>
    case InCancelled =>
    case WasFinished =>
    case WasDeadLettered =>
    case WasDrained =>
    case WasSteered =>
    case WasTrimmed =>
    case WasNotPutBack =>
  }

  lemma NoTwoBatches(w: World, c: Channel, x: EventId, i: nat, j: nat)
    requires Balanced(w, c, x) && BookOf(w, c).accepted[x] <= 1 && i < j
    ensures CopiesAt(w, c, x, InBatch(i)) + CopiesAt(w, c, x, InBatch(j)) <= 1
  {
    BatchesAt(w, c, x, InBatch(i));
    BatchesAt(w, c, x, InBatch(j));
    if j < |w.out| && w.out[i].channel == c && w.out[j].channel == c {
      TwoBatches(w.out, c, x, i, j);
    }
  }

  lemma NoTwoPlaces(w: World, c: Channel, x: EventId, p: Place, p': Place)
    requires Balanced(w, c, x) && BookOf(w, c).accepted[x] <= 1 && p != p'
    ensures CopiesAt(w, c, x, p) + CopiesAt(w, c, x, p') <= 1
  {
    if !p'.InBatch? {
      NoTwoApart(w, c, x, p, p');
    } else if !p.InBatch? {
      NoTwoApart(w, c, x, p', p);
    } else if p.i < p'.i {
      NoTwoBatches(w, c, x, p.i, p'.i);
    } else {
      NoTwoBatches(w, c, x, p'.i, p.i);
    }
  }

  lemma SpentPlace(w: World, c: Channel, x: EventId) returns (p: Place)
    requires Spent(BookOf(w, c), x) > 0
    ensures CopiesAt(w, c, x, p) > 0
  {
    var b := BookOf(w, c);
    p := if b.finished[x] > 0 then WasFinished
         else if b.deadLettered[x] > 0 then WasDeadLettered
         else if b.drained[x] > 0 then WasDrained
         else if b.steered[x] > 0 then WasSteered
         else if b.trimmed[x] > 0 then WasTrimmed
         else WasNotPutBack;
  }

  lemma HeldPlace(w: World, c: Channel, x: EventId) returns (p: Place)
    requires Held(w.q, c, x) > 0
    ensures CopiesAt(w, c, x, p) > 0
  {
    p := if QSet(QueueOf(w.q, c))[x] > 0 then InQueue
         else if QSet(WithheldOf(w.q, c))[x] > 0 then InSideTable
         else InCancelled;
  }

  lemma SomePlace(w: World, c: Channel, x: EventId) returns (p: Place)
    requires Balanced(w, c, x) && BookOf(w, c).accepted[x] == 1
    ensures CopiesAt(w, c, x, p) == 1
  {
    if OutIds(w.out, c)[x] > 0 {
      var i := SomeBatch(w.out, c, x);
      p := InBatch(i);
    } else if Held(w.q, c, x) > 0 {
      p := HeldPlace(w, c, x);
    } else {
      p := SpentPlace(w, c, x);
    }
    NoTwoPlaces(w, c, x, p, if p.InQueue? then InSideTable else InQueue);
  }

  /** Nothing is lost or doubled in `w`, and `x` was accepted at most once, on one channel. */
  ghost predicate Single(w: World, x: EventId) {
    && (forall c :: Balanced(w, c, x) && BookOf(w, c).accepted[x] <= 1)
    && (forall c, d :: c != d ==> BookOf(w, c).accepted[x] + BookOf(w, d).accepted[x] <= 1)
  }

  ghost predicate Empty(w: World) {
    w.books == map[] && w.out == [] && w.q.queues == map[] && w.q.withheld == map[] && w.q.cancelled == map[]
  }

  lemma SingleRun(w0: World, ops: seq<Op>, x: EventId)
    requires Empty(w0) && LegalRun(w0, ops) && DistinctPushes(ops)
    ensures Single(Run(w0, ops), x)
  {
    assert QIds([]) == [] && BIds([]) == [];
    forall c, d ensures Balanced(Run(w0, ops), c, x) && BookOf(Run(w0, ops), c).accepted[x] <= 1
                     && (c != d ==> BookOf(Run(w0, ops), c).accepted[x] + BookOf(Run(w0, ops), d).accepted[x] <= 1) {
      assert Held(w0.q, c, x) == 0;
      BalanceRun(w0, ops, c, x);
      AcceptedOnce(w0, ops, c, d, x);
    }
  }

  /** `x` is at exactly one place of channel `c`, in one copy, and nowhere on any other channel. */
  ghost predicate OnlyAt(w: World, c: Channel, x: EventId) {
    && (exists p :: CopiesAt(w, c, x, p) == 1)
    && (forall p, p' :: CopiesAt(w, c, x, p) > 0 && CopiesAt(w, c, x, p') > 0 ==> p == p')
    && (forall d, p :: d != c ==> CopiesAt(w, d, x, p) == 0)
  }

  lemma NowhereOn(w: World, d: Channel, x: EventId, p: Place)
    requires Balanced(w, d, x) && BookOf(w, d).accepted[x] == 0
    ensures CopiesAt(w, d, x, p) == 0
  {
    BatchesAt(w, d, x, p);
  }

  lemma SingleMeansOnePlace(w: World, c: Channel, x: EventId)
    requires Single(w, x) && Accepted(w, c, x)
    ensures OnlyAt(w, c, x)
  {
    var p0 := SomePlace(w, c, x);
    forall p, p' | p != p' ensures CopiesAt(w, c, x, p) == 0 || CopiesAt(w, c, x, p') == 0 {
      NoTwoPlaces(w, c, x, p, p');
    }
    forall d, p | d != c ensures CopiesAt(w, d, x, p) == 0 {
      NowhereOn(w, d, x, p);
    }
  }

  /**
   Conservation. Over every run with distinct event ids in which a batch is handed
   back at most once, an accepted event is at exactly one place, in one copy; and an
   event that was not accepted is nowhere.
   */
  lemma ExactlyOnePlace(dedup: DedupMode, deadline: Time, ops: seq<Op>, c: Channel, x: EventId)
    requires LegalRun(Start(dedup, deadline), ops) && DistinctPushes(ops)
    ensures var w := Run(Start(dedup, deadline), ops);
      && (Accepted(w, c, x) ==> OnlyAt(w, c, x))
      && (!Accepted(w, c, x) ==> forall p :: CopiesAt(w, c, x, p) == 0)
  {
    var w := Run(Start(dedup, deadline), ops);
    SingleRun(Start(dedup, deadline), ops, x);
    if Accepted(w, c, x) {
      SingleMeansOnePlace(w, c, x);
    } else {
      forall p ensures CopiesAt(w, c, x, p) == 0 {
        NowhereOn(w, c, x, p);
      }
    }
  }

  // ---- what a batch that is put back loses ----

  /** `s1` stores everything `s` stored on the channel of `b`, and everything `b` carries. */
  ghost predicate KeepsAll(s: State, b: FlushBatch, s1: State) {
    forall x :: Held(s1, b.channel, x) == Held(s, b.channel, x) + BSet(Full(b))[x]
  }

  lemma PutBackLoses(s: State, b: FlushBatch, s1: State) returns (x: EventId)
    requires s1.queues == s.queues[b.channel := Trim(PutBack(s, b))]
    requires s1.withheld == s.withheld && s1.cancelled == s.cancelled
    requires b.cancelledEvents != [] || Overflow(PutBack(s, b)) != []
    ensures Held(s1, b.channel, x) < Held(s, b.channel, x) + BSet(Full(b))[x]
  {
    var lost := Overflow(PutBack(s, b));
    if b.cancelledEvents != [] {
      x := BIds(b.cancelledEvents)[0];
      assert BSet(b.cancelledEvents)[x] > 0;
    } else {
      x := QIds(lost)[0];
      assert QSet(lost)[x] > 0;
    }
    PutBackHeld(s, b, s1, x);
  }

  lemma PutBackKeeps(s: State, b: FlushBatch, s1: State, x: EventId)
    requires s1.queues == s.queues[b.channel := Trim(PutBack(s, b))]
    requires s1.withheld == s.withheld && s1.cancelled == s.cancelled
    requires b.cancelledEvents == [] && Overflow(PutBack(s, b)) == []
    ensures Held(s1, b.channel, x) == Held(s, b.channel, x) + BSet(Full(b))[x]
  {
    PutBackHeld(s, b, s1, x);
    assert QIds([]) == [] && BIds([]) == [];
  }

  lemma PutBackKeepsAll(s: State, b: FlushBatch, s1: State)
    requires s1.queues == s.queues[b.channel := Trim(PutBack(s, b))]
    requires s1.withheld == s.withheld && s1.cancelled == s.cancelled
    ensures KeepsAll(s, b, s1) <==>
      b.cancelledEvents == [] && |b.events| + |QueueOf(s, b.channel)| <= MAX_PENDING_PER_CHANNEL
  {
    if b.cancelledEvents == [] && Overflow(PutBack(s, b)) == [] {
      forall x ensures Held(s1, b.channel, x) == Held(s, b.channel, x) + BSet(Full(b))[x] {
        PutBackKeeps(s, b, s1, x);
      }
    } else {
      var x := PutBackLoses(s, b, s1);
    }
  }

  /**
   A requeue that is not a dead letter keeps every event of the batch and the queue
   exactly when the batch carries no cancelled events and the cap is not reached.
   */
  lemma RequeueKeepsAll(s: State, b: FlushBatch, now: Time, nanos: nat)
    requires Requeue(s, b, now, nanos).1.None?
    ensures KeepsAll(s, b, Requeue(s, b, now, nanos).0) <==>
      b.cancelledEvents == [] && |b.events| + |QueueOf(s, b.channel)| <= MAX_PENDING_PER_CHANNEL
  {
    PutBackKeepsAll(s, b, Requeue(s, b, now, nanos).0);
  }

  /** The same of a batch put back without backoff. */
  lemma PreserveKeepsAll(s: State, b: FlushBatch)
    ensures KeepsAll(s, b, RequeuePreserve(s, b)) <==>
      b.cancelledEvents == [] && |b.events| + |QueueOf(s, b.channel)| <= MAX_PENDING_PER_CHANNEL
  {
    PutBackKeepsAll(s, b, RequeuePreserve(s, b));
  }
}
