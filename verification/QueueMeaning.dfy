/**
 What the queue operations mean to a caller, stated about whole events and without their
 definitions: which events a flush takes and in what order, what a put-back restores, when
 retry state goes, and what the side table gives back.
 */
module QueueMeaning {
  import opened Basics
  import opened Events
  import opened QueueModel
  import opened QueueRuns
  import C = Conservation

  // ---- flush ----

  /** The same event in a batch and in a queue: nothing is lost or changed. */
  predicate Matches(be: BatchEvent, qe: QueuedEvent) {
    be.event == qe.event && be.promptTag == qe.promptTag && be.receivedAt == qe.receivedAt && be.isIssue == qe.isIssue
  }

  predicate AllMatch(bs: seq<BatchEvent>, qs: seq<QueuedEvent>) {
    |bs| == |qs| && forall i :: 0 <= i < |bs| ==> Matches(bs[i], qs[i])
  }

  /** `events` is `taken` in prompt order: oldest second first, and within a second as it was taken. */
  ghost predicate InPromptOrder(events: seq<BatchEvent>, taken: seq<BatchEvent>) {
    && SortedByCreated(events)
    && multiset(events) == multiset(taken)
    && forall k :: CreatedAt(events, k) == CreatedAt(taken, k)
  }

  lemma DrainedMeaning(s: State, c: Channel, n: nat, taken: seq<BatchEvent>)
    requires n == Min(|QueueOf(s, c)|, 50) && taken == AllToBatch(QueueOf(s, c)[..n])
    ensures AllMatch(taken, QueueOf(s, c)[..n]) && InPromptOrder(Drained(s, c), taken)
  {
    SortByCreatedCorrect(taken);
  }

  /**
   A flush of an eligible channel takes the first 50 events, or all if there are fewer, with every
   field kept, sorted stably by creation time; the rest of the queue stays as it was. The cancelled
   batch comes along unchanged, with its reason if it is not empty.
   */
  lemma FlushMeaning(s: State, now: Time, c: Channel, n: nat, taken: seq<BatchEvent>)
    requires Eligible(s, now, c) && n == Min(|QueueOf(s, c)|, 50) && taken == AllToBatch(QueueOf(s, c)[..n])
    ensures var (s1, b) := FlushAs(s, now, c);
      && b.channel == c
      && AllMatch(taken, QueueOf(s, c)[..n]) && InPromptOrder(b.events, taken)
      && QueueOf(s1, c) == QueueOf(s, c)[n..] && (c in s1.queues <==> |QueueOf(s, c)| > 50)
      && b.cancelledEvents == CancelledOf(s, c) && c !in s1.cancelled
      && (b.cancelReason.Some? ==> b.cancelledEvents != [] && Entry(s.cancelReasons, c) == b.cancelReason)
      && c in s1.inFlight && Entry(s1.batchSizes, c) == Some(n)
  {
    DrainedMeaning(s, c, n, taken);
  }

  /** The cancelled-only path re-dispatches the batch as it is, whatever the throttle. */
  lemma CancelledFlushMeaning(s: State, now: Time, c: Channel)
    requires c in s.cancelled && c !in s.inFlight && forall d :: !Eligible(s, now, d)
    ensures MayFlush(s, now, c)
    ensures var (s1, b) := FlushAs(s, now, c);
      && b.channel == c && b.events == s.cancelled[c] && b.cancelledEvents == []
      && b.cancelReason == Entry(s.cancelReasons, c)
      && s1.queues == s.queues && c !in s1.cancelled && c !in s1.cancelReasons
      && c in s1.inFlight && Entry(s1.batchSizes, c) == Some(|s.cancelled[c]|)
  {
    assert !Eligible(s, now, c);
  }

  // ---- push and cap ----

  /** A push appends the event as it is; at the cap the head makes room. */
  lemma PushMeaning(s: State, e: QueuedEvent)
    requires !Refuses(s, e.channel)
    ensures var q, q1 := QueueOf(s, e.channel), QueueOf(Push(s, e).0, e.channel);
      && q1 != [] && q1[|q1| - 1] == e
      && (|q| < 500 ==> q1[..|q1| - 1] == q)
      && (|q| >= 500 ==> q1[..|q1| - 1] == q[1..])
  {
  }

  /** A push is refused exactly in drop mode while the channel is in flight, and then nothing changes. */
  lemma RefusalMeaning(s: State, e: QueuedEvent)
    ensures Push(s, e).1 <==> !(s.dedup == Drop && e.channel in s.inFlight)
    ensures !Push(s, e).1 ==> Push(s, e).0 == s
  {
  }

  /** Trimming keeps the front. */
  lemma TrimMeaning(q: seq<QueuedEvent>)
    ensures Trim(q) <= q && |Trim(q)| == Min(|q|, 500) && Trim(q) + Overflow(q) == q
  {
  }

  // ---- put back ----

  lemma ThereAndBack(c: Channel, qe: QueuedEvent, be: BatchEvent)
    requires qe.channel == c
    ensures ToQueued(c, ToBatch(qe)) == qe
    ensures ToBatch(ToQueued(c, be)) == be && ToQueued(c, be).channel == c && Matches(be, ToQueued(c, be))
  {
  }

  /** `q1` is the batch, event by event and with every field kept, and then the old queue, as far as the cap allows. */
  ghost predicate BatchInFront(q1: seq<QueuedEvent>, b: FlushBatch, q: seq<QueuedEvent>) {
    var n := |b.events|;
    && |q1| == Min(n + |q|, 500)
    && forall i :: 0 <= i < |q1| ==>
         if i < n then q1[i].channel == b.channel && Matches(b.events[i], q1[i]) else q1[i] == q[i - n]
  }

  /** Both ways of putting a batch back keep timestamps, tags and flags. */
  lemma PutBackMeaning(s: State, b: FlushBatch, now: Time, nanos: nat)
    ensures BatchInFront(QueueOf(RequeuePreserve(s, b), b.channel), b, QueueOf(s, b.channel))
    ensures Requeue(s, b, now, nanos).1.None? ==>
      BatchInFront(QueueOf(Requeue(s, b, now, nanos).0, b.channel), b, QueueOf(s, b.channel))
    ensures Requeue(s, b, now, nanos).1.None? ==> Requeue(s, b, now, nanos).0.queues == RequeuePreserve(s, b).queues
    ensures Requeue(s, b, now, nanos).1.Some? ==>
      && Requeue(s, b, now, nanos).1 == Some(b) && Requeue(s, b, now, nanos).0.queues == s.queues
      && Attempts(Requeue(s, b, now, nanos).0, b.channel) == 0 && b.channel !in Requeue(s, b, now, nanos).0.retryAfter
  {
    var q1 := Trim(PutBack(s, b));
    assert QueueOf(RequeuePreserve(s, b), b.channel) == q1;
  }

  /** A cancelled batch is kept behind what was cancelled before, carried-over events first, under the newest reason. */
  lemma CancelMeaning(s: State, b: FlushBatch, reason: CancelReason)
    ensures var s1 := RequeueCancelled(s, b, reason);
      var old', new' := CancelledOf(s, b.channel), CancelledOf(s1, b.channel);
      && old' <= new' && new'[|old'|..] == b.cancelledEvents + b.events
      && Entry(s1.cancelReasons, b.channel) == Some(reason)
  {
    Assoc(CancelledOf(s, b.channel), b.cancelledEvents, b.events);
  }

  /** Every stored event carries the channel it is stored under. */
  ghost predicate Own(m: map<Channel, seq<QueuedEvent>>) {
    forall c: Channel, e: QueuedEvent :: c in m && e in m[c] ==> e.channel == c
  }

  ghost predicate OwnChannels(s: State) {
    Own(s.queues) && Own(s.withheld)
  }

  lemma OwnPut(m: map<Channel, seq<QueuedEvent>>, c: Channel, q: seq<QueuedEvent>)
    requires Own(m) && forall e :: e in q ==> e.channel == c
    ensures Own(PutQueue(m, c, q)) && Own(m[c := q])
  {
  }

  lemma OwnMinus(m: map<Channel, seq<QueuedEvent>>, cs: set<Channel>)
    requires Own(m)
    ensures Own(m - cs)
  {
  }

  lemma OwnLookup(m: map<Channel, seq<QueuedEvent>>, c: Channel)
    requires Own(m)
    ensures forall e :: e in Lookup(m, c) ==> e.channel == c
  {
  }

  lemma OwnExpire(s: State, now: Time)
    requires OwnChannels(s)
    ensures OwnChannels(Expire(s, now))
  {
    var ex := Expired(s, now);
    OwnMinus(s.withheld, ex);
    var r := RecoverAll(s.queues, s.withheld, ex);
    forall c: Channel, e: QueuedEvent | c in r && e in r[c] ensures e.channel == c {
      assert r[c] == Recovered(s.queues, s.withheld, ex, c);
      OwnLookup(s.queues, c);
    }
  }

  lemma OwnFlush(s: State, now: Time, c: Channel)
    requires OwnChannels(s)
    ensures OwnChannels(FlushAs(s, now, c).0)
  {
    if Eligible(s, now, c) {
      var q := QueueOf(s, c);
      OwnPut(s.queues, c, q[DrainCount(q)..]);
      assert FlushQueued(s, now, c).0.queues == PutQueue(s.queues, c, q[DrainCount(q)..]);
      assert FlushQueued(s, now, c).0.withheld == s.withheld;
    } else {
      assert FlushCancelled(s, now, c).0.queues == s.queues && FlushCancelled(s, now, c).0.withheld == s.withheld;
    }
  }

  lemma OwnPutBack(s: State, b: FlushBatch)
    requires OwnChannels(s)
    ensures Own(s.queues[b.channel := Trim(PutBack(s, b))])
  {
    OwnLookup(s.queues, b.channel);
    OwnPut(s.queues, b.channel, Trim(PutBack(s, b)));
  }

  lemma OwnHandBack(w: World, op: Op)
    requires OwnChannels(w.q) && Legal(w, op) && HandsBack(op)
    ensures OwnChannels(NextState(w, op))
  {
    var b := w.out[op.i];
    if op.RequeueOp? {
      OwnPutBack(w.q, b);
      var s1 := Requeue(w.q, b, op.now, op.nanos).0;
      assert s1.withheld == w.q.withheld;
      assert s1.queues == w.q.queues || s1.queues == w.q.queues[b.channel := Trim(PutBack(w.q, b))];
    } else if op.PreserveOp? {
      OwnPutBack(w.q, b);
      assert NextState(w, op) == RequeuePreserve(w.q, b);
    } else if op.CancelOp? {
      assert NextState(w, op) == RequeueCancelled(w.q, b, op.reason);
    }
  }

  lemma OwnPush(s: State, e: QueuedEvent)
    requires OwnChannels(s)
    ensures OwnChannels(Push(s, e).0)
  {
    OwnLookup(s.queues, e.channel);
    var s1 := Push(s, e).0;
    if !Refuses(s, e.channel) {
      OwnPut(s.queues, e.channel, s1.queues[e.channel]);
    }
  }

  lemma OwnWithhold(s: State, c: Channel, id: EventId)
    requires OwnChannels(s)
    ensures OwnChannels(Withhold(s, c, id).0)
  {
    var q := QueueOf(s, c);
    var k := FirstIndex(q, id);
    OwnLookup(s.queues, c);
    OwnLookup(s.withheld, c);
    if k < |q| {
      OwnPut(s.queues, c, RemoveAt(q, k));
      OwnPut(s.withheld, c, WithheldOf(s, c) + [q[k]]);
    }
  }

  lemma OwnRelease(s: State, c: Channel, id: EventId)
    requires OwnChannels(s)
    ensures OwnChannels(Release(s, c, id))
  {
    var w := WithheldOf(s, c);
    var k := FirstIndex(w, id);
    OwnLookup(s.queues, c);
    OwnLookup(s.withheld, c);
    if k < |w| {
      OwnPut(s.withheld, c, RemoveAt(w, k));
      OwnPut(s.queues, c, Trim([w[k]] + QueueOf(s, c)));
    }
  }

  lemma OwnRemove(s: State, c: Channel, id: EventId)
    requires OwnChannels(s)
    ensures OwnChannels(RemoveEvent(s, c, id))
  {
    OwnLookup(s.queues, c);
    OwnLookup(s.withheld, c);
    if c in s.withheld {
      OwnPut(s.withheld, c, WithoutId(s.withheld[c], id));
    }
    if c in s.queues {
      OwnPut(s.queues, c, WithoutId(s.queues[c], id));
    }
  }

  lemma OwnSteer(w: World, op: Op)
    requires OwnChannels(w.q) && Legal(w, op) && (op.WithholdOp? || op.ReleaseOp? || op.RemoveOp? || op.DrainOp?)
    ensures OwnChannels(NextState(w, op))
  {
    if op.WithholdOp? {
      OwnWithhold(w.q, op.c, op.id);
    } else if op.ReleaseOp? {
      OwnRelease(w.q, op.c, op.id);
    } else if op.RemoveOp? {
      OwnRemove(w.q, op.c, op.id);
    } else {
      OwnMinus(w.q.queues, {op.c});
      OwnMinus(w.q.withheld, {op.c});
      assert NextState(w, op) == DrainChannel(w.q, op.c).0;
    }
  }

  lemma OwnStep(w: World, op: Op)
    requires OwnChannels(w.q) && Legal(w, op)
    ensures OwnChannels(NextState(w, op))
  {
    if op.FlushOp? || op.TickOp? {
      OwnExpire(w.q, op.now);
      if op.FlushOp? {
        OwnFlush(Expire(w.q, op.now), op.now, op.pick);
      }
    } else if HandsBack(op) {
      OwnHandBack(w, op);
    } else if op.PushOp? {
      OwnPush(w.q, op.e);
    } else if op.CompleteOp? {
      assert NextState(w, op) == MarkComplete(w.q, op.c, op.now);
    } else if op.ExtendOp? {
      assert NextState(w, op) == Extend(w.q, op.c, op.secs, op.now);
    } else if op.CompactOp? {
      assert NextState(w, op) == Compact(w.q, op.now);
    } else {
      OwnSteer(w, op);
    }
  }

  /** In every reachable state, every stored event carries its own channel. */
  lemma {:induction false} OwnRun(w: World, ops: seq<Op>)
    requires OwnChannels(w.q) && LegalRun(w, ops)
    ensures OwnChannels(Run(w, ops).q)
    decreases |ops|
  {
    if ops != [] {
      OwnStep(w, ops[0]);
      OwnRun(Apply(w, ops[0]), ops[1..]);
    }
  }

  /** One entry taken out of a batch, seen from the batch and from the queue it becomes. */
  lemma TakeOut(c: Channel, bs: seq<BatchEvent>, k: nat, rest: seq<BatchEvent>)
    requires k < |bs| && rest == bs[..k] + bs[k + 1..]
    ensures multiset(bs) == multiset(rest) + multiset{bs[k]}
    ensures multiset(AllToQueued(c, bs)) == multiset(AllToQueued(c, rest)) + multiset{ToQueued(c, bs[k])}
  {
    assert bs == bs[..k] + [bs[k]] + bs[k + 1..];
    var f, g := AllToQueued(c, bs[..k]), AllToQueued(c, bs[k + 1..]);
    assert AllToQueued(c, bs) == f + [ToQueued(c, bs[k])] + g;
    assert AllToQueued(c, rest) == f + g;
  }

  lemma LastOut(q: seq<QueuedEvent>, init: seq<QueuedEvent>, last: QueuedEvent)
    requires q == init + [last]
    ensures AllToBatch(q) == AllToBatch(init) + [ToBatch(last)]
    ensures multiset(AllToBatch(q)) == multiset(AllToBatch(init)) + multiset{ToBatch(last)}
    ensures multiset(q) == multiset(init) + multiset{last}
  {
    assert AllToBatch(q) == AllToBatch(init) + [ToBatch(last)];
  }

  lemma CancelOne<T>(a: multiset<T>, b: multiset<T>, x: T)
    requires a + multiset{x} == b + multiset{x}
    ensures a == b
  {
    forall y ensures a[y] == b[y] {
      assert (a + multiset{x})[y] == (b + multiset{x})[y];
    }
  }

  /** Any reordering of a queue's batch form becomes, put back, a reordering of the queue. */
  lemma {:induction false} BackAgain(c: Channel, q: seq<QueuedEvent>, bs: seq<BatchEvent>)
    requires (forall e :: e in q ==> e.channel == c) && multiset(bs) == multiset(AllToBatch(q))
    ensures multiset(AllToQueued(c, bs)) == multiset(q)
    decreases |q|
  {
    SameSize(bs, AllToBatch(q));
    if q == [] {
      assert AllToQueued(c, bs) == [];
    } else {
      var init, last := q[..|q| - 1], q[|q| - 1];
      LastOut(q, init, last);
      assert ToBatch(last) in multiset(bs);
      var k :| 0 <= k < |bs| && bs[k] == ToBatch(last);
      var rest := bs[..k] + bs[k + 1..];
      TakeOut(c, bs, k, rest);
      CancelOne(multiset(rest), multiset(AllToBatch(init)), bs[k]);
      BackAgain(c, init, rest);
      ThereAndBack(c, last, bs[k]);
    }
  }

  lemma PutBackOf(s1: State, b: FlushBatch)
    ensures |b.events| + |QueueOf(s1, b.channel)| <= 500 ==>
      QueueOf(RequeuePreserve(s1, b), b.channel) == AllToQueued(b.channel, b.events) + QueueOf(s1, b.channel)
  {
  }

  /**
   A flush and a put-back: the channel has the very same events again, field for field; the drained
   ones come first, in batch order, and the others follow as they were. Stated for the put-back without
   backoff; PutBackMeaning says that a requeue leaves the same queues.
   */
  lemma FlushThenPutBack(s: State, now: Time, c: Channel, n: nat)
    requires StateInv(s) && OwnChannels(s) && Eligible(s, now, c) && n == Min(|QueueOf(s, c)|, 50)
    ensures var (s1, b) := FlushAs(s, now, c); var q, q2 := QueueOf(s, c), QueueOf(RequeuePreserve(s1, b), c);
      && multiset(q2) == multiset(q)
      && n <= |q2| && AllMatch(b.events, q2[..n]) && q2[n..] == q[n..]
  {
    var (s1, b) := FlushAs(s, now, c);
    var q := QueueOf(s, c);
    FlushMeaning(s, now, c, n, AllToBatch(q[..n]));
    PutBackOf(s1, b);
    OwnLookup(s.queues, c);
    BackAgain(c, q[..n], b.events);
    SameSize(b.events, AllToBatch(q[..n]));
    var front := AllToQueued(c, b.events);
    assert QueueOf(RequeuePreserve(s1, b), c) == front + q[n..];
    assert q == q[..n] + q[n..];
    assert (front + q[n..])[..n] == front && (front + q[n..])[n..] == q[n..];
  }

  lemma SameSize<T>(a: seq<T>, b: seq<T>)
    requires multiset(a) == multiset(b)
    ensures |a| == |b|
  {
    assert |multiset(a)| == |a| && |multiset(b)| == |b|;
  }

  // ---- completion, extension, compaction, drain ----

  predicate ThrottledAt(s: State, c: Channel, now: Time) {
    c in s.retryAfter && s.retryAfter[c] > now
  }

  /** A completion frees the channel; it resets the retry state exactly when no throttle is active. */
  lemma CompletionMeaning(s: State, c: Channel, now: Time)
    ensures var s1 := MarkComplete(s, c, now);
      && c !in s1.inFlight && c !in s1.deadlines && c !in s1.batchSizes
      && (!ThrottledAt(s, c, now) ==> Attempts(s1, c) == 0 && c !in s1.retryAfter)
      && (ThrottledAt(s, c, now) ==> Attempts(s1, c) == Attempts(s, c) && ThrottledAt(s1, c, now))
  {
  }

  /** An extension moves a deadline to the later of itself and a full turn plus buffer from now, and creates none. */
  lemma ExtensionMeaning(s: State, c: Channel, secs: nat, now: Time)
    ensures var s1 := Extend(s, c, secs, now); var full := now + secs as real + 100.0;
      && s1.deadlines.Keys == s.deadlines.Keys
      && (c in s.deadlines ==> s1.deadlines[c] == if full > s.deadlines[c] then full else s.deadlines[c])
  {
    var extended := now + (secs + IN_FLIGHT_DEADLINE_BUFFER_SECS) as real;
    assert extended == now + secs as real + 100.0;
  }

  /** Compaction drops exactly the passed throttles and the counts of idle channels. */
  lemma CompactionMeaning(s: State, now: Time, c: Channel)
    ensures var s1 := Compact(s, now);
      && (c in s1.retryAfter <==> ThrottledAt(s, c, now))
      && (c in s1.retryAfter ==> s1.retryAfter[c] == s.retryAfter[c])
      && (Attempts(s1, c) == Attempts(s, c) || Attempts(s1, c) == 0)
      && (c in s1.retryCounts <==>
            c in s.retryCounts && (ThrottledAt(s, c, now) || QueueOf(s, c) != [] || c in s.inFlight))
      && (c in s1.retryCounts ==> s1.retryCounts[c] == s.retryCounts[c])
  {
  }

  /**
   After a drain nothing of the channel is stored, its retry state is gone, and its queued ids were
   returned in order.
   */
  lemma DrainMeaning(s: State, c: Channel, now: Time, x: EventId)
    ensures var (s1, ids) := DrainChannel(s, c);
      && C.Held(s1, c, x) == 0 && Attempts(s1, c) == 0 && !ThrottledAt(s1, c, now) && c !in s1.cancelReasons
      && |ids| == |QueueOf(s, c)| && (forall i :: 0 <= i < |ids| ==> ids[i] == QueueOf(s, c)[i].event.id)
      && s1.inFlight == s.inFlight && s1.deadlines == s.deadlines
  {
    assert QIds([]) == [] && BIds([]) == [];
  }

  /** There is undispatched work exactly when some channel that is not in flight has an event stored. */
  lemma UndispatchedMeaning(s: State)
    requires StateInv(s)
    ensures Undispatched(s) <==> exists c, x :: c !in s.inFlight && C.Held(s, c, x) > 0
  {
    if c, x :| c !in s.inFlight && C.Held(s, c, x) > 0 {
      StoredSomewhere(s, c, x);
      if c in s.cancelled {
        assert CancelReady(s, c);
      }
    }
    if Undispatched(s) {
      var c :| c !in s.inFlight && (QueueOf(s, c) != [] || WithheldOf(s, c) != [] || CancelledOf(s, c) != []);
      var x := StoredEvent(s, c);
    }
  }

  lemma StoredSomewhere(s: State, c: Channel, x: EventId)
    requires StateInv(s) && C.Held(s, c, x) > 0
    ensures (c in s.queues && s.queues[c] != []) || (c in s.withheld && s.withheld[c] != []) || c in s.cancelled
  {
    assert QIds([]) == [] && BIds([]) == [];
  }

  lemma StoredEvent(s: State, c: Channel) returns (x: EventId)
    requires QueueOf(s, c) != [] || WithheldOf(s, c) != [] || CancelledOf(s, c) != []
    ensures C.Held(s, c, x) > 0
  {
    if QueueOf(s, c) != [] {
      x := QIds(QueueOf(s, c))[0];
      assert QSet(QueueOf(s, c))[x] > 0;
    } else if WithheldOf(s, c) != [] {
      x := QIds(WithheldOf(s, c))[0];
      assert QSet(WithheldOf(s, c))[x] > 0;
    } else {
      x := BIds(CancelledOf(s, c))[0];
      assert BSet(CancelledOf(s, c))[x] > 0;
    }
  }

  // ---- footprints: the tables an operation may change, and no other ----

  lemma FootprintOfPush(s: State, e: QueuedEvent)
    ensures var s1 := Push(s, e).0; s1 == s.(queues := s1.queues)
  {
  }

  lemma FootprintOfSteer(s: State, c: Channel, id: EventId)
    ensures var s1 := Withhold(s, c, id).0; s1 == s.(queues := s1.queues, withheld := s1.withheld)
    ensures var s1 := Release(s, c, id); s1 == s.(queues := s1.queues, withheld := s1.withheld)
    ensures var s1 := RemoveEvent(s, c, id); s1 == s.(queues := s1.queues, withheld := s1.withheld)
  {
  }

  lemma FootprintOfHandBack(s: State, b: FlushBatch, now: Time, nanos: nat, reason: CancelReason)
    ensures var s1 := RequeuePreserve(s, b); s1 == s.(queues := s1.queues)
    ensures var s1 := Requeue(s, b, now, nanos).0;
      s1 == s.(queues := s1.queues, retryAfter := s1.retryAfter, retryCounts := s1.retryCounts)
    ensures var s1 := RequeueCancelled(s, b, reason);
      s1 == s.(cancelled := s1.cancelled, cancelReasons := s1.cancelReasons)
  {
  }

  lemma FootprintOfFlush(s: State, c: Channel, now: Time)
    ensures var s1 := FlushAs(s, now, c).0;
      s1 == s.(queues := s1.queues, cancelled := s1.cancelled, cancelReasons := s1.cancelReasons,
               inFlight := s1.inFlight, deadlines := s1.deadlines, batchSizes := s1.batchSizes)
  {
    if Eligible(s, now, c) {
      assert FlushAs(s, now, c).0 == FlushQueued(s, now, c).0;
    } else {
      assert FlushAs(s, now, c).0 == FlushCancelled(s, now, c).0;
    }
  }

  lemma FootprintOfExpiry(s: State, now: Time)
    ensures var s1 := Expire(s, now);
      s1 == s.(queues := s1.queues, withheld := s1.withheld, inFlight := s1.inFlight, deadlines := s1.deadlines,
               batchSizes := s1.batchSizes)
    ensures var s1 := Compact(s, now); s1 == s.(retryAfter := s1.retryAfter, retryCounts := s1.retryCounts)
  {
  }

  lemma FootprintOfTurns(s: State, c: Channel, now: Time, secs: nat)
    ensures var s1 := MarkComplete(s, c, now);
      s1 == s.(inFlight := s1.inFlight, deadlines := s1.deadlines, batchSizes := s1.batchSizes,
               retryAfter := s1.retryAfter, retryCounts := s1.retryCounts)
    ensures var s1 := Extend(s, c, secs, now); s1 == s.(deadlines := s1.deadlines)
  {
  }

  // ---- the side table ----

  /** Withholding the head: it leaves the queue and goes to the end of the side table. */
  lemma WithholdHead(s: State, c: Channel)
    requires QueueOf(s, c) != []
    ensures var q := QueueOf(s, c); var (s1, found) := Withhold(s, c, q[0].event.id);
      && found && QueueOf(s1, c) == q[1..] && WithheldOf(s1, c) == WithheldOf(s, c) + [q[0]]
      && s1.deadlines == s.deadlines && s1.inFlight == s.inFlight
  {
    var q := QueueOf(s, c);
    var k := FirstIndex(q, q[0].event.id);
    assert k == 0;
    assert RemoveAt(q, 0) == q[1..];
    C.LookupPut(s.queues, c, q[1..], c);
  }

  /** Withhold the first `k` queued events, one after the other. */
  ghost function WithholdFront(s: State, c: Channel, k: nat): State
    requires k <= |QueueOf(s, c)|
    decreases k
  {
    if k == 0 then s
    else
      WithholdHead(s, c);
      WithholdFront(Withhold(s, c, QueueOf(s, c)[0].event.id).0, c, k - 1)
  }

  lemma {:induction false} WithholdFrontMeaning(s: State, c: Channel, k: nat, q: seq<QueuedEvent>, w: seq<QueuedEvent>)
    requires q == QueueOf(s, c) && w == WithheldOf(s, c) && k <= |q|
    ensures var s1 := WithholdFront(s, c, k);
      QueueOf(s1, c) == q[k..] && WithheldOf(s1, c) == w + q[..k] && s1.deadlines == s.deadlines
    decreases k
  {
    if k == 0 {
      assert q[0..] == q && w + q[..0] == w;
    } else {
      WithholdHead(s, c);
      var s1 := Withhold(s, c, q[0].event.id).0;
      WithholdFrontMeaning(s1, c, k - 1, q[1..], w + [q[0]]);
      Shifted(w, q, k);
    }
  }

  lemma Shifted<T>(w: seq<T>, q: seq<T>, k: nat)
    requires 0 < k <= |q|
    ensures q[1..][k - 1..] == q[k..] && w + [q[0]] + q[1..][..k - 1] == w + q[..k]
  {
    assert q[..k] == [q[0]] + q[1..][..k - 1];
  }

  /**
   The side table keeps order: withhold any number of events from the front of a queue, one by one,
   and let the turn expire; the queue is what it was, with what was withheld before in front.
   */
  lemma WithheldComesBackInOrder(s: State, c: Channel, k: nat, now: Time)
    requires StateInv(s) && k <= |QueueOf(s, c)| && c in s.deadlines && now >= s.deadlines[c]
    ensures var s1 := Expire(WithholdFront(s, c, k), now);
      QueueOf(s1, c) == Trim(WithheldOf(s, c) + QueueOf(s, c)) && WithheldOf(s1, c) == []
  {
    var s0 := WithholdFront(s, c, k);
    WithholdFrontMeaning(s, c, k, QueueOf(s, c), WithheldOf(s, c));
    RecoveredInOrder(s0, c, now, WithheldOf(s, c), QueueOf(s, c), k);
  }

  lemma Rejoined<T>(w: seq<T>, q: seq<T>, k: nat)
    requires k <= |q|
    ensures (w + q[..k]) + q[k..] == w + q
  {
    assert q[..k] + q[k..] == q;
  }

  lemma RecoveredInOrder(s0: State, c: Channel, now: Time, w: seq<QueuedEvent>, q: seq<QueuedEvent>, k: nat)
    requires k <= |q| <= 500 && QueueOf(s0, c) == q[k..] && WithheldOf(s0, c) == w + q[..k] && c in Expired(s0, now)
    ensures QueueOf(Expire(s0, now), c) == Trim(w + q) && WithheldOf(Expire(s0, now), c) == []
  {
    C.ExpireTables(s0, now, c);
    Rejoined(w, q, k);
    if c !in s0.withheld {
      assert w == [] && k == 0;
      assert w + q == q && q[0..] == q;
    }
  }

  /**
   Withholding takes the first event with the id, and leaves the others in order; an id that is not
   queued changes nothing.
   */
  lemma WithholdMeaning(s: State, c: Channel, id: EventId, k: nat)
    requires k <= |QueueOf(s, c)| && forall i :: 0 <= i < k ==> QueueOf(s, c)[i].event.id != id
    ensures k == |QueueOf(s, c)| ==> Withhold(s, c, id) == (s, false)
    ensures k < |QueueOf(s, c)| && QueueOf(s, c)[k].event.id == id ==>
      var q, w := QueueOf(s, c), WithheldOf(s, c); var (s1, found) := Withhold(s, c, id);
      found && QueueOf(s1, c) == q[..k] + q[k + 1..] && WithheldOf(s1, c) == w + [q[k]]
  {
    var q := QueueOf(s, c);
    if k < |q| && q[k].event.id == id {
      assert FirstIndex(q, id) == k;
      C.LookupPut(s.queues, c, RemoveAt(q, k), c);
    }
  }

  /** Releasing an id that is not withheld changes nothing. */
  lemma ReleaseNothing(s: State, c: Channel, id: EventId)
    requires forall e :: e in WithheldOf(s, c) ==> e.event.id != id
    ensures Release(s, c, id) == s
  {
    var w := WithheldOf(s, c);
    assert forall i :: 0 <= i < |w| ==> w[i] in w;
  }

  /** A released event is the head of its queue; what was there follows, as far as the cap allows. */
  lemma ReleaseMeaning(s: State, c: Channel, id: EventId, k: nat)
    requires k == FirstIndex(WithheldOf(s, c), id) && k < |WithheldOf(s, c)|
    ensures var w, q, s1 := WithheldOf(s, c), QueueOf(s, c), Release(s, c, id); var q1 := QueueOf(s1, c);
      && w[k].event.id == id && q1 != [] && q1[0] == w[k] && q1[1..] <= q && |q1| == Min(|q| + 1, 500)
      && WithheldOf(s1, c) == w[..k] + w[k + 1..]
  {
    var w := WithheldOf(s, c);
    C.LookupPut(s.withheld, c, RemoveAt(w, k), c);
    var all := [w[k]] + QueueOf(s, c);
    assert Trim(all)[1..] <= QueueOf(s, c);
  }

  lemma {:induction false} FoundLast(w: seq<QueuedEvent>, e: QueuedEvent)
    requires forall f :: f in w ==> f.event.id != e.event.id
    ensures FirstIndex(w + [e], e.event.id) == |w|
  {
    if w == [] {
      assert w + [e] == [e];
    } else {
      assert w[0] in w;
      assert (w + [e])[0] == w[0] && (w + [e])[1..] == w[1..] + [e];
      FoundLast(w[1..], e);
    }
  }

  lemma WithoutLast<T>(w: seq<T>, e: T)
    ensures (w + [e])[..|w|] + (w + [e])[|w| + 1..] == w
  {
  }

  lemma ReleaseLast(s: State, c: Channel, e: QueuedEvent, w: seq<QueuedEvent>, q: seq<QueuedEvent>)
    requires WithheldOf(s, c) == w + [e] && QueueOf(s, c) == q && |q| < 500
    requires forall f :: f in w ==> f.event.id != e.event.id
    ensures var s1 := Release(s, c, e.event.id); QueueOf(s1, c) == [e] + q && WithheldOf(s1, c) == w
  {
    FoundLast(w, e);
    WithoutLast(w, e);
    C.LookupPut(s.withheld, c, w, c);
    assert RemoveAt(w + [e], |w|) == w && (w + [e])[|w|] == e;
  }

  /** Withholding the head and releasing it leaves the channel as it was. */
  lemma WithholdThenRelease(s: State, c: Channel, e: QueuedEvent)
    requires StateInv(s) && QueueOf(s, c) != [] && e == QueueOf(s, c)[0]
    requires forall f :: f in WithheldOf(s, c) ==> f.event.id != e.event.id
    ensures var s1 := Release(Withhold(s, c, e.event.id).0, c, e.event.id);
      QueueOf(s1, c) == QueueOf(s, c) && WithheldOf(s1, c) == WithheldOf(s, c)
  {
    var q := QueueOf(s, c);
    assert q == [e] + q[1..];
    WithholdHead(s, c);
    ReleaseLast(Withhold(s, c, e.event.id).0, c, e, WithheldOf(s, c), q[1..]);
  }

  /** Removing an event leaves the others in their order: removal distributes over any split of the queue. */
  lemma {:induction false} RemovalKeepsOrder(a: seq<QueuedEvent>, b: seq<QueuedEvent>, id: EventId)
    ensures WithoutId(a + b, id) == WithoutId(a, id) + WithoutId(b, id)
  {
    if a == [] {
      assert a + b == b;
    } else {
      assert (a + b)[1..] == a[1..] + b && (a + b)[0] == a[0];
      RemovalKeepsOrder(a[1..], b, id);
    }
  }

  lemma RemovalOfOne(e: QueuedEvent, id: EventId)
    ensures WithoutId([e], id) == if e.event.id == id then [] else [e]
  {
    assert [e][1..] == [];
  }
}
