/**
 Per-channel exclusion, readiness and fairness of the queue over whole runs.
 */
module Scheduling {
  import opened Basics
  import opened Events
  import opened QueueModel
  import opened QueueRuns

  // ---- exclusion ----

  /** The operation ends the turn of `c`: it completes it, or its clock passes the deadline. */
  ghost predicate Ends(w: World, op: Op, c: Channel) {
    || (op.CompleteOp? && op.c == c)
    || ((op.FlushOp? || op.TickOp?) && c in Expired(w.q, op.now))
  }

  ghost predicate Undisturbed(w: World, ops: seq<Op>, c: Channel)
    requires LegalRun(w, ops)
    decreases |ops|
  {
    ops == [] || (!Ends(w, ops[0], c) && Undisturbed(Apply(w, ops[0]), ops[1..], c))
  }

  lemma FlushNotInFlight(s: State, now: Time, p: Channel, c: Channel)
    requires MayFlush(s, now, p)
    ensures p !in s.inFlight
    ensures c in FlushAs(s, now, p).0.inFlight <==> c in s.inFlight || c == p
  {
  }

  lemma InFlightFlush(w: World, now: Time, p: Channel, c: Channel)
    requires Inv(w) && Legal(w, FlushOp(now, p)) && c in w.q.inFlight
    ensures var s := FlushAs(Expire(w.q, now), now, p).0;
      && ((c in s.inFlight && p != c) <==> c !in Expired(w.q, now))
      && (c !in Expired(w.q, now) ==> c in s.deadlines && s.deadlines[c] == w.q.deadlines[c])
  {
    var e := Expire(w.q, now);
    FlushNotInFlight(e, now, p, c);
    if c !in Expired(w.q, now) {
      FrameExpire(w.q, now, c);
      FrameFlush(e, now, p, c);
    }
  }

  /** Both states agree on the turn of `c`. */
  predicate SameTurn(s: State, t: State, c: Channel) {
    && (c in s.inFlight <==> c in t.inFlight)
    && (c in s.deadlines <==> c in t.deadlines)
    && (c in s.deadlines ==> s.deadlines[c] == t.deadlines[c])
  }

  lemma HandBackKeepsTurn(w: World, op: Op, c: Channel)
    requires Legal(w, op) && HandsBack(op)
    ensures SameTurn(w.q, NextState(w, op), c)
  {
  }

  /** Only flushes, expiry, completions and extensions touch the turn of a channel. */
  lemma TurnKept(w: World, op: Op, c: Channel)
    requires Legal(w, op) && !op.FlushOp? && !op.TickOp? && !op.CompleteOp? && !op.ExtendOp?
    ensures SameTurn(w.q, NextState(w, op), c)
  {
    if HandsBack(op) {
      HandBackKeepsTurn(w, op, c);
    }
  }

  /** The operation `op` takes the turn of `c` in `s` to `s1`: on, with a deadline no earlier, or to its end. */
  ghost predicate TurnAfter(s: State, s1: State, c: Channel, on: bool) {
    && (c in s1.inFlight <==> on)
    && (on && c in s.deadlines ==> c in s1.deadlines && s1.deadlines[c] >= s.deadlines[c])
  }

  lemma TurnExpire(s: State, now: Time, c: Channel)
    requires c in s.inFlight
    ensures TurnAfter(s, Expire(s, now), c, c !in Expired(s, now))
  {
  }

  lemma TurnComplete(s: State, d: Channel, now: Time, c: Channel)
    requires c in s.inFlight
    ensures TurnAfter(s, MarkComplete(s, d, now), c, c != d)
  {
  }

  lemma TurnExtend(s: State, d: Channel, secs: nat, now: Time, c: Channel)
    requires c in s.inFlight
    ensures TurnAfter(s, Extend(s, d, secs, now), c, true)
  {
  }

  /**
   One operation leaves the turn of `c` in flight, without dispatching `c` again,
   exactly when it does not end it; and then the deadline of `c` does not shrink.
   */
  lemma InFlightStep(w: World, op: Op, c: Channel)
    requires Inv(w) && Legal(w, op) && c in w.q.inFlight
    ensures var s := NextState(w, op);
      && ((c in s.inFlight && !(op.FlushOp? && op.pick == c)) <==> !Ends(w, op, c))
      && (!Ends(w, op, c) ==> c in s.deadlines && s.deadlines[c] >= w.q.deadlines[c])
  {
    if op.FlushOp? {
      InFlightFlush(w, op.now, op.pick, c);
    } else if op.TickOp? {
      TurnExpire(w.q, op.now, c);
    } else if op.CompleteOp? {
      TurnComplete(w.q, op.c, op.now, c);
    } else if op.ExtendOp? {
      TurnExtend(w.q, op.c, op.secs, op.now, c);
    } else {
      TurnKept(w, op, c);
    }
  }

  /**
   Exclusion. From a flush of `c` until its turn completes or expires, no flush
   returns `c`, and its deadline never moves back.
   */
  lemma {:induction false} NoSecondFlush(w: World, ops: seq<Op>, c: Channel)
    requires Inv(w) && LegalRun(w, ops) && c in w.q.inFlight && Undisturbed(w, ops, c)
    ensures forall k :: 0 <= k < |ops| && ops[k].FlushOp? ==> ops[k].pick != c
    ensures var s := Run(w, ops).q; c in s.inFlight && c in s.deadlines && s.deadlines[c] >= w.q.deadlines[c]
    decreases |ops|
  {
    if ops != [] {
      InFlightStep(w, ops[0], c);
      InvStep(w, ops[0]);
      NoSecondFlush(Apply(w, ops[0]), ops[1..], c);
      forall k | 0 <= k < |ops| && ops[k].FlushOp? ensures ops[k].pick != c {
        if k > 0 {
          assert ops[k] == ops[1..][k - 1];
        }
      }
    }
  }

  lemma FlushStartsTurn(w: World, now: Time, c: Channel)
    requires Legal(w, FlushOp(now, c))
    ensures var s := NextState(w, FlushOp(now, c));
      c in s.inFlight && c in s.deadlines && s.deadlines[c] == now + w.q.inFlightDeadline
  {
  }

  // ---- readiness ----

  ghost predicate OldestIn(s: State, now: Time, cs: set<Channel>, c: Channel) {
    && c in cs && Eligible(s, now, c)
    && forall d :: d in cs && Eligible(s, now, d) ==> HeadTime(s, c) <= HeadTime(s, d)
  }

  lemma {:induction false} OldestOf(s: State, now: Time, cs: set<Channel>) returns (c: Channel)
    requires exists d :: d in cs && Eligible(s, now, d)
    ensures OldestIn(s, now, cs, c)
    decreases cs
  {
    c :| c in cs && Eligible(s, now, c);
    if exists d :: d in cs - {c} && Eligible(s, now, d) {
      var o := OldestOf(s, now, cs - {c});
      if HeadTime(s, o) < HeadTime(s, c) {
        c := o;
      }
    }
  }

  /** There is ready work exactly when a flush has a channel to pick. */
  lemma ReadyIffMayFlush(s: State, now: Time)
    ensures Ready(s, now) <==> exists c :: MayFlush(s, now, c)
  {
    if d :| Eligible(s, now, d) {
      assert d in s.queues.Keys;
      var c := OldestOf(s, now, s.queues.Keys);
      forall o | Eligible(s, now, o) ensures HeadTime(s, c) <= HeadTime(s, o) {
        assert o in s.queues.Keys;
      }
      assert MayFlush(s, now, c);
    } else if d :| CancelReady(s, d) {
      assert MayFlush(s, now, d);
    }
    if c :| MayFlush(s, now, c) {
      assert Eligible(s, now, c) || CancelReady(s, c);
    }
  }

  lemma RecoverTwice(queues: map<Channel, seq<QueuedEvent>>, withheld: map<Channel, seq<QueuedEvent>>,
                     a: set<Channel>, b: set<Channel>)
    ensures RecoverAll(RecoverAll(queues, withheld, a), withheld - a, b) == RecoverAll(queues, withheld, a + b)
  {
    var l, r := RecoverAll(RecoverAll(queues, withheld, a), withheld - a, b), RecoverAll(queues, withheld, a + b);
    assert l.Keys == r.Keys;
    forall c | c in l ensures l[c] == r[c] {
      assert Lookup(RecoverAll(queues, withheld, a), c) == Recovered(queues, withheld, a, c);
    }
  }

  /** Expiring early changes nothing: an earlier has_flushable_work is invisible to a later flush. */
  lemma ExpireTwice(s: State, t1: Time, t2: Time)
    requires t1 <= t2
    ensures Expire(Expire(s, t1), t2) == Expire(s, t2)
  {
    var a, b := Expired(s, t1), Expired(Expire(s, t1), t2);
    assert a + b == Expired(s, t2);
    RecoverTwice(s.queues, s.withheld, a, b);
    MinusTwice(s.batchSizes, a, b);
    MinusTwice(s.deadlines, a, b);
    MinusTwice(s.withheld, a, b);
    assert s.inFlight - a - b == s.inFlight - (a + b);
  }

  /** Ready work stays ready as the clock advances. */
  lemma ReadyStays(s: State, t1: Time, t2: Time)
    requires Ready(Expire(s, t1), t1) && t1 <= t2
    ensures Ready(Expire(s, t2), t2)
  {
    ExpireTwice(s, t1, t2);
    var e1 := Expire(s, t1);
    var e2 := Expire(e1, t2);
    if c :| Eligible(e1, t1, c) {
      assert c in e2.queues;
      assert e2.queues[c] == Recovered(e1.queues, e1.withheld, Expired(e1, t2), c);
      assert Eligible(e2, t2, c);
    } else {
      var c :| CancelReady(e1, c);
      assert CancelReady(e2, c);
    }
  }

  /** In every reachable state, nothing undispatched and nothing in flight means nothing stored at all. */
  lemma QuietMeansEmpty(dedup: DedupMode, deadline: Time, ops: seq<Op>)
    requires LegalRun(Start(dedup, deadline), ops)
    ensures var s := Run(Start(dedup, deadline), ops).q;
      !Undispatched(s) && s.inFlight == {} <==>
      s.inFlight == {} && s.queues == map[] && s.cancelled == map[] && s.withheld == map[]
  {
    var w0 := Start(dedup, deadline);
    InvRun(w0, ops);
    var s := Run(w0, ops).q;
    if !Undispatched(s) && s.inFlight == {} {
      forall c ensures c !in s.queues && c !in s.cancelled && c !in s.withheld {
        assert !CancelReady(s, c);
      }
    }
  }

  // ---- fairness ----

  /** Events of `q` received no later than `t`. */
  function CountUpTo(q: seq<QueuedEvent>, t: Time): nat {
    if q == [] then 0 else (if q[0].receivedAt <= t then 1 else 0) + CountUpTo(q[1..], t)
  }

  lemma {:induction false} CountAppend(a: seq<QueuedEvent>, b: seq<QueuedEvent>, t: Time)
    ensures CountUpTo(a + b, t) == CountUpTo(a, t) + CountUpTo(b, t)
  {
    if a == [] {
      assert a + b == b;
    } else {
      assert (a + b)[1..] == a[1..] + b;
      CountAppend(a[1..], b, t);
    }
  }

  lemma CountCut(q: seq<QueuedEvent>, k: nat, t: Time)
    requires k <= |q|
    ensures CountUpTo(q, t) == CountUpTo(q[..k], t) + CountUpTo(q[k..], t)
  {
    assert q == q[..k] + q[k..];
    CountAppend(q[..k], q[k..], t);
  }

  lemma CountTrim(q: seq<QueuedEvent>, t: Time)
    ensures CountUpTo(Trim(q), t) <= CountUpTo(q, t)
  {
    if |q| > MAX_PENDING_PER_CHANNEL {
      CountCut(q, MAX_PENDING_PER_CHANNEL, t);
    }
  }

  lemma CountRemoveAt(q: seq<QueuedEvent>, k: nat, t: Time)
    requires k < |q|
    ensures CountUpTo(q, t) == CountUpTo(RemoveAt(q, k), t) + CountUpTo([q[k]], t)
  {
    CountCut(q, k, t);
    assert q[k..] == [q[k]] + q[k + 1..];
    CountAppend([q[k]], q[k + 1..], t);
    CountAppend(q[..k], q[k + 1..], t);
  }

  lemma {:induction false} CountWithout(q: seq<QueuedEvent>, id: EventId, t: Time)
    ensures CountUpTo(WithoutId(q, id), t) <= CountUpTo(q, t)
  {
    if q != [] {
      CountWithout(q[1..], id, t);
      if q[0].event.id != id {
        CountAppend([q[0]], WithoutId(q[1..], id), t);
      }
    }
  }

  /** Queued or withheld events of `c` received no later than `t`. */
  function Old(s: State, t: Time, c: Channel): nat {
    CountUpTo(QueueOf(s, c), t) + CountUpTo(WithheldOf(s, c), t)
  }

  /** The same, summed over a set of channels. */
  ghost function Backlog(s: State, t: Time, cs: set<Channel>): nat
    decreases cs
  {
    if cs == {} then 0
    else
      var c :| c in cs;
      Old(s, t, c) + Backlog(s, t, cs - {c})
  }

  lemma {:induction false} BacklogSplit(s: State, t: Time, cs: set<Channel>, c: Channel)
    requires c in cs
    ensures Backlog(s, t, cs) == Old(s, t, c) + Backlog(s, t, cs - {c})
    decreases cs
  {
    var d :| d in cs && Backlog(s, t, cs) == Old(s, t, d) + Backlog(s, t, cs - {d});
    if d != c {
      BacklogSplit(s, t, cs - {d}, c);
      BacklogSplit(s, t, cs - {c}, d);
      assert cs - {d} - {c} == cs - {c} - {d};
    }
  }

  lemma {:induction false} BacklogMono(s: State, s': State, t: Time, cs: set<Channel>)
    requires forall c :: c in cs ==> Old(s', t, c) <= Old(s, t, c)
    ensures Backlog(s', t, cs) <= Backlog(s, t, cs)
    decreases cs
  {
    if cs != {} {
      var c :| c in cs;
      BacklogSplit(s, t, cs, c);
      BacklogSplit(s', t, cs, c);
      BacklogMono(s, s', t, cs - {c});
    }
  }

  /** `c` is eligible from `t0` on, with a head event received at `t`. */
  ghost predicate Waiting(w: World, c: Channel, t0: Time, t: Time) {
    && Inv(w)
    && Eligible(w.q, t0, c) && HeadTime(w.q, c) == t
  }

  /**
   The operations of a fairness run: pushes received after `t` that do not overflow
   the queue of `c`, calls at or after `t0`, and anything else except putting a
   failed batch back and removing or steering events of `c` itself.
   */
  ghost predicate Permitted(w: World, op: Op, c: Channel, t0: Time, t: Time)
    requires Legal(w, op)
  {
    match op
    case PushOp(e) => e.receivedAt > t && (e.channel == c ==> |QueueOf(w.q, c)| < MAX_PENDING_PER_CHANNEL)
    case FlushOp(now, _) => now >= t0
    case RequeueOp(_, _, _) => false
    case PreserveOp(_) => false
    case DrainOp(d) => d != c
    case WithholdOp(d, _) => d != c
    case ReleaseOp(d, _) => d != c
    case RemoveOp(d, _) => d != c
    case _ => true
  }

  ghost predicate PermittedRun(w: World, ops: seq<Op>, c: Channel, t0: Time, t: Time)
    requires LegalRun(w, ops)
    decreases |ops|
  {
    ops == [] || (Permitted(w, ops[0], c, t0, t) && PermittedRun(Apply(w, ops[0]), ops[1..], c, t0, t))
  }

  /** While `c` waits, a flush never comes back empty-handed. */
  lemma WaitingIsReady(w: World, c: Channel, t0: Time, t: Time, now: Time)
    requires Waiting(w, c, t0, t) && now >= t0
    ensures Eligible(Expire(w.q, now), now, c) && HeadTime(Expire(w.q, now), c) == t
    ensures Ready(Expire(w.q, now), now)
  {
    FrameExpire(w.q, now, c);
    assert Eligible(Expire(w.q, now), now, c);
  }

  /** The operation keeps the queue of `c` waiting with the same head. */
  ghost predicate StillWaits(s: State, s1: State, c: Channel, t0: Time) {
    Eligible(s, t0, c) ==> Eligible(s1, t0, c) && HeadTime(s1, c) == HeadTime(s, c)
  }

  lemma SameWaits(s: State, s1: State, c: Channel, t0: Time)
    requires Entry(s1.queues, c) == Entry(s.queues, c) && (c in s1.inFlight <==> c in s.inFlight)
    requires c in s1.retryAfter ==> c in s.retryAfter && s1.retryAfter[c] == s.retryAfter[c]
    ensures StillWaits(s, s1, c, t0)
  {
  }

  lemma PushWaits(s: State, e: QueuedEvent, t0: Time)
    requires |QueueOf(s, e.channel)| < MAX_PENDING_PER_CHANNEL
    ensures StillWaits(s, Push(s, e).0, e.channel, t0)
  {
    var q := QueueOf(s, e.channel);
    assert q != [] ==> (q + [e])[0] == q[0];
  }

  lemma OwnWaits(w: World, op: Op, c: Channel, t0: Time)
    requires Legal(w, op) && (op.CancelOp? || op.CompleteOp? || op.ExtendOp? || op.CompactOp?)
    ensures StillWaits(w.q, NextState(w, op), c, t0)
  {
    if op.CancelOp? {
      SameWaits(w.q, RequeueCancelled(w.q, w.out[op.i], op.reason), c, t0);
    } else if op.CompleteOp? {
      SameWaits(w.q, MarkComplete(w.q, op.c, op.now).(inFlight := w.q.inFlight), c, t0);
    } else if op.ExtendOp? {
      SameWaits(w.q, Extend(w.q, op.c, op.secs, op.now), c, t0);
    } else {
      SameWaits(w.q, Compact(w.q, op.now), c, t0);
    }
  }

  lemma WaitingStep(w: World, op: Op, c: Channel, t0: Time, t: Time)
    requires Waiting(w, c, t0, t) && Legal(w, op) && Permitted(w, op, c, t0, t)
    requires op.FlushOp? ==> op.pick != c
    ensures Waiting(Apply(w, op), c, t0, t)
  {
    InvStep(w, op);
    if op.CancelOp? || op.CompleteOp? || op.ExtendOp? || op.CompactOp? {
      OwnWaits(w, op, c, t0);
    } else if op.PushOp? && op.e.channel == c {
      PushWaits(w.q, op.e, t0);
    } else {
      Frame(w, op, c);
      SameWaits(w.q, NextState(w, op), c, t0);
    }
  }

  lemma OldExpire(s: State, now: Time, t: Time, c: Channel)
    ensures Old(Expire(s, now), t, c) <= Old(s, t, c)
  {
    var e := Expire(s, now);
    if c in Expired(s, now) && c in s.withheld {
      var all := s.withheld[c] + QueueOf(s, c);
      CountAppend(s.withheld[c], QueueOf(s, c), t);
      CountTrim(all, t);
      assert QueueOf(e, c) == Trim(all) && WithheldOf(e, c) == [];
    } else {
      assert QueueOf(e, c) == QueueOf(s, c) && WithheldOf(e, c) == WithheldOf(s, c);
    }
  }

  /** A flush takes at least its channel's head, which is no younger than any waiting head. */
  lemma OldFlush(s: State, now: Time, p: Channel, c: Channel, t: Time, d: Channel)
    requires MayFlush(s, now, p) && Eligible(s, now, c) && HeadTime(s, c) == t
    ensures Old(FlushAs(s, now, p).0, t, d) + (if d == p then 1 else 0) <= Old(s, t, d)
  {
    assert Oldest(s, now, p);
    var s1 := FlushAs(s, now, p).0;
    assert WithheldOf(s1, d) == WithheldOf(s, d);
    if d == p {
      var q := QueueOf(s, p);
      var n := DrainCount(q);
      CountCut(q, n, t);
      assert q[..n][0] == q[0];
      assert QueueOf(s1, p) == q[n..];
    } else {
      assert QueueOf(s1, d) == QueueOf(s, d);
    }
  }

  lemma OldWithhold(s: State, d: Channel, id: EventId, t: Time, c: Channel)
    ensures Old(Withhold(s, d, id).0, t, c) <= Old(s, t, c)
  {
    var q := QueueOf(s, d);
    var k := FirstIndex(q, id);
    var s1 := Withhold(s, d, id).0;
    if k < |q| && c == d {
      CountRemoveAt(q, k, t);
      CountAppend(WithheldOf(s, d), [q[k]], t);
      assert QueueOf(s1, c) == RemoveAt(q, k) && WithheldOf(s1, c) == WithheldOf(s, d) + [q[k]];
    } else {
      assert QueueOf(s1, c) == QueueOf(s, c) && WithheldOf(s1, c) == WithheldOf(s, c);
    }
  }

  lemma OldRelease(s: State, d: Channel, id: EventId, t: Time, c: Channel)
    ensures Old(Release(s, d, id), t, c) <= Old(s, t, c)
  {
    var w := WithheldOf(s, d);
    var k := FirstIndex(w, id);
    var s1 := Release(s, d, id);
    if k < |w| && c == d {
      CountRemoveAt(w, k, t);
      CountAppend([w[k]], QueueOf(s, d), t);
      CountTrim([w[k]] + QueueOf(s, d), t);
      assert QueueOf(s1, c) == Trim([w[k]] + QueueOf(s, d)) && WithheldOf(s1, c) == RemoveAt(w, k);
    } else {
      assert QueueOf(s1, c) == QueueOf(s, c) && WithheldOf(s1, c) == WithheldOf(s, c);
    }
  }

  lemma OldRemove(s: State, d: Channel, id: EventId, t: Time, c: Channel)
    ensures Old(RemoveEvent(s, d, id), t, c) <= Old(s, t, c)
  {
    var s1 := RemoveEvent(s, d, id);
    if c == d {
      CountWithout(QueueOf(s, d), id, t);
      CountWithout(WithheldOf(s, d), id, t);
      assert QueueOf(s1, c) == WithoutId(QueueOf(s, d), id) && WithheldOf(s1, c) == WithoutId(WithheldOf(s, d), id);
    } else {
      assert QueueOf(s1, c) == QueueOf(s, c) && WithheldOf(s1, c) == WithheldOf(s, c);
    }
  }

  lemma OldPush(s: State, e: QueuedEvent, t: Time, c: Channel)
    requires e.receivedAt > t
    ensures Old(Push(s, e).0, t, c) <= Old(s, t, c)
  {
    var s1 := Push(s, e).0;
    assert WithheldOf(s1, c) == WithheldOf(s, c);
    if !Refuses(s, e.channel) && c == e.channel {
      var q := QueueOf(s, c);
      var room := if |q| >= MAX_PENDING_PER_CHANNEL then q[1..] else q;
      if |q| >= MAX_PENDING_PER_CHANNEL {
        CountCut(q, 1, t);
      }
      CountAppend(room, [e], t);
      assert QueueOf(s1, c) == room + [e];
    } else {
      assert QueueOf(s1, c) == QueueOf(s, c);
    }
  }

  /** Operations that touch no event. */
  predicate Idles(op: Op) {
    op.CompleteOp? || op.CancelOp? || op.FinishOp? || op.ExtendOp? || op.CompactOp?
  }

  lemma IdlesKeep(w: World, op: Op)
    requires Legal(w, op) && Idles(op)
    ensures NextState(w, op).queues == w.q.queues && NextState(w, op).withheld == w.q.withheld
  {
    if op.CompleteOp? {
      assert NextState(w, op) == MarkComplete(w.q, op.c, op.now);
    } else if op.CancelOp? {
      assert NextState(w, op) == RequeueCancelled(w.q, w.out[op.i], op.reason);
    } else if op.ExtendOp? {
      assert NextState(w, op) == Extend(w.q, op.c, op.secs, op.now);
    } else if op.CompactOp? {
      assert NextState(w, op) == Compact(w.q, op.now);
    }
  }

  lemma OldSteer(w: World, op: Op, t: Time, d: Channel)
    requires Legal(w, op) && (op.WithholdOp? || op.ReleaseOp? || op.RemoveOp? || op.DrainOp?)
    ensures Old(NextState(w, op), t, d) <= Old(w.q, t, d)
  {
    if op.WithholdOp? {
      OldWithhold(w.q, op.c, op.id, t, d);
    } else if op.ReleaseOp? {
      OldRelease(w.q, op.c, op.id, t, d);
    } else if op.RemoveOp? {
      OldRemove(w.q, op.c, op.id, t, d);
    } else {
      OldDrain(w.q, op.c, t, d);
    }
  }

  /** A permitted operation never adds old events, and a flush removes one. */
  lemma OldStep(w: World, op: Op, c: Channel, t0: Time, t: Time, d: Channel)
    requires Waiting(w, c, t0, t) && Legal(w, op) && Permitted(w, op, c, t0, t)
    ensures Old(NextState(w, op), t, d) + (if op.FlushOp? && d == op.pick then 1 else 0) <= Old(w.q, t, d)
  {
    if op.PushOp? {
      OldPush(w.q, op.e, t, d);
    } else if op.FlushOp? {
      WaitingIsReady(w, c, t0, t, op.now);
      OldExpire(w.q, op.now, t, d);
      OldFlush(Expire(w.q, op.now), op.now, op.pick, c, t, d);
    } else if op.TickOp? {
      OldExpire(w.q, op.now, t, d);
    } else if Idles(op) {
      IdlesKeep(w, op);
    } else {
      OldSteer(w, op, t, d);
    }
  }

  lemma OldDrain(s: State, d: Channel, t: Time, c: Channel)
    ensures Old(DrainChannel(s, d).0, t, c) <= Old(s, t, c)
  {
  }

  lemma BacklogStep(w: World, op: Op, c: Channel, t0: Time, t: Time, cs: set<Channel>)
    requires Waiting(w, c, t0, t) && Legal(w, op) && Permitted(w, op, c, t0, t)
    requires forall d :: d !in cs ==> Old(w.q, t, d) == 0
    ensures Backlog(NextState(w, op), t, cs) + (if op.FlushOp? then 1 else 0) <= Backlog(w.q, t, cs)
    ensures forall d :: d !in cs ==> Old(NextState(w, op), t, d) == 0
  {
    var s, s1 := w.q, NextState(w, op);
    forall d ensures Old(s1, t, d) + (if op.FlushOp? && d == op.pick then 1 else 0) <= Old(s, t, d) {
      OldStep(w, op, c, t0, t, d);
    }
    if op.FlushOp? {
      assert op.pick in cs;
      BacklogSplit(s, t, cs, op.pick);
      BacklogSplit(s1, t, cs, op.pick);
      BacklogMono(s, s1, t, cs - {op.pick});
    } else {
      BacklogMono(s, s1, t, cs);
    }
  }

  function Flushes(ops: seq<Op>): nat {
    if ops == [] then 0 else (if ops[0].FlushOp? then 1 else 0) + Flushes(ops[1..])
  }

  lemma {:induction false} FlushBound(w: World, ops: seq<Op>, c: Channel, t0: Time, t: Time, cs: set<Channel>)
    requires Waiting(w, c, t0, t) && LegalRun(w, ops) && PermittedRun(w, ops, c, t0, t)
    requires forall k :: 0 <= k < |ops| && ops[k].FlushOp? ==> ops[k].pick != c
    requires forall d :: d !in cs ==> Old(w.q, t, d) == 0
    ensures Flushes(ops) < Backlog(w.q, t, cs)
    decreases |ops|
  {
    if ops == [] {
      assert Old(w.q, t, c) > 0;
      BacklogSplit(w.q, t, cs, c);
    } else {
      WaitingStep(w, ops[0], c, t0, t);
      BacklogStep(w, ops[0], c, t0, t, cs);
      assert forall k :: 0 <= k < |ops[1..]| ==> ops[1..][k] == ops[k + 1];
      FlushBound(Apply(w, ops[0]), ops[1..], c, t0, t, cs);
    }
  }

  /**
   No starvation. If `c` is eligible with head time `t`, a permitted run that never
   flushes `c` has fewer flushes than there are stored events received by `t`; so `c`
   is served within that many flushes, however many later events arrive.
   */
  lemma NoStarvation(w: World, ops: seq<Op>, c: Channel, t0: Time, t: Time)
    requires Waiting(w, c, t0, t) && LegalRun(w, ops) && PermittedRun(w, ops, c, t0, t)
    requires Flushes(ops) >= Backlog(w.q, t, w.q.queues.Keys + w.q.withheld.Keys)
    ensures exists k :: 0 <= k < |ops| && ops[k].FlushOp? && ops[k].pick == c
  {
    var cs := w.q.queues.Keys + w.q.withheld.Keys;
    if forall k :: 0 <= k < |ops| && ops[k].FlushOp? ==> ops[k].pick != c {
      FlushBound(w, ops, c, t0, t, cs);
    }
  }
}
