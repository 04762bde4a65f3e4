/**
 Backoff and dead-lettering: a batch that keeps failing is put back exactly ten times.
 */
module Retries {
  import opened Basics
  import opened Events
  import opened QueueModel
  import opened QueueRuns
  import QM = QueueMeaning

  // ---- the delay ----

  /** Clamping the exponent at six never shows: the delay is the capped doubling for every attempt. */
  lemma BackoffIsCappedDoubling(attempt: nat)
    requires attempt >= 1
    ensures BackoffSecs(attempt) == Min(BASE_RETRY_DELAY_SECS * Pow2(attempt - 1), MAX_RETRY_DELAY_SECS)
  {
    assert Pow2(6) == 64;
    if attempt - 1 > 6 {
      Pow2Mono(6, attempt - 1);
    }
  }

  /** The jitter runs from 0.8 to 1.2 as the entropy runs over 32 bits, in equal steps. */
  lemma JitterIsLinear(nanos: nat)
    ensures Jitter(0) == 0.8 && Jitter(U32_MAX) == 1.2
    ensures Jitter(nanos + 1) - Jitter(nanos) == Jitter(1) - Jitter(0)
  {
  }

  lemma JitterBounds(nanos: nat)
    requires nanos <= U32_MAX
    ensures 0.8 <= Jitter(nanos) <= 1.2
    ensures nanos < 1_000_000_000 ==> Jitter(nanos) < 0.9
  {
    var f := nanos as real / U32_MAX as real;
    assert 0.0 <= f <= 1.0;
    assert nanos < 1_000_000_000 ==> f < 0.25;
  }

  /** Scaling by a positive factor keeps the order; `sa` and `sb` are the products. */
  lemma ScaleUp(s: real, a: real, b: real, sa: real, sb: real)
    requires s > 0.0 && sa == s * a && sb == s * b
    ensures a <= b ==> sa <= sb
    ensures a < b ==> sa < sb
  {
    var gap := s * (b - a);
    assert gap == sb - sa;
    assert b > a ==> gap > 0.0;
  }

  lemma DelayIs(attempt: nat, nanos: nat, secs: real)
    requires attempt >= 1
    requires secs == Min(BASE_RETRY_DELAY_SECS * Pow2(attempt - 1), MAX_RETRY_DELAY_SECS) as real
    ensures Delay(attempt, nanos) == secs * Jitter(nanos) && secs > 0.0
  {
    BackoffIsCappedDoubling(attempt);
    Pow2Mono(attempt - 1, attempt - 1);
  }

  lemma Scaled(s: real, j: real, d: real, small: bool)
    requires s > 0.0 && 0.8 <= j <= 1.2 && (small ==> j < 0.9) && d == s * j
    ensures 0.8 * s <= d <= 1.2 * s
    ensures small ==> d < 0.9 * s
  {
    ScaleUp(s, 0.8, j, 0.8 * s, d);
    ScaleUp(s, j, 1.2, d, 1.2 * s);
    ScaleUp(s, j, 0.9, d, 0.9 * s);
  }

  /** Any 32-bit entropy keeps the delay within 20% of the backoff; a sub-second clock keeps it below 90% of it. */
  lemma DelayBounds(attempt: nat, nanos: nat, secs: real)
    requires attempt >= 1 && nanos <= U32_MAX
    requires secs == Min(BASE_RETRY_DELAY_SECS * Pow2(attempt - 1), MAX_RETRY_DELAY_SECS) as real
    ensures 0.8 * secs <= Delay(attempt, nanos) <= 1.2 * secs
    ensures nanos < 1_000_000_000 ==> Delay(attempt, nanos) < 0.9 * secs
  {
    DelayIs(attempt, nanos, secs);
    JitterBounds(nanos);
    Scaled(secs, Jitter(nanos), Delay(attempt, nanos), nanos < 1_000_000_000);
  }

  // ---- the retry cycle of one channel ----

  /** Where channel `c` is: `k` counts the times its batch was put back so far. */
  datatype Phase = Idle(k: nat) | Flying(k: nat) | Thrown(k: nat) | Dead

  /**
   Anything that may happen around the retry cycle of `c`: pushes to any channel,
   every operation on other channels, compaction, deadline extensions and releases.
   */
  ghost predicate Bystander(w: World, op: Op, c: Channel)
    requires Legal(w, op)
  {
    !Concerns(w, op, c) || op.PushOp? || op.ReleaseOp? || op.ExtendOp?
  }

  ghost predicate RequeuesOf(w: World, op: Op, c: Channel)
    requires Legal(w, op)
  {
    op.RequeueOp? && w.out[op.i].channel == c
  }

  /** Each flush of `c` ends in a requeue, and the completion after it comes while the throttle is active. */
  ghost function Advance(w: World, op: Op, c: Channel, ph: Phase): Option<Phase>
    requires Legal(w, op)
  {
    if Bystander(w, op, c) && !ph.Dead? then Some(ph)
    else if ph.Idle? && op.FlushOp? && op.pick == c && c !in Expired(w.q, op.now) then Some(Flying(ph.k))
    else if ph.Flying? && RequeuesOf(w, op, c) then Some(if ph.k < MAX_RETRIES then Thrown(ph.k + 1) else Dead)
    else if ph.Thrown? && op.CompleteOp? && op.c == c && c in w.q.retryAfter && w.q.retryAfter[c] > op.now
    then Some(Idle(ph.k))
    else None
  }

  ghost predicate RetryRun(w: World, ops: seq<Op>, c: Channel, ph: Phase)
    requires LegalRun(w, ops)
    decreases |ops|
  {
    ops == [] ||
    (Advance(w, ops[0], c, ph).Some? && RetryRun(Apply(w, ops[0]), ops[1..], c, Advance(w, ops[0], c, ph).value))
  }

  /** For each requeue of `c` along the run: was the batch put back? */
  ghost function Verdicts(w: World, ops: seq<Op>, c: Channel): seq<bool>
    requires LegalRun(w, ops)
    decreases |ops|
  {
    if ops == [] then []
    else
      var rest := Verdicts(Apply(w, ops[0]), ops[1..], c);
      if RequeuesOf(w, ops[0], c)
      then [Requeue(w.q, w.out[ops[0].i], ops[0].now, ops[0].nanos).1.None?] + rest
      else rest
  }

  ghost predicate Counted(w: World, c: Channel, ph: Phase) {
    && Inv(w)
    && match ph
       case Idle(k) =>
         k <= MAX_RETRIES && Attempts(w.q, c) == k && c !in w.q.inFlight && (k > 0 ==> QueueOf(w.q, c) != [])
       case Flying(k) => k <= MAX_RETRIES && Attempts(w.q, c) == k && c in w.q.inFlight
       case Thrown(k) => 1 <= k <= MAX_RETRIES && Attempts(w.q, c) == k && c in w.q.inFlight && QueueOf(w.q, c) != []
       case Dead => Attempts(w.q, c) == 0
  }

  /** What an operation that is not part of the cycle keeps of `c`. */
  ghost predicate Kept(s: State, s1: State, c: Channel) {
    && (c in s1.inFlight <==> c in s.inFlight)
    && (QueueOf(s, c) != [] ==> QueueOf(s1, c) != [])
    && (QueueOf(s, c) != [] || c in s.inFlight || Attempts(s, c) == 0 ==> Attempts(s1, c) == Attempts(s, c))
  }

  lemma CompactKeeps(s: State, now: Time, c: Channel)
    ensures Kept(s, Compact(s, now), c)
  {
  }

  lemma SteerKeeps(w: World, op: Op, c: Channel)
    requires Legal(w, op) && (op.ReleaseOp? || op.ExtendOp?)
    ensures Kept(w.q, NextState(w, op), c)
  {
  }

  lemma PushKeeps(s: State, e: QueuedEvent, c: Channel)
    ensures Kept(s, Push(s, e).0, c)
  {
  }

  lemma BystanderKeeps(w: World, op: Op, c: Channel)
    requires Inv(w) && Legal(w, op) && Bystander(w, op, c)
    ensures Kept(w.q, NextState(w, op), c)
  {
    if op.PushOp? {
      PushKeeps(w.q, op.e, c);
    } else if op.ReleaseOp? || op.ExtendOp? {
      SteerKeeps(w, op, c);
    } else if op.CompactOp? {
      CompactKeeps(w.q, op.now, c);
    } else {
      Frame(w, op, c);
      assert QueueOf(NextState(w, op), c) == QueueOf(w.q, c);
    }
  }

  lemma FlushKeepsAttempts(w: World, now: Time, c: Channel)
    requires Legal(w, FlushOp(now, c)) && c !in Expired(w.q, now)
    ensures var s := NextState(w, FlushOp(now, c)); c in s.inFlight && Attempts(s, c) == Attempts(w.q, c)
  {
    FrameExpire(w.q, now, c);
  }

  lemma RequeueCounts(s: State, b: FlushBatch, now: Time, nanos: nat)
    requires b.events != []
    ensures var (s1, dead) := Requeue(s, b, now, nanos); var k := Attempts(s, b.channel);
      && (dead.None? <==> k < MAX_RETRIES)
      && (k < MAX_RETRIES ==> Attempts(s1, b.channel) == k + 1 && QueueOf(s1, b.channel) != [])
      && (k >= MAX_RETRIES ==> Attempts(s1, b.channel) == 0)
      && s1.inFlight == s.inFlight
  {
    assert Trim(PutBack(s, b)) != [];
  }

  lemma CompleteKeepsAttempts(s: State, c: Channel, now: Time)
    requires c in s.retryAfter && s.retryAfter[c] > now
    ensures var s1 := MarkComplete(s, c, now);
      Attempts(s1, c) == Attempts(s, c) && QueueOf(s1, c) == QueueOf(s, c) && c !in s1.inFlight
  {
  }

  lemma CountedBystander(w: World, op: Op, c: Channel, ph: Phase)
    requires Counted(w, c, ph) && !ph.Dead? && Legal(w, op) && Bystander(w, op, c)
    ensures Counted(Apply(w, op), c, ph)
  {
    InvStep(w, op);
    BystanderKeeps(w, op, c);
  }

  lemma CountedStep(w: World, op: Op, c: Channel, ph: Phase)
    requires Counted(w, c, ph) && Legal(w, op) && Advance(w, op, c, ph).Some?
    ensures Counted(Apply(w, op), c, Advance(w, op, c, ph).value)
  {
    if Bystander(w, op, c) {
      CountedBystander(w, op, c, ph);
      return;
    }
    InvStep(w, op);
    if op.FlushOp? {
      FlushKeepsAttempts(w, op.now, c);
    } else if op.RequeueOp? {
      RequeueCounts(w.q, w.out[op.i], op.now, op.nanos);
    } else {
      CompleteKeepsAttempts(w.q, c, op.now);
    }
  }

  /**
   Retry bound. From phase count `k`, the i-th requeue of `c` puts the batch back
   exactly while k + i is below ten, whatever else happens in between.
   */
  lemma {:induction false} VerdictsFrom(w: World, ops: seq<Op>, c: Channel, ph: Phase)
    requires Counted(w, c, ph) && LegalRun(w, ops) && RetryRun(w, ops, c, ph)
    ensures var v := Verdicts(w, ops, c);
      && (ph.Dead? ==> v == [])
      && (!ph.Dead? ==> |v| <= MAX_RETRIES + 1 - ph.k && forall i :: 0 <= i < |v| ==> v[i] == (ph.k + i < MAX_RETRIES))
    decreases |ops|
  {
    if ops != [] {
      var ph' := Advance(w, ops[0], c, ph).value;
      CountedStep(w, ops[0], c, ph);
      VerdictsFrom(Apply(w, ops[0]), ops[1..], c, ph');
      if RequeuesOf(w, ops[0], c) {
        RequeueIsConcern(w, ops[0], c, ph);
        RequeueCounts(w.q, w.out[ops[0].i], ops[0].now, ops[0].nanos);
        OneMore(ph.k < MAX_RETRIES, Verdicts(Apply(w, ops[0]), ops[1..], c), ph.k);
      } else {
        assert ph' == ph || (!ph'.Dead? && ph'.k == ph.k);
      }
    }
  }

  /** One verdict in front of a well-shaped list of them. */
  lemma OneMore(first: bool, v: seq<bool>, k: nat)
    requires k <= MAX_RETRIES && first == (k < MAX_RETRIES)
    requires k == MAX_RETRIES ==> v == []
    requires k < MAX_RETRIES ==> |v| <= MAX_RETRIES - k
    requires k < MAX_RETRIES ==> forall i :: 0 <= i < |v| ==> v[i] == (k + 1 + i < MAX_RETRIES)
    ensures |[first] + v| <= MAX_RETRIES + 1 - k
    ensures forall i :: 0 <= i < |[first] + v| ==> ([first] + v)[i] == (k + i < MAX_RETRIES)
  {
  }

  lemma RequeueIsConcern(w: World, op: Op, c: Channel, ph: Phase)
    requires Legal(w, op) && RequeuesOf(w, op, c) && Advance(w, op, c, ph).Some?
    ensures ph.Flying? && Advance(w, op, c, ph).value == if ph.k < MAX_RETRIES then Thrown(ph.k + 1) else Dead
  {
  }

  /** From a zero count, ten requeues put the batch back and the eleventh returns it dead-lettered. */
  lemma RetryBound(w: World, ops: seq<Op>, c: Channel)
    requires Inv(w) && c !in w.q.inFlight && Attempts(w.q, c) == 0
    requires LegalRun(w, ops) && RetryRun(w, ops, c, Idle(0))
    ensures var v := Verdicts(w, ops, c);
      |v| <= 11 && forall i :: 0 <= i < |v| ==> v[i] == (i < 10)
  {
    VerdictsFrom(w, ops, c, Idle(0));
  }

  /** A completion with no active throttle clears the retry state, whatever the count was. */
  lemma CompletionClears(w: World, c: Channel, now: Time)
    requires Inv(w) && !QM.ThrottledAt(w.q, c, now)
    ensures var w1 := Apply(w, CompleteOp(c, now));
      Inv(w1) && c !in w1.q.inFlight && Attempts(w1.q, c) == 0 && c !in w1.q.retryAfter
  {
    InvStep(w, CompleteOp(c, now));
    QM.CompletionMeaning(w.q, c, now);
  }

  /** After such a completion a failing batch gets its ten retries again. */
  lemma CompletionRestartsRetries(w: World, c: Channel, now: Time, w1: World, ops: seq<Op>)
    requires Inv(w) && !QM.ThrottledAt(w.q, c, now) && w1 == Apply(w, CompleteOp(c, now))
    requires LegalRun(w1, ops) && RetryRun(w1, ops, c, Idle(0))
    ensures var v := Verdicts(w1, ops, c);
      |v| <= 11 && forall i :: 0 <= i < |v| ==> v[i] == (i < 10)
  {
    CompletionClears(w, c, now);
    RetryBound(w1, ops, c);
  }

  // ---- the delays along a run ----

  /** `d` is within 20% of the backoff of this attempt: five seconds doubled each time, at most 300. */
  ghost predicate Within(d: Time, attempt: nat) {
    attempt >= 1 &&
    var secs := Min(BASE_RETRY_DELAY_SECS * Pow2(attempt - 1), MAX_RETRY_DELAY_SECS) as real;
    0.8 * secs <= d <= 1.2 * secs
  }

  function ThrottledUntil(s: State, c: Channel): Time {
    if c in s.retryAfter then s.retryAfter[c] else 0.0
  }

  ghost predicate PutsBack(w: World, op: Op, c: Channel)
    requires Legal(w, op)
  {
    RequeuesOf(w, op, c) && Requeue(w.q, w.out[op.i], op.now, op.nanos).1.None?
  }

  /** How long one operation holds the channel: nothing, unless it puts a batch of `c` back. */
  ghost function Held(w: World, op: Op, c: Channel): seq<Time>
    requires Legal(w, op)
  {
    if PutsBack(w, op, c) then [ThrottledUntil(NextState(w, op), c) - op.now] else []
  }

  /** For each requeue of `c` that puts its batch back: how long the channel is then held. */
  ghost function Delays(w: World, ops: seq<Op>, c: Channel): seq<Time>
    requires LegalRun(w, ops)
    decreases |ops|
  {
    if ops == [] then [] else Held(w, ops[0], c) + Delays(Apply(w, ops[0]), ops[1..], c)
  }

  predicate Entropy(ops: seq<Op>) {
    forall i :: 0 <= i < |ops| && ops[i].RequeueOp? ==> ops[i].nanos <= U32_MAX
  }

  /**
   A requeue that puts its batch back holds the channel for the delay of its attempt: once its turn
   has ended, the channel is eligible exactly from then on.
   */
  lemma RequeueThrottles(s: State, b: FlushBatch, now: Time, nanos: nat, later: Time)
    requires Requeue(s, b, now, nanos).1.None? && nanos <= U32_MAX
    ensures var s1 := Requeue(s, b, now, nanos).0; var until := ThrottledUntil(s1, b.channel);
      && b.channel in s1.retryAfter
      && Within(until - now, Attempts(s, b.channel) + 1)
      && (later < until ==> !Eligible(s1, later, b.channel))
      && (later >= until && b.channel !in s.inFlight && b.events != [] ==> Eligible(s1, later, b.channel))
  {
    assert b.events != [] ==> Trim(PutBack(s, b)) != [];
    var k := Attempts(s, b.channel);
    DelayBounds(k + 1, nanos, Min(BASE_RETRY_DELAY_SECS * Pow2(k), MAX_RETRY_DELAY_SECS) as real);
  }

  /** The i-th delay fits attempt `k + i + 1`; a dead letter ends the list. */
  ghost predicate AllWithin(ds: seq<Time>, ph: Phase) {
    if ph.Dead? then ds == [] else forall i :: 0 <= i < |ds| ==> Within(ds[i], ph.k + i + 1)
  }

  lemma DelayAhead(first: Time, ds: seq<Time>, ph: Phase, ph': Phase)
    requires !ph.Dead? && !ph'.Dead? && ph'.k == ph.k + 1 && Within(first, ph.k + 1) && AllWithin(ds, ph')
    ensures AllWithin([first] + ds, ph)
  {
    forall i | 0 <= i < |[first] + ds| ensures Within(([first] + ds)[i], ph.k + i + 1) {
      if i > 0 {
        assert ([first] + ds)[i] == ds[i - 1];
      }
    }
  }

  lemma DelayOfRequeue(w: World, op: Op, c: Channel, ph: Phase, ds: seq<Time>)
    requires Counted(w, c, ph) && Legal(w, op) && RequeuesOf(w, op, c) && op.nanos <= U32_MAX
    requires Advance(w, op, c, ph).Some? && AllWithin(ds, Advance(w, op, c, ph).value)
    ensures AllWithin(Held(w, op, c) + ds, ph)
  {
    RequeueIsConcern(w, op, c, ph);
    RequeueCounts(w.q, w.out[op.i], op.now, op.nanos);
    if PutsBack(w, op, c) {
      RequeueThrottles(w.q, w.out[op.i], op.now, op.nanos, op.now);
      DelayAhead(ThrottledUntil(NextState(w, op), c) - op.now, ds, ph, Advance(w, op, c, ph).value);
    } else {
      assert [] + ds == ds;
    }
  }

  lemma CountKept(w: World, op: Op, c: Channel, ph: Phase)
    requires Legal(w, op) && !RequeuesOf(w, op, c) && Advance(w, op, c, ph).Some?
    ensures var ph' := Advance(w, op, c, ph).value; !ph.Dead? && !ph'.Dead? && ph'.k == ph.k
  {
  }

  /** One operation in front of the rest of the run. */
  lemma DelayAt(w: World, op: Op, c: Channel, ph: Phase, ds: seq<Time>)
    requires Counted(w, c, ph) && Legal(w, op) && (op.RequeueOp? ==> op.nanos <= U32_MAX)
    requires Advance(w, op, c, ph).Some? && AllWithin(ds, Advance(w, op, c, ph).value)
    ensures AllWithin(Held(w, op, c) + ds, ph)
  {
    if RequeuesOf(w, op, c) {
      DelayOfRequeue(w, op, c, ph, ds);
    } else {
      CountKept(w, op, c, ph);
      assert [] + ds == ds;
    }
  }

  lemma EntropyRest(ops: seq<Op>)
    requires Entropy(ops) && ops != []
    ensures Entropy(ops[1..]) && (ops[0].RequeueOp? ==> ops[0].nanos <= U32_MAX)
  {
    assert forall i :: 0 <= i < |ops[1..]| ==> ops[1..][i] == ops[i + 1];
  }

  /** Along a retry run the i-th hold is within 20% of the i-th capped doubling. */
  lemma {:induction false} DelaysAlong(w: World, ops: seq<Op>, c: Channel, ph: Phase)
    requires Counted(w, c, ph) && LegalRun(w, ops) && RetryRun(w, ops, c, ph) && Entropy(ops)
    ensures AllWithin(Delays(w, ops, c), ph)
    decreases |ops|
  {
    if ops != [] {
      var op, rest := ops[0], ops[1..];
      CountedStep(w, op, c, ph);
      EntropyRest(ops);
      DelaysAlong(Apply(w, op), rest, c, Advance(w, op, c, ph).value);
      DelayAt(w, op, c, ph, Delays(Apply(w, op), rest, c));
    }
  }
}
