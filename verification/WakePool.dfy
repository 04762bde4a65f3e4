/**
 The lazy agent pool: not started, waking, ready, or waiting to retry a failed wake.
 */
module WakePool {
  import opened Basics

  const INITIAL_RETRY_SECS: nat := 5
  const MAX_RETRY_SECS: nat := 300
  const U64_MAX: nat := 18446744073709551615

  datatype State<P> = Listening | Waking(attempt: nat) | Ready(pool: P) | Failed(attempt: nat, retryAt: Time)

  // ---- the retry delay ----

  function SaturatingMul(a: nat, b: nat): nat {
    Min(a * b, U64_MAX)
  }

  /** `retry_delay` with its clamps: the shift stops at 63 and the product at 64 bits. */
  function RetryDelay(attempt: nat): nat {
    var exponent := Min(if attempt == 0 then 0 else attempt - 1, 63);
    Min(SaturatingMul(INITIAL_RETRY_SECS, Pow2(exponent)), MAX_RETRY_SECS)
  }

  /** The clamps never show: the delay is the capped doubling for every attempt. */
  lemma RetryDelayIsCappedDoubling(attempt: nat)
    requires attempt >= 1
    ensures RetryDelay(attempt) == Min(INITIAL_RETRY_SECS * Pow2(attempt - 1), MAX_RETRY_SECS)
  {
    assert Pow2(6) == 64;
    if attempt - 1 >= 6 {
      Pow2Mono(6, attempt - 1);
      Pow2Mono(6, Min(attempt - 1, 63));
    } else {
      Pow2Mono(attempt - 1, 6);
    }
  }

  // ---- transitions ----

  function SaturatingInc(a: nat): nat {
    Min(a + 1, U32_MAX)
  }

  function StartWake<P>(s: State<P>, pendingWork: bool, now: Time): (State<P>, Option<nat>) {
    if !pendingWork then (s, None)
    else
      match s
      case Listening => (Waking(1), Some(1))
      case Failed(a, retryAt) =>
        if now >= retryAt then (Waking(SaturatingInc(a)), Some(SaturatingInc(a))) else (s, None)
      case _ => (s, None)
  }

  function TakeReady<P>(s: State<P>): (State<P>, Option<P>) {
    if s.Ready? then (Listening, Some(s.pool)) else (s, None)
  }

  /** `result`: the pool, or `None` for a failed wake. The flag says whether the result was accepted. */
  function CompleteWake<P>(s: State<P>, attempt: nat, result: Option<P>, now: Time): (State<P>, bool) {
    if s.Waking? && s.attempt == attempt then
      (if result.Some? then Ready(result.value) else Failed(attempt, now + RetryDelay(attempt) as real), true)
    else (s, false)
  }

  class PoolLifecycle<P> {
    var state: State<P>

    constructor ()
      ensures state == Listening
    {
      state := Listening;
    }

    method StartWakeIfDue(pendingWork: bool, now: Time) returns (token: Option<nat>)
      modifies this
      ensures (state, token) == StartWake(old(state), pendingWork, now)
    {
      if !pendingWork {
        return None;
      }
      match state {
        case Listening => token := Some(1);
        case Failed(attempt, retryAt) =>
          token := if now >= retryAt then Some(SaturatingInc(attempt)) else None;
        case Waking(_) => token := None;
        case Ready(_) => token := None;
      }
      if token.Some? {
        state := Waking(token.value);
      }
    }

    method TakeReadyPool() returns (pool: Option<P>)
      modifies this
      ensures (state, pool) == TakeReady(old(state))
    {
      var taken := state;
      state := Listening;
      match taken {
        case Ready(p) => pool := Some(p);
        case _ =>
          state := taken;
          pool := None;
      }
    }

    method Complete(completedAttempt: nat, result: Option<P>, now: Time) returns (accepted: bool)
      modifies this
      ensures (state, accepted) == CompleteWake(old(state), completedAttempt, result, now)
    {
      if !state.Waking? || state.attempt != completedAttempt {
        return false;
      }
      var attempt := state.attempt;
      if result.Some? {
        state := Ready(result.value);
      } else {
        state := Failed(attempt, now + RetryDelay(attempt) as real);
      }
      return true;
    }

    method CancelWake(attempt: nat, now: Time) returns (accepted: bool)
      modifies this
      ensures (state, accepted) == CompleteWake(old(state), attempt, None, now)
    {
      accepted := Complete(attempt, None, now);
    }
  }

  // ---- runs ----

  datatype Op<P> =
    | Start(pendingWork: bool, now: Time)
    | Take
    | Complete(attempt: nat, result: Option<P>, now: Time)

  /** The lifecycle with a tally of what happened, and when the current or last failed wake started. */
  datatype Log<P> = Log(
    s: State<P>,
    starts: nat,
    completions: nat,
    successes: nat,
    taken: nat,
    startedAt: Time,
    clock: Time)

  function Fresh<P>(now: Time): Log<P> {
    Log(Listening, 0, 0, 0, 0, now, now)
  }

  function Do<P>(l: Log<P>, op: Op<P>): Log<P> {
    match op
    case Start(w, now) =>
      var (s, token) := StartWake(l.s, w, now);
      if token.Some? then l.(s := s, starts := l.starts + 1, startedAt := now, clock := now)
      else l.(s := s, clock := now)
    case Take =>
      var (s, pool) := TakeReady(l.s);
      l.(s := s, taken := l.taken + (if pool.Some? then 1 else 0))
    case Complete(a, r, now) =>
      var (s, accepted) := CompleteWake(l.s, a, r, now);
      l.(s := s,
         completions := l.completions + (if accepted then 1 else 0),
         successes := l.successes + (if accepted && r.Some? then 1 else 0),
         clock := now)
  }

  /** The clock never goes back. */
  predicate Monotone<P>(l: Log<P>, op: Op<P>) {
    op.Take? || op.now >= l.clock
  }

  ghost predicate MonotoneRun<P>(l: Log<P>, ops: seq<Op<P>>)
    decreases |ops|
  {
    ops == [] || (Monotone(l, ops[0]) && MonotoneRun(Do(l, ops[0]), ops[1..]))
  }

  function DoAll<P>(l: Log<P>, ops: seq<Op<P>>): Log<P>
    decreases |ops|
  {
    if ops == [] then l else DoAll(Do(l, ops[0]), ops[1..])
  }

  ghost predicate Tallied<P>(l: Log<P>) {
    && l.starts == l.completions + (if l.s.Waking? then 1 else 0)
    && l.successes == l.taken + (if l.s.Ready? then 1 else 0)
    && l.startedAt <= l.clock
    && (l.s.Waking? || l.s.Failed? ==> 1 <= l.s.attempt <= U32_MAX)
    && (l.s.Failed? ==> l.s.retryAt >= l.startedAt + RetryDelay(l.s.attempt) as real)
  }

  /**
   The wake protocol over every run: starts are accepted completions plus the one still waking, accepted
   successes are pools taken plus the one still ready, and a failed wake waits its full delay from its start.
   */
  lemma {:induction false} WakeProtocol<P>(l: Log<P>, ops: seq<Op<P>>)
    requires Tallied(l) && MonotoneRun(l, ops)
    ensures Tallied(DoAll(l, ops))
    decreases |ops|
  {
    if ops != [] {
      WakeProtocol(Do(l, ops[0]), ops[1..]);
    }
  }

  /**
   A retry starts at least the capped-doubling delay after the failed wake started; a rejected
   result changes nothing.
   */
  lemma RetryIsSpaced<P>(l: Log<P>, now: Time, a: nat, r: Option<P>)
    requires Tallied(l)
    ensures l.s.Failed? && StartWake(l.s, true, now).1.Some? ==>
      now >= l.startedAt + Min(INITIAL_RETRY_SECS * Pow2(l.s.attempt - 1), MAX_RETRY_SECS) as real
    ensures !CompleteWake(l.s, a, r, now).1 <==> !(l.s.Waking? && l.s.attempt == a)
    ensures !CompleteWake(l.s, a, r, now).1 ==> CompleteWake(l.s, a, r, now).0 == l.s
  {
    if l.s.Failed? {
      RetryDelayIsCappedDoubling(l.s.attempt);
    }
  }

  /** A wake starts exactly when there is work and no pool is waking or ready and no retry is pending. */
  lemma StartsWhen<P>(s: State<P>, pendingWork: bool, now: Time)
    ensures StartWake(s, pendingWork, now).1.Some? <==>
      pendingWork && (s == Listening || (s.Failed? && s.retryAt <= now))
    ensures StartWake(s, pendingWork, now).1.None? ==> StartWake(s, pendingWork, now).0 == s
    ensures StartWake(s, pendingWork, now).1.Some? ==>
      StartWake(s, pendingWork, now).0 == Waking(StartWake(s, pendingWork, now).1.value)
  {
  }

  /** A completed wake hands its pool over once: the first take gets it, the next gets nothing. */
  lemma TakenOnce<P>(a: nat, pool: P, now: Time)
    ensures var done := CompleteWake(Waking(a), a, Some(pool), now);
      && done.1 && TakeReady(done.0) == (Listening, Some(pool))
      && TakeReady(TakeReady(done.0).0).1 == None
  {
  }

  // ---- stale results ----

  predicate NoTake<P>(ops: seq<Op<P>>) {
    forall i :: 0 <= i < |ops| ==> !ops[i].Take?
  }

  /** Attempt `a` was started earlier in this campaign and is not the current one. */
  ghost predicate Older<P>(s: State<P>, a: nat) {
    match s
    case Waking(b) => a < b
    case Failed(b, _) => a <= b
    case Ready(_) => true
    case Listening => false
  }

  /** A result that arrives now for attempt `a` is accepted. */
  predicate Accepts<P>(s: State<P>, a: nat) {
    s == Waking(a)
  }

  /** The next attempt will carry the number `a` again: the failed one stands at the top of the 32-bit counter. */
  predicate Saturated<P>(s: State<P>, a: nat) {
    s.Failed? && s.attempt == a == U32_MAX
  }

  lemma AcceptedWhen<P>(s: State<P>, a: nat, r: Option<P>, now: Time)
    ensures CompleteWake(s, a, r, now).1 <==> Accepts(s, a)
  {
  }

  /** Without a take, an older attempt stays older, short of saturation. */
  lemma {:induction false} OlderStays<P>(l: Log<P>, ops: seq<Op<P>>, a: nat)
    requires Tallied(l) && MonotoneRun(l, ops) && Older(l.s, a) && NoTake(ops) && !Saturated(l.s, a)
    ensures Older(DoAll(l, ops).s, a) && !Accepts(DoAll(l, ops).s, a)
    decreases |ops|
  {
    if ops != [] {
      OlderStays(Do(l, ops[0]), ops[1..], a);
    }
  }

  /**
   Stale results, exactly: until a pool is taken, no continuation ever accepts the result of an older
   attempt, except that the attempt counter has saturated.
   */
  lemma StaleNeedsTake<P>(l: Log<P>, a: nat)
    requires Tallied(l) && Older(l.s, a)
    ensures (exists ops :: MonotoneRun(l, ops) && NoTake(ops) && Accepts(DoAll(l, ops).s, a)) <==> Saturated(l.s, a)
  {
    if Saturated(l.s, a) {
      var now := if l.clock >= l.s.retryAt then l.clock else l.s.retryAt;
      var ops: seq<Op<P>> := [Start(true, now)];
      DoOne(l, ops[0]);
      assert MonotoneRun(Do(l, ops[0]), ops[1..]);
      assert MonotoneRun(l, ops) && NoTake(ops) && Accepts(DoAll(l, ops).s, a);
    } else {
      forall ops | MonotoneRun(l, ops) && NoTake(ops) ensures !Accepts(DoAll(l, ops).s, a) {
        OlderStays(l, ops, a);
      }
    }
  }

  lemma DoOne<P>(l: Log<P>, op: Op<P>)
    ensures DoAll(l, [op]) == Do(l, op)
    ensures Monotone(l, op) ==> MonotoneRun(l, [op])
  {
    assert [op][1..] == [];
    assert DoAll(Do(l, op), []) == Do(l, op) && MonotoneRun(Do(l, op), []);
  }

  lemma {:induction false} DoAppend<P>(l: Log<P>, a: seq<Op<P>>, b: seq<Op<P>>)
    ensures DoAll(l, a + b) == DoAll(DoAll(l, a), b)
    ensures MonotoneRun(l, a + b) <==> MonotoneRun(l, a) && MonotoneRun(DoAll(l, a), b)
    decreases |a|
  {
    if a == [] {
      assert a + b == b;
    } else {
      assert (a + b)[1..] == a[1..] + b && (a + b)[0] == a[0];
      DoAppend(Do(l, a[0]), a[1..], b);
    }
  }

  /** One more operation at the end of a monotone run. */
  lemma DoSnoc<P>(l: Log<P>, ops: seq<Op<P>>, op: Op<P>)
    requires MonotoneRun(l, ops) && Monotone(DoAll(l, ops), op)
    ensures MonotoneRun(l, ops + [op]) && DoAll(l, ops + [op]) == Do(DoAll(l, ops), op)
  {
    DoOne(DoAll(l, ops), op);
    DoAppend(l, ops, [op]);
  }

  /** A campaign of failures reaches every attempt number. */
  lemma {:induction false} Campaign<P>(l: Log<P>, a: nat) returns (ops: seq<Op<P>>)
    requires l.s.Listening? && 1 <= a <= U32_MAX
    ensures MonotoneRun(l, ops) && DoAll(l, ops).s == Waking(a)
    decreases a
  {
    if a == 1 {
      ops := [Start(true, l.clock)];
      DoOne(l, ops[0]);
    } else {
      ops := Campaign(l, a - 1);
      var l1 := DoAll(l, ops);
      var fail := Complete(a - 1, None, l1.clock);
      DoSnoc(l, ops, fail);
      var l2, retry := Do(l1, fail), Start(true, l1.clock + RetryDelay(a - 1) as real);
      DoSnoc(l, ops + [fail], retry);
      ops := ops + [fail] + [retry];
    }
  }

  /**
   Attempt numbers restart at one once a pool is taken: after a take, a later campaign can reach every
   number again, and then a result of the earlier campaign that carries the number is accepted.
   */
  lemma StaleAcceptedAfterTake<P>(l: Log<P>, a: nat, stale: P, now: Time) returns (ops: seq<Op<P>>)
    requires l.s.Ready? && 1 <= a <= U32_MAX
    ensures MonotoneRun(l, [Take] + ops)
    ensures CompleteWake(DoAll(l, [Take] + ops).s, a, Some(stale), now) == (Ready(stale), true)
  {
    DoOne(l, Take);
    ops := Campaign(Do(l, Take), a);
    DoAppend(l, [Take], ops);
    AcceptedWhen(DoAll(l, [Take] + ops).s, a, Some(stale), now);
  }
}
