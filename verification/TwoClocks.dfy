/**
 Two clocks watch one turn: the read loop's hard deadline and the queue's in-flight
 deadline. The queue's must never fire first while the turn runs or drains.
 */
module TwoClocks {
  import opened Basics
  import opened Events
  import opened QueueModel
  import opened QueueRuns
  import S = Scheduling
  import R = ReadLoop

  /** Bounds on: flush to prompt, ack to its handling, and how late an iteration may end past its deadline. */
  datatype Delays = Delays(dispatch: Time, ack: Time, step: Time)

  const CLEANUP_SECS: Time := 30.0
  const GRACE_SECS: Time := 5.0

  /** The delays and the cancel drain fit into the 100 second buffer. */
  predicate Fits(dl: Delays) {
    && dl.dispatch >= 0.0 && dl.ack >= 0.0 && dl.step >= 0.0
    && dl.dispatch + dl.ack + 3.0 * dl.step + CLEANUP_SECS < IN_FLIGHT_DEADLINE_BUFFER_SECS as real
  }

  /** `cancel_with_cleanup`: inherit the stored hard deadline, but grant at least 30 seconds. */
  function CleanupDeadline(stored: Option<Time>, now: Time): Time {
    if stored.Some? && stored.value > now + CLEANUP_SECS then stored.value else now + CLEANUP_SECS
  }

  /** The later of the inherited deadline and 30 seconds from now. */
  lemma CleanupMeaning(stored: Option<Time>, now: Time)
    ensures var d := CleanupDeadline(stored, now);
      && d >= now + 30.0 && (stored.Some? ==> d >= stored.value)
      && (d == now + 30.0 || stored == Some(d))
  {
  }

  datatype Phase = Running(loop: R.Loop) | TimedOut(at: Time, stored: Option<Time>) | Draining(loop: R.Loop) | Over

  /**
   One turn on a channel, with the whole queue. `unhandled` lists when the successful acks the main
   loop has not handled yet were sent, oldest first; `known` is the hard deadline the queue has heard of.
   */
  datatype Sys = Sys(w: World, phase: Phase, unhandled: seq<Time>, known: Time)

  datatype Act =
    | QueueAct(op: Op, at: Time)
    | LoopIter(it: R.Iter)
    | StartDrain(now: Time, drain: R.Loop)
    | Interrupt(now: Time, drain: R.Loop)
    | DrainIter(it: R.Iter)
    | AckHandled(now: Time)

  function Max(a: Time, b: Time): Time {
    if a >= b then a else b
  }

  predicate Succeeds(loop: R.Loop, it: R.Iter) {
    var e := R.Step(loop, it);
    |e.acks| > |loop.acks| && e.acks[|loop.acks|].ack == R.Success
  }

  /** When the loop ran: `it` ends at most `step` after the deadline it started under. */
  predicate EndsInTime(loop: R.Loop, it: R.Iter, dl: Delays) {
    it.check <= R.NextDeadline(loop) + dl.step && it.late <= R.NextDeadline(loop) + dl.step
  }

  /** A queue call at `at` happens while the turn is where `phase` says. */
  predicate During(p: Phase, at: Time, dl: Delays) {
    match p
    case Running(loop) => at <= R.NextDeadline(loop) + dl.step
    case TimedOut(e, _) => at <= e + dl.step
    case Draining(loop) => at <= R.NextDeadline(loop) + dl.step
    case Over => true
  }

  function ClockOf(op: Op): Option<Time> {
    match op
    case FlushOp(now, _) => Some(now)
    case TickOp(now) => Some(now)
    case _ => None
  }

  /** What may happen, and the timing the theorem assumes of it. */
  ghost predicate Enabled(s: Sys, a: Act, c: Channel, dl: Delays) {
    && !s.phase.Over?
    && match a
       case QueueAct(op, at) =>
         && Legal(s.w, op) && !(op.CompleteOp? && op.c == c)
         && (ClockOf(op).Some? ==> ClockOf(op).value == at)
         && During(s.phase, at, dl)
         && (s.unhandled != [] ==> at <= s.unhandled[0] + dl.ack)
       case LoopIter(it) => s.phase.Running? && R.IterOk(s.phase.loop, it) && EndsInTime(s.phase.loop, it, dl)
       case StartDrain(now, drain) =>
         && s.phase.TimedOut? && s.phase.at <= now <= s.phase.at + dl.step
         && drain.exit.None? && drain.pending.None?
         && drain.hardDeadline == CleanupDeadline(s.phase.stored, now)
       case Interrupt(now, drain) =>
         && s.phase.Running? && now <= R.NextDeadline(s.phase.loop) + dl.step
         && drain.exit.None? && drain.pending.None?
         && drain.hardDeadline == now + GRACE_SECS
       case DrainIter(it) =>
         s.phase.Draining? && R.IterOk(s.phase.loop, it) && EndsInTime(s.phase.loop, it, dl) && !it.sel.SteerArm?
       case AckHandled(now) => s.unhandled != [] && now >= s.unhandled[0]
  }

  function AfterIter(loop: R.Loop, it: R.Iter): Phase {
    var e := R.Step(loop, it);
    if e.exit.None? then Running(e)
    else if e.exit.value.IdleTimeout? || e.exit.value.HardTimeout? then TimedOut(R.EndTime(loop, it), e.currentHard)
    else Over
  }

  ghost function Next(s: Sys, a: Act, c: Channel, maxTurn: nat, dl: Delays): Sys
    requires Enabled(s, a, c, dl)
  {
    match a
    case QueueAct(op, _) => s.(w := Apply(s.w, op))
    case LoopIter(it) =>
      s.(phase := AfterIter(s.phase.loop, it),
         unhandled := if Succeeds(s.phase.loop, it) then s.unhandled + [it.late] else s.unhandled)
    case StartDrain(_, drain) => s.(phase := Draining(drain))
    case Interrupt(_, drain) => s.(phase := Draining(drain))
    case DrainIter(it) =>
      var e := R.Step(s.phase.loop, it);
      s.(phase := if e.exit.None? then Draining(e) else Over)
    case AckHandled(now) =>
      Sys(Apply(s.w, ExtendOp(c, maxTurn, now)), s.phase, s.unhandled[1..],
          Max(s.known, s.unhandled[0] + maxTurn as real))
  }

  // ---- the invariant ----

  /** The hard deadline once every unhandled renewal is counted. */
  function Reach(known: Time, us: seq<Time>, m: Time): Time
    decreases |us|
  {
    if us == [] then known else Reach(Max(known, us[0] + m), us[1..], m)
  }

  /** Each renewal came no later than `step` after the deadline it renewed. */
  predicate Chained(known: Time, us: seq<Time>, m: Time, step: Time)
    decreases |us|
  {
    us == [] || (us[0] <= known + step && Chained(Max(known, us[0] + m), us[1..], m, step))
  }

  lemma {:induction false} ReachSnoc(known: Time, us: seq<Time>, x: Time, m: Time)
    ensures Reach(known, us + [x], m) == Max(Reach(known, us, m), x + m)
    decreases |us|
  {
    if us == [] {
      assert (us + [x])[1..] == [];
    } else {
      assert (us + [x])[1..] == us[1..] + [x];
      ReachSnoc(Max(known, us[0] + m), us[1..], x, m);
    }
  }

  lemma {:induction false} ChainedSnoc(known: Time, us: seq<Time>, x: Time, m: Time, step: Time)
    requires Chained(known, us, m, step) && x <= Reach(known, us, m) + step
    ensures Chained(known, us + [x], m, step)
    decreases |us|
  {
    if us == [] {
      assert (us + [x])[1..] == [];
    } else {
      assert (us + [x])[1..] == us[1..] + [x];
      ChainedSnoc(Max(known, us[0] + m), us[1..], x, m, step);
    }
  }

  predicate PhaseInv(p: Phase, reach: Time, m: Time, dl: Delays) {
    match p
    case Running(l) =>
      l.exit.None? && l.maxDuration == m && l.currentHard == Some(l.hardDeadline) && l.hardDeadline <= reach
    case TimedOut(at, stored) => at <= reach + dl.step && stored.Some? && stored.value <= reach
    case Draining(l) => l.exit.None? && l.pending.None? && l.hardDeadline <= reach + 2.0 * dl.step + CLEANUP_SECS
    case Over => true
  }

  ghost predicate TurnInv(s: Sys, c: Channel, maxTurn: nat, dl: Delays) {
    var m := maxTurn as real;
    && Inv(s.w) && c in s.w.q.inFlight && c in s.w.q.deadlines
    && s.w.q.deadlines[c] >= s.known - dl.dispatch + IN_FLIGHT_DEADLINE_BUFFER_SECS as real
    && Chained(s.known, s.unhandled, m, dl.step)
    && PhaseInv(s.phase, Reach(s.known, s.unhandled, m), m, dl)
  }

  /** While the turn runs, waits to drain, or drains, no queue call finds its deadline passed. */
  lemma NotExpired(s: Sys, a: Act, c: Channel, maxTurn: nat, dl: Delays)
    requires Fits(dl) && TurnInv(s, c, maxTurn, dl) && Enabled(s, a, c, dl) && a.QueueAct?
    ensures c !in Expired(s.w.q, a.at)
    ensures !S.Ends(s.w, a.op, c)
  {
    if s.unhandled == [] {
      assert Reach(s.known, s.unhandled, maxTurn as real) == s.known;
    }
  }

  lemma NotRenewed(loop: R.Loop, it: R.Iter)
    requires loop.exit.None? && !(it.check < R.NextDeadline(loop) && R.AnswersSteer(loop, it))
    ensures R.Step(loop, it).hardDeadline == loop.hardDeadline && R.Step(loop, it).currentHard == loop.currentHard
  {
  }

  /** The stored deadline follows the hard one, which moves only on a success, to a full turn from then. */
  lemma RenewedOnSuccess(loop: R.Loop, it: R.Iter)
    requires loop.exit.None? && loop.currentHard == Some(loop.hardDeadline)
    ensures var e := R.Step(loop, it);
      && e.currentHard == Some(e.hardDeadline)
      && e.hardDeadline <= Max(loop.hardDeadline, it.late + loop.maxDuration)
      && (!Succeeds(loop, it) ==> e.hardDeadline <= loop.hardDeadline)
  {
    if it.check < R.NextDeadline(loop) && R.AnswersSteer(loop, it) {
      var m, st := it.sel.read.msg, R.Active(loop, it.act);
      assert R.Step(loop, it) == R.Route(st, m, it.late);
      assert R.Route(st, m, it.late).acks == loop.acks + [R.Answer(loop.pending.value, m)];
    } else {
      NotRenewed(loop, it);
    }
  }

  lemma RunningStep(loop: R.Loop, it: R.Iter, reach: Time, m: Time, dl: Delays)
    requires PhaseInv(Running(loop), reach, m, dl) && R.IterOk(loop, it) && EndsInTime(loop, it, dl) && dl.step >= 0.0
    ensures it.late <= reach + dl.step
    ensures var r := if Succeeds(loop, it) then Max(reach, it.late + m) else reach;
      PhaseInv(AfterIter(loop, it), r, m, dl)
  {
    var e := R.Step(loop, it);
    R.HardDeadlineStep(loop, it, dl.step);
    RenewedOnSuccess(loop, it);
  }

  lemma DrainingStep(loop: R.Loop, it: R.Iter, reach: Time, m: Time, dl: Delays)
    requires PhaseInv(Draining(loop), reach, m, dl) && R.IterOk(loop, it) && !it.sel.SteerArm?
    ensures R.Step(loop, it).exit.None? ==> PhaseInv(Draining(R.Step(loop, it)), reach, m, dl)
  {
  }

  lemma TurnInvQueue(s: Sys, a: Act, c: Channel, maxTurn: nat, dl: Delays)
    requires Fits(dl) && TurnInv(s, c, maxTurn, dl) && Enabled(s, a, c, dl) && a.QueueAct?
    ensures TurnInv(Next(s, a, c, maxTurn, dl), c, maxTurn, dl)
  {
    NotExpired(s, a, c, maxTurn, dl);
    InvStep(s.w, a.op);
    S.InFlightStep(s.w, a.op, c);
  }

  lemma ExtendReaches(s: State, c: Channel, maxTurn: nat, now: Time)
    requires c in s.deadlines
    ensures var t := Extend(s, c, maxTurn, now);
      && t.inFlight == s.inFlight && c in t.deadlines
      && t.deadlines[c] >= s.deadlines[c]
      && t.deadlines[c] >= now + maxTurn as real + IN_FLIGHT_DEADLINE_BUFFER_SECS as real
  {
    var extended := now + (maxTurn + IN_FLIGHT_DEADLINE_BUFFER_SECS) as real;
    var t := Extend(s, c, maxTurn, now);
    assert t == s.(deadlines := t.deadlines);
    assert t.deadlines == if extended > s.deadlines[c] then s.deadlines[c := extended] else s.deadlines;
  }

  lemma ExtendedDeadline(w: World, c: Channel, maxTurn: nat, now: Time)
    requires Inv(w) && c in w.q.inFlight && c in w.q.deadlines
    ensures var w' := Apply(w, ExtendOp(c, maxTurn, now));
      && Inv(w') && c in w'.q.inFlight && c in w'.q.deadlines
      && w'.q.deadlines[c] >= w.q.deadlines[c]
      && w'.q.deadlines[c] >= now + maxTurn as real + IN_FLIGHT_DEADLINE_BUFFER_SECS as real
  {
    InvStep(w, ExtendOp(c, maxTurn, now));
    ExtendReaches(w.q, c, maxTurn, now);
  }

  lemma TurnInvStep(s: Sys, a: Act, c: Channel, maxTurn: nat, dl: Delays)
    requires Fits(dl) && TurnInv(s, c, maxTurn, dl) && Enabled(s, a, c, dl)
    ensures TurnInv(Next(s, a, c, maxTurn, dl), c, maxTurn, dl)
  {
    var m := maxTurn as real;
    var reach := Reach(s.known, s.unhandled, m);
    match a
    case QueueAct(_, _) => TurnInvQueue(s, a, c, maxTurn, dl);
    case LoopIter(it) =>
      RunningStep(s.phase.loop, it, reach, m, dl);
      ReachSnoc(s.known, s.unhandled, it.late, m);
      ChainedSnoc(s.known, s.unhandled, it.late, m, dl.step);
    case StartDrain(_, _) =>
    case Interrupt(_, _) =>
    case DrainIter(it) => DrainingStep(s.phase.loop, it, reach, m, dl);
    case AckHandled(now) => ExtendedDeadline(s.w, c, maxTurn, now);
  }

  // ---- whole turns ----

  ghost predicate TurnRun(s: Sys, acts: seq<Act>, c: Channel, maxTurn: nat, dl: Delays)
    decreases |acts|
  {
    acts == [] || (Enabled(s, acts[0], c, dl) && TurnRun(Next(s, acts[0], c, maxTurn, dl), acts[1..], c, maxTurn, dl))
  }

  /** No queue call of the run expires the turn, and no flush of the run picks its channel. */
  ghost predicate Exclusive(s: Sys, acts: seq<Act>, c: Channel, maxTurn: nat, dl: Delays)
    requires TurnRun(s, acts, c, maxTurn, dl)
    decreases |acts|
  {
    acts == [] ||
    (&& (acts[0].QueueAct? ==> c !in Expired(s.w.q, acts[0].at))
     && (acts[0].QueueAct? && acts[0].op.FlushOp? ==> acts[0].op.pick != c)
     && Exclusive(Next(s, acts[0], c, maxTurn, dl), acts[1..], c, maxTurn, dl))
  }

  lemma {:induction false} ExclusiveFrom(s: Sys, acts: seq<Act>, c: Channel, maxTurn: nat, dl: Delays)
    requires Fits(dl) && TurnInv(s, c, maxTurn, dl) && TurnRun(s, acts, c, maxTurn, dl)
    ensures Exclusive(s, acts, c, maxTurn, dl)
    decreases |acts|
  {
    if acts != [] {
      if acts[0].QueueAct? {
        NotExpired(s, acts[0], c, maxTurn, dl);
        S.InFlightStep(s.w, acts[0].op, c);
      }
      TurnInvStep(s, acts[0], c, maxTurn, dl);
      ExclusiveFrom(Next(s, acts[0], c, maxTurn, dl), acts[1..], c, maxTurn, dl);
    }
  }

  lemma StartDeadline(w: World, c: Channel, flushed: Time, maxTurn: nat)
    requires Inv(w) && Legal(w, FlushOp(flushed, c))
    requires w.q.inFlightDeadline == (maxTurn + IN_FLIGHT_DEADLINE_BUFFER_SECS) as real
    ensures var w' := Apply(w, FlushOp(flushed, c));
      && Inv(w') && c in w'.q.inFlight && c in w'.q.deadlines
      && w'.q.deadlines[c] == flushed + maxTurn as real + IN_FLIGHT_DEADLINE_BUFFER_SECS as real
  {
    InvStep(w, FlushOp(flushed, c));
    S.FlushStartsTurn(w, flushed, c);
  }

  lemma StartInv(w: World, c: Channel, flushed: Time, started: Time, loop: R.Loop, s0: Sys, maxTurn: nat, dl: Delays)
    requires Fits(dl) && Inv(w) && Legal(w, FlushOp(flushed, c))
    requires w.q.inFlightDeadline == (maxTurn + IN_FLIGHT_DEADLINE_BUFFER_SECS) as real
    requires flushed <= started <= flushed + dl.dispatch
    requires loop.exit.None? && loop.maxDuration == maxTurn as real && loop.hardDeadline == started + maxTurn as real
    requires loop.currentHard == Some(loop.hardDeadline)
    requires s0 == Sys(Apply(w, FlushOp(flushed, c)), Running(loop), [], loop.hardDeadline)
    ensures TurnInv(s0, c, maxTurn, dl)
  {
    StartDeadline(w, c, flushed, maxTurn);
    assert Reach(s0.known, [], maxTurn as real) == s0.known;
  }

  /**
   Two-clock ordering. A turn flushed at `flushed`, prompted at `started` within the dispatch delay, and
   given the configured max turn on both clocks, is never auto-expired while it runs or drains, through
   any number of steer renewals and whether it drains after a timeout or a control signal, provided the
   delays and the 30 second drain fit the 100 second buffer. And no flush returns its channel until it
   is over: two turns never run on one channel.
   */
  lemma QueueNeverFiresFirst(w: World, c: Channel, flushed: Time, started: Time, loop: R.Loop, s0: Sys, acts: seq<Act>,
                             maxTurn: nat, dl: Delays)
    requires Fits(dl) && Inv(w) && Legal(w, FlushOp(flushed, c))
    requires w.q.inFlightDeadline == (maxTurn + IN_FLIGHT_DEADLINE_BUFFER_SECS) as real
    requires flushed <= started <= flushed + dl.dispatch
    requires loop.exit.None? && loop.maxDuration == maxTurn as real && loop.hardDeadline == started + maxTurn as real
    requires loop.currentHard == Some(loop.hardDeadline)
    requires s0 == Sys(Apply(w, FlushOp(flushed, c)), Running(loop), [], loop.hardDeadline)
    requires TurnRun(s0, acts, c, maxTurn, dl)
    ensures Exclusive(s0, acts, c, maxTurn, dl)
  {
    StartInv(w, c, flushed, started, loop, s0, maxTurn, dl);
    ExclusiveFrom(s0, acts, c, maxTurn, dl);
  }
}
