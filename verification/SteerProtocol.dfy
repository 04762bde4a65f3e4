/**
 The steer protocol: the queue, the read loops of the running turns, and the acks that
 travel between them, in every interleaving.
 */
module SteerProtocol {
  import opened Basics
  import opened Events
  import opened QueueModel
  import opened QueueRuns
  import C = Conservation
  import R = ReadLoop

  /** A running turn: its read loop, and the steer requests, named by their events, sent to it and not taken yet. */
  datatype Turn = Turn(loop: R.Loop, requests: seq<EventId>)

  /** An ack on its way to the main loop; `None` when the sender was dropped. */
  datatype Mail = Mail(c: Channel, id: EventId, ack: Option<R.Ack>)

  /** `delivered` records the steers whose response positively reported a delivery. */
  datatype Sys = Sys(w: World, turns: map<Channel, Turn>, mail: seq<Mail>, delivered: set<(Channel, EventId)>)

  datatype Act =
    | QueueAct(op: Op)
    | StartTurn(c: Channel, loop: R.Loop)
    | SendSteer(c: Channel, id: EventId)
    | LoopAct(c: Channel, it: R.Iter)
    | StopTurn(c: Channel)
    | HandleAck(i: nat, maxTurnSecs: nat, now: Time)

  /** The queue operations that are not part of the steer path. */
  predicate Ordinary(op: Op) {
    !op.WithholdOp? && !op.ReleaseOp? && !op.RemoveOp? && !op.ExtendOp?
  }

  predicate Takes(t: Turn, it: R.Iter) {
    it.sel.SteerArm? && it.check < R.NextDeadline(t.loop) && t.loop.pending.None?
  }

  ghost predicate Enabled(s: Sys, a: Act) {
    match a
    case QueueAct(op) => Ordinary(op) && Legal(s.w, op)
    case StartTurn(c, loop) =>
      && c !in s.turns && loop.exit.None? && loop.pending.None?
      && loop.taken == [] && loop.acks == [] && loop.dropped == []
    case SendSteer(c, _) => c in s.turns
    case LoopAct(c, it) =>
      && c in s.turns && R.IterOk(s.turns[c].loop, it)
      && (Takes(s.turns[c], it) ==> s.turns[c].requests != [] && it.sel.token == s.turns[c].requests[0])
    case StopTurn(c) => c in s.turns
    case HandleAck(i, _, _) => i < |s.mail|
  }

  /** What an action does to the queue: an ack of success extends and removes, any other answer releases. */
  function QueueOps(s: Sys, a: Act): seq<Op> {
    match a
    case QueueAct(op) => [op]
    case StartTurn(_, _) => []
    case SendSteer(c, id) => [WithholdOp(c, id)]
    case LoopAct(_, _) => []
    case StopTurn(_) => []
    case HandleAck(i, secs, now) =>
      if i < |s.mail| then
        var m := s.mail[i];
        if m.ack == Some(R.Success) then [ExtendOp(m.c, secs, now), RemoveOp(m.c, m.id)] else [ReleaseOp(m.c, m.id)]
      else []
  }

  function AckMail(c: Channel, acks: seq<R.Sent>): seq<Mail> {
    seq(|acks|, i requires 0 <= i < |acks| => Mail(c, acks[i].token, Some(acks[i].ack)))
  }

  function DropMail(c: Channel, ids: seq<EventId>): seq<Mail> {
    seq(|ids|, i requires 0 <= i < |ids| => Mail(c, ids[i], None))
  }

  function NewFrom<T>(before: seq<T>, after: seq<T>): seq<T> {
    if |before| <= |after| then after[|before|..] else []
  }

  /** The iteration reads a response that positively reports the pending steer as delivered. */
  predicate ReportsDelivery(loop: R.Loop, it: R.Iter) {
    && it.check < R.NextDeadline(loop) && R.AnswersSteer(loop, it)
    && R.Delivers(loop.pending.value.transport, it.sel.read.msg)
  }

  function LoopNext(s: Sys, c: Channel, it: R.Iter): Sys
    requires c in s.turns
  {
    var t := s.turns[c];
    var loop := R.Step(t.loop, it);
    var requests := if Takes(t, it) && t.requests != [] then t.requests[1..] else t.requests;
    var mail :=
      s.mail + AckMail(c, NewFrom(t.loop.acks, loop.acks)) + DropMail(c, NewFrom(t.loop.dropped, loop.dropped));
    s.(turns := if loop.exit.Some? then s.turns - {c} else s.turns[c := Turn(loop, requests)],
       mail := if loop.exit.Some? then mail + DropMail(c, requests) else mail,
       delivered :=
         if ReportsDelivery(t.loop, it) then s.delivered + {(c, t.loop.pending.value.token)} else s.delivered)
  }

  /** The request a loop is waiting on, if any. */
  function PendingOf(loop: R.Loop): seq<EventId> {
    if loop.pending.Some? then [loop.pending.value.token] else []
  }

  /** A control signal drops the read loop where it stands: all its senders go with it. */
  function StopNext(s: Sys, c: Channel): Sys
    requires c in s.turns
  {
    s.(turns := s.turns - {c}, mail := s.mail + DropMail(c, PendingOf(s.turns[c].loop) + s.turns[c].requests))
  }

  lemma OpsLegal(s: Sys, a: Act)
    requires Enabled(s, a)
    ensures LegalRun(s.w, QueueOps(s, a))
  {
    var ops := QueueOps(s, a);
    if ops != [] {
      assert Legal(s.w, ops[0]);
      var w1, rest := Apply(s.w, ops[0]), ops[1..];
      if rest != [] {
        assert Legal(w1, rest[0]);
        assert LegalRun(Apply(w1, rest[0]), rest[1..]);
      }
      assert LegalRun(w1, rest);
    }
  }

  ghost function Next(s: Sys, a: Act): Sys
    requires Enabled(s, a)
  {
    OpsLegal(s, a);
    var w := Run(s.w, QueueOps(s, a));
    match a
    case QueueAct(_) => s.(w := w)
    case StartTurn(c, loop) => s.(turns := s.turns[c := Turn(loop, [])])
    case SendSteer(c, id) => s.(w := w, turns := s.turns[c := s.turns[c].(requests := s.turns[c].requests + [id])])
    case LoopAct(c, it) => LoopNext(s, c, it)
    case StopTurn(c) => StopNext(s, c)
    case HandleAck(i, _, _) => s.(w := w, mail := s.mail[..i] + s.mail[i + 1..])
  }

  ghost predicate SysRun(s: Sys, acts: seq<Act>)
    decreases |acts|
  {
    acts == [] || (Enabled(s, acts[0]) && SysRun(Next(s, acts[0]), acts[1..]))
  }

  ghost function SysAfter(s: Sys, acts: seq<Act>): Sys
    requires SysRun(s, acts)
    decreases |acts|
  {
    if acts == [] then s else SysAfter(Next(s, acts[0]), acts[1..])
  }

  /** The queue operations of a run, in order. */
  ghost function Trace(s: Sys, acts: seq<Act>): seq<Op>
    requires SysRun(s, acts)
    decreases |acts|
  {
    if acts == [] then [] else QueueOps(s, acts[0]) + Trace(Next(s, acts[0]), acts[1..])
  }

  lemma WorldStep(s: Sys, a: Act)
    requires Enabled(s, a)
    ensures LegalRun(s.w, QueueOps(s, a)) && Next(s, a).w == Run(s.w, QueueOps(s, a))
  {
    OpsLegal(s, a);
  }

  /** The queue side of every interleaving is a run of the queue. */
  lemma {:induction false} Projects(s: Sys, acts: seq<Act>)
    requires SysRun(s, acts)
    ensures LegalRun(s.w, Trace(s, acts)) && SysAfter(s, acts).w == Run(s.w, Trace(s, acts))
    decreases |acts|
  {
    if acts != [] {
      WorldStep(s, acts[0]);
      Projects(Next(s, acts[0]), acts[1..]);
      RunAppend(s.w, QueueOps(s, acts[0]), Trace(Next(s, acts[0]), acts[1..]));
    }
  }

  // ---- a steered event was delivered ----

  ghost predicate SuccessDelivered(s: Sys) {
    MailOk(s.mail, s.delivered)
  }

  ghost predicate TurnsRunning(s: Sys) {
    forall c :: c in s.turns ==> s.turns[c].loop.exit.None?
  }

  ghost predicate SteeredDelivered(s: Sys, c: Channel, x: EventId) {
    BookOf(s.w, c).steered[x] > 0 ==> (c, x) in s.delivered
  }

  lemma SteeredElsewhere(w: World, op: Op, c: Channel)
    requires Legal(w, op) && HandsBack(op)
    ensures NextBook(w, op, c).steered == BookOf(w, c).steered
  {
  }

  lemma SteeredStep(w: World, op: Op, c: Channel, x: EventId)
    requires Legal(w, op)
    ensures BookOf(Apply(w, op), c).steered[x] > 0 ==> BookOf(w, c).steered[x] > 0 || op == RemoveOp(c, x)
  {
    C.BookAfter(w, op, c);
    if HandsBack(op) {
      SteeredElsewhere(w, op, c);
    } else if !(op.RemoveOp? && op.c == c) {
      assert NextBook(w, op, c).steered == BookOf(w, c).steered;
    }
  }

  lemma SteeredAct(s: Sys, a: Act, c: Channel, x: EventId)
    requires Enabled(s, a) && SuccessDelivered(s) && SteeredDelivered(s, c, x)
    ensures BookOf(Next(s, a).w, c).steered[x] > 0 ==> (c, x) in s.delivered
  {
    WorldStep(s, a);
    var ops := QueueOps(s, a);
    if |ops| == 1 {
      assert ops == [ops[0]];
      RunOne(s.w, ops[0]);
      SteeredStep(s.w, ops[0], c, x);
    } else if |ops| == 2 {
      var w1 := Apply(s.w, ops[0]);
      assert ops[1..] == [ops[1]];
      RunOne(w1, ops[1]);
      SteeredStep(s.w, ops[0], c, x);
      SteeredStep(w1, ops[1], c, x);
    }
  }

  /** Every success in the mail belongs to a delivered steer. */
  ghost predicate MailOk(mail: seq<Mail>, delivered: set<(Channel, EventId)>) {
    forall i :: 0 <= i < |mail| && mail[i].ack == Some(R.Success) ==> (mail[i].c, mail[i].id) in delivered
  }

  lemma MailOkAppend(a: seq<Mail>, b: seq<Mail>, delivered: set<(Channel, EventId)>, more: set<(Channel, EventId)>)
    requires MailOk(a, delivered) && delivered <= more && MailOk(b, more)
    ensures MailOk(a + b, more)
  {
  }

  lemma AcksOk(c: Channel, loop: R.Loop, it: R.Iter, more: set<(Channel, EventId)>)
    requires loop.exit.None? && R.IterOk(loop, it)
    requires ReportsDelivery(loop, it) ==> (c, loop.pending.value.token) in more
    ensures MailOk(AckMail(c, NewFrom(loop.acks, R.Step(loop, it).acks)), more)
  {
    R.SuccessMeansDelivered(loop, it);
    var acks := R.Step(loop, it).acks;
    var news := NewFrom(loop.acks, acks);
    assert |news| > 0 ==> news[0] == acks[|loop.acks|];
  }

  lemma MailAfterLoop(s: Sys, c: Channel, it: R.Iter)
    requires Enabled(s, LoopAct(c, it)) && SuccessDelivered(s) && TurnsRunning(s)
    ensures SuccessDelivered(LoopNext(s, c, it))
  {
    var t, s' := s.turns[c], LoopNext(s, c, it);
    var e := R.Step(t.loop, it);
    var acks, drops := AckMail(c, NewFrom(t.loop.acks, e.acks)), DropMail(c, NewFrom(t.loop.dropped, e.dropped));
    AcksOk(c, t.loop, it, s'.delivered);
    MailOkAppend(s.mail, acks, s.delivered, s'.delivered);
    MailOkAppend(s.mail + acks, drops, s'.delivered, s'.delivered);
    if e.exit.Some? {
      var requests := if Takes(t, it) && t.requests != [] then t.requests[1..] else t.requests;
      MailOkAppend(s.mail + acks + drops, DropMail(c, requests), s'.delivered, s'.delivered);
    }
  }

  lemma StoppedMail(s: Sys, c: Channel)
    requires SuccessDelivered(s) && c in s.turns
    ensures SuccessDelivered(StopNext(s, c))
  {
    var ids := PendingOf(s.turns[c].loop) + s.turns[c].requests;
    MailOkAppend(s.mail, DropMail(c, ids), s.delivered, s.delivered);
  }

  lemma InvariantAct(s: Sys, a: Act)
    requires Enabled(s, a) && SuccessDelivered(s) && TurnsRunning(s)
    ensures SuccessDelivered(Next(s, a)) && TurnsRunning(Next(s, a)) && s.delivered <= Next(s, a).delivered
  {
    if a.LoopAct? {
      MailAfterLoop(s, a.c, a.it);
    } else if a.StopTurn? {
      StoppedMail(s, a.c);
    }
  }

  /**
   The steer path deletes an event only after a goose success or an ACP outcome of injected or
   startedNewTurn for that event, in every interleaving.
   */
  lemma {:induction false} DeletedOnlyIfDelivered(s: Sys, acts: seq<Act>, c: Channel, x: EventId)
    requires SysRun(s, acts) && SuccessDelivered(s) && TurnsRunning(s) && SteeredDelivered(s, c, x)
    ensures SteeredDelivered(SysAfter(s, acts), c, x)
    decreases |acts|
  {
    if acts != [] {
      SteeredAct(s, acts[0], c, x);
      InvariantAct(s, acts[0]);
      DeletedOnlyIfDelivered(Next(s, acts[0]), acts[1..], c, x);
    }
  }

  // ---- a withheld event stays withheld ----

  ghost predicate Withheld(w: World, c: Channel, x: EventId) {
    QSet(WithheldOf(w.q, c))[x] > 0
  }

  /** The operation may take `x` out of the side table: its answer arrives, its channel is drained or expires. */
  ghost predicate Recovers(w: World, op: Op, c: Channel, x: EventId) {
    || ((op.ReleaseOp? || op.RemoveOp?) && op.c == c && op.id == x)
    || (op.DrainOp? && op.c == c)
    || ((op.FlushOp? || op.TickOp?) && c in Expired(w.q, op.now))
  }

  lemma ReleaseOthers(s: State, c: Channel, id: EventId, x: EventId)
    requires id != x
    ensures QSet(WithheldOf(Release(s, c, id), c))[x] == QSet(WithheldOf(s, c))[x]
  {
    var w := WithheldOf(s, c);
    var k := FirstIndex(w, id);
    if k < |w| {
      QIdsRemoveAt(w, k);
      C.LookupPut(s.withheld, c, RemoveAt(w, k), c);
    }
  }

  lemma RemoveOthers(s: State, c: Channel, id: EventId, x: EventId)
    requires id != x
    ensures QSet(WithheldOf(RemoveEvent(s, c, id), c))[x] == QSet(WithheldOf(s, c))[x]
  {
    CountWithoutId(WithheldOf(s, c), id, x);
    C.LookupPut(s.withheld, c, WithoutId(WithheldOf(s, c), id), c);
    assert WithheldOf(RemoveEvent(s, c, id), c) == WithoutId(WithheldOf(s, c), id);
  }

  lemma WithholdMore(s: State, c: Channel, id: EventId, x: EventId)
    ensures QSet(WithheldOf(Withhold(s, c, id).0, c))[x] >= QSet(WithheldOf(s, c))[x]
  {
    var q := QueueOf(s, c);
    var k := FirstIndex(q, id);
    if k < |q| {
      QIdsAppend(WithheldOf(s, c), [q[k]]);
      assert WithheldOf(Withhold(s, c, id).0, c) == WithheldOf(s, c) + [q[k]];
    }
  }

  /** The operations that never touch the side table. */
  predicate SparesWithheld(op: Op) {
    op.PushOp? || op.CompleteOp? || HandsBack(op) || op.ExtendOp? || op.CompactOp?
  }

  lemma HandBackSpares(s: State, b: FlushBatch, now: Time, nanos: nat, reason: CancelReason)
    ensures Requeue(s, b, now, nanos).0.withheld == s.withheld
    ensures RequeuePreserve(s, b).withheld == s.withheld
    ensures RequeueCancelled(s, b, reason).withheld == s.withheld
  {
  }

  lemma HandedBackSpares(w: World, op: Op)
    requires Legal(w, op) && HandsBack(op)
    ensures NextState(w, op).withheld == w.q.withheld
  {
    if op.RequeueOp? {
      HandBackSpares(w.q, w.out[op.i], op.now, op.nanos, Steer);
    } else if op.PreserveOp? {
      HandBackSpares(w.q, w.out[op.i], 0.0, 0, Steer);
    } else if op.CancelOp? {
      HandBackSpares(w.q, w.out[op.i], 0.0, 0, op.reason);
    }
  }

  lemma PushSpares(s: State, e: QueuedEvent)
    ensures Push(s, e).0.withheld == s.withheld
  {
  }

  lemma Spares(w: World, op: Op)
    requires Legal(w, op) && SparesWithheld(op)
    ensures NextState(w, op).withheld == w.q.withheld
  {
    if HandsBack(op) {
      HandedBackSpares(w, op);
    } else if op.PushOp? {
      PushSpares(w.q, op.e);
    } else if op.CompleteOp? {
      assert NextState(w, op) == MarkComplete(w.q, op.c, op.now);
    } else if op.ExtendOp? {
      assert NextState(w, op) == Extend(w.q, op.c, op.secs, op.now);
    } else {
      assert NextState(w, op) == Compact(w.q, op.now);
    }
  }

  lemma WithheldStep(w: World, op: Op, c: Channel, x: EventId)
    requires Legal(w, op) && Withheld(w, c, x) && !Recovers(w, op, c, x)
    ensures Withheld(Apply(w, op), c, x)
  {
    if SparesWithheld(op) {
      Spares(w, op);
    } else if !Concerns(w, op, c) {
      Frame(w, op, c);
      assert WithheldOf(NextState(w, op), c) == WithheldOf(w.q, c);
    } else if op.ReleaseOp? {
      ReleaseOthers(w.q, c, op.id, x);
    } else if op.RemoveOp? {
      RemoveOthers(w.q, c, op.id, x);
    } else if op.WithholdOp? {
      WithholdMore(w.q, c, op.id, x);
    } else {
      FrameExpire(w.q, op.now, c);
      FlushKeepsWithheld(Expire(w.q, op.now), op.now, op.pick);
      assert WithheldOf(NextState(w, op), c) == WithheldOf(w.q, c);
    }
  }

  /** A flush that does not recover `x` returns a batch without it. */
  lemma FlushSkips(w: World, op: Op, c: Channel, x: EventId)
    requires Legal(w, op) && op.FlushOp? && C.Single(w, x) && Withheld(w, c, x) && !Recovers(w, op, c, x)
    ensures BSet(Full(Flushed(w, op)))[x] == 0
  {
    var p := op.pick;
    var e := Expire(w.q, op.now);
    C.FlushHeld(e, op.now, p, p, x);
    C.ExpireHeld(w.q, op.now, p, x);
    assert C.Balanced(w, c, x) && C.Balanced(w, p, x);
    if p == c {
      FrameExpire(w.q, op.now, c);
      FlushKeepsWithheld(e, op.now, c);
      assert WithheldOf(FlushAs(e, op.now, c).0, c) == WithheldOf(w.q, c);
    } else {
      assert BookOf(w, c).accepted[x] + BookOf(w, p).accepted[x] <= 1;
    }
  }

  lemma FlushKeepsWithheld(s: State, now: Time, p: Channel)
    ensures FlushAs(s, now, p).0.withheld == s.withheld
  {
    if Eligible(s, now, p) {
      assert FlushQueued(s, now, p).0.withheld == s.withheld;
    } else {
      assert FlushCancelled(s, now, p).0.withheld == s.withheld;
    }
  }

  ghost predicate NoRecovery(w: World, ops: seq<Op>, c: Channel, x: EventId)
    requires LegalRun(w, ops)
    decreases |ops|
  {
    ops == [] || (!Recovers(w, ops[0], c, x) && NoRecovery(Apply(w, ops[0]), ops[1..], c, x))
  }

  /** No flush of the run returns `x`. */
  ghost predicate NeverFlushed(w: World, ops: seq<Op>, x: EventId)
    requires LegalRun(w, ops)
    decreases |ops|
  {
    ops == [] ||
    ((ops[0].FlushOp? ==> BSet(Full(Flushed(w, ops[0])))[x] == 0) && NeverFlushed(Apply(w, ops[0]), ops[1..], x))
  }

  ghost predicate SingleAlong(w: World, ops: seq<Op>, x: EventId)
    requires LegalRun(w, ops)
    decreases |ops|
  {
    C.Single(w, x) && (ops == [] || SingleAlong(Apply(w, ops[0]), ops[1..], x))
  }

  lemma {:induction false} StaysWithheld(w: World, ops: seq<Op>, c: Channel, x: EventId)
    requires LegalRun(w, ops) && SingleAlong(w, ops, x) && Withheld(w, c, x) && NoRecovery(w, ops, c, x)
    ensures Withheld(Run(w, ops), c, x) && NeverFlushed(w, ops, x)
    decreases |ops|
  {
    if ops != [] {
      if ops[0].FlushOp? {
        FlushSkips(w, ops[0], c, x);
      }
      WithheldStep(w, ops[0], c, x);
      StaysWithheld(Apply(w, ops[0]), ops[1..], c, x);
    }
  }

  /** The pushes of `x` still to come: at most one, and none once `x` was accepted. */
  ghost predicate AtMostOnePush(ops: seq<Op>, x: EventId) {
    forall j, k :: 0 <= j < k < |ops| && ops[j].PushOp? && ops[k].PushOp? ==>
      ops[j].e.event.id != x || ops[k].e.event.id != x
  }

  ghost predicate Pristine(w: World, ops: seq<Op>, x: EventId) {
    && C.Single(w, x) && AtMostOnePush(ops, x)
    && (C.NeverPushed(ops, x) || forall c :: BookOf(w, c).accepted[x] == 0)
  }

  predicate Pushes(op: Op, x: EventId) {
    op.PushOp? && op.e.event.id == x
  }

  lemma PushesLeft(ops: seq<Op>, x: EventId)
    requires ops != [] && AtMostOnePush(ops, x)
    ensures AtMostOnePush(ops[1..], x)
    ensures Pushes(ops[0], x) ==> C.NeverPushed(ops[1..], x)
    ensures C.NeverPushed(ops, x) ==> C.NeverPushed(ops[1..], x) && !Pushes(ops[0], x)
  {
    var rest := ops[1..];
    forall k | 0 <= k < |rest| && rest[k].PushOp? ensures Pushes(ops[0], x) ==> rest[k].e.event.id != x {
      assert rest[k] == ops[k + 1];
    }
    forall j, k | 0 <= j < k < |rest| && rest[j].PushOp? && rest[k].PushOp?
      ensures rest[j].e.event.id != x || rest[k].e.event.id != x {
      assert rest[j] == ops[j + 1] && rest[k] == ops[k + 1];
    }
  }

  lemma BalancedAll(w: World, op: Op, w1: World, x: EventId)
    requires Legal(w, op) && w1 == Apply(w, op) && C.Single(w, x)
    ensures forall c :: C.Balanced(w1, c, x)
  {
    forall c ensures C.Balanced(w1, c, x) {
      C.BalanceStep(w, op, c, x);
    }
  }

  /** Whether the operation makes the queue accept `x` on `c`. */
  predicate Admits(w: World, op: Op, c: Channel, x: EventId) {
    Pushes(op, x) && op.e.channel == c && !Refuses(w.q, c)
  }

  lemma AcceptedAll(w: World, op: Op, w1: World, x: EventId)
    requires Legal(w, op) && w1 == Apply(w, op)
    ensures forall c ::
      BookOf(w1, c).accepted[x] == BookOf(w, c).accepted[x] + (if Admits(w, op, c, x) then 1 else 0)
  {
    forall c
      ensures BookOf(w1, c).accepted[x] == BookOf(w, c).accepted[x] + (if Admits(w, op, c, x) then 1 else 0)
    {
      C.AcceptedStep(w, op, c, x);
    }
  }

  lemma SingleStep(w: World, op: Op, x: EventId)
    requires Legal(w, op) && C.Single(w, x) && (Pushes(op, x) ==> forall c :: BookOf(w, c).accepted[x] == 0)
    ensures C.Single(Apply(w, op), x)
    ensures !Pushes(op, x) ==> forall c :: BookOf(Apply(w, op), c).accepted[x] == BookOf(w, c).accepted[x]
  {
    BalancedAll(w, op, Apply(w, op), x);
    AcceptedAll(w, op, Apply(w, op), x);
  }

  lemma PristineStep(w: World, ops: seq<Op>, x: EventId)
    requires ops != [] && Legal(w, ops[0]) && Pristine(w, ops, x)
    ensures Pristine(Apply(w, ops[0]), ops[1..], x)
  {
    PushesLeft(ops, x);
    SingleStep(w, ops[0], x);
  }

  lemma {:induction false} PristineRun(w: World, pre: seq<Op>, ops: seq<Op>, x: EventId)
    requires LegalRun(w, pre) && Pristine(w, pre + ops, x)
    ensures Pristine(Run(w, pre), ops, x)
    decreases |pre|
  {
    if pre == [] {
      assert pre + ops == ops;
    } else {
      var w1, rest := Apply(w, pre[0]), pre[1..];
      assert (pre + ops)[1..] == rest + ops && (pre + ops)[0] == pre[0];
      PristineStep(w, pre + ops, x);
      assert Run(w, pre) == Run(w1, rest);
      PristineRun(w1, rest, ops, x);
    }
  }

  lemma {:induction false} PristineAlong(w: World, ops: seq<Op>, x: EventId)
    requires LegalRun(w, ops) && Pristine(w, ops, x)
    ensures SingleAlong(w, ops, x)
    decreases |ops|
  {
    if ops != [] {
      PristineStep(w, ops, x);
      PristineAlong(Apply(w, ops[0]), ops[1..], x);
    }
  }

  lemma EmptyIsPristine(w0: World, ops: seq<Op>, x: EventId)
    requires C.Empty(w0) && C.DistinctPushes(ops)
    ensures Pristine(w0, ops, x)
  {
    assert LegalRun(w0, []) && Run(w0, []) == w0;
    C.SingleRun(w0, [], x);
    assert forall c :: BookOf(w0, c) == BLANK;
  }

  /**
   From the moment an event is withheld, as long as no answer for it arrives and its channel is
   neither drained nor expired, it stays withheld and no flush returns it. `pre` is the history
   that led to `w`; ids are distinct.
   */
  lemma WithheldUntilReleased(w0: World, pre: seq<Op>, w: World, ops: seq<Op>, c: Channel, x: EventId)
    requires C.Empty(w0) && LegalRun(w0, pre) && w == Run(w0, pre) && LegalRun(w, ops) && C.DistinctPushes(pre + ops)
    requires Withheld(w, c, x) && NoRecovery(w, ops, c, x)
    ensures Withheld(Run(w, ops), c, x) && NeverFlushed(w, ops, x)
  {
    EmptyIsPristine(w0, pre + ops, x);
    PristineRun(w0, pre, ops, x);
    PristineAlong(w, ops, x);
    StaysWithheld(w, ops, c, x);
  }

  /** Along an interleaving: no answer for `x` is handled, and its channel is neither drained nor expired. */
  ghost predicate NoAnswer(s: Sys, acts: seq<Act>, c: Channel, x: EventId)
    requires SysRun(s, acts)
    decreases |acts|
  {
    acts == [] ||
    (&& (acts[0].HandleAck? ==> s.mail[acts[0].i].c != c || s.mail[acts[0].i].id != x)
     && (acts[0].QueueAct? ==> !Recovers(s.w, acts[0].op, c, x))
     && NoAnswer(Next(s, acts[0]), acts[1..], c, x))
  }

  /** A run that recovers nothing, recognized by its first operation. */
  lemma NoRecoveryFirst(w: World, ops: seq<Op>, w1: World, rest: seq<Op>, c: Channel, x: EventId)
    requires ops != [] && rest == ops[1..]
    requires Legal(w, ops[0]) && !Recovers(w, ops[0], c, x) && w1 == Apply(w, ops[0])
    requires LegalRun(w1, rest) && NoRecovery(w1, rest, c, x)
    ensures LegalRun(w, ops) && NoRecovery(w, ops, c, x)
  {
  }

  lemma RunTwo(w: World, op1: Op, op2: Op)
    requires Legal(w, op1) && Legal(Apply(w, op1), op2)
    ensures LegalRun(w, [op1, op2]) && Run(w, [op1, op2]) == Apply(Apply(w, op1), op2)
  {
    RunOne(w, op1);
    RunSnoc(w, [op1], op2);
    assert [op1] + [op2] == [op1, op2];
  }

  lemma {:induction false} NoAnswerNoRecovery(s: Sys, acts: seq<Act>, c: Channel, x: EventId)
    requires SysRun(s, acts) && NoAnswer(s, acts, c, x)
    ensures LegalRun(s.w, Trace(s, acts)) && NoRecovery(s.w, Trace(s, acts), c, x)
    decreases |acts|
  {
    Projects(s, acts);
    if acts != [] {
      var s1, rest := Next(s, acts[0]), acts[1..];
      NoAnswerNoRecovery(s1, rest, c, x);
      Glue(s, acts[0], s1, Trace(s1, rest), c, x);
    }
  }

  lemma TwoInFront(op1: Op, op2: Op, rest: seq<Op>, tail: seq<Op>, ops: seq<Op>)
    requires tail == [op2] + rest && ops == [op1, op2] + rest
    ensures ops != [] && ops[0] == op1 && ops[1..] == tail && tail != [] && tail[0] == op2 && tail[1..] == rest
  {
  }

  lemma NoRecoveryTwo(w: World, op1: Op, w1: World, op2: Op, w2: World, rest: seq<Op>, ops: seq<Op>,
                      c: Channel, x: EventId)
    requires ops == [op1, op2] + rest
    requires Legal(w, op1) && w1 == Apply(w, op1) && !Recovers(w, op1, c, x)
    requires Legal(w1, op2) && w2 == Apply(w1, op2) && !Recovers(w1, op2, c, x)
    requires LegalRun(w2, rest) && NoRecovery(w2, rest, c, x)
    ensures LegalRun(w, ops) && NoRecovery(w, ops, c, x)
  {
    var tail := [op2] + rest;
    TwoInFront(op1, op2, rest, tail, ops);
    NoRecoveryFirst(w1, tail, w2, rest, c, x);
    NoRecoveryFirst(w, ops, w1, tail, c, x);
  }

  lemma NoRecoveryOne(w: World, op: Op, w1: World, rest: seq<Op>, ops: seq<Op>, c: Channel, x: EventId)
    requires ops == [op] + rest
    requires Legal(w, op) && w1 == Apply(w, op) && !Recovers(w, op, c, x)
    requires LegalRun(w1, rest) && NoRecovery(w1, rest, c, x)
    ensures LegalRun(w, ops) && NoRecovery(w, ops, c, x)
  {
    assert ops[0] == op && ops[1..] == rest;
    NoRecoveryFirst(w, ops, w1, rest, c, x);
  }

  /** Handling a success extends and removes. */
  lemma SuccessWorld(s: Sys, i: nat, secs: nat, now: Time) returns (extend: Op, w1: World, remove: Op)
    requires i < |s.mail| && s.mail[i].ack == Some(R.Success)
    ensures extend == ExtendOp(s.mail[i].c, secs, now) && remove == RemoveOp(s.mail[i].c, s.mail[i].id)
    ensures QueueOps(s, HandleAck(i, secs, now)) == [extend, remove]
    ensures Legal(s.w, extend) && w1 == Apply(s.w, extend) && Legal(w1, remove)
    ensures Next(s, HandleAck(i, secs, now)).w == Apply(w1, remove)
  {
    extend, remove := ExtendOp(s.mail[i].c, secs, now), RemoveOp(s.mail[i].c, s.mail[i].id);
    w1 := Apply(s.w, extend);
    RunTwo(s.w, extend, remove);
    WorldStep(s, HandleAck(i, secs, now));
  }

  /** Handling any other answer releases. */
  lemma ReleaseWorld(s: Sys, i: nat, secs: nat, now: Time) returns (release: Op)
    requires i < |s.mail| && s.mail[i].ack != Some(R.Success)
    ensures release == ReleaseOp(s.mail[i].c, s.mail[i].id)
    ensures QueueOps(s, HandleAck(i, secs, now)) == [release]
    ensures Legal(s.w, release) && Next(s, HandleAck(i, secs, now)).w == Apply(s.w, release)
  {
    release := ReleaseOp(s.mail[i].c, s.mail[i].id);
    RunOne(s.w, release);
  }

  lemma GlueSuccess(s: Sys, i: nat, secs: nat, now: Time, w2: World, rest: seq<Op>, ops: seq<Op>,
                    c: Channel, x: EventId)
    requires i < |s.mail| && s.mail[i].ack == Some(R.Success) && (s.mail[i].c != c || s.mail[i].id != x)
    requires w2 == Next(s, HandleAck(i, secs, now)).w && ops == QueueOps(s, HandleAck(i, secs, now)) + rest
    requires LegalRun(w2, rest) && NoRecovery(w2, rest, c, x)
    ensures LegalRun(s.w, ops) && NoRecovery(s.w, ops, c, x)
  {
    var extend, w1, remove := SuccessWorld(s, i, secs, now);
    NoRecoveryTwo(s.w, extend, w1, remove, w2, rest, ops, c, x);
  }

  lemma GlueRelease(s: Sys, i: nat, secs: nat, now: Time, w2: World, rest: seq<Op>, ops: seq<Op>,
                    c: Channel, x: EventId)
    requires i < |s.mail| && s.mail[i].ack != Some(R.Success) && (s.mail[i].c != c || s.mail[i].id != x)
    requires w2 == Next(s, HandleAck(i, secs, now)).w && ops == QueueOps(s, HandleAck(i, secs, now)) + rest
    requires LegalRun(w2, rest) && NoRecovery(w2, rest, c, x)
    ensures LegalRun(s.w, ops) && NoRecovery(s.w, ops, c, x)
  {
    var release := ReleaseWorld(s, i, secs, now);
    NoRecoveryOne(s.w, release, w2, rest, ops, c, x);
  }

  lemma Glue(s: Sys, a: Act, s1: Sys, rest: seq<Op>, c: Channel, x: EventId)
    requires Enabled(s, a) && s1 == Next(s, a) && LegalRun(s1.w, rest) && NoRecovery(s1.w, rest, c, x)
    requires a.HandleAck? ==> s.mail[a.i].c != c || s.mail[a.i].id != x
    requires a.QueueAct? ==> !Recovers(s.w, a.op, c, x)
    ensures LegalRun(s.w, QueueOps(s, a) + rest) && NoRecovery(s.w, QueueOps(s, a) + rest, c, x)
  {
    var ops := QueueOps(s, a);
    if a.HandleAck? && s.mail[a.i].ack == Some(R.Success) {
      GlueSuccess(s, a.i, a.maxTurnSecs, a.now, s1.w, rest, ops + rest, c, x);
    } else if a.HandleAck? {
      GlueRelease(s, a.i, a.maxTurnSecs, a.now, s1.w, rest, ops + rest, c, x);
    } else if a.QueueAct? || a.SendSteer? {
      var op := if a.QueueAct? then a.op else WithholdOp(a.c, a.id);
      RunOne(s.w, op);
      NoRecoveryOne(s.w, op, s1.w, rest, ops + rest, c, x);
    } else {
      assert ops + rest == rest;
    }
  }

  /**
   Composed steer protocol. In every interleaving of queue, read loops and ack handling that
   follows the withholding of `x`, `x` stays withheld and is in no flushed batch until an answer
   for it is handled or its channel is drained or expires. `before` led to `s`; ids are distinct.
   */
  lemma WithheldInEveryInterleaving(s0: Sys, before: seq<Act>, s: Sys, acts: seq<Act>, c: Channel, x: EventId)
    requires C.Empty(s0.w) && SysRun(s0, before) && s == SysAfter(s0, before) && SysRun(s, acts)
    requires C.DistinctPushes(Trace(s0, before) + Trace(s, acts))
    requires Withheld(s.w, c, x) && NoAnswer(s, acts, c, x)
    ensures Withheld(SysAfter(s, acts).w, c, x)
    ensures LegalRun(s.w, Trace(s, acts)) && NeverFlushed(s.w, Trace(s, acts), x)
  {
    Projects(s0, before);
    Projects(s, acts);
    NoAnswerNoRecovery(s, acts, c, x);
    WithheldUntilReleased(s0.w, Trace(s0, before), s.w, Trace(s, acts), c, x);
  }

  /** Only the answer to its own steer releases or removes an event. */
  lemma OnlyItsAnswer(s: Sys, a: Act, k: nat, c: Channel, x: EventId)
    requires Enabled(s, a) && k < |QueueOps(s, a)|
    requires var op := QueueOps(s, a)[k]; (op.ReleaseOp? || op.RemoveOp?) && op.c == c && op.id == x
    ensures a.HandleAck? && s.mail[a.i].c == c && s.mail[a.i].id == x
    ensures QueueOps(s, a)[k].RemoveOp? <==> s.mail[a.i].ack == Some(R.Success)
  {
  }

  /**
   The protocol over whole runs from an empty system with distinct ids: no event is both withheld
   and queued, and every event the steer path deleted had been delivered.
   */
  lemma SteerSafety(s0: Sys, acts: seq<Act>, s: Sys, c: Channel, x: EventId)
    requires C.Empty(s0.w) && s0.turns == map[] && s0.mail == []
    requires SysRun(s0, acts) && s == SysAfter(s0, acts) && C.DistinctPushes(Trace(s0, acts))
    ensures C.CopiesAt(s.w, c, x, C.InSideTable) + C.CopiesAt(s.w, c, x, C.InQueue) <= 1
    ensures C.CopiesAt(s.w, c, x, C.WasSteered) > 0 ==> (c, x) in s.delivered
  {
    NeverBoth(s0, acts, s.w, c, x);
    SteeredIsDelivered(s0, acts, s, c, x);
  }

  lemma SteeredIsDelivered(s0: Sys, acts: seq<Act>, s: Sys, c: Channel, x: EventId)
    requires C.Empty(s0.w) && s0.turns == map[] && s0.mail == []
    requires SysRun(s0, acts) && s == SysAfter(s0, acts)
    ensures SteeredDelivered(s, c, x)
  {
    NothingSteered(s0, c, x);
    DeletedOnlyIfDelivered(s0, acts, c, x);
  }

  lemma NothingSteered(s0: Sys, c: Channel, x: EventId)
    requires C.Empty(s0.w) && s0.turns == map[] && s0.mail == []
    ensures SuccessDelivered(s0) && TurnsRunning(s0) && SteeredDelivered(s0, c, x)
  {
    assert BookOf(s0.w, c) == BLANK;
  }

  lemma NeverBoth(s0: Sys, acts: seq<Act>, w: World, c: Channel, x: EventId)
    requires SysRun(s0, acts) && C.DistinctPushes(Trace(s0, acts)) && C.Empty(s0.w) && w == SysAfter(s0, acts).w
    ensures C.CopiesAt(w, c, x, C.InSideTable) + C.CopiesAt(w, c, x, C.InQueue) <= 1
  {
    Projects(s0, acts);
    C.SingleRun(s0.w, Trace(s0, acts), x);
    C.NoTwoPlaces(w, c, x, C.InSideTable, C.InQueue);
  }
}
