/**
 Every withheld event is answered for: while it is withheld, its turn holds its request, or
 an answer for it is on its way to the main loop.
 */
module SteerAnswers {
  import opened Basics
  import opened Events
  import opened QueueModel
  import opened QueueRuns
  import opened SteerProtocol
  import C = Conservation
  import R = ReadLoop

  predicate Names(m: Mail, c: Channel, x: EventId) {
    m.c == c && m.id == x
  }

  ghost predicate InMail(mail: seq<Mail>, c: Channel, x: EventId) {
    exists i :: 0 <= i < |mail| && Names(mail[i], c, x)
  }

  /** A turn of `c` still has the request: unread in its channel, or written and unanswered. */
  predicate InTurn(t: Turn, x: EventId) {
    x in t.requests || (t.loop.pending.Some? && t.loop.pending.value.token == x)
  }

  /** Somebody will answer for `x`: its turn, or an ack on its way. */
  ghost predicate Tracked(s: Sys, c: Channel, x: EventId) {
    (c in s.turns && InTurn(s.turns[c], x)) || InMail(s.mail, c, x)
  }

  lemma InMailAppend(a: seq<Mail>, b: seq<Mail>, c: Channel, x: EventId)
    ensures InMail(a + b, c, x) <==> InMail(a, c, x) || InMail(b, c, x)
  {
    if i :| 0 <= i < |a| && Names(a[i], c, x) {
      assert Names((a + b)[i], c, x);
    } else if i :| 0 <= i < |b| && Names(b[i], c, x) {
      assert Names((a + b)[|a| + i], c, x);
    }
  }

  lemma InDropMail(c: Channel, ids: seq<EventId>, x: EventId)
    requires x in ids
    ensures InMail(DropMail(c, ids), c, x)
  {
    var i :| 0 <= i < |ids| && ids[i] == x;
    assert Names(DropMail(c, ids)[i], c, x);
  }

  lemma InAckMail(c: Channel, acks: seq<R.Sent>, i: nat)
    requires i < |acks|
    ensures InMail(AckMail(c, acks), c, acks[i].token)
  {
    assert Names(AckMail(c, acks)[i], c, acks[i].token);
  }

  // Withholding is the only way into the side table, and an answer takes the event out of it.

  lemma ReleaseFewer(s: State, c: Channel, id: EventId, x: EventId)
    ensures var n, m := QSet(WithheldOf(s, c))[x], QSet(WithheldOf(Release(s, c, id), c))[x];
      m <= n && (x == id && n <= 1 ==> m == 0)
  {
    var w := WithheldOf(s, c);
    var k := FirstIndex(w, id);
    if k < |w| {
      QIdsRemoveAt(w, k);
      C.LookupPut(s.withheld, c, RemoveAt(w, k), c);
    } else {
      assert forall i :: 0 <= i < |w| ==> QIds(w)[i] != id;
    }
  }

  lemma RemoveFewer(s: State, c: Channel, id: EventId, x: EventId)
    ensures var m := QSet(WithheldOf(RemoveEvent(s, c, id), c))[x];
      m <= QSet(WithheldOf(s, c))[x] && (x == id ==> m == 0)
  {
    CountWithoutId(WithheldOf(s, c), id, x);
    assert WithheldOf(RemoveEvent(s, c, id), c) == WithoutId(WithheldOf(s, c), id);
  }

  lemma WithholdOnlyIt(s: State, c: Channel, id: EventId, x: EventId)
    requires id != x
    ensures QSet(WithheldOf(Withhold(s, c, id).0, c))[x] == QSet(WithheldOf(s, c))[x]
  {
    var q := QueueOf(s, c);
    var k := FirstIndex(q, id);
    if k < |q| {
      QIdsAppend(WithheldOf(s, c), [q[k]]);
      assert QIds([q[k]]) == [id];
      assert WithheldOf(Withhold(s, c, id).0, c) == WithheldOf(s, c) + [q[k]];
    }
  }

  lemma ExpireFewer(s: State, now: Time, c: Channel)
    ensures WithheldOf(Expire(s, now), c) == [] || WithheldOf(Expire(s, now), c) == WithheldOf(s, c)
  {
  }

  /** Copies of `x` in the side table. */
  function Hidden(s: State, c: Channel, x: EventId): nat {
    QSet(WithheldOf(s, c))[x]
  }

  lemma FewerOwn(s: State, op: Op, s1: State, c: Channel, x: EventId)
    requires op == ReleaseOp(c, x) || op == RemoveOp(c, x)
    requires s1 == if op.ReleaseOp? then Release(s, c, x) else RemoveEvent(s, c, x)
    ensures Hidden(s1, c, x) <= Hidden(s, c, x) && (Hidden(s, c, x) <= 1 ==> Hidden(s1, c, x) == 0)
  {
    ReleaseFewer(s, c, x, x);
    RemoveFewer(s, c, x, x);
  }

  lemma FewerSteer(w: World, op: Op, c: Channel, x: EventId)
    requires Legal(w, op) && (op.ReleaseOp? || op.RemoveOp? || op.WithholdOp?) && op.c == c && op != WithholdOp(c, x)
    ensures Hidden(NextState(w, op), c, x) <= Hidden(w.q, c, x)
  {
    var s1 := NextState(w, op);
    if op.ReleaseOp? {
      assert s1 == Release(w.q, c, op.id);
      ReleaseFewer(w.q, c, op.id, x);
    } else if op.RemoveOp? {
      assert s1 == RemoveEvent(w.q, c, op.id);
      RemoveFewer(w.q, c, op.id, x);
    } else {
      assert s1 == Withhold(w.q, c, op.id).0;
      WithholdOnlyIt(w.q, c, op.id, x);
    }
  }

  lemma FewerExpire(w: World, op: Op, c: Channel, x: EventId)
    requires Legal(w, op) && (op.FlushOp? || op.TickOp?)
    ensures Hidden(NextState(w, op), c, x) <= Hidden(w.q, c, x)
  {
    ExpireFewer(w.q, op.now, c);
    assert QIds([]) == [];
    if op.FlushOp? {
      FlushKeepsWithheld(Expire(w.q, op.now), op.now, op.pick);
    }
  }

  lemma Fewer(w: World, op: Op, c: Channel, x: EventId)
    requires Legal(w, op) && op != WithholdOp(c, x)
    ensures Hidden(NextState(w, op), c, x) <= Hidden(w.q, c, x)
  {
    if SparesWithheld(op) {
      Spares(w, op);
    } else if op.FlushOp? || op.TickOp? {
      FewerExpire(w, op, c, x);
    } else if op.c != c {
      Frame(w, op, c);
      assert WithheldOf(NextState(w, op), c) == WithheldOf(w.q, c);
    } else if op.DrainOp? {
      assert WithheldOf(NextState(w, op), c) == [] && QIds([]) == [];
    } else {
      FewerSteer(w, op, c, x);
    }
  }

  lemma WithheldBySteerOnly(w: World, op: Op, c: Channel, x: EventId)
    requires Legal(w, op) && Withheld(Apply(w, op), c, x) && op != WithholdOp(c, x)
    ensures Withheld(w, c, x)
  {
    Fewer(w, op, c, x);
  }

  lemma HiddenOnce(w: World, c: Channel, x: EventId)
    requires C.Single(w, x)
    ensures Hidden(w.q, c, x) <= 1
  {
    assert C.Balanced(w, c, x) && BookOf(w, c).accepted[x] <= 1;
  }

  lemma AnsweredIsOut(w: World, op: Op, c: Channel, x: EventId)
    requires Legal(w, op) && C.Single(w, x) && (op == ReleaseOp(c, x) || op == RemoveOp(c, x))
    ensures !Withheld(Apply(w, op), c, x)
  {
    HiddenOnce(w, c, x);
    FewerOwn(w.q, op, NextState(w, op), c, x);
  }

  /** The request `tok` is still pending after `st` became `e`, or it was answered or dropped. */
  ghost predicate Follows(st: R.Loop, e: R.Loop, tok: EventId) {
    || (e.pending.Some? && e.pending.value.token == tok)
    || (|e.acks| > |st.acks| && e.acks[|st.acks|].token == tok)
    || (|e.dropped| > |st.dropped| && e.dropped[|st.dropped|] == tok)
  }

  ghost predicate Grows(st: R.Loop, e: R.Loop) {
    st.acks <= e.acks && st.dropped <= e.dropped && (e.exit.Some? ==> e.pending.None?)
  }

  lemma LeaveFollows(st: R.Loop, x: R.Exit)
    ensures Grows(st, R.Leave(st, x)) && Grows(st, R.Abandon(st))
    ensures st.pending.Some? ==>
      Follows(st, R.Leave(st, x), st.pending.value.token) && Follows(st, R.Abandon(st), st.pending.value.token)
  {
  }

  lemma DispatchFollows(st: R.Loop, m: R.Msg, late: Time)
    requires st.exit.None?
    ensures var e := R.DispatchMethod(st, m, late);
      Grows(st, e) && (st.pending.Some? ==> Follows(st, e, st.pending.value.token))
  {
    LeaveFollows(st, R.HandlerFailed);
  }

  lemma MessageFollows(st: R.Loop, m: R.Msg, late: Time)
    requires st.exit.None?
    ensures var e := R.OnMessage(st, m, late);
      Grows(st, e) && (st.pending.Some? ==> Follows(st, e, st.pending.value.token))
  {
    if st.pending.Some? && R.IsResponse(m, st.pending.value.id) {
      assert R.OnMessage(st, m, late) == R.Route(st, m, late);
    } else if R.IsResponse(m, st.expected) {
      LeaveFollows(st, if m.error.Some? then R.PromptError(m.error.value) else R.PromptResult);
    } else {
      DispatchFollows(st, m, late);
    }
  }

  lemma ReadFollows(st: R.Loop, r: R.Read, act: Time, late: Time)
    requires st.exit.None?
    ensures var e := R.OnRead(st, r, act, late);
      Grows(st, e) && (st.pending.Some? ==> Follows(st, e, st.pending.value.token))
  {
    match r
    case Json(m) => MessageFollows(R.Active(st, act), m, late);
    case Eof => LeaveFollows(st, R.AgentExited);
    case LineTooLong => LeaveFollows(st, R.Protocol);
    case IoError => LeaveFollows(st, R.Io);
    case BlankLine =>
    case NotJson =>
  }

  /** One iteration keeps, answers or drops the request a loop waits on; one that is taken is kept or answered. */
  lemma StepTracks(st: R.Loop, it: R.Iter)
    requires st.exit.None?
    ensures var e := R.Step(st, it);
      && Grows(st, e)
      && (st.pending.Some? ==> Follows(st, e, st.pending.value.token))
      && (st.pending.None? && it.sel.SteerArm? && it.check < R.NextDeadline(st) ==> Follows(st, e, it.sel.token))
  {
    if it.check >= R.NextDeadline(st) || it.sel.TimerArm? {
      LeaveFollows(st, if R.IdleFirst(st) then R.IdleTimeout else R.HardTimeout);
    } else if it.sel.ReadArm? {
      ReadFollows(st, it.sel.read, it.act, it.late);
    }
  }

  /** What an iteration mails. */
  function NewMail(c: Channel, before: R.Loop, after: R.Loop): seq<Mail> {
    AckMail(c, NewFrom(before.acks, after.acks)) + DropMail(c, NewFrom(before.dropped, after.dropped))
  }

  lemma AckedIsMailed(c: Channel, st: R.Loop, e: R.Loop, x: EventId)
    requires (|e.acks| > |st.acks| && e.acks[|st.acks|].token == x)
          || (|e.dropped| > |st.dropped| && e.dropped[|st.dropped|] == x)
    ensures InMail(NewMail(c, st, e), c, x)
  {
    var acks, drops := NewFrom(st.acks, e.acks), NewFrom(st.dropped, e.dropped);
    InMailAppend(AckMail(c, acks), DropMail(c, drops), c, x);
    if |e.acks| > |st.acks| && e.acks[|st.acks|].token == x {
      InAckMail(c, acks, 0);
    } else {
      assert drops[0] == x;
      InDropMail(c, drops, x);
    }
  }

  /** After an iteration of its turn a request is still with the turn, or mailed. */
  lemma LoopTracks(t: Turn, c: Channel, it: R.Iter, x: EventId, requests: seq<EventId>)
    requires t.loop.exit.None? && InTurn(t, x)
    requires Takes(t, it) ==> t.requests != [] && it.sel.token == t.requests[0] && requests == t.requests[1..]
    requires !Takes(t, it) ==> requests == t.requests
    ensures InTurn(Turn(R.Step(t.loop, it), requests), x) || InMail(NewMail(c, t.loop, R.Step(t.loop, it)), c, x)
  {
    var e := R.Step(t.loop, it);
    StepTracks(t.loop, it);
    if x in t.requests && !(Takes(t, it) && x == t.requests[0]) {
      assert x in requests;
    } else if !(e.pending.Some? && e.pending.value.token == x) {
      AckedIsMailed(c, t.loop, e, x);
    }
  }

  lemma TrackedByLoop(s: Sys, c: Channel, it: R.Iter, x: EventId)
    requires Enabled(s, LoopAct(c, it)) && TurnsRunning(s) && Tracked(s, c, x)
    ensures Tracked(LoopNext(s, c, it), c, x)
  {
    var t, s' := s.turns[c], LoopNext(s, c, it);
    var e := R.Step(t.loop, it);
    var requests := if Takes(t, it) && t.requests != [] then t.requests[1..] else t.requests;
    var news := NewMail(c, t.loop, e);
    Assoc(s.mail, AckMail(c, NewFrom(t.loop.acks, e.acks)), DropMail(c, NewFrom(t.loop.dropped, e.dropped)));
    InMailAppend(s.mail, news, c, x);
    InMailAppend(s.mail + news, DropMail(c, requests), c, x);
    if InTurn(t, x) {
      LoopTracks(t, c, it, x, requests);
      StepTracks(t.loop, it);
      if e.exit.Some? && x in requests {
        InDropMail(c, requests, x);
      }
    }
  }

  /** An iteration only adds mail. */
  lemma LoopAddsMail(s: Sys, d: Channel, it: R.Iter, c: Channel, x: EventId)
    requires d in s.turns && InMail(s.mail, c, x)
    ensures InMail(LoopNext(s, d, it).mail, c, x)
  {
    var t := s.turns[d];
    var e := R.Step(t.loop, it);
    var acks, drops := AckMail(d, NewFrom(t.loop.acks, e.acks)), DropMail(d, NewFrom(t.loop.dropped, e.dropped));
    var requests := if Takes(t, it) && t.requests != [] then t.requests[1..] else t.requests;
    InMailAppend(s.mail, acks, c, x);
    InMailAppend(s.mail + acks, drops, c, x);
    InMailAppend(s.mail + acks + drops, DropMail(d, requests), c, x);
  }

  lemma TrackedElsewhere(s: Sys, d: Channel, it: R.Iter, c: Channel, x: EventId)
    requires d in s.turns && d != c && Tracked(s, c, x)
    ensures Tracked(LoopNext(s, d, it), c, x)
  {
    if InMail(s.mail, c, x) {
      LoopAddsMail(s, d, it, c, x);
    } else {
      assert LoopNext(s, d, it).turns[c] == s.turns[c];
    }
  }

  lemma TrackedByStop(s: Sys, d: Channel, c: Channel, x: EventId)
    requires d in s.turns && Tracked(s, c, x)
    ensures Tracked(StopNext(s, d), c, x)
  {
    var ids := PendingOf(s.turns[d].loop) + s.turns[d].requests;
    InMailAppend(s.mail, DropMail(d, ids), c, x);
    if c in s.turns && InTurn(s.turns[c], x) && c == d {
      InDropMail(d, ids, x);
    }
  }

  /** Handling the mail of another event. */
  lemma TrackedByAck(s: Sys, i: nat, c: Channel, x: EventId)
    requires i < |s.mail| && !Names(s.mail[i], c, x) && InMail(s.mail, c, x)
    ensures InMail(s.mail[..i] + s.mail[i + 1..], c, x)
  {
    var j :| 0 <= j < |s.mail| && Names(s.mail[j], c, x);
    InMailAppend(s.mail[..i], s.mail[i + 1..], c, x);
    if j < i {
      assert Names(s.mail[..i][j], c, x);
    } else {
      assert Names(s.mail[i + 1..][j - i - 1], c, x);
    }
  }

  /** The event is answered for while it is withheld. */
  ghost predicate NotOrphaned(s: Sys, c: Channel, x: EventId) {
    Withheld(s.w, c, x) ==> Tracked(s, c, x)
  }

  lemma NotOrphanedQueue(s: Sys, op: Op, c: Channel, x: EventId)
    requires Ordinary(op) && Legal(s.w, op) && NotOrphaned(s, c, x)
    ensures NotOrphaned(Next(s, QueueAct(op)), c, x)
  {
    var s' := Next(s, QueueAct(op));
    RunOne(s.w, op);
    if Withheld(s'.w, c, x) {
      WithheldBySteerOnly(s.w, op, c, x);
    }
  }

  lemma NotOrphanedSend(s: Sys, d: Channel, id: EventId, c: Channel, x: EventId)
    requires d in s.turns && NotOrphaned(s, c, x)
    ensures NotOrphaned(Next(s, SendSteer(d, id)), c, x)
  {
    var s' := Next(s, SendSteer(d, id));
    RunOne(s.w, WithholdOp(d, id));
    if Withheld(s'.w, c, x) && !(d == c && id == x) {
      WithheldBySteerOnly(s.w, WithholdOp(d, id), c, x);
    }
  }

  lemma AckOps(s: Sys, i: nat, secs: nat, now: Time, c: Channel, x: EventId) returns (w: World, op: Op)
    requires i < |s.mail|
    ensures Legal(w, op) && (op == ReleaseOp(s.mail[i].c, s.mail[i].id) || op == RemoveOp(s.mail[i].c, s.mail[i].id))
    ensures Next(s, HandleAck(i, secs, now)).w == Apply(w, op)
    ensures w == s.w || w == Apply(s.w, ExtendOp(s.mail[i].c, secs, now))
  {
    if s.mail[i].ack == Some(R.Success) {
      var extend;
      extend, w, op := SuccessWorld(s, i, secs, now);
    } else {
      w := s.w;
      op := ReleaseWorld(s, i, secs, now);
    }
  }

  lemma NotOrphanedAck(s: Sys, i: nat, secs: nat, now: Time, c: Channel, x: EventId)
    requires i < |s.mail| && NotOrphaned(s, c, x) && C.Single(s.w, x)
    ensures NotOrphaned(Next(s, HandleAck(i, secs, now)), c, x)
  {
    var s' := Next(s, HandleAck(i, secs, now));
    var w, op := AckOps(s, i, secs, now, c, x);
    var extend := ExtendOp(s.mail[i].c, secs, now);
    SingleStep(s.w, extend, x);
    if Names(s.mail[i], c, x) {
      AnsweredIsOut(w, op, c, x);
    } else if Withheld(s'.w, c, x) {
      WithheldBySteerOnly(w, op, c, x);
      if w != s.w {
        WithheldBySteerOnly(s.w, extend, c, x);
      }
      if InMail(s.mail, c, x) {
        TrackedByAck(s, i, c, x);
      }
    }
  }

  lemma NotOrphanedAct(s: Sys, a: Act, c: Channel, x: EventId)
    requires Enabled(s, a) && TurnsRunning(s) && C.Single(s.w, x) && NotOrphaned(s, c, x)
    ensures NotOrphaned(Next(s, a), c, x)
  {
    match a
    case QueueAct(op) => NotOrphanedQueue(s, op, c, x);
    case StartTurn(_, _) =>
    case SendSteer(d, id) => NotOrphanedSend(s, d, id, c, x);
    case LoopAct(d, it) =>
      if Tracked(s, c, x) {
        if d == c {
          TrackedByLoop(s, c, it, x);
        } else {
          TrackedElsewhere(s, d, it, c, x);
        }
      }
    case StopTurn(d) =>
      if Tracked(s, c, x) {
        TrackedByStop(s, d, c, x);
      }
    case HandleAck(i, secs, now) => NotOrphanedAck(s, i, secs, now, c, x);
  }

  lemma {:induction false} NeverOrphanedFrom(s: Sys, acts: seq<Act>, c: Channel, x: EventId)
    requires SysRun(s, acts) && SuccessDelivered(s) && TurnsRunning(s)
    requires Pristine(s.w, Trace(s, acts), x) && NotOrphaned(s, c, x)
    ensures NotOrphaned(SysAfter(s, acts), c, x)
    decreases |acts|
  {
    if acts != [] {
      NotOrphanedAct(s, acts[0], c, x);
      InvariantAct(s, acts[0]);
      WorldStep(s, acts[0]);
      PristineRun(s.w, QueueOps(s, acts[0]), Trace(Next(s, acts[0]), acts[1..]), x);
      NeverOrphanedFrom(Next(s, acts[0]), acts[1..], c, x);
    }
  }

  /**
   No withheld event is orphaned. In every interleaving from an empty system with distinct ids, a withheld
   event is an unread request or the pending steer of its channel's turn, or an answer for it is on its way.
   */
  lemma NeverOrphaned(s0: Sys, acts: seq<Act>, c: Channel, x: EventId)
    requires C.Empty(s0.w) && s0.turns == map[] && s0.mail == []
    requires SysRun(s0, acts) && C.DistinctPushes(Trace(s0, acts))
    ensures Withheld(SysAfter(s0, acts).w, c, x) ==> Tracked(SysAfter(s0, acts), c, x)
  {
    EmptyIsPristine(s0.w, Trace(s0, acts), x);
    assert WithheldOf(s0.w.q, c) == [] && QIds([]) == [];
    NeverOrphanedFrom(s0, acts, c, x);
  }
}
