/**
 The answer to a steer decides rightly: the main loop removes a steered event if and only if the
 agent reported its delivery, and releases it otherwise.
 */
module SteerVerdicts {
  import opened Basics
  import opened Events
  import opened QueueModel
  import opened QueueRuns
  import opened SteerProtocol
  import opened SteerAnswers
  import L = LoopMeaning
  import R = ReadLoop

  // ---- who holds a request ----

  /** Answers for `x` on `c` on their way. */
  function MailCount(mail: seq<Mail>, c: Channel, x: EventId): nat {
    if mail == [] then 0
    else MailCount(mail[..|mail| - 1], c, x) + (if Names(mail[|mail| - 1], c, x) then 1 else 0)
  }

  lemma MailCountLast(mail: seq<Mail>, m: Mail, c: Channel, x: EventId)
    ensures MailCount(mail + [m], c, x) == MailCount(mail, c, x) + (if Names(m, c, x) then 1 else 0)
  {
    assert (mail + [m])[..|mail|] == mail;
  }

  lemma {:induction false} MailCountAppend(a: seq<Mail>, b: seq<Mail>, c: Channel, x: EventId)
    ensures MailCount(a + b, c, x) == MailCount(a, c, x) + MailCount(b, c, x)
  {
    if b == [] {
      assert a + b == a;
    } else {
      var init, last := b[..|b| - 1], b[|b| - 1];
      assert b == init + [last] && a + b == (a + init) + [last];
      MailCountAppend(a, init, c, x);
      MailCountLast(a + init, last, c, x);
      MailCountLast(init, last, c, x);
    }
  }

  lemma MailCountWithout(mail: seq<Mail>, i: nat, c: Channel, x: EventId)
    requires i < |mail|
    ensures MailCount(mail, c, x) ==
      MailCount(mail[..i] + mail[i + 1..], c, x) + (if Names(mail[i], c, x) then 1 else 0)
  {
    assert mail == (mail[..i] + [mail[i]]) + mail[i + 1..];
    MailCountAppend(mail[..i] + [mail[i]], mail[i + 1..], c, x);
    MailCountLast(mail[..i], mail[i], c, x);
    MailCountAppend(mail[..i], mail[i + 1..], c, x);
  }

  lemma {:induction false} CountAcks(d: Channel, acks: seq<R.Sent>, c: Channel, x: EventId)
    ensures MailCount(AckMail(d, acks), c, x) == if d == c then R.Acks(acks, x) else 0
  {
    if acks != [] {
      var init, last := acks[..|acks| - 1], acks[|acks| - 1];
      CountAcks(d, init, c, x);
      assert AckMail(d, acks) == AckMail(d, init) + [Mail(d, last.token, Some(last.ack))];
      MailCountLast(AckMail(d, init), Mail(d, last.token, Some(last.ack)), c, x);
    }
  }

  lemma {:induction false} CountDrops(d: Channel, ids: seq<EventId>, c: Channel, x: EventId)
    ensures MailCount(DropMail(d, ids), c, x) == if d == c then R.Times(ids, x) else 0
  {
    if ids != [] {
      var init, last := ids[..|ids| - 1], ids[|ids| - 1];
      CountDrops(d, init, c, x);
      assert DropMail(d, ids) == DropMail(d, init) + [Mail(d, last, None)];
      MailCountLast(DropMail(d, init), Mail(d, last, None), c, x);
    }
  }

  lemma {:induction false} NobodyNamed(mail: seq<Mail>, c: Channel, x: EventId, i: nat)
    requires MailCount(mail, c, x) == 0 && i < |mail|
    ensures !Names(mail[i], c, x)
  {
    MailCountWithout(mail, i, c, x);
  }

  lemma {:induction false} TimesSplit(a: seq<EventId>, b: seq<EventId>, x: EventId)
    ensures R.Times(a + b, x) == R.Times(a, x) + R.Times(b, x)
  {
    if b == [] {
      assert a + b == a;
    } else {
      var init, last := b[..|b| - 1], b[|b| - 1];
      assert b == init + [last] && a + b == (a + init) + [last];
      TimesSplit(a, init, x);
      R.TimesAppend(a + init, last, x);
      R.TimesAppend(init, last, x);
    }
  }

  lemma {:induction false} AcksSplit(a: seq<R.Sent>, b: seq<R.Sent>, x: EventId)
    ensures R.Acks(a + b, x) == R.Acks(a, x) + R.Acks(b, x)
  {
    if b == [] {
      assert a + b == a;
    } else {
      var init, last := b[..|b| - 1], b[|b| - 1];
      assert b == init + [last] && a + b == (a + init) + [last];
      AcksSplit(a, init, x);
      R.AcksAppend(a + init, last, x);
      R.AcksAppend(init, last, x);
    }
  }

  /** Requests for `x` with the turn of `c`: unread, or written and unanswered. */
  function WithTurn(t: Turn, x: EventId): nat {
    R.Times(t.requests, x) + R.Waiting(t.loop, x)
  }

  function InTurns(s: Sys, c: Channel, x: EventId): nat {
    if c in s.turns then WithTurn(s.turns[c], x) else 0
  }

  function Holders(s: Sys, c: Channel, x: EventId): nat {
    MailCount(s.mail, c, x) + InTurns(s, c, x)
  }

  // ---- one iteration moves a request, and never copies it ----

  function TakenCopies(t: Turn, it: R.Iter, x: EventId): nat {
    if Takes(t, it) && it.sel.token == x then 1 else 0
  }

  lemma TakenStep(t: Turn, it: R.Iter, x: EventId)
    requires t.loop.exit.None?
    ensures R.Times(R.Step(t.loop, it).taken, x) == R.Times(t.loop.taken, x) + TakenCopies(t, it, x)
  {
    if Takes(t, it) {
      L.TakenMeaning(t.loop, it);
      R.TimesAppend(t.loop.taken, it.sel.token, x);
    } else {
      NothingTaken(t, it);
    }
  }

  lemma NothingTaken(t: Turn, it: R.Iter)
    requires t.loop.exit.None? && !Takes(t, it)
    ensures R.Step(t.loop, it).taken == t.loop.taken
  {
  }

  lemma NewIsRest(st: R.Loop, e: R.Loop, x: EventId)
    requires Grows(st, e)
    ensures R.Acks(e.acks, x) == R.Acks(st.acks, x) + R.Acks(NewFrom(st.acks, e.acks), x)
    ensures R.Times(e.dropped, x) == R.Times(st.dropped, x) + R.Times(NewFrom(st.dropped, e.dropped), x)
  {
    assert e.acks == st.acks + NewFrom(st.acks, e.acks);
    assert e.dropped == st.dropped + NewFrom(st.dropped, e.dropped);
    AcksSplit(st.acks, NewFrom(st.acks, e.acks), x);
    TimesSplit(st.dropped, NewFrom(st.dropped, e.dropped), x);
  }

  /** What a loop held or took, it holds, answers or drops. */
  lemma StepBalance(t: Turn, it: R.Iter, x: EventId)
    requires t.loop.exit.None? && R.IterOk(t.loop, it) && R.Resolved(t.loop, x)
    ensures var st, e := t.loop, R.Step(t.loop, it);
      && R.Resolved(e, x)
      && R.Waiting(st, x) + TakenCopies(t, it, x)
         == R.Waiting(e, x) + R.Acks(NewFrom(st.acks, e.acks), x) + R.Times(NewFrom(st.dropped, e.dropped), x)
  {
    R.ResolvedStep(t.loop, it, x);
    TakenStep(t, it, x);
    StepTracks(t.loop, it);
    NewIsRest(t.loop, R.Step(t.loop, it), x);
  }

  function RequestsAfter(t: Turn, it: R.Iter): seq<EventId> {
    if Takes(t, it) && t.requests != [] then t.requests[1..] else t.requests
  }

  lemma RequestsBalance(t: Turn, it: R.Iter, x: EventId)
    requires Takes(t, it) ==> t.requests != [] && it.sel.token == t.requests[0]
    ensures R.Times(t.requests, x) == R.Times(RequestsAfter(t, it), x) + TakenCopies(t, it, x)
  {
    if Takes(t, it) {
      assert t.requests == [t.requests[0]] + t.requests[1..];
      TimesSplit([t.requests[0]], t.requests[1..], x);
      R.TimesAppend([], t.requests[0], x);
      assert [] + [t.requests[0]] == [t.requests[0]];
    }
  }

  /** All an iteration of the turn of `d` mails, its unread requests included when it exits. */
  function Posted(t: Turn, d: Channel, it: R.Iter): seq<Mail> {
    var e := R.Step(t.loop, it);
    NewMail(d, t.loop, e) + (if e.exit.Some? then DropMail(d, RequestsAfter(t, it)) else [])
  }

  lemma LoopPosts(s: Sys, d: Channel, it: R.Iter)
    requires d in s.turns
    ensures LoopNext(s, d, it).mail == s.mail + Posted(s.turns[d], d, it)
  {
    var t := s.turns[d];
    var e := R.Step(t.loop, it);
    Assoc(s.mail, AckMail(d, NewFrom(t.loop.acks, e.acks)), DropMail(d, NewFrom(t.loop.dropped, e.dropped)));
    if e.exit.Some? {
      Assoc(s.mail, NewMail(d, t.loop, e), DropMail(d, RequestsAfter(t, it)));
    } else {
      assert NewMail(d, t.loop, e) + [] == NewMail(d, t.loop, e);
    }
  }

  lemma PostedCount(t: Turn, d: Channel, it: R.Iter, c: Channel, x: EventId)
    ensures var e := R.Step(t.loop, it);
      MailCount(Posted(t, d, it), c, x) ==
        if d != c then 0
        else R.Acks(NewFrom(t.loop.acks, e.acks), x) + R.Times(NewFrom(t.loop.dropped, e.dropped), x)
             + (if e.exit.Some? then R.Times(RequestsAfter(t, it), x) else 0)
  {
    var e := R.Step(t.loop, it);
    var acks, drops := NewFrom(t.loop.acks, e.acks), NewFrom(t.loop.dropped, e.dropped);
    var left := if e.exit.Some? then DropMail(d, RequestsAfter(t, it)) else [];
    MailCountAppend(NewMail(d, t.loop, e), left, c, x);
    MailCountAppend(AckMail(d, acks), DropMail(d, drops), c, x);
    CountAcks(d, acks, c, x);
    CountDrops(d, drops, c, x);
    CountDrops(d, RequestsAfter(t, it), c, x);
  }

  /** The turn's requests, and what it posts, add up to its requests before. */
  lemma TurnBalance(t: Turn, it: R.Iter, c: Channel, x: EventId)
    requires t.loop.exit.None? && R.IterOk(t.loop, it) && R.Resolved(t.loop, x)
    requires Takes(t, it) ==> t.requests != [] && it.sel.token == t.requests[0]
    ensures var e := R.Step(t.loop, it);
      WithTurn(t, x) == MailCount(Posted(t, c, it), c, x)
                        + (if e.exit.Some? then 0 else WithTurn(Turn(e, RequestsAfter(t, it)), x))
  {
    StepBalance(t, it, x);
    RequestsBalance(t, it, x);
    PostedCount(t, c, it, c, x);
  }

  lemma LoopKeepsHolders(s: Sys, d: Channel, it: R.Iter, c: Channel, x: EventId)
    requires Enabled(s, LoopAct(d, it)) && TurnsRunning(s) && R.Resolved(s.turns[d].loop, x)
    ensures Holders(LoopNext(s, d, it), c, x) == Holders(s, c, x)
  {
    var t := s.turns[d];
    LoopPosts(s, d, it);
    MailCountAppend(s.mail, Posted(t, d, it), c, x);
    if d == c {
      TurnBalance(t, it, c, x);
    } else {
      PostedCount(t, d, it, c, x);
    }
  }

  lemma StopKeepsHolders(s: Sys, d: Channel, c: Channel, x: EventId)
    requires d in s.turns
    ensures Holders(StopNext(s, d), c, x) == Holders(s, c, x)
  {
    var t := s.turns[d];
    var ids := PendingOf(t.loop) + t.requests;
    MailCountAppend(s.mail, DropMail(d, ids), c, x);
    CountDrops(d, ids, c, x);
    TimesSplit(PendingOf(t.loop), t.requests, x);
    if t.loop.pending.Some? {
      R.TimesAppend([], t.loop.pending.value.token, x);
      assert [] + [t.loop.pending.value.token] == PendingOf(t.loop);
    }
  }

  // ---- the invariant: one holder, and a reported delivery is answered by success only ----

  /** Steers of `x` on `c` still to come. */
  function SteersLeft(acts: seq<Act>, c: Channel, x: EventId): nat {
    if acts == [] then 0 else (if acts[0] == SendSteer(c, x) then 1 else 0) + SteersLeft(acts[1..], c, x)
  }

  ghost predicate LoopsResolved(s: Sys, x: EventId) {
    forall d :: d in s.turns ==> R.Resolved(s.turns[d].loop, x)
  }

  /** Every answer for `x` on its way is a success. */
  ghost predicate OnlySuccess(mail: seq<Mail>, c: Channel, x: EventId) {
    forall i :: 0 <= i < |mail| && Names(mail[i], c, x) ==> mail[i].ack == Some(R.Success)
  }

  /** `left` steers of `x` are still to come. */
  ghost predicate Settled(s: Sys, left: nat, c: Channel, x: EventId) {
    && Holders(s, c, x) + left <= 1
    && ((c, x) in s.delivered ==> left == 0 && InTurns(s, c, x) == 0 && OnlySuccess(s.mail, c, x))
  }

  lemma OnlySuccessAppend(a: seq<Mail>, b: seq<Mail>, c: Channel, x: EventId)
    requires OnlySuccess(a, c, x) && OnlySuccess(b, c, x)
    ensures OnlySuccess(a + b, c, x)
  {
  }

  lemma UnnamedIsSuccess(mail: seq<Mail>, c: Channel, x: EventId)
    requires MailCount(mail, c, x) == 0
    ensures OnlySuccess(mail, c, x)
  {
    forall i | 0 <= i < |mail| ensures !Names(mail[i], c, x) {
      NobodyNamed(mail, c, x, i);
    }
  }

  /** The iteration that reports the delivery of `x` mails its success, and the turn is rid of it. */
  lemma ReportedIsSuccess(t: Turn, c: Channel, it: R.Iter, x: EventId)
    requires t.loop.exit.None? && ReportsDelivery(t.loop, it) && t.loop.pending.value.token == x
    ensures var e := R.Step(t.loop, it);
      e.exit.None? && e.pending.None? && OnlySuccess(Posted(t, c, it), c, x)
  {
    L.SteerVerdict(t.loop, it);
    var e := R.Step(t.loop, it);
    var news := NewFrom(t.loop.acks, e.acks);
    assert news == [R.Sent(x, R.Success)];
    L.SteerResponseStep(t.loop, it);
    assert e.dropped == t.loop.dropped;
    assert DropMail(c, NewFrom(t.loop.dropped, e.dropped)) == [];
    assert Posted(t, c, it) == AckMail(c, news) + [] + [];
    assert Posted(t, c, it) == [Mail(c, x, Some(R.Success))];
  }

  lemma SettledReport(s: Sys, it: R.Iter, left: nat, c: Channel, x: EventId)
    requires Enabled(s, LoopAct(c, it)) && TurnsRunning(s) && R.Resolved(s.turns[c].loop, x) && Settled(s, left, c, x)
    requires ReportsDelivery(s.turns[c].loop, it) && s.turns[c].loop.pending.value.token == x
    ensures Settled(LoopNext(s, c, it), left, c, x)
  {
    var t, s' := s.turns[c], LoopNext(s, c, it);
    LoopKeepsHolders(s, c, it, c, x);
    LoopPosts(s, c, it);
    ReportedIsSuccess(t, c, it, x);
    assert R.Waiting(t.loop, x) == 1;
    UnnamedIsSuccess(s.mail, c, x);
    OnlySuccessAppend(s.mail, Posted(t, c, it), c, x);
  }

  lemma SettledLoop(s: Sys, d: Channel, it: R.Iter, left: nat, c: Channel, x: EventId)
    requires Enabled(s, LoopAct(d, it)) && TurnsRunning(s) && R.Resolved(s.turns[d].loop, x) && Settled(s, left, c, x)
    ensures Settled(LoopNext(s, d, it), left, c, x)
  {
    var t := s.turns[d];
    if d == c && ReportsDelivery(t.loop, it) && t.loop.pending.value.token == x {
      SettledReport(s, it, left, c, x);
    } else {
      SettledOther(s, d, it, left, c, x);
    }
  }

  lemma SettledOther(s: Sys, d: Channel, it: R.Iter, left: nat, c: Channel, x: EventId)
    requires Enabled(s, LoopAct(d, it)) && TurnsRunning(s) && R.Resolved(s.turns[d].loop, x) && Settled(s, left, c, x)
    requires !(d == c && ReportsDelivery(s.turns[d].loop, it) && s.turns[d].loop.pending.value.token == x)
    ensures Settled(LoopNext(s, d, it), left, c, x)
  {
    var t, s' := s.turns[d], LoopNext(s, d, it);
    LoopKeepsHolders(s, d, it, c, x);
    if (c, x) in s.delivered {
      LoopPosts(s, d, it);
      PostedCount(t, d, it, c, x);
      if d == c {
        TurnBalance(t, it, c, x);
      }
      UnnamedIsSuccess(Posted(t, d, it), c, x);
      OnlySuccessAppend(s.mail, Posted(t, d, it), c, x);
    }
  }

  lemma SettledStop(s: Sys, d: Channel, left: nat, c: Channel, x: EventId)
    requires d in s.turns && Settled(s, left, c, x)
    ensures Settled(StopNext(s, d), left, c, x)
  {
    var t := s.turns[d];
    var ids := PendingOf(t.loop) + t.requests;
    StopKeepsHolders(s, d, c, x);
    if (c, x) in s.delivered {
      MailCountAppend(s.mail, DropMail(d, ids), c, x);
      UnnamedIsSuccess(DropMail(d, ids), c, x);
      OnlySuccessAppend(s.mail, DropMail(d, ids), c, x);
    }
  }

  lemma SettledSend(s: Sys, d: Channel, id: EventId, left: nat, c: Channel, x: EventId)
    requires d in s.turns && Settled(s, left + (if d == c && id == x then 1 else 0), c, x)
    ensures Settled(Next(s, SendSteer(d, id)), left, c, x)
  {
    R.TimesAppend(s.turns[d].requests, id, x);
  }

  lemma SettledAck(s: Sys, i: nat, secs: nat, now: Time, left: nat, c: Channel, x: EventId)
    requires i < |s.mail| && Settled(s, left, c, x)
    ensures Settled(Next(s, HandleAck(i, secs, now)), left, c, x)
  {
    var s' := Next(s, HandleAck(i, secs, now));
    MailCountWithout(s.mail, i, c, x);
    assert s'.mail == s.mail[..i] + s.mail[i + 1..] && s'.turns == s.turns && s'.delivered == s.delivered;
    if (c, x) in s.delivered {
      assert OnlySuccess(s.mail[..i], c, x) && OnlySuccess(s.mail[i + 1..], c, x);
      OnlySuccessAppend(s.mail[..i], s.mail[i + 1..], c, x);
    }
  }

  lemma SettledAct(s: Sys, a: Act, left: nat, c: Channel, x: EventId)
    requires Enabled(s, a) && TurnsRunning(s) && LoopsResolved(s, x)
    requires Settled(s, left + (if a == SendSteer(c, x) then 1 else 0), c, x)
    ensures Settled(Next(s, a), left, c, x)
  {
    match a
    case QueueAct(_) =>
    case StartTurn(d, loop) =>
    case SendSteer(d, id) => SettledSend(s, d, id, left, c, x);
    case LoopAct(d, it) => SettledLoop(s, d, it, left, c, x);
    case StopTurn(d) => SettledStop(s, d, left, c, x);
    case HandleAck(i, secs, now) => SettledAck(s, i, secs, now, left, c, x);
  }

  lemma ResolvedAct(s: Sys, a: Act, x: EventId)
    requires Enabled(s, a) && TurnsRunning(s) && LoopsResolved(s, x)
    ensures LoopsResolved(Next(s, a), x)
  {
    if a.LoopAct? {
      R.ResolvedStep(s.turns[a.c].loop, a.it, x);
    }
  }

  lemma {:induction false} SettledRun(s: Sys, acts: seq<Act>, c: Channel, x: EventId)
    requires SysRun(s, acts) && SuccessDelivered(s) && TurnsRunning(s) && LoopsResolved(s, x)
    requires Settled(s, SteersLeft(acts, c, x), c, x)
    ensures var s1 := SysAfter(s, acts); SuccessDelivered(s1) && Settled(s1, 0, c, x)
    decreases |acts|
  {
    if acts != [] {
      InvariantAct(s, acts[0]);
      ResolvedAct(s, acts[0], x);
      SettledAct(s, acts[0], SteersLeft(acts[1..], c, x), c, x);
      SettledRun(Next(s, acts[0]), acts[1..], c, x);
    }
  }

  /**
   The verdict on a steer, over every interleaving from an empty system in which the event is steered at
   most once: when its answer is handled, the event is removed if and only if the agent reported its
   delivery, and released otherwise.
   */
  lemma RemovedIffDelivered(s0: Sys, acts: seq<Act>, s: Sys, i: nat, secs: nat, now: Time, c: Channel, x: EventId)
    requires s0.turns == map[] && s0.mail == [] && s0.delivered == {}
    requires SysRun(s0, acts) && s == SysAfter(s0, acts) && SteersLeft(acts, c, x) <= 1
    requires i < |s.mail| && s.mail[i].c == c && s.mail[i].id == x
    ensures QueueOps(s, HandleAck(i, secs, now)) ==
      if (c, x) in s.delivered then [ExtendOp(c, secs, now), RemoveOp(c, x)] else [ReleaseOp(c, x)]
  {
    SettledAfter(s0, acts, s, c, x);
    AnswerOps(s, i, secs, now, c, x);
  }

  lemma SettledAfter(s0: Sys, acts: seq<Act>, s: Sys, c: Channel, x: EventId)
    requires s0.turns == map[] && s0.mail == [] && s0.delivered == {}
    requires SysRun(s0, acts) && s == SysAfter(s0, acts) && SteersLeft(acts, c, x) <= 1
    ensures SuccessDelivered(s) && Settled(s, 0, c, x)
  {
    NothingYet(s0, acts, c, x);
    SettledRun(s0, acts, c, x);
  }

  lemma NothingYet(s0: Sys, acts: seq<Act>, c: Channel, x: EventId)
    requires s0.turns == map[] && s0.mail == [] && s0.delivered == {} && SteersLeft(acts, c, x) <= 1
    ensures SuccessDelivered(s0) && TurnsRunning(s0) && LoopsResolved(s0, x)
    ensures Settled(s0, SteersLeft(acts, c, x), c, x)
  {
  }

  lemma AnswerOps(s: Sys, i: nat, secs: nat, now: Time, c: Channel, x: EventId)
    requires SuccessDelivered(s) && Settled(s, 0, c, x) && i < |s.mail| && s.mail[i].c == c && s.mail[i].id == x
    ensures QueueOps(s, HandleAck(i, secs, now)) ==
      if (c, x) in s.delivered then [ExtendOp(c, secs, now), RemoveOp(c, x)] else [ReleaseOp(c, x)]
  {
    assert Names(s.mail[i], c, x);
    assert s.mail[i].ack == Some(R.Success) <==> (c, x) in s.delivered;
  }
}
