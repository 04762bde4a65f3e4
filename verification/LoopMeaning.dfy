/**
 What one iteration of the read loop does, stated by what was read and when: how it exits, whom it
 acknowledges and how, and how it moves the two deadlines. Every clause is exact.
 */
module LoopMeaning {
  import opened Basics
  import opened ReadLoop

  /** The iteration gets past the deadline check. */
  predicate OnTime(st: Loop, it: Iter) {
    it.check < NextDeadline(st)
  }

  /** The iteration reads a message. */
  predicate Got(st: Loop, it: Iter) {
    OnTime(st, it) && it.sel.ReadArm? && it.sel.read.Json?
  }

  function Message(it: Iter): Msg
    requires it.sel.ReadArm? && it.sel.read.Json?
  {
    it.sel.read.msg
  }

  /** A JSON-RPC response to the request `id`: it carries the id and no method. */
  predicate RespondsTo(m: Msg, id: nat) {
    m.id == Some(Num(id)) && m.call == None
  }

  /** The response to the pending steer is read. */
  predicate GotSteerResponse(st: Loop, it: Iter) {
    Got(st, it) && st.pending.Some? && RespondsTo(Message(it), st.pending.value.id)
  }

  predicate GotPromptResponse(st: Loop, it: Iter) {
    Got(st, it) && RespondsTo(Message(it), st.expected)
  }

  /**
   The loop is entered with a full idle timeout ahead, the caller's hard deadline, and nothing
   pending or resolved.
   */
  lemma BeginMeaning(now: Time, nextId: nat, expected: nat, idle: Time, hard: Time, max: Time, steering: bool,
                     run: Option<nat>, stored: Option<Time>, t: Token)
    ensures var st := Begin(now, nextId, expected, idle, hard, max, steering, run, stored);
      && st.exit == None && st.pending == None && st.idleDeadline == now + idle && st.hardDeadline == hard
      && st.lastActivity == now && st.maxDuration == max && st.idleTimeout == idle && st.currentHard == stored
      && (expected < nextId ==> FreshIds(st)) && Resolved(st, t) && st.run == run && st.steering == steering
  {
  }

  // ---- a message, case by case ----

  lemma SteerResponseStep(st: Loop, it: Iter)
    requires GotSteerResponse(st, it)
    ensures Step(st, it) == Route(Active(st, it.act), Message(it), it.late)
  {
  }

  lemma PromptResponseStep(st: Loop, it: Iter)
    requires GotPromptResponse(st, it) && FreshIds(st)
    ensures Step(st, it) ==
      Leave(Active(st, it.act), if Message(it).error.Some? then PromptError(Message(it).error.value) else PromptResult)
  {
  }

  lemma DispatchStep(st: Loop, it: Iter)
    requires Got(st, it) && !GotSteerResponse(st, it) && !GotPromptResponse(st, it)
    ensures Step(st, it) == DispatchMethod(Active(st, it.act), Message(it), it.late)
  {
  }

  lemma TimerStep(st: Loop, it: Iter)
    requires Fires(st, it)
    ensures Step(st, it) == Leave(st, if st.idleDeadline < st.hardDeadline then IdleTimeout else HardTimeout)
  {
  }

  // ---- exits ----

  /** Why an iteration leaves the loop, if it does. */
  ghost predicate ExitsFor(st: Loop, it: Iter, e: Exit) {
    match e
    case IdleTimeout => Fires(st, it) && st.idleDeadline < st.hardDeadline
    case HardTimeout => Fires(st, it) && st.idleDeadline >= st.hardDeadline
    case AgentExited => OnTime(st, it) && it.sel == ReadArm(Eof)
    case Protocol => OnTime(st, it) && it.sel == ReadArm(LineTooLong)
    case Io => OnTime(st, it) && it.sel == ReadArm(IoError)
    case PromptError(code) => GotPromptResponse(st, it) && Message(it).error == Some(code)
    case PromptResult => GotPromptResponse(st, it) && Message(it).error == None
    case HandlerFailed => Got(st, it) && HandlerFails(Message(it))
  }

  lemma ExitOfMessage(st: Loop, it: Iter)
    requires st.exit.None? && FreshIds(st) && Got(st, it)
    ensures forall e :: Step(st, it).exit == Some(e) <==> ExitsFor(st, it, e)
  {
    if GotSteerResponse(st, it) {
      SteerResponseStep(st, it);
    } else if GotPromptResponse(st, it) {
      PromptResponseStep(st, it);
    } else {
      DispatchStep(st, it);
    }
  }

  /** The exit, exactly: each way of leaving happens for its own reason and for no other. */
  lemma ExitMeaning(st: Loop, it: Iter, e: Exit)
    requires st.exit.None? && FreshIds(st)
    ensures Step(st, it).exit == Some(e) <==> ExitsFor(st, it, e)
  {
    if Got(st, it) {
      ExitOfMessage(st, it);
    } else if Fires(st, it) {
      TimerStep(st, it);
    }
  }

  // ---- acks ----

  /** How the response to a steer is acknowledged: error first, then delivery. */
  ghost predicate Verdict(p: Pending, m: Msg, a: Ack) {
    && (a == Success <==> Delivers(p.transport, m))
    && (forall code :: a == Failed(AgentError(code)) <==> m.error == Some(code))
    && (a == Failed(OutcomeRejected) <==> m.error == None && !Delivers(p.transport, m))
  }

  /** A steer response is acknowledged once, for its own request, by what it says. */
  lemma SteerVerdict(st: Loop, it: Iter)
    requires st.exit.None? && GotSteerResponse(st, it)
    ensures var e, p := Step(st, it), st.pending.value;
      && e.pending == None && e.exit == None
      && |e.acks| == |st.acks| + 1 && e.acks[..|st.acks|] == st.acks
      && e.acks[|st.acks|].token == p.token && Verdict(p, Message(it), e.acks[|st.acks|].ack)
  {
    SteerResponseStep(st, it);
  }

  /** The transport of a steer: goose with an active run, else the extension if the agent supports it. */
  function TransportFor(st: Loop): Option<Transport> {
    if st.run != None then Some(Goose) else if st.steering then Some(AcpExtension) else None
  }

  /**
   A request that is taken: no transport and a failed write are answered at once, else it is
   pending under a fresh id.
   */
  lemma TakenMeaning(st: Loop, it: Iter)
    requires st.exit.None? && OnTime(st, it) && it.sel.SteerArm? && st.pending == None
    ensures var e, token := Step(st, it), it.sel.token;
      && e.exit == None && e.taken == st.taken + [token]
      && (TransportFor(st) == None ==>
            && e.pending == None && e.nextId == st.nextId
            && e.acks == st.acks + [Sent(token, Failed(ExpectedRunIdMissing))])
      && (TransportFor(st) != None && !it.sel.writeOk ==>
            e.pending == None && e.acks == st.acks + [Sent(token, Failed(TransportError))])
      && (TransportFor(st) != None && it.sel.writeOk ==>
            && e.pending == Some(Pending(st.nextId, TransportFor(st).value, token))
            && e.acks == st.acks && e.nextId == st.nextId + 1)
  {
  }

  /** Leaving the loop tells a pending steer that the prompt completed, unless a handler failed. */
  lemma NeutralOnExit(st: Loop, it: Iter)
    requires st.exit.None? && FreshIds(st) && st.pending.Some? && Step(st, it).exit.Some?
    ensures var e, tok := Step(st, it), st.pending.value.token;
      if e.exit == Some(HandlerFailed) then e.acks == st.acks && e.dropped == st.dropped + [tok]
      else e.acks == st.acks + [Sent(tok, PromptCompletedNeutral)] && e.dropped == st.dropped
  {
    if Got(st, it) {
      if GotSteerResponse(st, it) {
        SteerResponseStep(st, it);
      } else if GotPromptResponse(st, it) {
        PromptResponseStep(st, it);
      } else {
        DispatchStep(st, it);
      }
    } else if Fires(st, it) {
      TimerStep(st, it);
    }
  }

  // ---- deadlines and the run id ----

  /** The response renews the hard deadline: the agent took the steer into the running turn. */
  ghost predicate Renewing(st: Loop, it: Iter) {
    && GotSteerResponse(st, it) && Message(it).error == None
    && (st.pending.value.transport == Goose || Message(it).outcome == Injected)
    && it.late + st.maxDuration > st.hardDeadline
  }

  /** The hard deadline moves exactly on such a response, to a full turn from then, and the stored one with it. */
  lemma RenewalMeaning(st: Loop, it: Iter)
    requires st.exit.None?
    ensures var e := Step(st, it);
      if Renewing(st, it) then
        && e.hardDeadline == it.late + st.maxDuration && e.currentHard == Some(e.hardDeadline)
        && e.renewals == st.renewals + 1
      else e.hardDeadline == st.hardDeadline && e.currentHard == st.currentHard && e.renewals == st.renewals
  {
    if GotSteerResponse(st, it) {
      SteerResponseStep(st, it);
    } else if Got(st, it) && !GotPromptResponse(st, it) {
      DispatchStep(st, it);
    }
  }

  /** The idle clock restarts exactly on a valid JSON line, and once more when a tool call starts. */
  lemma IdleMeaning(st: Loop, it: Iter)
    requires st.exit.None?
    ensures var e := Step(st, it);
      var seen := if Got(st, it) && Message(it).call == Some(SessionUpdate(ToolCall)) then it.late else it.act;
      if Got(st, it) then e.idleDeadline == seen + st.idleTimeout && e.lastActivity == seen
      else e.idleDeadline == st.idleDeadline && e.lastActivity == st.lastActivity
  {
    if GotSteerResponse(st, it) {
      SteerResponseStep(st, it);
    } else if Got(st, it) && !GotPromptResponse(st, it) {
      DispatchStep(st, it);
    }
  }

  predicate ReportsRun(m: Msg) {
    m.call.Some? && m.call.value.SessionUpdate? && m.call.value.u.RunInfo?
  }

  /** The active run is the one the agent reported last. */
  lemma RunMeaning(st: Loop, it: Iter)
    requires st.exit.None?
    ensures Step(st, it).run ==
      if Got(st, it) && ReportsRun(Message(it)) then Message(it).call.value.u.run else st.run
  {
    if GotSteerResponse(st, it) {
      SteerResponseStep(st, it);
    } else if Got(st, it) && !GotPromptResponse(st, it) {
      DispatchStep(st, it);
    }
  }
}
