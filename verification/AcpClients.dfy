/**
 The read loop as the program writes it: local variables and client fields updated in
 place, branch by branch. Each method is proved against its function in ReadLoop.
 */
module AcpClients {
  import opened Basics
  import R = ReadLoop

  /** The loop's variables for one call, with the client fields it reads and updates. */
  class Turn {
    var nextId: nat
    const expected: nat
    const idleTimeout: Time
    const maxDuration: Time
    const steering: bool
    var run: Option<nat>
    var pending: Option<R.Pending>
    var idleDeadline: Time
    var hardDeadline: Time
    var lastActivity: Time
    var currentHard: Option<Time>
    var taken: seq<R.Token>
    var acks: seq<R.Sent>
    var dropped: seq<R.Token>
    var renewals: nat
    var exit: Option<R.Exit>

    function Model(): R.Loop
      reads this
    {
      R.Loop(nextId, expected, idleTimeout, maxDuration, steering, run, pending, idleDeadline, hardDeadline,
             lastActivity, currentHard, taken, acks, dropped, renewals, exit)
    }

    constructor (now: Time, firstId: nat, expectedId: nat, idle: Time, hard: Time, maxDur: Time,
                 supported: bool, activeRun: Option<nat>, stored: Option<Time>)
      ensures Model() == R.Begin(now, firstId, expectedId, idle, hard, maxDur, supported, activeRun, stored)
    {
      nextId, expected, idleTimeout, maxDuration, steering := firstId, expectedId, idle, maxDur, supported;
      run, pending, idleDeadline, hardDeadline, lastActivity := activeRun, None, now + idle, hard, now;
      currentHard, taken, acks, dropped, renewals, exit := stored, [], [], [], 0, None;
    }

    method Send(token: R.Token, ack: R.Ack)
      modifies this`acks
      ensures Model() == old(Model()).(acks := old(acks) + [R.Sent(token, ack)])
    {
      acks := acks + [R.Sent(token, ack)];
    }

    /** Every return path drains a pending steer with PromptCompletedNeutral first. */
    method Return(e: R.Exit)
      modifies this`acks, this`pending, this`exit
      ensures Model() == R.Leave(old(Model()), e)
    {
      if pending.Some? {
        var token := pending.value.token;
        pending := None;
        Send(token, R.PromptCompletedNeutral);
      }
      exit := Some(e);
    }

    /** The `?` exits: a pending sender goes out of scope unanswered. */
    method Fail()
      modifies this`dropped, this`pending, this`exit
      ensures Model() == R.Abandon(old(Model()))
    {
      if pending.Some? {
        dropped := dropped + [pending.value.token];
        pending := None;
      }
      exit := Some(R.HandlerFailed);
    }

    method TakeSteer(token: R.Token, writeOk: bool)
      modifies this`taken, this`acks, this`nextId, this`pending
      ensures Model() == R.TakeSteer(old(Model()), token, writeOk)
    {
      taken := taken + [token];
      var selected: Option<R.Transport>;
      if run.Some? {
        selected := Some(R.Goose);
      } else if steering {
        selected := Some(R.AcpExtension);
      } else {
        selected := None;
      }
      if selected.None? {
        Send(token, R.Failed(R.ExpectedRunIdMissing));
      } else {
        var id := nextId;
        nextId := nextId + 1;
        if writeOk {
          pending := Some(R.Pending(id, selected.value, token));
        } else {
          Send(token, R.Failed(R.TransportError));
        }
      }
    }

    method RouteSteerResponse(m: R.Msg, late: Time)
      requires pending.Some?
      modifies this`acks, this`pending, this`hardDeadline, this`currentHard, this`renewals
      ensures Model() == R.Route(old(Model()), m, late)
    {
      var p := pending.value;
      pending := None;
      var ack;
      if m.error.Some? {
        ack := R.Failed(R.AgentError(m.error.value));
      } else {
        var outcome := if p.transport.Goose? then R.Injected else m.outcome;
        match outcome
        case StartedNewTurn => ack := R.Success;
        case Injected =>
          if late + maxDuration > hardDeadline {
            hardDeadline := late + maxDuration;
            currentHard := Some(late + maxDuration);
            renewals := renewals + 1;
          }
          ack := R.Success;
        case _ => ack := R.Failed(R.OutcomeRejected);
      }
      Send(p.token, ack);
    }

    method DispatchMethod(m: R.Msg, late: Time)
      modifies this`idleDeadline, this`lastActivity, this`run, this`dropped, this`pending, this`exit
      ensures Model() == R.DispatchMethod(old(Model()), m, late)
    {
      if m.call.Some? {
        match m.call.value
        case SessionUpdate(u) =>
          match u {
            case ToolCall => idleDeadline, lastActivity := late + idleTimeout, late;
            case RunInfo(r) => run := r;
            case OtherUpdate =>
          }
        case GooseUpdate =>
        case RequestPermission(ok) => if !ok { Fail(); }
        case UnknownMethod(ok) => if m.id.Some? && !ok { Fail(); }
        case NotAString =>
      }
    }

    method OnMessage(m: R.Msg, late: Time)
      modifies this
      ensures Model() == R.OnMessage(old(Model()), m, late)
    {
      if m.id.Some? && m.call.None? {
        if pending.Some? && m.id.value == R.Num(pending.value.id) {
          RouteSteerResponse(m, late);
          return;
        }
        if m.id.value == R.Num(expected) {
          if m.error.Some? {
            Return(R.PromptError(m.error.value));
            return;
          }
          Return(R.PromptResult);
          return;
        }
      }
      DispatchMethod(m, late);
    }

    method TimeOut()
      modifies this`acks, this`pending, this`exit
      ensures Model() == R.TimedOut(old(Model()))
    {
      if idleDeadline < hardDeadline {
        Return(R.IdleTimeout);
      } else {
        Return(R.HardTimeout);
      }
    }

    /** A valid JSON line restarts the idle clock before it is handled. */
    method OnJson(m: R.Msg, act: Time, late: Time)
      modifies this
      ensures Model() == R.OnMessage(R.Active(old(Model()), act), m, late)
    {
      idleDeadline := act + idleTimeout;
      lastActivity := act;
      assert Model() == R.Active(old(Model()), act);
      OnMessage(m, late);
    }

    method OnRead(r: R.Read, act: Time, late: Time)
      modifies this
      ensures Model() == R.OnRead(old(Model()), r, act, late)
    {
      match r
      case Eof => Return(R.AgentExited);
      case LineTooLong => Return(R.Protocol);
      case IoError => Return(R.Io);
      case BlankLine =>
      case NotJson =>
      case Json(m) => OnJson(m, act, late);
    }

    method Iterate(it: R.Iter)
      modifies this
      ensures Model() == R.Step(old(Model()), it)
    {
      var idleFirst := idleDeadline < hardDeadline;
      var next := if idleFirst then idleDeadline else hardDeadline;
      if it.check >= next {
        TimeOut();
        return;
      }
      match it.sel
      case TimerArm => TimeOut();
      case SteerArm(token, writeOk) =>
        if pending.None? {
          TakeSteer(token, writeOk);
        }
      case ReadArm(r) => OnRead(r, it.act, it.late);
    }

    /** The loop, over what the environment does; it stops at the first exit. */
    method ReadUntilResponse(script: seq<R.Iter>) returns (used: nat)
      requires exit.None?
      modifies this
      ensures used <= |script|
      ensures Model() == R.After(old(Model()), script[..used])
      ensures exit.None? ==> used == |script|
      ensures forall k :: 0 <= k < used ==> R.After(old(Model()), script[..k]).exit.None?
    {
      ghost var st0 := Model();
      used := 0;
      while exit.None? && used < |script|
        invariant used <= |script|
        invariant Model() == R.After(st0, script[..used])
        invariant forall k :: 0 <= k < used ==> R.After(st0, script[..k]).exit.None?
        decreases |script| - used
      {
        AfterSnoc(st0, script[..used], script[used]);
        assert script[..used + 1] == script[..used] + [script[used]];
        Iterate(script[used]);
        used := used + 1;
      }
    }
  }

  lemma {:induction false} AfterSnoc(st: R.Loop, its: seq<R.Iter>, it: R.Iter)
    ensures R.After(st, its + [it]) == R.Step(R.After(st, its), it)
    decreases |its|
  {
    if its == [] {
      assert ([] + [it])[1..] == [];
      assert R.After(R.Step(st, it), []) == R.Step(st, it);
    } else {
      assert (its + [it])[1..] == its[1..] + [it];
      AfterSnoc(R.Step(st, its[0]), its[1..], it);
    }
  }
}
