/**
 The ACP read loop: it reads agent lines until the prompt response arrives,
 interleaves at most one steer request, and is bounded by two deadlines.

 `Loop` is its state and `Step` one iteration. What the environment decides (which
 select arm fires, what line was read, whether a write succeeds, the clock) is the
 iteration's input.
 */
module ReadLoop {
  import opened Basics

  type Token = nat

  // ---- messages (JSON-RPC 2.0, section 5) ----

  datatype JsonId = Num(n: nat) | OtherId

  /** The value at /result/outcome. */
  datatype Outcome = Injected | StartedNewTurn | OtherOutcome | NoOutcome

  datatype Update = ToolCall | RunInfo(run: Option<nat>) | OtherUpdate

  /** A string method, as the dispatch sees it; `ok` says whether its handler, or the reply it writes, succeeds. */
  datatype Method =
    | SessionUpdate(u: Update)
    | GooseUpdate
    | RequestPermission(ok: bool)
    | UnknownMethod(ok: bool)
    | NotAString

  datatype Msg = Msg(id: Option<JsonId>, call: Option<Method>, error: Option<int>, outcome: Outcome)

  datatype Read = Eof | LineTooLong | IoError | BlankLine | NotJson | Json(msg: Msg)

  predicate IsResponse(m: Msg, id: nat) {
    m.id == Some(Num(id)) && m.call.None?
  }

  // ---- steering ----

  datatype Transport = Goose | AcpExtension

  datatype SteerError = ExpectedRunIdMissing | TransportError | AgentError(code: int) | OutcomeRejected

  datatype Ack = Success | Failed(e: SteerError) | PromptCompletedNeutral

  datatype Pending = Pending(id: nat, transport: Transport, token: Token)

  datatype Sent = Sent(token: Token, ack: Ack)

  // ---- the loop ----

  datatype Exit =
    | IdleTimeout
    | HardTimeout
    | AgentExited
    | Protocol
    | Io
    | PromptError(code: int)
    | PromptResult
    | HandlerFailed

  datatype Select = ReadArm(read: Read) | SteerArm(token: Token, writeOk: bool) | TimerArm

  /** One iteration: the instant of the deadline check, the arm that fired, and two later clock readings. */
  datatype Iter = Iter(check: Time, sel: Select, act: Time, late: Time)

  datatype Loop = Loop(
    nextId: nat,
    expected: nat,
    idleTimeout: Time,
    maxDuration: Time,
    steering: bool,
    run: Option<nat>,
    pending: Option<Pending>,
    idleDeadline: Time,
    hardDeadline: Time,
    lastActivity: Time,
    currentHard: Option<Time>,
    taken: seq<Token>,
    acks: seq<Sent>,
    dropped: seq<Token>,
    renewals: nat,
    exit: Option<Exit>)

  /** The loop as entered at `now`; the prompt's id was allocated just before. */
  function Begin(now: Time, nextId: nat, expected: nat, idleTimeout: Time, hardDeadline: Time, maxDuration: Time,
                 steering: bool, run: Option<nat>, currentHard: Option<Time>): Loop {
    Loop(nextId, expected, idleTimeout, maxDuration, steering, run, None, now + idleTimeout, hardDeadline, now,
         currentHard, [], [], [], 0, None)
  }

  predicate IdleFirst(st: Loop) {
    st.idleDeadline < st.hardDeadline
  }

  function NextDeadline(st: Loop): Time {
    if IdleFirst(st) then st.idleDeadline else st.hardDeadline
  }

  /** Leave the loop, telling a pending steer that the prompt completed. */
  function Leave(st: Loop, e: Exit): Loop {
    match st.pending
    case None => st.(exit := Some(e))
    case Some(p) => st.(pending := None, acks := st.acks + [Sent(p.token, PromptCompletedNeutral)], exit := Some(e))
  }

  /** Leave through `?`: a pending sender is dropped without an ack. */
  function Abandon(st: Loop): Loop {
    match st.pending
    case None => st.(exit := Some(HandlerFailed))
    case Some(p) => st.(pending := None, dropped := st.dropped + [p.token], exit := Some(HandlerFailed))
  }

  function TimedOut(st: Loop): Loop {
    Leave(st, if IdleFirst(st) then IdleTimeout else HardTimeout)
  }

  function Choose(st: Loop): Option<Transport> {
    if st.run.Some? then Some(Goose) else if st.steering then Some(AcpExtension) else None
  }

  function TakeSteer(st: Loop, token: Token, writeOk: bool): Loop {
    var st := st.(taken := st.taken + [token]);
    match Choose(st)
    case None => st.(acks := st.acks + [Sent(token, Failed(ExpectedRunIdMissing))])
    case Some(transport) =>
      var id := st.nextId;
      var st := st.(nextId := id + 1);
      if writeOk then st.(pending := Some(Pending(id, transport, token)))
      else st.(acks := st.acks + [Sent(token, Failed(TransportError))])
  }

  /** How a steer response is acknowledged, by the transport that carried the request. */
  function Classify(transport: Transport, m: Msg): Ack {
    if m.error.Some? then Failed(AgentError(m.error.value))
    else if transport.Goose? || m.outcome.Injected? || m.outcome.StartedNewTurn? then Success
    else Failed(OutcomeRejected)
  }

  /** The ack of a steer response. */
  function Answer(p: Pending, m: Msg): Sent {
    Sent(p.token, Classify(p.transport, m))
  }

  /** A delivered steer renews the hard deadline unless it landed in a new turn. */
  predicate Renews(transport: Transport, m: Msg) {
    m.error.None? && (transport.Goose? || m.outcome.Injected?)
  }

  function Route(st: Loop, m: Msg, late: Time): Loop
    requires st.pending.Some?
  {
    var p := st.pending.value;
    var st1 := st.(pending := None, acks := st.acks + [Sent(p.token, Classify(p.transport, m))]);
    if Renews(p.transport, m) && late + st.maxDuration > st.hardDeadline then
      st1.(hardDeadline := late + st.maxDuration,
           currentHard := Some(late + st.maxDuration),
           renewals := st.renewals + 1)
    else st1
  }

  function DispatchMethod(st: Loop, m: Msg, late: Time): Loop {
    match m.call
    case Some(SessionUpdate(ToolCall)) => st.(idleDeadline := late + st.idleTimeout, lastActivity := late)
    case Some(SessionUpdate(RunInfo(r))) => st.(run := r)
    case Some(RequestPermission(ok)) => if ok then st else Abandon(st)
    case Some(UnknownMethod(ok)) => if m.id.Some? && !ok then Abandon(st) else st
    case _ => st
  }

  function OnMessage(st: Loop, m: Msg, late: Time): Loop {
    if st.pending.Some? && IsResponse(m, st.pending.value.id) then Route(st, m, late)
    else if IsResponse(m, st.expected) then
      Leave(st, if m.error.Some? then PromptError(m.error.value) else PromptResult)
    else DispatchMethod(st, m, late)
  }

  /** A valid JSON line restarts the idle clock. */
  function Active(st: Loop, act: Time): Loop {
    st.(idleDeadline := act + st.idleTimeout, lastActivity := act)
  }

  function OnRead(st: Loop, r: Read, act: Time, late: Time): Loop {
    match r
    case Eof => Leave(st, AgentExited)
    case LineTooLong => Leave(st, Protocol)
    case IoError => Leave(st, Io)
    case BlankLine => st
    case NotJson => st
    case Json(m) => OnMessage(Active(st, act), m, late)
  }

  /** One iteration. The steer arm is off while a steer is pending: a request that arrives then stays in its channel. */
  function Step(st: Loop, it: Iter): Loop {
    if it.check >= NextDeadline(st) then TimedOut(st)
    else
      match it.sel
      case TimerArm => TimedOut(st)
      case SteerArm(token, writeOk) => if st.pending.None? then TakeSteer(st, token, writeOk) else st
      case ReadArm(r) => OnRead(st, r, it.act, it.late)
  }

  /** The clock readings of an iteration are in order, and its timer does not fire before its deadline. */
  predicate IterOk(st: Loop, it: Iter) {
    && it.check <= it.act <= it.late
    && (it.sel.TimerArm? && it.check < NextDeadline(st) ==> it.act >= NextDeadline(st))
  }

  /** A run: iterations until the loop exits; each starts at the instant the previous one ended. */
  ghost predicate LoopRun(st: Loop, its: seq<Iter>)
    decreases |its|
  {
    its == [] ||
    (&& st.exit.None? && IterOk(st, its[0])
     && (|its| > 1 ==> its[1].check == its[0].late)
     && LoopRun(Step(st, its[0]), its[1..]))
  }

  function After(st: Loop, its: seq<Iter>): Loop
    decreases |its|
  {
    if its == [] then st else After(Step(st, its[0]), its[1..])
  }

  // ---- resolution: one answer per request ----

  /** How often a request appears in a list of requests. */
  function Times(s: seq<Token>, t: Token): nat {
    if s == [] then 0 else Times(s[..|s| - 1], t) + (if s[|s| - 1] == t then 1 else 0)
  }

  /** How many acks a request got. */
  function Acks(s: seq<Sent>, t: Token): nat {
    if s == [] then 0 else Acks(s[..|s| - 1], t) + (if s[|s| - 1].token == t then 1 else 0)
  }

  function Waiting(st: Loop, t: Token): nat {
    if st.pending.Some? && st.pending.value.token == t then 1 else 0
  }

  function Outstanding(st: Loop): nat {
    if st.pending.Some? then 1 else 0
  }

  /** Every request taken is acknowledged once, dropped once, or still pending; after exit none is pending. */
  ghost predicate Resolved(st: Loop, t: Token) {
    && Times(st.taken, t) == Acks(st.acks, t) + Times(st.dropped, t) + Waiting(st, t)
    && |st.taken| == |st.acks| + |st.dropped| + Outstanding(st)
    && (st.exit.Some? ==> st.pending.None?)
    && |st.dropped| <= 1
    && (st.dropped != [] ==> st.exit == Some(HandlerFailed))
  }

  /** The prompt's id is older than every id the loop allocates. */
  ghost predicate FreshIds(st: Loop) {
    && st.expected < st.nextId
    && (st.pending.Some? ==> st.expected < st.pending.value.id < st.nextId)
  }

  lemma AcksAppend(s: seq<Sent>, x: Sent, t: Token)
    ensures Acks(s + [x], t) == Acks(s, t) + (if x.token == t then 1 else 0)
  {
    assert (s + [x])[..|s|] == s;
  }

  lemma TimesAppend(s: seq<Token>, x: Token, t: Token)
    ensures Times(s + [x], t) == Times(s, t) + (if x == t then 1 else 0)
  {
    assert (s + [x])[..|s|] == s;
  }

  lemma ResolvedLeave(st: Loop, e: Exit, t: Token)
    requires Resolved(st, t) && st.exit.None?
    ensures Resolved(Leave(st, e), t) && Resolved(Abandon(st), t)
  {
    if st.pending.Some? {
      AcksAppend(st.acks, Sent(st.pending.value.token, PromptCompletedNeutral), t);
      TimesAppend(st.dropped, st.pending.value.token, t);
    }
  }

  /** The request is recorded as taken, and answered at once or pending. */
  lemma ResolvedTake(st: Loop, token: Token, writeOk: bool, t: Token)
    requires Resolved(st, t) && st.exit.None? && st.pending.None?
    ensures Resolved(TakeSteer(st, token, writeOk), t)
  {
    var e := TakeSteer(st, token, writeOk);
    TimesAppend(st.taken, token, t);
    if e.pending.None? {
      var x := e.acks[|st.acks|];
      AcksAppend(st.acks, x, t);
      assert e.acks == st.acks + [x] && x.token == token;
    }
    assert e.taken == st.taken + [token] && e.dropped == st.dropped;
  }

  lemma ResolvedSame(st: Loop, e: Loop, t: Token)
    requires Resolved(st, t)
    requires e.taken == st.taken && e.acks == st.acks && e.dropped == st.dropped
    requires e.pending == st.pending && e.exit == st.exit
    ensures Resolved(e, t)
  {
  }

  lemma ResolvedDispatch(st: Loop, m: Msg, late: Time, t: Token)
    requires Resolved(st, t) && st.exit.None?
    ensures Resolved(DispatchMethod(st, m, late), t)
  {
    var e := DispatchMethod(st, m, late);
    if m.call.Some? && (m.call.value.RequestPermission? || m.call.value.UnknownMethod?) {
      ResolvedLeave(st, HandlerFailed, t);
    } else {
      ResolvedSame(st, e, t);
    }
  }

  lemma ResolvedRoute(st: Loop, m: Msg, late: Time, t: Token)
    requires Resolved(st, t) && st.exit.None? && st.pending.Some?
    ensures Resolved(Route(st, m, late), t)
  {
    var x := Sent(st.pending.value.token, Classify(st.pending.value.transport, m));
    AcksAppend(st.acks, x, t);
    assert Route(st, m, late).acks == st.acks + [x];
  }

  lemma ResolvedMessage(st: Loop, m: Msg, late: Time, t: Token)
    requires Resolved(st, t) && st.exit.None?
    ensures Resolved(OnMessage(st, m, late), t)
  {
    if st.pending.Some? && IsResponse(m, st.pending.value.id) {
      ResolvedRoute(st, m, late, t);
    } else if IsResponse(m, st.expected) {
      ResolvedLeave(st, if m.error.Some? then PromptError(m.error.value) else PromptResult, t);
    } else {
      ResolvedDispatch(st, m, late, t);
    }
  }

  lemma ResolvedJson(st: Loop, m: Msg, act: Time, late: Time, t: Token)
    requires Resolved(st, t) && st.exit.None?
    ensures Resolved(OnMessage(Active(st, act), m, late), t)
  {
    ResolvedSame(st, Active(st, act), t);
    ResolvedMessage(Active(st, act), m, late, t);
  }

  lemma ResolvedRead(st: Loop, r: Read, act: Time, late: Time, t: Token)
    requires Resolved(st, t) && st.exit.None?
    ensures Resolved(OnRead(st, r, act, late), t)
  {
    if r.Json? {
      ResolvedJson(st, r.msg, act, late, t);
    } else if r.Eof? {
      ResolvedLeave(st, AgentExited, t);
    } else if r.LineTooLong? {
      ResolvedLeave(st, Protocol, t);
    } else if r.IoError? {
      ResolvedLeave(st, Io, t);
    }
  }

  lemma ResolvedStep(st: Loop, it: Iter, t: Token)
    requires Resolved(st, t) && st.exit.None? && IterOk(st, it)
    ensures Resolved(Step(st, it), t)
  {
    if it.check >= NextDeadline(st) || it.sel.TimerArm? {
      ResolvedLeave(st, if IdleFirst(st) then IdleTimeout else HardTimeout, t);
    } else if it.sel.SteerArm? {
      if st.pending.None? {
        ResolvedTake(st, it.sel.token, it.sel.writeOk, t);
      }
    } else {
      ResolvedRead(st, it.sel.read, it.act, it.late, t);
    }
  }

  lemma FreshIdsStep(st: Loop, it: Iter)
    requires FreshIds(st)
    ensures FreshIds(Step(st, it)) && Step(st, it).expected == st.expected
  {
  }

  lemma {:induction false} ResolvedRun(st: Loop, its: seq<Iter>, t: Token)
    requires LoopRun(st, its) && Resolved(st, t)
    ensures Resolved(After(st, its), t)
    decreases |its|
  {
    if its != [] {
      ResolvedStep(st, its[0], t);
      ResolvedRun(Step(st, its[0]), its[1..], t);
    }
  }

  lemma {:induction false} FreshIdsRun(st: Loop, its: seq<Iter>)
    requires LoopRun(st, its) && FreshIds(st)
    ensures FreshIds(After(st, its)) && After(st, its).expected == st.expected
    decreases |its|
  {
    if its != [] {
      FreshIdsStep(st, its[0]);
      FreshIdsRun(Step(st, its[0]), its[1..]);
    }
  }

  /**
   Steer resolution. At most one request is outstanding, and none once the loop has exited; every
   other request taken got exactly one ack or had its sender dropped, which happens only on a handler
   failure, and then to one only.
   */
  lemma EveryRequestResolvedOnce(st: Loop, its: seq<Iter>, t: Token)
    requires st.taken == [] && st.acks == [] && st.dropped == [] && st.pending.None? && st.exit.None?
    requires LoopRun(st, its)
    ensures var e := After(st, its);
      && Times(e.taken, t) == Acks(e.acks, t) + Times(e.dropped, t) + Waiting(e, t)
      && |e.taken| == |e.acks| + |e.dropped| + Outstanding(e)
      && (e.exit.Some? ==> Outstanding(e) == 0)
      && (e.dropped != [] ==> e.exit == Some(HandlerFailed) && |e.dropped| == 1)
  {
    ResolvedRun(st, its, t);
  }

  /** A request the dispatch fails to answer: its `?` leaves the loop. */
  predicate HandlerFails(m: Msg) {
    || (m.call.Some? && m.call.value.RequestPermission? && !m.call.value.ok)
    || (m.call.Some? && m.call.value.UnknownMethod? && !m.call.value.ok && m.id.Some?)
  }

  /**
   Not every return path answers a pending steer: its sender is dropped exactly when a handler
   fails while it is pending.
   */
  lemma DroppedWhen(st: Loop, it: Iter)
    requires st.exit.None? && IterOk(st, it)
    ensures Step(st, it).dropped != st.dropped <==>
      && it.check < NextDeadline(st) && it.sel.ReadArm? && it.sel.read.Json?
      && st.pending.Some? && HandlerFails(it.sel.read.msg)
    ensures Step(st, it).dropped != st.dropped ==> Step(st, it).dropped == st.dropped + [st.pending.value.token]
  {
    if it.check < NextDeadline(st) && Reads(it) && st.pending.Some? && HandlerFails(it.sel.read.msg) {
      assert Step(st, it) == Abandon(Active(st, it.act));
    }
  }

  // ---- routing ----

  predicate Reads(it: Iter) {
    it.sel.ReadArm? && it.sel.read.Json?
  }

  /** In this iteration the response to the pending steer is read. */
  predicate AnswersSteer(st: Loop, it: Iter) {
    Reads(it) && st.pending.Some? && IsResponse(it.sel.read.msg, st.pending.value.id)
  }

  /**
   Routing. In every state a run can reach, an iteration returns the prompt's outcome exactly when
   it reads the response to the prompt, and answers a pending steer from the wire exactly when it
   reads the response to that steer, which never ends the loop.
   */
  lemma Routing(st0: Loop, its: seq<Iter>, it: Iter)
    requires st0.pending.None? && st0.expected < st0.nextId && LoopRun(st0, its)
    requires var st := After(st0, its); st.exit.None? && IterOk(st, it) && it.check < NextDeadline(st)
    ensures var st := After(st0, its); var e := Step(st, it);
      && ((e.exit == Some(PromptResult) || (e.exit.Some? && e.exit.value.PromptError?))
          <==> Reads(it) && IsResponse(it.sel.read.msg, st0.expected))
      && (AnswersSteer(st, it) ==>
            && e.exit.None? && e.pending.None?
            && e.acks == st.acks + [Answer(st.pending.value, it.sel.read.msg)])
      && (st.pending.Some? && !AnswersSteer(st, it) ==>
            e.pending == st.pending || (e.exit.Some? && e.pending.None?))
  {
    FreshIdsRun(st0, its);
    RoutingStep(After(st0, its), it);
  }

  lemma RoutingStep(st: Loop, it: Iter)
    requires FreshIds(st) && st.exit.None? && IterOk(st, it) && it.check < NextDeadline(st)
    ensures var e := Step(st, it);
      && ((e.exit == Some(PromptResult) || (e.exit.Some? && e.exit.value.PromptError?))
          <==> Reads(it) && IsResponse(it.sel.read.msg, st.expected))
      && (AnswersSteer(st, it) ==>
            && e.exit.None? && e.pending.None?
            && e.acks == st.acks + [Answer(st.pending.value, it.sel.read.msg)])
      && (st.pending.Some? && !AnswersSteer(st, it) ==>
            e.pending == st.pending || (e.exit.Some? && e.pending.None?))
  {
  }

  /** A positive acknowledgement: a goose success, or an ACP outcome that names a delivery. */
  predicate Delivers(transport: Transport, m: Msg) {
    m.error.None? && (transport.Goose? || m.outcome == Injected || m.outcome == StartedNewTurn)
  }

  lemma NoSuccess(st: Loop, it: Iter)
    requires st.exit.None? && !(it.check < NextDeadline(st) && AnswersSteer(st, it))
    ensures var e := Step(st, it);
      e.acks == st.acks || (e.acks == st.acks + [e.acks[|st.acks|]] && e.acks[|st.acks|].ack != Success)
  {
  }

  /** One iteration acknowledges success only on a delivering response to the pending steer. */
  lemma SuccessMeansDelivered(st: Loop, it: Iter)
    requires st.exit.None? && IterOk(st, it)
    ensures |Step(st, it).acks| <= |st.acks| + 1 && st.acks <= Step(st, it).acks
    ensures |Step(st, it).acks| > |st.acks| && Step(st, it).acks[|st.acks|].ack == Success ==>
      && it.check < NextDeadline(st) && it.sel.ReadArm? && it.sel.read.Json? && st.pending.Some?
      && IsResponse(it.sel.read.msg, st.pending.value.id)
      && Delivers(st.pending.value.transport, it.sel.read.msg)
      && Step(st, it).acks[|st.acks|].token == st.pending.value.token
  {
    var e := Step(st, it);
    if it.check < NextDeadline(st) && AnswersSteer(st, it) {
      assert e == Route(Active(st, it.act), it.sel.read.msg, it.late);
    } else {
      NoSuccess(st, it);
    }
  }

  // ---- time ----

  /** An iteration that starts before the deadline ends at most `d` after it. */
  ghost predicate Timely(st: Loop, its: seq<Iter>, d: Time)
    decreases |its|
  {
    its == [] ||
    ((its[0].check < NextDeadline(st) ==> its[0].late <= NextDeadline(st) + d) && Timely(Step(st, its[0]), its[1..], d))
  }

  /** When a run has got to: the exit check, or the end of the last iteration. */
  function EndTime(st: Loop, it: Iter): Time {
    if it.check >= NextDeadline(st) then it.check else it.late
  }

  ghost function FinalTime(st: Loop, its: seq<Iter>): Time
    requires its != []
    decreases |its|
  {
    if |its| == 1 then EndTime(st, its[0]) else FinalTime(Step(st, its[0]), its[1..])
  }

  /** The hard deadline never moves back, and one iteration renews it at most once, by at most its length plus `d`. */
  lemma HardDeadlineStep(st: Loop, it: Iter, d: Time)
    requires st.exit.None? && IterOk(st, it) && d >= 0.0
    requires it.check < NextDeadline(st) ==> it.late <= NextDeadline(st) + d
    ensures var e := Step(st, it);
      && e.hardDeadline >= st.hardDeadline
      && st.renewals <= e.renewals <= st.renewals + 1
      && (e.renewals == st.renewals ==> e.hardDeadline == st.hardDeadline)
      && (e.renewals > st.renewals ==> e.hardDeadline <= st.hardDeadline + st.maxDuration + d)
      && e.maxDuration == st.maxDuration
  {
  }

  /** The latest hard deadline after `k` renewals. */
  ghost function Budget(h0: Time, k: nat, m: Time): Time {
    if k == 0 then h0 else Budget(h0, k - 1, m) + m
  }

  lemma {:induction false} BudgetIsLinear(h0: Time, k: nat, m: Time)
    ensures Budget(h0, k, m) == h0 + k as real * m
  {
    if k > 0 {
      BudgetIsLinear(h0, k - 1, m);
      assert k as real * m == (k - 1) as real * m + m;
    }
  }

  lemma WithinStep(st: Loop, it: Iter, d: Time, h0: Time, m: Time)
    requires m == st.maxDuration + d && d >= 0.0 && st.exit.None? && IterOk(st, it)
    requires it.check < NextDeadline(st) ==> it.late <= NextDeadline(st) + d
    requires st.hardDeadline <= Budget(h0, st.renewals, m) && it.check <= st.hardDeadline + d
    ensures var e := Step(st, it);
      && EndTime(st, it) <= st.hardDeadline + d <= e.hardDeadline + d
      && (e.exit.None? ==> it.late <= e.hardDeadline + d)
      && e.hardDeadline <= Budget(h0, e.renewals, m)
      && e.maxDuration == st.maxDuration
  {
    HardDeadlineStep(st, it, d);
  }

  lemma {:induction false} WithinBudget(st: Loop, its: seq<Iter>, d: Time, h0: Time, m: Time)
    requires LoopRun(st, its) && Timely(st, its, d) && its != [] && d >= 0.0 && m == st.maxDuration + d
    requires st.hardDeadline <= Budget(h0, st.renewals, m) && its[0].check <= st.hardDeadline + d
    ensures FinalTime(st, its) <= After(st, its).hardDeadline + d <= Budget(h0, After(st, its).renewals, m) + d
    ensures After(st, its).hardDeadline >= st.hardDeadline
    decreases |its|
  {
    var e, rest := Step(st, its[0]), its[1..];
    WithinStep(st, its[0], d, h0, m);
    assert After(st, its) == After(e, rest);
    if rest != [] {
      assert its[1] == rest[0];
      WithinBudget(e, rest, d, h0, m);
    }
  }

  /**
   Read-loop time bound: entered before H0 with no renewals, a run with `k` renewals has got no
   further than H0 + k * (M + d) + d, however many lines it read.
   */
  lemma TimeBound(st: Loop, its: seq<Iter>, d: Time, k: nat, m: Time)
    requires m == st.maxDuration + d
    requires LoopRun(st, its) && Timely(st, its, d) && its != [] && d >= 0.0
    requires st.renewals == 0 && its[0].check <= st.hardDeadline && After(st, its).renewals == k
    ensures FinalTime(st, its) <= st.hardDeadline + k as real * m + d
    ensures After(st, its).hardDeadline >= st.hardDeadline
  {
    var h0 := st.hardDeadline;
    assert Budget(h0, 0, m) == h0;
    WithinBudget(st, its, d, h0, m);
    BudgetIsLinear(h0, k, m);
  }

  /** Instant of the last valid JSON line of a run, or `t` when there is none. */
  function LastJson(t: Time, its: seq<Iter>): Time
    decreases |its|
  {
    if its == [] then t
    else LastJson(if Reads(its[0]) then its[0].act else t, its[1..])
  }

  predicate Fires(st: Loop, it: Iter) {
    it.check >= NextDeadline(st) || it.sel.TimerArm?
  }

  lemma NoTimeout(st: Loop, it: Iter)
    requires st.exit.None? && !Fires(st, it)
    ensures Step(st, it).exit != Some(IdleTimeout) && Step(st, it).exit != Some(HardTimeout)
  {
  }

  /** When a deadline fires, the exit names it and it has passed. */
  lemma TimeoutsAreDue(st: Loop, it: Iter)
    requires st.exit.None? && IterOk(st, it)
    ensures var e := Step(st, it);
      && (e.exit == Some(IdleTimeout) ==>
            EndTime(st, it) >= st.idleDeadline && !(it.check < NextDeadline(st) && it.sel.ReadArm?))
      && (e.exit == Some(HardTimeout) ==> EndTime(st, it) >= st.hardDeadline)
  {
    if Fires(st, it) {
      assert Step(st, it).exit == Some(if IdleFirst(st) then IdleTimeout else HardTimeout);
    } else {
      NoTimeout(st, it);
    }
  }

  lemma IdleDeadlineMessage(st: Loop, m: Msg, late: Time)
    ensures var e := OnMessage(st, m, late);
      && e.idleTimeout == st.idleTimeout
      && (e.idleDeadline == st.idleDeadline || e.idleDeadline == late + st.idleTimeout)
  {
  }

  /** Only a valid JSON line moves the idle deadline, and then to a full idle timeout from the line or later. */
  lemma IdleDeadlineStep(st: Loop, it: Iter)
    requires st.exit.None? && IterOk(st, it)
    ensures var e := Step(st, it);
      && e.idleTimeout == st.idleTimeout
      && (e.exit.None? ==>
            if Reads(it) then e.idleDeadline >= it.act + st.idleTimeout else e.idleDeadline == st.idleDeadline)
  {
    if !Fires(st, it) && Reads(it) {
      IdleDeadlineMessage(Active(st, it.act), it.sel.read.msg, it.late);
      assert Step(st, it) == OnMessage(Active(st, it.act), it.sel.read.msg, it.late);
    }
  }

  lemma IdleStep(st: Loop, it: Iter, t: Time)
    requires st.exit.None? && IterOk(st, it) && st.idleDeadline >= t + st.idleTimeout
    ensures var e := Step(st, it);
      && (e.exit == Some(IdleTimeout) ==>
            EndTime(st, it) >= t + st.idleTimeout && !(it.check < NextDeadline(st) && it.sel.ReadArm?))
      && (e.exit == Some(HardTimeout) ==> EndTime(st, it) >= st.hardDeadline)
      && (e.exit.None? ==> e.idleDeadline >= (if Reads(it) then it.act else t) + st.idleTimeout)
      && e.idleTimeout == st.idleTimeout
  {
    TimeoutsAreDue(st, it);
    IdleDeadlineStep(st, it);
  }

  /**
   Idle timeouts are earned: the loop returns IdleTimeout only after a full idle_timeout since
   it was entered and since the last valid JSON line; HardTimeout only past the hard deadline.
   */
  lemma {:induction false} IdleMeansSilent(st: Loop, its: seq<Iter>, t: Time)
    requires LoopRun(st, its) && its != [] && st.exit.None? && st.idleDeadline >= t + st.idleTimeout
    ensures var e := After(st, its); var seen := LastJson(t, its[..|its| - 1]);
      && (e.exit == Some(IdleTimeout) ==> FinalTime(st, its) >= seen + st.idleTimeout)
      && (e.exit == Some(HardTimeout) ==> FinalTime(st, its) >= st.hardDeadline)
    decreases |its|
  {
    var e := Step(st, its[0]);
    IdleStep(st, its[0], t);
    if |its| > 1 {
      var t' := if Reads(its[0]) then its[0].act else t;
      HardMonotone(st, its[0]);
      IdleMeansSilent(e, its[1..], t');
      assert its[..|its| - 1][1..] == its[1..][..|its| - 2];
    } else {
      assert its[..0] == [];
      assert After(st, its) == e;
    }
  }

  lemma HardMonotone(st: Loop, it: Iter)
    ensures Step(st, it).hardDeadline >= st.hardDeadline
  {
  }
}
