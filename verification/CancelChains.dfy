/**
 Cancel and merge: over any chain of cancelled turns no event is lost or reordered.
 */
module CancelChains {
  import opened Basics
  import opened Events
  import opened QueueModel
  import opened QueueRuns

  /** Operations between a cancel and the next flush that leave the cancelled batch of `c` where it is. */
  ghost predicate LeavesCancelled(w: World, op: Op, c: Channel)
    requires Legal(w, op)
  {
    && !(op.DrainOp? && op.c == c)
    && !(op.FlushOp? && op.pick == c)
    && !(op.CancelOp? && w.out[op.i].channel == c)
  }

  ghost predicate LeavesCancelledRun(w: World, ops: seq<Op>, c: Channel)
    requires LegalRun(w, ops)
    decreases |ops|
  {
    ops == [] || (LeavesCancelled(w, ops[0], c) && LeavesCancelledRun(Apply(w, ops[0]), ops[1..], c))
  }

  lemma CancelledStays(w: World, op: Op, c: Channel)
    requires Legal(w, op) && LeavesCancelled(w, op, c)
    ensures Entry(NextState(w, op).cancelled, c) == Entry(w.q.cancelled, c)
    ensures Entry(NextState(w, op).cancelReasons, c) == Entry(w.q.cancelReasons, c)
  {
    if !Concerns(w, op, c) {
      Frame(w, op, c);
    } else if op.FlushOp? {
      FrameFlush(Expire(w.q, op.now), op.now, op.pick, c);
    }
  }

  lemma {:induction false} CancelledStaysRun(w: World, ops: seq<Op>, c: Channel)
    requires LegalRun(w, ops) && LeavesCancelledRun(w, ops, c)
    ensures Entry(Run(w, ops).q.cancelled, c) == Entry(w.q.cancelled, c)
    ensures Entry(Run(w, ops).q.cancelReasons, c) == Entry(w.q.cancelReasons, c)
    decreases |ops|
  {
    if ops != [] {
      CancelledStays(w, ops[0], c);
      CancelledStaysRun(Apply(w, ops[0]), ops[1..], c);
    }
  }

  /** What the flush of `c` at `now` takes from the queue: nothing on the cancelled-only path. */
  ghost function Fresh(w: World, now: Time, c: Channel): seq<BatchEvent> {
    var s := Expire(w.q, now);
    if Eligible(s, now, c) then Drained(s, c) else []
  }

  /**
   One link of a chain: the batch at `i` is cancelled, reaching `cancelled`; then `between`
   happens, reaching `before`; then `c` is flushed at `now`, giving `next` and reaching `after`.
   */
  datatype Link = Link(i: nat, reason: CancelReason, cancelled: World, between: seq<Op>, before: World,
                       now: Time, next: FlushBatch, after: World)

  ghost predicate LinkOk(w: World, c: Channel, b: FlushBatch, l: Link) {
    && b.channel == c && l.i < |w.out| && w.out[l.i] == b
    && l.cancelled == Apply(w, CancelOp(l.i, l.reason))
    && LegalRun(l.cancelled, l.between) && LeavesCancelledRun(l.cancelled, l.between, c)
    && l.before == Run(l.cancelled, l.between)
    && Legal(l.before, FlushOp(l.now, c))
    && l.next == Flushed(l.before, FlushOp(l.now, c))
    && l.after == Apply(l.before, FlushOp(l.now, c))
  }

  lemma CancelStores(w: World, i: nat, reason: CancelReason)
    requires i < |w.out| && w.out[i].channel !in w.q.cancelled
    ensures var s := Apply(w, CancelOp(i, reason)).q;
      && Entry(s.cancelled, w.out[i].channel) == Some(Full(w.out[i]))
      && Entry(s.cancelReasons, w.out[i].channel) == Some(reason)
  {
    var b := w.out[i];
    assert [] + b.cancelledEvents + b.events == Full(b);
  }

  lemma FlushMerges(s: State, now: Time, c: Channel, carried: seq<BatchEvent>, reason: CancelReason)
    requires Entry(s.cancelled, c) == Some(carried) && carried != [] && Entry(s.cancelReasons, c) == Some(reason)
    ensures var (s1, b) := FlushAs(s, now, c);
      && Full(b) == carried + (if Eligible(s, now, c) then Drained(s, c) else [])
      && b.channel == c && b.cancelReason == Some(reason)
      && c !in s1.cancelled
  {
    assert [] + carried == carried + [];
  }

  /**
   One link: the next batch carries everything the cancelled one carried, in order,
   followed by what is newly drained, and the reason of this cancel.
   */
  lemma LinkKeepsAll(w: World, c: Channel, b: FlushBatch, l: Link)
    requires LinkOk(w, c, b, l) && c !in w.q.cancelled && b.events != []
    ensures Full(l.next) == Full(b) + Fresh(l.before, l.now, c)
    ensures l.next.channel == c && l.next.cancelReason == Some(l.reason)
    ensures c !in l.after.q.cancelled
  {
    CancelStores(w, l.i, l.reason);
    CancelledStaysRun(l.cancelled, l.between, c);
    var s := Expire(l.before.q, l.now);
    assert s.cancelled == l.before.q.cancelled && s.cancelReasons == l.before.q.cancelReasons;
    FlushMerges(s, l.now, c, Full(b), l.reason);
  }

  // ---- whole chains ----

  ghost predicate Chain(w: World, c: Channel, b: FlushBatch, links: seq<Link>)
    decreases |links|
  {
    links == [] || (LinkOk(w, c, b, links[0]) && Chain(links[0].after, c, links[0].next, links[1..]))
  }

  /** Everything the flushes of the chain newly drained, in order. */
  ghost function AllFresh(c: Channel, links: seq<Link>): seq<BatchEvent> {
    if links == [] then [] else Fresh(links[0].before, links[0].now, c) + AllFresh(c, links[1..])
  }

  lemma InvLink(w: World, c: Channel, b: FlushBatch, l: Link)
    requires Inv(w) && LinkOk(w, c, b, l)
    ensures b.events != [] && Inv(l.after)
  {
    InvStep(w, CancelOp(l.i, l.reason));
    InvRun(l.cancelled, l.between);
    InvStep(l.before, FlushOp(l.now, c));
  }

  function LastLink(links: seq<Link>): Link
    requires links != []
  {
    if |links| == 1 then links[0] else LastLink(links[1..])
  }

  /** What each link of a chain does to the batch. */
  ghost predicate Carried(c: Channel, b: FlushBatch, links: seq<Link>)
    decreases |links|
  {
    links == [] ||
    (&& Full(links[0].next) == Full(b) + Fresh(links[0].before, links[0].now, c)
     && links[0].next.cancelReason == Some(links[0].reason)
     && Carried(c, links[0].next, links[1..]))
  }

  lemma {:induction false} ChainCarries(w: World, c: Channel, b: FlushBatch, links: seq<Link>)
    requires Inv(w) && Chain(w, c, b, links) && c !in w.q.cancelled
    ensures Carried(c, b, links)
    decreases |links|
  {
    if links != [] {
      InvLink(w, c, b, links[0]);
      LinkKeepsAll(w, c, b, links[0]);
      ChainCarries(links[0].after, c, links[0].next, links[1..]);
    }
  }

  lemma {:induction false} CarriedToTheEnd(c: Channel, b: FlushBatch, links: seq<Link>)
    requires Carried(c, b, links) && links != []
    ensures Full(LastLink(links).next) == Full(b) + AllFresh(c, links)
    ensures LastLink(links).next.cancelReason == Some(LastLink(links).reason)
    decreases |links|
  {
    var l, rest := links[0], links[1..];
    Assoc(Full(b), Fresh(l.before, l.now, c), AllFresh(c, rest));
    if rest != [] {
      CarriedToTheEnd(c, l.next, rest);
    }
  }

  /**
   Cancel chains lose nothing: after any number of cancels the last batch holds the first
   batch's events followed by everything drained since, in order, under the latest reason.
   */
  lemma ChainKeepsAll(w: World, c: Channel, b: FlushBatch, links: seq<Link>)
    requires Inv(w) && Chain(w, c, b, links) && c !in w.q.cancelled && links != []
    ensures Full(LastLink(links).next) == Full(b) + AllFresh(c, links)
    ensures LastLink(links).next.cancelReason == Some(LastLink(links).reason)
  {
    ChainCarries(w, c, b, links);
    CarriedToTheEnd(c, b, links);
  }

  // ---- the prompt ----

  /** One rendered event block; `number` is absent on the single-event form. */
  datatype Block = Block(number: Option<nat>, event: BatchEvent)

  /** The events of rendered blocks. */
  function Rendered(blocks: seq<Block>): seq<BatchEvent> {
    seq(|blocks|, i requires 0 <= i < |blocks| => blocks[i].event)
  }

  /** The numbered loop of format_prompt over one list of events. */
  method NumberedBlocks(events: seq<BatchEvent>) returns (blocks: seq<Block>)
    ensures Rendered(blocks) == events
    ensures forall i :: 0 <= i < |blocks| ==> blocks[i].number == Some(i + 1)
  {
    blocks := [];
    for i := 0 to |events|
      invariant |blocks| == i
      invariant forall j :: 0 <= j < i ==> blocks[j] == Block(Some(j + 1), events[j])
    {
      blocks := blocks + [Block(Some(i + 1), events[i])];
    }
  }

  /** The event sections of format_prompt: one block per event of the batch, carried-over events first. */
  method EventSections(b: FlushBatch) returns (prior: seq<Block>, current: seq<Block>)
    ensures Rendered(prior + current) == Full(b)
    ensures Rendered(prior) == b.cancelledEvents && Rendered(current) == b.events
    ensures forall i :: 0 <= i < |prior| ==> prior[i].number == Some(i + 1)
    ensures forall i :: 0 <= i < |current| ==>
      current[i].number == if |b.events| == 1 && b.cancelledEvents == [] then None else Some(i + 1)
  {
    prior := [];
    if b.cancelledEvents != [] {
      prior := NumberedBlocks(b.cancelledEvents);
    }
    if |b.events| == 1 {
      if b.cancelledEvents != [] {
        current := [Block(Some(1), b.events[0])];
      } else {
        current := [Block(None, b.events[0])];
      }
    } else {
      current := NumberedBlocks(b.events);
    }
    assert Rendered(prior + current) == Rendered(prior) + Rendered(current);
  }
}
