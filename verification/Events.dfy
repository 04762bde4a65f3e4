/**
 Events, batches and the sequence facts the queue proofs share.

 Channel and event identifiers are abstract; instants are seconds on a monotone
 clock, modelled as reals; `createdAt` is the event's own Unix timestamp.
 */
module Events {
  import opened Basics

  type Channel = nat
  type EventId = nat

  datatype Event = Event(id: EventId, createdAt: nat)

  /** An event waiting in the queue. */
  datatype QueuedEvent = QueuedEvent(channel: Channel, event: Event, receivedAt: Time, promptTag: string, isIssue: bool)

  /** An event inside a batch; the batch itself names the channel. */
  datatype BatchEvent = BatchEvent(event: Event, promptTag: string, receivedAt: Time, isIssue: bool)

  datatype CancelReason = Interrupt | Steer

  datatype DedupMode = Drop | Queue

  datatype FlushBatch = FlushBatch(
    channel: Channel,
    events: seq<BatchEvent>,
    cancelledEvents: seq<BatchEvent>,
    cancelReason: Option<CancelReason>)

  /** Everything a batch carries, carried-over events first. */
  function Full(b: FlushBatch): seq<BatchEvent> {
    b.cancelledEvents + b.events
  }

  function ToBatch(qe: QueuedEvent): BatchEvent {
    BatchEvent(qe.event, qe.promptTag, qe.receivedAt, qe.isIssue)
  }

  function ToQueued(c: Channel, be: BatchEvent): QueuedEvent {
    QueuedEvent(c, be.event, be.receivedAt, be.promptTag, be.isIssue)
  }

  function AllToBatch(q: seq<QueuedEvent>): seq<BatchEvent> {
    seq(|q|, i requires 0 <= i < |q| => ToBatch(q[i]))
  }

  function AllToQueued(c: Channel, b: seq<BatchEvent>): seq<QueuedEvent> {
    seq(|b|, i requires 0 <= i < |b| => ToQueued(c, b[i]))
  }

  // ---- identifiers as sequences and multisets ----

  function QIds(q: seq<QueuedEvent>): seq<EventId> {
    seq(|q|, i requires 0 <= i < |q| => q[i].event.id)
  }

  function BIds(b: seq<BatchEvent>): seq<EventId> {
    seq(|b|, i requires 0 <= i < |b| => b[i].event.id)
  }

  lemma QIdsAppend(a: seq<QueuedEvent>, b: seq<QueuedEvent>)
    ensures multiset(QIds(a + b)) == multiset(QIds(a)) + multiset(QIds(b))
  {
    assert QIds(a + b) == QIds(a) + QIds(b);
  }

  lemma BIdsAppend(a: seq<BatchEvent>, b: seq<BatchEvent>)
    ensures multiset(BIds(a + b)) == multiset(BIds(a)) + multiset(BIds(b))
  {
    assert BIds(a + b) == BIds(a) + BIds(b);
  }

  /** Cutting a queue in two loses no identifier. */
  lemma QIdsSplit(q: seq<QueuedEvent>, k: nat)
    requires k <= |q|
    ensures multiset(QIds(q)) == multiset(QIds(q[..k])) + multiset(QIds(q[k..]))
  {
    assert q == q[..k] + q[k..];
    QIdsAppend(q[..k], q[k..]);
  }

  // ---- looking up and removing by identifier ----

  /** Index of the first event with this id, or the length when absent. */
  function FirstIndex(q: seq<QueuedEvent>, id: EventId): (k: nat)
    ensures k <= |q|
    ensures k < |q| ==> q[k].event.id == id
    ensures forall i :: 0 <= i < k ==> q[i].event.id != id
  {
    if q == [] then 0 else if q[0].event.id == id then 0 else 1 + FirstIndex(q[1..], id)
  }

  function RemoveAt(q: seq<QueuedEvent>, k: nat): seq<QueuedEvent>
    requires k < |q|
  {
    q[..k] + q[k + 1..]
  }

  lemma QIdsRemoveAt(q: seq<QueuedEvent>, k: nat)
    requires k < |q|
    ensures multiset(QIds(q)) == multiset(QIds(RemoveAt(q, k))) + multiset{q[k].event.id}
  {
    QIdsSplit(q, k);
    QIdsAppend(q[..k], q[k + 1..]);
    QIdsAppend([q[k]], q[k + 1..]);
    assert q[k..] == [q[k]] + q[k + 1..];
    assert QIds([q[k]]) == [q[k].event.id];
  }

  /** The events whose id differs from `id`, in order. */
  function WithoutId(q: seq<QueuedEvent>, id: EventId): (r: seq<QueuedEvent>)
    ensures |r| <= |q|
    ensures forall y :: y in r ==> y in q && y.event.id != id
  {
    if q == [] then []
    else if q[0].event.id == id then WithoutId(q[1..], id)
    else [q[0]] + WithoutId(q[1..], id)
  }

  lemma {:induction false} CountWithoutId(q: seq<QueuedEvent>, id: EventId, x: EventId)
    ensures multiset(QIds(WithoutId(q, id)))[x] == if x == id then 0 else multiset(QIds(q))[x]
  {
    if q != [] {
      CountWithoutId(q[1..], id, x);
      assert q == [q[0]] + q[1..];
      QIdsAppend([q[0]], q[1..]);
      assert QIds([q[0]]) == [q[0].event.id];
      if q[0].event.id != id {
        QIdsAppend([q[0]], WithoutId(q[1..], id));
      }
    }
  }

  // ---- stable sort by the event's own timestamp ----

  ghost predicate SortedByCreated(s: seq<BatchEvent>) {
    forall i, j :: 0 <= i < j < |s| ==> s[i].event.createdAt <= s[j].event.createdAt
  }

  /** The events created at second `k`, in order. */
  function CreatedAt(s: seq<BatchEvent>, k: nat): seq<BatchEvent> {
    if s == [] then []
    else
      var rest := CreatedAt(s[..|s| - 1], k);
      if s[|s| - 1].event.createdAt == k then rest + [s[|s| - 1]] else rest
  }

  function InsertByCreated(s: seq<BatchEvent>, x: BatchEvent): (r: seq<BatchEvent>)
    ensures |r| == |s| + 1
  {
    if s == [] || s[|s| - 1].event.createdAt <= x.event.createdAt then s + [x]
    else InsertByCreated(s[..|s| - 1], x) + [s[|s| - 1]]
  }

  function SortByCreated(s: seq<BatchEvent>): (r: seq<BatchEvent>)
    ensures |r| == |s|
  {
    if s == [] then [] else InsertByCreated(SortByCreated(s[..|s| - 1]), s[|s| - 1])
  }

  lemma {:induction false} InsertMembers(s: seq<BatchEvent>, x: BatchEvent)
    ensures forall y :: y in InsertByCreated(s, x) ==> y in s || y == x
    ensures multiset(InsertByCreated(s, x)) == multiset(s) + multiset{x}
  {
    if s == [] || s[|s| - 1].event.createdAt <= x.event.createdAt {
    } else {
      var init, last := s[..|s| - 1], s[|s| - 1];
      assert s == init + [last];
      InsertMembers(init, x);
    }
  }

  lemma {:induction false} InsertSorted(s: seq<BatchEvent>, x: BatchEvent)
    requires SortedByCreated(s)
    ensures SortedByCreated(InsertByCreated(s, x))
  {
    if s == [] || s[|s| - 1].event.createdAt <= x.event.createdAt {
    } else {
      var init, last := s[..|s| - 1], s[|s| - 1];
      InsertSorted(init, x);
      InsertMembers(init, x);
      var r := InsertByCreated(init, x);
      assert forall i :: 0 <= i < |r| ==> r[i] in r;
    }
  }

  lemma {:induction false} InsertStable(s: seq<BatchEvent>, x: BatchEvent, k: nat)
    requires SortedByCreated(s)
    ensures CreatedAt(InsertByCreated(s, x), k) == CreatedAt(s + [x], k)
  {
    assert (s + [x])[..|s|] == s;
    if s == [] || s[|s| - 1].event.createdAt <= x.event.createdAt {
    } else {
      var init, last := s[..|s| - 1], s[|s| - 1];
      InsertStable(init, x, k);
      var r := InsertByCreated(s, x);
      assert r[..|r| - 1] == InsertByCreated(init, x);
      assert (init + [x])[..|init|] == init;
    }
  }

  /** The batch sort is a sort, keeps every event, and keeps the order of events of the same second. */
  lemma {:induction false} SortByCreatedCorrect(s: seq<BatchEvent>)
    ensures SortedByCreated(SortByCreated(s))
    ensures multiset(SortByCreated(s)) == multiset(s)
    ensures forall k :: CreatedAt(SortByCreated(s), k) == CreatedAt(s, k)
  {
    if s != [] {
      var init, last := s[..|s| - 1], s[|s| - 1];
      assert s == init + [last];
      SortByCreatedCorrect(init);
      InsertMembers(SortByCreated(init), last);
      InsertSorted(SortByCreated(init), last);
      forall k ensures CreatedAt(SortByCreated(s), k) == CreatedAt(s, k) {
        InsertStable(SortByCreated(init), last, k);
        var t := SortByCreated(init) + [last];
        assert t[..|t| - 1] == SortByCreated(init);
      }
    }
  }

  lemma {:induction false} InsertIds(s: seq<BatchEvent>, x: BatchEvent)
    ensures multiset(BIds(InsertByCreated(s, x))) == multiset(BIds(s)) + multiset{x.event.id}
  {
    assert BIds([x]) == [x.event.id];
    if s == [] || s[|s| - 1].event.createdAt <= x.event.createdAt {
      BIdsAppend(s, [x]);
    } else {
      var init, last := s[..|s| - 1], s[|s| - 1];
      assert s == init + [last];
      InsertIds(init, x);
      BIdsAppend(init, [last]);
      BIdsAppend(InsertByCreated(init, x), [last]);
    }
  }

  lemma {:induction false} SortIds(s: seq<BatchEvent>)
    ensures multiset(BIds(SortByCreated(s))) == multiset(BIds(s))
  {
    if s == [] {
      assert BIds(s) == [];
    } else {
      var init, last := s[..|s| - 1], s[|s| - 1];
      assert s == init + [last];
      SortIds(init);
      InsertIds(SortByCreated(init), last);
      BIdsAppend(init, [last]);
      assert BIds([last]) == [last.event.id];
    }
  }
}
