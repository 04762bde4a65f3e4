/**
 The event queue as the program writes it: a mutable object whose methods update
 its tables in place. Each method is proved against its function in QueueModel.
 */
module EventQueues {
  import opened Basics
  import opened Events
  import M = QueueModel
  import QM = QueueMeaning

  class EventQueue {
    var queues: map<Channel, seq<QueuedEvent>>
    var inFlight: set<Channel>
    var deadlines: map<Channel, Time>
    var batchSizes: map<Channel, nat>
    var retryAfter: map<Channel, Time>
    var retryCounts: map<Channel, nat>
    var cancelled: map<Channel, seq<BatchEvent>>
    var cancelReasons: map<Channel, CancelReason>
    var withheld: map<Channel, seq<QueuedEvent>>
    var dedup: DedupMode
    var inFlightDeadline: Time

    /** The tables as one value. */
    function Model(): M.State
      reads this
    {
      M.State(queues, inFlight, deadlines, batchSizes, retryAfter, retryCounts, cancelled, cancelReasons,
              withheld, dedup, inFlightDeadline)
    }

    constructor (dedupMode: DedupMode)
      ensures Model() == M.Initial(dedupMode, M.DEFAULT_IN_FLIGHT_DEADLINE_SECS as real)
    {
      queues, inFlight, deadlines, batchSizes, retryAfter, retryCounts := map[], {}, map[], map[], map[], map[];
      cancelled, cancelReasons, withheld := map[], map[], map[];
      dedup, inFlightDeadline := dedupMode, M.DEFAULT_IN_FLIGHT_DEADLINE_SECS as real;
    }

    method WithInFlightDeadline(maxTurnSecs: nat)
      modifies this
      ensures Model() == old(Model()).(inFlightDeadline := (maxTurnSecs + M.IN_FLIGHT_DEADLINE_BUFFER_SECS) as real)
    {
      inFlightDeadline := (maxTurnSecs + M.IN_FLIGHT_DEADLINE_BUFFER_SECS) as real;
    }

    method ExtendInFlightDeadline(c: Channel, maxTurnSecs: nat, now: Time)
      modifies this`deadlines
      ensures Model() == M.Extend(old(Model()), c, maxTurnSecs, now)
    {
      if c in deadlines {
        var extended := now + (maxTurnSecs + M.IN_FLIGHT_DEADLINE_BUFFER_SECS) as real;
        if extended > deadlines[c] {
          deadlines := deadlines[c := extended];
        }
      }
    }

    method Push(e: QueuedEvent) returns (accepted: bool)
      modifies this`queues
      ensures (Model(), accepted) == M.Push(old(Model()), e)
    {
      if dedup.Drop? && e.channel in inFlight {
        return false;
      }
      var q := if e.channel in queues then queues[e.channel] else [];
      if |q| >= M.MAX_PENDING_PER_CHANNEL {
        q := q[1..];
      }
      queues := queues[e.channel := q + [e]];
      return true;
    }

    /** The pop-from-the-back loop that enforces the per-channel cap. */
    static method TrimBack(q0: seq<QueuedEvent>) returns (q: seq<QueuedEvent>)
      ensures q == M.Trim(q0)
    {
      q := q0;
      while |q| > M.MAX_PENDING_PER_CHANNEL
        invariant q <= q0
        invariant |q0| <= M.MAX_PENDING_PER_CHANNEL ==> q == q0
        invariant |q0| > M.MAX_PENDING_PER_CHANNEL ==> |q| >= M.MAX_PENDING_PER_CHANNEL
      {
        q := q[..|q| - 1];
      }
    }

    /** The push-to-the-front loop, back to front, that restores a run of events in order. */
    static method PushFrontAll(entries: seq<QueuedEvent>, q0: seq<QueuedEvent>) returns (q: seq<QueuedEvent>)
      ensures q == entries + q0
    {
      q := q0;
      var i := |entries|;
      while i > 0
        invariant 0 <= i <= |entries|
        invariant q == entries[i..] + q0
      {
        i := i - 1;
        q := [entries[i]] + q;
      }
    }

    method RecoverWithheldForExpiredChannel(c: Channel)
      modifies this`withheld, this`queues
      ensures c !in old(withheld) ==> Model() == old(Model())
      ensures c in old(withheld) ==>
        Model() == old(Model()).(withheld := old(withheld) - {c},
                                 queues := old(queues)[c := M.Trim(old(withheld)[c] + M.QueueOf(old(Model()), c))])
    {
      if c !in withheld {
        return;
      }
      var entries := withheld[c];
      withheld := withheld - {c};
      var q := PushFrontAll(entries, if c in queues then queues[c] else []);
      q := TrimBack(q);
      queues := queues[c := q];
    }

    /** One round of the auto-expiry loop. */
    method ReleaseExpired(c: Channel)
      modifies this
      ensures Model() == M.ExpireOne(old(Model()), c)
    {
      batchSizes := batchSizes - {c};
      inFlight := inFlight - {c};
      deadlines := deadlines - {c};
      RecoverWithheldForExpiredChannel(c);
    }

    /** The auto-expiry block shared by flush_next and has_flushable_work. */
    method AutoExpire(now: Time)
      modifies this
      ensures Model() == M.Expire(old(Model()), now)
    {
      var expired := set c | c in deadlines && now >= deadlines[c];
      ghost var s0 := Model();
      ghost var s := s0;
      ghost var done: set<Channel> := {};
      var rest := expired;
      ExpireNothing(s0);
      while rest != {}
        invariant rest + done == expired && rest !! done
        invariant Model() == s && s == M.ExpireSet(s0, done)
        decreases rest
      {
        var c :| c in rest;
        ReleaseExpired(c);
        ExpireSetStep(s0, done, c);
        s := M.ExpireOne(s, c);
        rest := rest - {c};
        done := done + {c};
      }
      assert done == expired == M.Expired(s0, now);
    }

    /** The eligible channel with the oldest head event, if any channel is eligible. */
    method PickOldest(now: Time) returns (pick: Option<Channel>)
      ensures pick.None? ==> forall d :: !M.Eligible(Model(), now, d)
      ensures pick.Some? ==> M.Oldest(Model(), now, pick.value)
    {
      ghost var s := Model();
      pick := None;
      var rest := queues.Keys;
      while rest != {}
        invariant rest <= queues.Keys
        invariant pick.None? ==> forall d :: M.Eligible(s, now, d) ==> d in rest
        invariant pick.Some? ==> M.Eligible(s, now, pick.value)
        invariant pick.Some? ==>
          forall d :: M.Eligible(s, now, d) && d !in rest ==> M.HeadTime(s, pick.value) <= M.HeadTime(s, d)
        decreases |rest|
      {
        var c :| c in rest;
        if M.Eligible(Model(), now, c) {
          if pick.None? || queues[c][0].receivedAt < queues[pick.value][0].receivedAt {
            pick := Some(c);
          }
        }
        rest := rest - {c};
      }
    }

    /** Some channel with a cancelled batch that is not in flight, if there is one. */
    method PickCancelled() returns (pick: Option<Channel>)
      ensures pick.None? ==> forall d :: !M.CancelReady(Model(), d)
      ensures pick.Some? ==> M.CancelReady(Model(), pick.value)
    {
      var rest := cancelled.Keys;
      pick := None;
      while rest != {} && pick.None?
        invariant pick.None? ==> forall d :: M.CancelReady(Model(), d) ==> d in rest
        invariant pick.Some? ==> M.CancelReady(Model(), pick.value)
        decreases |rest|, pick.None?
      {
        var c :| c in rest;
        if c in cancelled && c !in inFlight {
          pick := Some(c);
        } else {
          rest := rest - {c};
        }
      }
    }

    /** Enter a channel in the three in-flight tables. */
    method StartTurn(c: Channel, now: Time, size: nat)
      modifies this`inFlight, this`deadlines, this`batchSizes
      ensures inFlight == old(inFlight) + {c}
      ensures deadlines == old(deadlines)[c := now + inFlightDeadline]
      ensures batchSizes == old(batchSizes)[c := size]
    {
      inFlight := inFlight + {c};
      deadlines := deadlines[c := now + inFlightDeadline];
      batchSizes := batchSizes[c := size];
    }

    /** Re-dispatch a cancelled batch: nothing queued is ready anywhere. */
    method DispatchCancelled(c: Channel, now: Time) returns (batch: FlushBatch)
      requires c in cancelled
      modifies this
      ensures (Model(), batch) == M.FlushCancelled(old(Model()), now, c)
    {
      var events := cancelled[c];
      cancelled := cancelled - {c};
      var reason := if c in cancelReasons then Some(cancelReasons[c]) else None;
      cancelReasons := cancelReasons - {c};
      StartTurn(c, now, |events|);
      return FlushBatch(c, events, [], reason);
    }

    /** Take up to MAX_BATCH_EVENTS from the front of a queue, in prompt order; an emptied queue loses its entry. */
    method DrainFront(c: Channel) returns (events: seq<BatchEvent>)
      requires c in queues
      modifies this`queues
      ensures events == M.Drained(old(Model()), c)
      ensures queues == M.PutQueue(old(queues), c, old(queues)[c][M.DrainCount(old(queues)[c])..])
    {
      var q := queues[c];
      var n := if |q| < M.MAX_BATCH_EVENTS then |q| else M.MAX_BATCH_EVENTS;
      events := SortByCreated(AllToBatch(q[..n]));
      queues := queues[c := q[n..]];
      if queues[c] == [] {
        queues := queues - {c};
      }
    }

    /** Remove the cancelled batch of a channel with its reason; the reason matters only for a non-empty batch. */
    method TakeCancelled(c: Channel) returns (carried: seq<BatchEvent>, reason: Option<CancelReason>)
      modifies this`cancelled, this`cancelReasons
      ensures carried == M.CancelledOf(old(Model()), c)
      ensures reason == if carried == [] then None else M.ReasonOf(old(Model()), c)
      ensures cancelled == old(cancelled) - {c} && cancelReasons == old(cancelReasons) - {c}
    {
      carried := if c in cancelled then cancelled[c] else [];
      cancelled := cancelled - {c};
      if carried == [] {
        reason := None;
      } else {
        reason := if c in cancelReasons then Some(cancelReasons[c]) else None;
      }
      cancelReasons := cancelReasons - {c};
    }

    /** Put the channel in flight and take over its cancelled batch. */
    method BeginTurn(c: Channel, now: Time, size: nat) returns (carried: seq<BatchEvent>, reason: Option<CancelReason>)
      modifies this`inFlight, this`deadlines, this`batchSizes, this`cancelled, this`cancelReasons
      ensures Model() == M.Dispatch(old(Model()), now, c, size)
      ensures carried == M.CancelledOf(old(Model()), c)
      ensures reason == if carried == [] then None else M.ReasonOf(old(Model()), c)
    {
      StartTurn(c, now, size);
      carried, reason := TakeCancelled(c);
    }

    /** Drain, sort and dispatch the queue of the picked channel, merging its cancelled batch. */
    method DispatchQueued(c: Channel, now: Time) returns (batch: FlushBatch)
      requires c in queues
      modifies this
      ensures (Model(), batch) == M.FlushQueued(old(Model()), now, c)
    {
      var events := DrainFront(c);
      var carried, reason := BeginTurn(c, now, |events|);
      return FlushBatch(c, events, carried, reason);
    }

    method FlushNext(now: Time) returns (batch: Option<FlushBatch>)
      modifies this
      ensures batch.Some? <==> M.Ready(M.Expire(old(Model()), now), now)
      ensures batch.None? ==> Model() == M.Expire(old(Model()), now)
      ensures batch.Some? ==>
        && M.MayFlush(M.Expire(old(Model()), now), now, batch.value.channel)
        && (Model(), batch.value) == M.FlushAs(M.Expire(old(Model()), now), now, batch.value.channel)
        && (M.Eligible(M.Expire(old(Model()), now), now, batch.value.channel) ==> SortedByCreated(batch.value.events))
    {
      AutoExpire(now);
      ghost var s := Model();
      var pick := PickOldest(now);
      if pick.Some? {
        assert M.Eligible(s, now, pick.value) && M.Ready(s, now);
        ghost var q := M.QueueOf(s, pick.value);
        ghost var n := Min(|q|, 50);
        QM.FlushMeaning(s, now, pick.value, n, AllToBatch(q[..n]));
        var b := DispatchQueued(pick.value, now);
        return Some(b);
      }
      var other := PickCancelled();
      if other.Some? {
        assert M.CancelReady(s, other.value) && M.Ready(s, now);
        var b := DispatchCancelled(other.value, now);
        return Some(b);
      }
      assert Model() == s;
      assert (forall d :: !M.Eligible(s, now, d)) && (forall d :: !M.CancelReady(s, d));
      return None;
    }

    method MarkComplete(c: Channel, now: Time)
      modifies this
      ensures Model() == M.MarkComplete(old(Model()), c, now)
    {
      inFlight := inFlight - {c};
      deadlines := deadlines - {c};
      batchSizes := batchSizes - {c};
      if c in retryAfter {
        if retryAfter[c] > now {
        } else {
          retryAfter := retryAfter - {c};
          retryCounts := retryCounts - {c};
        }
      } else {
        retryCounts := retryCounts - {c};
        assert retryAfter - {c} == retryAfter;
      }
    }

    method Requeue(b: FlushBatch, now: Time, nanos: nat) returns (dead: Option<FlushBatch>)
      modifies this
      ensures (Model(), dead) == M.Requeue(old(Model()), b, now, nanos)
    {
      var c := b.channel;
      retryCounts := retryCounts[c := (if c in retryCounts then retryCounts[c] else 0) + 1];
      var attempt := retryCounts[c];
      if attempt > M.MAX_RETRIES {
        retryCounts := retryCounts - {c};
        retryAfter := retryAfter - {c};
        assert retryCounts == old(retryCounts) - {c};
        return Some(b);
      }
      var q := PushFrontAll(AllToQueued(c, b.events), if c in queues then queues[c] else []);
      q := TrimBack(q);
      queues := queues[c := q];
      retryAfter := retryAfter[c := now + M.Delay(attempt, nanos)];
      return None;
    }

    method RequeuePreserveTimestamps(b: FlushBatch)
      modifies this`queues
      ensures Model() == M.RequeuePreserve(old(Model()), b)
    {
      var c := b.channel;
      var q := PushFrontAll(AllToQueued(c, b.events), if c in queues then queues[c] else []);
      q := TrimBack(q);
      queues := queues[c := q];
    }

    method RequeueAsCancelled(b: FlushBatch, reason: CancelReason)
      modifies this`cancelled, this`cancelReasons
      ensures Model() == M.RequeueCancelled(old(Model()), b, reason)
    {
      var entry := if b.channel in cancelled then cancelled[b.channel] else [];
      entry := entry + b.cancelledEvents;
      entry := entry + b.events;
      cancelled := cancelled[b.channel := entry];
      cancelReasons := cancelReasons[b.channel := reason];
    }

    method HasFlushableWork(now: Time) returns (yes: bool)
      modifies this
      ensures Model() == M.Expire(old(Model()), now)
      ensures yes == M.Ready(Model(), now)
    {
      AutoExpire(now);
      var pick := PickOldest(now);
      if pick.Some? {
        return true;
      }
      var other := PickCancelled();
      return other.Some?;
    }

    method HasUndispatchedWork() returns (yes: bool)
      ensures yes == M.Undispatched(Model())
    {
      var queued := exists c | c in queues :: queues[c] != [] && c !in inFlight;
      var hasCancelled := exists c | c in cancelled :: c !in inFlight;
      var hasWithheld := exists c | c in withheld :: withheld[c] != [] && c !in inFlight;
      assert hasCancelled ==> exists c :: M.CancelReady(Model(), c) by {
        if hasCancelled {
          var c :| c in cancelled && c !in inFlight;
          assert M.CancelReady(Model(), c);
        }
      }
      yes := queued || hasCancelled || hasWithheld;
    }

    method DrainChannel(c: Channel) returns (ids: seq<EventId>)
      modifies this
      ensures (Model(), ids) == M.DrainChannel(old(Model()), c)
    {
      ids := QIds(if c in queues then queues[c] else []);
      queues := queues - {c};
      retryAfter := retryAfter - {c};
      retryCounts := retryCounts - {c};
      cancelled := cancelled - {c};
      cancelReasons := cancelReasons - {c};
      withheld := withheld - {c};
    }

    /** Position of the first event with this id, or the length. */
    static method Position(q: seq<QueuedEvent>, id: EventId) returns (k: nat)
      ensures k == FirstIndex(q, id)
    {
      k := 0;
      while k < |q| && q[k].event.id != id
        invariant k <= |q|
        invariant forall i :: 0 <= i < k ==> q[i].event.id != id
      {
        k := k + 1;
      }
      var first := FirstIndex(q, id);
      assert first <= k;
    }

    method MarkNativeSteerPending(c: Channel, id: EventId) returns (found: bool)
      modifies this`queues, this`withheld
      ensures (Model(), found) == M.Withhold(old(Model()), c, id)
    {
      if c !in queues {
        return false;
      }
      var q := queues[c];
      var k := Position(q, id);
      if k == |q| {
        return false;
      }
      var qe := q[k];
      q := q[..k] + q[k + 1..];
      queues := queues[c := q];
      if q == [] {
        queues := queues - {c};
      }
      assert queues == M.PutQueue(old(queues), c, q);
      withheld := withheld[c := (if c in withheld then withheld[c] else []) + [qe]];
      return true;
    }

    method ReleaseNativeSteer(c: Channel, id: EventId)
      modifies this`queues, this`withheld
      ensures Model() == M.Release(old(Model()), c, id)
    {
      if c !in withheld {
        return;
      }
      var entries := withheld[c];
      var k := Position(entries, id);
      if k == |entries| {
        return;
      }
      var qe := entries[k];
      entries := entries[..k] + entries[k + 1..];
      withheld := withheld[c := entries];
      if entries == [] {
        withheld := withheld - {c};
      }
      assert withheld == M.PutQueue(old(withheld), c, entries);
      var q := [qe] + (if c in queues then queues[c] else []);
      q := TrimBack(q);
      queues := queues[c := q];
    }

    /** Keep the events whose id differs, in order. */
    static method RetainOthers(q: seq<QueuedEvent>, id: EventId) returns (r: seq<QueuedEvent>)
      ensures r == WithoutId(q, id)
    {
      r := [];
      var i := 0;
      while i < |q|
        invariant i <= |q|
        invariant r + WithoutId(q[i..], id) == WithoutId(q, id)
      {
        assert q[i..][1..] == q[i + 1..];
        if q[i].event.id != id {
          r := r + [q[i]];
        }
        i := i + 1;
      }
    }

    /** The retain block of one table: an emptied list loses its entry. */
    static method RetainIn(m: map<Channel, seq<QueuedEvent>>, c: Channel, id: EventId)
      returns (r: map<Channel, seq<QueuedEvent>>)
      ensures r == if c in m then M.PutQueue(m, c, WithoutId(m[c], id)) else m
    {
      r := m;
      if c in m {
        var entries := RetainOthers(m[c], id);
        r := r[c := entries];
        if entries == [] {
          r := r - {c};
        }
        assert r == M.PutQueue(m, c, entries);
      }
    }

    method RemoveEvent(c: Channel, id: EventId)
      modifies this`queues, this`withheld
      ensures Model() == M.RemoveEvent(old(Model()), c, id)
    {
      withheld := RetainIn(withheld, c, id);
      queues := RetainIn(queues, c, id);
    }

    method CompactExpiredState(now: Time)
      modifies this`retryAfter, this`retryCounts
      ensures Model() == M.Compact(old(Model()), now)
    {
      retryAfter := map c | c in retryAfter && retryAfter[c] > now :: retryAfter[c];
      retryCounts :=
        map c | c in retryCounts && (c in retryAfter || (c in queues && queues[c] != []) || c in inFlight)
        :: retryCounts[c];
    }
  }

  lemma ExpireNothing(s: M.State)
    ensures M.ExpireSet(s, {}) == s
  {
    var e := M.ExpireSet(s, {});
    assert e.queues == s.queues;
    assert e.batchSizes == s.batchSizes && e.deadlines == s.deadlines && e.withheld == s.withheld;
  }

  lemma RecoverAllStep(queues: map<Channel, seq<QueuedEvent>>, withheld: map<Channel, seq<QueuedEvent>>,
                       done: set<Channel>, c: Channel)
    requires c !in done
    ensures c in withheld ==>
      M.RecoverAll(queues, withheld, done)[c := M.Trim(withheld[c] + M.Lookup(queues, c))]
      == M.RecoverAll(queues, withheld, done + {c})
    ensures c !in withheld ==> M.RecoverAll(queues, withheld, done) == M.RecoverAll(queues, withheld, done + {c})
    ensures M.Lookup(M.RecoverAll(queues, withheld, done), c) == M.Lookup(queues, c)
  {
  }

  /** Expiring one more channel extends the expired set by that channel. */
  lemma ExpireSetStep(s: M.State, done: set<Channel>, c: Channel)
    requires c !in done
    ensures M.ExpireOne(M.ExpireSet(s, done), c) == M.ExpireSet(s, done + {c})
  {
    RecoverAllStep(s.queues, s.withheld, done, c);
    MinusTwice(s.batchSizes, done, {c});
    MinusTwice(s.deadlines, done, {c});
    MinusTwice(s.withheld, done, {c});
    assert s.inFlight - done - {c} == s.inFlight - (done + {c});
    if c !in s.withheld {
      assert s.withheld - done - {c} == s.withheld - done;
    }
  }
}
