/**
 The event queue as a transition system on values.

 `State` holds the nine linked tables of the queue and its two settings. Every
 operation is a function of the state, the clock and, where the program iterates
 a hash map, the channel the iteration happens to yield.
 */
module QueueModel {
  import opened Basics
  import opened Events

  const MAX_PENDING_PER_CHANNEL: nat := 500
  const MAX_BATCH_EVENTS: nat := 50
  const MAX_RETRIES: nat := 10
  const BASE_RETRY_DELAY_SECS: nat := 5
  const MAX_RETRY_DELAY_SECS: nat := 300
  const IN_FLIGHT_DEADLINE_BUFFER_SECS: nat := 100
  const DEFAULT_IN_FLIGHT_DEADLINE_SECS: nat := 7300

  datatype State = State(
    queues: map<Channel, seq<QueuedEvent>>,
    inFlight: set<Channel>,
    deadlines: map<Channel, Time>,
    batchSizes: map<Channel, nat>,
    retryAfter: map<Channel, Time>,
    retryCounts: map<Channel, nat>,
    cancelled: map<Channel, seq<BatchEvent>>,
    cancelReasons: map<Channel, CancelReason>,
    withheld: map<Channel, seq<QueuedEvent>>,
    dedup: DedupMode,
    inFlightDeadline: Time)

  function Initial(dedup: DedupMode, inFlightDeadline: Time): State {
    State(map[], {}, map[], map[], map[], map[], map[], map[], map[], dedup, inFlightDeadline)
  }

  // ---- reading the tables ----

  function Lookup(m: map<Channel, seq<QueuedEvent>>, c: Channel): seq<QueuedEvent> {
    if c in m then m[c] else []
  }

  function QueueOf(s: State, c: Channel): seq<QueuedEvent> {
    Lookup(s.queues, c)
  }

  function WithheldOf(s: State, c: Channel): seq<QueuedEvent> {
    Lookup(s.withheld, c)
  }

  function CancelledOf(s: State, c: Channel): seq<BatchEvent> {
    if c in s.cancelled then s.cancelled[c] else []
  }

  /** Enforce the per-channel cap by dropping from the back. */
  function Trim(q: seq<QueuedEvent>): seq<QueuedEvent> {
    if |q| > MAX_PENDING_PER_CHANNEL then q[..MAX_PENDING_PER_CHANNEL] else q
  }

  /** What `Trim` drops. */
  function Overflow(q: seq<QueuedEvent>): seq<QueuedEvent> {
    if |q| > MAX_PENDING_PER_CHANNEL then q[MAX_PENDING_PER_CHANNEL..] else []
  }

  /** Store a queue, or drop its entry when it is empty. */
  function PutQueue(m: map<Channel, seq<QueuedEvent>>, c: Channel, q: seq<QueuedEvent>)
    : map<Channel, seq<QueuedEvent>>
  {
    if q == [] then m - {c} else m[c := q]
  }

  // ---- push ----

  predicate Refuses(s: State, c: Channel) {
    s.dedup.Drop? && c in s.inFlight
  }

  function Push(s: State, e: QueuedEvent): (State, bool) {
    if Refuses(s, e.channel) then (s, false)
    else
      var q := QueueOf(s, e.channel);
      var room := if |q| >= MAX_PENDING_PER_CHANNEL then q[1..] else q;
      (s.(queues := s.queues[e.channel := room + [e]]), true)
  }

  // ---- in-flight expiry ----

  function Expired(s: State, now: Time): set<Channel> {
    set c | c in s.deadlines && now >= s.deadlines[c]
  }

  function ExpireOne(s: State, c: Channel): State {
    var s1 := s.(batchSizes := s.batchSizes - {c}, inFlight := s.inFlight - {c}, deadlines := s.deadlines - {c});
    if c in s.withheld then
      s1.(withheld := s.withheld - {c}, queues := s.queues[c := Trim(s.withheld[c] + QueueOf(s, c))])
    else s1
  }

  function Recovered(queues: map<Channel, seq<QueuedEvent>>, withheld: map<Channel, seq<QueuedEvent>>,
                     ex: set<Channel>, c: Channel): seq<QueuedEvent> {
    if c in ex && c in withheld then Trim(withheld[c] + Lookup(queues, c)) else Lookup(queues, c)
  }

  /** The queues once the withheld events of the channels `ex` are back at their fronts. */
  function RecoverAll(queues: map<Channel, seq<QueuedEvent>>, withheld: map<Channel, seq<QueuedEvent>>,
                      ex: set<Channel>): map<Channel, seq<QueuedEvent>> {
    map c | c in queues.Keys + ex * withheld.Keys :: Recovered(queues, withheld, ex, c)
  }

  /** Expire a whole set of channels at once; their withheld events return to the queue front. */
  function ExpireSet(s: State, ex: set<Channel>): State {
    s.(batchSizes := s.batchSizes - ex,
       inFlight := s.inFlight - ex,
       deadlines := s.deadlines - ex,
       withheld := s.withheld - ex,
       queues := RecoverAll(s.queues, s.withheld, ex))
  }

  function Expire(s: State, now: Time): State {
    ExpireSet(s, Expired(s, now))
  }

  // ---- flush ----

  predicate Eligible(s: State, now: Time, c: Channel) {
    && c in s.queues && s.queues[c] != []
    && c !in s.inFlight
    && (c in s.retryAfter ==> s.retryAfter[c] <= now)
  }

  function HeadTime(s: State, c: Channel): Time
    requires c in s.queues && s.queues[c] != []
  {
    s.queues[c][0].receivedAt
  }

  /** Eligible, and no eligible channel has an older head event. */
  ghost predicate Oldest(s: State, now: Time, c: Channel) {
    && Eligible(s, now, c)
    && forall d :: Eligible(s, now, d) ==> HeadTime(s, c) <= HeadTime(s, d)
  }

  predicate CancelReady(s: State, c: Channel) {
    c in s.cancelled && c !in s.inFlight
  }

  /** The channels `flush_next` may pick once expiry has run. */
  ghost predicate MayFlush(s: State, now: Time, c: Channel) {
    || Oldest(s, now, c)
    || ((forall d :: !Eligible(s, now, d)) && CancelReady(s, c))
  }

  function Dispatch(s: State, now: Time, c: Channel, size: nat): State {
    s.(inFlight := s.inFlight + {c},
       deadlines := s.deadlines[c := now + s.inFlightDeadline],
       batchSizes := s.batchSizes[c := size],
       cancelled := s.cancelled - {c},
       cancelReasons := s.cancelReasons - {c})
  }

  function DrainCount(q: seq<QueuedEvent>): (n: nat)
    ensures n <= |q|
  {
    if |q| < MAX_BATCH_EVENTS then |q| else MAX_BATCH_EVENTS
  }

  /** The events a flush of `c` takes from its queue, in prompt order. */
  function Drained(s: State, c: Channel): seq<BatchEvent> {
    SortByCreated(AllToBatch(QueueOf(s, c)[..DrainCount(QueueOf(s, c))]))
  }

  function ReasonOf(s: State, c: Channel): Option<CancelReason> {
    if c in s.cancelReasons then Some(s.cancelReasons[c]) else None
  }

  function FlushQueued(s: State, now: Time, c: Channel): (State, FlushBatch) {
    var q := QueueOf(s, c);
    var events := Drained(s, c);
    var carried := CancelledOf(s, c);
    (Dispatch(s.(queues := PutQueue(s.queues, c, q[DrainCount(q)..])), now, c, |events|),
     FlushBatch(c, events, carried, if carried == [] then None else ReasonOf(s, c)))
  }

  /** With nothing queued anywhere, a cancelled batch is re-dispatched unchanged. */
  function FlushCancelled(s: State, now: Time, c: Channel): (State, FlushBatch) {
    var events := CancelledOf(s, c);
    (Dispatch(s, now, c, |events|), FlushBatch(c, events, [], ReasonOf(s, c)))
  }

  function FlushAs(s: State, now: Time, c: Channel): (State, FlushBatch) {
    if Eligible(s, now, c) then FlushQueued(s, now, c) else FlushCancelled(s, now, c)
  }

  // ---- completion and hand-back ----

  function MarkComplete(s: State, c: Channel, now: Time): State {
    var s1 := s.(inFlight := s.inFlight - {c}, deadlines := s.deadlines - {c}, batchSizes := s.batchSizes - {c});
    if c in s.retryAfter && s.retryAfter[c] > now then s1
    else s1.(retryAfter := s.retryAfter - {c}, retryCounts := s.retryCounts - {c})
  }

  /** Seconds before jitter: the exponent stops at six, the product at the cap. */
  function BackoffSecs(attempt: nat): nat
    requires attempt >= 1
  {
    Min(BASE_RETRY_DELAY_SECS * Pow2(Min(attempt - 1, 6)), MAX_RETRY_DELAY_SECS)
  }

  function Jitter(nanos: nat): real {
    0.8 + (nanos as real / U32_MAX as real) * 0.4
  }

  function Delay(attempt: nat, nanos: nat): Time
    requires attempt >= 1
  {
    BackoffSecs(attempt) as real * Jitter(nanos)
  }

  function Attempts(s: State, c: Channel): nat {
    if c in s.retryCounts then s.retryCounts[c] else 0
  }

  /** The queue of the batch's channel with the batch's events back at its front, before trimming. */
  function PutBack(s: State, b: FlushBatch): seq<QueuedEvent> {
    AllToQueued(b.channel, b.events) + QueueOf(s, b.channel)
  }

  function Requeue(s: State, b: FlushBatch, now: Time, nanos: nat): (State, Option<FlushBatch>) {
    var c := b.channel;
    var attempt := Attempts(s, c) + 1;
    if attempt > MAX_RETRIES then
      (s.(retryCounts := s.retryCounts - {c}, retryAfter := s.retryAfter - {c}), Some(b))
    else
      (s.(retryCounts := s.retryCounts[c := attempt],
          queues := s.queues[c := Trim(PutBack(s, b))],
          retryAfter := s.retryAfter[c := now + Delay(attempt, nanos)]),
       None)
  }

  function RequeuePreserve(s: State, b: FlushBatch): State {
    s.(queues := s.queues[b.channel := Trim(PutBack(s, b))])
  }

  function RequeueCancelled(s: State, b: FlushBatch, reason: CancelReason): State {
    s.(cancelled := s.cancelled[b.channel := CancelledOf(s, b.channel) + b.cancelledEvents + b.events],
       cancelReasons := s.cancelReasons[b.channel := reason])
  }

  // ---- queries ----

  /** What `has_flushable_work` answers once expiry has run. */
  ghost predicate Ready(s: State, now: Time) {
    || (exists c :: Eligible(s, now, c))
    || (exists c :: CancelReady(s, c))
  }

  ghost predicate Undispatched(s: State) {
    || (exists c :: c in s.queues && s.queues[c] != [] && c !in s.inFlight)
    || (exists c :: CancelReady(s, c))
    || (exists c :: c in s.withheld && s.withheld[c] != [] && c !in s.inFlight)
  }

  // ---- channel removal, steering side table, housekeeping ----

  function DrainChannel(s: State, c: Channel): (State, seq<EventId>) {
    (s.(queues := s.queues - {c},
        retryAfter := s.retryAfter - {c},
        retryCounts := s.retryCounts - {c},
        cancelled := s.cancelled - {c},
        cancelReasons := s.cancelReasons - {c},
        withheld := s.withheld - {c}),
     QIds(QueueOf(s, c)))
  }

  function Extend(s: State, c: Channel, maxTurnSecs: nat, now: Time): State {
    var extended := now + (maxTurnSecs + IN_FLIGHT_DEADLINE_BUFFER_SECS) as real;
    if c in s.deadlines && extended > s.deadlines[c] then s.(deadlines := s.deadlines[c := extended]) else s
  }

  /** Move one queued event to the side table; false when it is not queued. */
  function Withhold(s: State, c: Channel, id: EventId): (State, bool) {
    var q := QueueOf(s, c);
    var k := FirstIndex(q, id);
    if k == |q| then (s, false)
    else
      (s.(queues := PutQueue(s.queues, c, RemoveAt(q, k)),
          withheld := s.withheld[c := WithheldOf(s, c) + [q[k]]]),
       true)
  }

  /** Move one withheld event back to the queue front; no change when it is not withheld. */
  function Release(s: State, c: Channel, id: EventId): State {
    var w := WithheldOf(s, c);
    var k := FirstIndex(w, id);
    if k == |w| then s
    else
      s.(withheld := PutQueue(s.withheld, c, RemoveAt(w, k)),
         queues := s.queues[c := Trim([w[k]] + QueueOf(s, c))])
  }

  /** Drop every copy of an event from the side table and the queue. */
  function RemoveEvent(s: State, c: Channel, id: EventId): State {
    s.(withheld := if c in s.withheld then PutQueue(s.withheld, c, WithoutId(s.withheld[c], id)) else s.withheld,
       queues := if c in s.queues then PutQueue(s.queues, c, WithoutId(s.queues[c], id)) else s.queues)
  }

  function Compact(s: State, now: Time): State {
    var live := map c | c in s.retryAfter && s.retryAfter[c] > now :: s.retryAfter[c];
    s.(retryAfter := live,
       retryCounts :=
         map c | c in s.retryCounts && (c in live || QueueOf(s, c) != [] || c in s.inFlight) :: s.retryCounts[c])
  }
}
