/** The forwarder as one state machine: the consumer, the processor and three writer threads, the
    broker, the producer and Postgres around them, rebalances, and crashes. Each step is one atomic
    action of one thread. */
module Protocol {
  import opened Offsets
  import opened Sequences
  import opened Split
  import opened Batch
  import L = Ledger
  import W = WriterLane
  import B = Barrier
  import D = Delivery
  import Rebalance

  datatype Config = Config(
    strict: bool, shortCircuit: bool, noise: set<string>,
    records: nat, criticalRoom: nat, normalRoom: nat, bulkRoom: nat,
    earliest: bool)  // `auto.offset.reset`

  /** A fetched batch with the records that were diverted. The processor is given the rest and the
      map of diverted offsets. */
  datatype Envelope = Envelope(source: seq<Record>, flags: seq<bool>)

  /** `Exited` is the thread after its last envelope was dropped at the full record queue, which
      happens only when a shutdown has been requested. */
  datatype Consumer =
    | Idle
    | Splitting(source: seq<Record>, flags: seq<bool>)
    | Exited(source: seq<Record>)

  datatype Verdict = Pending | Passed | TimedOut

  datatype Hand =
    | Waiting
    | Handling(env: Envelope, turns: seq<Turn>, errorsBefore: nat, firstId: nat)
    | Gating(env: Envelope, turns: seq<Turn>, clean: bool, noise: Verdict, signal: Verdict)

  /** The messages that one handling of an event put on the wire. */
  datatype Attempt = Attempt(ref: Ref, lo: nat, hi: nat)

  /** What has happened; no thread reads it. */
  datatype History = History(
    attempts: set<Attempt>,    // handlings whose produces and DLQ record were all accepted
    handled: set<Ref>,         // processed or given to the DLQ by the processor
    diverted: set<Ref>,        // accepted by the bulk queue as short-circuited
    discarded: set<Ref>,       // returned by a heartbeat poll, whose result nobody looks at
    declined: set<Ref>,        // in a batch whose commit was declined
    spoiled: set<Ref>,         // handled with an exhausted produce or without its DLQ record
    undelivered: set<Ref>,     // handled with a DLQ record whose delivery was reported as failed
    skipped: set<Ref>,         // left behind by an assignment without a committed offset
    faultyNoise: set<Ref>,     // short-circuited and part of a failed bulk write
    signals: set<Ref>,         // routed to a signal lane in strict mode
    faultySignal: set<Ref>,    // part of a failed write of a signal lane
    droppedSignal: set<Ref>,   // dropped at the full normal lane
    overtaken: set<Ref>)       // in one signal lane when the other raised their mark over it

  datatype State = State(
    broker: L.Broker,
    consumer: Consumer, recordQueue: seq<Envelope>, processor: Hand,
    critical: W.Lane, normal: W.Lane, bulk: W.Lane,
    noiseMarks: Marks, signalMarks: Marks,
    noiseTable: set<Ref>, signalTable: set<Ref>,
    wire: D.Wire,
    processed: Marks, revoked: set<Key>,
    h: History)

  datatype Step =
    // the broker
    | Append(k: Key, gap: nat) | Assign(k: Key) | Revoke(keys: set<Key>, committed: bool)
    | Report(id: nat, ok: bool)
    // the consumer thread
    | Consume(batch: seq<Record>) | Discard(ref: Ref) | SplitNext | Send | Drop
    // the processor thread
    | Receive | Handle(o: Outcome) | Flush
    | PassNoise | NoiseTimeout | PassSignal | SignalTimeout
    | Finish(ok: bool)
    // a writer thread; `dlq` says whether the DLQ takes an item that has used up its retries
    | Write(lane: LaneName, move: W.LaneStep, dlq: bool)
    | Crash

  const NOTHING: History := History({}, {}, {}, {}, {}, {}, {}, {}, {}, {}, {}, {}, {})

  /** A process that has just started, in a group that has the given commits. */
  predicate Init(s: State) {
    && s.broker.position == map[] && s.broker.moved == {} && s.broker.floor == s.broker.committed
    && (forall r | r in s.broker.log :: r.offset < L.End(s.broker, r.key))
    && (forall k | k in s.broker.committed :: s.broker.committed[k] <= L.End(s.broker, k))
    && s.consumer == Idle && s.recordQueue == [] && s.processor == Waiting
    && s.critical == W.EMPTY && s.normal == W.EMPTY && s.bulk == W.EMPTY
    && s.noiseMarks == map[] && s.signalMarks == map[] && s.processed == map[] && s.revoked == {}
    && s.noiseTable == {} && s.signalTable == {}
    && s.wire == D.SILENT && s.h == NOTHING
  }

  // ---------------------------------------------------------------------------------------
  // Derived values
  // ---------------------------------------------------------------------------------------

  /** What the processor iterates over. */
  function Residual(e: Envelope): seq<Record>
    requires |e.source| == |e.flags|
  {
    Pick(e.source, e.flags, false)
  }

  function Diverts(e: Envelope): Marks
    requires |e.source| == |e.flags|
  {
    NoiseOffsets(e.source, e.flags)
  }

  function LaneOf(s: State, lane: LaneName): W.Lane {
    match lane case Critical => s.critical case Normal => s.normal case Bulk => s.bulk
  }

  function RoomOf(c: Config, lane: LaneName): nat {
    match lane case Critical => c.criticalRoom case Normal => c.normalRoom case Bulk => c.bulkRoom
  }

  /** The refs of the items that the barrier watches. */
  function Acked(items: seq<W.Item>): set<Ref> {
    set x | x in items && x.acks :: x.ref
  }

  function Vector(c: Config, p: Hand): Marks
    requires p.Gating? && |p.env.source| == |p.env.flags|
  {
    CommitVector(TallyAll(p.turns, c.strict).maxOffsets, Diverts(p.env))
  }

  /** All three gates are open. */
  predicate GatesOpen(p: Hand) {
    p.Gating? && p.clean && p.noise.Passed? && p.signal.Passed?
  }

  /** The records whose handling put the message on the wire. */
  function Carriers(attempts: set<Attempt>, id: nat): set<Ref> {
    set a | a in attempts && a.lo <= id < a.hi :: a.ref
  }

  /** What survives a restart of a blame: records at or above the committed offset are read again. */
  function Trim(rs: set<Ref>, committed: Marks): set<Ref> {
    set r | r in rs && r.key in committed && r.offset < committed[r.key]
  }

  function TrimHistory(h: History, committed: Marks): History {
    h.(handled := Trim(h.handled, committed), diverted := Trim(h.diverted, committed),
       discarded := Trim(h.discarded, committed), declined := Trim(h.declined, committed),
       spoiled := Trim(h.spoiled, committed), undelivered := Trim(h.undelivered, committed),
       skipped := Trim(h.skipped, committed), faultyNoise := Trim(h.faultyNoise, committed),
       signals := Trim(h.signals, committed), faultySignal := Trim(h.faultySignal, committed),
       droppedSignal := Trim(h.droppedSignal, committed), overtaken := Trim(h.overtaken, committed))
  }

  // ---------------------------------------------------------------------------------------
  // Steps
  // ---------------------------------------------------------------------------------------

  /** The record the consumer looks at next is diverted. */
  predicate DivertsNext(c: Config, s: State)
    requires s.consumer.Splitting? && |s.consumer.flags| < |s.consumer.source|
  {
    c.shortCircuit && IsNoise(c.noise, s.consumer.source[|s.consumer.flags|]) && |s.bulk.queue| < c.bulkRoom
  }

  /** The route's `room` says what the queue says. */
  predicate RouteFits(c: Config, s: State, route: Route) {
    route.Routed? ==> (route.room <==> |LaneOf(s, route.lane).queue| < RoomOf(c, route.lane))
  }

  /** The consumer drives heartbeats: between two batches, and while it waits for the record queue to
      be half empty. */
  predicate Polls(c: Config, s: State) {
    || s.consumer.Idle?
    || (s.consumer.Splitting? && |s.consumer.flags| == |s.consumer.source| && |s.recordQueue| > c.records / 2)
  }

  ghost predicate CanStep(c: Config, s: State, step: Step) {
    var p := s.processor;
    match step
    case Append(_, _) => true
    case Assign(k) => k !in s.broker.position
    case Revoke(keys, _) => true
    case Report(id, _) => id in s.wire.outstanding
    case Consume(batch) => s.consumer.Idle? && L.CanFetchAll(s.broker, Refs(batch))
    case Discard(r) => Polls(c, s) && L.CanFetch(s.broker, r)
    case SplitNext => s.consumer.Splitting? && |s.consumer.flags| < |s.consumer.source|
    case Send => s.consumer.Splitting? && |s.consumer.flags| == |s.consumer.source| && |s.recordQueue| < c.records
    case Drop => s.consumer.Splitting? && |s.consumer.flags| == |s.consumer.source| && |s.recordQueue| >= c.records
    case Receive => p.Waiting? && s.recordQueue != []
    case Handle(o) =>
      && p.Handling? && |p.env.source| == |p.env.flags| && |p.turns| < |Residual(p.env)|
      && Plausible(o) && Fits(Residual(p.env)[|p.turns|], o) && RouteFits(c, s, RouteOf(o))
    case Flush => p.Handling? && |p.env.source| == |p.env.flags| && |p.turns| == |Residual(p.env)|
    case PassNoise => p.Gating? && p.noise.Pending? && |p.env.source| == |p.env.flags| &&
                      Covers(s.noiseMarks, Diverts(p.env))
    case NoiseTimeout => p.Gating? && p.noise.Pending? && |p.env.source| == |p.env.flags| &&
                         !Covers(s.noiseMarks, Diverts(p.env))
    case PassSignal => p.Gating? && !p.noise.Pending? && p.signal.Pending? &&
                       Covers(s.signalMarks, TallyAll(p.turns, c.strict).signal)
    case SignalTimeout => p.Gating? && !p.noise.Pending? && p.signal.Pending? &&
                          !Covers(s.signalMarks, TallyAll(p.turns, c.strict).signal)
    case Finish(_) => p.Gating? && |p.env.source| == |p.env.flags| && !p.noise.Pending? && !p.signal.Pending?
    case Write(lane, move, _) => !move.Put? && W.CanStep(LaneOf(s, lane), RoomOf(c, lane), move)
    case Crash => true
  }

  function DoSplit(c: Config, s: State): State
    requires s.consumer.Splitting? && |s.consumer.flags| < |s.consumer.source|
  {
    var record := s.consumer.source[|s.consumer.flags|];
    if DivertsNext(c, s) then
      s.(consumer := Splitting(s.consumer.source, s.consumer.flags + [true]),
         bulk := W.Step(s.bulk, c.bulkRoom, W.Put(record.ref, true)),
         h := s.h.(diverted := s.h.diverted + {record.ref}))
    else
      s.(consumer := Splitting(s.consumer.source, s.consumer.flags + [false]))
  }

  /** The DLQ records of a handling that were accepted. */
  function DlqRecords(o: Outcome): nat {
    SendsOf(o).copied + (if !o.Good? && o.dlq then 1 else 0)
  }

  predicate Spoils(o: Outcome) {
    SendsOf(o).exhausted > 0 || (!o.Good? && !o.dlq)
  }

  function WireAfter(w: D.Wire, o: Outcome): D.Wire {
    D.Accept(w, SendsOf(o).accepted, DlqRecords(o))
  }

  function HistoryAfter(c: Config, h: History, ref: Ref, w: D.Wire, o: Outcome): History {
    h.(attempts := if Spoils(o) then h.attempts else h.attempts + {Attempt(ref, w.next, WireAfter(w, o).next)},
       spoiled := if Spoils(o) then h.spoiled + {ref} else h.spoiled,
       handled := h.handled + {ref},
       signals := if Due(o, c.strict) then h.signals + {ref} else h.signals,
       droppedSignal := if RouteOf(o) == Routed(Normal, false) then h.droppedSignal + {ref} else h.droppedSignal)
  }

  /** A lane after an event has been routed: only the lane it was routed to takes it, if there is
      room. Signal lanes publish what the processor sends them, the bulk lane does not. */
  function Deliver(l: W.Lane, lane: LaneName, room: nat, ref: Ref, route: Route): W.Lane
    requires route == Routed(lane, true) ==> |l.queue| < room
  {
    if route == Routed(lane, true) then W.Step(l, room, W.Put(ref, !lane.Bulk?)) else l
  }

  /** One turn of the processor's message loop. */
  function DoHandle(c: Config, s: State, o: Outcome): State
    requires s.processor.Handling? && |s.processor.env.source| == |s.processor.env.flags|
    requires |s.processor.turns| < |Residual(s.processor.env)| && RouteFits(c, s, RouteOf(o))
  {
    var p := s.processor;
    var turn := Turn(Residual(p.env)[|p.turns|], s.revoked, o);
    var s1 := s.(processor := Handling(p.env, p.turns + [turn], p.errorsBefore, p.firstId));
    if !Reached(turn) then s1
    else
      var ref := turn.record.ref;
      s1.(critical := Deliver(s.critical, Critical, c.criticalRoom, ref, RouteOf(o)),
          normal := Deliver(s.normal, Normal, c.normalRoom, ref, RouteOf(o)),
          bulk := Deliver(s.bulk, Bulk, c.bulkRoom, ref, RouteOf(o)),
          wire := WireAfter(s.wire, o),
          processed := Bump(s.processed, ref),
          h := HistoryAfter(c, s.h, ref, s.wire, o))
  }

  function DoFlush(c: Config, s: State): State
    requires s.processor.Handling?
  {
    var p := s.processor;
    var t := TallyAll(p.turns, c.strict);
    var d := Details(|s.wire.outstanding|, p.errorsBefore, s.wire.errors, t.failed, t.unrecoverable);
    s.(processor := Gating(p.env, p.turns, EvaluateBatchCommit(d).0, Pending, Pending))
  }

  /** A batch whose gates are all open is committed, unless the commit itself fails. */
  function BrokerAfter(c: Config, s: State, ok: bool): L.Broker
    requires s.processor.Gating? && |s.processor.env.source| == |s.processor.env.flags|
  {
    if GatesOpen(s.processor) && ok then L.Commit(s.broker, Vector(c, s.processor)) else s.broker
  }

  function DeclinedAfter(s: State): set<Ref>
    requires s.processor.Gating?
  {
    if GatesOpen(s.processor) then s.h.declined
    else s.h.declined + set r | r in Refs(s.processor.env.source)
  }

  function DoFinish(c: Config, s: State, ok: bool): State
    requires s.processor.Gating? && |s.processor.env.source| == |s.processor.env.flags|
  {
    s.(processor := Waiting, broker := BrokerAfter(c, s, ok), h := s.h.(declined := DeclinedAfter(s)))
  }

  /** The step gives up on an item. */
  predicate Exhausts(l: W.Lane, room: nat, move: W.LaneStep) {
    move.Disperse? && l.batch != [] && W.Dispose(l.batch[0], |l.queue|, room).ToDlq?
  }

  /** The items of a lane that wait for their first write at or below the marks. */
  function OvertakenIn(l: W.Lane, marks: Marks): set<Ref> {
    set x | x in l.queue + W.InHand(l) && x.acks && B.Fresh(x) && x.ref.offset <= At(marks, x.ref.key) :: x.ref
  }

  /** The lane that shares its marks with a signal lane. */
  function OtherLane(s: State, lane: LaneName): W.Lane {
    if lane.Critical? then s.normal else s.critical
  }

  /** A writer's step on record. */
  function WriteHistory(c: Config, s: State, lane: LaneName, move: W.LaneStep): History {
    var l := LaneOf(s, lane);
    if move.Fail? then
      if lane.Bulk? then s.h.(faultyNoise := s.h.faultyNoise + Acked(l.batch))
      else s.h.(faultySignal := s.h.faultySignal + Acked(l.batch))
    else if c.strict && move.Publish? && !lane.Bulk? then
      s.h.(overtaken := s.h.overtaken + OvertakenIn(OtherLane(s, lane), B.Advance(l, move, s.signalMarks)))
    else s.h
  }

  function DoWrite(c: Config, s: State, lane: LaneName, move: W.LaneStep, dlq: bool): State
    requires !move.Put? && W.CanStep(LaneOf(s, lane), RoomOf(c, lane), move)
  {
    var l := LaneOf(s, lane);
    var l' := W.Step(l, RoomOf(c, lane), move);
    s.(critical := if lane.Critical? then l' else s.critical,
       normal := if lane.Normal? then l' else s.normal,
       bulk := if lane.Bulk? then l' else s.bulk,
       noiseMarks := if lane.Bulk? then B.Advance(l, move, s.noiseMarks) else s.noiseMarks,
       noiseTable := if lane.Bulk? && move.Insert? then s.noiseTable + Acked(l.batch) else s.noiseTable,
       signalMarks := if !lane.Bulk? && c.strict then B.Advance(l, move, s.signalMarks) else s.signalMarks,
       signalTable := if !lane.Bulk? && move.Insert? then s.signalTable + Acked(l.batch) else s.signalTable,
       wire := if dlq && Exhausts(l, RoomOf(c, lane), move) then D.Accept(s.wire, 0, 1) else s.wire,
       h := WriteHistory(c, s, lane, move))
  }

  /** A failed DLQ message is counted apart: no gate looks at it. */
  function DoReport(s: State, id: nat, ok: bool): State {
    s.(wire := D.Report(s.wire, id, ok),
       h := if !ok && id in s.wire.dlq then s.h.(undelivered := s.h.undelivered + Carriers(s.h.attempts, id)) else s.h)
  }

  function DoCrash(s: State): State {
    s.(broker := L.Crash(s.broker), consumer := Idle, recordQueue := [], processor := Waiting,
       critical := W.EMPTY, normal := W.EMPTY, bulk := W.EMPTY,
       noiseMarks := map[], signalMarks := map[], wire := D.Restart(s.wire),
       processed := map[], revoked := {}, h := TrimHistory(s.h, s.broker.committed))
  }

  ghost function Next(c: Config, s: State, step: Step): State
    requires CanStep(c, s, step)
  {
    match step
    case Append(k, gap) => s.(broker := L.Append(s.broker, k, gap))
    case Assign(k) =>
      s.(broker := L.Assign(s.broker, k, c.earliest), revoked := s.revoked - {k},
         h := s.h.(skipped := s.h.skipped + L.Skipped(s.broker, k, c.earliest)))
    case Revoke(keys, committed) =>
      var vector := if committed then Rebalance.RevokeVector(s.processed, keys) else map[];
      s.(broker := L.Commit(L.Revoke(s.broker, keys), vector), revoked := s.revoked + keys)
    case Report(id, ok) => DoReport(s, id, ok)
    case Consume(batch) => s.(broker := L.FetchAll(s.broker, Refs(batch)), consumer := Splitting(batch, []))
    case Discard(r) => s.(broker := L.Fetch(s.broker, r), h := s.h.(discarded := s.h.discarded + {r}))
    case SplitNext => DoSplit(c, s)
    case Send =>
      s.(recordQueue := s.recordQueue + [Envelope(s.consumer.source, s.consumer.flags)], consumer := Idle)
    case Drop => s.(consumer := Exited(s.consumer.source))
    case Receive =>
      s.(recordQueue := s.recordQueue[1..], processor := Handling(s.recordQueue[0], [], s.wire.errors, s.wire.next))
    case Handle(o) => DoHandle(c, s, o)
    case Flush => DoFlush(c, s)
    case PassNoise => s.(processor := s.processor.(noise := Passed))
    case NoiseTimeout => s.(processor := s.processor.(noise := TimedOut))
    case PassSignal => s.(processor := s.processor.(signal := Passed))
    case SignalTimeout => s.(processor := s.processor.(signal := TimedOut))
    case Finish(ok) => DoFinish(c, s, ok)
    case Write(lane, move, dlq) => DoWrite(c, s, lane, move, dlq)
    case Crash => DoCrash(s)
  }
}
