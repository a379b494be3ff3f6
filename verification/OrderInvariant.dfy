/** Events reach every lane in offset order: whatever has been sent lies below whatever the
    sending thread has yet to look at. */
module OrderInvariant {
  import opened Offsets
  import opened Sequences
  import opened Split
  import opened Batch
  import opened Protocol
  import opened Invariant
  import opened LaneInvariant
  import L = Ledger
  import W = WriterLane
  import B = Barrier

  lemma FlowParts(s: State)
    requires L.Shape(s.broker, Flow(s))
    ensures L.Ascending(HandFlow(s.processor), s.broker.moved)
    ensures L.Ascending(ConsumerFlow(s.consumer), s.broker.moved)
    ensures forall x, y | x in HandFlow(s.processor) && y in QueueFlow(s.recordQueue) + ConsumerFlow(s.consumer)
                          && x.key == y.key && x.key !in s.broker.moved :: x.offset < y.offset
  {
    var hand, queued, consumed := HandFlow(s.processor), QueueFlow(s.recordQueue), ConsumerFlow(s.consumer);
    assert Flow(s) == hand + (queued + consumed);
    AscendingParts(hand, queued + consumed, s.broker.moved);
    AscendingParts(queued, consumed, s.broker.moved);
  }

  // ---------------------------------------------------------------------------------------
  // The bulk lane
  // ---------------------------------------------------------------------------------------

  lemma SplitBehind(c: Config, s: State)
    requires L.Shape(s.broker, Flow(s)) && BulkBehind(s) && CanStep(c, s, SplitNext)
    ensures BulkBehind(DoSplit(c, s))
  {
    var s', n, source := DoSplit(c, s), |s.consumer.flags|, s.consumer.source;
    SplitSends(c, s);
    if source[n].Message? {
      NextIsLowest(s);
    }
    forall r | B.Sent(s'.bulk, r) && r.key !in s'.broker.moved
      ensures Fetched(s', r)
      ensures forall j | n < j < |source| && source[j].Message? && source[j].ref.key == r.key ::
              r.offset < source[j].ref.offset
    {
      assert B.Sent(s.bulk, r) || (source[n].Message? && r == source[n].ref);
    }
  }

  /** The split moves one record on and may send it to the bulk queue. */
  lemma SplitSends(c: Config, s: State)
    requires CanStep(c, s, SplitNext)
    ensures var s', n := DoSplit(c, s), |s.consumer.flags|;
            && s'.broker == s.broker && s'.consumer.Splitting? && s'.consumer.source == s.consumer.source &&
               |s'.consumer.flags| == n + 1
            && forall r | B.Sent(s'.bulk, r) ::
                 B.Sent(s.bulk, r) || (s.consumer.source[n].Message? && r == s.consumer.source[n].ref)
  {
  }

  /** The record the consumer looks at lies below everything it has not looked at. */
  lemma NextIsLowest(s: State)
    requires L.Shape(s.broker, Flow(s)) && s.consumer.Splitting? && |s.consumer.flags| < |s.consumer.source|
    requires s.consumer.source[|s.consumer.flags|].Message?
    ensures var n, source := |s.consumer.flags|, s.consumer.source;
            source[n].ref.key !in s.broker.moved ==>
              && Fetched(s, source[n].ref)
              && forall j | n < j < |source| && source[j].Message? && source[j].ref.key == source[n].ref.key ::
                   source[n].ref.offset < source[j].ref.offset
  {
    var n, source := |s.consumer.flags|, s.consumer.source;
    FlowParts(s);
    RefsMember(source, source[n].ref);
    assert source[n].ref in Flow(s);
    forall j | n < j < |source| && source[j].Message? && source[j].ref.key == source[n].ref.key &&
        source[n].ref.key !in s.broker.moved
      ensures source[n].ref.offset < source[j].ref.offset
    {
      LaterIsHigher(source, s.broker.moved, n, j);
    }
  }

  lemma ConsumeBehind(c: Config, s: State, batch: seq<Record>)
    requires BulkBehind(s) && CanStep(c, s, Consume(batch))
    ensures BulkBehind(Next(c, s, Consume(batch)))
  {
    L.FetchAllFrame(s.broker, Refs(batch));
    forall j | 0 <= j < |batch| && batch[j].Message? ensures batch[j].ref in Refs(batch) {
      RefsMember(batch, batch[j].ref);
    }
  }

  lemma WriteBehind(c: Config, s: State, lane: LaneName, move: W.LaneStep, dlq: bool)
    requires BulkBehind(s) && CanStep(c, s, Write(lane, move, dlq))
    ensures BulkBehind(DoWrite(c, s, lane, move, dlq))
  {
    MoveSendsNothing(LaneOf(s, lane), RoomOf(c, lane), move);
  }

  lemma HandleBehind(c: Config, s: State, o: Outcome)
    requires BulkBehind(s) && CanStep(c, s, Handle(o))
    ensures BulkBehind(DoHandle(c, s, o))
  {
  }

  /** Steps that send nothing to the bulk lane, and after which the consumer has no more to look at. */
  lemma QuietBulk(s: State, s': State)
    requires BulkBehind(s) && s'.bulk.accepted == s.bulk.accepted
    requires s'.consumer == s.consumer || !s'.consumer.Splitting?
    requires s.broker.moved <= s'.broker.moved
    requires forall k | k in s.broker.position && k !in s'.broker.moved ::
               k in s'.broker.position && s.broker.position[k] <= s'.broker.position[k]
    ensures BulkBehind(s')
  {
  }

  predicate IsQuiet(step: Step) {
    !step.SplitNext? && !step.Consume? && !step.Write? && !step.Handle? && !step.Crash?
  }

  lemma QuietFrame(c: Config, s: State, step: Step)
    requires CanStep(c, s, step) && IsQuiet(step)
    ensures var s' := Next(c, s, step);
            && s'.bulk == s.bulk && (s'.consumer == s.consumer || !s'.consumer.Splitting?) &&
               s.broker.moved <= s'.broker.moved
            && forall k | k in s.broker.position && k !in s'.broker.moved ::
                 k in s'.broker.position && s.broker.position[k] <= s'.broker.position[k]
  {
    if step.Finish? {
      FinishFrame(c, s, step.ok);
    } else if step.Flush? {
      FlushFrame(c, s);
    }
  }

  lemma BulkBehindKept(c: Config, s: State, step: Step)
    requires L.Shape(s.broker, Flow(s)) && BulkBehind(s) && CanStep(c, s, step)
    ensures BulkBehind(Next(c, s, step))
  {
    if IsQuiet(step) {
      QuietFrame(c, s, step);
      QuietBulk(s, Next(c, s, step));
    } else {
      ActiveBehind(c, s, step);
    }
  }

  lemma ActiveBehind(c: Config, s: State, step: Step)
    requires L.Shape(s.broker, Flow(s)) && BulkBehind(s) && CanStep(c, s, step) && !IsQuiet(step)
    ensures BulkBehind(Next(c, s, step))
  {
    if step.SplitNext? {
      SplitBehind(c, s);
    } else if step.Consume? {
      ConsumeBehind(c, s, step.batch);
    } else if step.Write? {
      WriteBehind(c, s, step.lane, step.move, step.dlq);
    } else if step.Handle? {
      HandleBehind(c, s, step.o);
    }
  }

  // ---------------------------------------------------------------------------------------
  // The signal lanes
  // ---------------------------------------------------------------------------------------

  /** `SignalBehind` in terms of its parts. */
  ghost predicate Behind(critical: W.Lane, normal: W.Lane, processed: Marks, position: Marks, moved: set<Key>,
                         ahead: seq<Ref>) {
    forall r | (B.Sent(critical, r) || B.Sent(normal, r) || At(processed, r.key) == r.offset) && r.key !in moved ::
      && r.key in position && r.offset < position[r.key]
      && (forall x | x in ahead && x.key == r.key :: r.offset < x.offset)
  }

  lemma BehindIs(s: State)
    requires Structure(s)
    ensures SignalBehind(s) <==> Behind(s.critical, s.normal, s.processed, s.broker.position, s.broker.moved, Ahead(s))
  {
    assert forall r :: SignalSent(s, r) <==> B.Sent(s.critical, r) || B.Sent(s.normal, r);
    assert forall r :: Fetched(s, r) <==> r.key in s.broker.position && r.offset < s.broker.position[r.key];
  }

  /** Sending nothing while the sending thread only moves on. */
  lemma BehindShrinks(critical: W.Lane, normal: W.Lane, processed: Marks, position: Marks, moved: set<Key>,
                      ahead: seq<Ref>,
                      critical': W.Lane, normal': W.Lane, position': Marks, moved': set<Key>, ahead': seq<Ref>)
    requires Behind(critical, normal, processed, position, moved, ahead)
    requires critical'.accepted == critical.accepted && normal'.accepted == normal.accepted
    requires forall x | x in ahead' :: x in ahead
    requires moved <= moved' && forall k | k in position && k !in moved' ::
             k in position' && position[k] <= position'[k]
    ensures Behind(critical', normal', processed, position', moved', ahead')
  {
    assert forall r :: B.Sent(critical', r) <==> B.Sent(critical, r);
    assert forall r :: B.Sent(normal', r) <==> B.Sent(normal, r);
  }

  lemma TailRefs(rs: seq<Record>, n: nat)
    requires n < |rs|
    ensures forall x | x in Refs(rs[n + 1..]) :: x in Refs(rs[n..])
    ensures rs[n].Message? ==> rs[n].ref in Refs(rs[n..])
  {
    forall x | x in Refs(rs[n + 1..]) ensures x in Refs(rs[n..]) {
      RefsMember(rs[n + 1..], x);
      RefsMember(rs[n..], x);
      var y :| y in rs[n + 1..] && y.Message? && y.ref == x;
      assert rs[n..] == [rs[n]] + rs[n + 1..];
    }
    if rs[n].Message? {
      RefsMember(rs[n..], rs[n].ref);
      assert rs[n..][0] == rs[n];
    }
  }

  /** In an ascending list of records, a message lies below everything after it. */
  lemma LowestOfRest(rest: seq<Record>, n: nat, moved: set<Key>)
    requires n < |rest| && rest[n].Message? && L.Ascending(Refs(rest), moved)
    ensures forall x | x in Refs(rest[n + 1..]) && x.key == rest[n].ref.key && x.key !in moved ::
            rest[n].ref.offset < x.offset
  {
    forall x | x in Refs(rest[n + 1..]) && x.key == rest[n].ref.key && x.key !in moved
      ensures rest[n].ref.offset < x.offset
    {
      RefsMember(rest[n + 1..], x);
      var y :| y in rest[n + 1..] && y.Message? && y.ref == x;
      var j :| 0 <= j < |rest[n + 1..]| && rest[n + 1..][j] == y;
      LaterIsHigher(rest, moved, n, n + 1 + j);
    }
  }

  /** The message at hand is in flow. */
  lemma HeadInFlow(s: State)
    requires Structure(s) && s.processor.Handling? && |s.processor.turns| < |Residual(s.processor.env)|
    requires Residual(s.processor.env)[|s.processor.turns|].Message?
    ensures Residual(s.processor.env)[|s.processor.turns|].ref in HandFlow(s.processor)
  {
    var p, m := s.processor, Residual(s.processor.env)[|s.processor.turns|];
    PickMember(p.env.source, p.env.flags, false, m);
    RefsMember(p.env.source, m.ref);
  }

  /** The message at hand lies below everything after it. */
  lemma HeadIsLowest(s: State)
    requires Structure(s) && L.Shape(s.broker, Flow(s)) && s.processor.Handling?
    requires |s.processor.turns| < |Residual(s.processor.env)|
    requires Residual(s.processor.env)[|s.processor.turns|].Message?
    ensures var p := s.processor; var n := |p.turns|; var r := Residual(p.env)[n].ref;
            && (r.key !in s.broker.moved ==> Fetched(s, r))
            && r in HandFlow(p)
            && forall x | x in Refs(Residual(p.env)[n + 1..]) + QueueFlow(s.recordQueue) + ConsumerFlow(s.consumer)
                          && x.key == r.key && r.key !in s.broker.moved :: r.offset < x.offset
  {
    var p, moved := s.processor, s.broker.moved;
    HeadInFlow(s);
    FlowParts(s);
    PickAscends(p.env.source, p.env.flags, false, moved);
    LowestOfRest(Residual(p.env), |p.turns|, moved);
  }

  /** A signal lane takes the message at hand, which lies below everything still ahead. */
  lemma BehindTakes(critical: W.Lane, normal: W.Lane, processed: Marks, position: Marks, moved: set<Key>,
                    ahead: seq<Ref>,
                    roomC: nat, roomN: nat, r: Ref, route: Route, ahead': seq<Ref>)
    requires Behind(critical, normal, processed, position, moved, ahead)
    requires route == Routed(Critical, true) ==> |critical.queue| < roomC
    requires route == Routed(Normal, true) ==> |normal.queue| < roomN
    requires forall x | x in ahead' :: x in ahead
    requires r.key !in moved ==> r.key in position && r.offset < position[r.key]
    requires forall x | x in ahead' && x.key == r.key && r.key !in moved :: r.offset < x.offset
    ensures Behind(Deliver(critical, Critical, roomC, r, route), Deliver(normal, Normal, roomN, r, route),
                   Bump(processed, r), position, moved, ahead')
  {
  }

  lemma AheadShrinks(s: State, s': State)
    requires Structure(s) && Structure(s') && s.processor.Handling? && s'.processor.Handling?
    requires s'.processor.env == s.processor.env && |s'.processor.turns| == |s.processor.turns| + 1
    requires s'.recordQueue == s.recordQueue && s'.consumer == s.consumer
    ensures forall x | x in Ahead(s') :: x in Ahead(s)
    ensures Ahead(s') == Refs(Residual(s.processor.env)[|s.processor.turns| + 1..]) + QueueFlow(s.recordQueue) +
            ConsumerFlow(s.consumer)
  {
    TailRefs(Residual(s.processor.env), |s.processor.turns|);
  }

  lemma HandleFrame(c: Config, s: State, o: Outcome)
    requires CanStep(c, s, Handle(o))
    ensures var p, s' := s.processor, DoHandle(c, s, o); var turn := Turn(Residual(p.env)[|p.turns|], s.revoked, o);
            && s'.processor.Handling? && s'.processor.env == p.env && s'.processor.turns == p.turns + [turn]
            && s'.recordQueue == s.recordQueue && s'.consumer == s.consumer && s'.broker == s.broker
            && (Reached(turn) ==>
                  && s'.critical == Deliver(s.critical, Critical, c.criticalRoom, turn.record.ref, RouteOf(o))
                  && s'.normal == Deliver(s.normal, Normal, c.normalRoom, turn.record.ref, RouteOf(o))
                  && s'.processed == Bump(s.processed, turn.record.ref))
            && (!Reached(turn) ==> s'.critical == s.critical && s'.normal == s.normal && s'.processed == s.processed)
  {
  }

  lemma HandleSignalBehind(c: Config, s: State, o: Outcome)
    requires Structure(s) && L.Shape(s.broker, Flow(s)) && SignalBehind(s) && CanStep(c, s, Handle(o))
    requires Structure(DoHandle(c, s, o))
    ensures SignalBehind(DoHandle(c, s, o))
  {
    var p, s' := s.processor, DoHandle(c, s, o);
    BehindIs(s);
    BehindIs(s');
    HandleFrame(c, s, o);
    AheadShrinks(s, s');
    if Reached(Turn(Residual(p.env)[|p.turns|], s.revoked, o)) {
      HeadIsLowest(s);
      BehindTakes(s.critical, s.normal, s.processed, s.broker.position, s.broker.moved, Ahead(s),
                  c.criticalRoom, c.normalRoom, Residual(p.env)[|p.turns|].ref, RouteOf(o), Ahead(s'));
    } else {
      BehindShrinks(s.critical, s.normal, s.processed, s.broker.position, s.broker.moved, Ahead(s),
                    s.critical, s.normal, s.broker.position, s.broker.moved, Ahead(s'));
    }
  }

  lemma ReceiveBehind(c: Config, s: State)
    requires Structure(s) && SignalBehind(s) && CanStep(c, s, Receive)
    requires Structure(Next(c, s, Receive))
    ensures SignalBehind(Next(c, s, Receive))
  {
    var s', e := Next(c, s, Receive), s.recordQueue[0];
    assert e in s.recordQueue;
    forall x | x in Refs(Residual(e)) ensures x in Refs(e.source) {
      RefsMember(Residual(e), x);
      var y :| y in Residual(e) && y.Message? && y.ref == x;
      PickMember(e.source, e.flags, false, y);
      RefsMember(e.source, x);
    }
    assert Residual(e)[0..] == Residual(e);
    BehindIs(s);
    BehindIs(s');
    BehindShrinks(s.critical, s.normal, s.processed, s.broker.position, s.broker.moved, Ahead(s),
                  s'.critical, s'.normal, s'.broker.position, s'.broker.moved, Ahead(s'));
  }

  lemma ConsumeSignalBehind(c: Config, s: State, batch: seq<Record>)
    requires Structure(s) && SignalBehind(s) && CanStep(c, s, Consume(batch))
    requires Structure(Next(c, s, Consume(batch)))
    ensures SignalBehind(Next(c, s, Consume(batch)))
  {
    var s' := Next(c, s, Consume(batch));
    L.FetchAllFrame(s.broker, Refs(batch));
    forall x | x in Ahead(s') ensures x in Ahead(s) || x in Refs(batch) { }
  }

  /** The broker's steps, a report and a heartbeat poll leave the threads and the lanes alone. */
  lemma BrokerFrame(c: Config, s: State, step: Step)
    requires CanStep(c, s, step)
    requires step.Append? || step.Assign? || step.Revoke? || step.Discard? || step.Report?
    ensures var s', b, b' := Next(c, s, step), s.broker, Next(c, s, step).broker;
            && s'.processor == s.processor && s'.recordQueue == s.recordQueue && s'.consumer == s.consumer
            && s'.critical == s.critical && s'.normal == s.normal && s'.processed == s.processed
            && b.moved <= b'.moved
            && forall k | k in b.position && k !in b'.moved :: k in b'.position && b.position[k] <= b'.position[k]
  {
  }

  lemma BrokerBehind(c: Config, s: State, step: Step)
    requires Structure(s) && SignalBehind(s) && CanStep(c, s, step)
    requires step.Append? || step.Assign? || step.Revoke? || step.Discard? || step.Report?
    requires Structure(Next(c, s, step))
    ensures SignalBehind(Next(c, s, step))
  {
    var s' := Next(c, s, step);
    BrokerFrame(c, s, step);
    BehindIs(s);
    BehindIs(s');
    BehindShrinks(s.critical, s.normal, s.processed, s.broker.position, s.broker.moved, Ahead(s),
                  s'.critical, s'.normal, s'.broker.position, s'.broker.moved, Ahead(s'));
  }

  lemma SendBehind(c: Config, s: State, step: Step)
    requires Structure(s) && SignalBehind(s) && CanStep(c, s, step) && (step.Send? || step.Drop?)
    requires Structure(Next(c, s, step))
    ensures SignalBehind(Next(c, s, step))
  {
    var s' := Next(c, s, step);
    BehindIs(s);
    BehindIs(s');
    QueueFlowSnoc(s.recordQueue, Envelope(s.consumer.source, s.consumer.flags));
    BehindShrinks(s.critical, s.normal, s.processed, s.broker.position, s.broker.moved, Ahead(s),
                  s'.critical, s'.normal, s'.broker.position, s'.broker.moved, Ahead(s'));
  }

  /** Past the message loop the processor has nothing ahead of it but the queue. */
  lemma GateBehind(s: State, s': State)
    requires Structure(s) && SignalBehind(s) && Structure(s')
    requires OnlyGates(s, s')
    ensures SignalBehind(s')
  {
    BehindIs(s);
    BehindIs(s');
    BehindShrinks(s.critical, s.normal, s.processed, s.broker.position, s.broker.moved, Ahead(s),
                  s'.critical, s'.normal, s'.broker.position, s'.broker.moved, Ahead(s'));
  }

  lemma WriteSignalBehind(c: Config, s: State, lane: LaneName, move: W.LaneStep, dlq: bool)
    requires Structure(s) && SignalBehind(s) && CanStep(c, s, Write(lane, move, dlq))
    requires Structure(DoWrite(c, s, lane, move, dlq))
    ensures SignalBehind(DoWrite(c, s, lane, move, dlq))
  {
    var s' := DoWrite(c, s, lane, move, dlq);
    MoveSendsNothing(LaneOf(s, lane), RoomOf(c, lane), move);
    BehindIs(s);
    BehindIs(s');
  }

  lemma SplitSignalBehind(c: Config, s: State)
    requires Structure(s) && SignalBehind(s) && CanStep(c, s, SplitNext)
    requires Structure(DoSplit(c, s))
    ensures SignalBehind(DoSplit(c, s))
  {
    BehindIs(s);
    BehindIs(DoSplit(c, s));
  }

  predicate IsGateStep(step: Step) {
    step.Flush? || step.PassNoise? || step.NoiseTimeout? || step.PassSignal? || step.SignalTimeout? || step.Finish?
  }

  /** Only the processor, the history and the committed offsets differ. */
  predicate OnlyGates(s: State, s': State) {
    && !s'.processor.Handling?
    && s'.critical == s.critical && s'.normal == s.normal && s'.recordQueue == s.recordQueue &&
       s'.consumer == s.consumer
    && s'.bulk == s.bulk && s'.processed == s.processed && s'.broker.position == s.broker.position &&
       s'.broker.moved == s.broker.moved
  }

  lemma FlushFrame(c: Config, s: State)
    requires CanStep(c, s, Flush)
    ensures OnlyGates(s, DoFlush(c, s))
  {
  }

  lemma FinishFrame(c: Config, s: State, ok: bool)
    requires CanStep(c, s, Finish(ok))
    ensures OnlyGates(s, DoFinish(c, s, ok))
  {
  }

  lemma GateFrame(c: Config, s: State, step: Step)
    requires CanStep(c, s, step) && IsGateStep(step)
    ensures OnlyGates(s, Next(c, s, step))
  {
    match step
    case Flush => FlushFrame(c, s);
    case Finish(ok) => FinishFrame(c, s, ok);
    case _ =>
  }

  lemma GatesBehind(c: Config, s: State, step: Step)
    requires Structure(s) && SignalBehind(s) && CanStep(c, s, step) && IsGateStep(step)
    requires Structure(Next(c, s, step))
    ensures SignalBehind(Next(c, s, step))
  {
    GateFrame(c, s, step);
    GateBehind(s, Next(c, s, step));
  }

  /** The steps of the three kinds of threads. */
  lemma ThreadBehind(c: Config, s: State, step: Step)
    requires Structure(s) && L.Shape(s.broker, Flow(s)) && SignalBehind(s) && CanStep(c, s, step)
    requires step.Handle? || step.Receive? || step.Consume? || step.Write? || step.SplitNext? || step.Crash?
    requires Structure(Next(c, s, step))
    ensures SignalBehind(Next(c, s, step))
  {
    if step.Handle? {
      HandleSignalBehind(c, s, step.o);
    } else if step.Receive? {
      ReceiveBehind(c, s);
    } else if step.Write? {
      WriteSignalBehind(c, s, step.lane, step.move, step.dlq);
    } else {
      ConsumerBehind(c, s, step);
    }
  }

  lemma ConsumerBehind(c: Config, s: State, step: Step)
    requires Structure(s) && L.Shape(s.broker, Flow(s)) && SignalBehind(s) && CanStep(c, s, step)
    requires (step.Consume? || step.SplitNext? || step.Crash?) && Structure(Next(c, s, step))
    ensures SignalBehind(Next(c, s, step))
  {
    if step.Consume? {
      ConsumeSignalBehind(c, s, step.batch);
    } else if step.SplitNext? {
      SplitSignalBehind(c, s);
    }
  }

  lemma SignalBehindKept(c: Config, s: State, step: Step)
    requires Structure(s) && L.Shape(s.broker, Flow(s)) && SignalBehind(s) && CanStep(c, s, step)
    requires Structure(Next(c, s, step))
    ensures SignalBehind(Next(c, s, step))
  {
    if IsGateStep(step) {
      GatesBehind(c, s, step);
    } else if step.Send? || step.Drop? {
      SendBehind(c, s, step);
    } else if step.Append? || step.Assign? || step.Revoke? || step.Discard? || step.Report? {
      BrokerBehind(c, s, step);
    } else {
      ThreadBehind(c, s, step);
    }
  }
}
