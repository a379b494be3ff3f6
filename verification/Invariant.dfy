/** What every reachable state of the forwarder satisfies. */
module Invariant {
  import opened Offsets
  import opened Split
  import opened Batch
  import opened Protocol
  import L = Ledger
  import W = WriterLane
  import B = Barrier

  // ---------------------------------------------------------------------------------------
  // The flow of fetched records
  // ---------------------------------------------------------------------------------------

  function QueueFlow(q: seq<Envelope>): seq<Ref> {
    if q == [] then [] else Refs(q[0].source) + QueueFlow(q[1..])
  }

  function HandFlow(p: Hand): seq<Ref> {
    if p.Waiting? then [] else Refs(p.env.source)
  }

  function ConsumerFlow(k: Consumer): seq<Ref> {
    if k.Idle? then [] else Refs(k.source)
  }

  /** Everything fetched and not finished with, oldest first. */
  function Flow(s: State): seq<Ref> {
    HandFlow(s.processor) + QueueFlow(s.recordQueue) + ConsumerFlow(s.consumer)
  }

  lemma {:induction false} QueueFlowSnoc(q: seq<Envelope>, e: Envelope)
    ensures QueueFlow(q + [e]) == QueueFlow(q) + Refs(e.source)
  {
    if q == [] {
      assert [e][1..] == [] && QueueFlow([e]) == Refs(e.source) + [];
      assert [] + [e] == [e];
    } else {
      QueueFlowSnoc(q[1..], e);
      var first, rest := Refs(q[0].source), QueueFlow(q[1..]);
      assert (q + [e])[0] == q[0] && (q + [e])[1..] == q[1..] + [e];
      assert first + (rest + Refs(e.source)) == (first + rest) + Refs(e.source);
    }
  }

  // ---------------------------------------------------------------------------------------
  // Structure
  // ---------------------------------------------------------------------------------------

  /** The records flagged so far were accepted by the bulk queue. */
  ghost predicate Flagged(source: seq<Record>, flags: seq<bool>, bulk: W.Lane) {
    && |flags| <= |source|
    && forall i | 0 <= i < |flags| && flags[i] :: source[i].Message? && B.Sent(bulk, source[i].ref)
  }

  ghost predicate Whole(e: Envelope, bulk: W.Lane) {
    |e.flags| == |e.source| && Flagged(e.source, e.flags, bulk)
  }

  ghost predicate TurnsFit(p: Hand)
    requires p.Waiting? || |p.env.flags| == |p.env.source|
  {
    !p.Waiting? ==>
      && |p.turns| <= |Residual(p.env)|
      && (p.Gating? ==> |p.turns| == |Residual(p.env)|)
      && forall i | 0 <= i < |p.turns| :: p.turns[i].record == Residual(p.env)[i]
  }

  ghost predicate Structure(s: State) {
    && (s.consumer.Splitting? ==> Flagged(s.consumer.source, s.consumer.flags, s.bulk))
    && (forall e | e in s.recordQueue :: Whole(e, s.bulk))
    && (!s.processor.Waiting? ==> Whole(s.processor.env, s.bulk) && TurnsFit(s.processor))
  }

  /** A partition that the processor skips has been revoked. */
  ghost predicate SkipsAreMoves(s: State) {
    && s.revoked <= s.broker.moved
    && (!s.processor.Waiting? ==> forall t | t in s.processor.turns :: t.revoked <= s.broker.moved)
  }

  /** Until a crash the bulk lane only accepts more. */
  ghost predicate Accepts(s: State, s': State) {
    forall r :: B.Sent(s.bulk, r) ==> B.Sent(s'.bulk, r)
  }

  lemma AcceptsMore(c: Config, s: State, step: Step)
    requires CanStep(c, s, step) && !step.Crash?
    ensures Accepts(s, Next(c, s, step))
  {
    match step
    case Write(lane, move, dlq) => WriteAccepts(c, s, lane, move, dlq);
    case Handle(o) => HandleAccepts(c, s, o);
    case SplitNext => SplitAccepts(c, s);
    case _ =>
  }

  lemma WriteAccepts(c: Config, s: State, lane: LaneName, move: W.LaneStep, dlq: bool)
    requires CanStep(c, s, Write(lane, move, dlq))
    ensures DoWrite(c, s, lane, move, dlq).bulk.accepted == s.bulk.accepted
  {
  }

  lemma HandleAccepts(c: Config, s: State, o: Outcome)
    requires CanStep(c, s, Handle(o))
    ensures Accepts(s, DoHandle(c, s, o))
  {
  }

  lemma SplitAccepts(c: Config, s: State)
    requires CanStep(c, s, SplitNext)
    ensures Accepts(s, DoSplit(c, s))
  {
  }

  lemma HandleThreads(c: Config, s: State, o: Outcome)
    requires CanStep(c, s, Handle(o))
    ensures var p, s' := s.processor, DoHandle(c, s, o);
            && s'.consumer == s.consumer && s'.recordQueue == s.recordQueue
            && s'.processor == Handling(p.env, p.turns + [Turn(Residual(p.env)[|p.turns|], s.revoked, o)],
                                        p.errorsBefore, p.firstId)
  {
  }

  lemma HandleStructure(c: Config, s: State, o: Outcome)
    requires Structure(s) && CanStep(c, s, Handle(o)) && Accepts(s, DoHandle(c, s, o))
    ensures Structure(DoHandle(c, s, o))
  {
    HandleThreads(c, s, o);
    var p, p' := s.processor, DoHandle(c, s, o).processor;
    assert p'.env == p.env && |p'.turns| == |p.turns| + 1 && p'.turns[..|p.turns|] == p.turns;
    assert p'.turns[|p.turns|].record == Residual(p.env)[|p.turns|];
  }

  lemma SplitStructure(c: Config, s: State)
    requires Structure(s) && CanStep(c, s, SplitNext) && Accepts(s, DoSplit(c, s))
    ensures Structure(DoSplit(c, s))
  {
    var s' := DoSplit(c, s);
    if DivertsNext(c, s) {
      assert B.Sent(s'.bulk, s.consumer.source[|s.consumer.flags|].ref);
    }
  }

  lemma WriteStructure(c: Config, s: State, lane: LaneName, move: W.LaneStep, dlq: bool)
    requires Structure(s) && CanStep(c, s, Write(lane, move, dlq)) && Accepts(s, DoWrite(c, s, lane, move, dlq))
    ensures Structure(DoWrite(c, s, lane, move, dlq))
  {
    var s' := DoWrite(c, s, lane, move, dlq);
    assert s'.consumer == s.consumer && s'.recordQueue == s.recordQueue && s'.processor == s.processor;
  }

  lemma StructureKept(c: Config, s: State, step: Step)
    requires Structure(s) && CanStep(c, s, step)
    ensures Structure(Next(c, s, step))
  {
    if !step.Crash? {
      AcceptsMore(c, s, step);
    }
    if step.Handle? {
      HandleStructure(c, s, step.o);
    } else if step.SplitNext? {
      SplitStructure(c, s);
    } else if step.Write? {
      WriteStructure(c, s, step.lane, step.move, step.dlq);
    } else {
      QuietStructure(c, s, step);
    }
  }

  lemma QuietStructure(c: Config, s: State, step: Step)
    requires Structure(s) && CanStep(c, s, step) && !step.Handle? && !step.SplitNext? && !step.Write?
    ensures Structure(Next(c, s, step))
  {
    if MovesBatch(step) {
      BatchStructure(c, s, step);
    } else {
      OthersStructure(c, s, step);
    }
  }

  /** Steps that hand a batch on. */
  predicate MovesBatch(step: Step) {
    step.Consume? || step.Send? || step.Drop? || step.Receive? || step.Flush? || step.Finish?
  }

  lemma BatchStructure(c: Config, s: State, step: Step)
    requires Structure(s) && CanStep(c, s, step) && MovesBatch(step)
    ensures Structure(Next(c, s, step))
  {
    if step.Receive? {
      assert s.recordQueue[0] in s.recordQueue;
    }
  }

  lemma OthersStructure(c: Config, s: State, step: Step)
    requires Structure(s) && CanStep(c, s, step) && !MovesBatch(step) && !step.Handle? && !step.SplitNext? &&
             !step.Write?
    ensures Structure(Next(c, s, step))
  {
  }

  lemma HandleSkips(c: Config, s: State, o: Outcome)
    requires SkipsAreMoves(s) && CanStep(c, s, Handle(o))
    ensures SkipsAreMoves(DoHandle(c, s, o))
  {
    var p, s' := s.processor, DoHandle(c, s, o);
    assert s'.broker == s.broker && s'.revoked == s.revoked;
    assert forall t | t in s'.processor.turns :: t in p.turns || t.revoked == s.revoked;
  }

  lemma WriteSkips(c: Config, s: State, lane: LaneName, move: W.LaneStep, dlq: bool)
    requires SkipsAreMoves(s) && CanStep(c, s, Write(lane, move, dlq))
    ensures SkipsAreMoves(DoWrite(c, s, lane, move, dlq))
  {
  }

  lemma SkipsKept(c: Config, s: State, step: Step)
    requires SkipsAreMoves(s) && CanStep(c, s, step)
    ensures SkipsAreMoves(Next(c, s, step))
  {
    match step
    case Consume(batch) => L.FetchAllFrame(s.broker, Refs(batch));
    case Handle(o) => HandleSkips(c, s, o);
    case Write(lane, move, dlq) => WriteSkips(c, s, lane, move, dlq);
    case _ =>
  }

  predicate TouchesBroker(step: Step) {
    step.Append? || step.Assign? || step.Revoke? || step.Consume? || step.Discard? || step.Finish? || step.Crash?
  }

  lemma HandleBroker(c: Config, s: State, o: Outcome)
    requires CanStep(c, s, Handle(o))
    ensures DoHandle(c, s, o).broker == s.broker
  {
  }

  lemma WriteBroker(c: Config, s: State, lane: LaneName, move: W.LaneStep, dlq: bool)
    requires CanStep(c, s, Write(lane, move, dlq))
    ensures DoWrite(c, s, lane, move, dlq).broker == s.broker
  {
  }

  /** The remaining steps leave the broker alone. */
  lemma BrokerUntouched(c: Config, s: State, step: Step)
    requires CanStep(c, s, step) && !TouchesBroker(step)
    ensures Next(c, s, step).broker == s.broker
  {
    match step
    case Handle(o) => HandleBroker(c, s, o);
    case Write(lane, move, dlq) => WriteBroker(c, s, lane, move, dlq);
    case _ =>
  }
}
