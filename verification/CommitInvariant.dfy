/** From the wire to the commit: what the gates prove about a batch, and what is therefore known of
    every record that the consumer has passed. */
module CommitInvariant {
  import opened Offsets
  import opened Sequences
  import opened Split
  import opened Batch
  import opened Protocol
  import opened Invariant
  import opened LaneInvariant
  import L = Ledger
  import W = WriterLane
  import B = Barrier
  import D = Delivery
  import Rebalance

  // ---------------------------------------------------------------------------------------
  // Durability
  // ---------------------------------------------------------------------------------------

  /** Every message of the handling was delivered. */
  ghost predicate Resolved(w: D.Wire, a: Attempt) {
    forall id | a.lo <= id < a.hi :: id in w.delivered
  }

  ghost predicate Produced(h: History, w: D.Wire, r: Ref) {
    exists a :: a in h.attempts && a.ref == r && Resolved(w, a)
  }

  /** The record is durable: its noise row is inserted, or one of its handlings is on the wire for
      good. */
  ghost predicate Kept(s: State, r: Ref) {
    r in s.noiseTable || Produced(s.h, s.wire, r)
  }

  /** One of the six things that can go wrong has happened to the record. */
  predicate Blamed(h: History, r: Ref) {
    r in h.discarded || r in h.declined || r in h.spoiled || r in h.undelivered || r in h.skipped || r in h.faultyNoise
  }

  ghost predicate Settled(s: State, r: Ref) {
    Kept(s, r) || Blamed(s.h, r)
  }

  ghost function SettledSet(s: State): set<Ref> {
    set r | r in s.broker.log && Settled(s, r)
  }

  /** Records that reached a thread that answers for them, or never reached the forwarder's threads. */
  function ReachedSet(s: State): set<Ref> {
    s.h.handled + s.h.diverted + s.h.discarded + s.h.skipped
  }

  // ---------------------------------------------------------------------------------------
  // The wire
  // ---------------------------------------------------------------------------------------

  ghost predicate WireOk(s: State) {
    && D.WireInv(s.wire)
    && forall a | a in s.h.attempts :: a.hi <= s.wire.next
  }

  /** The handling of this record by the current batch is on the wire, or is spoiled. */
  ghost predicate OnWire(h: History, firstId: nat, r: Ref) {
    r in h.spoiled || exists a :: a in h.attempts && a.ref == r && firstId <= a.lo
  }

  /** While the error counter stands where the batch found it, no ordinary message of the batch has
      failed. */
  ghost predicate CleanSoFar(w: D.Wire, errorsBefore: nat, firstId: nat) {
    && errorsBefore <= w.errors
    && firstId <= w.next
    && (forall id | id in w.lost :: id < firstId)
    && (w.errors == errorsBefore ==> forall id | id in w.failed && firstId <= id :: id in w.dlq)
  }

  /** A handling of the current batch with a failed DLQ message is blamed for it. */
  ghost predicate FailuresBlamed(h: History, w: D.Wire, firstId: nat) {
    forall a, id | a in h.attempts && firstId <= a.lo <= id < a.hi && id in w.failed && id in w.dlq ::
        a.ref in h.undelivered
  }

  /** The record is on the wire for good, or known not to be. */
  ghost predicate Sure(h: History, w: D.Wire, r: Ref) {
    Produced(h, w, r) || r in h.spoiled || r in h.undelivered
  }

  ghost predicate HandOk(s: State) {
    match s.processor
    case Waiting => true
    case Handling(env, turns, errorsBefore, firstId) =>
      && CleanSoFar(s.wire, errorsBefore, firstId)
      && FailuresBlamed(s.h, s.wire, firstId)
      && (forall t | t in turns && Reached(t) :: OnWire(s.h, firstId, t.record.ref) && t.record.ref in s.h.handled)
    case Gating(env, turns, clean, noise, signal) =>
      && (forall t | t in turns && Reached(t) :: t.record.ref in s.h.handled)
      && (clean ==> forall t | t in turns && Reached(t) :: Sure(s.h, s.wire, t.record.ref))
  }

  lemma WireKept(c: Config, s: State, step: Step)
    requires WireOk(s) && CanStep(c, s, step)
    ensures WireOk(Next(c, s, step))
  {
    if step.Report? {
      D.ReportKeeps(s.wire, step.id, step.ok);
    } else if step.Handle? {
      HandleWire(c, s, step.o);
    } else if step.Write? {
      WriteWire(c, s, step.lane, step.move, step.dlq);
    } else if step.Crash? {
      D.RestartKeeps(s.wire);
    } else {
      QuietWire(c, s, step);
    }
  }

  lemma QuietWire(c: Config, s: State, step: Step)
    requires CanStep(c, s, step) && !step.Report? && !step.Handle? && !step.Write? && !step.Crash?
    ensures Next(c, s, step).wire == s.wire && Next(c, s, step).h.attempts == s.h.attempts
  {
  }

  lemma HandleWire(c: Config, s: State, o: Outcome)
    requires WireOk(s) && CanStep(c, s, Handle(o))
    ensures WireOk(DoHandle(c, s, o))
  {
    HandleSends(c, s, o);
    D.AcceptKeeps(s.wire, SendsOf(o).accepted, DlqRecords(o));
  }

  /** What a handling puts on the wire and on record. */
  lemma HandleSends(c: Config, s: State, o: Outcome)
    requires CanStep(c, s, Handle(o))
    ensures var s' := DoHandle(c, s, o);
            || (s'.wire == s.wire && s'.h.attempts == s.h.attempts)
            || (s'.wire == WireAfter(s.wire, o) && s'.h.undelivered == s.h.undelivered
                && forall a | a in s'.h.attempts :: a in s.h.attempts || (a.lo == s.wire.next && a.hi == s'.wire.next))
  {
  }

  lemma WriteWire(c: Config, s: State, lane: LaneName, move: W.LaneStep, dlq: bool)
    requires WireOk(s) && CanStep(c, s, Write(lane, move, dlq))
    ensures WireOk(DoWrite(c, s, lane, move, dlq))
  {
    WriteSends(c, s, lane, move, dlq);
    D.AcceptKeeps(s.wire, 0, 1);
  }

  lemma WriteSends(c: Config, s: State, lane: LaneName, move: W.LaneStep, dlq: bool)
    requires CanStep(c, s, Write(lane, move, dlq))
    ensures var s' := DoWrite(c, s, lane, move, dlq);
            (s'.wire == s.wire || s'.wire == D.Accept(s.wire, 0, 1)) && s'.h.attempts == s.h.attempts
  {
  }

  /** What has been delivered or answered stays so. */
  ghost predicate WireGrows(w: D.Wire, w': D.Wire) {
    && w.delivered <= w'.delivered && w.failed <= w'.failed && w.dlq <= w'.dlq && w.next <= w'.next
  }

  lemma WiresGrow(c: Config, s: State, step: Step)
    requires CanStep(c, s, step)
    ensures WireGrows(s.wire, Next(c, s, step).wire)
    ensures s.h.attempts <= Next(c, s, step).h.attempts
  {
    match step
    case Handle(o) => HandleGrows(c, s, o);
    case Write(lane, move, dlq) => WriteGrows(c, s, lane, move, dlq);
    case _ =>
  }

  lemma HandleGrows(c: Config, s: State, o: Outcome)
    requires CanStep(c, s, Handle(o))
    ensures WireGrows(s.wire, DoHandle(c, s, o).wire) && s.h.attempts <= DoHandle(c, s, o).h.attempts
  {
  }

  lemma WriteGrows(c: Config, s: State, lane: LaneName, move: W.LaneStep, dlq: bool)
    requires CanStep(c, s, Write(lane, move, dlq))
    ensures WireGrows(s.wire, DoWrite(c, s, lane, move, dlq).wire) &&
            DoWrite(c, s, lane, move, dlq).h.attempts == s.h.attempts
  {
  }

  lemma ProducedStays(h: History, w: D.Wire, h': History, w': D.Wire, r: Ref)
    requires WireGrows(w, w') && h.attempts <= h'.attempts && Produced(h, w, r)
    ensures Produced(h', w', r)
  {
    var a :| a in h.attempts && a.ref == r && Resolved(w, a);
    assert Resolved(w', a);
  }

  lemma CleanAccepts(w: D.Wire, plain: nat, dlq: nat, errorsBefore: nat, firstId: nat)
    requires D.WireInv(w) && CleanSoFar(w, errorsBefore, firstId)
    ensures CleanSoFar(D.Accept(w, plain, dlq), errorsBefore, firstId)
  {
  }

  lemma CleanReports(w: D.Wire, id: nat, ok: bool, errorsBefore: nat, firstId: nat)
    requires D.WireInv(w) && CleanSoFar(w, errorsBefore, firstId) && id in w.outstanding
    ensures CleanSoFar(D.Report(w, id, ok), errorsBefore, firstId)
  {
  }

  lemma FailuresAccept(h: History, w: D.Wire, plain: nat, dlq: nat, firstId: nat, h': History)
    requires D.WireInv(w) && FailuresBlamed(h, w, firstId)
    requires h.undelivered <= h'.undelivered && forall a | a in h'.attempts :: a in h.attempts || a.lo == w.next
    ensures FailuresBlamed(h', D.Accept(w, plain, dlq), firstId)
  {
  }

  lemma FailuresReport(s: State, id: nat, ok: bool, firstId: nat)
    requires D.WireInv(s.wire) && FailuresBlamed(s.h, s.wire, firstId) && id in s.wire.outstanding
    ensures FailuresBlamed(DoReport(s, id, ok).h, DoReport(s, id, ok).wire, firstId)
  {
    var s' := DoReport(s, id, ok);
    forall a, x | a in s'.h.attempts && firstId <= a.lo <= x < a.hi && x in s'.wire.failed && x in s'.wire.dlq
      ensures a.ref in s'.h.undelivered
    {
      if x == id && !ok {
        assert a.ref in Carriers(s.h.attempts, id);
      }
    }
  }

  /** The delivery gate: nothing outstanding and no new error means that every handling of the batch
      is delivered, unless one of its DLQ messages has failed. */
  lemma CleanResolves(h: History, w: D.Wire, errorsBefore: nat, firstId: nat, r: Ref)
    requires D.WireInv(w) && CleanSoFar(w, errorsBefore, firstId)
    requires w.outstanding == {} && w.errors == errorsBefore
    requires forall a | a in h.attempts :: a.hi <= w.next
    requires OnWire(h, firstId, r) && FailuresBlamed(h, w, firstId)
    ensures Sure(h, w, r)
  {
    if r !in h.spoiled && r !in h.undelivered {
      var a :| a in h.attempts && a.ref == r && firstId <= a.lo;
      forall id | a.lo <= id < a.hi ensures id in w.delivered {
        assert id < w.next;
      }
      assert Resolved(w, a);
    }
  }

  lemma FlushHand(c: Config, s: State)
    requires WireOk(s) && HandOk(s) && CanStep(c, s, Flush)
    ensures HandOk(DoFlush(c, s))
  {
    var p, p' := s.processor, DoFlush(c, s).processor;
    if p'.clean {
      forall t | t in p.turns && Reached(t)
        ensures Sure(s.h, s.wire, t.record.ref)
      {
        CleanResolves(s.h, s.wire, p.errorsBefore, p.firstId, t.record.ref);
      }
    }
  }

  lemma HandleHand(c: Config, s: State, o: Outcome)
    requires WireOk(s) && HandOk(s) && CanStep(c, s, Handle(o))
    ensures HandOk(DoHandle(c, s, o))
  {
    var p, s' := s.processor, DoHandle(c, s, o);
    var turn := Turn(Residual(p.env)[|p.turns|], s.revoked, o);
    CleanAccepts(s.wire, SendsOf(o).accepted, DlqRecords(o), p.errorsBefore, p.firstId);
    HandleThreads(c, s, o);
    HandleSends(c, s, o);
    if Reached(turn) {
      FailuresAccept(s.h, s.wire, SendsOf(o).accepted, DlqRecords(o), p.firstId, s'.h);
      HandlingIsOnWire(c, s.h, p.firstId, turn.record.ref, s.wire, o);
    }
  }

  lemma HandlingIsOnWire(c: Config, h: History, firstId: nat, ref: Ref, w: D.Wire, o: Outcome)
    requires firstId <= w.next
    ensures var h' := HistoryAfter(c, h, ref, w, o);
            && OnWire(h', firstId, ref) && ref in h'.handled && h.handled <= h'.handled
            && forall r | OnWire(h, firstId, r) :: OnWire(h', firstId, r)
  {
    var h' := HistoryAfter(c, h, ref, w, o);
    if !Spoils(o) {
      assert Attempt(ref, w.next, WireAfter(w, o).next) in h'.attempts;
    }
  }

  /** Other threads only add to what the hand relies on. */
  lemma HandStays(s: State, s': State)
    requires HandOk(s) && s'.processor == s.processor
    requires WireGrows(s.wire, s'.wire) && s.h.attempts <= s'.h.attempts && s.h.spoiled <= s'.h.spoiled &&
             s.h.handled <= s'.h.handled
    requires s.h.undelivered <= s'.h.undelivered
    requires s.processor.Handling? ==>
      && CleanSoFar(s'.wire, s.processor.errorsBefore, s.processor.firstId)
      && FailuresBlamed(s'.h, s'.wire, s.processor.firstId)
    ensures HandOk(s')
  {
    if s.processor.Gating? && s.processor.clean {
      forall t | t in s.processor.turns && Reached(t)
        ensures Sure(s'.h, s'.wire, t.record.ref)
      {
        if Produced(s.h, s.wire, t.record.ref) {
          ProducedStays(s.h, s.wire, s'.h, s'.wire, t.record.ref);
        }
      }
    }
  }

  lemma ReportHand(c: Config, s: State, id: nat, ok: bool)
    requires WireOk(s) && HandOk(s) && CanStep(c, s, Report(id, ok))
    ensures HandOk(Next(c, s, Report(id, ok)))
  {
    if s.processor.Handling? {
      CleanReports(s.wire, id, ok, s.processor.errorsBefore, s.processor.firstId);
      FailuresReport(s, id, ok, s.processor.firstId);
    }
    HandStays(s, Next(c, s, Report(id, ok)));
  }

  /** A writer may put one DLQ record on the wire; what is known of the handlings stays. */
  lemma WriteRecord(c: Config, s: State, lane: LaneName, move: W.LaneStep, dlq: bool)
    requires CanStep(c, s, Write(lane, move, dlq))
    ensures var s' := DoWrite(c, s, lane, move, dlq);
            && (s'.wire == s.wire || s'.wire == D.Accept(s.wire, 0, 1)) && s'.h.attempts == s.h.attempts
            && s'.h.spoiled == s.h.spoiled && s'.h.handled == s.h.handled && s'.h.undelivered == s.h.undelivered
  {
  }

  lemma HandMoves(s: State, s': State)
    requires HandOk(s) && s'.processor == s.processor && s'.h.attempts == s.h.attempts && s'.h.spoiled == s.h.spoiled
    requires s'.h.handled == s.h.handled && s'.h.undelivered == s.h.undelivered
    requires s'.wire == s.wire || (s'.wire == D.Accept(s.wire, 0, 1) && (s.processor.Handling? ==>
      && CleanSoFar(s'.wire, s.processor.errorsBefore, s.processor.firstId)
      && FailuresBlamed(s.h, s'.wire, s.processor.firstId)))
    ensures HandOk(s')
  {
    HandStays(s, s');
  }

  lemma WriteHand(c: Config, s: State, lane: LaneName, move: W.LaneStep, dlq: bool)
    requires WireOk(s) && HandOk(s) && CanStep(c, s, Write(lane, move, dlq))
    ensures HandOk(DoWrite(c, s, lane, move, dlq))
  {
    WriteMarks(c, s, lane, move, dlq);
    WriteRecord(c, s, lane, move, dlq);
    if s.processor.Handling? {
      CleanAccepts(s.wire, 0, 1, s.processor.errorsBefore, s.processor.firstId);
      FailuresAccept(s.h, s.wire, 0, 1, s.processor.firstId, s.h);
    }
    HandMoves(s, DoWrite(c, s, lane, move, dlq));
  }

  lemma HandKept(c: Config, s: State, step: Step)
    requires WireOk(s) && HandOk(s) && CanStep(c, s, step)
    ensures HandOk(Next(c, s, step))
  {
    if step.Handle? {
      HandleHand(c, s, step.o);
    } else if step.Flush? {
      FlushHand(c, s);
    } else if step.Report? {
      ReportHand(c, s, step.id, step.ok);
    } else if step.Write? {
      WriteHand(c, s, step.lane, step.move, step.dlq);
    } else {
      QuietHand(c, s, step);
    }
  }

  lemma QuietHand(c: Config, s: State, step: Step)
    requires WireOk(s) && HandOk(s) && CanStep(c, s, step)
    requires !step.Handle? && !step.Flush? && !step.Report? && !step.Write?
    ensures HandOk(Next(c, s, step))
  {
    if KeepsHand(step) {
      OthersKeepHand(c, s, step);
    } else {
      TurnsKeepHand(c, s, step);
    }
  }

  /** The broker's and the consumer's steps. */
  predicate KeepsHand(step: Step) {
    || step.Append? || step.Assign? || step.Revoke? || step.Consume? || step.Discard? || step.SplitNext?
    || step.Send? || step.Drop?
  }

  lemma OthersKeepHand(c: Config, s: State, step: Step)
    requires HandOk(s) && CanStep(c, s, step) && KeepsHand(step)
    ensures HandOk(Next(c, s, step))
  {
  }

  lemma TurnsKeepHand(c: Config, s: State, step: Step)
    requires WireOk(s) && HandOk(s) && CanStep(c, s, step) && !KeepsHand(step)
    requires !step.Handle? && !step.Flush? && !step.Report? && !step.Write?
    ensures HandOk(Next(c, s, step))
  {
  }

  // ---------------------------------------------------------------------------------------
  // The barriers
  // ---------------------------------------------------------------------------------------

  /** A barrier that was passed stays passed: marks only grow. A clean batch met no infrastructure
      failure. */
  ghost predicate GateOk(c: Config, s: State) {
    s.processor.Gating? && |s.processor.env.source| == |s.processor.env.flags| ==>
      && (s.processor.clean ==> !TallyAll(s.processor.turns, c.strict).failed)
      && (s.processor.noise.Passed? ==> Covers(s.noiseMarks, Diverts(s.processor.env)))
      && (s.processor.signal.Passed? ==> Covers(s.signalMarks, TallyAll(s.processor.turns, c.strict).signal))
  }

  lemma MarksGrow(l: W.Lane, move: W.LaneStep, marks: Marks, required: Marks)
    requires Covers(marks, required)
    ensures Covers(B.Advance(l, move, marks), required)
  {
    if move.Publish? {
      forall k | k in required ensures At(BumpAll(marks, W.AckRefs(l.batch)), k) >= required[k] {
        BumpAllIsHighest(marks, W.AckRefs(l.batch), k);
      }
    }
  }

  lemma WriteMarks(c: Config, s: State, lane: LaneName, move: W.LaneStep, dlq: bool)
    requires CanStep(c, s, Write(lane, move, dlq))
    ensures var s', l := DoWrite(c, s, lane, move, dlq), LaneOf(s, lane);
            && s'.processor == s.processor
            && (s'.noiseMarks == s.noiseMarks || s'.noiseMarks == B.Advance(l, move, s.noiseMarks))
            && (s'.signalMarks == s.signalMarks || s'.signalMarks == B.Advance(l, move, s.signalMarks))
  {
  }

  lemma WriteGate(c: Config, s: State, lane: LaneName, move: W.LaneStep, dlq: bool)
    requires GateOk(c, s) && CanStep(c, s, Write(lane, move, dlq))
    ensures GateOk(c, DoWrite(c, s, lane, move, dlq))
  {
    var p := s.processor;
    WriteMarks(c, s, lane, move, dlq);
    if p.Gating? && |p.env.source| == |p.env.flags| {
      if p.noise.Passed? {
        MarksGrow(LaneOf(s, lane), move, s.noiseMarks, Diverts(p.env));
      }
      if p.signal.Passed? {
        MarksGrow(LaneOf(s, lane), move, s.signalMarks, TallyAll(p.turns, c.strict).signal);
      }
    }
  }

  lemma GateKept(c: Config, s: State, step: Step)
    requires GateOk(c, s) && CanStep(c, s, step)
    ensures GateOk(c, Next(c, s, step))
  {
    match step
    case Write(lane, move, dlq) => WriteGate(c, s, lane, move, dlq);
    case _ =>
  }

  // ---------------------------------------------------------------------------------------
  // A batch at its commit
  // ---------------------------------------------------------------------------------------

  /** A record of a finished batch was either diverted or handled, unless its partition moved. */
  lemma SourceSplits(s: State, r: Ref)
    requires Structure(s) && SkipsAreMoves(s) && s.processor.Gating?
    requires r in HandFlow(s.processor) && r.key !in s.broker.moved
    ensures (r in Refs(Pick(s.processor.env.source, s.processor.env.flags, true)) && B.Sent(s.bulk, r))
         || (exists t :: t in s.processor.turns && Reached(t) && t.record.ref == r)
  {
    var p := s.processor;
    var source, flags := p.env.source, p.env.flags;
    RefsMember(source, r);
    var x :| x in source && x.Message? && x.ref == r;
    var i :| 0 <= i < |source| && source[i] == x;
    if flags[i] {
      PickMember(source, flags, true, x);
      RefsMember(Pick(source, flags, true), r);
    } else {
      PickMember(source, flags, false, x);
      var j :| 0 <= j < |Residual(p.env)| && Residual(p.env)[j] == x;
      assert p.turns[j] in p.turns && Reached(p.turns[j]);
    }
  }

  /** When the gates are open every record of the batch is durable, or spoiled, or part of a failed
      bulk write. */
  lemma OpenGatesSettle(c: Config, s: State, r: Ref)
    requires Structure(s) && SkipsAreMoves(s) && BulkOk(s) && HandOk(s) && GateOk(c, s)
    requires GatesOpen(s.processor) && r in HandFlow(s.processor) && r.key !in s.broker.moved
    ensures Kept(s, r) || r in s.h.spoiled || r in s.h.undelivered || r in s.h.faultyNoise
  {
    var p := s.processor;
    SourceSplits(s, r);
    var diverted := Refs(Pick(p.env.source, p.env.flags, true));
    if r in diverted && B.Sent(s.bulk, r) {
      BumpAllIsHighest(map[], diverted, r.key);
      var i :| 0 <= i < |diverted| && diverted[i] == r;
      assert r.key in Diverts(p.env) && r.offset <= Diverts(p.env)[r.key];
      assert Covers(s.noiseMarks, Diverts(p.env));
      PassedLands(s.bulk, s.noiseMarks, s.noiseTable, s.h.faultyNoise, s.broker.moved, r);
    }
  }

  ghost predicate DivertedOk(s: State) {
    forall r | B.Sent(s.bulk, r) :: r in s.h.diverted
  }

  lemma WriteDiverted(c: Config, s: State, lane: LaneName, move: W.LaneStep, dlq: bool)
    requires DivertedOk(s) && CanStep(c, s, Write(lane, move, dlq))
    ensures DivertedOk(DoWrite(c, s, lane, move, dlq))
  {
    MoveSendsNothing(LaneOf(s, lane), RoomOf(c, lane), move);
  }

  lemma HandleDiverted(c: Config, s: State, o: Outcome)
    requires DivertedOk(s) && CanStep(c, s, Handle(o))
    ensures DivertedOk(DoHandle(c, s, o))
  {
  }

  lemma DivertedKept(c: Config, s: State, step: Step)
    requires DivertedOk(s) && CanStep(c, s, step)
    ensures DivertedOk(Next(c, s, step))
  {
    match step
    case Write(lane, move, dlq) => WriteDiverted(c, s, lane, move, dlq);
    case Handle(o) => HandleDiverted(c, s, o);
    case _ =>
  }

  /** Every record of a finished batch reached the processor or the bulk queue. */
  lemma FinishedIsReached(s: State, r: Ref)
    requires Structure(s) && SkipsAreMoves(s) && HandOk(s) && DivertedOk(s) && s.processor.Gating?
    requires r in HandFlow(s.processor) && r.key !in s.broker.moved
    ensures r in ReachedSet(s)
  {
    SourceSplits(s, r);
  }

  /** The commit vector comes from records of the batch. */
  lemma VectorFromBatch(c: Config, s: State)
    requires Structure(s) && s.processor.Gating?
    ensures L.CommitsFrom(s.broker, HandFlow(s.processor), Vector(c, s.processor))
  {
    var p := s.processor;
    var handled, diverted := HandledRefs(p.turns), Refs(Pick(p.env.source, p.env.flags, true));
    TallyMaxima(p.turns, c.strict);
    forall k | k in Vector(c, p)
      ensures Vector(c, p)[k] > 0 && Ref(k, Vector(c, p)[k] - 1) in HandFlow(p)
    {
      VectorMeaning(handled, diverted, k);
      var r := Ref(k, Vector(c, p)[k] - 1);
      var want := r !in handled;
      var x: Record;
      if r in handled {
        HandledRefsMember(p.turns, r);
        var t :| t in p.turns && Reached(t) && t.record.ref == r;
        x := t.record;
        assert x in Residual(p.env);
      } else {
        RefsMember(Pick(p.env.source, p.env.flags, true), r);
        x :| x in Pick(p.env.source, p.env.flags, true) && x.Message? && x.ref == r;
      }
      PickMember(p.env.source, p.env.flags, want, x);
      RefsMember(p.env.source, r);
    }
  }

  /** The vector moves every partition strictly forward, whatever was declined before. */
  lemma VectorAdvances(c: Config, s: State)
    requires Structure(s) && L.Shape(s.broker, Flow(s)) && s.processor.Gating?
    ensures forall k | k in Vector(c, s.processor) && k !in s.broker.moved ::
              At(s.broker.committed, k) < Vector(c, s.processor)[k]
  {
    VectorFromBatch(c, s);
    forall k | k in Vector(c, s.processor) && k !in s.broker.moved
      ensures At(s.broker.committed, k) < Vector(c, s.processor)[k]
    {
      assert Ref(k, Vector(c, s.processor)[k] - 1) in Flow(s);
    }
  }

  // ---------------------------------------------------------------------------------------
  // The ledger
  // ---------------------------------------------------------------------------------------

  /** Nothing is lost, in both readings of accounted for. */
  ghost predicate LedgerOk(s: State) {
    && L.Shape(s.broker, Flow(s))
    && L.Covered(s.broker, Flow(s), SettledSet(s))
    && L.Covered(s.broker, Flow(s), ReachedSet(s))
  }

  /** What is settled stays settled until a crash; then it stays so below the committed offsets. */
  lemma SettledStays(c: Config, s: State, step: Step, r: Ref)
    requires CanStep(c, s, step) && Settled(s, r)
    requires step.Crash? ==> r.key in s.broker.committed && r.offset < s.broker.committed[r.key]
    ensures Settled(Next(c, s, step), r)
  {
    var s' := Next(c, s, step);
    WiresGrow(c, s, step);
    if Produced(s.h, s.wire, r) {
      ProducedStays(s.h, s.wire, s'.h, s'.wire, r);
    } else {
      TableAndBlameStay(c, s, step, r);
    }
  }

  lemma TableAndBlameStay(c: Config, s: State, step: Step, r: Ref)
    requires CanStep(c, s, step)
    requires step.Crash? ==> r.key in s.broker.committed && r.offset < s.broker.committed[r.key]
    ensures r in s.noiseTable ==> r in Next(c, s, step).noiseTable
    ensures Blamed(s.h, r) ==> Blamed(Next(c, s, step).h, r)
  {
    if step.Handle? {
      HandleBlames(c, s, step.o, r);
    } else if step.Write? {
      WriteBlames(c, s, step.lane, step.move, step.dlq, r);
    } else if step.Crash? {
      CrashBlames(s, r);
    } else {
      QuietBlames(c, s, step, r);
    }
  }

  lemma CrashBlames(s: State, r: Ref)
    requires r.key in s.broker.committed && r.offset < s.broker.committed[r.key]
    ensures DoCrash(s).noiseTable == s.noiseTable
    ensures Blamed(s.h, r) ==> Blamed(DoCrash(s).h, r)
  {
  }

  lemma QuietBlames(c: Config, s: State, step: Step, r: Ref)
    requires CanStep(c, s, step) && !step.Handle? && !step.Write? && !step.Crash?
    ensures Next(c, s, step).noiseTable == s.noiseTable
    ensures Blamed(s.h, r) ==> Blamed(Next(c, s, step).h, r)
  {
  }

  lemma HandleBlames(c: Config, s: State, o: Outcome, r: Ref)
    requires CanStep(c, s, Handle(o))
    ensures DoHandle(c, s, o).noiseTable == s.noiseTable
    ensures Blamed(s.h, r) ==> Blamed(DoHandle(c, s, o).h, r)
  {
  }

  lemma WriteBlames(c: Config, s: State, lane: LaneName, move: W.LaneStep, dlq: bool, r: Ref)
    requires CanStep(c, s, Write(lane, move, dlq))
    ensures r in s.noiseTable ==> r in DoWrite(c, s, lane, move, dlq).noiseTable
    ensures Blamed(s.h, r) ==> Blamed(DoWrite(c, s, lane, move, dlq).h, r)
  {
  }

  lemma ReachedStays(c: Config, s: State, step: Step, r: Ref)
    requires CanStep(c, s, step) && r in ReachedSet(s)
    requires step.Crash? ==> r.key in s.broker.committed && r.offset < s.broker.committed[r.key]
    ensures r in ReachedSet(Next(c, s, step))
  {
  }

  lemma LogStays(c: Config, s: State, step: Step)
    requires CanStep(c, s, step)
    ensures s.broker.log <= Next(c, s, step).broker.log
  {
    if step.Consume? {
      L.FetchAllFrame(s.broker, Refs(step.batch));
    }
  }

  /** The old ledger, counted with what is accounted for after the step. */
  lemma Recount(c: Config, s: State, step: Step)
    requires LedgerOk(s) && CanStep(c, s, step) && !step.Crash?
    ensures L.Covered(s.broker, Flow(s), SettledSet(Next(c, s, step)))
    ensures L.Covered(s.broker, Flow(s), ReachedSet(Next(c, s, step)))
  {
    var s' := Next(c, s, step);
    LogStays(c, s, step);
    forall r | r in SettledSet(s) ensures r in SettledSet(s') { SettledStays(c, s, step, r); }
    forall r | r in ReachedSet(s) ensures r in ReachedSet(s') { ReachedStays(c, s, step, r); }
    L.CoverGrows(s.broker, Flow(s), SettledSet(s), SettledSet(s'));
    L.CoverGrows(s.broker, Flow(s), ReachedSet(s), ReachedSet(s'));
  }

  /** Broker and flow as they are, counted anew. */
  lemma SameLedger(s: State, s': State)
    requires L.Shape(s.broker, Flow(s)) && s'.broker == s.broker && Flow(s') == Flow(s)
    requires L.Covered(s.broker, Flow(s), SettledSet(s')) && L.Covered(s.broker, Flow(s), ReachedSet(s'))
    ensures LedgerOk(s')
  {
  }

  lemma SkippedIsBlamed(c: Config, s: State, k: Key)
    requires CanStep(c, s, Assign(k))
    ensures L.Skipped(s.broker, k, c.earliest) <= SettledSet(Next(c, s, Assign(k)))
    ensures L.Skipped(s.broker, k, c.earliest) <= ReachedSet(Next(c, s, Assign(k)))
  {
  }

  lemma BrokerLedger(c: Config, s: State, step: Step)
    requires LedgerOk(s) && CanStep(c, s, step) && (step.Append? || step.Assign? || step.Revoke?)
    ensures LedgerOk(Next(c, s, step))
  {
    var s' := Next(c, s, step);
    Recount(c, s, step);
    assert Flow(s') == Flow(s);
    match step
    case Append(k, gap) =>
      L.AppendKeeps(s.broker, Flow(s), SettledSet(s'), k, gap);
      L.AppendKeeps(s.broker, Flow(s), ReachedSet(s'), k, gap);
    case Assign(k) =>
      SkippedIsBlamed(c, s, k);
      L.AssignKeeps(s.broker, Flow(s), SettledSet(s'), k, c.earliest);
      L.AssignKeeps(s.broker, Flow(s), ReachedSet(s'), k, c.earliest);
    case Revoke(keys, committed) =>
      var vector := if committed then Rebalance.RevokeVector(s.processed, keys) else map[];
      L.RevokeKeeps(s.broker, Flow(s), SettledSet(s'), keys, vector);
      L.RevokeKeeps(s.broker, Flow(s), ReachedSet(s'), keys, vector);
  }

  lemma ConsumeLedger(c: Config, s: State, batch: seq<Record>)
    requires LedgerOk(s) && CanStep(c, s, Consume(batch))
    ensures LedgerOk(Next(c, s, Consume(batch)))
  {
    var s' := Next(c, s, Consume(batch));
    Recount(c, s, Consume(batch));
    assert Flow(s') == Flow(s) + Refs(batch);
    L.FetchAllKeeps(s.broker, Flow(s), SettledSet(s'), Refs(batch));
    L.FetchAllKeeps(s.broker, Flow(s), ReachedSet(s'), Refs(batch));
  }

  lemma SendLedger(c: Config, s: State)
    requires LedgerOk(s) && CanStep(c, s, Send)
    ensures LedgerOk(Next(c, s, Send))
  {
    Recount(c, s, Send);
    SendFlow(c, s);
    SameLedger(s, Next(c, s, Send));
  }

  lemma SendFlow(c: Config, s: State)
    requires CanStep(c, s, Send)
    ensures Next(c, s, Send).broker == s.broker && Flow(Next(c, s, Send)) == Flow(s)
  {
    QueueFlowSnoc(s.recordQueue, Envelope(s.consumer.source, s.consumer.flags));
    Regroup(HandFlow(s.processor), QueueFlow(s.recordQueue), Refs(s.consumer.source));
  }

  lemma Regroup<T>(a: seq<T>, b: seq<T>, c: seq<T>)
    ensures a + (b + c) + [] == a + b + c
  {
  }

  lemma DropLedger(c: Config, s: State)
    requires LedgerOk(s) && CanStep(c, s, Drop)
    ensures LedgerOk(Next(c, s, Drop))
  {
    Recount(c, s, Drop);
    SameLedger(s, Next(c, s, Drop));
  }

  lemma DiscardLedger(c: Config, s: State, r: Ref)
    requires LedgerOk(s) && CanStep(c, s, Discard(r))
    ensures LedgerOk(Next(c, s, Discard(r)))
  {
    var s', b' := Next(c, s, Discard(r)), L.Fetch(s.broker, r);
    Recount(c, s, Discard(r));
    assert Flow(s') == Flow(s) && r in SettledSet(s') && r in ReachedSet(s');
    L.FetchKeeps(s.broker, Flow(s), SettledSet(s'), r);
    L.FetchKeeps(s.broker, Flow(s), ReachedSet(s'), r);
    L.ShedKeeps(b', Flow(s), [r], SettledSet(s'));
    L.ShedKeeps(b', Flow(s), [r], ReachedSet(s'));
  }

  lemma ReceiveLedger(c: Config, s: State)
    requires LedgerOk(s) && CanStep(c, s, Receive)
    ensures LedgerOk(Next(c, s, Receive))
  {
    Recount(c, s, Receive);
    ReceiveFlow(c, s);
    SameLedger(s, Next(c, s, Receive));
  }

  lemma ReceiveFlow(c: Config, s: State)
    requires CanStep(c, s, Receive)
    ensures Next(c, s, Receive).broker == s.broker && Flow(Next(c, s, Receive)) == Flow(s)
  {
    assert [] + QueueFlow(s.recordQueue) == QueueFlow(s.recordQueue);
  }

  /** The vector that a finish commits; empty when it commits nothing. */
  function Committed(c: Config, p: Hand, ok: bool): Marks
    requires p.Gating? && |p.env.source| == |p.env.flags|
  {
    if GatesOpen(p) && ok then Vector(c, p) else map[]
  }

  lemma CommitNothing(b: L.Broker)
    ensures L.Commit(b, map[]) == b
  {
    assert b.committed + map[] == b.committed;
  }

  lemma FinishBroker(c: Config, s: State, ok: bool)
    requires CanStep(c, s, Finish(ok))
    ensures DoFinish(c, s, ok).broker == L.Commit(s.broker, Committed(c, s.processor, ok))
  {
    CommitNothing(s.broker);
  }

  lemma FinishFlow(c: Config, s: State, ok: bool)
    requires CanStep(c, s, Finish(ok))
    ensures Flow(DoFinish(c, s, ok)) == QueueFlow(s.recordQueue) + ConsumerFlow(s.consumer)
  {
    var s' := DoFinish(c, s, ok);
    assert s'.processor == Waiting && s'.recordQueue == s.recordQueue && s'.consumer == s.consumer;
    assert [] + QueueFlow(s.recordQueue) == QueueFlow(s.recordQueue);
  }

  /** The finished batch leaves the flow and the commit covers only what is accounted for. */
  lemma RetireBoth(c: Config, s: State, ok: bool, settled: set<Ref>, reached: set<Ref>)
    requires Structure(s) && s.processor.Gating? && L.Shape(s.broker, Flow(s))
    requires L.Covered(s.broker, Flow(s), settled) && L.Covered(s.broker, Flow(s), reached)
    requires forall r | r in HandFlow(s.processor) && r.key !in s.broker.moved :: r in settled && r in reached
    ensures var b := L.Commit(s.broker, Committed(c, s.processor, ok));
            var rest := QueueFlow(s.recordQueue) + ConsumerFlow(s.consumer);
            L.Shape(b, rest) && L.Covered(b, rest, settled) && L.Covered(b, rest, reached)
  {
    var finished, rest := HandFlow(s.processor), QueueFlow(s.recordQueue) + ConsumerFlow(s.consumer);
    assert Flow(s) == finished + rest;
    VectorFromBatch(c, s);
    L.RetireKeeps(s.broker, finished, rest, settled, Committed(c, s.processor, ok));
    L.RetireKeeps(s.broker, finished, rest, reached, Committed(c, s.processor, ok));
  }

  lemma FinishLedger(c: Config, s: State, ok: bool)
    requires LedgerOk(s) && Structure(s) && SkipsAreMoves(s) && BulkOk(s) && HandOk(s) && GateOk(c, s) && DivertedOk(s)
    requires CanStep(c, s, Finish(ok))
    ensures LedgerOk(Next(c, s, Finish(ok)))
  {
    var s' := Next(c, s, Finish(ok));
    Recount(c, s, Finish(ok));
    FinishedAccounted(c, s, ok);
    FinishFlow(c, s, ok);
    FinishBroker(c, s, ok);
    RetireBoth(c, s, ok, SettledSet(s'), ReachedSet(s'));
  }

  lemma FinishedAccounted(c: Config, s: State, ok: bool)
    requires L.Shape(s.broker, Flow(s)) && Structure(s) && SkipsAreMoves(s) && BulkOk(s) && HandOk(s) &&
             GateOk(c, s) && DivertedOk(s)
    requires CanStep(c, s, Finish(ok))
    ensures forall r | r in HandFlow(s.processor) && r.key !in s.broker.moved ::
              r in SettledSet(Next(c, s, Finish(ok))) && r in ReachedSet(Next(c, s, Finish(ok)))
  {
    var s' := Next(c, s, Finish(ok));
    forall r | r in HandFlow(s.processor) && r.key !in s.broker.moved
      ensures r in SettledSet(s') && r in ReachedSet(s')
    {
      assert r in Flow(s);
      FinishedIsReached(s, r);
      ReachedStays(c, s, Finish(ok), r);
      if GatesOpen(s.processor) {
        OpenGatesSettle(c, s, r);
        SettledStays(c, s, Finish(ok), r);
      } else {
        assert r in s'.h.declined;
      }
    }
  }

  lemma CrashLedger(c: Config, s: State)
    requires LedgerOk(s) && CanStep(c, s, Crash)
    ensures LedgerOk(DoCrash(s))
  {
    var s' := DoCrash(s);
    assert Flow(s') == [];
    forall r | r in s.broker.log && r in SettledSet(s) && L.Below(s.broker, r) ensures r in SettledSet(s') {
      SettledStays(c, s, Crash, r);
    }
    forall r | r in s.broker.log && r in ReachedSet(s) && L.Below(s.broker, r) ensures r in ReachedSet(s') {
      ReachedStays(c, s, Crash, r);
    }
    L.CrashKeeps(s.broker, Flow(s), SettledSet(s), SettledSet(s'));
    L.CrashKeeps(s.broker, Flow(s), ReachedSet(s), ReachedSet(s'));
  }

  /** Steps of the processor and the writers between receiving and finishing move nothing. */
  predicate SameFlow(s: State, s': State) {
    && s'.broker == s.broker && s'.recordQueue == s.recordQueue
    && HandFlow(s'.processor) == HandFlow(s.processor)
    && ConsumerFlow(s'.consumer) == ConsumerFlow(s.consumer)
  }

  lemma HandleFlow(c: Config, s: State, o: Outcome)
    requires CanStep(c, s, Handle(o))
    ensures SameFlow(s, DoHandle(c, s, o))
  {
  }

  lemma WriteFlow(c: Config, s: State, lane: LaneName, move: W.LaneStep, dlq: bool)
    requires CanStep(c, s, Write(lane, move, dlq))
    ensures SameFlow(s, DoWrite(c, s, lane, move, dlq))
  {
  }

  lemma QuietFlow(c: Config, s: State, step: Step)
    requires CanStep(c, s, step) && (step.Report? || step.SplitNext? || step.Handle? || step.Write?)
    ensures SameFlow(s, Next(c, s, step))
  {
    match step
    case Handle(o) => HandleFlow(c, s, o);
    case Write(lane, move, dlq) => WriteFlow(c, s, lane, move, dlq);
    case _ =>
  }

  lemma QuietLedger(c: Config, s: State, step: Step)
    requires LedgerOk(s) && CanStep(c, s, step)
    requires step.Report? || step.SplitNext? || step.Handle? || step.Write?
    ensures LedgerOk(Next(c, s, step))
  {
    Recount(c, s, step);
    QuietFlow(c, s, step);
    SameLedger(s, Next(c, s, step));
  }

  lemma GateFlow(c: Config, s: State, step: Step)
    requires CanStep(c, s, step)
    requires step.Flush? || step.PassNoise? || step.NoiseTimeout? || step.PassSignal? || step.SignalTimeout?
    ensures Next(c, s, step).broker == s.broker && Flow(Next(c, s, step)) == Flow(s)
  {
  }

  lemma GateLedger(c: Config, s: State, step: Step)
    requires LedgerOk(s) && CanStep(c, s, step)
    requires step.Flush? || step.PassNoise? || step.NoiseTimeout? || step.PassSignal? || step.SignalTimeout?
    ensures LedgerOk(Next(c, s, step))
  {
    Recount(c, s, step);
    GateFlow(c, s, step);
    SameLedger(s, Next(c, s, step));
  }

  /** Steps of the consumer that move records along the flow, or off it. */
  lemma ConsumerLedger(c: Config, s: State, step: Step)
    requires LedgerOk(s) && CanStep(c, s, step) && (step.Consume? || step.Discard? || step.Send? || step.Drop?)
    ensures LedgerOk(Next(c, s, step))
  {
    if step.Consume? {
      ConsumeLedger(c, s, step.batch);
    } else if step.Discard? {
      DiscardLedger(c, s, step.ref);
    } else if step.Send? {
      SendLedger(c, s);
    } else {
      DropLedger(c, s);
    }
  }

  /** Steps that move records along the flow, or off it. */
  lemma FlowLedger(c: Config, s: State, step: Step)
    requires LedgerOk(s) && Structure(s) && SkipsAreMoves(s) && BulkOk(s) && HandOk(s) && GateOk(c, s) && DivertedOk(s)
    requires CanStep(c, s, step)
    requires step.Consume? || step.Discard? || step.Send? || step.Drop? || step.Receive? || step.Finish? || step.Crash?
    ensures LedgerOk(Next(c, s, step))
  {
    if step.Receive? {
      ReceiveLedger(c, s);
    } else if step.Finish? {
      FinishLedger(c, s, step.ok);
    } else if step.Crash? {
      CrashLedger(c, s);
    } else {
      ConsumerLedger(c, s, step);
    }
  }

  lemma LedgerKept(c: Config, s: State, step: Step)
    requires LedgerOk(s) && Structure(s) && SkipsAreMoves(s) && BulkOk(s) && HandOk(s) && GateOk(c, s) && DivertedOk(s)
    requires CanStep(c, s, step)
    ensures LedgerOk(Next(c, s, step))
  {
    if step.Append? || step.Assign? || step.Revoke? {
      BrokerLedger(c, s, step);
    } else if step.Report? || step.SplitNext? || step.Handle? || step.Write? {
      QuietLedger(c, s, step);
    } else if step.Flush? || step.PassNoise? || step.NoiseTimeout? || step.PassSignal? || step.SignalTimeout? {
      GateLedger(c, s, step);
    } else {
      FlowLedger(c, s, step);
    }
  }
}
