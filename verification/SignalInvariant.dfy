/** Strict mode: what the signal barrier proves about the events of the signal lanes. */
module SignalInvariant {
  import opened Offsets
  import opened Sequences
  import opened Split
  import opened Batch
  import opened Protocol
  import opened Invariant
  import opened LaneInvariant
  import opened CommitInvariant
  import L = Ledger
  import W = WriterLane
  import B = Barrier

  /** One of the four things that can go wrong in strict mode has happened to the event. */
  predicate Suspect(h: History, r: Ref) {
    r in h.overtaken || r in h.faultySignal || r in h.droppedSignal || r in h.declined
  }

  /** The event is in `audit_events` or suspect. */
  predicate SignalDone(s: State, r: Ref) {
    r in s.signalTable || Suspect(s.h, r)
  }

  /** The current batch waits for the event, or will be declined because the critical lane has
      refused it. */
  ghost predicate DueInHand(c: Config, s: State, r: Ref) {
    && !s.processor.Waiting?
    && exists t :: t in s.processor.turns && DueTurn(c, s, t) && t.record.ref == r
  }

  ghost predicate DueTurn(c: Config, s: State, t: Turn) {
    Reached(t) && Due(t.outcome, c.strict) && (Refused(t.outcome) || SignalSent(s, t.record.ref))
  }

  ghost predicate SignalsSettled(c: Config, s: State) {
    forall r | r in s.h.signals && r.key !in s.broker.moved :: SignalDone(s, r) || DueInHand(c, s, r)
  }

  lemma TurnInFlow(s: State, t: Turn)
    requires Structure(s) && !s.processor.Waiting? && t in s.processor.turns && Reached(t)
    ensures t.record.ref in Flow(s)
  {
    TurnInBatch(s, t);
  }

  /** What has reached a signal lane at or below the mark has been inserted, has failed, or was
      overtaken. */
  lemma PassedInLane(l: W.Lane, marks: Marks, table: set<Ref>, faulty: set<Ref>, over: set<Ref>, moved: set<Key>,
                     r: Ref)
    requires SharedLaneOk(l, marks, table, faulty, over, moved)
    requires B.Sent(l, r) && r.key !in moved && r.offset <= At(marks, r.key)
    ensures r in table || r in faulty || r in over
  {
    B.Whereabouts(l, r);
  }

  lemma AwaitedIsMarked(c: Config, s: State, t: Turn)
    requires GateOk(c, s) && Structure(s) && GatesOpen(s.processor)
    requires t in s.processor.turns && Reached(t) && Awaited(t.outcome, c.strict)
    ensures t.record.ref.offset <= At(s.signalMarks, t.record.ref.key)
  {
    var turns, r := s.processor.turns, t.record.ref;
    TallySignals(turns, c.strict);
    AwaitedRefsMember(turns, c.strict, r);
    HighestMember(AwaitedRefs(turns, c.strict), r.key);
    assert r.key in TallyAll(turns, c.strict).signal;
  }

  lemma AwaitedLands(c: Config, s: State, t: Turn)
    requires c.strict && SignalOk(c, s) && GateOk(c, s) && Structure(s) && GatesOpen(s.processor)
    requires t in s.processor.turns && Reached(t) && Awaited(t.outcome, c.strict) && SignalSent(s, t.record.ref)
    requires t.record.ref.key !in s.broker.moved
    ensures var r := t.record.ref; r in s.signalTable || r in s.h.faultySignal || r in s.h.overtaken
  {
    AwaitedIsMarked(c, s, t);
    var l := if B.Sent(s.critical, t.record.ref) then s.critical else s.normal;
    PassedInLane(l, s.signalMarks, s.signalTable, s.h.faultySignal, s.h.overtaken, s.broker.moved, t.record.ref);
  }

  /** A clean batch holds no refused event. */
  lemma CleanRefusesNothing(c: Config, s: State, t: Turn)
    requires GateOk(c, s) && Structure(s) && GatesOpen(s.processor) && t in s.processor.turns && Reached(t)
    ensures !Refused(t.outcome)
  {
    TallyFails(s.processor.turns, c.strict);
    assert !Infrastructure(t);
  }

  lemma TurnInBatch(s: State, t: Turn)
    requires Structure(s) && !s.processor.Waiting? && t in s.processor.turns && Reached(t)
    ensures t.record.ref in Refs(s.processor.env.source)
  {
    var p := s.processor;
    assert t.record in Residual(p.env);
    PickMember(p.env.source, p.env.flags, false, t.record);
    RefsMember(p.env.source, t.record.ref);
  }

  lemma FinishedIsDone(c: Config, s: State, ok: bool, t: Turn)
    requires c.strict && SignalOk(c, s) && GateOk(c, s) && Structure(s) && CanStep(c, s, Finish(ok))
    requires t in s.processor.turns && DueTurn(c, s, t) && t.record.ref.key !in s.broker.moved
    ensures SignalDone(DoFinish(c, s, ok), t.record.ref)
  {
    if GatesOpen(s.processor) {
      CleanRefusesNothing(c, s, t);
      AwaitedLands(c, s, t);
    } else {
      TurnInBatch(s, t);
    }
  }

  lemma FinishSignals(c: Config, s: State, ok: bool)
    requires c.strict && SignalOk(c, s) && GateOk(c, s) && Structure(s) && SignalsSettled(c, s)
    requires CanStep(c, s, Finish(ok))
    ensures SignalsSettled(c, DoFinish(c, s, ok))
  {
    var s' := DoFinish(c, s, ok);
    forall r | r in s'.h.signals && r.key !in s'.broker.moved ensures SignalDone(s', r) {
      if !SignalDone(s, r) {
        var t :| t in s.processor.turns && DueTurn(c, s, t) && t.record.ref == r;
        FinishedIsDone(c, s, ok, t);
      }
    }
  }

  /** A handled event that is due was taken by a signal lane, dropped by the normal one or refused by
      the critical one. */
  lemma NewSignal(c: Config, s: State, o: Outcome)
    requires CanStep(c, s, Handle(o)) && Due(o, c.strict)
    requires var turn := Turn(Residual(s.processor.env)[|s.processor.turns|], s.revoked, o); Reached(turn)
    ensures var r := Residual(s.processor.env)[|s.processor.turns|].ref; var s' := DoHandle(c, s, o);
            r in s'.h.droppedSignal || Refused(o) || SignalSent(s', r)
  {
  }

  lemma OldSignals(c: Config, s: State, o: Outcome, r: Ref)
    requires CanStep(c, s, Handle(o))
    ensures SignalSent(s, r) ==> SignalSent(DoHandle(c, s, o), r)
    ensures SignalDone(s, r) ==> SignalDone(DoHandle(c, s, o), r)
  {
  }

  lemma HandleHistory(c: Config, s: State, o: Outcome)
    requires CanStep(c, s, Handle(o))
    ensures var s' := DoHandle(c, s, o); var turn := Turn(Residual(s.processor.env)[|s.processor.turns|], s.revoked, o);
            && s'.processor.Handling? && s'.processor.turns == s.processor.turns + [turn] && s'.broker == s.broker
            && forall r | r in s'.h.signals && r !in s.h.signals ::
               Reached(turn) && Due(o, c.strict) && turn.record.ref == r
  {
  }

  lemma HandleSignals(c: Config, s: State, o: Outcome)
    requires SignalsSettled(c, s) && CanStep(c, s, Handle(o))
    ensures SignalsSettled(c, DoHandle(c, s, o))
  {
    HandleHistory(c, s, o);
    var s', p := DoHandle(c, s, o), s.processor;
    forall r | r in s'.h.signals && r.key !in s'.broker.moved
      ensures SignalDone(s', r) || DueInHand(c, s', r)
    {
      if r in s.h.signals {
        OldSignals(c, s, o, r);
        if !SignalDone(s, r) {
          var t :| t in p.turns && DueTurn(c, s, t) && t.record.ref == r;
          assert t in s'.processor.turns && DueTurn(c, s', t);
        }
      } else {
        NewSignal(c, s, o);
        var t := s'.processor.turns[|p.turns|];
        assert t in s'.processor.turns && (r in s'.h.droppedSignal || DueTurn(c, s', t));
      }
    }
  }

  lemma CrashSignals(c: Config, s: State)
    requires Structure(s) && L.Shape(s.broker, Flow(s)) && SignalsSettled(c, s)
    ensures SignalsSettled(c, DoCrash(s))
  {
    var s' := DoCrash(s);
    forall r | r in s'.h.signals && r.key !in s'.broker.moved
      ensures SignalDone(s', r)
    {
      if !SignalDone(s, r) {
        var t :| t in s.processor.turns && DueTurn(c, s, t) && t.record.ref == r;
        TurnInFlow(s, t);
      }
    }
  }

  /** The remaining steps leave the turns alone and lose nothing. */
  lemma SignalsStay(c: Config, s: State, s': State)
    requires SignalsSettled(c, s)
    requires s'.h.signals == s.h.signals && s.broker.moved <= s'.broker.moved
    requires forall r | SignalDone(s, r) :: SignalDone(s', r)
    requires s'.critical.accepted == s.critical.accepted && s'.normal.accepted == s.normal.accepted
    requires !s.processor.Waiting? ==> !s'.processor.Waiting? && s'.processor.turns == s.processor.turns
    ensures SignalsSettled(c, s')
  {
    assert forall t | DueTurn(c, s, t) :: DueTurn(c, s', t);
  }

  lemma WriteSignals(c: Config, s: State, lane: LaneName, move: W.LaneStep, dlq: bool)
    requires SignalsSettled(c, s) && CanStep(c, s, Write(lane, move, dlq))
    ensures SignalsSettled(c, DoWrite(c, s, lane, move, dlq))
  {
    MoveSendsNothing(LaneOf(s, lane), RoomOf(c, lane), move);
    SignalsStay(c, s, DoWrite(c, s, lane, move, dlq));
  }

  lemma QuietSignals(c: Config, s: State, step: Step)
    requires SignalsSettled(c, s) && CanStep(c, s, step)
    requires !step.Handle? && !step.Write? && !step.Finish? && !step.Crash? && !step.Consume?
    ensures SignalsSettled(c, Next(c, s, step))
  {
    SignalsStay(c, s, Next(c, s, step));
  }

  lemma ConsumeSignals(c: Config, s: State, batch: seq<Record>)
    requires SignalsSettled(c, s) && CanStep(c, s, Consume(batch))
    ensures SignalsSettled(c, Next(c, s, Consume(batch)))
  {
    L.FetchAllFrame(s.broker, Refs(batch));
    SignalsStay(c, s, Next(c, s, Consume(batch)));
  }

  lemma SentSignals(c: Config, s: State, step: Step)
    requires SignalOk(c, s) && Structure(s) && SignalsSettled(c, s) && CanStep(c, s, step)
    requires step.Handle? || step.Write?
    ensures SignalsSettled(c, Next(c, s, step))
  {
    if step.Handle? {
      HandleSignals(c, s, step.o);
    } else {
      WriteSignals(c, s, step.lane, step.move, step.dlq);
    }
  }

  lemma SignalsKept(c: Config, s: State, step: Step)
    requires c.strict && SignalOk(c, s) && GateOk(c, s) && Structure(s) && L.Shape(s.broker, Flow(s))
    requires SignalsSettled(c, s) && CanStep(c, s, step)
    ensures SignalsSettled(c, Next(c, s, step))
  {
    if step.Handle? || step.Write? {
      SentSignals(c, s, step);
    } else if step.Finish? {
      FinishSignals(c, s, step.ok);
    } else if step.Crash? {
      CrashSignals(c, s);
    } else if step.Consume? {
      ConsumeSignals(c, s, step.batch);
    } else {
      QuietSignals(c, s, step);
    }
  }
}
