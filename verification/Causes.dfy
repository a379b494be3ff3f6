/** What the history means: every blame and every suspicion goes back to a step that has done it to the
    record, and a crash forgets what lies above the committed offsets. */
module Causes {
  import opened Offsets
  import opened Split
  import opened Batch
  import opened Protocol
  import opened Invariant
  import opened CommitInvariant
  import opened SignalInvariant
  import opened Theorems
  import opened Gate
  import L = Ledger
  import W = WriterLane
  import B = Barrier

  // ---------------------------------------------------------------------------------------
  // Blames
  // ---------------------------------------------------------------------------------------

  /** One of the lane's items in hand is the record's, and its write is acknowledged. */
  ghost predicate InBatch(l: W.Lane, r: Ref) {
    exists x :: x in l.batch && x.acks && x.ref == r
  }

  /** The step puts the record at risk: a poll returns it and nobody looks at it, its batch is declined,
      one of its produces or its DLQ record is given up, an assignment without a committed offset starts
      behind it, the delivery of its DLQ record fails, or its bulk write fails. */
  ghost predicate Risks(c: Config, s: State, step: Step, r: Ref)
    requires CanStep(c, s, step)
  {
    match step
    case Discard(x) => x == r
    case Finish(_) =>
      && !(s.processor.clean && s.processor.noise.Passed? && s.processor.signal.Passed?)
      && r in Refs(s.processor.env.source)
    case Handle(o) =>
      && Reached(TurnOf(s, o)) && TurnOf(s, o).record.ref == r
      && (SendsOf(o).exhausted > 0 || (o.Unparsable? && !o.dlq) || (o.Raising? && !o.dlq))
    case Assign(k) => r.key == k && k !in s.broker.committed && !c.earliest && r in s.broker.log
    case Report(id, ok) => !ok && exists a :: a in s.h.attempts && a.ref == r && a.lo <= id < a.hi
    case Write(lane, move, _) => lane.Bulk? && move.Fail? && InBatch(s.bulk, r)
    case _ => false
  }

  lemma HandleRisks(c: Config, s: State, o: Outcome, r: Ref)
    requires CanStep(c, s, Handle(o)) && Blamed(DoHandle(c, s, o).h, r) && !Blamed(s.h, r)
    ensures Risks(c, s, Handle(o), r)
  {
  }

  lemma WriteRisks(c: Config, s: State, lane: LaneName, move: W.LaneStep, dlq: bool, r: Ref)
    requires CanStep(c, s, Write(lane, move, dlq)) && Blamed(DoWrite(c, s, lane, move, dlq).h, r) && !Blamed(s.h, r)
    ensures Risks(c, s, Write(lane, move, dlq), r)
  {
  }

  lemma ReportRisks(c: Config, s: State, id: nat, ok: bool, r: Ref)
    requires CanStep(c, s, Report(id, ok)) && Blamed(DoReport(s, id, ok).h, r) && !Blamed(s.h, r)
    ensures Risks(c, s, Report(id, ok), r)
  {
    assert r in Carriers(s.h.attempts, id);
  }

  lemma CrashRisksNothing(s: State, r: Ref)
    requires Blamed(DoCrash(s).h, r)
    ensures Blamed(s.h, r)
  {
  }

  lemma QuietRisks(c: Config, s: State, step: Step, r: Ref)
    requires CanStep(c, s, step) && Blamed(Next(c, s, step).h, r) && !Blamed(s.h, r)
    requires !step.Handle? && !step.Write? && !step.Report? && !step.Crash?
    ensures Risks(c, s, step, r)
  {
  }

  lemma NewlyBlamed(c: Config, s: State, step: Step, r: Ref)
    requires CanStep(c, s, step) && Blamed(Next(c, s, step).h, r) && !Blamed(s.h, r)
    ensures Risks(c, s, step, r)
  {
    if step.Handle? {
      HandleRisks(c, s, step.o, r);
    } else if step.Write? {
      WriteRisks(c, s, step.lane, step.move, step.dlq, r);
    } else if step.Report? {
      ReportRisks(c, s, step.id, step.ok, r);
    } else if step.Crash? {
      CrashRisksNothing(s, r);
    } else {
      QuietRisks(c, s, step, r);
    }
  }

  lemma {:induction false} FirstBlamed(c: Config, run: seq<State>, steps: seq<Step>, n: nat, r: Ref) returns (j: nat)
    requires IsRun(c, run, steps) && n < |run| && Blamed(run[n].h, r)
    ensures j < n && !Blamed(run[j].h, r) && Blamed(run[j + 1].h, r)
  {
    if Blamed(run[n - 1].h, r) {
      j := FirstBlamed(c, run, steps, n - 1, r);
    } else {
      j := n - 1;
    }
  }

  /** Every blame has a cause: a blamed record has been put at risk by some step before. */
  lemma BlameHasCause(c: Config, run: seq<State>, steps: seq<Step>, n: nat, r: Ref) returns (j: nat)
    requires IsRun(c, run, steps) && n < |run| && Blamed(run[n].h, r)
    ensures j < n && Risks(c, run[j], steps[j], r)
  {
    j := FirstBlamed(c, run, steps, n, r);
    NewlyBlamed(c, run[j], steps[j], r);
  }

  // ---------------------------------------------------------------------------------------
  // Suspicions
  // ---------------------------------------------------------------------------------------

  /** The record waits in the lane for its first write. */
  ghost predicate WaitsFresh(l: W.Lane, r: Ref) {
    exists x :: (x in l.queue || x in l.batch) && x.acks && x.failures == 0 && x.ref == r
  }

  /** The step makes an event suspect: it is dropped at the full normal lane, its write fails, its batch
      is declined, or the other lane publishes a mark at or above it while it waits for its first
      write. */
  ghost predicate Endangers(c: Config, s: State, step: Step, r: Ref)
    requires CanStep(c, s, step)
  {
    match step
    case Handle(o) =>
      Reached(TurnOf(s, o)) && TurnOf(s, o).record.ref == r && RouteOf(o) == Routed(Normal, false)
    case Finish(_) =>
      && !(s.processor.clean && s.processor.noise.Passed? && s.processor.signal.Passed?)
      && r in Refs(s.processor.env.source)
    case Write(lane, move, _) =>
      && !lane.Bulk?
      && (|| (move.Fail? && InBatch(LaneOf(s, lane), r))
          || (c.strict && move.Publish? && WaitsFresh(if lane.Critical? then s.normal else s.critical, r)
              && r.offset <= At(Next(c, s, step).signalMarks, r.key)))
    case _ => false
  }

  lemma HandleEndangers(c: Config, s: State, o: Outcome, r: Ref)
    requires CanStep(c, s, Handle(o)) && Suspect(DoHandle(c, s, o).h, r) && !Suspect(s.h, r)
    ensures Endangers(c, s, Handle(o), r)
  {
  }

  lemma OvertakenWaits(l: W.Lane, marks: Marks, r: Ref)
    requires r in OvertakenIn(l, marks)
    ensures WaitsFresh(l, r) && r.offset <= At(marks, r.key)
  {
  }

  lemma WriteEndangers(c: Config, s: State, lane: LaneName, move: W.LaneStep, dlq: bool, r: Ref)
    requires CanStep(c, s, Write(lane, move, dlq)) && Suspect(DoWrite(c, s, lane, move, dlq).h, r) && !Suspect(s.h, r)
    ensures Endangers(c, s, Write(lane, move, dlq), r)
  {
    if !move.Fail? {
      OvertakenWaits(OtherLane(s, lane), B.Advance(LaneOf(s, lane), move, s.signalMarks), r);
    }
  }

  lemma CrashEndangersNothing(s: State, r: Ref)
    requires Suspect(DoCrash(s).h, r)
    ensures Suspect(s.h, r)
  {
  }

  lemma QuietEndangers(c: Config, s: State, step: Step, r: Ref)
    requires CanStep(c, s, step) && Suspect(Next(c, s, step).h, r) && !Suspect(s.h, r)
    requires !step.Handle? && !step.Write? && !step.Crash?
    ensures Endangers(c, s, step, r)
  {
  }

  lemma NewlySuspect(c: Config, s: State, step: Step, r: Ref)
    requires CanStep(c, s, step) && Suspect(Next(c, s, step).h, r) && !Suspect(s.h, r)
    ensures Endangers(c, s, step, r)
  {
    if step.Handle? {
      HandleEndangers(c, s, step.o, r);
    } else if step.Write? {
      WriteEndangers(c, s, step.lane, step.move, step.dlq, r);
    } else if step.Crash? {
      CrashEndangersNothing(s, r);
    } else {
      QuietEndangers(c, s, step, r);
    }
  }

  lemma {:induction false} FirstSuspect(c: Config, run: seq<State>, steps: seq<Step>, n: nat, r: Ref) returns (j: nat)
    requires IsRun(c, run, steps) && n < |run| && Suspect(run[n].h, r)
    ensures j < n && !Suspect(run[j].h, r) && Suspect(run[j + 1].h, r)
  {
    if Suspect(run[n - 1].h, r) {
      j := FirstSuspect(c, run, steps, n - 1, r);
    } else {
      j := n - 1;
    }
  }

  /** Every suspicion has a cause. */
  lemma SuspectHasCause(c: Config, run: seq<State>, steps: seq<Step>, n: nat, r: Ref) returns (j: nat)
    requires IsRun(c, run, steps) && n < |run| && Suspect(run[n].h, r)
    ensures j < n && Endangers(c, run[j], steps[j], r)
  {
    j := FirstSuspect(c, run, steps, n, r);
    NewlySuspect(c, run[j], steps[j], r);
  }

  // ---------------------------------------------------------------------------------------
  // Events of the signal lanes
  // ---------------------------------------------------------------------------------------

  /** The outcome routes the event to the critical or to the normal lane, whether there is room or not. */
  predicate RoutesToSignal(o: Outcome) {
    !o.Unparsable? && o.route.Routed? && o.route.lane in {Critical, Normal}
  }

  lemma HandleMakesDue(c: Config, s: State, o: Outcome)
    requires CanStep(c, s, Handle(o)) && c.strict && Reached(TurnOf(s, o)) && RoutesToSignal(o)
    ensures TurnOf(s, o).record.ref in DoHandle(c, s, o).h.signals
  {
  }

  lemma SignalsStayDue(c: Config, s: State, step: Step, r: Ref)
    requires CanStep(c, s, step) && !step.Crash? && r in s.h.signals
    ensures r in Next(c, s, step).h.signals
  {
    if step.Handle? {
      HandleKeepsDue(c, s, step.o, r);
    } else if step.Write? {
      WriteKeepsDue(c, s, step.lane, step.move, step.dlq, r);
    }
  }

  lemma HandleKeepsDue(c: Config, s: State, o: Outcome, r: Ref)
    requires CanStep(c, s, Handle(o)) && r in s.h.signals
    ensures r in DoHandle(c, s, o).h.signals
  {
  }

  lemma WriteKeepsDue(c: Config, s: State, lane: LaneName, move: W.LaneStep, dlq: bool, r: Ref)
    requires CanStep(c, s, Write(lane, move, dlq)) && r in s.h.signals
    ensures r in DoWrite(c, s, lane, move, dlq).h.signals
  {
  }

  lemma {:induction false} RoutedIsDue(c: Config, run: seq<State>, steps: seq<Step>, i: nat, r: Ref, n: nat)
    requires IsRun(c, run, steps) && i < n < |run| && c.strict
    requires HandlesAt(c, run, steps, i, r) && RoutesToSignal(steps[i].o)
    requires forall x | i < x < n :: !steps[x].Crash?
    ensures r in run[n].h.signals
  {
    if n == i + 1 {
      HandleMakesDue(c, run[i], steps[i].o);
    } else {
      RoutedIsDue(c, run, steps, i, r, n - 1);
      SignalsStayDue(c, run[n - 1], steps[n - 1], r);
    }
  }

  /** Strict mode, by what the processor has done: in the life of the process that routed it, an event
      of the critical or the normal lane lies below the committed offset only if it is in the table or
      some step has made it suspect. */
  lemma RoutedIsInserted(c: Config, run: seq<State>, steps: seq<Step>, i: nat, r: Ref, n: nat)
    requires IsRun(c, run, steps) && i < n < |run| && c.strict
    requires HandlesAt(c, run, steps, i, r) && RoutesToSignal(steps[i].o)
    requires forall x | i < x < n :: !steps[x].Crash?
    requires r.key !in run[n].broker.moved && BelowCommit(run[n], r)
    ensures r in run[n].signalTable || exists j :: 0 <= j < n && Endangers(c, run[j], steps[j], r)
  {
    RoutedIsDue(c, run, steps, i, r, n);
    StrictMode(c, run, steps, n, r);
    if Suspect(run[n].h, r) {
      var j := SuspectHasCause(c, run, steps, n, r);
    }
  }

  // ---------------------------------------------------------------------------------------
  // Crashes
  // ---------------------------------------------------------------------------------------

  /** Whatever the history says of the record. */
  predicate Mentioned(h: History, r: Ref) {
    || r in h.handled || r in h.diverted || r in h.discarded || r in h.declined || r in h.spoiled || r in h.undelivered
    || r in h.skipped || r in h.faultyNoise || r in h.signals || r in h.faultySignal || r in h.droppedSignal
    || r in h.overtaken
  }

  /** A crash forgets everything about the records that will be read again, and nothing about the
      others. */
  lemma CrashForgetsUncommitted(s: State, r: Ref)
    ensures Mentioned(DoCrash(s).h, r) <==> Mentioned(s.h, r) && BelowCommit(s, r)
  {
  }
}
