/** The delivery gate over whole runs, in terms of what was handled and reported: which messages hold
    up a commit, and which do not. */
module Gate {
  import opened Offsets
  import opened Split
  import opened Batch
  import opened Protocol
  import opened Invariant
  import opened CommitInvariant
  import opened Theorems
  import L = Ledger
  import W = WriterLane
  import D = Delivery

  /** The turn that a handling makes. */
  function TurnOf(s: State, o: Outcome): Turn
    requires s.processor.Handling? && |s.processor.env.source| == |s.processor.env.flags|
    requires |s.processor.turns| < |Residual(s.processor.env)|
  {
    Turn(Residual(s.processor.env)[|s.processor.turns|], s.revoked, o)
  }

  /** Step i handles a record. */
  ghost predicate HandlesAt(c: Config, run: seq<State>, steps: seq<Step>, i: nat, r: Ref) {
    && i < |steps| < |run| && steps[i].Handle? && CanStep(c, run[i], steps[i])
    && Reached(TurnOf(run[i], steps[i].o)) && TurnOf(run[i], steps[i].o).record.ref == r
  }

  /** The ordinary messages of the handling at step i: the first ones that it puts on the wire. */
  predicate IsPlain(run: seq<State>, steps: seq<Step>, i: nat, id: nat)
    requires i < |steps| < |run| && steps[i].Handle?
  {
    run[i].wire.next <= id < run[i].wire.next + SendsOf(steps[i].o).accepted
  }

  /** The DLQ messages of the handling at step i: the ones after them. */
  predicate IsCopy(run: seq<State>, steps: seq<Step>, i: nat, id: nat)
    requires i < |steps| < |run| && steps[i].Handle?
  {
    run[i].wire.next + SendsOf(steps[i].o).accepted <= id < run[i + 1].wire.next
  }

  /** Neither a flush nor a crash between two moments: one batch is being handled all the time. */
  predicate SameBatch(steps: seq<Step>, i: nat, m: nat) {
    i <= m <= |steps| && forall x | i <= x < m :: !steps[x].Flush? && !steps[x].Crash?
  }

  /** The report of a failure that the gate counts. */
  predicate CountsError(s: State, step: Step) {
    step.Report? && !step.ok && step.id !in s.wire.dlq
  }

  // ---------------------------------------------------------------------------------------
  // Which messages are DLQ messages
  // ---------------------------------------------------------------------------------------

  lemma HandleWires(c: Config, s: State, o: Outcome)
    requires CanStep(c, s, Handle(o))
    ensures Next(c, s, Handle(o)).wire == if Reached(TurnOf(s, o)) then WireAfter(s.wire, o) else s.wire
  {
  }

  /** Whether an accepted message is a DLQ message never changes. */
  lemma DlqIsFixed(c: Config, s: State, step: Step, id: nat)
    requires D.WireInv(s.wire) && CanStep(c, s, step) && id < s.wire.next
    ensures id < Next(c, s, step).wire.next && (id in Next(c, s, step).wire.dlq <==> id in s.wire.dlq)
  {
    if step.Handle? {
      HandleWires(c, s, step.o);
      D.AcceptMeans(s.wire, SendsOf(step.o).accepted, DlqRecords(step.o), id);
    } else if step.Write? {
      WriteSends(c, s, step.lane, step.move, step.dlq);
      D.AcceptMeans(s.wire, 0, 1, id);
    } else if step.Report? {
      D.ReportMeans(s.wire, step.id, step.ok, id);
    } else if !step.Crash? {
      QuietWire(c, s, step);
    }
  }

  lemma RunWire(c: Config, run: seq<State>, steps: seq<Step>, n: nat)
    requires IsRun(c, run, steps) && n < |run|
    ensures WireOk(run[n]) && HandOk(run[n]) && Structure(run[n])
  {
    RunInv(c, run, steps, n);
  }

  lemma {:induction false} DlqStays(c: Config, run: seq<State>, steps: seq<Step>, i: nat, n: nat, id: nat)
    requires IsRun(c, run, steps) && i <= n < |run| && id < run[i].wire.next
    ensures id < run[n].wire.next && (id in run[n].wire.dlq <==> id in run[i].wire.dlq)
  {
    if i < n {
      DlqStays(c, run, steps, i, n - 1, id);
      RunWire(c, run, steps, n - 1);
      DlqIsFixed(c, run[n - 1], steps[n - 1], id);
    }
  }

  /** The ordinary messages of a handling are never DLQ messages, the others always are. */
  lemma HandlingWires(c: Config, run: seq<State>, steps: seq<Step>, i: nat, r: Ref, n: nat, id: nat)
    requires IsRun(c, run, steps) && HandlesAt(c, run, steps, i, r) && i < n < |run|
    ensures run[i + 1].wire.next == run[i].wire.next + SendsOf(steps[i].o).accepted + DlqRecords(steps[i].o)
    ensures IsPlain(run, steps, i, id) ==> id !in run[n].wire.dlq
    ensures IsCopy(run, steps, i, id) ==> id in run[n].wire.dlq
  {
    RunWire(c, run, steps, i);
    HandleWires(c, run[i], steps[i].o);
    D.AcceptMeans(run[i].wire, SendsOf(steps[i].o).accepted, DlqRecords(steps[i].o), id);
    if IsPlain(run, steps, i, id) || IsCopy(run, steps, i, id) {
      DlqStays(c, run, steps, i + 1, n, id);
    }
  }

  // ---------------------------------------------------------------------------------------
  // The error counter
  // ---------------------------------------------------------------------------------------

  lemma HandleCounts(c: Config, s: State, o: Outcome)
    requires CanStep(c, s, Handle(o))
    ensures Next(c, s, Handle(o)).wire.errors == s.wire.errors
  {
    HandleWires(c, s, o);
  }

  lemma ErrorsCount(c: Config, s: State, step: Step)
    requires CanStep(c, s, step) && !step.Crash?
    ensures Next(c, s, step).wire.errors == s.wire.errors + (if CountsError(s, step) then 1 else 0)
  {
    if step.Handle? {
      HandleCounts(c, s, step.o);
    } else if step.Write? {
      WriteSends(c, s, step.lane, step.move, step.dlq);
    } else if !step.Report? {
      QuietWire(c, s, step);
    }
  }

  /** The batch at hand does not change before the flush, nor does what it has noted of the counter. */
  lemma BatchStays(c: Config, s: State, step: Step)
    requires CanStep(c, s, step) && s.processor.Handling? && !step.Flush? && !step.Crash?
    ensures var p, p' := s.processor, Next(c, s, step).processor;
            p'.Handling? && p'.env == p.env && p'.errorsBefore == p.errorsBefore && p'.firstId == p.firstId
  {
    if step.Handle? {
      HandleThreads(c, s, step.o);
    }
  }

  lemma {:induction false} SameHand(c: Config, run: seq<State>, steps: seq<Step>, i: nat, m: nat)
    requires IsRun(c, run, steps) && m < |run| && SameBatch(steps, i, m) && run[i].processor.Handling?
    ensures var p, p' := run[i].processor, run[m].processor;
            p'.Handling? && p'.env == p.env && p'.errorsBefore == p.errorsBefore && p'.firstId == p.firstId
  {
    if i < m {
      SameHand(c, run, steps, i, m - 1);
      BatchStays(c, run[m - 1], steps[m - 1]);
    }
  }

  /** The counter after a step. */
  predicate IsCounted(run: seq<State>, steps: seq<Step>, x: nat)
    requires x < |steps| < |run|
  {
    run[x + 1].wire.errors == run[x].wire.errors + (if CountsError(run[x], steps[x]) then 1 else 0)
  }

  /** From step i to step m the counter counts. */
  ghost predicate Counts(run: seq<State>, steps: seq<Step>, i: nat, m: nat) {
    && m <= |steps| && |run| == |steps| + 1
    && forall x | i <= x < m :: IsCounted(run, steps, x)
  }

  lemma {:induction false} CounterStands(run: seq<State>, steps: seq<Step>, i: nat, m: nat)
    requires i <= m && Counts(run, steps, i, m)
    ensures run[i].wire.errors <= run[m].wire.errors
    ensures run[i].wire.errors == run[m].wire.errors <==> forall x | i <= x < m :: !CountsError(run[x], steps[x])
  {
    if i < m {
      CounterStands(run, steps, i, m - 1);
      assert IsCounted(run, steps, m - 1);
    }
  }

  /** Without a crash the error counter stands still exactly if no error is counted. */
  lemma ErrorsGrow(c: Config, run: seq<State>, steps: seq<Step>, i: nat, m: nat)
    requires IsRun(c, run, steps) && m < |run| && SameBatch(steps, i, m)
    ensures run[i].wire.errors <= run[m].wire.errors
    ensures run[i].wire.errors == run[m].wire.errors <==> forall x | i <= x < m :: !CountsError(run[x], steps[x])
  {
    forall x | i <= x < m ensures IsCounted(run, steps, x) {
      NextErrors(c, run, steps, x);
    }
    CounterStands(run, steps, i, m);
  }

  lemma NextErrors(c: Config, run: seq<State>, steps: seq<Step>, n: nat)
    requires IsRun(c, run, steps) && n < |steps| && !steps[n].Crash?
    ensures IsCounted(run, steps, n)
  {
    ErrorsCount(c, run[n], steps[n]);
  }

  // ---------------------------------------------------------------------------------------
  // The gate
  // ---------------------------------------------------------------------------------------

  lemma FlushDecides(c: Config, s: State)
    requires CanStep(c, s, Flush)
    ensures var p' := Next(c, s, Flush).processor;
            p'.Gating? && (p'.clean <==>
              && s.wire.outstanding == {} && s.wire.errors == s.processor.errorsBefore
              && forall t | t in s.processor.turns :: !Infrastructure(t))
  {
    FirstGateExactly(s.processor.turns, c.strict, |s.wire.outstanding|, s.processor.errorsBefore, s.wire.errors);
  }

  /** Exactly when the first gate opens, from the moment the processor takes a batch to its flush:
      nothing is outstanding, no failed delivery of an ordinary message has been reported in between,
      and no message of the batch met an infrastructure failure. */
  lemma GateExactly(c: Config, run: seq<State>, steps: seq<Step>, i: nat, m: nat)
    requires IsRun(c, run, steps) && i < m < |steps| && steps[i].Receive? && steps[m].Flush? &&
             SameBatch(steps, i + 1, m)
    ensures run[m + 1].processor.Gating?
    ensures run[m + 1].processor.clean <==>
      && run[m].wire.outstanding == {}
      && (forall x | i < x < m :: !CountsError(run[x], steps[x]))
      && (forall t | t in run[m].processor.turns :: !Infrastructure(t))
  {
    ReceiveNotes(c, run[i]);
    SameHand(c, run, steps, i + 1, m);
    ErrorsGrow(c, run, steps, i + 1, m);
    FlushDecides(c, run[m]);
  }

  lemma ReceiveNotes(c: Config, s: State)
    requires CanStep(c, s, Receive)
    ensures var s' := Next(c, s, Receive);
            s'.processor.Handling? && s'.processor.errorsBefore == s'.wire.errors && s'.processor.turns == []
  {
  }

  /** A produce that fails holds up the commit: if one of the ordinary messages of a handling is
      reported as failed before the batch is flushed, the first gate stays shut. */
  lemma FailedProduceShutsGate(c: Config, run: seq<State>, steps: seq<Step>, i: nat, r: Ref, j: nat, m: nat, id: nat)
    requires IsRun(c, run, steps) && HandlesAt(c, run, steps, i, r) && i < j < m < |steps| && steps[m].Flush?
    requires SameBatch(steps, i, m) && IsPlain(run, steps, i, id) && steps[j] == Report(id, false)
    ensures run[m + 1].processor.Gating? && !run[m + 1].processor.clean
  {
    HandlingWires(c, run, steps, i, r, j, id);
    assert CountsError(run[j], steps[j]);
    SameHand(c, run, steps, i, m);
    ErrorsGrow(c, run, steps, i, m);
    RunWire(c, run, steps, i);
    FlushDecides(c, run[m]);
  }

  /** An open gate proves delivery: when the flush of a batch finds it clean, every ordinary message of
      each of its handlings has been delivered. */
  lemma OpenGateDelivers(c: Config, run: seq<State>, steps: seq<Step>, i: nat, r: Ref, m: nat, id: nat)
    requires IsRun(c, run, steps) && HandlesAt(c, run, steps, i, r) && i < m < |steps| && steps[m].Flush?
    requires SameBatch(steps, i, m) && IsPlain(run, steps, i, id)
    requires run[m + 1].processor.Gating? && run[m + 1].processor.clean
    ensures id in run[m].wire.delivered
  {
    HandlingWires(c, run, steps, i, r, m, id);
    DlqStays(c, run, steps, i + 1, m, id);
    SameHand(c, run, steps, i, m);
    RunWire(c, run, steps, i);
    RunWire(c, run, steps, m);
    FlushDecides(c, run[m]);
    PlainIsDelivered(run[m].wire, run[m].processor.errorsBefore, run[m].processor.firstId, id);
  }

  lemma PlainIsDelivered(w: D.Wire, errorsBefore: nat, firstId: nat, id: nat)
    requires D.WireInv(w) && CleanSoFar(w, errorsBefore, firstId) && w.outstanding == {} && w.errors == errorsBefore
    requires firstId <= id < w.next && id !in w.dlq
    ensures id in w.delivered
  {
  }

  /** A gate that is shut stays shut until the batch is finished with, and then nothing is committed. */
  lemma {:induction false} ShutGateStays(c: Config, run: seq<State>, steps: seq<Step>, m: nat, n: nat)
    requires IsRun(c, run, steps) && m <= n < |run| && run[m].processor.Gating? && !run[m].processor.clean
    requires forall x | m <= x < n :: !steps[x].Finish? && !steps[x].Crash?
    ensures run[n].processor.Gating? && !run[n].processor.clean && !GatesOpen(run[n].processor)
  {
    if m < n {
      ShutGateStays(c, run, steps, m, n - 1);
      GateWaits(c, run[n - 1], steps[n - 1]);
    }
  }

  lemma GateWaits(c: Config, s: State, step: Step)
    requires CanStep(c, s, step) && s.processor.Gating? && !step.Finish? && !step.Crash?
    ensures Next(c, s, step).processor.Gating? && Next(c, s, step).processor.clean == s.processor.clean
  {
  }

  // ---------------------------------------------------------------------------------------
  // DLQ messages
  // ---------------------------------------------------------------------------------------

  /** Step i is the handling that an attempt records. */
  ghost predicate IsOrigin(c: Config, run: seq<State>, steps: seq<Step>, i: nat, a: Attempt) {
    && HandlesAt(c, run, steps, i, a.ref) && i + 1 < |run|
    && a.lo == run[i].wire.next && a.hi == run[i + 1].wire.next
  }

  lemma NewAttempt(c: Config, s: State, step: Step, a: Attempt)
    requires CanStep(c, s, step) && a in Next(c, s, step).h.attempts && a !in s.h.attempts
    ensures step.Handle? && Reached(TurnOf(s, step.o)) && TurnOf(s, step.o).record.ref == a.ref
    ensures a.lo == s.wire.next && a.hi == Next(c, s, step).wire.next
  {
    if step.Write? {
      WriteSends(c, s, step.lane, step.move, step.dlq);
    } else if !step.Handle? {
      OldAttempts(c, s, step);
    }
  }

  lemma OldAttempts(c: Config, s: State, step: Step)
    requires CanStep(c, s, step) && !step.Handle? && !step.Write?
    ensures Next(c, s, step).h.attempts == s.h.attempts
  {
  }

  lemma {:induction false} FirstAttempt(c: Config, run: seq<State>, steps: seq<Step>, n: nat,
                                        a: Attempt) returns (i: nat)
    requires IsRun(c, run, steps) && n < |run| && a in run[n].h.attempts
    ensures i < n && a !in run[i].h.attempts && a in run[i + 1].h.attempts
  {
    if a in run[n - 1].h.attempts {
      i := FirstAttempt(c, run, steps, n - 1, a);
    } else {
      i := n - 1;
    }
  }

  lemma AttemptOrigin(c: Config, run: seq<State>, steps: seq<Step>, n: nat, a: Attempt) returns (i: nat)
    requires IsRun(c, run, steps) && n < |run| && a in run[n].h.attempts
    ensures i < n && IsOrigin(c, run, steps, i, a)
  {
    i := FirstAttempt(c, run, steps, n, a);
    NewAttempt(c, run[i], steps[i], a);
  }

  /** Step j reports the failure of a DLQ message of the handling of the record at step i. */
  ghost predicate FailsCopy(c: Config, run: seq<State>, steps: seq<Step>, i: nat, j: nat, r: Ref) {
    && i < j < |steps| && HandlesAt(c, run, steps, i, r) && steps[j].Report? && !steps[j].ok
    && IsCopy(run, steps, i, steps[j].id)
  }

  lemma NewlyUndelivered(c: Config, s: State, step: Step, r: Ref)
    requires CanStep(c, s, step) && r in Next(c, s, step).h.undelivered && r !in s.h.undelivered
    ensures step.Report? && !step.ok && step.id in s.wire.dlq && r in Carriers(s.h.attempts, step.id)
  {
    if step.Handle? {
      HandleSends(c, s, step.o);
    } else if step.Write? {
      WriteRecord(c, s, step.lane, step.move, step.dlq);
    }
  }

  /** A record is blamed for an undelivered DLQ record only if the report that failed was for a message
      beyond the ordinary ones of its handling. */
  lemma {:induction false} UndeliveredHasCause(c: Config, run: seq<State>, steps: seq<Step>, n: nat, r: Ref)
    requires IsRun(c, run, steps) && n < |run| && r in run[n].h.undelivered
    ensures exists i: nat, j: nat :: j < n && FailsCopy(c, run, steps, i, j, r)
  {
    if r in run[n - 1].h.undelivered {
      UndeliveredHasCause(c, run, steps, n - 1, r);
    } else {
      var j := n - 1;
      NewlyUndelivered(c, run[j], steps[j], r);
      var a :| a in run[j].h.attempts && a.lo <= steps[j].id < a.hi && a.ref == r;
      var i := AttemptOrigin(c, run, steps, j, a);
      HandlingWires(c, run, steps, i, r, j, steps[j].id);
      assert FailsCopy(c, run, steps, i, j, r);
    }
  }

  /** An item that has used up its retries costs one DLQ message, if the DLQ takes it. */
  lemma WriterSendsToDlq(c: Config, s: State, lane: LaneName, dlq: bool)
    requires D.WireInv(s.wire) && CanStep(c, s, Write(lane, W.Disperse, dlq))
    ensures var w, w' := s.wire, Next(c, s, Write(lane, W.Disperse, dlq)).wire;
            if dlq && LaneOf(s, lane).batch[0].retries >= W.WRITER_MAX_RETRIES
            then w'.next == w.next + 1 && w.next in w'.dlq && w.next in w'.outstanding
            else w' == w
  {
    D.AcceptMeans(s.wire, 0, 1, s.wire.next);
  }
}
