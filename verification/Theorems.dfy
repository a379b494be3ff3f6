/** What holds over every run of the forwarder, with any interleaving of its threads and any number
    of crashes. */
module Theorems {
  import opened Offsets
  import opened Sequences
  import opened Split
  import opened Batch
  import opened Protocol
  import opened Invariant
  import opened LaneInvariant
  import opened OrderInvariant
  import opened CommitInvariant
  import opened SignalInvariant
  import opened NoiseInvariant
  import opened RevokeInvariant
  import L = Ledger
  import W = WriterLane
  import B = Barrier
  import D = Delivery

  ghost predicate Inv(c: Config, s: State) {
    && Structure(s) && SkipsAreMoves(s)
    && LedgerOk(s)
    && BulkOk(s) && BulkBehind(s) && DivertedOk(s)
    && SignalOk(c, s) && SignalBehind(s) && (c.strict ==> SignalsSettled(c, s))
    && WireOk(s) && HandOk(s) && GateOk(c, s)
    && NoiseSettled(s) && PublishedOk(s)
  }

  lemma InitLanes(c: Config, s: State)
    requires Init(s)
    ensures BulkOk(s) && BulkBehind(s) && DivertedOk(s) && SignalOk(c, s)
  {
    EmptyLane(s.broker.moved);
    EmptySharedLane({}, {}, {}, s.broker.moved);
  }

  lemma InitThreads(c: Config, s: State)
    requires Init(s)
    ensures Structure(s) && SkipsAreMoves(s) && SignalBehind(s) && SignalsSettled(c, s) && NoiseSettled(s) &&
            PublishedOk(s)
  {
  }

  lemma InitWire(s: State)
    requires Init(s)
    ensures WireOk(s)
  {
    D.SilentKeeps();
  }

  lemma InitHand(c: Config, s: State)
    requires Init(s)
    ensures HandOk(s) && GateOk(c, s)
  {
  }

  lemma InitLedger(s: State)
    requires Init(s)
    ensures LedgerOk(s)
  {
    assert Flow(s) == [];
  }

  lemma InitInv(c: Config, s: State)
    requires Init(s)
    ensures Inv(c, s)
  {
    InitLanes(c, s);
    InitThreads(c, s);
    InitWire(s);
    InitHand(c, s);
    InitLedger(s);
  }

  lemma InvKept(c: Config, s: State, step: Step)
    requires Inv(c, s) && CanStep(c, s, step)
    ensures Inv(c, Next(c, s, step))
  {
    StructureKept(c, s, step);
    SkipsKept(c, s, step);
    LedgerKept(c, s, step);
    BulkKept(c, s, step);
    BulkBehindKept(c, s, step);
    DivertedKept(c, s, step);
    SignalKept(c, s, step);
    SignalBehindKept(c, s, step);
    if c.strict {
      SignalsKept(c, s, step);
    }
    WireKept(c, s, step);
    HandKept(c, s, step);
    GateKept(c, s, step);
    NoiseKept(c, s, step);
    PublishedKept(c, s, step);
  }

  ghost predicate IsRun(c: Config, run: seq<State>, steps: seq<Step>) {
    && |run| == |steps| + 1
    && Init(run[0])
    && forall i | 0 <= i < |steps| :: CanStep(c, run[i], steps[i]) && run[i + 1] == Next(c, run[i], steps[i])
  }

  /** Some run ends in the state. */
  ghost predicate Reachable(c: Config, s: State) {
    exists run, steps :: IsRun(c, run, steps) && run[|steps|] == s
  }

  lemma {:induction false} RunInv(c: Config, run: seq<State>, steps: seq<Step>, n: nat)
    requires IsRun(c, run, steps) && n < |run|
    ensures Inv(c, run[n])
  {
    if n == 0 {
      InitInv(c, run[0]);
    } else {
      RunInv(c, run, steps, n - 1);
      NextInv(c, run[n - 1], steps[n - 1], run[n]);
    }
  }

  lemma NextInv(c: Config, s: State, step: Step, s': State)
    requires Inv(c, s) && CanStep(c, s, step) && s' == Next(c, s, step)
    ensures Inv(c, s')
  {
    InvKept(c, s, step);
  }

  // ---------------------------------------------------------------------------------------
  // Nothing is lost
  // ---------------------------------------------------------------------------------------

  /** The record belongs to a partition that has not been revoked, at or above the offset from
      which the group answers for it. */
  predicate Answerable(s: State, r: Ref) {
    r in s.broker.log && r.key !in s.broker.moved && r.key in s.broker.floor && s.broker.floor[r.key] <= r.offset
  }

  predicate BelowCommit(s: State, r: Ref) {
    r.key in s.broker.committed && r.offset < s.broker.committed[r.key]
  }

  /** In every run, without any assumption on what fails: a record below the committed offset is
      durable or bears one of the six blames, and a record of an assigned partition is settled in
      that sense, in flight, or still to be fetched. */
  lemma NothingLost(c: Config, run: seq<State>, steps: seq<Step>, n: nat, r: Ref)
    requires IsRun(c, run, steps) && n < |run| && Answerable(run[n], r)
    ensures BelowCommit(run[n], r) ==> Settled(run[n], r)
    ensures r.key in run[n].broker.position ==>
      Settled(run[n], r) || r in Flow(run[n]) || run[n].broker.position[r.key] <= r.offset
  {
    RunInv(c, run, steps, n);
    var s := run[n];
    assert BelowCommit(s, r) ==> L.Below(s.broker, r);
    assert r.key in s.broker.position && r.offset < s.broker.position[r.key] ==> L.Passed(s.broker, r);
  }

  /** Exactly when an assignment skips: of what the group answers for and has not committed, it leaves
      behind everything if the partition has no committed offset and the reset is `latest`, and
      nothing otherwise. What it leaves behind is blamed, and the group goes on answering for it. */
  lemma AssignSkipsExactly(c: Config, run: seq<State>, steps: seq<Step>, n: nat, r: Ref)
    requires IsRun(c, run, steps) && n < |steps| && steps[n] == Assign(r.key)
    requires Answerable(run[n], r) && !BelowCommit(run[n], r)
    ensures Answerable(run[n + 1], r)
    ensures r.offset < run[n + 1].broker.position[r.key] <==> r.key !in run[n].broker.committed && !c.earliest
    ensures r.offset < run[n + 1].broker.position[r.key] ==> r in run[n + 1].h.skipped
  {
    RunBounded(c, run, steps, n);
    AssignSkips(c, run[n], r);
  }

  lemma RunBounded(c: Config, run: seq<State>, steps: seq<Step>, n: nat)
    requires IsRun(c, run, steps) && n < |run|
    ensures L.Bounded(run[n].broker)
  {
    RunInv(c, run, steps, n);
  }

  lemma AssignSkips(c: Config, s: State, r: Ref)
    requires L.Bounded(s.broker) && CanStep(c, s, Assign(r.key)) && Answerable(s, r) && !BelowCommit(s, r)
    ensures var s' := Next(c, s, Assign(r.key));
            && Answerable(s', r)
            && (r.offset < s'.broker.position[r.key] <==> r.key !in s.broker.committed && !c.earliest)
            && (r.offset < s'.broker.position[r.key] ==> r in s'.h.skipped)
  {
    assert r.offset < L.End(s.broker, r.key);
  }

  /** Below the committed offset every record was handled by the processor or accepted by the bulk
      queue, whatever was declined in between, unless a heartbeat poll discarded it or
      an assignment skipped it. A crash forgets what lies above the committed offsets, so this life or
      a commit of an earlier one vouches for each of them. */
  lemma NoGapBetweenThreads(c: Config, run: seq<State>, steps: seq<Step>, n: nat, r: Ref)
    requires IsRun(c, run, steps) && n < |run| && Answerable(run[n], r) && BelowCommit(run[n], r)
    ensures r in run[n].h.handled || r in run[n].h.diverted || r in run[n].h.discarded || r in run[n].h.skipped
  {
    RunInv(c, run, steps, n);
    assert L.Below(run[n].broker, r);
  }

  /** The envelope that the consumer thread drops when it exits is never passed by a commit: all its
      records will be read again. */
  lemma DroppedIsReadAgain(c: Config, run: seq<State>, steps: seq<Step>, n: nat, r: Ref)
    requires IsRun(c, run, steps) && n < |run| && run[n].consumer.Exited?
    requires r in Refs(run[n].consumer.source) && r.key !in run[n].broker.moved
    ensures r in run[n].broker.log && !BelowCommit(run[n], r)
  {
    RunInv(c, run, steps, n);
    assert r in Flow(run[n]);
  }

  // ---------------------------------------------------------------------------------------
  // At least once
  // ---------------------------------------------------------------------------------------

  /** A step after which some record may never become durable in this life: a record is discarded by a
      heartbeat poll or skipped by an assignment, a produce is exhausted, a DLQ record is refused or
      its delivery fails, a bulk write fails, or a commit is declined. */
  predicate Harms(c: Config, s: State, step: Step)
    requires step.Handle? ==>
      && s.processor.Handling? && |s.processor.env.source| == |s.processor.env.flags|
      && |s.processor.turns| < |Residual(s.processor.env)|
    requires step.Finish? ==> s.processor.Gating?
  {
    match step
    case Assign(k) => L.Skipped(s.broker, k, c.earliest) != {}
    case Report(id, ok) => !ok && id in s.wire.dlq && Carriers(s.h.attempts, id) != {}
    case Discard(_) => true
    case Handle(o) => Spoils(o) && Reached(Turn(Residual(s.processor.env)[|s.processor.turns|], s.revoked, o))
    case Write(lane, move, _) => lane.Bulk? && move.Fail? && Acked(s.bulk.batch) != {}
    case Finish(_) => !GatesOpen(s.processor)
    case _ => false
  }

  predicate Commits(s: State, step: Step) {
    step == Finish(true) && GatesOpen(s.processor)
  }

  /** Since the last crash something has been harmed. */
  ghost predicate Harmed(c: Config, run: seq<State>, steps: seq<Step>, n: nat)
    requires IsRun(c, run, steps) && n < |run|
  {
    n > 0 && !steps[n - 1].Crash? && (Harms(c, run[n - 1], steps[n - 1]) || Harmed(c, run, steps, n - 1))
  }

  /** After harm the process restarts before it commits again. */
  ghost predicate Careful(c: Config, run: seq<State>, steps: seq<Step>)
    requires IsRun(c, run, steps)
  {
    forall i | 0 <= i < |steps| && Commits(run[i], steps[i]) :: !Harmed(c, run, steps, i)
  }

  lemma KeptStays(c: Config, s: State, step: Step, r: Ref)
    requires CanStep(c, s, step) && Kept(s, r)
    ensures Kept(Next(c, s, step), r)
  {
    var s' := Next(c, s, step);
    WiresGrow(c, s, step);
    if r in s.noiseTable {
      TableStays(c, s, step);
    } else {
      ProducedStays(s.h, s.wire, s'.h, s'.wire, r);
    }
  }

  lemma TableStays(c: Config, s: State, step: Step)
    requires CanStep(c, s, step)
    ensures s.noiseTable <= Next(c, s, step).noiseTable
  {
    if step.Write? {
      WriteTable(c, s, step.lane, step.move, step.dlq);
    }
  }

  lemma WriteTable(c: Config, s: State, lane: LaneName, move: W.LaneStep, dlq: bool)
    requires CanStep(c, s, Write(lane, move, dlq))
    ensures s.noiseTable <= DoWrite(c, s, lane, move, dlq).noiseTable
  {
  }

  /** Only harm adds a blame, and a crash leaves blames below the committed offsets only. */
  lemma BlameNeedsHarm(c: Config, s: State, step: Step, r: Ref)
    requires CanStep(c, s, step) && Blamed(Next(c, s, step).h, r)
    ensures Blamed(s.h, r) || Harms(c, s, step)
    ensures step.Crash? ==> BelowCommit(s, r)
  {
    if step.Handle? {
      HandleNeedsHarm(c, s, step.o, r);
    } else if step.Write? {
      WriteNeedsHarm(c, s, step.lane, step.move, step.dlq, r);
    }
  }

  lemma HandleNeedsHarm(c: Config, s: State, o: Outcome, r: Ref)
    requires CanStep(c, s, Handle(o)) && Blamed(DoHandle(c, s, o).h, r)
    ensures Blamed(s.h, r) || Harms(c, s, Handle(o))
  {
  }

  lemma WriteNeedsHarm(c: Config, s: State, lane: LaneName, move: W.LaneStep, dlq: bool, r: Ref)
    requires CanStep(c, s, Write(lane, move, dlq)) && Blamed(DoWrite(c, s, lane, move, dlq).h, r)
    ensures Blamed(s.h, r) || Harms(c, s, Write(lane, move, dlq))
  {
  }

  /** For partitions that stay, only a committing finish changes the committed offsets, and it
      raises them. */
  lemma CommittedGrows(c: Config, s: State, step: Step, k: Key)
    requires Structure(s) && L.Shape(s.broker, Flow(s)) && CanStep(c, s, step) && k !in Next(c, s, step).broker.moved
    ensures k !in s.broker.moved
    ensures At(s.broker.committed, k) <= At(Next(c, s, step).broker.committed, k)
    ensures !Commits(s, step) ==> At(s.broker.committed, k) == At(Next(c, s, step).broker.committed, k)
    ensures Commits(s, step) && k in Vector(c, s.processor) ==>
      At(s.broker.committed, k) < Vector(c, s.processor)[k] == At(Next(c, s, step).broker.committed, k)
  {
    if step.Finish? {
      FinishGrows(c, s, step.ok, k);
      FinishMovesNothing(c, s, step.ok);
    } else {
      OthersCommitNothing(c, s, step);
    }
  }

  lemma FinishMovesNothing(c: Config, s: State, ok: bool)
    requires CanStep(c, s, Finish(ok))
    ensures Next(c, s, Finish(ok)) == DoFinish(c, s, ok) && DoFinish(c, s, ok).broker.moved == s.broker.moved
  {
  }

  lemma FinishGrows(c: Config, s: State, ok: bool, k: Key)
    requires Structure(s) && L.Shape(s.broker, Flow(s)) && CanStep(c, s, Finish(ok)) && k !in s.broker.moved
    ensures var s' := DoFinish(c, s, ok);
            && s'.broker.moved == s.broker.moved
            && At(s.broker.committed, k) <= At(s'.broker.committed, k)
            && (!Commits(s, Finish(ok)) ==> At(s.broker.committed, k) == At(s'.broker.committed, k))
            && (Commits(s, Finish(ok)) && k in Vector(c, s.processor) ==>
                  At(s.broker.committed, k) < Vector(c, s.processor)[k] == At(s'.broker.committed, k))
  {
    FinishBroker(c, s, ok);
    VectorAdvances(c, s);
  }

  lemma OthersCommitNothing(c: Config, s: State, step: Step)
    requires CanStep(c, s, step) && !step.Finish?
    ensures s.broker.moved <= Next(c, s, step).broker.moved
    ensures forall k | k !in Next(c, s, step).broker.moved ::
            At(s.broker.committed, k) == At(Next(c, s, step).broker.committed, k)
  {
    if step.Consume? {
      L.FetchAllFrame(s.broker, Refs(step.batch));
    } else if !TouchesBroker(step) {
      BrokerUntouched(c, s, step);
    }
  }

  // The two facts that a careful run keeps.

  ghost predicate AllKept(s: State) {
    forall r | Answerable(s, r) && BelowCommit(s, r) :: Kept(s, r)
  }

  ghost predicate BlamesAreOld(s: State) {
    forall r | Blamed(s.h, r) && r.key !in s.broker.moved :: BelowCommit(s, r)
  }

  /** The log and the floor of a committed partition do not shrink under a committed record. */
  lemma BrokerAnswerable(b: L.Broker, b': L.Broker, r: Ref)
    requires L.Bounded(b) && r in b'.log && r.key !in b'.moved && r.key in b'.floor && b'.floor[r.key] <= r.offset
    requires r.key in b.committed && r.offset < b.committed[r.key]
    requires (exists k, gap :: b' == L.Append(b, k, gap)) || (exists k, earliest :: b' == L.Assign(b, k, earliest))
          || (b'.log == b.log && b.moved <= b'.moved && b'.floor == b.floor)
    ensures r in b.log && r.key !in b.moved && r.key in b.floor && b.floor[r.key] <= r.offset
  {
  }

  lemma BrokerMoves(c: Config, s: State, step: Step)
    requires CanStep(c, s, step)
    ensures var b, b' := s.broker, Next(c, s, step).broker;
            (exists k, gap :: b' == L.Append(b, k, gap)) || (exists k, earliest :: b' == L.Assign(b, k, earliest))
            || (b'.log == b.log && b.moved <= b'.moved && b'.floor == b.floor)
  {
    match step
    case Append(k, gap) => assert Next(c, s, step).broker == L.Append(s.broker, k, gap);
    case Assign(k) => assert Next(c, s, step).broker == L.Assign(s.broker, k, c.earliest);
    case Consume(batch) => L.FetchAllFrame(s.broker, Refs(batch));
    case _ => OthersKeepLog(c, s, step);
  }

  lemma OthersKeepLog(c: Config, s: State, step: Step)
    requires CanStep(c, s, step) && !step.Append? && !step.Assign? && !step.Consume?
    ensures var b, b' := s.broker, Next(c, s, step).broker;
            b'.log == b.log && b.moved <= b'.moved && b'.floor == b.floor
  {
    if !TouchesBroker(step) {
      BrokerUntouched(c, s, step);
    }
  }

  lemma AnswerableBefore(c: Config, s: State, step: Step, r: Ref)
    requires L.Bounded(s.broker) && CanStep(c, s, step) && Answerable(Next(c, s, step), r)
    ensures BelowCommit(s, r) ==> Answerable(s, r)
  {
    BrokerMoves(c, s, step);
    if BelowCommit(s, r) {
      BrokerAnswerable(s.broker, Next(c, s, step).broker, r);
    }
  }

  /** The commit raises the record's partition past it. */
  predicate PassesOver(c: Config, s: State, r: Ref)
    requires s.processor.Gating? && |s.processor.env.source| == |s.processor.env.flags|
  {
    r.key in Vector(c, s.processor) && r.offset < Vector(c, s.processor)[r.key]
  }

  lemma CommitTouchesOffsets(c: Config, s: State)
    requires CanStep(c, s, Finish(true)) && GatesOpen(s.processor)
    ensures DoFinish(c, s, true) == s.(processor := Waiting, broker := L.Commit(s.broker, Vector(c, s.processor)))
  {
  }

  /** A record that a commit newly passes is settled. */
  lemma NewlyPassed(c: Config, s: State, r: Ref)
    requires CanStep(c, s, Finish(true)) && GatesOpen(s.processor)
    requires var s' := DoFinish(c, s, true);
             L.Covered(s'.broker, Flow(s'), SettledSet(s')) && Answerable(s', r) && BelowCommit(s', r) &&
             !BelowCommit(s, r)
    ensures Settled(s, r) && Answerable(s, r) && PassesOver(c, s, r)
  {
    var s' := DoFinish(c, s, true);
    assert L.Below(s'.broker, r) && r in SettledSet(s');
    CommitTouchesOffsets(c, s);
  }

  /** No blamed record that the commit passes over lacks durability. */
  ghost predicate BlamesAreKept(c: Config, s: State)
    requires s.processor.Gating? && |s.processor.env.source| == |s.processor.env.flags|
  {
    forall r | Blamed(s.h, r) && Answerable(s, r) && PassesOver(c, s, r) :: Kept(s, r)
  }

  lemma CommitKeepsAll(c: Config, s: State)
    requires CanStep(c, s, Finish(true)) && GatesOpen(s.processor) && AllKept(s) && BlamesAreKept(c, s)
    requires var s' := DoFinish(c, s, true); L.Covered(s'.broker, Flow(s'), SettledSet(s'))
    ensures AllKept(DoFinish(c, s, true))
  {
    var s' := DoFinish(c, s, true);
    CommitTouchesOffsets(c, s);
    forall r | Answerable(s', r) && BelowCommit(s', r) ensures Kept(s', r) {
      if !BelowCommit(s, r) {
        NewlyPassed(c, s, r);
      }
      assert Kept(s, r);
    }
  }

  lemma CommitNeedsKept(c: Config, s: State)
    requires CanStep(c, s, Finish(true)) && GatesOpen(s.processor) && AllKept(DoFinish(c, s, true))
    ensures BlamesAreKept(c, s)
  {
    var s' := DoFinish(c, s, true);
    CommitTouchesOffsets(c, s);
    forall r | Blamed(s.h, r) && Answerable(s, r) && PassesOver(c, s, r) ensures Kept(s, r) {
      assert Answerable(s', r) && BelowCommit(s', r);
    }
  }

  /** Exactly when a commit is safe: as long as all that is committed is durable, the next commit
      keeps it so if and only if every discarded, declined, spoiled or failed record that it passes
      over has become durable by then. */
  lemma SafeCommitExactly(c: Config, run: seq<State>, steps: seq<Step>, n: nat)
    requires IsRun(c, run, steps) && n < |steps| && Commits(run[n], steps[n]) && AllKept(run[n])
    ensures AllKept(run[n + 1]) <==> BlamesAreKept(c, run[n])
  {
    RunInv(c, run, steps, n);
    LedgerKept(c, run[n], steps[n]);
    if BlamesAreKept(c, run[n]) {
      CommitKeepsAll(c, run[n]);
    }
    if AllKept(run[n + 1]) {
      CommitNeedsKept(c, run[n]);
    }
  }

  /** A step that commits nothing passes over nothing. */
  lemma QuietStepKeepsAll(c: Config, s: State, step: Step)
    requires Structure(s) && L.Shape(s.broker, Flow(s)) && CanStep(c, s, step) && !Commits(s, step) && AllKept(s)
    ensures AllKept(Next(c, s, step))
  {
    var s' := Next(c, s, step);
    forall r | Answerable(s', r) && BelowCommit(s', r) ensures Kept(s', r) {
      CommittedGrows(c, s, step, r.key);
      AnswerableBefore(c, s, step, r);
      KeptStays(c, s, step, r);
    }
  }

  lemma AllKeptStays(c: Config, s: State, step: Step)
    requires Inv(c, s) && CanStep(c, s, step) && AllKept(s)
    requires Commits(s, step) ==> BlamesAreOld(s)
    ensures AllKept(Next(c, s, step))
  {
    if Commits(s, step) {
      LedgerKept(c, s, step);
      FinishMovesNothing(c, s, true);
      CommitKeepsAll(c, s);
    } else {
      QuietStepKeepsAll(c, s, step);
    }
  }

  /** At every commit so far, no blamed record that it passed over lacked durability. */
  ghost predicate CommitsSafely(c: Config, run: seq<State>, steps: seq<Step>, n: nat)
    requires IsRun(c, run, steps) && n <= |steps|
  {
    forall i | 0 <= i < n && Commits(run[i], steps[i]) :: BlamesAreKept(c, run[i])
  }

  ghost predicate AlwaysKept(run: seq<State>, n: nat)
    requires n < |run|
  {
    forall i | 0 <= i <= n :: AllKept(run[i])
  }

  /** Exactly when at-least-once holds: over any run with any number of crashes, everything below the
      committed offsets has been durable at every moment if and only if every commit found the blamed
      records it passed over durable. */
  lemma {:induction false} AtLeastOnceExactly(c: Config, run: seq<State>, steps: seq<Step>, n: nat)
    requires IsRun(c, run, steps) && n <= |steps|
    ensures AlwaysKept(run, n) <==> CommitsSafely(c, run, steps, n)
  {
    if n == 0 {
      assert forall r | Answerable(run[0], r) :: !BelowCommit(run[0], r);
    } else {
      AtLeastOnceExactly(c, run, steps, n - 1);
      KeptAfter(c, run, steps, n - 1);
      OneMore(c, run, steps, n - 1);
    }
  }

  lemma OneMore(c: Config, run: seq<State>, steps: seq<Step>, n: nat)
    requires IsRun(c, run, steps) && n < |steps|
    ensures AlwaysKept(run, n + 1) <==> AlwaysKept(run, n) && AllKept(run[n + 1])
    ensures CommitsSafely(c, run, steps, n + 1) <==>
      CommitsSafely(c, run, steps, n) && (Commits(run[n], steps[n]) ==> BlamesAreKept(c, run[n]))
  {
  }

  /** One step of that equivalence. */
  lemma KeptAfter(c: Config, run: seq<State>, steps: seq<Step>, n: nat)
    requires IsRun(c, run, steps) && n < |steps|
    ensures AllKept(run[n]) ==>
      (AllKept(run[n + 1]) <==> (Commits(run[n], steps[n]) ==> BlamesAreKept(c, run[n])))
  {
    if AllKept(run[n]) {
      if Commits(run[n], steps[n]) {
        SafeCommitExactly(c, run, steps, n);
      } else {
        RunInv(c, run, steps, n);
        QuietStepKeepsAll(c, run[n], steps[n]);
      }
    }
  }

  lemma BlamesStayOld(c: Config, s: State, step: Step)
    requires Structure(s) && L.Shape(s.broker, Flow(s)) && CanStep(c, s, step)
    requires step.Crash? || (BlamesAreOld(s) && !Harms(c, s, step))
    ensures BlamesAreOld(Next(c, s, step))
  {
    var s' := Next(c, s, step);
    forall r | Blamed(s'.h, r) && r.key !in s'.broker.moved
      ensures BelowCommit(s', r)
    {
      BlameNeedsHarm(c, s, step, r);
      CommittedGrows(c, s, step, r.key);
    }
  }

  lemma {:induction false} CarefulRun(c: Config, run: seq<State>, steps: seq<Step>, n: nat)
    requires IsRun(c, run, steps) && Careful(c, run, steps) && n < |run|
    ensures AllKept(run[n])
    ensures !Harmed(c, run, steps, n) ==> BlamesAreOld(run[n])
  {
    if n == 0 {
      assert forall r | Answerable(run[0], r) :: !BelowCommit(run[0], r);
    } else {
      CarefulRun(c, run, steps, n - 1);
      RunInv(c, run, steps, n - 1);
      AllKeptStays(c, run[n - 1], steps[n - 1]);
      if !Harmed(c, run, steps, n) {
        BlamesStayOld(c, run[n - 1], steps[n - 1]);
      }
    }
  }

  /** At least once: over any number of crashes, if the process restarts after harm before it
      commits again, then every record below a committed offset is durable (its noise row is
      inserted, or one of its handlings has had all its messages and DLQ records delivered). */
  lemma AtLeastOnce(c: Config, run: seq<State>, steps: seq<Step>, n: nat, r: Ref)
    requires IsRun(c, run, steps) && Careful(c, run, steps) && n < |run|
    requires Answerable(run[n], r) && BelowCommit(run[n], r)
    ensures Kept(run[n], r)
  {
    CarefulRun(c, run, steps, n);
  }

  // ---------------------------------------------------------------------------------------
  // Commits
  // ---------------------------------------------------------------------------------------

  /** The processor commits a partition to one past the highest record of the batch that it handled
      or that was diverted, and touches no other partition. */
  lemma CommitIsExact(c: Config, run: seq<State>, steps: seq<Step>, n: nat, k: Key)
    requires IsRun(c, run, steps) && n < |steps| && Commits(run[n], steps[n])
    ensures var p, before, after := run[n].processor, run[n].broker.committed, run[n + 1].broker.committed;
            var handled, diverted := HandledRefs(p.turns), Refs(Pick(p.env.source, p.env.flags, true));
            if exists r :: (r in handled || r in diverted) && r.key == k
            then k in after && IsLastOf(handled, diverted, k, after[k])
            else At(after, k) == At(before, k)
  {
    var p := run[n].processor;
    TallyMaxima(p.turns, c.strict);
    FinishBroker(c, run[n], true);
    VectorMeaning(HandledRefs(p.turns), Refs(Pick(p.env.source, p.env.flags, true)), k);
  }

  /** While a partition stays, its committed offset never falls. */
  lemma {:induction false} CommittedNeverFalls(c: Config, run: seq<State>, steps: seq<Step>, i: nat, j: nat, k: Key)
    requires IsRun(c, run, steps) && i <= j < |run| && k !in run[j].broker.moved
    ensures At(run[i].broker.committed, k) <= At(run[j].broker.committed, k)
    ensures k !in run[i].broker.moved
  {
    if i < j {
      RunInv(c, run, steps, j - 1);
      StaysMoved(c, run[j - 1], steps[j - 1], k);
      CommittedGrows(c, run[j - 1], steps[j - 1], k);
      CommittedNeverFalls(c, run, steps, i, j - 1, k);
    }
  }

  lemma StaysMoved(c: Config, s: State, step: Step, k: Key)
    requires CanStep(c, s, step) && k !in Next(c, s, step).broker.moved
    ensures k !in s.broker.moved
  {
    if step.Consume? {
      L.FetchAllFrame(s.broker, Refs(step.batch));
    } else if !TouchesBroker(step) {
      BrokerUntouched(c, s, step);
    }
  }

  /** The processor's successive commits of a partition strictly increase, across declined batches,
      failed commits and crashes, as long as the partition stays. */
  lemma CommitsIncrease(c: Config, run: seq<State>, steps: seq<Step>, i: nat, j: nat, k: Key)
    requires IsRun(c, run, steps) && i < j < |steps| && Commits(run[i], steps[i]) && Commits(run[j], steps[j])
    requires |run[i].processor.env.source| == |run[i].processor.env.flags| &&
             |run[j].processor.env.source| == |run[j].processor.env.flags|
    requires k in Vector(c, run[i].processor) && k in Vector(c, run[j].processor) && k !in run[j].broker.moved
    ensures Vector(c, run[i].processor)[k] < Vector(c, run[j].processor)[k]
  {
    RunInv(c, run, steps, i);
    RunInv(c, run, steps, j);
    CommittedNeverFalls(c, run, steps, i + 1, j, k);
    CommittedGrows(c, run[i], steps[i], k);
    VectorAdvances(c, run[j]);
  }

  // ---------------------------------------------------------------------------------------
  // The barriers
  // ---------------------------------------------------------------------------------------

  /** The noise barrier is exact in every reachable state in which no bulk write of this life has
      failed and none is between its insert and its publication: the mark has reached a
      short-circuited offset if and only if every short-circuited record of the partition up to it
      has been inserted. */
  lemma NoiseBarrierExact(c: Config, run: seq<State>, steps: seq<Step>, n: nat, r: Ref)
    requires IsRun(c, run, steps) && n < |run|
    requires B.NoFailedWrite(run[n].bulk) && !run[n].bulk.phase.Inserted?
    requires B.Sent(run[n].bulk, r) && r.key !in run[n].broker.moved
    ensures At(run[n].noiseMarks, r.key) >= r.offset <==> B.AllLanded(run[n].bulk, r)
  {
    RunInv(c, run, steps, n);
    B.BarrierExact(run[n].bulk, run[n].noiseMarks, run[n].broker.moved, r);
  }

  /** Below the committed offset every record that the bulk queue has accepted in this life is
      inserted, unless one of its bulk writes has failed or its batch was declined. */
  lemma NoiseBelowCommit(c: Config, run: seq<State>, steps: seq<Step>, n: nat, r: Ref)
    requires IsRun(c, run, steps) && n < |run|
    requires B.Sent(run[n].bulk, r) && r.key !in run[n].broker.moved && BelowCommit(run[n], r)
    ensures NoiseDone(run[n], r)
  {
    RunInv(c, run, steps, n);
    if StillDiverted(run[n], r) {
      StillDivertedFlows(run[n], r);
    }
  }

  /** No commit passes over a short-circuited record that is not inserted, whichever batch it came
      with, unless one of its bulk writes has failed or its batch was declined. */
  lemma NoCommitPassesNoise(c: Config, run: seq<State>, steps: seq<Step>, n: nat, r: Ref)
    requires IsRun(c, run, steps) && n < |steps| && Commits(run[n], steps[n])
    requires B.Sent(run[n].bulk, r) && r.key !in run[n].broker.moved && PassesOver(c, run[n], r)
    ensures NoiseDone(run[n], r)
  {
    CommitTouchesOffsets(c, run[n]);
    NoiseBelowCommit(c, run, steps, n + 1, r);
  }

  // ---------------------------------------------------------------------------------------
  // Strict mode
  // ---------------------------------------------------------------------------------------

  /** Strict mode: below the committed offset every event that was routed to a signal lane is in
      `audit_events`, unless the other lane raised the common mark over it, its write failed, it was
      dropped at the full normal lane, or its batch was declined. */
  lemma StrictMode(c: Config, run: seq<State>, steps: seq<Step>, n: nat, r: Ref)
    requires IsRun(c, run, steps) && n < |run| && c.strict
    requires r in run[n].h.signals && r.key !in run[n].broker.moved && BelowCommit(run[n], r)
    ensures r in run[n].signalTable || Suspect(run[n].h, r)
  {
    RunSignals(c, run, steps, n);
    CommittedIsDone(c, run[n], r);
  }

  /** The part of the invariant that strict mode needs. */
  lemma RunSignals(c: Config, run: seq<State>, steps: seq<Step>, n: nat)
    requires IsRun(c, run, steps) && n < |run| && c.strict
    ensures Structure(run[n]) && L.Shape(run[n].broker, Flow(run[n])) && SignalsSettled(c, run[n])
  {
    RunInv(c, run, steps, n);
  }

  lemma CommittedIsDone(c: Config, s: State, r: Ref)
    requires Structure(s) && L.Shape(s.broker, Flow(s)) && SignalsSettled(c, s)
    requires r in s.h.signals && r.key !in s.broker.moved && BelowCommit(s, r)
    ensures SignalDone(s, r)
  {
    if DueInHand(c, s, r) {
      DueIsUncommitted(c, s, r);
    }
  }

  /** What the current batch waits for lies at or above the committed offset. */
  lemma DueIsUncommitted(c: Config, s: State, r: Ref)
    requires Structure(s) && L.Shape(s.broker, Flow(s)) && DueInHand(c, s, r) && r.key !in s.broker.moved
    ensures !BelowCommit(s, r)
  {
    var t :| t in s.processor.turns && DueTurn(c, s, t) && t.record.ref == r;
    TurnInFlow(s, t);
  }

  /** What strict mode promises: everything committed that was routed to a signal lane is in the
      table. */
  ghost predicate AllInserted(s: State) {
    forall r | r in s.h.signals && r.key !in s.broker.moved && BelowCommit(s, r) :: r in s.signalTable
  }

  /** No suspect event that the commit passes over is missing from the table. */
  ghost predicate SuspectsAreIn(c: Config, s: State)
    requires s.processor.Gating? && |s.processor.env.source| == |s.processor.env.flags|
  {
    forall r | r in s.h.signals && r.key !in s.broker.moved && Suspect(s.h, r) && PassesOver(c, s, r) ::
        r in s.signalTable
  }

  /** Exactly when a commit keeps the promise of strict mode: if and only if every overtaken, failed,
      dropped or declined event that it passes over has been inserted by then. */
  lemma StrictCommitExactly(c: Config, run: seq<State>, steps: seq<Step>, n: nat)
    requires IsRun(c, run, steps) && n < |steps| && c.strict && Commits(run[n], steps[n]) && AllInserted(run[n])
    ensures AllInserted(run[n + 1]) <==> SuspectsAreIn(c, run[n])
  {
    var s, s' := run[n], run[n + 1];
    CommitTouchesOffsets(c, s);
    forall r | SuspectsAreIn(c, s) && r in s'.h.signals && r.key !in s'.broker.moved && BelowCommit(s', r)
      ensures r in s'.signalTable
    {
      if !BelowCommit(s, r) {
        StrictMode(c, run, steps, n + 1, r);
      }
    }
    forall r | AllInserted(s') && r in s.h.signals && r.key !in s.broker.moved && Suspect(s.h, r) && PassesOver(c, s, r)
      ensures r in s.signalTable
    {
      assert BelowCommit(s', r);
    }
  }

  lemma SignalTableStays(c: Config, s: State, step: Step)
    requires CanStep(c, s, step)
    ensures s.signalTable <= Next(c, s, step).signalTable
  {
    if step.Write? {
      WriteSignalTable(c, s, step.lane, step.move, step.dlq);
    }
  }

  lemma WriteSignalTable(c: Config, s: State, lane: LaneName, move: W.LaneStep, dlq: bool)
    requires CanStep(c, s, Write(lane, move, dlq))
    ensures s.signalTable <= DoWrite(c, s, lane, move, dlq).signalTable
  {
  }

  /** Only a handling makes an event due, and that event is not committed yet. */
  lemma NewlyDue(c: Config, s: State, step: Step, r: Ref)
    requires Structure(s) && L.Shape(s.broker, Flow(s)) && CanStep(c, s, step)
    requires r in Next(c, s, step).h.signals && r !in s.h.signals && r.key !in s.broker.moved
    ensures !BelowCommit(s, r)
  {
    if step.Handle? {
      HandleHistory(c, s, step.o);
      NextIsUncommitted(s);
    } else {
      SignalsDoNotGrow(c, s, step);
    }
  }

  lemma SignalsDoNotGrow(c: Config, s: State, step: Step)
    requires CanStep(c, s, step) && !step.Handle?
    ensures Next(c, s, step).h.signals <= s.h.signals
  {
  }

  /** The message that the processor is at has not been committed. */
  lemma NextIsUncommitted(s: State)
    requires Structure(s) && L.Shape(s.broker, Flow(s)) && s.processor.Handling? &&
             |s.processor.turns| < |Residual(s.processor.env)|
    ensures var m := Residual(s.processor.env)[|s.processor.turns|];
            m.Message? && m.ref.key !in s.broker.moved ==> !BelowCommit(s, m.ref)
  {
    var env := s.processor.env;
    var m := Residual(env)[|s.processor.turns|];
    PickMember(env.source, env.flags, false, m);
    if m.Message? {
      RefsMember(env.source, m.ref);
      assert m.ref in Flow(s);
    }
  }

  lemma QuietStepKeepsInserted(c: Config, s: State, step: Step)
    requires Structure(s) && L.Shape(s.broker, Flow(s)) && CanStep(c, s, step) && !Commits(s, step) && AllInserted(s)
    ensures AllInserted(Next(c, s, step))
  {
    var s' := Next(c, s, step);
    SignalTableStays(c, s, step);
    forall r | r in s'.h.signals && r.key !in s'.broker.moved && BelowCommit(s', r) ensures r in s'.signalTable {
      CommittedGrows(c, s, step, r.key);
      if r !in s.h.signals {
        NewlyDue(c, s, step, r);
      }
    }
  }

  ghost predicate AlwaysInserted(run: seq<State>, n: nat)
    requires n < |run|
  {
    forall i | 0 <= i <= n :: AllInserted(run[i])
  }

  /** At every commit so far, no suspect event that it passed over was missing from the table. */
  ghost predicate CommitsInserted(c: Config, run: seq<State>, steps: seq<Step>, n: nat)
    requires IsRun(c, run, steps) && n <= |steps|
  {
    forall i | 0 <= i < n && Commits(run[i], steps[i]) :: SuspectsAreIn(c, run[i])
  }

  /** Exactly when strict mode holds: over any run with any number of crashes, every event of a signal
      lane below the committed offsets has been in `audit_events` at every moment if and only if every
      commit found the suspect events it passed over there. */
  lemma {:induction false} StrictModeExactly(c: Config, run: seq<State>, steps: seq<Step>, n: nat)
    requires IsRun(c, run, steps) && n <= |steps| && c.strict
    ensures AlwaysInserted(run, n) <==> CommitsInserted(c, run, steps, n)
  {
    if n > 0 {
      StrictModeExactly(c, run, steps, n - 1);
      InsertedAfter(c, run, steps, n - 1);
      OneMoreInserted(c, run, steps, n - 1);
    }
  }

  lemma OneMoreInserted(c: Config, run: seq<State>, steps: seq<Step>, n: nat)
    requires IsRun(c, run, steps) && n < |steps|
    ensures AlwaysInserted(run, n + 1) <==> AlwaysInserted(run, n) && AllInserted(run[n + 1])
    ensures CommitsInserted(c, run, steps, n + 1) <==>
      CommitsInserted(c, run, steps, n) && (Commits(run[n], steps[n]) ==> SuspectsAreIn(c, run[n]))
  {
  }

  /** One step of that equivalence. */
  lemma InsertedAfter(c: Config, run: seq<State>, steps: seq<Step>, n: nat)
    requires IsRun(c, run, steps) && n < |steps| && c.strict
    ensures AllInserted(run[n]) ==>
      (AllInserted(run[n + 1]) <==> (Commits(run[n], steps[n]) ==> SuspectsAreIn(c, run[n])))
  {
    if AllInserted(run[n]) {
      if Commits(run[n], steps[n]) {
        StrictCommitExactly(c, run, steps, n);
      } else {
        RunInv(c, run, steps, n);
        QuietStepKeepsInserted(c, run[n], steps[n]);
      }
    }
  }
}
