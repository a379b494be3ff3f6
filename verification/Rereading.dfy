/** The other half of at-least-once: what a crash finds uncommitted is read again before it is
    committed. */
module Rereading {
  import opened Offsets
  import opened Split
  import opened Batch
  import opened Protocol
  import opened Invariant
  import opened CommitInvariant
  import opened Theorems
  import L = Ledger

  predicate ReadsIt(step: Step, r: Ref) {
    match step
    case Consume(batch) => r in Refs(batch)
    case Discard(x) => x == r
    case _ => false
  }

  predicate SkipsIt(c: Config, s: State, step: Step, r: Ref) {
    step.Assign? && r in L.Skipped(s.broker, step.k, c.earliest)
  }

  predicate Touches(c: Config, s: State, step: Step, r: Ref) {
    ReadsIt(step, r) || SkipsIt(c, s, step, r)
  }

  /** The record is not committed, and the partition's position, if it has one, has not passed it. */
  predicate IsAhead(b: L.Broker, r: Ref) {
    && !(r.key in b.committed && r.offset < b.committed[r.key])
    && (r.key in b.position ==> b.position[r.key] <= r.offset)
  }

  // ---------------------------------------------------------------------------------------
  // What the broker does
  // ---------------------------------------------------------------------------------------

  lemma FetchStaysBehind(b: L.Broker, x: Ref, r: Ref)
    requires L.CanFetch(b, x) && x != r && r in b.log && r.key in b.position && b.position[r.key] <= r.offset
    ensures L.Fetch(b, x).position[r.key] <= r.offset
  {
    if x.key == r.key {
      assert x.offset < r.offset;
    }
  }

  lemma {:induction false} FetchAllStaysBehind(b: L.Broker, rs: seq<Ref>, r: Ref)
    requires L.CanFetchAll(b, rs) && r !in rs && r in b.log && r.key in b.position && b.position[r.key] <= r.offset
    ensures r.key in L.FetchAll(b, rs).position && L.FetchAll(b, rs).position[r.key] <= r.offset
    decreases |rs|
  {
    if rs != [] {
      FetchStaysBehind(b, rs[0], r);
      FetchAllStaysBehind(L.Fetch(b, rs[0]), rs[1..], r);
    }
  }

  lemma AssignStaysBehind(b: L.Broker, k: Key, earliest: bool, r: Ref)
    requires L.Bounded(b) && r in b.log && r.key !in b.moved && r.key in b.floor && b.floor[r.key] <= r.offset
    requires IsAhead(b, r) && r !in L.Skipped(b, k, earliest)
    ensures IsAhead(L.Assign(b, k, earliest), r)
  {
  }

  // ---------------------------------------------------------------------------------------
  // Every step that neither reads nor skips the record
  // ---------------------------------------------------------------------------------------

  lemma ConsumeStaysBehind(c: Config, s: State, batch: seq<Record>, r: Ref)
    requires CanStep(c, s, Consume(batch)) && r in s.broker.log && IsAhead(s.broker, r) && r !in Refs(batch)
    ensures IsAhead(Next(c, s, Consume(batch)).broker, r)
  {
    L.FetchAllFrame(s.broker, Refs(batch));
    if r.key in s.broker.position {
      FetchAllStaysBehind(s.broker, Refs(batch), r);
    }
  }

  /** A commit passes only what has been fetched. */
  lemma CommitStaysBehind(b: L.Broker, flow: seq<Ref>, vector: Marks, r: Ref)
    requires L.Shape(b, flow) && L.CommitsFrom(b, flow, vector) && IsAhead(b, r) && r.key !in b.moved
    ensures IsAhead(L.Commit(b, vector), r)
  {
    L.CommitsWithin(b, flow, vector);
  }

  lemma FinishesFromFlow(c: Config, s: State, ok: bool)
    requires Structure(s) && CanStep(c, s, Finish(ok))
    ensures L.CommitsFrom(s.broker, Flow(s), Committed(c, s.processor, ok))
  {
    VectorFromBatch(c, s);
    assert forall x | x in HandFlow(s.processor) :: x in Flow(s);
  }

  lemma FinishStaysBehind(c: Config, s: State, ok: bool, r: Ref)
    requires Structure(s) && L.Shape(s.broker, Flow(s)) && CanStep(c, s, Finish(ok))
    requires IsAhead(s.broker, r) && r.key !in s.broker.moved
    ensures IsAhead(DoFinish(c, s, ok).broker, r)
  {
    var vector := Committed(c, s.processor, ok);
    FinishesFromFlow(c, s, ok);
    CommitStaysBehind(s.broker, Flow(s), vector, r);
    FinishBroker(c, s, ok);
  }

  lemma BrokerStaysBehind(c: Config, s: State, step: Step, r: Ref)
    requires L.Bounded(s.broker) && CanStep(c, s, step) && Answerable(s, r) && IsAhead(s.broker, r)
    requires step.Append? || step.Assign? || step.Revoke? || step.Discard? || step.Crash?
    requires r.key !in Next(c, s, step).broker.moved && !ReadsIt(step, r) && !SkipsIt(c, s, step, r)
    ensures IsAhead(Next(c, s, step).broker, r)
  {
    match step
    case Assign(k) => AssignStaysBehind(s.broker, k, c.earliest, r);
    case Discard(x) =>
      if r.key in s.broker.position {
        FetchStaysBehind(s.broker, x, r);
      }
    case _ =>
  }

  lemma StepStaysBehind(c: Config, s: State, step: Step, r: Ref)
    requires Structure(s) && L.Shape(s.broker, Flow(s)) && CanStep(c, s, step) && Answerable(s, r) &&
             IsAhead(s.broker, r)
    requires r.key !in Next(c, s, step).broker.moved && !ReadsIt(step, r) && !SkipsIt(c, s, step, r)
    ensures IsAhead(Next(c, s, step).broker, r)
  {
    if step.Consume? {
      ConsumeStaysBehind(c, s, step.batch, r);
    } else if step.Finish? {
      FinishMovesNothing(c, s, step.ok);
      FinishStaysBehind(c, s, step.ok, r);
    } else if TouchesBroker(step) {
      BrokerStaysBehind(c, s, step, r);
    } else {
      BrokerUntouched(c, s, step);
    }
  }

  /** The group never stops answering for a record of a partition that stays. */
  lemma AnswerableStays(c: Config, s: State, step: Step, r: Ref)
    requires CanStep(c, s, step) && Answerable(s, r) && r.key !in Next(c, s, step).broker.moved
    ensures Answerable(Next(c, s, step), r)
  {
    LogStays(c, s, step);
    BrokerMoves(c, s, step);
  }

  lemma RunShape(c: Config, run: seq<State>, steps: seq<Step>, n: nat)
    requires IsRun(c, run, steps) && n < |run|
    ensures Structure(run[n]) && L.Shape(run[n].broker, Flow(run[n]))
  {
    RunInv(c, run, steps, n);
  }

  /** The group still answers for the record and has not passed it. */
  predicate IsOpen(s: State, r: Ref) {
    Answerable(s, r) && IsAhead(s.broker, r)
  }

  lemma RunStepStaysOpen(c: Config, run: seq<State>, steps: seq<Step>, n: nat, r: Ref)
    requires IsRun(c, run, steps) && n < |steps| && IsOpen(run[n], r) && r.key !in run[n + 1].broker.moved
    requires !Touches(c, run[n], steps[n], r)
    ensures IsOpen(run[n + 1], r)
  {
    RunShape(c, run, steps, n);
    StepStaysBehind(c, run[n], steps[n], r);
    AnswerableStays(c, run[n], steps[n], r);
  }

  lemma RunStaysMoved(c: Config, run: seq<State>, steps: seq<Step>, n: nat, k: Key)
    requires IsRun(c, run, steps) && n < |steps| && k !in run[n + 1].broker.moved
    ensures k !in run[n].broker.moved
  {
    StaysMoved(c, run[n], steps[n], k);
  }

  /** Some step from i on and before n reads or skips the record. */
  ghost predicate Touched(c: Config, run: seq<State>, steps: seq<Step>, i: nat, n: nat, r: Ref)
    requires n <= |steps| && |run| == |steps| + 1
  {
    exists m :: i <= m < n && Touches(c, run[m], steps[m], r)
  }

  /** As long as the partition stays, the record is open, or some step has read or skipped it. */
  ghost predicate OpenOrTouched(c: Config, run: seq<State>, steps: seq<Step>, i: nat, n: nat, r: Ref)
    requires n <= |steps| && |run| == |steps| + 1
  {
    r.key !in run[n].broker.moved ==> IsOpen(run[n], r) || Touched(c, run, steps, i, n, r)
  }

  lemma OneMoreStep(c: Config, run: seq<State>, steps: seq<Step>, i: nat, n: nat, r: Ref)
    requires IsRun(c, run, steps) && i <= n < |steps| && OpenOrTouched(c, run, steps, i, n, r)
    ensures OpenOrTouched(c, run, steps, i, n + 1, r)
  {
    if r.key !in run[n + 1].broker.moved {
      RunStaysMoved(c, run, steps, n, r.key);
      if m :| i <= m < n && Touches(c, run[m], steps[m], r) {
        assert Touched(c, run, steps, i, n + 1, r);
      } else if Touches(c, run[n], steps[n], r) {
        assert Touched(c, run, steps, i, n + 1, r);
      } else {
        RunStepStaysOpen(c, run, steps, n, r);
      }
    }
  }

  lemma {:induction false} StepByStep(c: Config, run: seq<State>, steps: seq<Step>, i: nat, n: nat, r: Ref)
    requires |run| == |steps| + 1 && i <= n <= |steps| && OpenOrTouched(c, run, steps, i, i, r)
    requires forall m | i <= m < n :: OpenOrTouched(c, run, steps, i, m, r) ==>
             OpenOrTouched(c, run, steps, i, m + 1, r)
    ensures OpenOrTouched(c, run, steps, i, n, r)
  {
    if i < n {
      StepByStep(c, run, steps, i, n - 1, r);
    }
  }

  lemma OpenUntilTouched(c: Config, run: seq<State>, steps: seq<Step>, i: nat, n: nat, r: Ref)
    requires IsRun(c, run, steps) && i <= n <= |steps| && IsOpen(run[i], r)
    ensures OpenOrTouched(c, run, steps, i, n, r)
  {
    forall m | i <= m < n && OpenOrTouched(c, run, steps, i, m, r)
      ensures OpenOrTouched(c, run, steps, i, m + 1, r)
    {
      OneMoreStep(c, run, steps, i, m, r);
    }
    StepByStep(c, run, steps, i, n, r);
  }

  /** What a crash finds uncommitted is not committed later unless it has been fetched again in
      between, or an assignment without a committed offset has skipped it. */
  lemma ReadAgain(c: Config, run: seq<State>, steps: seq<Step>, i: nat, j: nat, r: Ref)
    requires IsRun(c, run, steps) && i < j < |run| && steps[i].Crash?
    requires Answerable(run[i], r) && !BelowCommit(run[i], r)
    requires r.key !in run[j].broker.moved && BelowCommit(run[j], r)
    ensures Touched(c, run, steps, i + 1, j, r)
  {
    assert IsOpen(run[i + 1], r);
    OpenUntilTouched(c, run, steps, i + 1, j, r);
  }
}
