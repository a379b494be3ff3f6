/** What the consumer diverts, in every reachable state: noise that carries no denial, and all of it for
    which there is room. */
module Diversion {
  import opened Offsets
  import opened Text
  import opened Sequences
  import opened Split
  import opened Batch
  import opened Protocol
  import opened Invariant
  import opened CommitInvariant
  import opened Theorems
  import L = Ledger
  import W = WriterLane

  /** Whatever is flagged is noise, and noise is flagged only when short-circuiting is on. */
  predicate FlagsFit(c: Config, source: seq<Record>, flags: seq<bool>) {
    |flags| <= |source| && forall i | 0 <= i < |flags| && flags[i] :: c.shortCircuit && IsNoise(c.noise, source[i])
  }

  predicate EnvelopeFits(c: Config, e: Envelope) {
    FlagsFit(c, e.source, e.flags)
  }

  /** In every thread and in the queue between them. */
  ghost predicate FlagsOk(c: Config, s: State) {
    && (s.consumer.Splitting? ==> FlagsFit(c, s.consumer.source, s.consumer.flags))
    && (forall e | e in s.recordQueue :: EnvelopeFits(c, e))
    && (!s.processor.Waiting? ==> EnvelopeFits(c, s.processor.env))
  }

  lemma SplitFits(c: Config, s: State)
    requires FlagsOk(c, s) && CanStep(c, s, SplitNext)
    ensures FlagsOk(c, DoSplit(c, s))
  {
  }

  lemma HandleFits(c: Config, s: State, o: Outcome)
    requires FlagsOk(c, s) && CanStep(c, s, Handle(o))
    ensures FlagsOk(c, DoHandle(c, s, o))
  {
    HandleThreads(c, s, o);
  }

  lemma WriteFits(c: Config, s: State, lane: LaneName, move: W.LaneStep, dlq: bool)
    requires FlagsOk(c, s) && CanStep(c, s, Write(lane, move, dlq))
    ensures FlagsOk(c, DoWrite(c, s, lane, move, dlq))
  {
  }

  lemma ReceiveFits(c: Config, s: State)
    requires FlagsOk(c, s) && CanStep(c, s, Receive)
    ensures FlagsOk(c, Next(c, s, Receive))
  {
    assert s.recordQueue[0] in s.recordQueue;
  }

  lemma QuietFits(c: Config, s: State, step: Step)
    requires FlagsOk(c, s) && CanStep(c, s, step)
    requires !step.SplitNext? && !step.Handle? && !step.Write? && !step.Receive?
    ensures FlagsOk(c, Next(c, s, step))
  {
  }

  lemma FlagsKept(c: Config, s: State, step: Step)
    requires FlagsOk(c, s) && CanStep(c, s, step)
    ensures FlagsOk(c, Next(c, s, step))
  {
    if step.SplitNext? {
      SplitFits(c, s);
    } else if step.Handle? {
      HandleFits(c, s, step.o);
    } else if step.Write? {
      WriteFits(c, s, step.lane, step.move, step.dlq);
    } else if step.Receive? {
      ReceiveFits(c, s);
    } else {
      QuietFits(c, s, step);
    }
  }

  lemma {:induction false} RunFlags(c: Config, run: seq<State>, steps: seq<Step>, n: nat)
    requires IsRun(c, run, steps) && n < |run|
    ensures FlagsOk(c, run[n])
  {
    if n > 0 {
      RunFlags(c, run, steps, n - 1);
      FlagsKept(c, run[n - 1], steps[n - 1]);
    }
  }

  /** The record names a noise method and carries no denial. */
  ghost predicate IsHarmless(c: Config, r: Record) {
    && r.Message? && r.value.Decoded? && r.value.json.Obj?
    && MethodName(r.value.json).Str? && Listed(MethodName(r.value.json).s, c.noise)
    && !Denied(r.value.json)
  }

  lemma NoiseIsHarmless(c: Config, r: Record)
    requires IsNoise(c.noise, r)
    ensures IsHarmless(c, r)
  {
    ShortCircuitsExactly(c.noise, r.value, TryShortCircuit(c.noise, r.value).value);
  }

  /** Over any run, whatever the processor has been spared of the batch it holds is noise without a
      denial: no denial is ever short-circuited. */
  lemma DenialsAreHandled(c: Config, run: seq<State>, steps: seq<Step>, n: nat, i: nat)
    requires IsRun(c, run, steps) && n < |run| && !run[n].processor.Waiting?
    requires i < |run[n].processor.env.flags| && run[n].processor.env.flags[i]
    ensures i < |run[n].processor.env.source| && c.shortCircuit && IsHarmless(c, run[n].processor.env.source[i])
  {
    RunFlags(c, run, steps, n);
    NoiseIsHarmless(c, run[n].processor.env.source[i]);
  }

  /** Exactly what happens to the record that the consumer looks at: it is flagged, put into the bulk
      queue and nowhere else, if and only if short-circuiting is on, the record is noise and the queue
      has room; otherwise the queue is left alone. */
  lemma DivertsExactly(c: Config, run: seq<State>, steps: seq<Step>, n: nat)
    requires IsRun(c, run, steps) && n < |steps| && steps[n].SplitNext?
    ensures var s, s' := run[n], run[n + 1];
            var i := |s.consumer.flags|;
            var r := s.consumer.source[i];
            && s'.consumer.Splitting? && s'.consumer.source == s.consumer.source && |s'.consumer.flags| == i + 1
            && s'.consumer.flags[..i] == s.consumer.flags
            && (s'.consumer.flags[i] <==> c.shortCircuit && IsNoise(c.noise, r) && |s.bulk.queue| < c.bulkRoom)
            && s'.bulk.queue == s.bulk.queue + (if s'.consumer.flags[i] then [W.Item(r.ref, true, 0, 0)] else [])
  {
    var s := run[n];
    assert run[n + 1] == DoSplit(c, s);
    if !DivertsNext(c, s) {
      assert s.bulk.queue + [] == s.bulk.queue;
    }
  }
}
