/** Where a short-circuited record is, from the moment the bulk queue accepts it until its batch is
    finished with. */
module NoiseInvariant {
  import opened Offsets
  import opened Sequences
  import opened Split
  import opened Batch
  import opened Protocol
  import opened Invariant
  import opened LaneInvariant
  import opened CommitInvariant
  import L = Ledger
  import W = WriterLane
  import B = Barrier

  /** The diverted records of an envelope. */
  function DivertedIn(e: Envelope): seq<Ref> {
    if |e.source| == |e.flags| then Refs(Pick(e.source, e.flags, true)) else []
  }

  /** The diverted records that the consumer has in hand. */
  function DivertedByConsumer(k: Consumer): seq<Ref> {
    match k
    case Idle => []
    case Splitting(source, flags) => if |flags| <= |source| then Refs(Pick(source[..|flags|], flags, true)) else []
    case Exited(source) => Refs(source)
  }

  /** The row is inserted, or one of its writes has failed, or the batch was declined. */
  predicate NoiseDone(s: State, r: Ref) {
    r in s.noiseTable || r in s.h.faultyNoise || r in s.h.declined
  }

  predicate DivertedInHand(s: State, r: Ref) {
    !s.processor.Waiting? && r in DivertedIn(s.processor.env)
  }

  ghost predicate StillDiverted(s: State, r: Ref) {
    || DivertedInHand(s, r)
    || (exists e :: e in s.recordQueue && r in DivertedIn(e))
    || r in DivertedByConsumer(s.consumer)
  }

  ghost predicate NoiseSettled(s: State) {
    forall r | B.Sent(s.bulk, r) && r.key !in s.broker.moved :: NoiseDone(s, r) || StillDiverted(s, r)
  }

  lemma DivertedInSource(e: Envelope, r: Ref)
    requires r in DivertedIn(e)
    ensures r in Refs(e.source)
  {
    RefsMember(Pick(e.source, e.flags, true), r);
    var x :| x in Pick(e.source, e.flags, true) && x.Message? && x.ref == r;
    PickMember(e.source, e.flags, true, x);
    RefsMember(e.source, r);
  }

  lemma DivertedInConsumer(k: Consumer, r: Ref)
    requires r in DivertedByConsumer(k)
    ensures r in ConsumerFlow(k)
  {
    if k.Splitting? {
      var n := |k.flags|;
      DivertedInSource(Envelope(k.source[..n], k.flags), r);
      RefsMember(k.source[..n], r);
      RefsMember(k.source, r);
    }
  }

  lemma {:induction false} QueueFlowMember(q: seq<Envelope>, e: Envelope, r: Ref)
    requires e in q && r in Refs(e.source)
    ensures r in QueueFlow(q)
  {
    if q[0] != e {
      assert e in q[1..];
      QueueFlowMember(q[1..], e, r);
    }
  }

  lemma StillDivertedFlows(s: State, r: Ref)
    requires StillDiverted(s, r)
    ensures r in Flow(s)
  {
    if DivertedInHand(s, r) {
      DivertedInSource(s.processor.env, r);
    } else if r in DivertedByConsumer(s.consumer) {
      DivertedInConsumer(s.consumer, r);
    } else {
      var e :| e in s.recordQueue && r in DivertedIn(e);
      DivertedInSource(e, r);
      QueueFlowMember(s.recordQueue, e, r);
    }
  }

  // ---------------------------------------------------------------------------------------
  // Every step keeps it
  // ---------------------------------------------------------------------------------------

  lemma ConsumerAdds(source: seq<Record>, flags: seq<bool>, flag: bool)
    requires |flags| < |source|
    ensures var before, after := DivertedByConsumer(Splitting(source, flags)),
            DivertedByConsumer(Splitting(source, flags + [flag]));
            after == if flag then before + RefOf(source[|flags|]) else before
  {
    TakeSnoc(source, |flags|);
    DivertsOneMore(source[..|flags|], flags, source[|flags|], flag);
  }

  lemma SplitConsumer(c: Config, s: State)
    requires CanStep(c, s, SplitNext)
    ensures DoSplit(c, s).consumer == Splitting(s.consumer.source, s.consumer.flags + [DivertsNext(c, s)])
  {
  }

  /** What looking at the next record adds to what the consumer has diverted. */
  lemma SplitAdds(c: Config, s: State)
    requires CanStep(c, s, SplitNext)
    ensures var before, after := DivertedByConsumer(s.consumer), DivertedByConsumer(DoSplit(c, s).consumer);
            after == if DivertsNext(c, s) then before + RefOf(s.consumer.source[|s.consumer.flags|]) else before
  {
    SplitConsumer(c, s);
    ConsumerAdds(s.consumer.source, s.consumer.flags, DivertsNext(c, s));
  }

  lemma SplitNoiseKept(c: Config, s: State)
    requires NoiseSettled(s) && CanStep(c, s, SplitNext)
    ensures NoiseSettled(DoSplit(c, s))
  {
    var s' := DoSplit(c, s);
    SplitAdds(c, s);
    forall r | B.Sent(s'.bulk, r) && r.key !in s'.broker.moved
      ensures NoiseDone(s', r) || StillDiverted(s', r)
    {
      if !B.Sent(s.bulk, r) {
        assert DivertsNext(c, s) && r == s.consumer.source[|s.consumer.flags|].ref;
      }
    }
  }

  lemma SendNoiseKept(c: Config, s: State)
    requires NoiseSettled(s) && CanStep(c, s, Send)
    ensures NoiseSettled(Next(c, s, Send))
  {
    var s', e := Next(c, s, Send), Envelope(s.consumer.source, s.consumer.flags);
    assert s.consumer.source[..|s.consumer.flags|] == s.consumer.source;
    assert e in s'.recordQueue && forall x | x in s.recordQueue :: x in s'.recordQueue;
    forall r | B.Sent(s'.bulk, r) && r.key !in s'.broker.moved
      ensures NoiseDone(s', r) || StillDiverted(s', r)
    {
      assert r in DivertedByConsumer(s.consumer) ==> r in DivertedIn(e);
    }
  }

  lemma DropNoiseKept(c: Config, s: State)
    requires NoiseSettled(s) && CanStep(c, s, Drop)
    ensures NoiseSettled(Next(c, s, Drop))
  {
    forall r | r in DivertedByConsumer(s.consumer) ensures r in Refs(s.consumer.source) {
      DivertedInConsumer(s.consumer, r);
    }
  }

  lemma ReceiveNoiseKept(c: Config, s: State)
    requires NoiseSettled(s) && CanStep(c, s, Receive)
    ensures NoiseSettled(Next(c, s, Receive))
  {
    var s' := Next(c, s, Receive);
    forall r | B.Sent(s'.bulk, r) && r.key !in s'.broker.moved
      ensures NoiseDone(s', r) || StillDiverted(s', r)
    {
      if e :| e in s.recordQueue && r in DivertedIn(e) {
        assert e == s.recordQueue[0] || e in s.recordQueue[1..];
      }
    }
  }

  /** An open noise barrier settles the diverted records of its batch. */
  lemma OpenBarrierSettles(c: Config, s: State, r: Ref)
    requires Structure(s) && BulkOk(s) && GateOk(c, s) && GatesOpen(s.processor)
    requires DivertedInHand(s, r) && B.Sent(s.bulk, r) && r.key !in s.broker.moved
    ensures r in s.noiseTable || r in s.h.faultyNoise
  {
    HighestMember(DivertedIn(s.processor.env), r.key);
    assert Covers(s.noiseMarks, Diverts(s.processor.env));
    PassedLands(s.bulk, s.noiseMarks, s.noiseTable, s.h.faultyNoise, s.broker.moved, r);
  }

  lemma FinishNoiseKept(c: Config, s: State, ok: bool)
    requires Structure(s) && BulkOk(s) && GateOk(c, s) && NoiseSettled(s) && CanStep(c, s, Finish(ok))
    ensures NoiseSettled(DoFinish(c, s, ok))
  {
    var s' := DoFinish(c, s, ok);
    forall r | B.Sent(s'.bulk, r) && r.key !in s'.broker.moved
      ensures NoiseDone(s', r) || StillDiverted(s', r)
    {
      if DivertedInHand(s, r) {
        if GatesOpen(s.processor) {
          OpenBarrierSettles(c, s, r);
        } else {
          DivertedInSource(s.processor.env, r);
        }
      }
    }
  }

  /** Steps that send nothing to the bulk lane's barrier, and lose no trace of what it was sent. */
  predicate SameDiversion(s: State, s': State) {
    && s'.recordQueue == s.recordQueue && s'.consumer == s.consumer && s.broker.moved <= s'.broker.moved
    && (!s.processor.Waiting? ==> !s'.processor.Waiting? && s'.processor.env == s.processor.env)
    && s.noiseTable <= s'.noiseTable && s.h.faultyNoise <= s'.h.faultyNoise && s.h.declined <= s'.h.declined
  }

  lemma NoiseStays(s: State, s': State)
    requires NoiseSettled(s) && SameDiversion(s, s') && forall r | B.Sent(s'.bulk, r) :: B.Sent(s.bulk, r)
    ensures NoiseSettled(s')
  {
    forall r | B.Sent(s'.bulk, r) && r.key !in s'.broker.moved
      ensures NoiseDone(s', r) || StillDiverted(s', r)
    {
      assert NoiseDone(s, r) || StillDiverted(s, r);
    }
  }

  lemma HandleNoiseKept(c: Config, s: State, o: Outcome)
    requires NoiseSettled(s) && CanStep(c, s, Handle(o))
    ensures NoiseSettled(DoHandle(c, s, o))
  {
    NoiseStays(s, DoHandle(c, s, o));
  }

  lemma WriteNoiseKept(c: Config, s: State, lane: LaneName, move: W.LaneStep, dlq: bool)
    requires NoiseSettled(s) && CanStep(c, s, Write(lane, move, dlq))
    ensures NoiseSettled(DoWrite(c, s, lane, move, dlq))
  {
    WriteAccepts(c, s, lane, move, dlq);
    NoiseStays(s, DoWrite(c, s, lane, move, dlq));
  }

  lemma ConsumeNoiseKept(c: Config, s: State, batch: seq<Record>)
    requires NoiseSettled(s) && CanStep(c, s, Consume(batch))
    ensures NoiseSettled(Next(c, s, Consume(batch)))
  {
    L.FetchAllFrame(s.broker, Refs(batch));
    var s' := Next(c, s, Consume(batch));
    forall r | B.Sent(s'.bulk, r) && r.key !in s'.broker.moved
      ensures NoiseDone(s', r) || StillDiverted(s', r)
    {
      assert NoiseDone(s, r) || StillDiverted(s, r);
    }
  }

  lemma QuietNoiseKept(c: Config, s: State, step: Step)
    requires NoiseSettled(s) && CanStep(c, s, step)
    requires step.Append? || step.Assign? || step.Revoke? || step.Report? || step.Discard?
          || step.Flush? || step.PassNoise? || step.NoiseTimeout? || step.PassSignal? || step.SignalTimeout?
    ensures NoiseSettled(Next(c, s, step))
  {
    NoiseStays(s, Next(c, s, step));
  }

  lemma MoveNoiseKept(c: Config, s: State, step: Step)
    requires Structure(s) && BulkOk(s) && GateOk(c, s) && NoiseSettled(s) && CanStep(c, s, step)
    requires step.Consume? || step.SplitNext? || step.Send? || step.Drop? || step.Receive? || step.Finish? ||
             step.Crash?
    ensures NoiseSettled(Next(c, s, step))
  {
    match step
    case Consume(batch) => ConsumeNoiseKept(c, s, batch);
    case SplitNext => SplitNoiseKept(c, s);
    case Send => SendNoiseKept(c, s);
    case Drop => DropNoiseKept(c, s);
    case Receive => ReceiveNoiseKept(c, s);
    case Finish(ok) => FinishNoiseKept(c, s, ok);
    case Crash =>
  }

  lemma NoiseKept(c: Config, s: State, step: Step)
    requires Structure(s) && BulkOk(s) && GateOk(c, s) && NoiseSettled(s) && CanStep(c, s, step)
    ensures NoiseSettled(Next(c, s, step))
  {
    if step.Handle? {
      HandleNoiseKept(c, s, step.o);
    } else if step.Write? {
      WriteNoiseKept(c, s, step.lane, step.move, step.dlq);
    } else if step.Consume? || step.SplitNext? || step.Send? || step.Drop? || step.Receive? || step.Finish? ||
        step.Crash? {
      MoveNoiseKept(c, s, step);
    } else {
      QuietNoiseKept(c, s, step);
    }
  }
}
