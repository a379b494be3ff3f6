/** What the published offsets, which `on_revoke` commits, say about the committed ones. */
module RevokeInvariant {
  import opened Offsets
  import opened Sequences
  import opened Split
  import opened Batch
  import opened Protocol
  import opened Invariant
  import opened OrderInvariant
  import opened CommitInvariant
  import L = Ledger
  import W = WriterLane

  /** What the current batch has handled is published. */
  ghost predicate TurnsPublished(s: State) {
    !s.processor.Waiting? ==>
      forall t | t in s.processor.turns && Reached(t) :: t.record.ref.offset <= At(s.processed, t.record.ref.key)
  }

  /** A committed offset lies further on than the published one only if its last record was diverted,
      for diverted records are committed and not published. */
  ghost predicate CommitsPublished(s: State) {
    forall k | k in s.processed && k in s.broker.committed && k !in s.broker.moved ::
      s.broker.committed[k] <= s.processed[k] + 1 || Ref(k, s.broker.committed[k] - 1) in s.h.diverted
  }

  ghost predicate PublishedOk(s: State) {
    TurnsPublished(s) && CommitsPublished(s)
  }

  lemma BumpRaises(m: Marks, r: Ref, k: Key)
    ensures At(m, k) <= At(Bump(m, r), k) && r.offset <= At(Bump(m, r), r.key)
    ensures k != r.key ==> At(Bump(m, r), k) == At(m, k)
    ensures k == r.key ==> At(Bump(m, r), k) == At(m, k) || At(Bump(m, r), k) == r.offset
  {
  }

  lemma HandleTurnsPublished(c: Config, s: State, o: Outcome)
    requires TurnsPublished(s) && CanStep(c, s, Handle(o))
    ensures TurnsPublished(DoHandle(c, s, o))
  {
    HandleFrame(c, s, o);
    var p, s' := s.processor, DoHandle(c, s, o);
    var turn := Turn(Residual(p.env)[|p.turns|], s.revoked, o);
    forall t | t in s'.processor.turns && Reached(t)
      ensures t.record.ref.offset <= At(s'.processed, t.record.ref.key)
    {
      if Reached(turn) {
        BumpRaises(s.processed, turn.record.ref, t.record.ref.key);
      }
    }
  }

  lemma HandleDivertsNothing(c: Config, s: State, o: Outcome)
    requires CanStep(c, s, Handle(o))
    ensures DoHandle(c, s, o).h.diverted == s.h.diverted
  {
  }

  /** Raising the published offset of a partition to or past its committed one keeps the relation. */
  lemma RaisePublishes(s: State, s': State, r: Ref)
    requires CommitsPublished(s) && s'.broker == s.broker && s'.h.diverted == s.h.diverted
    requires s'.processed == Bump(s.processed, r)
    requires r.key in s.broker.committed && r.key !in s.broker.moved ==> s.broker.committed[r.key] <= r.offset
    ensures CommitsPublished(s')
  {
    forall k | k in s'.processed && k in s'.broker.committed && k !in s'.broker.moved
      ensures s'.broker.committed[k] <= s'.processed[k] + 1 || Ref(k, s'.broker.committed[k] - 1) in s'.h.diverted
    {
      BumpRaises(s.processed, r, k);
    }
  }

  lemma FlowIsUncommitted(s: State, r: Ref)
    requires L.Shape(s.broker, Flow(s)) && r in HandFlow(s.processor)
    ensures r.key in s.broker.committed && r.key !in s.broker.moved ==> s.broker.committed[r.key] <= r.offset
  {
    assert r in Flow(s);
  }

  lemma HandleCommitsPublished(c: Config, s: State, o: Outcome)
    requires Structure(s) && L.Shape(s.broker, Flow(s)) && CommitsPublished(s) && CanStep(c, s, Handle(o))
    ensures CommitsPublished(DoHandle(c, s, o))
  {
    HandleFrame(c, s, o);
    HandleDivertsNothing(c, s, o);
    var p := s.processor;
    var turn := Turn(Residual(p.env)[|p.turns|], s.revoked, o);
    if Reached(turn) {
      HeadInFlow(s);
      FlowIsUncommitted(s, turn.record.ref);
      RaisePublishes(s, DoHandle(c, s, o), turn.record.ref);
    }
  }

  /** The last record of each partition of a finished batch was handled or diverted. */
  lemma VectorIsPublished(c: Config, s: State, k: Key)
    requires Structure(s) && DivertedOk(s) && TurnsPublished(s) && s.processor.Gating?
    requires k in Vector(c, s.processor) && k in s.processed
    ensures Vector(c, s.processor)[k] <= s.processed[k] + 1 || Ref(k, Vector(c, s.processor)[k] - 1) in s.h.diverted
  {
    var p := s.processor;
    var handled, diverted := HandledRefs(p.turns), Refs(Pick(p.env.source, p.env.flags, true));
    TallyMaxima(p.turns, c.strict);
    VectorMeaning(handled, diverted, k);
    var r := Ref(k, Vector(c, p)[k] - 1);
    if r in handled {
      HandledRefsMember(p.turns, r);
    } else {
      RefsMember(Pick(p.env.source, p.env.flags, true), r);
      var x :| x in Pick(p.env.source, p.env.flags, true) && x.Message? && x.ref == r;
      PickMember(p.env.source, p.env.flags, true, x);
    }
  }

  lemma FinishDivertsNothing(c: Config, s: State, ok: bool)
    requires CanStep(c, s, Finish(ok))
    ensures DoFinish(c, s, ok).h.diverted == s.h.diverted && DoFinish(c, s, ok).processor.Waiting?
  {
  }

  lemma FinishPublished(c: Config, s: State, ok: bool)
    requires Structure(s) && DivertedOk(s) && PublishedOk(s) && CanStep(c, s, Finish(ok))
    ensures PublishedOk(DoFinish(c, s, ok))
  {
    var s' := DoFinish(c, s, ok);
    FinishFrame(c, s, ok);
    FinishBroker(c, s, ok);
    FinishDivertsNothing(c, s, ok);
    forall k | k in s'.processed && k in s'.broker.committed && k !in s'.broker.moved
      ensures s'.broker.committed[k] <= s'.processed[k] + 1 || Ref(k, s'.broker.committed[k] - 1) in s'.h.diverted
    {
      if k in Committed(c, s.processor, ok) {
        VectorIsPublished(c, s, k);
      }
    }
  }

  lemma PublishedStays(s: State, s': State)
    requires PublishedOk(s) && s'.processed == s.processed && s.broker.moved <= s'.broker.moved &&
             s.h.diverted <= s'.h.diverted
    requires forall k | k !in s'.broker.moved :: At(s'.broker.committed, k) == At(s.broker.committed, k)
    requires !s'.processor.Waiting? ==>
      s'.processor.turns == [] || (!s.processor.Waiting? && s'.processor.turns == s.processor.turns)
    ensures PublishedOk(s')
  {
    forall k | k in s'.processed && k in s'.broker.committed && k !in s'.broker.moved
      ensures s'.broker.committed[k] <= s'.processed[k] + 1 || Ref(k, s'.broker.committed[k] - 1) in s'.h.diverted
    {
      assert At(s'.broker.committed, k) == At(s.broker.committed, k);
    }
  }

  lemma ConsumePublished(c: Config, s: State, batch: seq<Record>)
    requires PublishedOk(s) && CanStep(c, s, Consume(batch))
    ensures PublishedOk(Next(c, s, Consume(batch)))
  {
    L.FetchAllFrame(s.broker, Refs(batch));
    PublishedStays(s, Next(c, s, Consume(batch)));
  }

  lemma WritePublished(c: Config, s: State, lane: LaneName, move: W.LaneStep, dlq: bool)
    requires PublishedOk(s) && CanStep(c, s, Write(lane, move, dlq))
    ensures PublishedOk(DoWrite(c, s, lane, move, dlq))
  {
    PublishedStays(s, DoWrite(c, s, lane, move, dlq));
  }

  predicate PublishesNothing(step: Step) {
    !step.Handle? && !step.Finish? && !step.Crash? && !step.Consume? && !step.Write?
  }

  lemma QuietPublishedFrame(c: Config, s: State, step: Step)
    requires CanStep(c, s, step) && PublishesNothing(step)
    ensures var s' := Next(c, s, step);
            && s'.processed == s.processed && s.broker.moved <= s'.broker.moved && s.h.diverted <= s'.h.diverted
            && (!s'.processor.Waiting? ==>
                  s'.processor.turns == [] || (!s.processor.Waiting? && s'.processor.turns == s.processor.turns))
  {
  }

  lemma QuietCommits(c: Config, s: State, step: Step)
    requires CanStep(c, s, step) && PublishesNothing(step)
    ensures forall k | k !in Next(c, s, step).broker.moved ::
            At(Next(c, s, step).broker.committed, k) == At(s.broker.committed, k)
  {
    if !TouchesBroker(step) {
      BrokerUntouched(c, s, step);
    }
  }

  lemma QuietPublished(c: Config, s: State, step: Step)
    requires PublishedOk(s) && CanStep(c, s, step) && PublishesNothing(step)
    ensures PublishedOk(Next(c, s, step))
  {
    QuietPublishedFrame(c, s, step);
    QuietCommits(c, s, step);
    PublishedStays(s, Next(c, s, step));
  }

  lemma PublishedKept(c: Config, s: State, step: Step)
    requires Structure(s) && L.Shape(s.broker, Flow(s)) && DivertedOk(s) && PublishedOk(s) && CanStep(c, s, step)
    ensures PublishedOk(Next(c, s, step))
  {
    if step.Handle? {
      HandleTurnsPublished(c, s, step.o);
      HandleCommitsPublished(c, s, step.o);
    } else if step.Finish? {
      FinishPublished(c, s, step.ok);
    } else if step.Consume? {
      ConsumePublished(c, s, step.batch);
    } else if step.Write? {
      WritePublished(c, s, step.lane, step.move, step.dlq);
    } else if !step.Crash? {
      QuietPublished(c, s, step);
    }
  }
}
