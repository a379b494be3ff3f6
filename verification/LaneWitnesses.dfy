/** Longer runs: a mark is a maximum, so it can stand above an event that has not been written. */
module LaneWitnesses {
  import opened Offsets
  import opened Sequences
  import opened Split
  import opened Batch
  import opened Protocol
  import opened Theorems
  import opened SignalInvariant
  import opened Witnesses
  import L = Ledger
  import W = WriterLane
  import D = Delivery
  import Rebalance

  // ---------------------------------------------------------------------------------------
  // A batch of two records
  // ---------------------------------------------------------------------------------------

  lemma TwoRecords(a: Record, b: Record, flag: bool)
    requires a.Message? && b.Message?
    ensures Refs([a, b]) == [a.ref, b.ref]
    ensures Pick([a, b], [flag, flag], flag) == [a, b] && Pick([a, b], [flag, flag], !flag) == []
  {
    OneRecord(a, flag);
    assert [a, b][..1] == [a] && [flag, flag][..1] == [flag];
    assert Refs([a, b]) == Refs([a]) + [b.ref];
  }

  lemma TwoBumps(r0: Ref, r1: Ref)
    requires r0.key == r1.key && r0.offset < r1.offset
    ensures BumpAll(map[], [r0, r1]) == map[r1.key := r1.offset]
    ensures BumpAll(map[], [r1]) == map[r1.key := r1.offset]
  {
    assert [r0, r1][..1] == [r0] && [r0][..0] == [] && [r1][..0] == [];
    assert BumpAll(map[], [r0]) == map[r0.key := r0.offset];
  }

  lemma FetchesTwo(c: Config, s: State, a: Record, b: Record)
    requires s.consumer.Idle? && a.Message? && b.Message?
    requires L.CanFetch(s.broker, a.ref) && L.CanFetch(L.Fetch(s.broker, a.ref), b.ref)
    ensures Reaches(c, s, s.(broker := L.Fetch(L.Fetch(s.broker, a.ref), b.ref), consumer := Splitting([a, b], [])))
  {
    TwoRecords(a, b, false);
    var b1 := L.Fetch(s.broker, a.ref);
    assert [a.ref, b.ref][1..] == [b.ref] && [b.ref][1..] == [];
    assert L.CanFetchAll(L.Fetch(b1, b.ref), []) && L.FetchAll(L.Fetch(b1, b.ref), []) == L.Fetch(b1, b.ref);
    assert L.CanFetchAll(b1, [b.ref]);
    assert L.FetchAll(b1, [b.ref]) == L.Fetch(b1, b.ref);
    Does(c, s, Consume([a, b]), s.(broker := L.Fetch(b1, b.ref), consumer := Splitting([a, b], [])));
  }

  /** The batch goes through the empty record queue to the processor. */
  lemma BatchArrives(c: Config, s: State, e: Envelope)
    requires s.consumer == Splitting(e.source, e.flags) && |e.source| == |e.flags|
    requires s.recordQueue == [] && s.processor.Waiting? && c.records > 0
    ensures Reaches(c, s, s.(consumer := Idle, processor := Handling(e, [], s.wire.errors, s.wire.next)))
  {
    var s1 := s.(consumer := Idle, recordQueue := [e]);
    var s2 := s.(consumer := Idle, processor := Handling(e, [], s.wire.errors, s.wire.next));
    assert [] + [e] == [e] && [e][1..] == [];
    Does(c, s, Send, s1);
    Does(c, s1, Receive, s2);
    Then(c, s, s1, s2);
  }

  // ---------------------------------------------------------------------------------------
  // A failed batch is requeued at the tail
  // ---------------------------------------------------------------------------------------

  const NOISE1: Record := Message(R1, NOISE.value)

  /** The next record is diverted. */
  lemma DivertsNextOne(c: Config, s: State, flags: seq<bool>, r: Record, t: State)
    requires s.consumer.Splitting? && s.consumer.flags == flags && |flags| < |s.consumer.source| &&
             s.consumer.source[|flags|] == r
    requires r.Message? && c.shortCircuit && IsNoise(c.noise, r) && |s.bulk.queue| < c.bulkRoom
    requires t == s.(consumer := Splitting(s.consumer.source, flags + [true]),
                     h := s.h.(diverted := s.h.diverted + {r.ref}),
                     bulk := s.bulk.(queue := s.bulk.queue + [W.Item(r.ref, true, 0, 0)],
                                     accepted := s.bulk.accepted + multiset{W.Cargo(r.ref, true)}))
    ensures Reaches(c, s, t)
  {
    Does(c, s, SplitNext, t);
  }

  /** Both records are diverted. */
  lemma DivertsBoth(c: Config, s: State, a: Record, b: Record, t: State)
    requires s.consumer == Splitting([a, b], []) && c.shortCircuit && IsNoise(c.noise, a) && IsNoise(c.noise, b)
    requires s.bulk.queue == [] && s.h.diverted == {} && c.bulkRoom > 1
    requires t == s.(consumer := Splitting([a, b], [true, true]), h := s.h.(diverted := {a.ref, b.ref}),
                     bulk := s.bulk.(queue := [W.Item(a.ref, true, 0, 0), W.Item(b.ref, true, 0, 0)],
                                     accepted := s.bulk.accepted + multiset{W.Cargo(a.ref, true)} +
                                         multiset{W.Cargo(b.ref, true)}))
    ensures Reaches(c, s, t)
  {
    var s1 := s.(consumer := Splitting([a, b], [true]), h := s.h.(diverted := {a.ref}),
                 bulk := s.bulk.(queue := [W.Item(a.ref, true, 0, 0)],
                                 accepted := s.bulk.accepted + multiset{W.Cargo(a.ref, true)}));
    assert [] + [true] == [true] && [true] + [true] == [true, true];
    assert {} + {a.ref} == {a.ref} && {a.ref} + {b.ref} == {a.ref, b.ref};
    DivertsNextOne(c, s, [], a, s1);
    DivertsNextOne(c, s1, [true], b, t);
    Then(c, s, s1, t);
  }

  /** One step of the bulk writer that neither inserts, publishes nor fails. */
  lemma BulkMoves(c: Config, s: State, move: W.LaneStep)
    requires (move.Take? || move.Disperse?) && W.CanStep(s.bulk, c.bulkRoom, move)
    requires !Exhausts(s.bulk, c.bulkRoom, move)
    ensures Reaches(c, s, s.(bulk := W.Step(s.bulk, c.bulkRoom, move)))
  {
    Does(c, s, Write(Bulk, move, false), s.(bulk := W.Step(s.bulk, c.bulkRoom, move)));
  }

  /** The bulk writer's batch of one item fails, and the item is requeued. */
  lemma FailsAndRequeues(c: Config, s: State, x: W.Item, y: W.Item, t: State)
    requires s.bulk.queue == [y] && s.bulk.batch == [x] && s.bulk.phase.Filling? && c.bulkRoom > 1
    requires x.retries == 0 && x.failures == 0 && x.acks
    requires t == s.(bulk := s.bulk.(queue := [y, x.(retries := 1, failures := 1)], batch := []),
                     h := s.h.(faultyNoise := s.h.faultyNoise + {x.ref}))
    ensures Reaches(c, s, t)
  {
    var x' := x.(failures := 1);
    var s1 := s.(bulk := s.bulk.(batch := [x'], phase := W.Failing), h := t.h);
    assert W.Blame([x]) == [x'];
    assert Acked([x]) == {x.ref};
    Does(c, s, Write(Bulk, W.Fail, false), s1);
    assert W.Step(s1.bulk, c.bulkRoom, W.Disperse) == t.bulk;
    BulkMoves(c, s1, W.Disperse);
    Then(c, s, s1, t);
  }

  /** The bulk writer takes the first of two items, fails, and requeues it behind the second. */
  lemma FailsFirst(c: Config, s: State, x: W.Item, y: W.Item, t: State)
    requires s.bulk.queue == [x, y] && s.bulk.batch == [] && s.bulk.phase.Filling? && c.bulkRoom > 1
    requires x.retries == 0 && x.failures == 0 && x.acks
    requires t == s.(bulk := s.bulk.(queue := [y, x.(retries := 1, failures := 1)]),
                     h := s.h.(faultyNoise := s.h.faultyNoise + {x.ref}))
    ensures Reaches(c, s, t)
  {
    var s1 := s.(bulk := s.bulk.(queue := [y], batch := [x]));
    assert W.Step(s.bulk, c.bulkRoom, W.Take) == s1.bulk;
    BulkMoves(c, s, W.Take);
    FailsAndRequeues(c, s1, x, y, t);
    Then(c, s, s1, t);
  }

  /** The bulk writer inserts and publishes the head of its queue. */
  lemma WritesHead(c: Config, s: State, x: W.Item, rest: seq<W.Item>, t: State)
    requires s.bulk.queue == [x] + rest && s.bulk.batch == [] && s.bulk.phase.Filling? && s.noiseMarks == map[] &&
             x.acks
    requires t == s.(bulk := s.bulk.(queue := rest, persisted := s.bulk.persisted + [x]),
                     noiseTable := s.noiseTable + {x.ref}, noiseMarks := map[x.ref.key := x.ref.offset])
    ensures Reaches(c, s, t)
  {
    var s1 := s.(bulk := s.bulk.(queue := rest, batch := [x]));
    assert W.Step(s.bulk, c.bulkRoom, W.Take) == s1.bulk;
    BulkMoves(c, s, W.Take);
    var s2 := s1.(bulk := s1.bulk.(phase := W.Inserted, persisted := s.bulk.persisted + [x]),
                  noiseTable := s.noiseTable + {x.ref});
    assert Acked([x]) == {x.ref};
    Does(c, s1, Write(Bulk, W.Insert, false), s2);
    Then(c, s, s1, s2);
    HeadIsPublished(c, s2, x, t);
    Then(c, s, s2, t);
  }

  lemma HeadIsPublished(c: Config, s: State, x: W.Item, t: State)
    requires s.bulk.batch == [x] && s.bulk.phase.Inserted? && s.noiseMarks == map[] && x.acks
    requires t == s.(bulk := s.bulk.(batch := [], phase := W.Filling), noiseMarks := map[x.ref.key := x.ref.offset])
    ensures Reaches(c, s, t)
  {
    assert [x][..0] == [] && [x.ref][..0] == [];
    assert W.AckRefs([x]) == [x.ref];
    assert BumpAll(map[], [x.ref]) == map[x.ref.key := x.ref.offset];
    Does(c, s, Write(Bulk, W.Publish, false), t);
  }

  /** A batch that holds nothing but diverted records passes its gates once the mark has reached the
      second of them. */
  lemma DivertedCommits(c: Config, s: State, a: Record, b: Record, t: State)
    requires a.Message? && b.Message? && a.ref.key == b.ref.key && a.ref.offset < b.ref.offset && !c.strict
    requires s.processor == Handling(Envelope([a, b], [true, true]), [], s.wire.errors, s.wire.next)
    requires s.wire.outstanding == {} && s.noiseMarks == map[b.ref.key := b.ref.offset]
    requires t == s.(processor := Waiting, broker := L.Commit(s.broker, map[b.ref.key := b.ref.offset + 1]))
    ensures Reaches(c, s, t)
  {
    TwoRecords(a, b, true);
    TwoBumps(a.ref, b.ref);
    ClosesBatch(c, s, Envelope([a, b], [true, true]), [], s.wire.next, map[b.ref.key := b.ref.offset + 1], t);
  }

  /** Both records are fetched, diverted and handed to the processor. */
  function BothDiverted(): State {
    var s := Assigned();
    s.(broker := L.Fetch(L.Fetch(s.broker, R0), R1),
       bulk := W.EMPTY.(queue := [W.Item(R0, true, 0, 0), W.Item(R1, true, 0, 0)],
                        accepted := multiset{} + multiset{W.Cargo(R0, true)} + multiset{W.Cargo(R1, true)}),
       processor := Handling(Envelope([NOISE, NOISE1], [true, true]), [], 0, 0),
       h := NOTHING.(diverted := {R0, R1}))
  }

  lemma DivertsTwo()
    ensures Reaches(CONFIG, Assigned(), BothDiverted())
  {
    NoiseIsNoise();
    var s, t := Assigned(), BothDiverted();
    var s1 := s.(broker := t.broker, consumer := Splitting([NOISE, NOISE1], []));
    FetchesTwo(CONFIG, s, NOISE, NOISE1);
    var s2 := t.(consumer := Splitting([NOISE, NOISE1], [true, true]), processor := Waiting);
    DivertsBoth(CONFIG, s1, NOISE, NOISE1, s2);
    Then(CONFIG, s, s1, s2);
    BatchArrives(CONFIG, s2, Envelope([NOISE, NOISE1], [true, true]));
    Then(CONFIG, s, s2, t);
  }

  /** The first record is back in the queue, behind the second. */
  function FirstRequeued(): State {
    var s := BothDiverted();
    s.(bulk := s.bulk.(queue := [W.Item(R1, true, 0, 0), W.Item(R0, true, 1, 1)]), h := s.h.(faultyNoise := {R0}))
  }

  /** The second record is in the table. */
  function SecondWritten(): State {
    var s := FirstRequeued();
    s.(bulk := s.bulk.(queue := [W.Item(R0, true, 1, 1)], persisted := [W.Item(R1, true, 0, 0)]),
       noiseTable := {R1}, noiseMarks := map[K := 1])
  }

  lemma RequeuesFirst()
    ensures Reaches(CONFIG, BothDiverted(), FirstRequeued())
  {
    FailsFirst(CONFIG, BothDiverted(), W.Item(R0, true, 0, 0), W.Item(R1, true, 0, 0), FirstRequeued());
  }

  lemma WritesSecond()
    ensures Reaches(CONFIG, FirstRequeued(), SecondWritten())
  {
    WritesHead(CONFIG, FirstRequeued(), W.Item(R1, true, 0, 0), [W.Item(R0, true, 1, 1)], SecondWritten());
  }

  function PassedOver(): State {
    SecondWritten().(processor := Waiting, broker := L.Commit(SecondWritten().broker, map[K := 2]))
  }

  lemma PassedOverIsReached()
    ensures Init(Start()) && Reaches(CONFIG, Start(), PassedOver())
  {
    Assigns();
    DivertsTwo();
    Then(CONFIG, Start(), Assigned(), BothDiverted());
    RequeuesFirst();
    Then(CONFIG, Start(), BothDiverted(), FirstRequeued());
    WritesSecond();
    Then(CONFIG, Start(), FirstRequeued(), SecondWritten());
    DivertedCommits(CONFIG, SecondWritten(), NOISE, NOISE1, PassedOver());
    Then(CONFIG, Start(), SecondWritten(), PassedOver());
  }

  /** The first record waits for its retry, and the mark stands at the second. */
  predicate WaitsBehindMark(s: State) {
    s.bulk.queue == [W.Item(R0, true, 1, 1)] && At(s.noiseMarks, K) == R1.offset
  }

  lemma PassedOverIsExposed()
    ensures Exposed(PassedOver(), R0) && OnlyFailed(PassedOver().h, R0) && WaitsBehindMark(PassedOver())
  {
  }

  /** A mark passes an offset whose own write failed and waits for its retry, and so does the
      commit. */
  lemma RequeuedIsPassed()
    ensures exists s :: Reachable(CONFIG, s) && Exposed(s, R0) && OnlyFailed(s.h, R0) && WaitsBehindMark(s)
  {
    PassedOverIsReached();
    EndsARun(CONFIG, Start(), PassedOver());
    PassedOverIsExposed();
  }

  // ---------------------------------------------------------------------------------------
  // A revoke moves a partition backwards
  // ---------------------------------------------------------------------------------------

  /** One record has been handled and committed, and the next can be fetched. */
  ghost predicate OneCommitted(s: State) {
    && Resting(s) && s.wire.outstanding == {} && s.revoked == {} && s.bulk == W.EMPTY && s.noiseMarks == map[]
    && s.processed == map[K := 0] && s.broker.committed == map[K := 1] && K !in s.broker.moved &&
       L.CanFetch(s.broker, R1)
  }

  lemma PilledWire(s: State)
    requires s.wire == D.SILENT
    ensures Pilled(CONFIG, s, PLAIN).wire == D.Report(D.Accept(D.SILENT, 0, 1), 0, true)
  {
  }

  lemma PillAnswered()
    ensures D.Report(D.Accept(D.SILENT, 0, 1), 0, true).outstanding == {}
  {
    assert D.Range(0, 1) == {0};
  }

  lemma PilledThreads(s: State)
    requires Resting(s) && s.bulk == W.EMPTY && s.noiseMarks == map[] && s.revoked == {} && s.processed == map[]
    ensures var t := Pilled(CONFIG, s, PLAIN);
            && Resting(t) && t.bulk == W.EMPTY && t.noiseMarks == map[] && t.revoked == {} && t.processed == map[K := 0]
  {
  }

  lemma PilledPosition(s: State)
    requires s.broker == Assigned().broker
    ensures var t := Pilled(CONFIG, s, PLAIN);
            t.broker.committed == map[K := 1] && K !in t.broker.moved && L.CanFetch(t.broker, R1)
  {
  }

  lemma CommitsHandled() returns (s: State)
    ensures Reachable(CONFIG, s) && OneCommitted(s)
  {
    NoiseIsNoise();
    Assigns();
    s := Pilled(CONFIG, Assigned(), PLAIN);
    CommitsNext(CONFIG, Assigned(), PLAIN);
    Then(CONFIG, Start(), Assigned(), s);
    EndsARun(CONFIG, Start(), s);
    PilledThreads(Assigned());
    PilledWire(Assigned());
    PillAnswered();
    PilledPosition(Assigned());
  }

  /** The second record waits in the bulk queue, its batch is with the processor. */
  ghost predicate OneDiverted(s: State) {
    && s.processor == Handling(Envelope([NOISE1], [true]), [], s.wire.errors, s.wire.next)
    && s.wire.outstanding == {} && s.noiseMarks == map[] && s.processed == map[K := 0]
    && s.bulk.queue == [W.Item(R1, true, 0, 0)] && s.bulk.batch == [] && s.bulk.phase.Filling?
    && s.broker.committed == map[K := 1] && K !in s.broker.moved
  }

  /** The bulk queue has taken the second record. */
  ghost predicate OneSplit(s: State) {
    && s.consumer == Splitting([NOISE1], [true]) && s.recordQueue == [] && s.processor.Waiting?
    && s.wire.outstanding == {} && s.noiseMarks == map[] && s.processed == map[K := 0]
    && s.bulk.queue == [W.Item(R1, true, 0, 0)] && s.bulk.batch == [] && s.bulk.phase.Filling?
    && s.broker.committed == map[K := 1] && K !in s.broker.moved
  }

  /** The second record, put into the bulk queue by the consumer. */
  ghost function Diverting(s: State): State
    requires OneCommitted(s)
  {
    s.(broker := L.Fetch(s.broker, R1), consumer := Splitting([NOISE1], [true]),
       bulk := W.Step(s.bulk, CONFIG.bulkRoom, W.Put(R1, true)), h := s.h.(diverted := s.h.diverted + {R1}))
  }

  lemma SecondIsSplit(s: State)
    requires OneCommitted(s)
    ensures OneSplit(Diverting(s))
  {
  }

  lemma SplitsSecond(s: State) returns (t: State)
    requires Reachable(CONFIG, s) && OneCommitted(s)
    ensures Reachable(CONFIG, t) && OneSplit(t)
  {
    t := Diverting(s);
    SecondIsSplit(s);
    NoiseIsNoise();
    Witnesses.DivertsOne(CONFIG, s, NOISE1, t);
    ReachableGoesOn(CONFIG, s, t);
  }

  lemma DivertsSecond(s: State) returns (t: State)
    requires Reachable(CONFIG, s) && OneSplit(s)
    ensures Reachable(CONFIG, t) && OneDiverted(t)
  {
    t := s.(consumer := Idle, processor := Holding(s, NOISE1, true));
    Arrives(CONFIG, s, NOISE1, true);
    ReachableGoesOn(CONFIG, s, t);
  }

  lemma WritesDiverted(s: State) returns (t: State)
    requires Reachable(CONFIG, s) && OneDiverted(s)
    ensures Reachable(CONFIG, t) && t.noiseMarks == map[K := 1] && t.processor == s.processor
    ensures t.wire == s.wire && t.processed == s.processed && t.broker == s.broker
  {
    var x := W.Item(R1, true, 0, 0);
    t := s.(bulk := s.bulk.(queue := [], persisted := s.bulk.persisted + [x]),
            noiseTable := s.noiseTable + {R1}, noiseMarks := map[K := 1]);
    assert [x] + [] == [x];
    WritesHead(CONFIG, s, x, [], t);
    ReachableGoesOn(CONFIG, s, t);
  }

  lemma DivertedVector()
    ensures var env := Envelope([NOISE1], [true]);
            && Residual(env) == [] && Diverts(env) == map[K := 1]
            && CommitVector(TallyAll([], false).maxOffsets, Diverts(env)) == map[K := 2]
  {
    DivertsIt(NOISE1);
  }

  lemma CommitsDiverted(s: State) returns (t: State)
    requires Reachable(CONFIG, s) && s.noiseMarks == map[K := 1] && s.wire.outstanding == {}
    requires s.processor == Handling(Envelope([NOISE1], [true]), [], s.wire.errors, s.wire.next)
    ensures Reachable(CONFIG, t) && t.broker == L.Commit(s.broker, map[K := 2]) && t.processed == s.processed
  {
    t := s.(processor := Waiting, broker := L.Commit(s.broker, map[K := 2]));
    DivertedVector();
    ClosesBatch(CONFIG, s, Envelope([NOISE1], [true]), [], s.wire.next, map[K := 2], t);
    ReachableGoesOn(CONFIG, s, t);
  }

  /** The step moves the partition from offset 2 back to 1. */
  ghost predicate MovesBack(s: State, step: Step) {
    && CanStep(CONFIG, s, step) && K !in s.broker.moved
    && At(s.broker.committed, K) == 2 && At(Next(CONFIG, s, step).broker.committed, K) == 1
  }

  lemma RevokingMovesBack(s: State)
    requires s.broker.committed == map[K := 2] && s.processed == map[K := 0] && K !in s.broker.moved
    ensures MovesBack(s, Revoke({K}, true))
  {
    assert Rebalance.RevokeVector(s.processed, {K}) == map[K := 1];
  }

  lemma CommitsBoth() returns (t: State)
    ensures Reachable(CONFIG, t) && t.broker.committed == map[K := 2] && t.processed == map[K := 0] &&
            K !in t.broker.moved
  {
    var s := CommitsHandled();
    s := SplitsSecond(s);
    s := DivertsSecond(s);
    s := WritesDiverted(s);
    t := CommitsDiverted(s);
  }

  /** Within one ownership a revoke can move a partition backwards: a handled record and then a
      diverted one have been committed, and only the handled one is published. */
  lemma RevokeMovesBack()
    ensures exists s :: Reachable(CONFIG, s) && MovesBack(s, Revoke({K}, true))
  {
    var s := CommitsBoth();
    RevokingMovesBack(s);
  }

  // ---------------------------------------------------------------------------------------
  // The two signal lanes share their marks
  // ---------------------------------------------------------------------------------------

  const STRICT: Config := Config(true, false, {}, 1, 100, 500, 5000, false)

  /** A handling whose produces were all given up, routed to a lane. */
  function RoutedTo(lane: LaneName): Outcome {
    Good(Sends(0, 3, 0), Routed(lane, true))
  }

  lemma SplitsBoth(c: Config, s: State, a: Record, b: Record)
    requires s.consumer == Splitting([a, b], []) && !c.shortCircuit
    ensures Reaches(c, s, s.(consumer := Splitting([a, b], [false, false])))
  {
    var s1 := s.(consumer := Splitting([a, b], [false]));
    var t := s.(consumer := Splitting([a, b], [false, false]));
    assert [] + [false] == [false] && [false] + [false] == [false, false];
    Does(c, s, SplitNext, s1);
    Does(c, s1, SplitNext, t);
    Then(c, s, s1, t);
  }

  const EVENT1: Record := Message(R1, EVENT.value)
  const PAIR: Envelope := Envelope([EVENT, EVENT1], [false, false])
  const TURN0: Turn := Turn(EVENT, {}, RoutedTo(Normal))
  const TURN1: Turn := Turn(EVENT1, {}, RoutedTo(Critical))

  lemma PairFacts()
    ensures Residual(PAIR) == [EVENT, EVENT1] && Diverts(PAIR) == map[]
    ensures TallyAll([TURN0], true).maxOffsets == map[K := 0] && TallyAll([TURN0], true).signal == map[K := 0]
    ensures TallyAll([TURN0, TURN1], true) == Tally(map[K := 1], map[K := 1], false, 0)
  {
    TwoRecords(EVENT, EVENT1, false);
    assert [TURN0][..0] == [] && [TURN0, TURN1][..1] == [TURN0];
    assert TallyAll([TURN0], true) == Tally(map[K := 0], map[K := 0], false, 0);
  }

  /** The processor holds both records. */
  function BothHeld(): State {
    var s := Assigned();
    s.(broker := L.Fetch(L.Fetch(s.broker, R0), R1), processor := Handling(PAIR, [], 0, 0))
  }

  lemma HoldsTwo(c: Config, s: State, a: Record, b: Record, t: State)
    requires s.consumer == Splitting([a, b], []) && !c.shortCircuit && s.recordQueue == [] && s.processor.Waiting? &&
             c.records > 0
    requires t == s.(consumer := Idle,
                     processor := Handling(Envelope([a, b], [false, false]), [], s.wire.errors, s.wire.next))
    ensures Reaches(c, s, t)
  {
    var s1 := s.(consumer := Splitting([a, b], [false, false]));
    SplitsBoth(c, s, a, b);
    BatchArrives(c, s1, Envelope([a, b], [false, false]));
    Then(c, s, s1, t);
  }

  lemma ReadsTwo(c: Config, s: State, a: Record, b: Record, t: State)
    requires Resting(s) && a.Message? && b.Message? && !c.shortCircuit && c.records > 0
    requires L.CanFetch(s.broker, a.ref) && L.CanFetch(L.Fetch(s.broker, a.ref), b.ref)
    requires t == s.(broker := L.Fetch(L.Fetch(s.broker, a.ref), b.ref),
                     processor := Handling(Envelope([a, b], [false, false]), [], s.wire.errors, s.wire.next))
    ensures Reaches(c, s, t)
  {
    var s1 := s.(broker := t.broker, consumer := Splitting([a, b], []));
    FetchesTwo(c, s, a, b);
    HoldsTwo(c, s1, a, b, t);
    Then(c, s, s1, t);
  }

  lemma AssignsStrict()
    ensures Init(Start()) && Reaches(STRICT, Start(), Assigned())
  {
    Does(STRICT, Start(), Assign(K), Assigned());
  }

  lemma BringsTwo()
    ensures Init(Start()) && Reaches(STRICT, Start(), BothHeld())
  {
    AssignsStrict();
    ReadsTwo(STRICT, Assigned(), EVENT, EVENT1, BothHeld());
    Then(STRICT, Start(), Assigned(), BothHeld());
  }

  /** The first record has gone to the normal lane. */
  function NormalSent(): State {
    BothHeld().(processor := Handling(PAIR, [TURN0], 0, 0), processed := map[K := 0],
                normal := W.EMPTY.(queue := [W.Item(R0, true, 0, 0)],
                                   accepted := multiset{} + multiset{W.Cargo(R0, true)}),
                h := NOTHING.(handled := {R0}, spoiled := {R0}, signals := {R0}))
  }

  /** The second record has gone to the critical lane. */
  function CriticalSent(): State {
    NormalSent().(processor := Handling(PAIR, [TURN0, TURN1], 0, 0), processed := map[K := 1],
                  critical := W.EMPTY.(queue := [W.Item(R1, true, 0, 0)],
                                       accepted := multiset{} + multiset{W.Cargo(R1, true)}),
                  h := NOTHING.(handled := {R0, R1}, spoiled := {R0, R1}, signals := {R0, R1}))
  }

  lemma NormalHistory()
    ensures HistoryAfter(STRICT, NOTHING, R0, D.SILENT, RoutedTo(Normal)) == NormalSent().h
    ensures Deliver(W.EMPTY, Normal, STRICT.normalRoom, R0, RoutedTo(Normal).route) == NormalSent().normal
    ensures Deliver(W.EMPTY, Critical, STRICT.criticalRoom, R0, RoutedTo(Normal).route) == W.EMPTY
    ensures Bump(map[], R0) == map[K := 0]
  {
    assert {} + {R0} == {R0};
  }

  /** The processor routes its next message to the normal lane; no produce is accepted. */
  lemma RoutesNormal(c: Config, s: State, turns: seq<Turn>, m: Record, t: State)
    requires s.processor == Handling(PAIR, turns, 0, 0) && |turns| < |Residual(PAIR)| &&
             Residual(PAIR)[|turns|] == m && m.Message? && m.value.Decoded?
    requires s.wire == D.SILENT && s.revoked == {} && |s.normal.queue| < c.normalRoom
    requires t == s.(processor := Handling(PAIR, turns + [Turn(m, {}, RoutedTo(Normal))], 0, 0),
                     processed := Bump(s.processed, m.ref),
                     normal := Deliver(s.normal, Normal, c.normalRoom, m.ref, RoutedTo(Normal).route),
                     h := HistoryAfter(c, s.h, m.ref, s.wire, RoutedTo(Normal)))
    ensures Reaches(c, s, t)
  {
    D.AcceptNothing(D.SILENT);
    Does(c, s, Handle(RoutedTo(Normal)), t);
  }

  lemma SendsNormal()
    ensures Reaches(STRICT, BothHeld(), NormalSent())
  {
    PairFacts();
    NormalHistory();
    assert [] + [TURN0] == [TURN0];
    RoutesNormal(STRICT, BothHeld(), [], EVENT, NormalSent());
  }

  lemma CriticalTakes()
    ensures Deliver(W.EMPTY, Critical, STRICT.criticalRoom, R1, RoutedTo(Critical).route) == CriticalSent().critical
    ensures Deliver(NormalSent().normal, Normal, STRICT.normalRoom, R1, RoutedTo(Critical).route) == NormalSent().normal
  {
  }

  lemma CriticalHistory()
    ensures HistoryAfter(STRICT, NormalSent().h, R1, D.SILENT, RoutedTo(Critical)) == CriticalSent().h
  {
    assert {R0} + {R1} == {R0, R1};
  }

  /** The processor routes its next message to the critical lane; no produce is accepted. */
  lemma RoutesCritical(c: Config, s: State, turns: seq<Turn>, m: Record, t: State)
    requires s.processor == Handling(PAIR, turns, 0, 0) && |turns| < |Residual(PAIR)| &&
             Residual(PAIR)[|turns|] == m && m.Message? && m.value.Decoded?
    requires s.wire == D.SILENT && s.revoked == {} && |s.critical.queue| < c.criticalRoom
    requires t == s.(processor := Handling(PAIR, turns + [Turn(m, {}, RoutedTo(Critical))], 0, 0),
                     processed := Bump(s.processed, m.ref),
                     critical := Deliver(s.critical, Critical, c.criticalRoom, m.ref, RoutedTo(Critical).route),
                     h := HistoryAfter(c, s.h, m.ref, s.wire, RoutedTo(Critical)))
    ensures Reaches(c, s, t)
  {
    D.AcceptNothing(D.SILENT);
    Does(c, s, Handle(RoutedTo(Critical)), t);
  }

  lemma SendsCritical()
    ensures Reaches(STRICT, NormalSent(), CriticalSent())
  {
    PairFacts();
    CriticalTakes();
    CriticalHistory();
    assert [TURN0] + [TURN1] == [TURN0, TURN1];
    assert Bump(map[K := 0], R1) == map[K := 1];
    RoutesCritical(STRICT, NormalSent(), [TURN0], EVENT1, CriticalSent());
  }

  /** The critical writer has inserted and published its one event. */
  function CriticalWritten(): State {
    CriticalSent().(critical := CriticalSent().critical.(queue := [], persisted := [W.Item(R1, true, 0, 0)]),
                    signalTable := {R1}, signalMarks := map[K := 1],
                    h := CriticalSent().h.(overtaken := {R0}))
  }

  /** The critical writer takes and inserts the one event of its queue. */
  lemma CriticalInserts(c: Config, s: State, x: W.Item, t: State)
    requires s.critical.queue == [x] && s.critical.batch == [] && s.critical.phase.Filling? && x.acks
    requires t == s.(critical := s.critical.(queue := [], batch := [x], phase := W.Inserted,
                                             persisted := s.critical.persisted + [x]),
                     signalTable := s.signalTable + {x.ref})
    ensures Reaches(c, s, t)
  {
    var s1 := s.(critical := s.critical.(queue := [], batch := [x]));
    assert [x][1..] == [] && [] + [x] == [x];
    Does(c, s, Write(Critical, W.Take, false), s1);
    assert Acked([x]) == {x.ref};
    Does(c, s1, Write(Critical, W.Insert, false), t);
    Then(c, s, s1, t);
  }

  lemma PublishesOne(c: Config, s: State, x: W.Item)
    requires s.critical.batch == [x] && s.critical.phase.Inserted? && s.signalMarks == map[] && x.acks && c.strict
    ensures var s' := DoWrite(c, s, Critical, W.Publish, false);
            && s'.signalMarks == map[x.ref.key := x.ref.offset]
            && s' == s.(critical := s.critical.(batch := [], phase := W.Filling), signalMarks := s'.signalMarks,
                        h := s.h.(overtaken := s.h.overtaken + OvertakenIn(s.normal, s'.signalMarks)))
  {
    assert [x][..0] == [] && [x.ref][..0] == [];
    assert W.AckRefs([x]) == [x.ref];
    assert BumpAll(map[], [x.ref]) == map[x.ref.key := x.ref.offset];
  }

  lemma CriticalPublishes(c: Config, s: State, x: W.Item, t: State)
    requires s.critical.batch == [x] && s.critical.phase.Inserted? && s.signalMarks == map[] && x.acks && c.strict
    requires t == DoWrite(c, s, Critical, W.Publish, false)
    ensures Reaches(c, s, t)
  {
    Does(c, s, Write(Critical, W.Publish, false), t);
  }

  /** The critical writer takes, inserts and publishes the one event of its queue. */
  lemma CriticalWrites(s: State, x: W.Item, t: State)
    requires s.critical.queue == [x] && s.critical.batch == [] && s.critical.phase.Filling? && x.acks &&
             s.signalMarks == map[]
    requires t == s.(critical := s.critical.(queue := [], persisted := s.critical.persisted + [x]),
                     signalTable := s.signalTable + {x.ref}, signalMarks := map[x.ref.key := x.ref.offset],
                     h := s.h.(overtaken := s.h.overtaken + OvertakenIn(s.normal, map[x.ref.key := x.ref.offset])))
    ensures Reaches(STRICT, s, t)
  {
    var s1 := s.(critical := s.critical.(queue := [], batch := [x], phase := W.Inserted,
                                         persisted := s.critical.persisted + [x]),
                 signalTable := s.signalTable + {x.ref});
    CriticalInserts(STRICT, s, x, s1);
    PublishesOne(STRICT, s1, x);
    CriticalPublishes(STRICT, s1, x, t);
    Then(STRICT, s, s1, t);
  }

  lemma FirstIsOvertaken(l: W.Lane)
    requires l.queue == [W.Item(R0, true, 0, 0)] && l.batch == []
    ensures OvertakenIn(l, map[K := 1]) == {R0}
  {
    assert W.InHand(l) == [];
  }

  lemma WritesCritical()
    ensures Reaches(STRICT, CriticalSent(), CriticalWritten())
  {
    FirstIsOvertaken(CriticalSent().normal);
    CriticalWrites(CriticalSent(), W.Item(R1, true, 0, 0), CriticalWritten());
  }

  lemma ClosesPair(s: State, t: State)
    requires s.processor == Handling(PAIR, [TURN0, TURN1], 0, 0) && s.wire == D.SILENT && s.signalMarks == map[K := 1]
    requires t == s.(processor := Waiting, broker := L.Commit(s.broker, map[K := 2]))
    ensures Reaches(STRICT, s, t)
  {
    PairFacts();
    ClosesBatch(STRICT, s, PAIR, [TURN0, TURN1], 0, map[K := 2], t);
  }

  /** A commit has passed an event that still waits in the normal lane for its first write. */
  predicate PassedInNormal(s: State, r: Ref) {
    && r in s.h.signals && BelowCommit(s, r) && r.key !in s.broker.moved && r !in s.signalTable
    && r in s.h.overtaken && s.h.faultySignal == s.h.droppedSignal == s.h.declined == {}
    && s.normal.queue == [W.Item(r, true, 0, 0)]
  }

  /** The batch is committed. */
  function PairCommitted(): State {
    CriticalWritten().(processor := Waiting, broker := L.Commit(CriticalWritten().broker, map[K := 2]))
  }

  lemma PairIsCommitted()
    ensures Reachable(STRICT, PairCommitted())
  {
    BringsTwo();
    SendsNormal();
    Then(STRICT, Start(), BothHeld(), NormalSent());
    SendsCritical();
    Then(STRICT, Start(), NormalSent(), CriticalSent());
    WritesCritical();
    Then(STRICT, Start(), CriticalSent(), CriticalWritten());
    ClosesPair(CriticalWritten(), PairCommitted());
    Then(STRICT, Start(), CriticalWritten(), PairCommitted());
    EndsARun(STRICT, Start(), PairCommitted());
  }

  lemma PairIsPassed()
    ensures PassedInNormal(PairCommitted(), R0)
  {
  }

  /** Strict mode does not wait for every event: one that waits in the normal
      lane is passed by the mark that a later event of the critical lane has raised. */
  lemma SharedMarkPasses()
    ensures exists s :: Reachable(STRICT, s) && PassedInNormal(s, R0)
  {
    PairIsCommitted();
    PairIsPassed();
  }

  /** An event that the full normal lane has dropped is awaited all the same: the signal map asks
      the barrier for an offset that the lane will never publish. */
  lemma DroppedIsAwaited(turns: seq<Turn>, t: Turn)
    requires t in turns && Reached(t) && RouteOf(t.outcome) == Routed(Normal, false)
    ensures At(TallyAll(turns, true).signal, t.record.ref.key) >= t.record.ref.offset
  {
    var r := t.record.ref;
    TallySignals(turns, true);
    AwaitedRefsMember(turns, true, r);
    HighestMember(AwaitedRefs(turns, true), r.key);
  }
}
