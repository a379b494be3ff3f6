/** A longer run: the bulk writer's mark outlives the ownership of a partition, and in the next
    ownership it passes a record that has not been written. */
module RebalanceWitness {
  import opened Offsets
  import opened Sequences
  import opened Split
  import opened Batch
  import opened Protocol
  import opened CommitInvariant
  import opened Theorems
  import opened Witnesses
  import opened LaneWitnesses
  import L = Ledger
  import W = WriterLane
  import D = Delivery

  /** The bulk queue has room for one event. */
  const NARROW: Config := Config(false, true, {"n"}, 1, 100, 500, 1, false)
  const R2: Ref := Ref(K, 2)
  const NOISE2: Record := Message(R2, NOISE.value)
  const THREE: seq<Record> := [NOISE, NOISE1, NOISE2]
  const ENV: Envelope := Envelope(THREE, [true, false, true])

  const I0: W.Item := W.Item(R0, true, 0, 0)
  const I1: W.Item := W.Item(R1, true, 0, 0)
  const I2: W.Item := W.Item(R2, true, 0, 0)

  /** The broker when the partition has been fetched up to an offset. */
  function At3(position: Marks, moved: set<Key>): L.Broker {
    L.Broker({R0, R1, R2}, map[K := 3], map[K := 0], position, map[K := 0], moved)
  }

  /** What stays as it is for most of the run. */
  ghost predicate Calm(s: State) {
    s.wire == D.SILENT && s.recordQueue == [] && s.signalMarks == map[] && s.processed == map[]
  }

  // ---------------------------------------------------------------------------------------
  // The first ownership
  // ---------------------------------------------------------------------------------------

  ghost predicate Fetched3(s: State) {
    && Calm(s) && s.consumer == Splitting(THREE, []) && s.processor.Waiting? && s.bulk == W.EMPTY
    && s.noiseMarks == map[] && s.noiseTable == {} && s.revoked == {} && s.h == NOTHING &&
       s.broker == At3(map[K := 3], {})
  }

  lemma ThreeRefs()
    ensures Refs(THREE) == [R0, R1, R2]
  {
    TwoRecords(NOISE, NOISE1, true);
    assert THREE[..2] == [NOISE, NOISE1];
  }

  lemma FetchableThree()
    ensures L.CanFetchAll(At3(map[K := 0], {}), [R0, R1, R2])
    ensures L.FetchAll(At3(map[K := 0], {}), [R0, R1, R2]) == At3(map[K := 3], {})
  {
    var b0, b1, b2, b3 := At3(map[K := 0], {}), At3(map[K := 1], {}), At3(map[K := 2], {}), At3(map[K := 3], {});
    assert L.Fetch(b0, R0) == b1 && L.Fetch(b1, R1) == b2 && L.Fetch(b2, R2) == b3;
    assert [R0, R1, R2][1..] == [R1, R2] && [R1, R2][1..] == [R2] && [R2][1..] == [];
    assert L.CanFetchAll(b3, []) && L.FetchAll(b3, []) == b3;
    assert L.CanFetchAll(b2, [R2]) && L.FetchAll(b2, [R2]) == b3;
    assert L.CanFetchAll(b1, [R1, R2]) && L.FetchAll(b1, [R1, R2]) == b3;
  }

  lemma AssignsThree(s: State, t: State)
    requires s == Start().(broker := At3(map[], {})) && t == s.(broker := At3(map[K := 0], {}))
    ensures Init(s) && Reaches(NARROW, s, t)
  {
    assert L.Skipped(s.broker, K, false) == {};
    assert {} + L.Skipped(s.broker, K, false) == {};
    Does(NARROW, s, Assign(K), t);
  }

  lemma FetchesThree(s: State, t: State)
    requires s.consumer.Idle? && s.broker == At3(map[K := 0], {})
    requires t == s.(broker := At3(map[K := 3], {}), consumer := Splitting(THREE, []))
    ensures Reaches(NARROW, s, t)
  {
    ThreeRefs();
    FetchableThree();
    Does(NARROW, s, Consume(THREE), t);
  }

  lemma BringsThree() returns (t: State)
    ensures Reachable(NARROW, t) && Fetched3(t)
  {
    var s := Start().(broker := At3(map[], {}));
    var s1 := s.(broker := At3(map[K := 0], {}));
    t := s.(broker := At3(map[K := 3], {}), consumer := Splitting(THREE, []));
    AssignsThree(s, s1);
    FetchesThree(s1, t);
    Then(NARROW, s, s1, t);
    EndsARun(NARROW, s, t);
  }

  /** The first and the third record are diverted; between them the queue was full. */
  ghost predicate Split3(s: State) {
    && Calm(s) && s.consumer == Splitting(THREE, [true, false, true]) && s.processor.Waiting?
    && s.bulk.queue == [I2] && s.bulk.batch == [I0] && s.bulk.phase.Filling?
    && s.noiseMarks == map[] && s.noiseTable == {} && s.revoked == {} && s.broker == At3(map[K := 3], {})
    && s.h == NOTHING.(diverted := {R0, R2})
  }

  /** The bulk queue is full, and the next record stays for the processor. */
  lemma KeepsNextOne(c: Config, s: State, t: State)
    requires s.consumer.Splitting? && |s.consumer.flags| < |s.consumer.source| && |s.bulk.queue| >= c.bulkRoom
    requires t == s.(consumer := Splitting(s.consumer.source, s.consumer.flags + [false]))
    ensures Reaches(c, s, t)
  {
    Does(c, s, SplitNext, t);
  }

  lemma TakesHead(c: Config, s: State, x: W.Item, t: State)
    requires s.bulk.queue == [x] && s.bulk.phase.Filling?
    requires t == s.(bulk := s.bulk.(queue := [], batch := s.bulk.batch + [x]))
    ensures Reaches(c, s, t)
  {
    assert [x][1..] == [];
    BulkMoves(c, s, W.Take);
  }

  /** The first record fills the queue. */
  ghost predicate SplitOne(s: State) {
    && Calm(s) && s.consumer == Splitting(THREE, [true]) && s.processor.Waiting?
    && s.bulk.queue == [I0] && s.bulk.batch == [] && s.bulk.phase.Filling?
    && s.noiseMarks == map[] && s.noiseTable == {} && s.revoked == {} && s.broker == At3(map[K := 3], {})
    && s.h == NOTHING.(diverted := {R0})
  }

  lemma SplitsFirst(s: State) returns (t: State)
    requires Reachable(NARROW, s) && Fetched3(s)
    ensures Reachable(NARROW, t) && SplitOne(t)
  {
    NoiseIsNoise();
    t := DivertsIt1(s, [], NOISE);
    assert {} + {R0} == {R0} && [] + [true] == [true];
  }

  /** The second record stays for the processor, and the writer takes the first. */
  ghost predicate SplitTwo(s: State) {
    && Calm(s) && s.consumer == Splitting(THREE, [true, false]) && s.processor.Waiting?
    && s.bulk.queue == [] && s.bulk.batch == [I0] && s.bulk.phase.Filling?
    && s.noiseMarks == map[] && s.noiseTable == {} && s.revoked == {} && s.broker == At3(map[K := 3], {})
    && s.h == NOTHING.(diverted := {R0})
  }

  lemma SplitsNext(s: State) returns (t: State)
    requires Reachable(NARROW, s) && SplitOne(s)
    ensures Reachable(NARROW, t) && SplitTwo(t)
  {
    var s1 := s.(consumer := Splitting(THREE, [true, false]));
    assert [true] + [false] == [true, false];
    KeepsNextOne(NARROW, s, s1);
    assert [] + [I0] == [I0];
    t := s1.(bulk := s1.bulk.(queue := [], batch := [I0]));
    TakesHead(NARROW, s1, I0, t);
    Then(NARROW, s, s1, t);
    ReachableGoesOn(NARROW, s, t);
  }

  lemma SplitsThird(s: State) returns (t: State)
    requires Reachable(NARROW, s) && SplitTwo(s)
    ensures Reachable(NARROW, t) && Split3(t)
  {
    NoiseIsNoise();
    t := DivertsIt1(s, [true, false], NOISE2);
    assert {R0} + {R2} == {R0, R2} && [true, false] + [true] == [true, false, true];
  }

  /** One record is diverted to the empty queue. */
  lemma DivertsIt1(s: State, flags: seq<bool>, r: Record) returns (t: State)
    requires Reachable(NARROW, s) && s.consumer == Splitting(THREE, flags) && |flags| < |THREE| && THREE[|flags|] == r
    requires IsNoise(NARROW.noise, r) && s.bulk.queue == []
    ensures Reachable(NARROW, t)
    ensures t.bulk.queue == [W.Item(r.ref, true, 0, 0)] && t.bulk.batch == s.bulk.batch && t.bulk.phase == s.bulk.phase
    ensures t == s.(consumer := Splitting(THREE, flags + [true]), bulk := t.bulk,
                    h := s.h.(diverted := s.h.diverted + {r.ref}))
  {
    var x := W.Item(r.ref, true, 0, 0);
    t := s.(consumer := Splitting(THREE, flags + [true]), h := s.h.(diverted := s.h.diverted + {r.ref}),
            bulk := s.bulk.(queue := s.bulk.queue + [x], accepted := s.bulk.accepted + multiset{W.Cargo(r.ref, true)}));
    DivertsNextOne(NARROW, s, flags, r, t);
    ReachableGoesOn(NARROW, s, t);
  }

  /** The processor holds the batch. */
  ghost predicate Handed3(s: State) {
    && Calm(s) && s.consumer.Idle? && s.processor == Handling(ENV, [], 0, 0)
    && s.bulk.queue == [I2] && s.bulk.batch == [I0] && s.bulk.phase.Filling?
    && s.noiseMarks == map[] && s.noiseTable == {} && s.revoked == {} && s.broker == At3(map[K := 3], {})
    && s.h == NOTHING.(diverted := {R0, R2})
  }

  lemma HandsThree(s: State) returns (t: State)
    requires Reachable(NARROW, s) && Split3(s)
    ensures Reachable(NARROW, t) && Handed3(t)
  {
    t := s.(consumer := Idle, processor := Handling(ENV, [], 0, 0));
    BatchArrives(NARROW, s, ENV);
    ReachableGoesOn(NARROW, s, t);
  }

  /** Both diverted records are inserted and published. */
  ghost predicate Written3(s: State) {
    && Calm(s) && s.consumer.Idle? && s.processor == Handling(ENV, [], 0, 0)
    && s.bulk.queue == [] && s.bulk.batch == [] && s.bulk.phase.Filling?
    && s.noiseMarks == map[K := 2] && s.noiseTable == {R0, R2} && s.revoked == {} && s.broker == At3(map[K := 3], {})
    && s.h == NOTHING.(diverted := {R0, R2})
  }

  lemma InsertsBatch(c: Config, s: State, t: State)
    requires s.bulk.phase.Filling? && s.bulk.batch != []
    requires t == s.(bulk := s.bulk.(phase := W.Inserted, persisted := s.bulk.persisted + s.bulk.batch),
                     noiseTable := s.noiseTable + Acked(s.bulk.batch))
    ensures Reaches(c, s, t)
  {
    Does(c, s, Write(Bulk, W.Insert, false), t);
  }

  lemma PublishesBatch(c: Config, s: State, t: State)
    requires s.bulk.phase.Inserted?
    requires t == s.(bulk := s.bulk.(phase := W.Filling, batch := []),
                     noiseMarks := BumpAll(s.noiseMarks, W.AckRefs(s.bulk.batch)))
    ensures Reaches(c, s, t)
  {
    Does(c, s, Write(Bulk, W.Publish, false), t);
  }

  lemma PairOfItems()
    ensures Acked([I0, I2]) == {R0, R2}
    ensures BumpAll(map[], W.AckRefs([I0, I2])) == map[K := 2]
  {
    TwoBumps(R0, R2);
    assert [I0, I2][..1] == [I0] && [I0][..0] == [];
    assert W.AckRefs([I0]) == [R0];
    assert W.AckRefs([I0, I2]) == [R0, R2];
  }

  /** The writer's batch holds both diverted records. */
  ghost predicate Taken3(s: State) {
    && Calm(s) && s.consumer.Idle? && s.processor == Handling(ENV, [], 0, 0)
    && s.bulk.queue == [] && s.bulk.batch == [I0, I2] && s.bulk.phase.Filling?
    && s.noiseMarks == map[] && s.noiseTable == {} && s.revoked == {} && s.broker == At3(map[K := 3], {})
    && s.h == NOTHING.(diverted := {R0, R2})
  }

  lemma TakesThree(s: State) returns (t: State)
    requires Reachable(NARROW, s) && Handed3(s)
    ensures Reachable(NARROW, t) && Taken3(t)
  {
    t := s.(bulk := s.bulk.(queue := [], batch := [I0, I2]));
    assert [I0] + [I2] == [I0, I2];
    TakesHead(NARROW, s, I2, t);
    ReachableGoesOn(NARROW, s, t);
  }

  lemma WritesThree(s: State) returns (t: State)
    requires Reachable(NARROW, s) && Taken3(s)
    ensures Reachable(NARROW, t) && Written3(t)
  {
    var s1 := s.(bulk := s.bulk.(phase := W.Inserted, persisted := s.bulk.persisted + [I0, I2]),
                 noiseTable := {R0, R2});
    PairOfItems();
    assert {} + {R0, R2} == {R0, R2};
    InsertsBatch(NARROW, s, s1);
    t := s1.(bulk := s1.bulk.(phase := W.Filling, batch := []), noiseMarks := map[K := 2]);
    PublishesBatch(NARROW, s1, t);
    Then(NARROW, s, s1, t);
    ReachableGoesOn(NARROW, s, t);
  }

  // ---------------------------------------------------------------------------------------
  // The partition leaves and comes back
  // ---------------------------------------------------------------------------------------

  /** The partition has been revoked, and the processor is still at the batch. */
  ghost predicate Revoked3(s: State) {
    && Calm(s) && s.consumer.Idle? && s.processor == Handling(ENV, [], 0, 0)
    && s.bulk.queue == [] && s.bulk.batch == [] && s.bulk.phase.Filling?
    && s.noiseMarks == map[K := 2] && s.noiseTable == {R0, R2} && s.revoked == {K} && s.broker == At3(map[], {K})
    && s.h == NOTHING.(diverted := {R0, R2})
  }

  lemma RevokedBroker()
    ensures L.Commit(L.Revoke(At3(map[K := 3], {}), {K}), map[]) == At3(map[], {K})
  {
    assert map[K := 3] - {K} == map[] && {} + {K} == {K} && map[K := 0] + map[] == map[K := 0];
  }

  lemma RevokesThree(s: State) returns (t: State)
    requires Reachable(NARROW, s) && Written3(s)
    ensures Reachable(NARROW, t) && Revoked3(t)
  {
    t := s.(broker := At3(map[], {K}), revoked := {K});
    RevokedBroker();
    assert {} + {K} == {K};
    Does(NARROW, s, Revoke({K}, false), t);
    ReachableGoesOn(NARROW, s, t);
  }

  /** The second record is skipped, all gates open, and the commit fails. */
  ghost predicate Left3(s: State) {
    && Calm(s) && Resting(s) && s.bulk.queue == [] && s.bulk.batch == [] && s.bulk.phase.Filling?
    && s.noiseMarks == map[K := 2] && s.noiseTable == {R0, R2} && s.revoked == {K} && s.broker == At3(map[], {K})
    && s.h == NOTHING.(diverted := {R0, R2})
  }

  const SKIPPED: Turn := Turn(NOISE1, {K}, Good(Sends(3, 0, 0), NoRoute))

  lemma OneEnv()
    ensures Pick([NOISE, NOISE1], [true, false], true) == [NOISE] &&
            Pick([NOISE, NOISE1], [true, false], false) == [NOISE1]
  {
    OneRecord(NOISE, true);
    assert [NOISE] + [NOISE1] == [NOISE, NOISE1] && [true] + [false] == [true, false];
    PickSnoc([NOISE], [true], NOISE1, false, true);
    PickSnoc([NOISE], [true], NOISE1, false, false);
  }

  lemma TwoEnv()
    ensures Pick(THREE, [true, false, true], true) == [NOISE, NOISE2] && Residual(ENV) == [NOISE1]
  {
    OneEnv();
    assert [NOISE, NOISE1] + [NOISE2] == THREE && [true, false] + [true] == [true, false, true];
    PickSnoc([NOISE, NOISE1], [true, false], NOISE2, true, true);
    PickSnoc([NOISE, NOISE1], [true, false], NOISE2, true, false);
  }

  lemma EnvParts()
    ensures Residual(ENV) == [NOISE1] && Diverts(ENV) == map[K := 2]
  {
    TwoEnv();
    TwoRecords(NOISE, NOISE2, true);
    TwoBumps(R0, R2);
  }

  lemma SkipsOne(s: State, t: State)
    requires s.processor == Handling(ENV, [], 0, 0) && s.revoked == {K}
    requires t == s.(processor := Handling(ENV, [SKIPPED], 0, 0))
    ensures Reaches(NARROW, s, t)
  {
    EnvParts();
    assert [] + [SKIPPED] == [SKIPPED];
    Does(NARROW, s, Handle(SKIPPED.outcome), t);
  }

  lemma SkippedTally()
    ensures TallyAll([SKIPPED], false) == ZERO
  {
    assert [SKIPPED][..0] == [];
  }

  lemma PassesAll(s: State, t: State)
    requires s.processor == Handling(ENV, [SKIPPED], 0, 0) && s.wire == D.SILENT && s.noiseMarks == map[K := 2]
    requires t == s.(processor := Gating(ENV, [SKIPPED], true, Passed, Passed))
    ensures Reaches(NARROW, s, t)
  {
    var s1 := s.(processor := Gating(ENV, [SKIPPED], true, Pending, Pending));
    EnvParts();
    SkippedTally();
    FlushesClean(NARROW, s, ENV, [SKIPPED], 0);
    PassesGates(NARROW, s1, ENV, [SKIPPED]);
    Then(NARROW, s, s1, t);
  }

  lemma CommitFails(c: Config, s: State, t: State)
    requires GatesOpen(s.processor) && |s.processor.env.source| == |s.processor.env.flags|
    requires t == s.(processor := Waiting)
    ensures Reaches(c, s, t)
  {
    Does(c, s, Finish(false), t);
  }

  lemma LeavesThree(s: State) returns (t: State)
    requires Reachable(NARROW, s) && Revoked3(s)
    ensures Reachable(NARROW, t) && Left3(t)
  {
    var s1 := s.(processor := Handling(ENV, [SKIPPED], 0, 0));
    var s2 := s.(processor := Gating(ENV, [SKIPPED], true, Passed, Passed));
    t := s.(processor := Waiting);
    SkipsOne(s, s1);
    PassesAll(s1, s2);
    Then(NARROW, s, s1, s2);
    CommitFails(NARROW, s2, t);
    Then(NARROW, s, s2, t);
    ReachableGoesOn(NARROW, s, t);
  }

  // ---------------------------------------------------------------------------------------
  // The second ownership
  // ---------------------------------------------------------------------------------------

  /** The partition is assigned again, and a heartbeat poll has taken its first record, which is in
      the table already. */
  ghost predicate Back3(s: State) {
    && Calm(s) && Resting(s) && s.bulk.queue == [] && s.noiseMarks == map[K := 2] && s.noiseTable == {R0, R2} &&
       s.revoked == {}
    && s.broker == At3(map[K := 1], {K}) && s.h == NOTHING.(diverted := {R0, R2}, discarded := {R0})
  }

  lemma AssignsAgain(s: State, t: State)
    requires Left3(s) && t == s.(broker := At3(map[K := 0], {K}), revoked := {})
    ensures Reaches(NARROW, s, t)
  {
    assert L.Skipped(s.broker, K, false) == {};
    assert {} + L.Skipped(s.broker, K, false) == {} && {K} - {K} == {};
    Does(NARROW, s, Assign(K), t);
  }

  lemma PollsFirst(s: State, t: State)
    requires s.consumer.Idle? && s.broker == At3(map[K := 0], {K}) && s.h == NOTHING.(diverted := {R0, R2})
    requires t == s.(broker := At3(map[K := 1], {K}), h := s.h.(discarded := {R0}))
    ensures Reaches(NARROW, s, t)
  {
    assert {} + {R0} == {R0};
    Does(NARROW, s, Discard(R0), t);
  }

  lemma ComesBack(s: State) returns (t: State)
    requires Reachable(NARROW, s) && Left3(s)
    ensures Reachable(NARROW, t) && Back3(t)
  {
    var s1 := s.(broker := At3(map[K := 0], {K}), revoked := {});
    t := s1.(broker := At3(map[K := 1], {K}), h := s.h.(discarded := {R0}));
    AssignsAgain(s, s1);
    PollsFirst(s1, t);
    Then(NARROW, s, s1, t);
    ReachableGoesOn(NARROW, s, t);
  }

  /** The second record has been short-circuited and handed over. */
  ghost predicate Waits3(s: State) {
    && Calm(s) && s.consumer.Idle? && s.processor == Handling(Envelope([NOISE1], [true]), [], 0, 0)
    && s.bulk.queue == [I1] && s.noiseMarks == map[K := 2] && s.noiseTable == {R0, R2} && s.revoked == {}
    && s.broker == At3(map[K := 2], {K}) && s.h.attempts == {} && !Blamed(s.h, R1)
  }

  /** The second record has been short-circuited. */
  function Diverted1(s: State): State
    requires |s.bulk.queue| < NARROW.bulkRoom
  {
    s.(broker := L.Fetch(s.broker, R1), consumer := Splitting([NOISE1], [true]),
       bulk := W.Step(s.bulk, NARROW.bulkRoom, W.Put(R1, true)), h := s.h.(diverted := s.h.diverted + {R1}))
  }

  lemma DivertsSecond1(s: State)
    requires Back3(s)
    ensures Reaches(NARROW, s, Diverted1(s))
  {
    NoiseIsNoise();
    Witnesses.DivertsOne(NARROW, s, NOISE1, Diverted1(s));
  }

  lemma WaitsNow(s: State)
    requires Back3(s)
    ensures Waits3(Diverted1(s).(consumer := Idle, processor := Holding(Diverted1(s), NOISE1, true)))
  {
    assert L.Fetch(s.broker, R1) == At3(map[K := 2], {K});
  }

  lemma DivertsAgain(s: State) returns (t: State)
    requires Reachable(NARROW, s) && Back3(s)
    ensures Reachable(NARROW, t) && Waits3(t)
  {
    var s1 := Diverted1(s);
    t := s1.(consumer := Idle, processor := Holding(s1, NOISE1, true));
    DivertsSecond1(s);
    Arrives(NARROW, s1, NOISE1, true);
    Then(NARROW, s, s1, t);
    ReachableGoesOn(NARROW, s, t);
    WaitsNow(s);
  }

  lemma CommitsAgain(s: State) returns (t: State)
    requires Reachable(NARROW, s) && Waits3(s)
    ensures Reachable(NARROW, t) && t == s.(processor := Waiting, broker := L.Commit(s.broker, map[K := 2]))
  {
    t := s.(processor := Waiting, broker := L.Commit(s.broker, map[K := 2]));
    DivertedVector();
    ClosesBatch(NARROW, s, Envelope([NOISE1], [true]), [], 0, map[K := 2], t);
    ReachableGoesOn(NARROW, s, t);
  }

  /** The partition is assigned and a commit has passed the record, which bears no blame and waits in
      the bulk queue. */
  ghost predicate PassedByOldMark(s: State, r: Ref) {
    && r.key in s.broker.position && r.key !in s.revoked
    && BelowCommit(s, r) && !Kept(s, r) && !Blamed(s.h, r) && s.bulk.queue == [W.Item(r, true, 0, 0)]
  }

  lemma OldMarkPasses(s: State)
    requires Waits3(s)
    ensures PassedByOldMark(s.(processor := Waiting, broker := L.Commit(s.broker, map[K := 2])), R1)
  {
  }

  /** The noise marks outlive the ownership of a partition. A record that was left to the processor
      and skipped while the partition was revoked is short-circuited when the partition comes back;
      the barrier passes on the mark of the earlier ownership, and the record is committed while it
      waits in the bulk queue. That is why the theorems speak of partitions that stay. */
  lemma LaterOwnershipPasses()
    ensures exists s :: Reachable(NARROW, s) && PassedByOldMark(s, R1)
  {
    var s := BringsThree();
    s := SplitsFirst(s);
    s := SplitsNext(s);
    s := SplitsThird(s);
    s := HandsThree(s);
    s := TakesThree(s);
    s := WritesThree(s);
    s := RevokesThree(s);
    s := LeavesThree(s);
    s := ComesBack(s);
    s := DivertsAgain(s);
    OldMarkPasses(s);
    s := CommitsAgain(s);
  }
}
