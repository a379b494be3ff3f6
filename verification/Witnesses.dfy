/** Short runs that show why the theorems say what they say: each ends with a record that a commit
    has passed, or that a restart has skipped, without its being durable. */
module Witnesses {
  import opened Offsets
  import opened Sequences
  import opened Split
  import opened Text
  import opened Batch
  import opened Protocol
  import opened Invariant
  import opened CommitInvariant
  import opened Theorems
  import L = Ledger
  import W = WriterLane
  import D = Delivery
  import Rebalance

  // ---------------------------------------------------------------------------------------
  // Reachability
  // ---------------------------------------------------------------------------------------

  ghost predicate Path(c: Config, s: State, steps: seq<Step>, t: State)
    decreases |steps|
  {
    if steps == [] then s == t
    else CanStep(c, s, steps[0]) && Path(c, Next(c, s, steps[0]), steps[1..], t)
  }

  ghost predicate Reaches(c: Config, s: State, t: State) {
    exists steps :: Path(c, s, steps, t)
  }

  lemma PathCons(c: Config, s: State, steps: seq<Step>, t: State)
    requires steps != [] && CanStep(c, s, steps[0]) && Path(c, Next(c, s, steps[0]), steps[1..], t)
    ensures Path(c, s, steps, t)
  {
  }

  lemma {:induction false} PathConcat(c: Config, s: State, a: seq<Step>, t: State, b: seq<Step>, u: State)
    requires Path(c, s, a, t) && Path(c, t, b, u)
    ensures Path(c, s, a + b, u)
    decreases |a|
  {
    if a == [] {
      assert a + b == b;
    } else {
      PathConcat(c, Next(c, s, a[0]), a[1..], t, b, u);
      TailConcat(a, b);
      PathCons(c, s, a + b, u);
    }
  }

  lemma Then(c: Config, s: State, t: State, u: State)
    requires Reaches(c, s, t) && Reaches(c, t, u)
    ensures Reaches(c, s, u)
  {
    var a :| Path(c, s, a, t);
    var b :| Path(c, t, b, u);
    PathConcat(c, s, a, t, b, u);
  }

  lemma Does(c: Config, s: State, step: Step, t: State)
    requires CanStep(c, s, step) && t == Next(c, s, step)
    ensures Reaches(c, s, t)
  {
    StepIsPath(c, s, step, t);
  }

  lemma StepIsPath(c: Config, s: State, step: Step, t: State)
    requires CanStep(c, s, step) && t == Next(c, s, step)
    ensures Path(c, s, [step], t)
  {
    assert [step][1..] == [];
  }

  lemma {:induction false} PathIsRun(c: Config, s: State, steps: seq<Step>, t: State) returns (run: seq<State>)
    requires Path(c, s, steps, t)
    ensures |run| == |steps| + 1 && run[0] == s && run[|steps|] == t
    ensures forall i | 0 <= i < |steps| :: CanStep(c, run[i], steps[i]) && run[i + 1] == Next(c, run[i], steps[i])
    decreases |steps|
  {
    if steps == [] {
      run := [s];
    } else {
      var rest := PathIsRun(c, Next(c, s, steps[0]), steps[1..], t);
      run := [s] + rest;
      forall i | 0 <= i < |steps| ensures CanStep(c, run[i], steps[i]) && run[i + 1] == Next(c, run[i], steps[i]) {
        if i > 0 {
          assert run[i] == rest[i - 1] && steps[i] == steps[1..][i - 1] && run[i + 1] == rest[i];
        }
      }
    }
  }

  /** What is reached from an initial state ends a run. */
  lemma EndsARun(c: Config, s: State, t: State)
    requires Init(s) && Reaches(c, s, t)
    ensures Reachable(c, t)
  {
    var steps :| Path(c, s, steps, t);
    var run := PathIsRun(c, s, steps, t);
    assert IsRun(c, run, steps);
  }

  lemma ReachableGoesOn(c: Config, s: State, t: State)
    requires Reachable(c, s) && Reaches(c, s, t)
    ensures Reachable(c, t)
  {
    var run, steps :| IsRun(c, run, steps) && run[|steps|] == s;
    var more :| Path(c, s, more, t);
    RunIsPath(c, run, steps, |steps|);
    assert steps[..|steps|] == steps;
    PathConcat(c, run[0], steps, s, more, t);
    EndsARun(c, run[0], t);
  }

  lemma {:induction false} RunIsPath(c: Config, run: seq<State>, steps: seq<Step>, n: nat)
    requires IsRun(c, run, steps) && n <= |steps|
    ensures Path(c, run[0], steps[..n], run[n])
  {
    if n > 0 {
      RunIsPath(c, run, steps, n - 1);
      StepIsPath(c, run[n - 1], steps[n - 1], run[n]);
      PathConcat(c, run[0], steps[..n - 1], run[n - 1], [steps[n - 1]], run[n]);
      TakeSnoc(steps, n - 1);
    }
  }

  // ---------------------------------------------------------------------------------------
  // Pieces of runs
  // ---------------------------------------------------------------------------------------

  lemma OneRecord(m: Record, flag: bool)
    ensures Refs([m]) == RefOf(m)
    ensures Pick([m], [flag], flag) == [m] && Pick([m], [flag], !flag) == []
  {
    assert [m][..0] == [] && [flag][..0] == [];
    assert Refs([m]) == Refs([]) + RefOf(m);
    assert Pick([m], [flag], flag) == Pick([], [], flag) + [m];
  }

  /** The processor has just received a batch of one record. */
  function Holding(s: State, m: Record, flag: bool): Hand {
    Handling(Envelope([m], [flag]), [], s.wire.errors, s.wire.next)
  }

  /** A batch of one record is fetched. */
  lemma Fetches(c: Config, s: State, m: Record)
    requires s.consumer.Idle? && m.Message? && L.CanFetch(s.broker, m.ref)
    ensures Reaches(c, s, s.(broker := L.Fetch(s.broker, m.ref), consumer := Splitting([m], [])))
  {
    OneRecord(m, false);
    assert [m.ref][1..] == [];
    assert L.FetchAll(s.broker, [m.ref]) == L.Fetch(s.broker, m.ref);
    Does(c, s, Consume([m]), s.(broker := L.Fetch(s.broker, m.ref), consumer := Splitting([m], [])));
  }

  lemma FetchesPlain(c: Config, s: State, m: Record)
    requires s.consumer.Idle? && m.Message? && L.CanFetch(s.broker, m.ref) && !IsNoise(c.noise, m)
    ensures Reaches(c, s, s.(broker := L.Fetch(s.broker, m.ref), consumer := Splitting([m], [false])))
  {
    var s1 := s.(broker := L.Fetch(s.broker, m.ref), consumer := Splitting([m], []));
    var s2 := s.(broker := L.Fetch(s.broker, m.ref), consumer := Splitting([m], [false]));
    Fetches(c, s, m);
    assert [] + [false] == [false];
    Does(c, s1, SplitNext, s2);
    Then(c, s, s1, s2);
  }

  /** The batch goes through the empty record queue to the processor. */
  lemma Arrives(c: Config, s: State, m: Record, flag: bool)
    requires s.consumer == Splitting([m], [flag]) && s.recordQueue == [] && s.processor.Waiting? && c.records > 0
    ensures Reaches(c, s, s.(consumer := Idle, processor := Holding(s, m, flag)))
  {
    var s1 := s.(consumer := Idle, recordQueue := [Envelope([m], [flag])]);
    var s2 := s.(consumer := Idle, processor := Holding(s, m, flag));
    assert [] + [Envelope([m], [flag])] == [Envelope([m], [flag])];
    Does(c, s, Send, s1);
    assert [Envelope([m], [flag])][1..] == [];
    Does(c, s1, Receive, s2);
    Then(c, s, s1, s2);
  }

  /** All threads are between two batches. */
  predicate Resting(s: State) {
    s.consumer.Idle? && s.recordQueue == [] && s.processor.Waiting?
  }

  /** From rest, one record that is not noise arrives at the processor. */
  lemma Brings(c: Config, s: State, m: Record)
    requires Resting(s) && c.records > 0 && m.Message? && L.CanFetch(s.broker, m.ref) && !IsNoise(c.noise, m)
    ensures Reaches(c, s, s.(broker := L.Fetch(s.broker, m.ref), processor := Holding(s, m, false)))
  {
    var s1 := s.(broker := L.Fetch(s.broker, m.ref), consumer := Splitting([m], [false]));
    FetchesPlain(c, s, m);
    Arrives(c, s1, m, false);
    Then(c, s, s1, s.(broker := L.Fetch(s.broker, m.ref), processor := Holding(s, m, false)));
  }

  // From the last turn of a batch to its commit.

  lemma FlushesClean(c: Config, s: State, env: Envelope, turns: seq<Turn>, firstId: nat)
    requires s.processor == Handling(env, turns, s.wire.errors, firstId)
    requires |env.source| == |env.flags| && |turns| == |Residual(env)|
    requires s.wire.outstanding == {} && !TallyAll(turns, c.strict).failed
    ensures Reaches(c, s, s.(processor := Gating(env, turns, true, Pending, Pending)))
  {
    Does(c, s, Flush, s.(processor := Gating(env, turns, true, Pending, Pending)));
  }

  lemma PassesGates(c: Config, s: State, env: Envelope, turns: seq<Turn>)
    requires s.processor == Gating(env, turns, true, Pending, Pending) && |env.source| == |env.flags|
    requires Covers(s.noiseMarks, Diverts(env)) && Covers(s.signalMarks, TallyAll(turns, c.strict).signal)
    ensures Reaches(c, s, s.(processor := Gating(env, turns, true, Passed, Passed)))
  {
    var s1 := s.(processor := Gating(env, turns, true, Passed, Pending));
    var s2 := s.(processor := Gating(env, turns, true, Passed, Passed));
    Does(c, s, PassNoise, s1);
    Does(c, s1, PassSignal, s2);
    Then(c, s, s1, s2);
  }

  lemma Finishes(c: Config, s: State, env: Envelope, turns: seq<Turn>, vector: Marks)
    requires s.processor == Gating(env, turns, true, Passed, Passed) && |env.source| == |env.flags|
    requires CommitVector(TallyAll(turns, c.strict).maxOffsets, Diverts(env)) == vector
    ensures Reaches(c, s, s.(processor := Waiting, broker := L.Commit(s.broker, vector)))
  {
    Does(c, s, Finish(true), s.(processor := Waiting, broker := L.Commit(s.broker, vector)));
  }

  /** A batch whose messages are all answered and whose marks are reached is committed. */
  lemma ClosesBatch(c: Config, s: State, env: Envelope, turns: seq<Turn>, firstId: nat, vector: Marks, t: State)
    requires s.processor == Handling(env, turns, s.wire.errors, firstId)
    requires |env.source| == |env.flags| && |turns| == |Residual(env)|
    requires s.wire.outstanding == {} && !TallyAll(turns, c.strict).failed
    requires Covers(s.noiseMarks, Diverts(env)) && Covers(s.signalMarks, TallyAll(turns, c.strict).signal)
    requires CommitVector(TallyAll(turns, c.strict).maxOffsets, Diverts(env)) == vector
    requires t == s.(processor := Waiting, broker := L.Commit(s.broker, vector))
    ensures Reaches(c, s, t)
  {
    var s1 := s.(processor := Gating(env, turns, true, Pending, Pending));
    var s2 := s.(processor := Gating(env, turns, true, Passed, Passed));
    FlushesClean(c, s, env, turns, firstId);
    PassesGates(c, s1, env, turns);
    Then(c, s, s1, s2);
    Finishes(c, s2, env, turns, vector);
    Then(c, s, s2, t);
  }

  lemma OneTurn(turn: Turn)
    requires Reached(turn) && !Refused(turn.outcome)
    ensures var t := TallyAll([turn], false);
            t.maxOffsets == map[turn.record.ref.key := turn.record.ref.offset] && t.signal == map[] && !t.failed
    ensures var env := Envelope([turn.record], [false]);
            Residual(env) == [turn.record] && Diverts(env) == map[]
    ensures CommitVector(map[turn.record.ref.key := turn.record.ref.offset], map[])
         == map[turn.record.ref.key := turn.record.ref.offset + 1]
  {
    OneRecord(turn.record, false);
    assert [turn][..0] == [];
  }

  /** A batch of one handled record whose messages are all answered is flushed and committed. */
  lemma Closes(c: Config, s: State, turn: Turn, firstId: nat, t: State)
    requires s.processor == Handling(Envelope([turn.record], [false]), [turn], s.wire.errors, firstId)
    requires Reached(turn) && !Refused(turn.outcome) && !c.strict && s.wire.outstanding == {}
    requires t == s.(processor := Waiting,
                     broker := L.Commit(s.broker, map[turn.record.ref.key := turn.record.ref.offset + 1]))
    ensures Reaches(c, s, t)
  {
    OneTurn(turn);
    ClosesBatch(c, s, Envelope([turn.record], [false]), [turn], firstId,
                map[turn.record.ref.key := turn.record.ref.offset + 1], t);
  }

  /** The state after the processor has handled the one record of its batch. */
  function Handled(c: Config, s: State, m: Record, o: Outcome): State
    requires m.Message?
  {
    s.(processor := Handling(Envelope([m], [false]), [Turn(m, s.revoked, o)], s.wire.errors, s.wire.next),
       wire := WireAfter(s.wire, o), processed := Bump(s.processed, m.ref), h := HistoryAfter(c, s.h, m.ref, s.wire, o))
  }

  lemma Handles(c: Config, s: State, m: Record, o: Outcome)
    requires s.processor == Holding(s, m, false) && m.Message? && m.ref.key !in s.revoked
    requires Plausible(o) && Fits(m, o) && RouteOf(o) == NoRoute
    ensures Reaches(c, s, Handled(c, s, m, o))
  {
    OneRecord(m, false);
    assert [] + [Turn(m, s.revoked, o)] == [Turn(m, s.revoked, o)];
    Does(c, s, Handle(o), Handled(c, s, m, o));
  }

  /** From rest, the next record is fetched and handled. */
  lemma BringsAndHandles(c: Config, s: State, m: Record, o: Outcome, t: State)
    requires Resting(s) && c.records > 0 && m.Message? && L.CanFetch(s.broker, m.ref) && !IsNoise(c.noise, m) &&
             m.ref.key !in s.revoked
    requires Plausible(o) && Fits(m, o) && RouteOf(o) == NoRoute
    requires t == Handled(c, s.(broker := L.Fetch(s.broker, m.ref)), m, o)
    ensures Reaches(c, s, t)
  {
    var s1 := s.(broker := L.Fetch(s.broker, m.ref), processor := Holding(s, m, false));
    Brings(c, s, m);
    Handles(c, s1, m, o);
    assert Handled(c, s1, m, o) == t;
    Then(c, s, s1, t);
  }

  /** An unparsable record whose DLQ record is accepted. */
  const PILL: Outcome := Unparsable(true)

  /** The state in which that record has failed to parse, gone to the DLQ and been committed. */
  function Pilled(c: Config, s: State, m: Record): State
    requires m.Message?
  {
    s.(broker := L.Commit(L.Fetch(s.broker, m.ref), map[m.ref.key := m.ref.offset + 1]),
       wire := D.Report(WireAfter(s.wire, PILL), s.wire.next, true),
       processed := Bump(s.processed, m.ref), h := HistoryAfter(c, s.h, m.ref, s.wire, PILL))
  }

  /** The same state before the batch is closed. */
  function PilledOpen(c: Config, s: State, m: Record): State
    requires m.Message?
  {
    var s1 := Handled(c, s.(broker := L.Fetch(s.broker, m.ref)), m, PILL);
    s1.(wire := D.Report(WireAfter(s.wire, PILL), s.wire.next, true))
  }

  lemma PilledCloses(c: Config, s: State, m: Record)
    requires Resting(s) && m.Message?
    ensures Pilled(c, s, m) == PilledOpen(c, s, m).(
              processor := Waiting, broker := L.Commit(PilledOpen(c, s, m).broker, map[m.ref.key := m.ref.offset + 1]))
  {
  }

  lemma Answers(c: Config, s: State, m: Record, t: State)
    requires Resting(s) && s.wire.outstanding == {} && m.Message?
    requires t == Handled(c, s, m, PILL).(wire := D.Report(WireAfter(s.wire, PILL), s.wire.next, true))
    ensures t.wire.outstanding == {} && t.wire.errors == s.wire.errors
    ensures Reaches(c, Handled(c, s, m, PILL), t)
  {
    var s1 := Handled(c, s, m, PILL);
    assert s1.wire.outstanding == {s.wire.next};
    Does(c, s1, Report(s.wire.next, true), t);
  }

  lemma Readies(c: Config, s: State, m: Record, t: State)
    requires Resting(s) && c.records > 0 && s.wire.outstanding == {}
    requires m.Message? && L.CanFetch(s.broker, m.ref) && !IsNoise(c.noise, m) && m.ref.key !in s.revoked
    requires t == PilledOpen(c, s, m)
    ensures Reaches(c, s, t) && t.wire.outstanding == {} && t.wire.errors == s.wire.errors
  {
    var s0 := s.(broker := L.Fetch(s.broker, m.ref));
    var s1 := Handled(c, s0, m, PILL);
    BringsAndHandles(c, s, m, PILL, s1);
    Answers(c, s0, m, t);
    Then(c, s, s1, t);
  }

  lemma CommitsPill(c: Config, s: State, m: Record)
    requires Resting(s) && !c.strict && m.Message? && m.ref.key !in s.revoked
    requires PilledOpen(c, s, m).wire.outstanding == {} && PilledOpen(c, s, m).wire.errors == s.wire.errors
    ensures Reaches(c, PilledOpen(c, s, m), Pilled(c, s, m))
  {
    PilledCloses(c, s, m);
    Closes(c, PilledOpen(c, s, m), Turn(m, s.revoked, PILL), s.wire.next, Pilled(c, s, m));
  }

  /** From rest, with nothing outstanding, the next record is fetched and committed. */
  lemma CommitsNext(c: Config, s: State, m: Record)
    requires Resting(s) && c.records > 0 && !c.strict && s.wire.outstanding == {}
    requires m.Message? && L.CanFetch(s.broker, m.ref) && !IsNoise(c.noise, m) && m.ref.key !in s.revoked
    ensures Reaches(c, s, Pilled(c, s, m))
  {
    var s1 := PilledOpen(c, s, m);
    Readies(c, s, m, s1);
    CommitsPill(c, s, m);
    Then(c, s, s1, Pilled(c, s, m));
  }

  // ---------------------------------------------------------------------------------------
  // Witnesses
  // ---------------------------------------------------------------------------------------

  /** A commit has passed a record of a partition that never moved, and it is not durable. */
  ghost predicate Exposed(s: State, r: Ref) {
    Answerable(s, r) && BelowCommit(s, r) && !Kept(s, r)
  }

  lemma PilledHistory(c: Config, s: State, m: Record)
    requires m.Message? && !c.strict
    ensures var h := Pilled(c, s, m).h;
            && h.declined == s.h.declined && h.discarded == s.h.discarded && h.spoiled == s.h.spoiled &&
               h.faultyNoise == s.h.faultyNoise
            && h.undelivered == s.h.undelivered && h.skipped == s.h.skipped
            && h.handled == s.h.handled + {m.ref} && h.diverted == s.h.diverted
            && forall a | a in h.attempts :: a in s.h.attempts || a.ref == m.ref
  {
  }

  lemma PilledBroker(c: Config, s: State, m: Record, r: Ref)
    requires m.Message? && Answerable(s, r) && r.key == m.ref.key && r.offset < m.ref.offset
    ensures Answerable(Pilled(c, s, m), r) && BelowCommit(Pilled(c, s, m), r)
  {
  }

  /** Committing the next record exposes an older one that was never handled. */
  lemma CommitExposes(c: Config, s: State, m: Record, r: Ref)
    requires m.Message? && Answerable(s, r) && r.key == m.ref.key && r.offset < m.ref.offset
    requires !c.strict && r !in s.noiseTable && s.h.attempts == {}
    ensures Exposed(Pilled(c, s, m), r)
  {
    PilledHistory(c, s, m);
    PilledBroker(c, s, m, r);
  }

  // The record bears one of the six blames, and no record bears another.

  predicate OnlyDeclined(h: History, r: Ref) {
    r in h.declined && h.discarded == h.spoiled == h.undelivered == h.skipped == h.faultyNoise == {}
  }

  predicate OnlyDiscarded(h: History, r: Ref) {
    r in h.discarded && h.declined == h.spoiled == h.undelivered == h.skipped == h.faultyNoise == {}
  }

  predicate OnlySpoiled(h: History, r: Ref) {
    r in h.spoiled && h.declined == h.discarded == h.undelivered == h.skipped == h.faultyNoise == {}
  }

  predicate OnlyUndelivered(h: History, r: Ref) {
    r in h.undelivered && h.declined == h.discarded == h.spoiled == h.skipped == h.faultyNoise == {}
  }

  predicate OnlySkipped(h: History, r: Ref) {
    r in h.skipped && h.declined == h.discarded == h.spoiled == h.undelivered == h.faultyNoise == {}
  }

  predicate OnlyFailed(h: History, r: Ref) {
    r in h.faultyNoise && h.declined == h.discarded == h.spoiled == h.undelivered == h.skipped == {}
  }

  /** Nothing in the process or on the wire holds anything, and the committed record is not durable. */
  ghost predicate Lost(s: State, r: Ref) {
    && BelowCommit(s, r) && !Kept(s, r)
    && Flow(s) == [] && s.critical == W.EMPTY && s.normal == W.EMPTY && s.bulk == W.EMPTY && s.wire.outstanding == {}
  }

  /** Whatever a commit has passed without its being durable is lost in the next crash, although until
      then it may wait in a queue or on the wire. */
  lemma CrashLoses(c: Config, s: State, r: Ref)
    requires BelowCommit(s, r) && !Kept(s, r)
    ensures CanStep(c, s, Crash) && Lost(Next(c, s, Crash), r)
  {
  }

  const K: Key := Key("audit", 0)
  const R0: Ref := Ref(K, 0)
  const R1: Ref := Ref(K, 1)

  /** The method name "n" is bulk noise. */
  const CONFIG: Config := Config(false, true, {"n"}, 1, 100, 500, 5000, false)
  const NOISE: Record := Message(R0, Decoded(Obj(map["methodName" := Str("n")])))
  const PLAIN: Record := Message(R0, Undecodable)
  const LATER: Record := Message(R1, Undecodable)

  /** An event that is not noise. */
  const EVENT: Record := Message(R0, Decoded(Obj(map["methodName" := Str("m")])))

  /** A group with offset 0 committed and two records in the log. */
  function Start(): State {
    State(L.Broker({R0, R1}, map[K := 2], map[K := 0], map[], map[K := 0], {}),
          Idle, [], Waiting, W.EMPTY, W.EMPTY, W.EMPTY, map[], map[], {}, {}, D.SILENT, map[], {}, NOTHING)
  }

  /** The partition has been assigned. */
  function Assigned(): State {
    Start().(broker := Start().broker.(position := map[K := 0]))
  }

  lemma Assigns()
    ensures Init(Start()) && Reaches(CONFIG, Start(), Assigned())
  {
    Does(CONFIG, Start(), Assign(K), Assigned());
  }

  lemma EventIsPlain()
    ensures !IsNoise(CONFIG.noise, EVENT)
  {
    assert Lower("m") == "m";
  }

  const GIVEN_UP: Outcome := Good(Sends(0, 3, 0), NoRoute)

  /** The state in which a record whose produces were all given up has been committed. */
  function GivenUp(c: Config, s: State, m: Record): State
    requires m.Message?
  {
    s.(broker := L.Commit(L.Fetch(s.broker, m.ref), map[m.ref.key := m.ref.offset + 1]),
       processed := Bump(s.processed, m.ref),
       h := s.h.(spoiled := s.h.spoiled + {m.ref}, handled := s.h.handled + {m.ref}))
  }

  lemma GivenUpCloses(c: Config, s: State, m: Record)
    requires Resting(s) && m.Message?
    ensures var s1 := Handled(c, s.(broker := L.Fetch(s.broker, m.ref)), m, GIVEN_UP);
            && GivenUp(c, s, m) == s1.(processor := Waiting,
                                       broker := L.Commit(s1.broker, map[m.ref.key := m.ref.offset + 1]))
            && s1.wire == s.wire
  {
    D.AcceptNothing(s.wire);
  }

  lemma FinishesGivenUp(c: Config, s: State, m: Record)
    requires Resting(s) && c.records > 0 && !c.strict && s.wire.outstanding == {} && m.Message? &&
             m.ref.key !in s.revoked
    ensures Reaches(c, Handled(c, s.(broker := L.Fetch(s.broker, m.ref)), m, GIVEN_UP), GivenUp(c, s, m))
  {
    var s1 := Handled(c, s.(broker := L.Fetch(s.broker, m.ref)), m, GIVEN_UP);
    GivenUpCloses(c, s, m);
    Closes(c, s1, Turn(m, s.revoked, GIVEN_UP), s.wire.next, GivenUp(c, s, m));
  }

  lemma GivesUp(c: Config, s: State, m: Record)
    requires Resting(s) && c.records > 0 && !c.strict && s.wire.outstanding == {}
    requires m.Message? && L.CanFetch(s.broker, m.ref) && !IsNoise(c.noise, m) && m.value.Decoded? &&
             m.ref.key !in s.revoked
    ensures Reaches(c, s, GivenUp(c, s, m))
  {
    var s1 := Handled(c, s.(broker := L.Fetch(s.broker, m.ref)), m, GIVEN_UP);
    BringsAndHandles(c, s, m, GIVEN_UP, s1);
    FinishesGivenUp(c, s, m);
    Then(c, s, s1, GivenUp(c, s, m));
  }

  lemma GivenUpIsExposed()
    ensures var t := GivenUp(CONFIG, Assigned(), EVENT); Exposed(t, R0) && OnlySpoiled(t.h, R0)
  {
  }

  /** An exhausted produce does not block the commit: its result is ignored. */
  lemma ExhaustedProduceIsCommitted()
    ensures exists s :: Reachable(CONFIG, s) && Exposed(s, R0) && OnlySpoiled(s.h, R0)
  {
    Assigns();
    EventIsPlain();
    var t := GivenUp(CONFIG, Assigned(), EVENT);
    GivesUp(CONFIG, Assigned(), EVENT);
    Then(CONFIG, Start(), Assigned(), t);
    EndsARun(CONFIG, Start(), t);
    GivenUpIsExposed();
  }

  /** The second record can be fetched, and the group answers for the first, which is not durable. */
  ghost predicate Ready(s: State) {
    && Resting(s) && s.wire == D.SILENT && s.revoked == {} && L.CanFetch(s.broker, R1)
    && Answerable(s, R0) && R0 !in s.noiseTable && s.h.attempts == {}
  }

  /** The second record is fetched, goes to the DLQ and is committed; the first is passed. */
  lemma PassesLater(s: State) returns (t: State)
    requires Reachable(CONFIG, s) && Ready(s)
    ensures Reachable(CONFIG, t) && Exposed(t, R0)
    ensures t.h.declined == s.h.declined && t.h.discarded == s.h.discarded && t.h.spoiled == s.h.spoiled
    ensures t.h.undelivered == s.h.undelivered && t.h.skipped == s.h.skipped && t.h.faultyNoise == s.h.faultyNoise
    ensures t.h.handled == s.h.handled + {R1} && t.h.diverted == s.h.diverted
  {
    NoiseIsNoise();
    t := Pilled(CONFIG, s, LATER);
    CommitsNext(CONFIG, s, LATER);
    ReachableGoesOn(CONFIG, s, t);
    PilledHistory(CONFIG, s, LATER);
    CommitExposes(CONFIG, s, LATER, R0);
  }

  lemma PillOnWire()
    ensures WireAfter(D.SILENT, PILL) == D.SILENT.(next := 1, dlq := {0}, outstanding := {0})
    ensures D.Report(WireAfter(D.SILENT, PILL), 0, false) == D.SILENT.(next := 1, dlq := {0}, failed := {0})
  {
    D.AcceptOne();
  }

  lemma PillOnRecord()
    ensures HistoryAfter(CONFIG, NOTHING, R0, D.SILENT, PILL) ==
            NOTHING.(attempts := {Attempt(R0, 0, 1)}, handled := {R0})
  {
    PillOnWire();
  }

  /** The processor has handled an unparsable record, whose DLQ message is on its way. */
  ghost predicate PillInHand(s: State) {
    && s.processor == Handling(Envelope([PLAIN], [false]), [Turn(PLAIN, {}, PILL)], 0, 0)
    && s.wire == D.SILENT.(next := 1, dlq := {0}, outstanding := {0}) && s.noiseTable == {}
    && s.h == NOTHING.(attempts := {Attempt(R0, 0, 1)}, handled := {R0}) && Answerable(s, R0)
  }

  /** Its delivery has failed, and no counter has moved. */
  ghost predicate FailedInHand(s: State) {
    && s.processor == Handling(Envelope([PLAIN], [false]), [Turn(PLAIN, {}, PILL)], 0, 0)
    && s.wire == D.SILENT.(next := 1, dlq := {0}, failed := {0}) && s.noiseTable == {}
    && s.h == NOTHING.(attempts := {Attempt(R0, 0, 1)}, handled := {R0}, undelivered := {R0}) && Answerable(s, R0)
  }

  lemma PillIsInHand(s: State)
    requires s.wire == D.SILENT && s.h == NOTHING && s.noiseTable == {} && s.revoked == {} && Answerable(s, R0)
    ensures PillInHand(Handled(CONFIG, s, PLAIN, PILL))
  {
    PillOnWire();
    PillOnRecord();
  }

  lemma PillArrives(s: State) returns (t: State)
    requires Resting(s) && s.wire == D.SILENT && s.h == NOTHING && s.noiseTable == {} && s.revoked == {}
    requires L.CanFetch(s.broker, R0) && Answerable(s, R0)
    ensures Reaches(CONFIG, s, t) && PillInHand(t)
  {
    var s1 := s.(broker := L.Fetch(s.broker, R0));
    t := Handled(CONFIG, s1, PLAIN, PILL);
    BringsAndHandles(CONFIG, s, PLAIN, PILL, t);
    PillIsInHand(s1);
  }

  lemma HandlesPill() returns (t: State)
    ensures Reachable(CONFIG, t) && PillInHand(t)
  {
    Assigns();
    t := PillArrives(Assigned());
    Then(CONFIG, Start(), Assigned(), t);
    EndsARun(CONFIG, Start(), t);
  }

  lemma ReportOnWire(w: D.Wire)
    requires w == D.SILENT.(next := 1, dlq := {0}, outstanding := {0})
    ensures D.Report(w, 0, false) == D.SILENT.(next := 1, dlq := {0}, failed := {0})
  {
    PillOnWire();
  }

  lemma CarrierOfPill()
    ensures Carriers({Attempt(R0, 0, 1)}, 0) == {R0}
  {
  }

  lemma ReportOnRecord(s: State)
    requires s.wire.dlq == {0} && s.h == NOTHING.(attempts := {Attempt(R0, 0, 1)}, handled := {R0})
    ensures DoReport(s, 0, false).h == s.h.(undelivered := {R0})
  {
    CarrierOfPill();
    assert {} + {R0} == {R0};
  }

  lemma ReportFails(s: State)
    requires PillInHand(s)
    ensures FailedInHand(DoReport(s, 0, false))
  {
    ReportOnWire(s.wire);
    ReportOnRecord(s);
  }

  lemma DoesReport(s: State, id: nat, ok: bool)
    requires id in s.wire.outstanding
    ensures Reaches(CONFIG, s, DoReport(s, id, ok))
  {
    Does(CONFIG, s, Report(id, ok), DoReport(s, id, ok));
  }

  lemma FailsDlq(s: State) returns (t: State)
    requires Reachable(CONFIG, s) && PillInHand(s)
    ensures Reachable(CONFIG, t) && FailedInHand(t)
  {
    t := DoReport(s, 0, false);
    ReportFails(s);
    DoesReport(s, 0, false);
    ReachableGoesOn(CONFIG, s, t);
  }

  lemma ClosesFailedDlq(s: State) returns (t: State)
    requires Reachable(CONFIG, s) && FailedInHand(s)
    ensures Reachable(CONFIG, t) && t == s.(processor := Waiting, broker := L.Commit(s.broker, map[K := 1]))
  {
    t := s.(processor := Waiting, broker := L.Commit(s.broker, map[K := 1]));
    Closes(CONFIG, s, Turn(PLAIN, {}, PILL), 0, t);
    ReachableGoesOn(CONFIG, s, t);
  }

  lemma FailedDlqIsExposed(s: State)
    requires FailedInHand(s)
    ensures var t := s.(processor := Waiting, broker := L.Commit(s.broker, map[K := 1]));
            Exposed(t, R0) && OnlyUndelivered(t.h, R0) && t.wire.delivered == {}
  {
    assert 0 !in s.wire.delivered && !Resolved(s.wire, Attempt(R0, 0, 1));
  }

  /** No gate looks at the delivery of a DLQ record: when it fails, the poison pill is committed and is
      nowhere. */
  lemma FailedDlqIsCommitted()
    ensures exists s :: Reachable(CONFIG, s) && Exposed(s, R0) && OnlyUndelivered(s.h, R0) && s.wire.delivered == {}
  {
    var s := HandlesPill();
    s := FailsDlq(s);
    var t := ClosesFailedDlq(s);
    FailedDlqIsExposed(s);
  }

  const UNANSWERED: Outcome := Good(Sends(3, 0, 0), NoRoute)

  /** The processor has handled one record; no message of it has been answered. */
  function InFlight(): State {
    Handled(CONFIG, Assigned().(broker := L.Fetch(Assigned().broker, R0)), EVENT, UNANSWERED)
  }

  lemma InFlightIsReached()
    ensures Init(Start()) && Reaches(CONFIG, Start(), InFlight())
  {
    Assigns();
    EventIsPlain();
    BringsAndHandles(CONFIG, Assigned(), EVENT, UNANSWERED, InFlight());
    Then(CONFIG, Start(), Assigned(), InFlight());
  }

  lemma InFlightIsUndelivered()
    ensures var s := InFlight();
            && s.h.attempts == {Attempt(R0, 0, 3)} && s.h.spoiled == {} && s.noiseTable == {}
            && 0 !in s.wire.delivered && 0 !in s.wire.failed && s.processed == map[K := 0] && s.revoked == {}
  {
  }

  lemma RevokesK(s: State)
    requires s.processed == map[K := 0] && s.revoked == {}
    ensures Reaches(CONFIG, s, s.(broker := L.Commit(L.Revoke(s.broker, {K}), map[K := 1]), revoked := {K}))
  {
    assert Rebalance.RevokeVector(s.processed, {K}) == map[K := 1];
    assert {} + {K} == {K};
    Does(CONFIG, s, Revoke({K}, true), s.(broker := L.Commit(L.Revoke(s.broker, {K}), map[K := 1]), revoked := {K}));
  }

  /** A handling of the first record is on its way and nothing else is known of it. */
  ghost predicate Unanswered(s: State) {
    && s.h.attempts == {Attempt(R0, 0, 3)} && s.h.spoiled == {} && s.noiseTable == {}
    && 0 !in s.wire.delivered && s.processed == map[K := 0] && s.revoked == {}
  }

  lemma HandlesUnanswered() returns (t: State)
    ensures Reachable(CONFIG, t) && Unanswered(t)
  {
    t := InFlight();
    InFlightIsReached();
    InFlightIsUndelivered();
    EndsARun(CONFIG, Start(), t);
  }

  lemma RevokedIsUndelivered(s: State)
    requires Unanswered(s)
    ensures var t := s.(broker := L.Commit(L.Revoke(s.broker, {K}), map[K := 1]), revoked := {K});
            BelowCommit(t, R0) && !Kept(t, R0) && t.h.spoiled == {}
  {
    assert !Resolved(s.wire, Attempt(R0, 0, 3));
  }

  /** `on_revoke` consults no barrier: it commits a handled record none of whose messages has been
      delivered. */
  lemma RevokeCommitsUndelivered()
    ensures exists s :: Reachable(CONFIG, s) && BelowCommit(s, R0) && !Kept(s, R0) && s.h.spoiled == {}
  {
    var s := HandlesUnanswered();
    var t := s.(broker := L.Commit(L.Revoke(s.broker, {K}), map[K := 1]), revoked := {K});
    RevokesK(s);
    ReachableGoesOn(CONFIG, s, t);
    RevokedIsUndelivered(s);
  }

  /** A group without commits and an empty log. */
  function Newcomer(): State {
    Start().(broker := L.Broker({}, map[], map[], map[], map[], {}))
  }

  /** The partition is assigned and has one record, which can be fetched. */
  ghost predicate HasJoined(s: State) {
    && s.h == NOTHING && s.wire == D.SILENT && s.noiseTable == {}
    && s.broker == L.Broker({R0}, map[K := 1], map[K := 0], map[K := 0], map[], {})
  }

  /** The group answers for the record, which lies behind the position. */
  ghost predicate HasSkipped(s: State) {
    && Resting(s) && s.h == NOTHING.(skipped := {R0}) && s.wire == D.SILENT && s.noiseTable == {} && s.revoked == {}
    && s.broker == L.Broker({R0}, map[K := 1], map[K := 0], map[K := 1], map[], {})
  }

  lemma JoinedBroker(s: State)
    requires s == Newcomer()
    ensures L.Append(L.Assign(s.broker, K, false), K, 0) ==
            L.Broker({R0}, map[K := 1], map[K := 0], map[K := 0], map[], {})
    ensures L.Skipped(s.broker, K, false) == {}
  {
    assert {} + {R0} == {R0};
  }

  lemma AssignsAndAppends(s: State, t: State)
    requires K !in s.broker.position && s.revoked == {} && s.h == NOTHING && L.Skipped(s.broker, K, false) == {}
    requires t == s.(broker := L.Append(L.Assign(s.broker, K, false), K, 0))
    ensures Reaches(CONFIG, s, t)
  {
    var s1 := s.(broker := L.Assign(s.broker, K, false));
    assert {} + L.Skipped(s.broker, K, false) == {};
    Does(CONFIG, s, Assign(K), s1);
    Does(CONFIG, s1, Append(K, 0), t);
    Then(CONFIG, s, s1, t);
  }

  lemma Joins() returns (t: State)
    ensures Reachable(CONFIG, t) && HasJoined(t)
  {
    var s := Newcomer();
    JoinedBroker(s);
    t := s.(broker := L.Append(L.Assign(s.broker, K, false), K, 0));
    AssignsAndAppends(s, t);
    EndsARun(CONFIG, s, t);
  }

  lemma NothingToForget(committed: Marks)
    ensures TrimHistory(NOTHING, committed) == NOTHING
  {
    assert Trim({}, committed) == {};
  }

  lemma CrashForgetsHistory(s: State)
    requires s.h == NOTHING
    ensures DoCrash(s).h == NOTHING
  {
    NothingToForget(s.broker.committed);
  }

  lemma CrashForgetsWire(s: State)
    requires s.wire == D.SILENT
    ensures DoCrash(s).wire == D.SILENT
  {
    D.RestartSilent();
    assert DoCrash(s).wire == D.Restart(s.wire);
  }

  lemma CrashForgets(s: State)
    ensures var t := DoCrash(s);
            t.noiseTable == s.noiseTable && Resting(t) && t.revoked == {} && t.broker == s.broker.(position := map[])
  {
  }

  /** The process has crashed. */
  lemma Crashes(s: State) returns (t: State)
    requires s.h == NOTHING && s.wire == D.SILENT && s.noiseTable == {}
    ensures Reaches(CONFIG, s, t)
    ensures Resting(t) && t.h == NOTHING && t.wire == D.SILENT && t.noiseTable == {} && t.revoked == {}
    ensures t.broker == s.broker.(position := map[])
  {
    t := DoCrash(s);
    CrashForgetsHistory(s);
    CrashForgetsWire(s);
    CrashForgets(s);
    DoesCrash(s);
  }

  lemma DoesCrash(s: State)
    ensures Reaches(CONFIG, s, DoCrash(s))
  {
    Does(CONFIG, s, Crash, DoCrash(s));
  }

  lemma SkipsR0(b: L.Broker)
    requires b == L.Broker({R0}, map[K := 1], map[K := 0], map[], map[], {})
    ensures L.Skipped(b, K, false) == {R0}
    ensures L.Assign(b, K, false) == L.Broker({R0}, map[K := 1], map[K := 0], map[K := 1], map[], {})
  {
  }

  /** The process has joined again. */
  lemma Rejoins(s: State) returns (t: State)
    requires Resting(s) && s.h == NOTHING && s.wire == D.SILENT && s.noiseTable == {} && s.revoked == {}
    requires s.broker == L.Broker({R0}, map[K := 1], map[K := 0], map[], map[], {})
    ensures Reaches(CONFIG, s, t) && HasSkipped(t)
  {
    SkipsR0(s.broker);
    assert {} + {R0} == {R0};
    t := s.(broker := L.Assign(s.broker, K, false), h := s.h.(skipped := s.h.skipped + L.Skipped(s.broker, K, false)));
    Does(CONFIG, s, Assign(K), t);
  }

  /** Another record arrives. */
  lemma Appends(s: State) returns (t: State)
    requires HasSkipped(s)
    ensures Reaches(CONFIG, s, t) && Ready(t) && t.h == s.h
  {
    t := s.(broker := L.Append(s.broker, K, 0));
    Does(CONFIG, s, Append(K, 0), t);
  }

  /** A partition without a committed offset is assigned at the end of the log: a record that the
      group answered for before a crash is skipped after it, and the next commit passes it. */
  lemma SkippedIsPassed()
    ensures exists s :: Reachable(CONFIG, s) && Exposed(s, R0) && OnlySkipped(s.h, R0)
  {
    var s := Joins();
    var s1 := Crashes(s);
    var s2 := Rejoins(s1);
    var s3 := Appends(s2);
    ReachableGoesOn(CONFIG, s, s1);
    ReachableGoesOn(CONFIG, s1, s2);
    ReachableGoesOn(CONFIG, s2, s3);
    var t := PassesLater(s3);
  }

  /** The record could be fetched, and later lies behind the position of its partition without being
      durable. */
  ghost predicate Skips(s: State, t: State, r: Ref) {
    && L.CanFetch(s.broker, r) && r.key in t.broker.position && r.offset < t.broker.position[r.key]
    && r in t.broker.log && r.key !in t.broker.moved && !Kept(t, r)
  }

  lemma JoinedThenSkipped(s: State, t: State)
    requires HasJoined(s) && HasSkipped(t)
    ensures Skips(s, t, R0)
  {
  }

  /** Already the restart skips a record that was there to be fetched. */
  lemma FirstJoinSkips()
    ensures exists s, t :: Reachable(CONFIG, s) && Reaches(CONFIG, s, t) && Skips(s, t, R0)
  {
    var s := Joins();
    var s1 := Crashes(s);
    var t := Rejoins(s1);
    Then(CONFIG, s, s1, t);
    JoinedThenSkipped(s, t);
  }

  // A declined commit does not seek back.

  lemma NoiseIsNoise()
    ensures IsNoise(CONFIG.noise, NOISE) && !IsNoise(CONFIG.noise, LATER)
  {
    assert Lower("n") == "n";
    ShortCircuitsExactly(CONFIG.noise, NOISE.value, NOISE.value.json);
    LookupTwo(NOISE.value.json, "data", "methodName");
    LookupThree(NOISE.value.json, "data", "authorizationInfo", "granted");
    LookupThree(NOISE.value.json, "data", "authorizationInfo", "result");
    LookupThree(NOISE.value.json, "data", "result", "status");
  }

  /** From rest, a noise record is diverted to the bulk queue; its batch, which holds nothing else,
      is flushed, times out at the noise barrier and is declined. */
  function TimedOutOn(c: Config, s: State, m: Record): State
    requires m.Message? && |s.bulk.queue| < c.bulkRoom
  {
    s.(broker := L.Fetch(s.broker, m.ref), bulk := W.Step(s.bulk, c.bulkRoom, W.Put(m.ref, true)),
       h := s.h.(diverted := s.h.diverted + {m.ref}, declined := s.h.declined + {m.ref}))
  }

  lemma DivertsOne(c: Config, s: State, m: Record, t: State)
    requires s.consumer.Idle? && m.Message? && L.CanFetch(s.broker, m.ref) && c.shortCircuit && IsNoise(c.noise, m) &&
             |s.bulk.queue| < c.bulkRoom
    requires t == s.(broker := L.Fetch(s.broker, m.ref), consumer := Splitting([m], [true]),
                     bulk := W.Step(s.bulk, c.bulkRoom, W.Put(m.ref, true)),
                     h := s.h.(diverted := s.h.diverted + {m.ref}))
    ensures Reaches(c, s, t)
  {
    var s1 := s.(broker := L.Fetch(s.broker, m.ref), consumer := Splitting([m], []));
    Fetches(c, s, m);
    assert [] + [true] == [true];
    Does(c, s1, SplitNext, t);
    Then(c, s, s1, t);
  }

  lemma DivertsIt(m: Record)
    requires m.Message?
    ensures Diverts(Envelope([m], [true])) == map[m.ref.key := m.ref.offset] && Residual(Envelope([m], [true])) == []
  {
    OneRecord(m, true);
    assert Refs([m]) == [m.ref] && [m.ref][..0] == [];
    assert BumpAll(map[], [m.ref]) == Bump(BumpAll(map[], []), m.ref);
  }

  /** A batch whose one record was diverted needs no handling; its barrier times out. */
  lemma TimesOut(c: Config, s: State, m: Record, t: State)
    requires s.processor == Holding(s, m, true) && m.Message? && !c.strict && s.wire.outstanding == {}
    requires At(s.noiseMarks, m.ref.key) < m.ref.offset
    requires t == s.(processor := Gating(Envelope([m], [true]), [], true, TimedOut, Pending))
    ensures Reaches(c, s, t)
  {
    var s1 := s.(processor := Gating(Envelope([m], [true]), [], true, Pending, Pending));
    DivertsIt(m);
    Does(c, s, Flush, s1);
    Does(c, s1, NoiseTimeout, t);
    Then(c, s, s1, t);
  }

  lemma Declines(c: Config, s: State, m: Record, t: State)
    requires s.processor == Gating(Envelope([m], [true]), [], true, TimedOut, Pending) && m.Message? && !c.strict
    requires t == s.(processor := Waiting, h := s.h.(declined := s.h.declined + {m.ref}))
    ensures Reaches(c, s, t)
  {
    var s1 := s.(processor := Gating(Envelope([m], [true]), [], true, TimedOut, Passed));
    OneRecord(m, true);
    assert (set r | r in Refs([m])) == {m.ref};
    Does(c, s, PassSignal, s1);
    Does(c, s1, Finish(true), t);
    Then(c, s, s1, t);
  }

  lemma DeclinesOne(c: Config, s: State, m: Record, t: State)
    requires Resting(s) && c.records > 0 && !c.strict && s.wire.outstanding == {}
    requires m.Message? && At(s.noiseMarks, m.ref.key) < m.ref.offset && L.CanFetch(s.broker, m.ref) &&
             c.shortCircuit && IsNoise(c.noise, m) && |s.bulk.queue| < c.bulkRoom
    requires t == TimedOutOn(c, s, m)
    ensures Reaches(c, s, t)
  {
    var s1 := s.(broker := L.Fetch(s.broker, m.ref), consumer := Splitting([m], [true]),
                 bulk := W.Step(s.bulk, c.bulkRoom, W.Put(m.ref, true)), h := s.h.(diverted := s.h.diverted + {m.ref}));
    var s2 := s1.(consumer := Idle, processor := Holding(s1, m, true));
    var s3 := s2.(processor := Gating(Envelope([m], [true]), [], true, TimedOut, Pending));
    DivertsOne(c, s, m, s1);
    Arrives(c, s1, m, true);
    Then(c, s, s1, s2);
    TimesOut(c, s2, m, s3);
    Then(c, s, s2, s3);
    Declines(c, s3, m, t);
    Then(c, s, s3, t);
  }

  lemma TimedOutIsReady()
    ensures var s := TimedOutOn(CONFIG, Assigned(), NOISE);
            Ready(s) && s.h == NOTHING.(diverted := {R0}, declined := {R0})
  {
  }

  lemma DeclinesFirst() returns (s: State)
    ensures Reachable(CONFIG, s) && Ready(s) && s.h == NOTHING.(diverted := {R0}, declined := {R0})
  {
    TimedOutIsReady();
    Assigns();
    NoiseIsNoise();
    s := TimedOutOn(CONFIG, Assigned(), NOISE);
    DeclinesOne(CONFIG, Assigned(), NOISE, s);
    Then(CONFIG, Start(), Assigned(), s);
    EndsARun(CONFIG, Start(), s);
  }

  /** After a declined commit the consumer goes on, and the next batch's commit passes the declined
      noise record while it still waits in the bulk queue. */
  lemma DeclinedIsPassed()
    ensures exists s :: Reachable(CONFIG, s) && Exposed(s, R0) && OnlyDeclined(s.h, R0)
  {
    var s := DeclinesFirst();
    var t := PassesLater(s);
  }

  lemma DiscardsFirst() returns (s: State)
    ensures Reachable(CONFIG, s) && Ready(s) && s.h == NOTHING.(discarded := {R0})
  {
    s := Assigned().(broker := L.Fetch(Assigned().broker, R0), h := NOTHING.(discarded := {R0}));
    Assigns();
    Does(CONFIG, Assigned(), Discard(R0), s);
    Then(CONFIG, Start(), Assigned(), s);
    EndsARun(CONFIG, Start(), s);
  }

  /** A record that a heartbeat poll returns is never looked at, and the next commit passes it. */
  lemma DiscardedIsPassed()
    ensures exists s ::
      Reachable(CONFIG, s) && Exposed(s, R0) && OnlyDiscarded(s.h, R0) && R0 !in s.h.handled + s.h.diverted
  {
    var s := DiscardsFirst();
    var t := PassesLater(s);
  }
}
