/** The three writer lanes inside the forwarder: what they hold, in which order, and what the
    high-water marks say about it. */
module LaneInvariant {
  import opened Offsets
  import opened Sequences
  import opened Split
  import opened Batch
  import opened Protocol
  import opened Invariant
  import L = Ledger
  import W = WriterLane
  import B = Barrier

  // ---------------------------------------------------------------------------------------
  // One lane
  // ---------------------------------------------------------------------------------------

  /** The lane conserves its items and keeps the barrier's invariant; what it has inserted is in
      the table, and what has failed is on record. */
  ghost predicate LaneOk(l: W.Lane, marks: Marks, table: set<Ref>, faulty: set<Ref>, except: set<Key>) {
    && W.LaneInv(l)
    && B.BarrierInv(l, marks, except)
    && Tabled(l, table)
    && Recorded(l, faulty)
  }

  lemma LaneMoves(l: W.Lane, room: nat, move: W.LaneStep, marks: Marks, table: set<Ref>, faulty: set<Ref>,
                  except: set<Key>)
    requires LaneOk(l, marks, table, faulty, except) && W.CanStep(l, room, move) && !move.Put?
    ensures LaneOk(W.Step(l, room, move), B.Advance(l, move, marks),
                   if move.Insert? then table + Acked(l.batch) else table,
                   if move.Fail? then faulty + Acked(l.batch) else faulty, except)
  {
    W.StepKeeps(l, room, move);
    B.StepKeepsBarrier(l, room, move, marks, except);
    LaneLands(l, room, move, table);
    LaneFails(l, room, move, faulty);
  }

  /** What a lane has inserted is in the table. */
  ghost predicate Tabled(l: W.Lane, table: set<Ref>) {
    forall x | x in l.persisted && x.acks :: x.ref in table
  }

  /** What has failed in a lane is on record. */
  ghost predicate Recorded(l: W.Lane, faulty: set<Ref>) {
    forall x | (x in l.queue || x in l.batch || x in l.dlq || x in l.dropped) && x.acks && !B.Fresh(x) ::
        x.ref in faulty
  }

  lemma LaneLands(l: W.Lane, room: nat, move: W.LaneStep, table: set<Ref>)
    requires Tabled(l, table) && W.CanStep(l, room, move) && !move.Put?
    ensures Tabled(W.Step(l, room, move), if move.Insert? then table + Acked(l.batch) else table)
  {
    if move.Insert? {
      assert forall x | x in W.Step(l, room, move).persisted :: x in l.persisted || x in l.batch;
    }
  }

  lemma LaneFails(l: W.Lane, room: nat, move: W.LaneStep, faulty: set<Ref>)
    requires W.Budgeted(l) && Recorded(l, faulty) && W.CanStep(l, room, move) && !move.Put?
    ensures Recorded(W.Step(l, room, move), if move.Fail? then faulty + Acked(l.batch) else faulty)
  {
    match move
    case Take => assert l.queue[0] in l.queue;
    case Fail => BlamedRefs(l.batch);
    case Disperse => assert l.batch[0] in l.batch;
    case _ =>
  }

  lemma BlamedRefs(items: seq<W.Item>)
    ensures forall x | x in W.Blame(items) && x.acks :: x.ref in Acked(items)
  {
    forall x | x in W.Blame(items) && x.acks ensures x.ref in Acked(items) {
      var i :| 0 <= i < |items| && W.Blame(items)[i] == x;
      assert items[i] in items;
    }
  }

  lemma LaneAccepts(l: W.Lane, room: nat, r: Ref, acks: bool, marks: Marks, table: set<Ref>, faulty: set<Ref>,
                    except: set<Key>)
    requires LaneOk(l, marks, table, faulty, except) && |l.queue| < room
    requires acks ==> B.Appends(l, r, except)
    ensures LaneOk(W.Step(l, room, W.Put(r, acks)), marks, table, faulty, except)
  {
    var put := W.Put(r, acks);
    W.StepBudgeted(l, room, put);
    W.StepConserved(l, room, put);
    B.StepKeepsBarrier(l, room, put, marks, except);
  }

  lemma LaneWeakens(l: W.Lane, marks: Marks, table: set<Ref>, faulty: set<Ref>, except: set<Key>,
                    marks': Marks, table': set<Ref>, faulty': set<Ref>, except': set<Key>)
    requires LaneOk(l, marks, table, faulty, except)
    requires table <= table' && faulty <= faulty' && except <= except'
    requires forall k | k !in except' :: At(marks, k) == At(marks', k)
    ensures LaneOk(l, marks', table', faulty', except')
  {
    B.BarrierWeakens(l, marks, except, marks', except');
  }

  lemma EmptyLane(except: set<Key>)
    ensures LaneOk(W.EMPTY, map[], {}, {}, except)
  {
  }

  /** Passing the barrier: the row is in the table or its write has failed. */
  lemma PassedLands(l: W.Lane, marks: Marks, table: set<Ref>, faulty: set<Ref>, except: set<Key>, r: Ref)
    requires LaneOk(l, marks, table, faulty, except)
    requires B.Sent(l, r) && r.key !in except && r.offset <= At(marks, r.key)
    ensures r in table || r in faulty
  {
    B.BarrierSound(l, marks, except, r);
  }

  // ---------------------------------------------------------------------------------------
  // The order in which events reach a lane
  // ---------------------------------------------------------------------------------------

  /** What the processor has not reached yet, oldest first. */
  function Ahead(s: State): seq<Ref>
    requires s.processor.Handling? ==>
      |s.processor.env.source| == |s.processor.env.flags| && |s.processor.turns| <= |Residual(s.processor.env)|
  {
    (if s.processor.Handling? then Refs(Residual(s.processor.env)[|s.processor.turns|..]) else [])
    + QueueFlow(s.recordQueue) + ConsumerFlow(s.consumer)
  }

  ghost predicate Fetched(s: State, r: Ref) {
    r.key in s.broker.position && r.offset < s.broker.position[r.key]
  }

  /** Every short-circuited event lies below what the consumer has not looked at yet. */
  ghost predicate BulkBehind(s: State) {
    forall r | B.Sent(s.bulk, r) && r.key !in s.broker.moved ::
      && Fetched(s, r)
      && (s.consumer.Splitting? ==>
            forall j | |s.consumer.flags| <= j < |s.consumer.source| && s.consumer.source[j].Message?
                       && s.consumer.source[j].ref.key == r.key :: r.offset < s.consumer.source[j].ref.offset)
  }

  ghost predicate SignalSent(s: State, r: Ref) {
    B.Sent(s.critical, r) || B.Sent(s.normal, r)
  }

  /** The highest record of its partition that this process has handled. */
  predicate IsLastHandled(s: State, r: Ref) {
    At(s.processed, r.key) == r.offset
  }

  /** Every event of a signal lane, and the last handled record of a partition, lie below what the
      processor has not reached yet. */
  ghost predicate SignalBehind(s: State)
    requires Structure(s)
  {
    forall r | (SignalSent(s, r) || IsLastHandled(s, r)) && r.key !in s.broker.moved ::
      && Fetched(s, r)
      && (forall x | x in Ahead(s) && x.key == r.key :: r.offset < x.offset)
  }

  lemma {:induction false} RefsOrder(rs: seq<Record>, i: nat, j: nat) returns (a: nat, b: nat)
    requires i < j < |rs| && rs[i].Message? && rs[j].Message?
    ensures a < b < |Refs(rs)| && Refs(rs)[a] == rs[i].ref && Refs(rs)[b] == rs[j].ref
  {
    var n := |rs| - 1;
    if j == n {
      RefsMember(rs[..n], rs[i].ref);
      assert rs[..n][i] == rs[i];
      a :| 0 <= a < |Refs(rs[..n])| && Refs(rs[..n])[a] == rs[i].ref;
      b := |Refs(rs)| - 1;
    } else {
      a, b := RefsOrder(rs[..n], i, j);
    }
  }

  /** In an ascending batch, a later record of the same partition has a higher offset. */
  lemma LaterIsHigher(rs: seq<Record>, except: set<Key>, i: nat, j: nat)
    requires L.Ascending(Refs(rs), except)
    requires i < j < |rs| && rs[i].Message? && rs[j].Message? && rs[i].ref.key == rs[j].ref.key &&
             rs[i].ref.key !in except
    ensures rs[i].ref.offset < rs[j].ref.offset
  {
    var a, b := RefsOrder(rs, i, j);
  }

  /** What is picked before the last record of a batch lies below it. */
  lemma PickedBelow(rs: seq<Record>, flags: seq<bool>, want: bool, except: set<Key>)
    requires |rs| == |flags| > 0 && L.Ascending(Refs(rs), except) && rs[|rs| - 1].Message?
    ensures var n := |rs| - 1;
            forall r | r in Refs(Pick(rs[..n], flags[..n], want)) && r.key == rs[n].ref.key && r.key !in except ::
              r.offset < rs[n].ref.offset
  {
    var n := |rs| - 1;
    var rest := Pick(rs[..n], flags[..n], want);
    forall r | r in Refs(rest) && r.key == rs[n].ref.key && r.key !in except ensures r.offset < rs[n].ref.offset {
      RefsMember(rest, r);
      var x :| x in rest && x.Message? && x.ref == r;
      PickMember(rs[..n], flags[..n], want, x);
      var i :| 0 <= i < n && rs[i] == x;
      LaterIsHigher(rs, except, i, n);
    }
  }

  lemma AscendingSnoc(rs: seq<Ref>, r: Ref, except: set<Key>)
    requires L.Ascending(rs, except)
    requires r.key !in except ==> forall q | q in rs && q.key == r.key :: q.offset < r.offset
    ensures L.Ascending(rs + [r], except)
  {
  }

  lemma AscendingInit(rs: seq<Record>, except: set<Key>)
    requires rs != [] && L.Ascending(Refs(rs), except)
    ensures L.Ascending(Refs(rs[..|rs| - 1]), except)
  {
    var before := Refs(rs[..|rs| - 1]);
    assert forall i | 0 <= i < |before| :: Refs(rs)[i] == before[i];
  }

  lemma {:induction false} PickAscends(rs: seq<Record>, flags: seq<bool>, want: bool, except: set<Key>)
    requires |rs| == |flags| && L.Ascending(Refs(rs), except)
    ensures L.Ascending(Refs(Pick(rs, flags, want)), except)
  {
    if rs != [] {
      var n := |rs| - 1;
      var rest, last := Pick(rs[..n], flags[..n], want), rs[n];
      AscendingInit(rs, except);
      PickAscends(rs[..n], flags[..n], want, except);
      if flags[n] == want {
        assert Pick(rs, flags, want) == rest + [last];
        if last.Message? {
          RefsSnoc(rest, last);
          PickedBelow(rs, flags, want, except);
          AscendingSnoc(Refs(rest), last.ref, except);
        } else {
          RefsSnoc(rest, last);
          assert Refs(rest) + [] == Refs(rest);
        }
      } else {
        assert rest + [] == rest;
      }
    }
  }

  lemma AscendingParts(a: seq<Ref>, b: seq<Ref>, except: set<Key>)
    requires L.Ascending(a + b, except)
    ensures L.Ascending(a, except) && L.Ascending(b, except)
    ensures forall x, y | x in a && y in b && x.key == y.key && x.key !in except :: x.offset < y.offset
  {
    var ab := a + b;
    assert forall i | 0 <= i < |a| :: ab[i] == a[i];
    assert forall j | 0 <= j < |b| :: ab[|a| + j] == b[j];
  }

  // ---------------------------------------------------------------------------------------
  // All three lanes
  // ---------------------------------------------------------------------------------------

  ghost predicate BulkOk(s: State) {
    LaneOk(s.bulk, s.noiseMarks, s.noiseTable, s.h.faultyNoise, s.broker.moved)
  }

  /** One of the two signal lanes. They share their marks, so a mark can pass an event that waits in
      the other lane; such an event is on record as overtaken. */
  ghost predicate SharedLaneOk(l: W.Lane, marks: Marks, table: set<Ref>, faulty: set<Ref>, over: set<Ref>,
                               moved: set<Key>) {
    && W.LaneInv(l)
    && B.FirstTimersAscend(l, moved)
    && B.NotPassed(l, marks, over, moved)
    && Tabled(l, table)
    && Recorded(l, faulty)
  }

  /** A mark is the offset of an event that one of the two lanes has taken. */
  ghost predicate MarksSent(critical: W.Lane, normal: W.Lane, marks: Marks, moved: set<Key>) {
    forall k | k in marks && k !in moved :: B.Sent(critical, Ref(k, marks[k])) || B.Sent(normal, Ref(k, marks[k]))
  }

  ghost predicate SignalOk(c: Config, s: State) {
    c.strict ==>
      && SharedLaneOk(s.critical, s.signalMarks, s.signalTable, s.h.faultySignal, s.h.overtaken, s.broker.moved)
      && SharedLaneOk(s.normal, s.signalMarks, s.signalTable, s.h.faultySignal, s.h.overtaken, s.broker.moved)
      && MarksSent(s.critical, s.normal, s.signalMarks, s.broker.moved)
  }

  lemma BulkKept(c: Config, s: State, step: Step)
    requires BulkOk(s) && BulkBehind(s) && CanStep(c, s, step)
    ensures BulkOk(Next(c, s, step))
  {
    if step.SplitNext? {
      SplitBulk(c, s);
    } else if step.Handle? {
      HandleBulk(c, s, step.o);
    } else if step.Write? {
      WriteBulk(c, s, step.lane, step.move, step.dlq);
    } else if step.Crash? {
      CrashBulk(s);
    } else {
      QuietBulkOk(c, s, step);
    }
  }

  lemma CrashBulk(s: State)
    ensures BulkOk(DoCrash(s))
  {
    EmptyLane(s.broker.moved);
    LaneWeakens(W.EMPTY, map[], {}, {}, s.broker.moved,
                map[], s.noiseTable, DoCrash(s).h.faultyNoise, s.broker.moved);
  }

  lemma QuietBulkFrame(c: Config, s: State, step: Step)
    requires CanStep(c, s, step) && !step.SplitNext? && !step.Handle? && !step.Write? && !step.Crash?
    ensures var s' := Next(c, s, step);
            && s'.bulk == s.bulk && s'.noiseMarks == s.noiseMarks && s'.noiseTable == s.noiseTable
            && s'.h.faultyNoise == s.h.faultyNoise && s.broker.moved <= s'.broker.moved
  {
    if step.Consume? {
      L.FetchAllFrame(s.broker, Refs(step.batch));
    }
  }

  lemma QuietBulkOk(c: Config, s: State, step: Step)
    requires BulkOk(s) && CanStep(c, s, step) && !step.SplitNext? && !step.Handle? && !step.Write? && !step.Crash?
    ensures BulkOk(Next(c, s, step))
  {
    QuietBulkFrame(c, s, step);
    LaneWeakens(s.bulk, s.noiseMarks, s.noiseTable, s.h.faultyNoise, s.broker.moved,
                s.noiseMarks, s.noiseTable, s.h.faultyNoise, Next(c, s, step).broker.moved);
  }

  lemma SplitBulk(c: Config, s: State)
    requires BulkOk(s) && BulkBehind(s) && CanStep(c, s, SplitNext)
    ensures BulkOk(DoSplit(c, s))
  {
    if DivertsNext(c, s) {
      var r := s.consumer.source[|s.consumer.flags|].ref;
      assert B.Appends(s.bulk, r, s.broker.moved);
      LaneAccepts(s.bulk, c.bulkRoom, r, true, s.noiseMarks, s.noiseTable, s.h.faultyNoise, s.broker.moved);
    }
  }

  lemma BulkAfter(c: Config, s: State, o: Outcome)
    requires CanStep(c, s, Handle(o))
    ensures var s', record := DoHandle(c, s, o), Residual(s.processor.env)[|s.processor.turns|];
            && s'.noiseMarks == s.noiseMarks && s'.noiseTable == s.noiseTable && s'.broker == s.broker
            && s'.h.faultyNoise == s.h.faultyNoise
            && s'.bulk == if record.Message? && record.ref.key !in s.revoked
                          then Deliver(s.bulk, Bulk, c.bulkRoom, record.ref, RouteOf(o)) else s.bulk
  {
  }

  lemma HandleBulk(c: Config, s: State, o: Outcome)
    requires BulkOk(s) && CanStep(c, s, Handle(o))
    ensures BulkOk(DoHandle(c, s, o))
  {
    var record := Residual(s.processor.env)[|s.processor.turns|];
    BulkAfter(c, s, o);
    if RouteOf(o) == Routed(Bulk, true) && record.Message? {
      LaneAccepts(s.bulk, c.bulkRoom, record.ref, false, s.noiseMarks, s.noiseTable, s.h.faultyNoise, s.broker.moved);
    }
  }

  lemma WriteBulk(c: Config, s: State, lane: LaneName, move: W.LaneStep, dlq: bool)
    requires BulkOk(s) && CanStep(c, s, Write(lane, move, dlq))
    ensures BulkOk(DoWrite(c, s, lane, move, dlq))
  {
    if lane.Bulk? {
      LaneMoves(s.bulk, c.bulkRoom, move, s.noiseMarks, s.noiseTable, s.h.faultyNoise, s.broker.moved);
    }
  }

  // ---------------------------------------------------------------------------------------
  // The signal lanes
  // ---------------------------------------------------------------------------------------

  lemma SharedLaneWeakens(l: W.Lane, marks: Marks, table: set<Ref>, faulty: set<Ref>, over: set<Ref>, moved: set<Key>,
                          table': set<Ref>, faulty': set<Ref>, over': set<Ref>, moved': set<Key>)
    requires SharedLaneOk(l, marks, table, faulty, over, moved)
    requires table <= table' && faulty <= faulty' && over <= over' && moved <= moved'
    ensures SharedLaneOk(l, marks, table', faulty', over', moved')
  {
  }

  lemma SharedLaneTakes(l: W.Lane, room: nat, r: Ref, marks: Marks, table: set<Ref>, faulty: set<Ref>, over: set<Ref>,
                        moved: set<Key>)
    requires SharedLaneOk(l, marks, table, faulty, over, moved) && |l.queue| < room
    requires B.Appends(l, r, moved) && (r.key !in moved ==> B.Above(r, marks))
    ensures SharedLaneOk(W.Step(l, room, W.Put(r, true)), marks, table, faulty, over, moved)
  {
    var put := W.Put(r, true);
    W.StepBudgeted(l, room, put);
    W.StepConserved(l, room, put);
    B.OrderKept(l, room, put, moved);
    B.NotPassedKept(l, room, put, marks, over, moved);
  }

  /** A writer step of one signal lane, seen from that lane. */
  lemma SharedLaneMoves(l: W.Lane, room: nat, move: W.LaneStep, marks: Marks, table: set<Ref>, faulty: set<Ref>,
                        over: set<Ref>, moved: set<Key>)
    requires SharedLaneOk(l, marks, table, faulty, over, moved) && W.CanStep(l, room, move) && !move.Put?
    ensures SharedLaneOk(W.Step(l, room, move), B.Advance(l, move, marks),
                         if move.Insert? then table + Acked(l.batch) else table,
                         if move.Fail? then faulty + Acked(l.batch) else faulty, over, moved)
  {
    W.StepKeeps(l, room, move);
    B.OrderKept(l, room, move, moved);
    B.NotPassedKept(l, room, move, marks, over, moved);
    LaneLands(l, room, move, table);
    LaneFails(l, room, move, faulty);
  }

  /** The same step, seen from the other lane: the marks may rise past what waits there. */
  lemma SharedLaneWaits(l: W.Lane, marks: Marks, table: set<Ref>, faulty: set<Ref>, over: set<Ref>, moved: set<Key>,
                        marks': Marks, over': set<Ref>)
    requires SharedLaneOk(l, marks, table, faulty, over, moved)
    requires over <= over' && (marks' == marks || OvertakenIn(l, marks') <= over')
    ensures SharedLaneOk(l, marks', table, faulty, over', moved)
  {
    if marks' != marks {
      forall x | (x in l.queue || x in W.InHand(l)) && B.Fresh(x) && B.Watched(x, moved)
        ensures B.Above(x.ref, marks') || x.ref in over'
      {
        assert B.Above(x.ref, marks') || x.ref in OvertakenIn(l, marks');
      }
    }
  }

  lemma MarksSentKept(l: W.Lane, other: W.Lane, room: nat, move: W.LaneStep, marks: Marks, moved: set<Key>)
    requires W.LaneInv(l) && W.CanStep(l, room, move) && !move.Put? && MarksSent(l, other, marks, moved)
    ensures MarksSent(W.Step(l, room, move), other, B.Advance(l, move, marks), moved)
  {
    MoveSendsNothing(l, room, move);
    var after := B.Advance(l, move, marks);
    forall k | k in after && k !in moved ensures B.Sent(l, Ref(k, after[k])) || B.Sent(other, Ref(k, after[k])) {
      if move.Publish? {
        B.PublishedWasSent(l, marks, k);
      }
    }
  }

  lemma MoveSendsNothing(l: W.Lane, room: nat, move: W.LaneStep)
    requires W.CanStep(l, room, move) && !move.Put?
    ensures W.Step(l, room, move).accepted == l.accepted
  {
  }

  /** The message the processor is at lies above everything it has sent to the signal lanes. */
  lemma NextAppends(c: Config, s: State, o: Outcome)
    requires Structure(s) && SignalBehind(s) && CanStep(c, s, Handle(o))
    requires Residual(s.processor.env)[|s.processor.turns|].Message?
    ensures var r := Residual(s.processor.env)[|s.processor.turns|].ref;
            B.Appends(s.critical, r, s.broker.moved) && B.Appends(s.normal, r, s.broker.moved)
  {
    var todo := Residual(s.processor.env)[|s.processor.turns|..];
    RefsMember(todo, todo[0].ref);
    assert todo[0].ref in Ahead(s);
  }

  /** What a handling does to the signal lanes. */
  lemma HandleRoutes(c: Config, s: State, o: Outcome)
    requires CanStep(c, s, Handle(o))
    ensures var s', record := DoHandle(c, s, o), Residual(s.processor.env)[|s.processor.turns|];
            && s'.signalMarks == s.signalMarks && s'.signalTable == s.signalTable && s'.broker == s.broker
            && s'.h.faultySignal == s.h.faultySignal && s'.h.overtaken == s.h.overtaken
            && if record.Message? && record.ref.key !in s.revoked
               then && s'.critical == Deliver(s.critical, Critical, c.criticalRoom, record.ref, RouteOf(o))
                    && s'.normal == Deliver(s.normal, Normal, c.normalRoom, record.ref, RouteOf(o))
               else s'.critical == s.critical && s'.normal == s.normal
  {
  }

  lemma NextIsAboveMarks(critical: W.Lane, normal: W.Lane, r: Ref, marks: Marks, moved: set<Key>)
    requires MarksSent(critical, normal, marks, moved) && B.Appends(critical, r, moved) && B.Appends(normal, r, moved)
    ensures r.key !in moved ==> B.Above(r, marks)
  {
  }

  /** A signal lane takes the next event, if it was routed there and has room. */
  lemma SharedLaneDelivers(l: W.Lane, lane: LaneName, room: nat, r: Ref, route: Route, marks: Marks, table: set<Ref>,
                           faulty: set<Ref>, over: set<Ref>, moved: set<Key>)
    requires SharedLaneOk(l, marks, table, faulty, over, moved) && !lane.Bulk?
    requires B.Appends(l, r, moved) && (r.key !in moved ==> B.Above(r, marks))
    requires route == Routed(lane, true) ==> |l.queue| < room
    ensures SharedLaneOk(Deliver(l, lane, room, r, route), marks, table, faulty, over, moved)
    ensures forall q | B.Sent(l, q) :: B.Sent(Deliver(l, lane, room, r, route), q)
  {
    if route == Routed(lane, true) {
      SharedLaneTakes(l, room, r, marks, table, faulty, over, moved);
    }
  }

  lemma HandleSignal(c: Config, s: State, o: Outcome)
    requires Structure(s) && SignalOk(c, s) && SignalBehind(s) && CanStep(c, s, Handle(o))
    ensures SignalOk(c, DoHandle(c, s, o))
  {
    var record := Residual(s.processor.env)[|s.processor.turns|];
    HandleRoutes(c, s, o);
    if c.strict && record.Message? && record.ref.key !in s.revoked {
      var r := record.ref;
      NextAppends(c, s, o);
      NextIsAboveMarks(s.critical, s.normal, r, s.signalMarks, s.broker.moved);
      SharedLaneDelivers(s.critical, Critical, c.criticalRoom, r, RouteOf(o), s.signalMarks, s.signalTable,
                         s.h.faultySignal, s.h.overtaken, s.broker.moved);
      SharedLaneDelivers(s.normal, Normal, c.normalRoom, r, RouteOf(o), s.signalMarks, s.signalTable,
                         s.h.faultySignal, s.h.overtaken, s.broker.moved);
    }
  }

  /** What a signal writer's step does to both lanes. */
  lemma WriteShares(c: Config, s: State, lane: LaneName, move: W.LaneStep, dlq: bool)
    requires CanStep(c, s, Write(lane, move, dlq)) && !lane.Bulk? && c.strict
    ensures var s', l := DoWrite(c, s, lane, move, dlq), LaneOf(s, lane);
            && LaneOf(s', lane) == W.Step(l, RoomOf(c, lane), move) && OtherLane(s', lane) == OtherLane(s, lane)
            && s'.signalMarks == B.Advance(l, move, s.signalMarks) && s'.broker == s.broker
            && s'.signalTable == (if move.Insert? then s.signalTable + Acked(l.batch) else s.signalTable)
            && s'.h.faultySignal == (if move.Fail? then s.h.faultySignal + Acked(l.batch) else s.h.faultySignal)
            && s.h.overtaken <= s'.h.overtaken
            && (move.Publish? ==> OvertakenIn(OtherLane(s, lane), s'.signalMarks) <= s'.h.overtaken)
  {
  }

  /** A writer's step at a signal lane, on both lanes. */
  lemma SharedLanesMove(l: W.Lane, other: W.Lane, room: nat, move: W.LaneStep, marks: Marks, table: set<Ref>,
                        faulty: set<Ref>, over: set<Ref>, moved: set<Key>, over': set<Ref>)
    requires SharedLaneOk(l, marks, table, faulty, over, moved) &&
             SharedLaneOk(other, marks, table, faulty, over, moved)
    requires W.CanStep(l, room, move) && !move.Put? && over <= over'
    requires move.Publish? ==> OvertakenIn(other, B.Advance(l, move, marks)) <= over'
    ensures var marks' := B.Advance(l, move, marks);
            var table' := if move.Insert? then table + Acked(l.batch) else table;
            var faulty' := if move.Fail? then faulty + Acked(l.batch) else faulty;
            && SharedLaneOk(W.Step(l, room, move), marks', table', faulty', over', moved)
            && SharedLaneOk(other, marks', table', faulty', over', moved)
  {
    var marks' := B.Advance(l, move, marks);
    var table' := if move.Insert? then table + Acked(l.batch) else table;
    var faulty' := if move.Fail? then faulty + Acked(l.batch) else faulty;
    SharedLaneMoves(l, room, move, marks, table, faulty, over, moved);
    SharedLaneWeakens(W.Step(l, room, move), marks', table', faulty', over, moved, table', faulty', over', moved);
    SharedLaneWaits(other, marks, table, faulty, over, moved, marks', over');
    SharedLaneWeakens(other, marks', table, faulty, over', moved, table', faulty', over', moved);
  }

  lemma WriteSignal(c: Config, s: State, lane: LaneName, move: W.LaneStep, dlq: bool)
    requires SignalOk(c, s) && CanStep(c, s, Write(lane, move, dlq))
    ensures SignalOk(c, DoWrite(c, s, lane, move, dlq))
  {
    if c.strict && !lane.Bulk? {
      var s', l, other := DoWrite(c, s, lane, move, dlq), LaneOf(s, lane), OtherLane(s, lane);
      WriteShares(c, s, lane, move, dlq);
      SharedLanesMove(l, other, RoomOf(c, lane), move, s.signalMarks, s.signalTable, s.h.faultySignal, s.h.overtaken,
                      s.broker.moved, s'.h.overtaken);
      MarksSentKept(l, other, RoomOf(c, lane), move, s.signalMarks, s.broker.moved);
    }
  }

  lemma EmptySharedLane(table: set<Ref>, faulty: set<Ref>, over: set<Ref>, moved: set<Key>)
    ensures SharedLaneOk(W.EMPTY, map[], table, faulty, over, moved)
  {
  }

  lemma CrashSignal(c: Config, s: State)
    requires CanStep(c, s, Crash)
    ensures SignalOk(c, DoCrash(s))
  {
    var s' := DoCrash(s);
    EmptySharedLane(s'.signalTable, s'.h.faultySignal, s'.h.overtaken, s'.broker.moved);
  }

  lemma SignalKept(c: Config, s: State, step: Step)
    requires Structure(s) && SignalOk(c, s) && SignalBehind(s) && CanStep(c, s, step)
    ensures SignalOk(c, Next(c, s, step))
  {
    if step.Handle? {
      HandleSignal(c, s, step.o);
    } else if step.Write? {
      WriteSignal(c, s, step.lane, step.move, step.dlq);
    } else if step.Crash? {
      CrashSignal(c, s);
    } else {
      QuietSignal(c, s, step);
    }
  }

  lemma QuietSignalLanes(c: Config, s: State, step: Step)
    requires CanStep(c, s, step) && !step.Handle? && !step.Write? && !step.Crash?
    ensures var s' := Next(c, s, step);
            s'.critical == s.critical && s'.normal == s.normal && s'.signalMarks == s.signalMarks &&
            s'.signalTable == s.signalTable
  {
  }

  lemma QuietSignalHistory(c: Config, s: State, step: Step)
    requires CanStep(c, s, step) && !step.Handle? && !step.Write? && !step.Crash?
    ensures var s' := Next(c, s, step);
            s'.h.faultySignal == s.h.faultySignal && s'.h.overtaken == s.h.overtaken
  {
  }

  lemma MovedStays(c: Config, s: State, step: Step)
    requires CanStep(c, s, step)
    ensures s.broker.moved <= Next(c, s, step).broker.moved
  {
    if step.Consume? {
      L.FetchAllFrame(s.broker, Refs(step.batch));
    }
  }

  lemma QuietSignal(c: Config, s: State, step: Step)
    requires SignalOk(c, s) && CanStep(c, s, step) && !step.Handle? && !step.Write? && !step.Crash?
    ensures SignalOk(c, Next(c, s, step))
  {
    QuietSignalLanes(c, s, step);
    QuietSignalHistory(c, s, step);
    MovedStays(c, s, step);
    SignalsWeaken(c, s, Next(c, s, step));
  }

  /** The lanes as they are, with more revoked partitions. */
  lemma SignalsWeaken(c: Config, s: State, s': State)
    requires SignalOk(c, s) && s.broker.moved <= s'.broker.moved
    requires s'.critical == s.critical && s'.normal == s.normal && s'.signalMarks == s.signalMarks &&
             s'.signalTable == s.signalTable
    requires s'.h.faultySignal == s.h.faultySignal && s'.h.overtaken == s.h.overtaken
    ensures SignalOk(c, s')
  {
    if c.strict {
      SharedLaneWeakens(s.critical, s.signalMarks, s.signalTable, s.h.faultySignal, s.h.overtaken, s.broker.moved,
                        s.signalTable, s.h.faultySignal, s.h.overtaken, s'.broker.moved);
      SharedLaneWeakens(s.normal, s.signalMarks, s.signalTable, s.h.faultySignal, s.h.overtaken, s.broker.moved,
                        s.signalTable, s.h.faultySignal, s.h.overtaken, s'.broker.moved);
    }
  }
}
