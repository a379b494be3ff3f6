/** One writer lane: a bounded FIFO queue and the thread that drains it into Postgres in batches,
    with a retry budget for every item of a failed batch. */
module WriterLane {
  import opened Offsets

  const WRITER_MAX_RETRIES: nat := 3

  /** A queued event. `acks` says whether its insertion is published on the lane's high-water
      mark; `failures` is history: the failed batches the item has been part of. */
  datatype Item = Item(ref: Ref, acks: bool, retries: nat, failures: nat)

  /** What stays the same about an item while it is retried. */
  datatype Cargo = Cargo(ref: Ref, acks: bool)

  datatype Disposition = ToDlq(item: Item) | Requeued(item: Item) | Dropped(item: Item)

  function CargoOf(x: Item): Cargo {
    Cargo(x.ref, x.acks)
  }

  /** How many of the items carry `c`. */
  ghost function Count(items: seq<Item>, c: Cargo): nat {
    if items == [] then 0 else Count(items[1..], c) + (if CargoOf(items[0]) == c then 1 else 0)
  }

  /** Writes still allowed to a sequence of items. */
  ghost function Work(items: seq<Item>): int {
    if items == [] then 0
    else Work(items[1..]) + (WRITER_MAX_RETRIES + 1 - items[0].retries)
  }

  lemma {:induction false} CountConcat(a: seq<Item>, b: seq<Item>, c: Cargo)
    ensures Count(a + b, c) == Count(a, c) + Count(b, c)
  {
    if a == [] {
      assert a + b == b;
    } else {
      CountConcat(a[1..], b, c);
      assert (a + b)[1..] == a[1..] + b;
    }
  }

  lemma {:induction false} WorkConcat(a: seq<Item>, b: seq<Item>)
    ensures Work(a + b) == Work(a) + Work(b)
  {
    if a == [] {
      assert a + b == b;
    } else {
      WorkConcat(a[1..], b);
      assert (a + b)[1..] == a[1..] + b;
    }
  }

  lemma {:induction false} CountMember(items: seq<Item>, c: Cargo)
    ensures Count(items, c) > 0 <==> exists i :: 0 <= i < |items| && CargoOf(items[i]) == c
  {
    if items != [] {
      CountMember(items[1..], c);
      if i :| 0 <= i < |items| && CargoOf(items[i]) == c && i > 0 {
        assert items[1..][i - 1] == items[i];
      }
      if i :| 0 <= i < |items[1..]| && CargoOf(items[1..][i]) == c {
        assert items[i + 1] == items[1..][i];
      }
    }
  }

  // ---------------------------------------------------------------------------------------
  // The lane as a state machine
  // ---------------------------------------------------------------------------------------

  datatype Phase = Filling | Inserted | Failing

  datatype Lane = Lane(
    queue: seq<Item>, batch: seq<Item>, phase: Phase,
    accepted: multiset<Cargo>, persisted: seq<Item>, dlq: seq<Item>, dropped: seq<Item>)

  const EMPTY: Lane := Lane([], [], Filling, multiset{}, [], [], [])

  datatype LaneStep =
    | Put(ref: Ref, acks: bool)  // another thread enqueues an event
    | Take                       // the writer adds the head of the queue to its batch
    | Insert                     // the batch write succeeds
    | Publish                    // the high-water mark is raised for the inserted batch
    | Fail                       // the batch write fails
    | Disperse                   // one item of the failed batch is requeued, dropped or sent to the DLQ

  predicate CanStep(l: Lane, capacity: nat, step: LaneStep) {
    match step
    case Put(_, _) => |l.queue| < capacity
    case Take => l.phase.Filling? && l.queue != []
    case Insert => l.phase.Filling? && l.batch != []
    case Publish => l.phase.Inserted?
    case Fail => l.phase.Filling? && l.batch != []
    case Disperse => l.phase.Failing? && l.batch != []
  }

  /** The fate of one item of a failed batch. */
  function Dispose(x: Item, queued: nat, capacity: nat): Disposition {
    var retry := x.retries + 1;
    if retry > WRITER_MAX_RETRIES then ToDlq(x)
    else if queued < capacity then Requeued(x.(retries := retry))
    else Dropped(x.(retries := retry))
  }

  function Blame(items: seq<Item>): (r: seq<Item>)
    ensures |r| == |items|
  {
    seq(|items|, i requires 0 <= i < |items| => items[i].(failures := items[i].failures + 1))
  }

  function Step(l: Lane, capacity: nat, step: LaneStep): Lane
    requires CanStep(l, capacity, step)
  {
    match step
    case Put(ref, acks) =>
      l.(queue := l.queue + [Item(ref, acks, 0, 0)], accepted := l.accepted + multiset{Cargo(ref, acks)})
    case Take => l.(queue := l.queue[1..], batch := l.batch + [l.queue[0]])
    case Insert => l.(phase := Inserted, persisted := l.persisted + l.batch)
    case Publish => l.(phase := Filling, batch := [])
    case Fail => l.(phase := Failing, batch := Blame(l.batch))
    case Disperse =>
      var rest := l.batch[1..];
      var l' := l.(batch := rest, phase := if rest == [] then Filling else Failing);
      match Dispose(l.batch[0], |l.queue|, capacity)
      case ToDlq(x) => l'.(dlq := l.dlq + [x])
      case Requeued(x) => l'.(queue := l.queue + [x])
      case Dropped(x) => l'.(dropped := l.dropped + [x])
  }

  /** The items that are in the lane and not yet written. */
  function InHand(l: Lane): seq<Item> {
    if l.phase.Inserted? then [] else l.batch
  }

  /** How often Postgres was asked to write an item that has left the lane through `persisted`. */
  function Attempts(x: Item): nat {
    x.failures + 1
  }

  ghost predicate Budgeted(l: Lane) {
    && (forall x | x in l.queue :: x.retries == x.failures <= WRITER_MAX_RETRIES)
    && (forall x | x in l.batch :: x.failures == x.retries + (if l.phase.Failing? then 1 else 0))
    && (forall x | x in l.batch :: x.retries <= WRITER_MAX_RETRIES)
    && (forall x | x in l.persisted :: Attempts(x) <= WRITER_MAX_RETRIES + 1)
    && (forall x | x in l.dlq :: x.failures == WRITER_MAX_RETRIES + 1)
    && (forall x | x in l.dropped :: 1 <= x.failures == x.retries <= WRITER_MAX_RETRIES)
    && (l.phase.Inserted? ==> forall x | x in l.batch :: x in l.persisted)
    && (!l.phase.Filling? ==> l.batch != [])
  }

  /** How many items of the lane carry `c`, wherever they are. */
  ghost function Located(l: Lane, c: Cargo): nat {
    Count(l.queue, c) + Count(InHand(l), c) + Count(l.persisted, c) + Count(l.dlq, c) + Count(l.dropped, c)
  }

  ghost predicate Conserved(l: Lane) {
    forall c :: l.accepted[c] == Located(l, c)
  }

  ghost predicate LaneInv(l: Lane) {
    Budgeted(l) && Conserved(l)
  }

  lemma {:induction false} BlameKeepsCargo(items: seq<Item>, c: Cargo)
    ensures Count(Blame(items), c) == Count(items, c)
  {
    if items != [] {
      assert Blame(items)[1..] == Blame(items[1..]);
      BlameKeepsCargo(items[1..], c);
    }
  }

  lemma CountSnoc(items: seq<Item>, x: Item, c: Cargo)
    ensures Count(items + [x], c) == Count(items, c) + (if CargoOf(x) == c then 1 else 0)
  {
    CountConcat(items, [x], c);
  }

  lemma StepBudgeted(l: Lane, capacity: nat, step: LaneStep)
    requires Budgeted(l) && CanStep(l, capacity, step)
    ensures Budgeted(Step(l, capacity, step))
  {
    if step.Disperse? {
      assert l.batch[0] in l.batch;
    }
  }

  lemma DisperseKeepsCount(l: Lane, capacity: nat, c: Cargo)
    requires CanStep(l, capacity, Disperse)
    ensures Located(Step(l, capacity, Disperse), c) == Located(l, c)
  {
    match Dispose(l.batch[0], |l.queue|, capacity)
    case ToDlq(x) => CountSnoc(l.dlq, x, c);
    case Requeued(x) => CountSnoc(l.queue, x, c);
    case Dropped(x) => CountSnoc(l.dropped, x, c);
  }

  lemma StepCounts(l: Lane, capacity: nat, step: LaneStep, c: Cargo)
    requires CanStep(l, capacity, step)
    ensures Located(Step(l, capacity, step), c)
         == Located(l, c) + (if step == Put(c.ref, c.acks) then 1 else 0)
  {
    match step
    case Put(ref, acks) => CountSnoc(l.queue, Item(ref, acks, 0, 0), c);
    case Take => CountSnoc(l.batch, l.queue[0], c);
    case Insert => CountConcat(l.persisted, l.batch, c);
    case Publish =>
    case Fail => BlameKeepsCargo(l.batch, c);
    case Disperse => DisperseKeepsCount(l, capacity, c);
  }

  lemma StepConserved(l: Lane, capacity: nat, step: LaneStep)
    requires Conserved(l) && CanStep(l, capacity, step)
    ensures Conserved(Step(l, capacity, step))
  {
    forall c ensures Step(l, capacity, step).accepted[c] == Located(Step(l, capacity, step), c) {
      StepCounts(l, capacity, step, c);
    }
  }

  ghost predicate IsLaneRun(capacity: nat, run: seq<Lane>, steps: seq<LaneStep>) {
    && |run| == |steps| + 1
    && run[0] == EMPTY
    && forall i | 0 <= i < |steps| ::
         CanStep(run[i], capacity, steps[i]) && run[i + 1] == Step(run[i], capacity, steps[i])
  }

  /** Conservation: whatever the interleaving of arrivals, writes and failures, every accepted
      event is queued, in hand, persisted, in the DLQ or dropped at a full requeue, and an item's
      retry count is the number of its failed writes, of which there are at most four. */
  lemma {:induction false} LaneConserves(capacity: nat, run: seq<Lane>, steps: seq<LaneStep>, n: nat)
    requires IsLaneRun(capacity, run, steps) && n < |run|
    ensures LaneInv(run[n])
  {
    if n > 0 {
      LaneConserves(capacity, run, steps, n - 1);
      StepBudgeted(run[n - 1], capacity, steps[n - 1]);
      StepConserved(run[n - 1], capacity, steps[n - 1]);
    }
  }

  lemma Extends(capacity: nat, run: seq<Lane>, steps: seq<LaneStep>, step: LaneStep)
      returns (run': seq<Lane>, steps': seq<LaneStep>)
    requires IsLaneRun(capacity, run, steps) && CanStep(run[|steps|], capacity, step)
    ensures IsLaneRun(capacity, run', steps') && run'[|steps'|] == Step(run[|steps|], capacity, step)
  {
    run', steps' := run + [Step(run[|steps|], capacity, step)], steps + [step];
  }

  /** A lane that holds one queued item which has failed `k` times. */
  function Waiting(r: Ref, k: nat): Lane {
    Lane([Item(r, true, k, k)], [], Filling, multiset{} + multiset{Cargo(r, true)}, [], [], [])
  }

  /** The item can fail any number of times up to the number of its retries, and then fail again. */
  lemma {:induction false} FailsOften(r: Ref, k: nat) returns (run: seq<Lane>, steps: seq<LaneStep>)
    requires k <= WRITER_MAX_RETRIES
    ensures IsLaneRun(1, run, steps) && run[|steps|] == Waiting(r, k)
  {
    if k == 0 {
      run, steps := Extends(1, [EMPTY], [], Put(r, true));
    } else {
      run, steps := FailsOften(r, k - 1);
      var x, y := Item(r, true, k - 1, k - 1), Item(r, true, k - 1, k);
      run, steps := Extends(1, run, steps, Take);
      assert run[|steps|].batch == [x] && run[|steps|].queue == [];
      run, steps := Extends(1, run, steps, Fail);
      assert run[|steps|].batch == [y];
      run, steps := Extends(1, run, steps, Disperse);
    }
  }

  /** Four writes, not three: the item whose three retries are spent is written once more. */
  lemma FourthWrite(r: Ref)
    ensures exists run: seq<Lane>, steps: seq<LaneStep> ::
            IsLaneRun(1, run, steps) && run[|steps|].dlq == [Item(r, true, 3, 4)]
    ensures exists run: seq<Lane>, steps: seq<LaneStep> ::
            IsLaneRun(1, run, steps) && run[|steps|].persisted == [Item(r, true, 3, 3)]
  {
    var run, steps := FailsOften(r, 3);
    var x, y := Item(r, true, 3, 3), Item(r, true, 3, 4);
    run, steps := Extends(1, run, steps, Take);
    assert run[|steps|].batch == [x] && run[|steps|].queue == [];
    var run1, steps1 := Extends(1, run, steps, Insert);
    assert run1[|steps1|].persisted == [x];
    var run2, steps2 := Extends(1, run, steps, Fail);
    assert run2[|steps2|].batch == [y];
    run2, steps2 := Extends(1, run2, steps2, Disperse);
  }

  // ---------------------------------------------------------------------------------------
  // Draining
  // ---------------------------------------------------------------------------------------

  /** Writes the lane may still ask for. A failing batch has already spent one write per item. */
  ghost function Potential(l: Lane): int {
    Work(l.queue) + Work(InHand(l)) - (if l.phase.Failing? then |l.batch| else 0)
  }

  /** Items that a step asks Postgres to write. */
  function Written(l: Lane, step: LaneStep): nat {
    if step.Insert? || step.Fail? then |l.batch| else 0
  }

  lemma {:induction false} WorkAtLeast(items: seq<Item>, least: nat)
    requires forall x | x in items :: x.retries + least <= WRITER_MAX_RETRIES + 1
    ensures Work(items) >= least * |items|
  {
    if items != [] {
      assert items[0] in items;
      WorkAtLeast(items[1..], least);
    }
  }

  lemma {:induction false} BlameKeepsWork(items: seq<Item>)
    ensures Work(Blame(items)) == Work(items)
  {
    if items != [] {
      assert Blame(items)[1..] == Blame(items[1..]);
      BlameKeepsWork(items[1..]);
    }
  }

  lemma StepSpends(l: Lane, capacity: nat, step: LaneStep)
    requires Budgeted(l) && CanStep(l, capacity, step)
    ensures Potential(Step(l, capacity, step)) + Written(l, step)
         <= Potential(l) + (if step.Put? then WRITER_MAX_RETRIES + 1 else 0)
  {
    match step
    case Put(ref, acks) => WorkConcat(l.queue, [Item(ref, acks, 0, 0)]);
    case Take => WorkConcat(l.batch, [l.queue[0]]);
    case Insert => WorkAtLeast(l.batch, 1);
    case Publish =>
    case Fail => BlameKeepsWork(l.batch);
    case Disperse =>
      assert l.batch[0] in l.batch;
      match Dispose(l.batch[0], |l.queue|, capacity)
      case ToDlq(_) =>
      case Requeued(x) => WorkConcat(l.queue, [x]);
      case Dropped(_) =>
  }

  ghost function TotalWritten(run: seq<Lane>, steps: seq<LaneStep>, from: nat, to: nat): nat
    requires from <= to <= |steps| <= |run|
  {
    if from == to then 0 else TotalWritten(run, steps, from, to - 1) + Written(run[to - 1], steps[to - 1])
  }

  lemma RunSpends(capacity: nat, run: seq<Lane>, steps: seq<LaneStep>, n: nat)
    requires IsLaneRun(capacity, run, steps) && n < |steps| && !steps[n].Put?
    ensures Potential(run[n + 1]) + Written(run[n], steps[n]) <= Potential(run[n])
  {
    LaneConserves(capacity, run, steps, n);
    StepSpends(run[n], capacity, steps[n]);
  }

  /** Drain: once arrivals stop, the items written from then on are bounded by the work that was
      left, whatever succeeds or fails. */
  lemma {:induction false} LaneDrains(capacity: nat, run: seq<Lane>, steps: seq<LaneStep>, from: nat, to: nat)
    requires IsLaneRun(capacity, run, steps) && from <= to <= |steps|
    requires forall i | from <= i < to :: !steps[i].Put?
    ensures Potential(run[to]) + TotalWritten(run, steps, from, to) <= Potential(run[from])
  {
    if from < to {
      LaneDrains(capacity, run, steps, from, to - 1);
      RunSpends(capacity, run, steps, to - 1);
    }
  }

  /** Weighs the work left and the bookkeeping steps around it. */
  ghost function Rank(l: Lane): int {
    3 * Potential(l) + |l.queue|
    + (match l.phase case Filling => 0 case Inserted => |l.batch| case Failing => 2 * |l.batch|)
  }

  lemma StepLowersRank(l: Lane, capacity: nat, step: LaneStep)
    requires Budgeted(l) && CanStep(l, capacity, step) && !step.Put?
    ensures Rank(Step(l, capacity, step)) < Rank(l)
  {
    StepSpends(l, capacity, step);
  }

  lemma RankIsNatural(l: Lane)
    requires Budgeted(l)
    ensures Rank(l) >= 0
  {
    WorkAtLeast(l.queue, 1);
    WorkAtLeast(InHand(l), 1);
  }

  /** Once arrivals stop the lane empties: it takes at most `Rank` more steps, and it cannot come
      to rest before its queue and its batch are empty. */
  lemma {:induction false} LaneEmpties(capacity: nat, run: seq<Lane>, steps: seq<LaneStep>, from: nat, to: nat)
    requires IsLaneRun(capacity, run, steps) && from <= to <= |steps|
    requires forall i | from <= i < to :: !steps[i].Put?
    ensures to - from <= Rank(run[from])
    ensures run[to].queue + run[to].batch != [] ==>
      exists step :: CanStep(run[to], capacity, step) && !step.Put?
  {
    RanksFall(capacity, run, steps, from, to);
    LaneConserves(capacity, run, steps, to);
    RankIsNatural(run[to]);
    var l := run[to];
    if l.phase.Inserted? {
      assert CanStep(l, capacity, Publish);
    } else if l.phase.Failing? {
      assert CanStep(l, capacity, Disperse);
    } else if l.batch != [] {
      assert CanStep(l, capacity, Insert);
    } else if l.queue != [] {
      assert CanStep(l, capacity, Take);
    }
  }

  lemma {:induction false} RanksFall(capacity: nat, run: seq<Lane>, steps: seq<LaneStep>, from: nat, to: nat)
    requires IsLaneRun(capacity, run, steps) && from <= to <= |steps|
    requires forall i | from <= i < to :: !steps[i].Put?
    ensures Rank(run[to]) + (to - from) <= Rank(run[from])
  {
    if from < to {
      RanksFall(capacity, run, steps, from, to - 1);
      LaneConserves(capacity, run, steps, to - 1);
      StepLowersRank(run[to - 1], capacity, steps[to - 1]);
    }
  }

  lemma StepKeeps(l: Lane, capacity: nat, step: LaneStep)
    requires LaneInv(l) && CanStep(l, capacity, step) && !step.Put?
    ensures LaneInv(Step(l, capacity, step))
    ensures Potential(Step(l, capacity, step)) + Written(l, step) <= Potential(l)
  {
    StepBudgeted(l, capacity, step);
    StepConserved(l, capacity, step);
    StepSpends(l, capacity, step);
  }

  // ---------------------------------------------------------------------------------------
  // The writer thread
  // ---------------------------------------------------------------------------------------

  /** A failed batch dispersed to its end. */
  function DisperseAll(l: Lane, capacity: nat): Lane
    requires l.phase.Failing? && l.batch != []
    decreases |l.batch|
  {
    var l' := Step(l, capacity, Disperse);
    if l'.batch == [] then l' else DisperseAll(l', capacity)
  }

  lemma DisperseNext(l: Lane, capacity: nat)
    requires l.phase.Failing? && l.batch != []
    ensures var l' := Step(l, capacity, Disperse);
            && l'.batch == l.batch[1..] && l'.phase == (if l'.batch == [] then Filling else Failing)
            && DisperseAll(l, capacity) == if l'.batch == [] then l' else DisperseAll(l', capacity)
  {
  }

  /** The lane when its batch has been inserted and published. */
  function Persisted(l: Lane): Lane {
    l.(batch := [], persisted := l.persisted + l.batch)
  }

  lemma BatchPersists(l: Lane, capacity: nat)
    requires LaneInv(l) && l.phase.Filling? && l.batch != []
    ensures LaneInv(Persisted(l)) && Potential(Persisted(l)) + |l.batch| <= Potential(l)
  {
    var l1 := Step(l, capacity, Insert);
    StepKeeps(l, capacity, Insert);
    StepKeeps(l1, capacity, Publish);
    assert Step(l1, capacity, Publish) == Persisted(l);
  }

  /** The item as it goes back to the queue, if it has budget left. */
  function Retried(x: Item): seq<Item> {
    if x.retries < WRITER_MAX_RETRIES then [x.(retries := x.retries + 1)] else []
  }

  function Retryable(items: seq<Item>): seq<Item> {
    if items == [] then [] else Retried(items[0]) + Retryable(items[1..])
  }

  function Exhausted(items: seq<Item>): seq<Item> {
    if items == [] then []
    else if items[0].retries < WRITER_MAX_RETRIES then Exhausted(items[1..])
    else [items[0]] + Exhausted(items[1..])
  }

  /** How many of the wanted items still fit. */
  function Room(queued: nat, capacity: nat, wanted: nat): (n: nat)
    ensures n <= wanted && (n > 0 ==> queued + n <= capacity) && (n < wanted ==> queued + n >= capacity)
  {
    if capacity <= queued then 0 else if capacity - queued < wanted then capacity - queued else wanted
  }

  /** Where a failed batch goes: items with budget left are requeued at the tail in order while
      there is room and dropped after that, and only the others reach the DLQ. */
  ghost predicate Splits(queue: seq<Item>, dropped: seq<Item>, dlq: seq<Item>, failed: seq<Item>, capacity: nat,
                         l: Lane) {
    var again := Retryable(failed);
    var n := Room(|queue|, capacity, |again|);
    l.queue == queue + again[..n] && l.dropped == dropped + again[n..] && l.dlq == dlq + Exhausted(failed)
  }

  lemma NothingSplits(l: Lane, capacity: nat)
    ensures Splits(l.queue, l.dropped, l.dlq, Blame([]), capacity, l)
  {
    assert Blame([]) == [] && Retryable(Blame([])) == [];
  }

  lemma RequeuedHead(l: Lane, capacity: nat, y: Item)
    requires l.batch != [] && |l.queue| < capacity && Retried(l.batch[0]) == [y]
    ensures var again, later := Retryable(l.batch), Retryable(l.batch[1..]);
            var m := Room(|l.queue| + 1, capacity, |later|);
            && Room(|l.queue|, capacity, |again|) == m + 1
            && l.queue + again[..m + 1] == l.queue + [y] + later[..m]
            && again[m + 1..] == later[m..]
  {
    var again, later := Retryable(l.batch), Retryable(l.batch[1..]);
    var m := Room(|l.queue| + 1, capacity, |later|);
    assert again == [y] + later;
    assert again[..m + 1] == [y] + later[..m];
  }

  /** The three fates of the head of a failed batch, as parts of where the whole batch goes. */
  lemma ExhaustedHead(l: Lane, capacity: nat, end: Lane)
    requires l.batch != [] && l.batch[0].retries >= WRITER_MAX_RETRIES
    requires Splits(l.queue, l.dropped, l.dlq + [l.batch[0]], l.batch[1..], capacity, end)
    ensures Splits(l.queue, l.dropped, l.dlq, l.batch, capacity, end)
  {
    var x, rest := l.batch[0], l.batch[1..];
    assert Retryable(l.batch) == Retryable(rest);
    assert l.dlq + ([x] + Exhausted(rest)) == (l.dlq + [x]) + Exhausted(rest);
  }

  lemma DroppedHead(l: Lane, capacity: nat, y: Item, end: Lane)
    requires l.batch != [] && Retried(l.batch[0]) == [y] && |l.queue| >= capacity
    requires Splits(l.queue, l.dropped + [y], l.dlq, l.batch[1..], capacity, end)
    ensures Splits(l.queue, l.dropped, l.dlq, l.batch, capacity, end)
  {
    var again, later := Retryable(l.batch), Retryable(l.batch[1..]);
    assert again == [y] + later && again[..0] == later[..0] && again[0..] == again && later[0..] == later;
    assert l.dropped + ([y] + later) == (l.dropped + [y]) + later;
  }

  lemma KeptHead(l: Lane, capacity: nat, y: Item, end: Lane)
    requires l.batch != [] && Retried(l.batch[0]) == [y] && |l.queue| < capacity
    requires Splits(l.queue + [y], l.dropped, l.dlq, l.batch[1..], capacity, end)
    ensures Splits(l.queue, l.dropped, l.dlq, l.batch, capacity, end)
  {
    RequeuedHead(l, capacity, y);
  }

  lemma SplitsHead(l: Lane, capacity: nat, end: Lane)
    requires l.phase.Failing? && l.batch != []
    requires var l1 := Step(l, capacity, Disperse); Splits(l1.queue, l1.dropped, l1.dlq, l1.batch, capacity, end)
    ensures Splits(l.queue, l.dropped, l.dlq, l.batch, capacity, end)
  {
    match Dispose(l.batch[0], |l.queue|, capacity) {
      case ToDlq(_) => ExhaustedHead(l, capacity, end);
      case Requeued(y) => KeptHead(l, capacity, y, end);
      case Dropped(y) => DroppedHead(l, capacity, y, end);
    }
  }

  lemma {:induction false} DisperseAllSplits(l: Lane, capacity: nat)
    requires l.phase.Failing? && l.batch != []
    ensures var end := DisperseAll(l, capacity);
            && Splits(l.queue, l.dropped, l.dlq, l.batch, capacity, end)
            && end.phase == Filling && end.batch == [] && end.accepted == l.accepted && end.persisted == l.persisted
    decreases |l.batch|
  {
    var l1 := Step(l, capacity, Disperse);
    if l1.batch != [] {
      DisperseAllSplits(l1, capacity);
    }
    SplitsHead(l, capacity, DisperseAll(l, capacity));
  }

  lemma {:induction false} DisperseAllKeepsInv(l: Lane, capacity: nat)
    requires LaneInv(l) && l.phase.Failing?
    ensures var l' := DisperseAll(l, capacity);
            LaneInv(l') && l'.phase == Filling && l'.batch == [] && Potential(l') <= Potential(l)
    decreases |l.batch|
  {
    var l1 := Step(l, capacity, Disperse);
    StepKeeps(l, capacity, Disperse);
    if l1.batch != [] {
      DisperseAllKeepsInv(l1, capacity);
    }
  }

  function Ack(x: Item): seq<Ref> {
    if x.acks then [x.ref] else []
  }

  function AckRefs(items: seq<Item>): seq<Ref> {
    if items == [] then [] else AckRefs(items[..|items| - 1]) + Ack(items[|items| - 1])
  }

  /** The lane after the writer has taken the first `n` items into its empty batch. */
  function Taken(l: Lane, n: nat): Lane
    requires n <= |l.queue|
  {
    l.(queue := l.queue[n..], batch := l.queue[..n])
  }

  lemma TakesOneMore(l: Lane, capacity: nat, n: nat)
    requires l.phase.Filling? && n < |l.queue|
    ensures CanStep(Taken(l, n), capacity, Take) && Step(Taken(l, n), capacity, Take) == Taken(l, n + 1)
  {
  }

  lemma {:induction false} TakesKeep(l: Lane, capacity: nat, n: nat)
    requires LaneInv(l) && l.phase.Filling? && l.batch == [] && n <= |l.queue|
    ensures LaneInv(Taken(l, n)) && Potential(Taken(l, n)) <= Potential(l)
  {
    if n == 0 {
      assert Taken(l, 0) == l;
    } else {
      TakesKeep(l, capacity, n - 1);
      TakesOneMore(l, capacity, n - 1);
      StepKeeps(Taken(l, n - 1), capacity, Take);
    }
  }

  /** The outside world during one pass of the writer loop: how many records arrive before the
      deadline, and whether the write succeeds. */
  datatype Cycle = Cycle(ready: nat, success: bool)

  class Writer {
    const capacity: nat
    const batchSize: nat
    var queue: seq<Item>
    var batch: seq<Item>
    var phase: Phase
    var accepted: multiset<Cargo>
    var persisted: seq<Item>
    var dlq: seq<Item>
    var dropped: seq<Item>
    var marks: Marks

    function Abs(): Lane
      reads this
    {
      Lane(queue, batch, phase, accepted, persisted, dlq, dropped)
    }

    /** One item of a failed batch goes to the DLQ, back to the queue, or nowhere. */
    method GiveBack(failed: Item)
      modifies this`queue, this`dlq, this`dropped
      ensures var d := Dispose(failed, |old(queue)|, capacity);
              && queue == old(queue) + (if d.Requeued? then [d.item] else [])
              && dlq == old(dlq) + (if d.ToDlq? then [d.item] else [])
              && dropped == old(dropped) + (if d.Dropped? then [d.item] else [])
    {
      var retry := failed.retries + 1;
      if retry > WRITER_MAX_RETRIES {
        dlq := dlq + [failed];
      } else {
        var item := failed.(retries := retry);
        if |queue| < capacity {
          queue := queue + [item];
        } else {
          dropped := dropped + [item];
        }
      }
    }

    /** The head of a failed batch is given back. */
    method GiveBackHead()
      requires phase.Failing? && batch != []
      modifies this`queue, this`batch, this`phase, this`dlq, this`dropped
      ensures Abs() == Step(old(Abs()), capacity, Disperse)
    {
      var item := batch[0];
      batch := batch[1..];
      phase := if batch == [] then Filling else Failing;
      GiveBack(item);
    }

    /** `_requeue_or_dlq`. */
    method RequeueOrDlq()
      requires phase.Failing? && batch != []
      modifies this`queue, this`batch, this`phase, this`dlq, this`dropped
      ensures Abs() == DisperseAll(old(Abs()), capacity)
      ensures phase == Filling && batch == []
    {
      while batch != []
        invariant batch != [] ==> phase.Failing? && DisperseAll(Abs(), capacity) == DisperseAll(old(Abs()), capacity)
        invariant batch == [] ==> Abs() == DisperseAll(old(Abs()), capacity) && phase == Filling
        decreases |batch|
      {
        DisperseNext(Abs(), capacity);
        GiveBackHead();
      }
    }

    /** `_record_noise_persisted` and `_record_signal_persisted`: raises the marks for the batch. */
    method RecordPersisted()
      modifies this`marks
      ensures marks == BumpAll(old(marks), AckRefs(batch))
    {
      var i := 0;
      while i < |batch|
        invariant 0 <= i <= |batch|
        invariant marks == BumpAll(old(marks), AckRefs(batch[..i]))
      {
        var item := batch[i];
        ghost var rs := AckRefs(batch[..i]);
        assert batch[..i + 1][..i] == batch[..i];
        assert AckRefs(batch[..i + 1]) == rs + Ack(item);
        if item.acks {
          assert (rs + [item.ref])[..|rs|] == rs;
          var current := At(marks, item.ref.key);
          if item.ref.offset > current {
            marks := marks[item.ref.key := item.ref.offset];
          }
        } else {
          assert rs + Ack(item) == rs;
        }
        i := i + 1;
      }
      assert batch[..i] == batch;
    }

    /** Fills a batch until it is full, the deadline has passed or the queue is empty. */
    method Fill(ready: nat)
      requires LaneInv(Abs()) && phase == Filling && batch == []
      modifies this`queue, this`batch
      ensures |batch| == Room(0, batchSize, Room(0, ready, |old(queue)|))
      ensures batch == old(queue)[..|batch|] && queue == old(queue)[|batch|..]
      ensures LaneInv(Abs()) && Potential(Abs()) <= old(Potential(Abs()))
    {
      while |batch| < batchSize && |batch| < ready && queue != []
        invariant |batch| <= Room(0, batchSize, ready) && |batch| <= |old(queue)|
        invariant batch == old(queue)[..|batch|] && queue == old(queue)[|batch|..]
        decreases |queue|
      {
        batch, queue := batch + [queue[0]], queue[1..];
      }
      TakesKeep(old(Abs()), capacity, |batch|);
      assert Abs() == Taken(old(Abs()), |batch|);
    }

    /** The rows of the batch are in the table, and then the marks are raised. */
    method PersistBatch()
      requires phase == Filling
      modifies this`batch, this`phase, this`persisted, this`marks
      ensures Abs() == Persisted(old(Abs()))
      ensures marks == BumpAll(old(marks), AckRefs(old(batch)))
    {
      persisted, phase := persisted + batch, Inserted;
      RecordPersisted();
      batch, phase := [], Filling;
    }

    /** The batch write succeeds: its rows are in the table and the marks are raised. */
    method WriteSucceeds()
      requires LaneInv(Abs()) && phase == Filling && batch != []
      modifies this`batch, this`phase, this`persisted, this`marks
      ensures LaneInv(Abs()) && phase == Filling && batch == []
      ensures persisted == old(persisted) + old(batch)
      ensures marks == BumpAll(old(marks), AckRefs(old(batch)))
      ensures Potential(Abs()) + |old(batch)| <= old(Potential(Abs()))
    {
      BatchPersists(Abs(), capacity);
      PersistBatch();
    }

    /** The batch write fails: its items are retried, dropped or given to the DLQ. */
    method WriteFails()
      requires LaneInv(Abs()) && phase == Filling && batch != []
      modifies this`queue, this`batch, this`phase, this`dlq, this`dropped
      ensures LaneInv(Abs()) && phase == Filling && batch == []
      ensures Splits(old(queue), old(dropped), old(dlq), Blame(old(batch)), capacity, Abs())
      ensures Potential(Abs()) + |old(batch)| <= old(Potential(Abs()))
    {
      StepKeeps(Abs(), capacity, Fail);
      batch, phase := Blame(batch), Failing;
      DisperseAllKeepsInv(Abs(), capacity);
      DisperseAllSplits(Abs(), capacity);
      RequeueOrDlq();
    }

    /** A batch is written, if it has items: it is published whole or given back item by item. */
    method WriteBatch(success: bool)
      requires LaneInv(Abs()) && phase == Filling
      modifies this`queue, this`batch, this`phase, this`persisted, this`marks, this`dlq, this`dropped
      ensures LaneInv(Abs()) && phase == Filling && batch == []
      ensures success ==>
        && queue == old(queue) && persisted == old(persisted) + old(batch)
        && marks == BumpAll(old(marks), AckRefs(old(batch)))
      ensures !success ==>
        && marks == old(marks) && persisted == old(persisted)
        && Splits(old(queue), old(dropped), old(dlq), Blame(old(batch)), capacity, Abs())
      ensures Potential(Abs()) + |old(batch)| <= old(Potential(Abs()))
    {
      if batch == [] {
        NothingSplits(Abs(), capacity);
      } else if success {
        WriteSucceeds();
      } else {
        WriteFails();
      }
    }

    /** One pass of `_writer_loop`: it fills a batch and writes it. */
    method Pass(cycle: Cycle) returns (size: nat)
      requires LaneInv(Abs()) && phase == Filling && batch == []
      modifies this
      ensures LaneInv(Abs()) && phase == Filling && batch == [] && accepted == old(accepted)
      ensures size == Room(0, batchSize, Room(0, cycle.ready, |old(queue)|))
      ensures cycle.success ==>
        && queue == old(queue)[size..] && persisted == old(persisted) + old(queue)[..size]
        && marks == BumpAll(old(marks), AckRefs(old(queue)[..size]))
      ensures !cycle.success ==>
        && marks == old(marks) && persisted == old(persisted)
        && Splits(old(queue)[size..], old(dropped), old(dlq), Blame(old(queue)[..size]), capacity, Abs())
      ensures Potential(Abs()) + size <= old(Potential(Abs()))
    {
      Fill(cycle.ready);
      size := |batch|;
      WriteBatch(cycle.success);
    }

    /** `_writer_loop` after shutdown has been requested, when nothing arrives any more: it writes
        no more items than the work it found, and it leaves with an empty queue whenever it is
        given more live passes than that. */
    method WriterLoop(cycles: seq<Cycle>) returns (exited: bool, written: nat)
      requires LaneInv(Abs()) && phase == Filling && batch == []
      modifies this
      ensures LaneInv(Abs()) && accepted == old(accepted)
      ensures exited ==> queue == [] && batch == []
      ensures Potential(Abs()) + written <= old(Potential(Abs()))
      ensures batchSize > 0 && (forall c | c in cycles :: c.ready > 0) && |cycles| > old(Potential(Abs())) ==> exited
    {
      exited, written := false, 0;
      var i := 0;
      while i < |cycles|
        invariant 0 <= i <= |cycles|
        invariant LaneInv(Abs()) && phase == Filling && batch == [] && accepted == old(accepted)
        invariant Potential(Abs()) + written <= old(Potential(Abs()))
        invariant batchSize > 0 && (forall c | c in cycles :: c.ready > 0) ==> i <= written
      {
        var size := Pass(cycles[i]);
        assert cycles[i] in cycles;
        written := written + size;
        if queue == [] && size == 0 {
          return true, written;
        }
        i := i + 1;
      }
      WorkAtLeast(queue, 1);
    }
  }
}
