/** The persistence barrier between a writer lane and the processor: the lane publishes the highest
    inserted offset of each partition, and the processor takes that single number as proof that
    everything up to it has been inserted. */
module Barrier {
  import opened Offsets
  import opened WriterLane

  /** The event was accepted by the lane's queue and its insertion will be published. */
  predicate Sent(l: Lane, r: Ref) {
    Cargo(r, true) in l.accepted
  }

  ghost predicate Landed(l: Lane, r: Ref) {
    exists x :: x in l.persisted && x.acks && x.ref == r
  }

  /** The event was part of a failed write and has not been written since. */
  ghost predicate Faulty(l: Lane, r: Ref) {
    exists x :: (x in l.queue || x in l.batch || x in l.dlq || x in l.dropped) && x.acks && x.ref == r && x.failures > 0
  }

  /** An item that the barrier watches, on a partition that is not excepted. */
  predicate Watched(x: Item, except: set<Key>) {
    x.acks && x.ref.key !in except
  }

  predicate Fresh(x: Item) {
    x.failures == 0
  }

  /** The marks after a step of the lane. */
  function Advance(l: Lane, step: LaneStep, marks: Marks): Marks {
    if step.Publish? then BumpAll(marks, AckRefs(l.batch)) else marks
  }

  // ---------------------------------------------------------------------------------------
  // The invariant
  // ---------------------------------------------------------------------------------------

  predicate Lower(x: Item, y: Item) {
    x.ref.key == y.ref.key ==> x.ref.offset < y.ref.offset
  }

  ghost predicate Ordered(items: seq<Item>, except: set<Key>) {
    forall i, j | 0 <= i < j < |items| && Fresh(items[i]) && Fresh(items[j])
                  && Watched(items[i], except) && Watched(items[j], except) :: Lower(items[i], items[j])
  }

  /** First-time items leave the lane in offset order, and everything that has already failed lies
      below them. */
  ghost predicate FirstTimersAscend(l: Lane, except: set<Key>) {
    && Ordered(l.queue, except)
    && Ordered(l.batch, except)
    && (forall x, y | x in l.batch && y in l.queue && Fresh(y) && Watched(x, except) && Watched(y, except) ::
        Lower(x, y))
    && StaleBelow(l.queue, l.queue, except)
    && StaleBelow(l.batch, l.batch, except)
    && StaleBelow(l.queue, l.batch, except)
  }

  ghost predicate StaleBelow(xs: seq<Item>, ys: seq<Item>, except: set<Key>) {
    forall x, y | x in xs && y in ys && !Fresh(x) && Fresh(y) && Watched(x, except) && Watched(y, except) :: Lower(x, y)
  }

  /** The marks lie below every first-time item that has not been inserted, except for those that
      another lane with the same marks has overtaken. */
  ghost predicate NotPassed(l: Lane, marks: Marks, over: set<Ref>, except: set<Key>) {
    && (forall x | x in l.queue && Fresh(x) && Watched(x, except) :: Above(x.ref, marks) || x.ref in over)
    && (forall x | x in InHand(l) && Fresh(x) && Watched(x, except) :: Above(x.ref, marks) || x.ref in over)
  }

  predicate Above(r: Ref, marks: Marks) {
    At(marks, r.key) < r.offset
  }

  /** The marks lie below every first-time item that has not been inserted, and they are offsets
      that were sent. */
  ghost predicate MarksBelow(l: Lane, marks: Marks, except: set<Key>) {
    && NotPassed(l, marks, {}, except)
    && (forall k | k in marks && k !in except :: Sent(l, Ref(k, marks[k])))
  }

  /** Everything inserted and published lies at or below its mark. */
  ghost predicate MarksAbove(l: Lane, marks: Marks, except: set<Key>) {
    && (l.phase.Inserted? ==> |l.batch| <= |l.persisted| && l.persisted[|l.persisted| - |l.batch|..] == l.batch)
    && (forall i | 0 <= i < |l.persisted| - (if l.phase.Inserted? then |l.batch| else 0)
                   && Watched(l.persisted[i], except) ::
          l.persisted[i].ref.offset <= At(marks, l.persisted[i].ref.key))
  }

  ghost predicate BarrierInv(l: Lane, marks: Marks, except: set<Key>) {
    FirstTimersAscend(l, except) && MarksBelow(l, marks, except) && MarksAbove(l, marks, except)
  }

  /** A new event of a watched partition lies above everything sent before it. */
  ghost predicate Appends(l: Lane, r: Ref, except: set<Key>) {
    r.key !in except ==> forall q | Sent(l, q) && q.key == r.key :: q.offset < r.offset
  }

  // ---------------------------------------------------------------------------------------
  // Every step keeps it
  // ---------------------------------------------------------------------------------------

  lemma {:induction false} AckRefsMember(items: seq<Item>, r: Ref)
    ensures r in AckRefs(items) <==> exists x :: x in items && x.acks && x.ref == r
  {
    if items != [] {
      var n := |items| - 1;
      AckRefsMember(items[..n], r);
      assert items == items[..n] + [items[n]];
    }
  }

  /** Whatever sits in the lane was accepted. */
  lemma Accepted(l: Lane, x: Item)
    requires LaneInv(l)
    requires x in l.queue || x in l.batch || x in l.persisted
    ensures CargoOf(x) in l.accepted
  {
    var c := CargoOf(x);
    assert l.accepted[c] == Located(l, c);
    CountMember(l.queue, c);
    CountMember(InHand(l), c);
    CountMember(l.persisted, c);
  }

  /** Whatever was accepted is somewhere. */
  lemma Whereabouts(l: Lane, r: Ref)
    requires LaneInv(l) && Sent(l, r)
    ensures Landed(l, r) || Faulty(l, r)
         || (exists x :: (x in l.queue || x in InHand(l)) && x.acks && x.ref == r && Fresh(x))
  {
    var c := Cargo(r, true);
    assert l.accepted[c] == Located(l, c);
    if Count(l.persisted, c) > 0 {
      CountMember(l.persisted, c);
      var i :| 0 <= i < |l.persisted| && CargoOf(l.persisted[i]) == c;
      assert l.persisted[i] in l.persisted;
    } else if Count(l.queue, c) > 0 {
      CountMember(l.queue, c);
      var i :| 0 <= i < |l.queue| && CargoOf(l.queue[i]) == c;
      assert l.queue[i] in l.queue;
    } else if Count(InHand(l), c) > 0 {
      CountMember(InHand(l), c);
      var i :| 0 <= i < |InHand(l)| && CargoOf(InHand(l)[i]) == c;
      assert InHand(l)[i] in InHand(l);
    } else if Count(l.dlq, c) > 0 {
      CountMember(l.dlq, c);
      var i :| 0 <= i < |l.dlq| && CargoOf(l.dlq[i]) == c;
      assert l.dlq[i] in l.dlq;
    } else {
      CountMember(l.dropped, c);
      var i :| 0 <= i < |l.dropped| && CargoOf(l.dropped[i]) == c;
      assert l.dropped[i] in l.dropped;
    }
  }

  lemma TakeKeepsOrder(l: Lane, capacity: nat, except: set<Key>)
    requires FirstTimersAscend(l, except) && CanStep(l, capacity, Take)
    ensures FirstTimersAscend(Step(l, capacity, Take), except)
  {
    var l', head := Step(l, capacity, Take), l.queue[0];
    assert head in l.queue;
    forall y | y in l'.queue ensures y in l.queue { }
    forall x | x in l'.batch ensures x in l.batch || x == head { }
    forall y | y in l'.queue && Fresh(y) && Watched(head, except) && Watched(y, except)
      ensures Lower(head, y)
    {
      var j :| 0 <= j < |l'.queue| && l'.queue[j] == y;
      assert l.queue[j + 1] == y;
    }
  }

  lemma FailKeepsOrder(l: Lane, capacity: nat, except: set<Key>)
    requires FirstTimersAscend(l, except) && CanStep(l, capacity, Fail)
    ensures FirstTimersAscend(Step(l, capacity, Fail), except)
  {
    var l' := Step(l, capacity, Fail);
    forall x | x in l'.batch ensures !Fresh(x) && exists w :: w in l.batch && CargoOf(w) == CargoOf(x) {
      var i :| 0 <= i < |l'.batch| && l'.batch[i] == x;
      assert l.batch[i] in l.batch && CargoOf(l.batch[i]) == CargoOf(x);
    }
    forall x, y | x in l'.batch && y in l'.queue && Fresh(y) && Watched(x, except) && Watched(y, except)
      ensures Lower(x, y)
    {
      var w :| w in l.batch && CargoOf(w) == CargoOf(x);
      assert Lower(w, y);
    }
  }

  lemma DisperseKeepsOrder(l: Lane, capacity: nat, except: set<Key>)
    requires Budgeted(l) && FirstTimersAscend(l, except) && CanStep(l, capacity, Disperse)
    ensures FirstTimersAscend(Step(l, capacity, Disperse), except)
  {
    var l', head := Step(l, capacity, Disperse), l.batch[0];
    assert head in l.batch;
    forall x | x in l'.batch ensures x in l.batch { }
    forall y | y in l'.queue && y !in l.queue ensures !Fresh(y) && CargoOf(y) == CargoOf(head) { }
    forall i, j | 0 <= i < j < |l'.queue| && Fresh(l'.queue[i]) && Fresh(l'.queue[j])
                  && Watched(l'.queue[i], except) && Watched(l'.queue[j], except)
      ensures Lower(l'.queue[i], l'.queue[j])
    {
      assert l.queue[i] == l'.queue[i] && l.queue[j] == l'.queue[j];
    }
  }

  lemma PutKeepsOrder(l: Lane, capacity: nat, r: Ref, acks: bool, except: set<Key>)
    requires LaneInv(l) && FirstTimersAscend(l, except) && CanStep(l, capacity, Put(r, acks))
    requires acks ==> Appends(l, r, except)
    ensures FirstTimersAscend(Step(l, capacity, Put(r, acks)), except)
  {
    forall x | (x in l.queue || x in l.batch) && x.acks ensures Sent(l, x.ref) { Accepted(l, x); }
    var l' := Step(l, capacity, Put(r, acks));
    forall y | y in l'.queue && y !in l.queue ensures y == Item(r, acks, 0, 0) { }
    forall i, j | 0 <= i < j < |l'.queue| && Fresh(l'.queue[i]) && Fresh(l'.queue[j])
                  && Watched(l'.queue[i], except) && Watched(l'.queue[j], except)
      ensures Lower(l'.queue[i], l'.queue[j])
    {
      assert l.queue[i] == l'.queue[i] && l.queue[i] in l.queue;
    }
  }

  lemma OrderKept(l: Lane, capacity: nat, step: LaneStep, except: set<Key>)
    requires LaneInv(l) && FirstTimersAscend(l, except) && CanStep(l, capacity, step)
    requires step.Put? && step.acks ==> Appends(l, step.ref, except)
    ensures FirstTimersAscend(Step(l, capacity, step), except)
  {
    match step {
      case Put(r, acks) => PutKeepsOrder(l, capacity, r, acks, except);
      case Take => TakeKeepsOrder(l, capacity, except);
      case Fail => FailKeepsOrder(l, capacity, except);
      case Disperse => DisperseKeepsOrder(l, capacity, except);
      case _ =>
    }
  }

  lemma PutPassesNothing(l: Lane, capacity: nat, r: Ref, acks: bool, marks: Marks, over: set<Ref>, except: set<Key>)
    requires NotPassed(l, marks, over, except) && CanStep(l, capacity, Put(r, acks))
    requires acks && r.key !in except ==> Above(r, marks)
    ensures NotPassed(Step(l, capacity, Put(r, acks)), marks, over, except)
  {
    var l' := Step(l, capacity, Put(r, acks));
    forall x | x in l'.queue && Fresh(x) && Watched(x, except) ensures Above(x.ref, marks) || x.ref in over {
      if x !in l.queue {
        assert x == Item(r, acks, 0, 0);
      }
    }
  }

  lemma DispersePassesNothing(l: Lane, capacity: nat, marks: Marks, over: set<Ref>, except: set<Key>)
    requires Budgeted(l) && NotPassed(l, marks, over, except) && CanStep(l, capacity, Disperse)
    ensures NotPassed(Step(l, capacity, Disperse), marks, over, except)
  {
    assert l.batch[0] in l.batch;
  }

  /** A lane that publishes overtakes nothing of its own. */
  lemma PublishPassesNothing(l: Lane, capacity: nat, marks: Marks, over: set<Ref>, except: set<Key>)
    requires FirstTimersAscend(l, except) && NotPassed(l, marks, over, except) && l.phase.Inserted?
    ensures NotPassed(Step(l, capacity, Publish), BumpAll(marks, AckRefs(l.batch)), over, except)
  {
    var after := BumpAll(marks, AckRefs(l.batch));
    forall x | x in l.queue && Fresh(x) && Watched(x, except) ensures Above(x.ref, after) || x.ref in over {
      MarkSource(l.batch, marks, x.ref.key);
      if At(after, x.ref.key) != At(marks, x.ref.key) {
        var y :| y in l.batch && y.acks && y.ref == Ref(x.ref.key, after[x.ref.key]);
        assert Lower(y, x);
      }
    }
  }

  lemma NotPassedKept(l: Lane, capacity: nat, step: LaneStep, marks: Marks, over: set<Ref>, except: set<Key>)
    requires Budgeted(l) && FirstTimersAscend(l, except) && NotPassed(l, marks, over, except) &&
             CanStep(l, capacity, step)
    requires step.Put? && step.acks && step.ref.key !in except ==> Above(step.ref, marks)
    ensures NotPassed(Step(l, capacity, step), Advance(l, step, marks), over, except)
  {
    match step {
      case Put(r, acks) => PutPassesNothing(l, capacity, r, acks, marks, over, except);
      case Take => assert l.queue[0] in l.queue;
      case Disperse => DispersePassesNothing(l, capacity, marks, over, except);
      case Publish => PublishPassesNothing(l, capacity, marks, over, except);
      case _ =>
    }
  }

  /** Publishing a batch raises a mark only to an offset of that batch, and past all of them. */
  lemma MarkSource(items: seq<Item>, marks: Marks, k: Key)
    ensures var after := BumpAll(marks, AckRefs(items));
            && At(marks, k) <= At(after, k)
            && (At(after, k) != At(marks, k) ==> exists x :: x in items && x.acks && x.ref == Ref(k, after[k]))
            && (forall x | x in items && x.acks && x.ref.key == k :: x.ref.offset <= At(after, k))
  {
    var after := BumpAll(marks, AckRefs(items));
    BumpAllIsHighest(marks, AckRefs(items), k);
    if At(after, k) != At(marks, k) {
      AckRefsMember(items, Ref(k, after[k]));
    }
    forall x | x in items && x.acks && x.ref.key == k ensures x.ref.offset <= At(after, k) {
      AckRefsMember(items, x.ref);
      var i :| 0 <= i < |AckRefs(items)| && AckRefs(items)[i] == x.ref;
    }
  }

  lemma MarkBounds(items: seq<Item>, marks: Marks, x: Item)
    requires x in items && x.acks
    ensures x.ref.offset <= At(BumpAll(marks, AckRefs(items)), x.ref.key)
  {
    MarkSource(items, marks, x.ref.key);
  }

  /** What a publication raises a mark to was sent. */
  lemma PublishedWasSent(l: Lane, marks: Marks, k: Key)
    requires LaneInv(l) && k in BumpAll(marks, AckRefs(l.batch))
    ensures var after := BumpAll(marks, AckRefs(l.batch));
            (k in marks && after[k] == marks[k]) || Sent(l, Ref(k, after[k]))
  {
    var after := BumpAll(marks, AckRefs(l.batch));
    MarkSource(l.batch, marks, k);
    if At(after, k) != At(marks, k) {
      var x :| x in l.batch && x.acks && x.ref == Ref(k, after[k]);
      Accepted(l, x);
    }
  }

  lemma MarksBelowKept(l: Lane, capacity: nat, step: LaneStep, marks: Marks, except: set<Key>)
    requires LaneInv(l) && FirstTimersAscend(l, except) && MarksBelow(l, marks, except) && CanStep(l, capacity, step)
    requires step.Put? && step.acks ==> Appends(l, step.ref, except)
    ensures MarksBelow(Step(l, capacity, step), Advance(l, step, marks), except)
  {
    var l', after := Step(l, capacity, step), Advance(l, step, marks);
    NotPassedKept(l, capacity, step, marks, {}, except);
    forall k | k in after && k !in except ensures Sent(l', Ref(k, after[k])) {
      if step.Publish? {
        PublishedWasSent(l, marks, k);
      }
      assert forall q | Sent(l, q) :: Sent(l', q);
    }
  }

  lemma PublishKeepsAbove(l: Lane, capacity: nat, marks: Marks, except: set<Key>)
    requires MarksAbove(l, marks, except) && l.phase.Inserted?
    ensures MarksAbove(Step(l, capacity, Publish), BumpAll(marks, AckRefs(l.batch)), except)
  {
    var n := |l.persisted| - |l.batch|;
    forall i | 0 <= i < |l.persisted| && Watched(l.persisted[i], except)
      ensures l.persisted[i].ref.offset <= At(BumpAll(marks, AckRefs(l.batch)), l.persisted[i].ref.key)
    {
      if i >= n {
        assert l.persisted[i] == l.persisted[n..][i - n];
        MarkBounds(l.batch, marks, l.persisted[i]);
      } else {
        BumpAllIsHighest(marks, AckRefs(l.batch), l.persisted[i].ref.key);
      }
    }
  }

  lemma MarksAboveKept(l: Lane, capacity: nat, step: LaneStep, marks: Marks, except: set<Key>)
    requires MarksAbove(l, marks, except) && CanStep(l, capacity, step)
    ensures MarksAbove(Step(l, capacity, step), Advance(l, step, marks), except)
  {
    if step.Publish? {
      PublishKeepsAbove(l, capacity, marks, except);
    }
  }

  /** The barrier's invariant survives every step of every thread that touches the lane. */
  lemma StepKeepsBarrier(l: Lane, capacity: nat, step: LaneStep, marks: Marks, except: set<Key>)
    requires LaneInv(l) && BarrierInv(l, marks, except) && CanStep(l, capacity, step)
    requires step.Put? && step.acks ==> Appends(l, step.ref, except)
    ensures BarrierInv(Step(l, capacity, step), Advance(l, step, marks), except)
  {
    OrderKept(l, capacity, step, except);
    MarksBelowKept(l, capacity, step, marks, except);
    MarksAboveKept(l, capacity, step, marks, except);
  }

  /** More partitions may be excepted, and the marks of excepted ones may change. */
  lemma BarrierWeakens(l: Lane, marks: Marks, except: set<Key>, marks': Marks, except': set<Key>)
    requires BarrierInv(l, marks, except) && except <= except'
    requires forall k | k !in except' :: At(marks, k) == At(marks', k)
    ensures BarrierInv(l, marks', except')
  {
    forall k | k in marks' && k !in except' ensures Sent(l, Ref(k, marks'[k])) {
      assert At(marks, k) == At(marks', k);
    }
  }

  // ---------------------------------------------------------------------------------------
  // What the barrier proves
  // ---------------------------------------------------------------------------------------

  /** Passing the barrier at an offset means that every event sent at or below it has been
      inserted, unless a write of that very event has failed. */
  lemma BarrierSound(l: Lane, marks: Marks, except: set<Key>, r: Ref)
    requires LaneInv(l) && BarrierInv(l, marks, except)
    requires Sent(l, r) && r.key !in except && r.offset <= At(marks, r.key)
    ensures Landed(l, r) || Faulty(l, r)
  {
    Whereabouts(l, r);
  }

  ghost predicate AllLanded(l: Lane, r: Ref) {
    forall q | Sent(l, q) && q.key == r.key && q.offset <= r.offset :: Landed(l, q)
  }

  ghost predicate NoFailedWrite(l: Lane) {
    forall x | x in l.queue || x in l.batch || x in l.dlq || x in l.dropped :: Fresh(x)
  }

  /** The barrier compares one maximum with one offset; with one writer and no failed write that is
      the same as asking for every sent event up to the offset. (Between an insert and its
      publication only one direction holds.) */
  lemma BarrierExact(l: Lane, marks: Marks, except: set<Key>, r: Ref)
    requires LaneInv(l) && BarrierInv(l, marks, except) && NoFailedWrite(l) && !l.phase.Inserted?
    requires Sent(l, r) && r.key !in except
    ensures At(marks, r.key) >= r.offset <==> AllLanded(l, r)
  {
    if At(marks, r.key) >= r.offset {
      forall q | Sent(l, q) && q.key == r.key && q.offset <= r.offset ensures Landed(l, q) {
        BarrierSound(l, marks, except, q);
      }
    }
    if AllLanded(l, r) {
      assert Landed(l, r);
      var x :| x in l.persisted && x.acks && x.ref == r;
      var i :| 0 <= i < |l.persisted| && l.persisted[i] == x;
    }
  }
}
