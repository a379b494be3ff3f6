/** The consumer thread's two reasons to pause: full writer queues and a full record queue. */
module Backpressure {

  // ---------------------------------------------------------------------------------------
  // Writer pressure
  // ---------------------------------------------------------------------------------------

  /** A writer queue; a bound of 0 means unbounded. */
  datatype QueueSize = QueueSize(size: nat, bound: nat)

  predicate Saturated(q: QueueSize) {
    q.bound > 0 && q.size >= q.bound * 8 / 10
  }

  /** Four fifths of the bound, rounded down, or more. */
  lemma SaturatedExactly(q: QueueSize)
    ensures Saturated(q) <==> q.bound > 0 && 8 * q.bound < 10 * (q.size + 1)
  {
  }

  /** `_writer_queues_under_pressure`; a queue may be missing. */
  method WriterQueuesUnderPressure(enabled: bool, queues: seq<QueueSize>) returns (pressure: bool)
    ensures pressure <==> enabled && exists q :: q in queues && Saturated(q)
    ensures pressure <==> enabled && exists q :: q in queues && q.bound > 0 && 8 * q.bound < 10 * (q.size + 1)
  {
    if !enabled {
      return false;
    }
    var i := 0;
    while i < |queues|
      invariant 0 <= i <= |queues|
      invariant forall q | q in queues[..i] :: !Saturated(q)
    {
      assert queues[i] in queues;
      if queues[i].bound > 0 && queues[i].size >= queues[i].bound * 8 / 10 {
        return true;
      }
      i := i + 1;
    }
    return false;
  }

  // ---------------------------------------------------------------------------------------
  // One round of the loop
  // ---------------------------------------------------------------------------------------

  /** What held when `resume` was called. */
  datatype Resume = Resume(depth: nat, writerPaused: bool, shutdown: bool)

  /** `paused` and `writerPaused` are the thread's own flags; `stopped` says whether the client
      really has the assignment paused. `lost` is history: the client was left paused because the
      resume after a full record queue raised. */
  datatype Loop = Loop(
    paused: bool, writerPaused: bool, stopped: bool, lost: bool, shutdown: bool,
    depth: nat, enqueued: nat, dropped: nat, resumes: seq<Resume>)

  const START: Loop := Loop(false, false, false, false, false, 0, 0, 0, [])

  datatype Fetch = Raises | Empty | Batch

  /** The outside world during one round: the pressure check, which of the pause and resume calls
      raise, what the client would return, how many envelopes the processor takes meanwhile, and
      whether a shutdown is requested by the end. When `waits` ends before the record queue is half
      empty, the wait ends because a shutdown has been requested. */
  datatype Round = Round(
    pressure: bool, pauseRaises: bool, takenBefore: nat, resumeRaises: bool,
    fetch: Fetch, takenByPut: nat, fullPauseRaises: bool, waits: seq<nat>, fullResumeRaises: bool, takenByLastPut: nat,
    stop: bool)

  function Less(depth: nat, taken: nat): (left: nat)
    ensures left <= depth && (left > 0 ==> left + taken == depth) && (taken < depth ==> left > 0)
  {
    if taken <= depth then depth - taken else 0
  }

  /** The depth at which the wait for a half-empty queue ends. */
  function Drained(depth: nat, room: nat, waits: seq<nat>): (d: nat)
    ensures d <= depth
  {
    if depth <= room / 2 || waits == [] then depth else Drained(Less(depth, waits[0]), room, waits[1..])
  }

  /** The pressure check at the head of a round. */
  function Check(l: Loop, room: nat, r: Round): Loop {
    var depth := Less(l.depth, r.takenBefore);
    if r.pressure && !l.writerPaused then
      if r.pauseRaises then l.(depth := depth)
      else l.(depth := depth, paused := true, writerPaused := true, stopped := true)
    else if !r.pressure && l.writerPaused then
      var l1 := l.(depth := depth, writerPaused := false);
      if depth >= room / 2 then l1
      else
        var l2 := l1.(resumes := l.resumes + [Resume(depth, false, l.shutdown)]);
        if r.resumeRaises then l2 else l2.(paused := false, stopped := false, lost := false)
    else l.(depth := depth)
  }

  function Put(l: Loop, room: nat): Loop {
    if l.depth < room then l.(depth := l.depth + 1, enqueued := l.enqueued + 1)
    else l.(dropped := l.dropped + 1)
  }

  /** The record queue is full: the consumer pauses, waits for it to be half empty, and resumes. */
  function Wait(l: Loop, room: nat, r: Round): Loop {
    var l1 := if !l.paused && !r.fullPauseRaises then l.(paused := true, stopped := true) else l;
    var left := Drained(l.depth, room, r.waits);
    var l2 := l1.(depth := left, shutdown := l.shutdown || left > room / 2);
    if !l2.paused then l2
    else l2.(paused := false, stopped := r.fullResumeRaises && l2.stopped, lost := r.fullResumeRaises,
             resumes := l.resumes + [Resume(left, l2.writerPaused, l2.shutdown)])
  }

  /** A fetched batch goes to the record queue; the second time it finds no room it is dropped. */
  function Offer(l: Loop, room: nat, r: Round): Loop {
    var l1 := l.(depth := Less(l.depth, r.takenByPut));
    if l1.depth < room then Put(l1, room)
    else
      var l2 := Wait(l1, room, r);
      Put(l2.(depth := Less(l2.depth, r.takenByLastPut)), room)
  }

  /** What is assumed of the Kafka client: it returns nothing while the assignment is paused. */
  predicate Delivers(l: Loop, r: Round) {
    r.fetch.Batch? && !l.stopped
  }

  function Next(l: Loop, room: nat, r: Round): Loop {
    var l1 := Check(l, room, r);
    var l2 := if !l1.writerPaused && Delivers(l1, r) then Offer(l1, room, r) else l1;
    l2.(shutdown := l2.shutdown || r.stop)
  }

  function After(l: Loop, room: nat, rounds: seq<Round>): Loop
    decreases |rounds|
  {
    if rounds == [] || l.shutdown then l else After(Next(l, room, rounds[0]), room, rounds[1..])
  }

  class Consumer {
    const room: nat
    var paused: bool
    var writerPaused: bool
    var stopped: bool
    ghost var lost: bool
    var shutdown: bool
    var depth: nat
    var enqueued: nat
    var dropped: nat
    ghost var resumes: seq<Resume>

    ghost function Abs(): Loop
      reads this
    {
      Loop(paused, writerPaused, stopped, lost, shutdown, depth, enqueued, dropped, resumes)
    }

    method CheckPressure(r: Round)
      modifies this`depth, this`paused, this`writerPaused, this`stopped, this`lost, this`resumes
      ensures Abs() == Check(old(Abs()), room, r)
    {
      depth := Less(depth, r.takenBefore);
      if r.pressure && !writerPaused {
        if !r.pauseRaises {
          stopped := true;
          paused, writerPaused := true, true;
        }
      } else if !r.pressure && writerPaused {
        writerPaused := false;
        if depth < room / 2 {
          resumes := resumes + [Resume(depth, false, shutdown)];
          if !r.resumeRaises {
            stopped, lost := false, false;
            paused := false;
          }
        }
      }
    }

    method WaitForRoom(waits: seq<nat>)
      modifies this`depth, this`shutdown
      ensures depth == Drained(old(depth), room, waits)
      ensures shutdown == (old(shutdown) || depth > room / 2)
    {
      var i := 0;
      while depth > room / 2 && i < |waits|
        invariant 0 <= i <= |waits|
        invariant Drained(depth, room, waits[i..]) == Drained(old(depth), room, waits)
        invariant shutdown == old(shutdown)
      {
        depth := Less(depth, waits[i]);
        assert waits[i..][1..] == waits[i + 1..];
        i := i + 1;
      }
      shutdown := shutdown || depth > room / 2;
    }

    method WaitWhileFull(r: Round)
      modifies this`depth, this`paused, this`stopped, this`lost, this`resumes, this`shutdown
      ensures Abs() == Wait(old(Abs()), room, r)
    {
      if !paused && !r.fullPauseRaises {
        stopped := true;
        paused := true;
      }
      WaitForRoom(r.waits);
      if paused {
        resumes := resumes + [Resume(depth, writerPaused, shutdown)];
        lost := r.fullResumeRaises;
        if !r.fullResumeRaises {
          stopped := false;
        }
        paused := false;
      }
    }

    /** `record_queue.put` with a timeout, during which the processor takes some envelopes. */
    method TryPut(taken: nat) returns (ok: bool)
      modifies this`depth, this`enqueued
      ensures ok <==> Less(old(depth), taken) < room
      ensures ok ==> Abs() == Put(old(Abs()).(depth := Less(old(depth), taken)), room)
      ensures !ok ==> Abs() == old(Abs()).(depth := Less(old(depth), taken))
    {
      depth := Less(depth, taken);
      ok := depth < room;
      if ok {
        depth, enqueued := depth + 1, enqueued + 1;
      }
    }

    method OfferBatch(r: Round)
      modifies this
      ensures Abs() == Offer(old(Abs()), room, r)
    {
      var ok := TryPut(r.takenByPut);
      if ok {
        return;
      }
      WaitWhileFull(r);
      ok := TryPut(r.takenByLastPut);
      if !ok {
        dropped := dropped + 1;
      }
    }

    /** From the head of the loop to its end or its `continue`. */
    method OneRound(r: Round)
      modifies this
      ensures Abs() == Next(old(Abs()), room, r)
    {
      CheckPressure(r);
      if !writerPaused && r.fetch.Batch? && !stopped {
        OfferBatch(r);
      }
      shutdown := shutdown || r.stop;
    }

    /** `_consume_thread`. */
    method ConsumeThread(rounds: seq<Round>)
      requires room > 0 && Abs() == START
      modifies this
      ensures Abs() == After(START, room, rounds) && LoopInv(Abs(), room)
    {
      var i := 0;
      while i < |rounds| && !shutdown
        invariant 0 <= i <= |rounds|
        invariant After(Abs(), room, rounds[i..]) == After(START, room, rounds)
        invariant LoopInv(Abs(), room)
      {
        assert rounds[i..][0] == rounds[i] && rounds[i..][1..] == rounds[i + 1..];
        RoundKeeps(Abs(), room, rounds[i]);
        OneRound(rounds[i]);
        i := i + 1;
      }
    }
  }

  // ---------------------------------------------------------------------------------------
  // What holds at every loop head
  // ---------------------------------------------------------------------------------------

  ghost predicate LoopInv(l: Loop, room: nat) {
    && (l.writerPaused ==> l.paused)
    && (l.stopped <==> l.paused || l.lost)
    && l.depth <= room
    && (l.dropped > 0 ==> l.shutdown)
    && (forall x | x in l.resumes :: !x.writerPaused && (x.depth <= room / 2 || x.shutdown))
  }

  lemma CheckKeeps(l: Loop, room: nat, r: Round)
    requires LoopInv(l, room) && !l.shutdown
    ensures LoopInv(Check(l, room, r), room) && !Check(l, room, r).shutdown
  {
  }

  lemma OfferKeeps(l: Loop, room: nat, r: Round)
    requires LoopInv(l, room) && !l.shutdown && !l.stopped && !l.writerPaused && room > 0
    ensures LoopInv(Offer(l, room, r), room)
  {
  }

  lemma RoundKeeps(l: Loop, room: nat, r: Round)
    requires LoopInv(l, room) && !l.shutdown && room > 0
    ensures LoopInv(Next(l, room, r), room)
  {
    CheckKeeps(l, room, r);
    var l1 := Check(l, room, r);
    if !l1.writerPaused && Delivers(l1, r) {
      OfferKeeps(l1, room, r);
    }
  }

  /** Whatever happens outside, at every loop head: the writer-pressure flag implies the pause flag;
      the pause flag is the client's own pause state, unless the resume after a full record queue
      raised; every resume was made with the pressure flag clear and the record queue at most half
      full, or in a shutdown; and an envelope has been dropped only if a shutdown was requested. */
  lemma {:induction false} RunKeeps(l: Loop, room: nat, rounds: seq<Round>)
    requires LoopInv(l, room) && room > 0
    ensures LoopInv(After(l, room, rounds), room)
    decreases |rounds|
  {
    if rounds != [] && !l.shutdown {
      RoundKeeps(l, room, rounds[0]);
      RunKeeps(Next(l, room, rounds[0]), room, rounds[1..]);
    }
  }

  lemma DropsNeedShutdown(room: nat, rounds: seq<Round>)
    requires room > 0 && After(START, room, rounds).dropped > 0
    ensures After(START, room, rounds).shutdown
    ensures forall more :: After(After(START, room, rounds), room, more) == After(START, room, rounds)
  {
    RunKeeps(START, room, rounds);
  }

  /** Nothing is enqueued in a round that the client spends paused, for then it returns nothing. */
  lemma PausedEnqueuesNothing(l: Loop, room: nat, r: Round)
    requires LoopInv(l, room) && Check(l, room, r).stopped
    ensures Next(l, room, r).enqueued == l.enqueued && Next(l, room, r).dropped == l.dropped
  {
  }

  /** Writer pressure pauses the consumer, whatever the record queue holds: in a round in which the
      pressure check says so and the pause does not raise, nothing is enqueued or dropped, and the
      consumer leaves it paused. */
  lemma PressurePauses(l: Loop, room: nat, r: Round)
    requires LoopInv(l, room) && !l.shutdown && r.pressure && !r.pauseRaises
    ensures var l' := Next(l, room, r);
            && l'.paused && l'.writerPaused && l'.stopped
            && l'.enqueued == l.enqueued && l'.dropped == l.dropped
            && l'.depth == Less(l.depth, r.takenBefore) && l'.resumes == l.resumes
  {
  }

  lemma {:induction false} AfterSnoc(l: Loop, room: nat, rounds: seq<Round>, r: Round)
    ensures var l' := After(l, room, rounds);
            After(l, room, rounds + [r]) == if l'.shutdown then l' else Next(l', room, r)
    decreases |rounds|
  {
    if rounds == [] {
      assert [] + [r] == [r] && [r][1..] == [];
      assert After(l, room, [r]) == if l.shutdown then l else After(Next(l, room, r), room, []);
    } else if !l.shutdown {
      assert (rounds + [r])[0] == rounds[0] && (rounds + [r])[1..] == rounds[1..] + [r];
      AfterSnoc(Next(l, room, rounds[0]), room, rounds[1..], r);
    }
  }

  /** Over any rounds from the start: in none in which the writers are under pressure, and the pause does
      not raise, is anything enqueued or dropped. */
  lemma PressureEnqueuesNothing(room: nat, rounds: seq<Round>, r: Round)
    requires room > 0 && r.pressure && !r.pauseRaises
    ensures var before, after := After(START, room, rounds), After(START, room, rounds + [r]);
            && after.enqueued == before.enqueued && after.dropped == before.dropped
            && (!before.shutdown ==> after.paused && after.writerPaused && after.stopped)
  {
    RunKeeps(START, room, rounds);
    AfterSnoc(START, room, rounds, r);
    var l := After(START, room, rounds);
    if !l.shutdown {
      PressurePauses(l, room, r);
    }
  }

  /** Relief resumes the consumer exactly if the record queue is less than half full and the resume does
      not raise; either way the writers' reason is gone. */
  lemma ReliefResumes(l: Loop, room: nat, r: Round)
    requires LoopInv(l, room) && l.writerPaused && !r.pressure
    ensures var l' := Check(l, room, r);
            && !l'.writerPaused
            && (!l'.paused && !l'.stopped <==> Less(l.depth, r.takenBefore) < room / 2 && !r.resumeRaises)
            && l'.enqueued == l.enqueued && l'.dropped == l.dropped
  {
  }

  lemma CheckCountsNothing(l: Loop, room: nat, r: Round)
    requires LoopInv(l, room)
    ensures var l' := Check(l, room, r);
            l'.enqueued == l.enqueued && l'.dropped == l.dropped && (l'.writerPaused ==> l'.stopped)
  {
  }

  lemma WaitCountsNothing(l: Loop, room: nat, r: Round)
    ensures Wait(l, room, r).enqueued == l.enqueued && Wait(l, room, r).dropped == l.dropped
  {
  }

  lemma OfferCountsOne(l: Loop, room: nat, r: Round)
    ensures Offer(l, room, r).enqueued + Offer(l, room, r).dropped == l.enqueued + l.dropped + 1
  {
    var l1 := l.(depth := Less(l.depth, r.takenByPut));
    if l1.depth >= room {
      WaitCountsNothing(l1, room, r);
    }
  }

  /** A batch that the client returns is enqueued or dropped, and one that it does not return is neither. */
  lemma BatchesAreAccounted(l: Loop, room: nat, r: Round)
    requires LoopInv(l, room) && !l.shutdown
    ensures var returned := r.fetch.Batch? && !Check(l, room, r).stopped;
            Next(l, room, r).enqueued + Next(l, room, r).dropped == l.enqueued + l.dropped + (if returned then 1 else 0)
  {
    CheckCountsNothing(l, room, r);
    OfferCountsOne(Check(l, room, r), room, r);
  }

  /** A round ends in a shutdown exactly if there was one before, one is requested, or the wait at a full
      record queue ended before the queue was half empty. */
  lemma ShutdownExactly(l: Loop, room: nat, r: Round)
    requires LoopInv(l, room)
    ensures var l1 := Check(l, room, r);
            var left := Less(l1.depth, r.takenByPut);
            Next(l, room, r).shutdown <==>
              || l.shutdown || r.stop
              || (r.fetch.Batch? && !l1.stopped && left >= room && Drained(left, room, r.waits) > room / 2)
  {
    CheckCountsNothing(l, room, r);
  }

  /** With room in the record queue a returned batch is enqueued at once. */
  lemma RoomEnqueues(l: Loop, room: nat, r: Round)
    requires l.depth <= room && Less(l.depth, r.takenByPut) < room
    ensures var l' := Offer(l, room, r);
            && l'.enqueued == l.enqueued + 1 && l'.dropped == l.dropped && l'.depth == Less(l.depth, r.takenByPut) + 1
            && l'.paused == l.paused && l'.stopped == l.stopped && l'.resumes == l.resumes
  {
  }

  /** At a full record queue the consumer pauses, unless the pause raises, waits, and resumes once. */
  lemma FullQueuePauses(l: Loop, room: nat, r: Round)
    requires LoopInv(l, room) && !l.paused && !l.stopped && !l.shutdown
    ensures var l', left := Wait(l, room, r), Drained(l.depth, room, r.waits);
            && l'.depth == left && !l'.paused && (l'.shutdown <==> left > room / 2)
            && l'.enqueued == l.enqueued && l'.dropped == l.dropped
            && if r.fullPauseRaises then l'.resumes == l.resumes && !l'.stopped
               else && l'.resumes == l.resumes + [Resume(left, false, left > room / 2)]
                    && (l'.stopped <==> r.fullResumeRaises)
  {
  }

  function Sum(waits: seq<nat>): nat {
    if waits == [] then 0 else waits[0] + Sum(waits[1..])
  }

  lemma LessAgain(depth: nat, a: nat, b: nat)
    ensures Less(Less(depth, a), b) == Less(depth, a + b)
  {
  }

  /** The wait ends as soon as the record queue is half empty, and not before; it ends without that only
      when there is nothing more to wait for. */
  lemma {:induction false} DrainsToHalf(depth: nat, room: nat, waits: seq<nat>) returns (k: nat)
    ensures k <= |waits| && Drained(depth, room, waits) == Less(depth, Sum(waits[..k]))
    ensures Drained(depth, room, waits) <= room / 2 || k == |waits|
    ensures forall j | 0 <= j < k :: Less(depth, Sum(waits[..j])) > room / 2
    decreases |waits|
  {
    if depth <= room / 2 || waits == [] {
      k := 0;
    } else {
      var m := DrainsToHalf(Less(depth, waits[0]), room, waits[1..]);
      k := m + 1;
      forall j | 0 < j <= k ensures Sum(waits[..j]) == waits[0] + Sum(waits[1..][..j - 1]) {
        assert waits[..j][1..] == waits[1..][..j - 1];
      }
      forall j | 0 < j <= k ensures Less(depth, Sum(waits[..j])) ==
          Less(Less(depth, waits[0]), Sum(waits[1..][..j - 1])) {
        LessAgain(depth, waits[0], Sum(waits[1..][..j - 1]));
      }
    }
  }

  // ---------------------------------------------------------------------------------------
  // Paused without a reason
  // ---------------------------------------------------------------------------------------

  /** The client is paused, but not on account of the writers. */
  predicate Stranded(l: Loop) {
    l.stopped && !l.writerPaused
  }

  /** Only renewed writer pressure leads out of it. */
  lemma StrandedLeaves(l: Loop, room: nat, r: Round)
    requires LoopInv(l, room) && Stranded(l)
    ensures Stranded(Next(l, room, r)) <==> !r.pressure || r.pauseRaises
  {
  }

  /** However long the writers stay relaxed and whatever the processor takes, a stranded consumer
      stays paused and enqueues nothing. */
  lemma {:induction false} StrandedStays(l: Loop, room: nat, rounds: seq<Round>)
    requires LoopInv(l, room) && Stranded(l) && room > 0
    requires forall r | r in rounds :: !r.pressure
    ensures Stranded(After(l, room, rounds)) && After(l, room, rounds).enqueued == l.enqueued
    decreases |rounds|
  {
    if rounds != [] && !l.shutdown {
      assert rounds[0] in rounds;
      RoundKeeps(l, room, rounds[0]);
      StrandedStays(Next(l, room, rounds[0]), room, rounds[1..]);
    }
  }

  /** When the pressure is relieved, the consumer is stranded exactly if the record queue is half
      full or more at that moment, or the resume raises. */
  lemma ReliefStrands(l: Loop, room: nat, r: Round)
    requires LoopInv(l, room) && l.writerPaused && !r.pressure
    ensures Stranded(Check(l, room, r)) <==> Less(l.depth, r.takenBefore) >= room / 2 || r.resumeRaises
  {
  }

  /** A record queue of one envelope has no half: relieved pressure never resumes the consumer. */
  lemma {:induction false} RoomForOneNeverResumes(l: Loop, rounds: seq<Round>)
    requires LoopInv(l, 1) && l.paused
    ensures After(l, 1, rounds).paused && After(l, 1, rounds).enqueued == l.enqueued
    decreases |rounds|
  {
    if rounds != [] && !l.shutdown {
      RoundKeeps(l, 1, rounds[0]);
      RoomForOneNeverResumes(Next(l, 1, rounds[0]), rounds[1..]);
    }
  }

  const CALM: Round := Round(false, false, 0, false, Batch, 0, false, [], false, 0, false)

  /** Three rounds strand a consumer whose every pause and resume succeeds: one envelope is
      enqueued, the writers saturate, and they relax while the envelope is still queued. */
  lemma StrandedIsReached()
    ensures var l := After(START, 2, [CALM, CALM.(pressure := true), CALM]);
            Stranded(l) && l.paused && !l.lost && !l.shutdown && l.enqueued == 1
  {
    var r0, r1 := CALM, CALM.(pressure := true);
    var l1 := Next(START, 2, r0);
    var l2 := Next(l1, 2, r1);
    var l3 := Next(l2, 2, r0);
    assert [r0, r1, r0][1..] == [r1, r0] && [r1, r0][1..] == [r0] && [r0][1..] == [];
    assert After(l2, 2, [r0]) == After(l3, 2, []) == l3;
    assert After(l1, 2, [r1, r0]) == l3;
  }
}
