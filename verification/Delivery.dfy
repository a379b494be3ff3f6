/** The Kafka producer: what it has accepted, what has been reported back, and the gate that the
    processor puts in front of a commit. */
module Delivery {

  /** Messages are numbered in the order in which the producer accepts them. `dlq` are those whose
      reports go to the DLQ counters and not to `errors`. A crash loses what is outstanding and
      the error counter; `older` is what the counter had reached in earlier lives. */
  datatype Wire = Wire(
    next: nat, dlq: set<nat>, outstanding: set<nat>, delivered: set<nat>, failed: set<nat>,
    lost: set<nat>, errors: nat, older: nat)

  const SILENT: Wire := Wire(0, {}, {}, {}, {}, {}, 0, 0)

  function Range(lo: nat, hi: nat): (r: set<nat>)
    ensures forall i :: i in r <==> lo <= i < hi
    decreases hi - lo
  {
    if hi <= lo then {} else Range(lo, hi - 1) + {hi - 1}
  }

  /** The producer accepts ordinary messages and then DLQ messages. */
  function Accept(w: Wire, plain: nat, dlq: nat): Wire {
    var hi := w.next + plain + dlq;
    w.(next := hi, dlq := w.dlq + Range(w.next + plain, hi), outstanding := w.outstanding + Range(w.next, hi))
  }

  /** The broker's report on an outstanding message, served by a poll or a flush. */
  function Report(w: Wire, id: nat, ok: bool): Wire {
    var w' := w.(outstanding := w.outstanding - {id});
    if ok then w'.(delivered := w.delivered + {id})
    else w'.(failed := w.failed + {id}, errors := w.errors + (if id in w.dlq then 0 else 1))
  }

  function Restart(w: Wire): Wire {
    w.(outstanding := {}, lost := w.lost + w.outstanding, errors := 0, older := w.older + w.errors)
  }

  /** Every accepted message is outstanding, delivered, failed or lost in a crash, exactly one of
      them, and the error counters count the failed ordinary messages. */
  ghost predicate WireInv(w: Wire) {
    && Partitioned(w)
    && |w.failed - w.dlq| == w.older + w.errors
  }

  ghost predicate Partitioned(w: Wire) {
    && (forall id | id in w.outstanding :: id < w.next && id !in w.delivered && id !in w.failed && id !in w.lost)
    && (forall id | id in w.delivered :: id < w.next && id !in w.failed && id !in w.lost)
    && (forall id | id in w.failed :: id < w.next && id !in w.lost)
    && (forall id | id in w.lost :: id < w.next)
    && (forall id | id in w.dlq :: id < w.next)
    && (forall id: nat | id < w.next :: id in w.outstanding || id in w.delivered || id in w.failed || id in w.lost)
  }

  /** Accepting gives the next numbers to the ordinary messages and the ones after them to the DLQ
      messages: all of them are outstanding, and only the DLQ messages count as such. Nothing else
      changes. */
  lemma AcceptMeans(w: Wire, plain: nat, dlq: nat, id: nat)
    requires WireInv(w)
    ensures var w' := Accept(w, plain, dlq);
            && w'.next == w.next + plain + dlq
            && (id in w'.outstanding <==> id in w.outstanding || w.next <= id < w.next + plain + dlq)
            && (id in w'.dlq <==> id in w.dlq || w.next + plain <= id < w.next + plain + dlq)
            && (w.next <= id < w.next + plain ==> id in w'.outstanding && id !in w'.dlq)
            && w'.delivered == w.delivered && w'.failed == w.failed && w'.lost == w.lost && w'.errors == w.errors
  {
  }

  /** A report moves one outstanding message, and counts an error exactly if an ordinary message has
      failed. */
  lemma ReportMeans(w: Wire, id: nat, ok: bool, x: nat)
    requires WireInv(w) && id in w.outstanding
    ensures var w' := Report(w, id, ok);
            && (x in w'.outstanding <==> x in w.outstanding && x != id)
            && (x in w'.delivered <==> x in w.delivered || (x == id && ok))
            && (x in w'.failed <==> x in w.failed || (x == id && !ok))
            && (x in w'.dlq <==> x in w.dlq)
            && w'.errors == w.errors + (if !ok && id !in w.dlq then 1 else 0)
            && w'.next == w.next && w'.lost == w.lost
  {
  }

  lemma AcceptNothing(w: Wire)
    ensures Accept(w, 0, 0) == w
  {
  }

  lemma RestartSilent()
    ensures Restart(SILENT) == SILENT
  {
  }

  lemma RangeOne(n: nat)
    ensures Range(n, n + 1) == {n}
  {
  }

  /** A silent producer accepts one DLQ message. */
  lemma AcceptOne()
    ensures Accept(SILENT, 0, 1) == Wire(1, {0}, {0}, {}, {}, {}, 0, 0)
  {
    RangeOne(0);
    assert SILENT.dlq + {0} == {0} && SILENT.outstanding + {0} == {0};
  }

  lemma SilentKeeps()
    ensures WireInv(SILENT)
  {
    assert SILENT.failed - SILENT.dlq == {};
  }

  lemma AcceptKeeps(w: Wire, plain: nat, dlq: nat)
    requires WireInv(w)
    ensures WireInv(Accept(w, plain, dlq))
  {
    var w' := Accept(w, plain, dlq);
    assert w'.failed - w'.dlq == w.failed - w.dlq;
  }

  lemma ReportKeeps(w: Wire, id: nat, ok: bool)
    requires WireInv(w) && id in w.outstanding
    ensures WireInv(Report(w, id, ok))
  {
    var w' := Report(w, id, ok);
    assert Partitioned(w');
    if ok || id in w.dlq {
      assert w'.failed - w'.dlq == w.failed - w.dlq;
    } else {
      assert w'.failed - w'.dlq == (w.failed - w.dlq) + {id};
    }
  }

  lemma RestartKeeps(w: Wire)
    requires WireInv(w)
    ensures WireInv(Restart(w))
  {
  }

  /** The number of accepted messages is the number of delivered, failed, outstanding and lost ones. */
  lemma Counted(w: Wire)
    requires WireInv(w)
    ensures w.next == |w.outstanding| + |w.delivered| + |w.failed| + |w.lost|
  {
    RangeSize(w.next);
    assert w.outstanding + w.delivered + w.failed + w.lost == Range(0, w.next);
    assert |w.outstanding + w.delivered| == |w.outstanding| + |w.delivered|;
    assert |w.outstanding + w.delivered + w.failed| == |w.outstanding| + |w.delivered| + |w.failed|;
  }

  lemma {:induction false} RangeSize(n: nat)
    ensures |Range(0, n)| == n
  {
    if n == 0 {
      assert Range(0, 0) == {};
    } else {
      RangeSize(n - 1);
      assert Range(0, n) == Range(0, n - 1) + {n - 1};
    }
  }

  // ---------------------------------------------------------------------------------------
  // The delivery gate
  // ---------------------------------------------------------------------------------------

  datatype WireStep = Accepts(plain: nat, dlq: nat) | Reports(id: nat, ok: bool)

  predicate Moves(w: Wire, step: WireStep, w': Wire) {
    match step
    case Accepts(plain, dlq) => w' == Accept(w, plain, dlq)
    case Reports(id, ok) => id in w.outstanding && w' == Report(w, id, ok)
  }

  ghost predicate IsWireRun(run: seq<Wire>, steps: seq<WireStep>) {
    && |run| == |steps| + 1
    && WireInv(run[0])
    && forall i | 0 <= i < |steps| :: Moves(run[i], steps[i], run[i + 1])
  }

  /** What can be said of the producer since the moment the processor read the error counter. */
  ghost predicate Since(start: Wire, w: Wire) {
    && WireInv(w)
    && start.next <= w.next && start.errors <= w.errors
    && start.delivered <= w.delivered && start.failed <= w.failed && start.lost == w.lost
    && (forall id | 0 <= id < start.next :: id in w.dlq <==> id in start.dlq)
    && (start.errors == w.errors ==> forall id | id in w.failed && id !in start.failed :: id in w.dlq)
  }

  lemma AcceptSince(start: Wire, w: Wire, plain: nat, dlq: nat)
    requires WireInv(start) && Since(start, w)
    ensures Since(start, Accept(w, plain, dlq))
  {
    AcceptKeeps(w, plain, dlq);
  }

  lemma ReportSince(start: Wire, w: Wire, id: nat, ok: bool)
    requires WireInv(start) && Since(start, w) && id in w.outstanding
    ensures Since(start, Report(w, id, ok))
  {
    ReportKeeps(w, id, ok);
  }

  lemma {:induction false} RunSince(run: seq<Wire>, steps: seq<WireStep>, n: nat)
    requires IsWireRun(run, steps) && n < |run|
    ensures Since(run[0], run[n])
  {
    if n > 0 {
      RunSince(run, steps, n - 1);
      assert Moves(run[n - 1], steps[n - 1], run[n - 1 + 1]);
      match steps[n - 1]
      case Accepts(plain, dlq) => AcceptSince(run[0], run[n - 1], plain, dlq);
      case Reports(id, ok) => ReportSince(run[0], run[n - 1], id, ok);
    }
  }

  /** The gate: when the flush leaves nothing outstanding and the error counter is where it was at
      the start of the batch, every ordinary message accepted since then was delivered, every
      ordinary message that was outstanding then was delivered too, and every DLQ message has been
      answered. */
  lemma GateSound(run: seq<Wire>, steps: seq<WireStep>)
    requires IsWireRun(run, steps)
    requires run[|steps|].outstanding == {} && run[|steps|].errors == run[0].errors
    ensures var start, end := run[0], run[|steps|];
            && (forall id | start.next <= id < end.next && id !in end.dlq :: id in end.delivered)
            && (forall id | id in start.outstanding && id !in end.dlq :: id in end.delivered)
            && (forall id | start.next <= id < end.next || id in start.outstanding :: id in end.delivered + end.failed)
  {
    RunSince(run, steps, |steps|);
    var start, end := run[0], run[|steps|];
    forall id | start.next <= id < end.next || id in start.outstanding
      ensures id in end.delivered + end.failed && (id !in end.dlq ==> id in end.delivered)
    {
      assert id < end.next;
    }
  }

  /** Whether an accepted message is a DLQ message is the same before and after. */
  predicate KeepsDlq(w: Wire, w': Wire, id: nat) {
    id < w.next ==> id < w'.next && (id in w'.dlq <==> id in w.dlq)
  }

  lemma {:induction false} DlqChain(run: seq<Wire>, i: nat, n: nat, id: nat)
    requires i <= n < |run| && forall x | i <= x < n :: KeepsDlq(run[x], run[x + 1], id)
    ensures KeepsDlq(run[i], run[n], id)
  {
    if i < n {
      DlqChain(run, i, n - 1, id);
      assert KeepsDlq(run[n - 1], run[n - 1 + 1], id);
    }
  }

  lemma DlqFixed(run: seq<Wire>, steps: seq<WireStep>, i: nat, n: nat, id: nat)
    requires IsWireRun(run, steps) && i <= n < |run|
    ensures KeepsDlq(run[i], run[n], id)
  {
    forall x | i <= x < n ensures KeepsDlq(run[x], run[x + 1], id) {
      RunKeepsInv(run, steps, x);
      MoveFixesDlq(run[x], steps[x], run[x + 1], id);
    }
    DlqChain(run, i, n, id);
  }

  lemma RunKeepsInv(run: seq<Wire>, steps: seq<WireStep>, n: nat)
    requires IsWireRun(run, steps) && n < |run|
    ensures WireInv(run[n])
  {
    RunSince(run, steps, n);
  }

  lemma MoveFixesDlq(w: Wire, step: WireStep, w': Wire, id: nat)
    requires WireInv(w) && Moves(w, step, w')
    ensures KeepsDlq(w, w', id)
  {
    match step
    case Accepts(plain, dlq) => AcceptMeans(w, plain, dlq, id);
    case Reports(x, ok) => ReportMeans(w, x, ok, id);
  }

  /** What the gate proves of each acceptance: its ordinary messages, the first that it puts on the wire,
      have been delivered. */
  lemma GateDelivers(run: seq<Wire>, steps: seq<WireStep>, i: nat, id: nat)
    requires IsWireRun(run, steps) && i < |steps| && steps[i].Accepts?
    requires run[|steps|].outstanding == {} && run[|steps|].errors == run[0].errors
    requires run[i].next <= id < run[i].next + steps[i].plain
    ensures id in run[|steps|].delivered
  {
    RunSince(run, steps, i);
    assert Moves(run[i], steps[i], run[i + 1]);
    AcceptMeans(run[i], steps[i].plain, steps[i].dlq, id);
    DlqFixed(run, steps, i + 1, |steps|, id);
    GateSound(run, steps);
  }

  // ---------------------------------------------------------------------------------------
  // Producing with retries
  // ---------------------------------------------------------------------------------------

  const MAX_PRODUCE_RETRIES: nat := 10

  /** What one `produce` call does: accept the message, find the local buffer full, or raise
      something else. */
  datatype Attempt = Accepted | BufferFull | Raises

  datatype Produced = Sent | GaveUp | Raised

  /** The first outcome that is not a full buffer. */
  function Settling(attempts: seq<Attempt>): (i: nat)
    ensures i <= |attempts|
    ensures forall j | 0 <= j < i :: attempts[j].BufferFull?
    ensures i < |attempts| ==> !attempts[i].BufferFull?
  {
    if attempts == [] || !attempts[0].BufferFull? then 0 else 1 + Settling(attempts[1..])
  }

  /** One more message is outstanding; it counts as a DLQ message or not. */
  predicate AcceptsOne(w: Wire, w': Wire, dlq: bool) {
    && w'.next == w.next + 1 && w'.outstanding == w.outstanding + {w.next}
    && w'.dlq == w.dlq + (if dlq then {w.next} else {})
    && w'.delivered == w.delivered && w'.failed == w.failed && w'.errors == w.errors
  }

  lemma OneAccepted(w: Wire)
    ensures AcceptsOne(w, Accept(w, 1, 0), false) && AcceptsOne(w, Accept(w, 0, 1), true)
  {
    RangeOne(w.next);
    assert Range(w.next + 1, w.next + 1) == {};
  }

  class Producer {
    var wire: Wire
    const dlqEnabled: bool

    /** `send_to_dlq`: never raises; its `produce` may be refused. */
    method SendToDlq(attempt: Attempt)
      modifies this
      ensures wire == if dlqEnabled && attempt.Accepted? then Accept(old(wire), 0, 1) else old(wire)
      ensures dlqEnabled && attempt.Accepted? ==> AcceptsOne(old(wire), wire, true)
    {
      if !dlqEnabled {
        return;
      }
      if attempt.Accepted? {
        OneAccepted(wire);
        wire := Accept(wire, 0, 1);
      }
    }

    /** `safe_produce`: retries while the buffer is full, ten times, and then makes one attempt to
        keep a copy in the DLQ. The message is accepted at most once, and the caller is told false
        exactly when ten attempts in a row found the buffer full. */
    method SafeProduce(toDlqTopic: bool, attempts: seq<Attempt>, last: Attempt) returns (r: Produced)
      requires |attempts| == MAX_PRODUCE_RETRIES
      modifies this
      ensures r.GaveUp? <==> forall i | 0 <= i < |attempts| :: attempts[i].BufferFull?
      ensures r.Sent? <==> Settling(attempts) < |attempts| && attempts[Settling(attempts)].Accepted?
      ensures r.Sent? ==> wire == Accept(old(wire), 1, 0) && AcceptsOne(old(wire), wire, false)
      ensures r.Raised? ==> wire == old(wire)
      ensures r.GaveUp? ==>
        wire == if dlqEnabled && !toDlqTopic && last.Accepted? then Accept(old(wire), 0, 1) else old(wire)
    {
      var retries := 0;
      while retries < MAX_PRODUCE_RETRIES
        invariant retries <= MAX_PRODUCE_RETRIES
        invariant wire == old(wire)
        invariant forall i | 0 <= i < retries :: attempts[i].BufferFull?
      {
        match attempts[retries] {
          case Accepted =>
            OneAccepted(wire);
            wire := Accept(wire, 1, 0);
            return Sent;
          case Raises =>
            return Raised;
          case BufferFull =>
            retries := retries + 1;
        }
      }
      if dlqEnabled && !toDlqTopic {
        SendToDlq(last);
      }
      return GaveUp;
    }
  }
}
