/** The processor thread's handling of one batch and its decision to commit. */
module Batch {
  import opened Offsets
  import opened Split

  datatype LaneName = Critical | Normal | Bulk

  /** Where an event was routed, and whether that lane's queue had room in time. */
  datatype Route = NoRoute | Routed(lane: LaneName, room: bool)

  /** What happened to the produce calls of an event: accepted ones, ones that were given up after
      ten retries, and how many of those left a copy in the DLQ. */
  datatype Sends = Sends(accepted: nat, exhausted: nat, copied: nat)

  /** The handling of one message. `dlq` says whether the DLQ record was accepted. */
  datatype Outcome =
    | Good(sends: Sends, route: Route)
    | Unparsable(dlq: bool)
    | Raising(sends: Sends, route: Route, dlq: bool)

  function SendsOf(o: Outcome): Sends {
    if o.Unparsable? then Sends(0, 0, 0) else o.sends
  }

  function RouteOf(o: Outcome): Route {
    if o.Unparsable? then NoRoute else o.route
  }

  /** A good event is produced at least to the raw, normalized and enriched topics. */
  predicate Plausible(o: Outcome) {
    && SendsOf(o).copied <= SendsOf(o).exhausted
    && (o.Good? ==> o.sends.accepted + o.sends.exhausted >= 3)
  }

  /** `_route_to_queue` reports failure only when the critical lane is full. */
  predicate Refused(o: Outcome) {
    RouteOf(o) == Routed(Critical, false)
  }

  /** In strict mode the event is due in `audit_events` before its offset is committed. */
  predicate Due(o: Outcome, strict: bool) {
    strict && RouteOf(o).Routed? && !RouteOf(o).lane.Bulk?
  }

  /** The commit waits for the event's lane, even when the normal lane dropped it. */
  predicate Awaited(o: Outcome, strict: bool) {
    Due(o, strict) && !Refused(o)
  }

  /** `orjson.loads` comes first: what is not a JSON document is handled no further. */
  predicate Fits(r: Record, o: Outcome) {
    r.Message? && !r.value.Decoded? ==> o.Unparsable?
  }

  datatype Tally = Tally(maxOffsets: Marks, signal: Marks, failed: bool, unrecoverable: nat)

  const ZERO: Tally := Tally(map[], map[], false, 0)

  /** One turn of the per-message loop. */
  function HandleOne(t: Tally, r: Record, revoked: bool, strict: bool, o: Outcome): Tally {
    match r
    case Missing => t
    case Fault(eof) => t.(failed := t.failed || !eof)
    case Message(ref, _) =>
      if revoked then t
      else Tally(
        Bump(t.maxOffsets, ref),
        if Awaited(o, strict) then Bump(t.signal, ref) else t.signal,
        t.failed || Refused(o),
        t.unrecoverable + (if o.Good? then 0 else 1))
  }

  /** The moments of a batch: the record, the revoked partitions when the processor reached it, and
      how its handling went. */
  datatype Turn = Turn(record: Record, revoked: set<Key>, outcome: Outcome)

  predicate IsRevoked(t: Turn) {
    t.record.Message? && t.record.ref.key in t.revoked
  }

  predicate Reached(t: Turn) {
    t.record.Message? && t.record.ref.key !in t.revoked
  }

  function HandledRef(t: Turn): seq<Ref> {
    if Reached(t) then [t.record.ref] else []
  }

  function HandledRefs(turns: seq<Turn>): seq<Ref> {
    if turns == [] then [] else HandledRefs(turns[..|turns| - 1]) + HandledRef(turns[|turns| - 1])
  }

  function TallyAll(turns: seq<Turn>, strict: bool): Tally {
    if turns == [] then ZERO
    else
      var last := turns[|turns| - 1];
      HandleOne(TallyAll(turns[..|turns| - 1], strict), last.record, IsRevoked(last), strict, last.outcome)
  }

  /** Why a batch counts as failed: a consume error or a critical event that found no room. */
  predicate Infrastructure(t: Turn) {
    t.record == Fault(false) || (Reached(t) && Refused(t.outcome))
  }

  lemma {:induction false} HandledRefsMember(turns: seq<Turn>, r: Ref)
    ensures r in HandledRefs(turns) <==> exists t :: t in turns && Reached(t) && t.record.ref == r
  {
    if turns != [] {
      var n := |turns| - 1;
      HandledRefsMember(turns[..n], r);
      assert turns == turns[..n] + [turns[n]];
    }
  }

  /** What one more turn adds to the tallies and the published offsets. */
  lemma NextTurn(turns: seq<Turn>, i: nat, strict: bool, processed: Marks)
    requires i < |turns|
    ensures TallyAll(turns[..i + 1], strict)
         == HandleOne(TallyAll(turns[..i], strict), turns[i].record, IsRevoked(turns[i]), strict, turns[i].outcome)
    ensures BumpAll(processed, HandledRefs(turns[..i + 1]))
         == var before := BumpAll(processed, HandledRefs(turns[..i]));
            if Reached(turns[i]) then Bump(before, turns[i].record.ref) else before
  {
    var refs := HandledRefs(turns[..i]);
    assert turns[..i + 1][..i] == turns[..i];
    if Reached(turns[i]) {
      BumpAllSnoc(processed, refs, turns[i].record.ref);
    } else {
      assert refs + [] == refs;
    }
  }

  lemma HandleOneMaxima(t: Tally, turn: Turn, strict: bool)
    ensures HandleOne(t, turn.record, IsRevoked(turn), strict, turn.outcome).maxOffsets
         == if Reached(turn) then Bump(t.maxOffsets, turn.record.ref) else t.maxOffsets
  {
  }

  /** Whatever mixture of good, unparsable and raising messages a batch holds, its maxima are those
      of all the messages it reached. */
  lemma {:induction false} TallyMaxima(turns: seq<Turn>, strict: bool)
    ensures TallyAll(turns, strict).maxOffsets == BumpAll(map[], HandledRefs(turns))
  {
    if turns != [] {
      var n := |turns| - 1;
      TallyMaxima(turns[..n], strict);
      var before, last := HandledRefs(turns[..n]), turns[n];
      HandleOneMaxima(TallyAll(turns[..n], strict), last, strict);
      if Reached(last) {
        assert HandledRefs(turns) == before + [last.record.ref];
        BumpAllSnoc(map[], before, last.record.ref);
      } else {
        assert HandledRefs(turns) == before + [];
        assert before + [] == before;
      }
    }
  }

  /** Only infrastructure makes a batch fail. */
  lemma {:induction false} TallyFails(turns: seq<Turn>, strict: bool)
    ensures TallyAll(turns, strict).failed <==> exists t :: t in turns && Infrastructure(t)
  {
    if turns != [] {
      var n := |turns| - 1;
      TallyFails(turns[..n], strict);
      var before := TallyAll(turns[..n], strict);
      assert TallyAll(turns, strict).failed <==> before.failed || Infrastructure(turns[n]);
      assert forall t :: t in turns <==> t in turns[..n] || t == turns[n];
    }
  }

  /** The turns that reached an event which could not be processed. */
  function Unprocessed(turns: seq<Turn>): set<nat> {
    set i: nat | i < |turns| && Reached(turns[i]) && !turns[i].outcome.Good?
  }

  /** The count of unrecoverable events is the number of those turns. */
  lemma {:induction false} TallyUnrecoverable(turns: seq<Turn>, strict: bool)
    ensures TallyAll(turns, strict).unrecoverable == |Unprocessed(turns)|
  {
    if turns == [] {
      assert Unprocessed(turns) == {};
    } else {
      var n := |turns| - 1;
      TallyUnrecoverable(turns[..n], strict);
      var before := Unprocessed(turns[..n]);
      assert Unprocessed(turns) == before + if Reached(turns[n]) && !turns[n].outcome.Good? then {n} else {};
    }
  }

  function AwaitedRef(t: Turn, strict: bool): seq<Ref> {
    if Reached(t) && Awaited(t.outcome, strict) then [t.record.ref] else []
  }

  function AwaitedRefs(turns: seq<Turn>, strict: bool): seq<Ref> {
    if turns == [] then [] else AwaitedRefs(turns[..|turns| - 1], strict) + AwaitedRef(turns[|turns| - 1], strict)
  }

  lemma {:induction false} AwaitedRefsMember(turns: seq<Turn>, strict: bool, r: Ref)
    ensures r in AwaitedRefs(turns, strict) <==>
            exists t :: t in turns && Reached(t) && Awaited(t.outcome, strict) && t.record.ref == r
  {
    if turns != [] {
      var n := |turns| - 1;
      AwaitedRefsMember(turns[..n], strict, r);
      assert turns == turns[..n] + [turns[n]];
    }
  }

  /** The signal map holds the highest awaited offset of each partition. */
  lemma {:induction false} TallySignals(turns: seq<Turn>, strict: bool)
    ensures TallyAll(turns, strict).signal == BumpAll(map[], AwaitedRefs(turns, strict))
  {
    if turns != [] {
      var n := |turns| - 1;
      TallySignals(turns[..n], strict);
      BumpAllConcat(map[], AwaitedRefs(turns[..n], strict), AwaitedRef(turns[n], strict));
      var r := AwaitedRef(turns[n], strict);
      assert r != [] ==> r[..0] == [];
    }
  }

  // ---------------------------------------------------------------------------------------
  // The commit decision
  // ---------------------------------------------------------------------------------------

  datatype Details = Details(remaining: nat, before: nat, after: nat, failed: bool, unrecoverable: nat)

  /** `evaluate_batch_commit`. */
  function EvaluateBatchCommit(d: Details): (bool, Details) {
    (d.remaining == 0 && d.after == d.before && !d.failed, d)
  }

  /** The vector to commit: one past the highest handled or diverted offset of each partition. */
  function CommitVector(maxOffsets: Marks, noise: Marks): Marks {
    map k | k in maxOffsets.Keys + noise.Keys ::
      (if At(noise, k) > At(maxOffsets, k) then noise[k] else maxOffsets[k]) + 1
  }

  /** Merges the diverted offsets into the handled ones and adds one. */
  method BuildVector(maxOffsets: Marks, noise: Marks) returns (vector: Marks)
    ensures vector == CommitVector(maxOffsets, noise)
  {
    var merged, todo := maxOffsets, noise.Keys;
    while todo != {}
      invariant todo <= noise.Keys
      invariant merged.Keys == maxOffsets.Keys + (noise.Keys - todo)
      invariant forall k | k in merged ::
        merged[k] == if k in todo || At(maxOffsets, k) >= At(noise, k) then maxOffsets[k] else noise[k]
      decreases todo
    {
      var k :| k in todo;
      if noise[k] > At(merged, k) {
        merged := merged[k := noise[k]];
      }
      todo := todo - {k};
    }
    vector := map k | k in merged :: merged[k] + 1;
  }

  /** `next` is one past the highest handled or diverted record of the partition. */
  ghost predicate IsLastOf(handled: seq<Ref>, diverted: seq<Ref>, k: Key, next: nat) {
    && next > 0
    && (Ref(k, next - 1) in handled || Ref(k, next - 1) in diverted)
    && (forall r | (r in handled || r in diverted) && r.key == k :: r.offset < next)
  }

  /** A commit covers exactly the partitions with a handled or diverted record, and commits each of
      them to one past the highest such record. */
  lemma VectorMeaning(handled: seq<Ref>, diverted: seq<Ref>, k: Key)
    ensures var vector := CommitVector(BumpAll(map[], handled), BumpAll(map[], diverted));
            && (k in vector <==> exists r :: (r in handled || r in diverted) && r.key == k)
            && (k in vector ==> IsLastOf(handled, diverted, k, vector[k]))
  {
    HighestMember(handled, k);
    HighestMember(diverted, k);
  }

  /** Exactly when the first gate opens: everything is answered, no delivery has failed, and no
      message of the batch met an infrastructure failure; events that could not be processed do not
      count. */
  lemma FirstGateExactly(turns: seq<Turn>, strict: bool, remaining: nat, before: nat, after: nat)
    ensures var t := TallyAll(turns, strict);
            EvaluateBatchCommit(Details(remaining, before, after, t.failed, t.unrecoverable)).0 <==>
              remaining == 0 && after == before && forall x | x in turns :: !Infrastructure(x)
  {
    TallyFails(turns, strict);
  }

  /** Poison pills never hold up a partition: a batch with clean infrastructure and a clean flush is
      committed, and the commit passes every message it reached, unparsable and raising ones
      included. */
  lemma PoisonPillsPass(turns: seq<Turn>, noise: Marks, strict: bool, errors: nat, r: Ref)
    requires forall t | t in turns :: !Infrastructure(t)
    requires r in HandledRefs(turns)
    ensures var t := TallyAll(turns, strict);
            && EvaluateBatchCommit(Details(0, errors, errors, t.failed, t.unrecoverable)).0
            && r.key in CommitVector(t.maxOffsets, noise)
            && r.offset < CommitVector(t.maxOffsets, noise)[r.key]
  {
    TallyMaxima(turns, strict);
    TallyFails(turns, strict);
    HighestMember(HandledRefs(turns), r.key);
  }

  // ---------------------------------------------------------------------------------------
  // The loop
  // ---------------------------------------------------------------------------------------

  class Processor {
    /** The highest offset handled per partition, read by the rebalance callbacks. */
    var processed: Marks

    /** One message: `continue` for errors and for revoked partitions, otherwise the tallies and
        the published offsets are raised, whichever way the handling went. */
    method HandleTurn(turn: Turn, strict: bool, before: Tally) returns (t: Tally)
      modifies this
      ensures t == HandleOne(before, turn.record, IsRevoked(turn), strict, turn.outcome)
      ensures processed == if Reached(turn) then Bump(old(processed), turn.record.ref) else old(processed)
    {
      t := before;
      if turn.record.Missing? || turn.record.Fault? {
        if turn.record.Fault? && !turn.record.eof {
          t := t.(failed := true);
        }
        return;
      }
      if turn.record.ref.key in turn.revoked {
        return;
      }
      var ref, o := turn.record.ref, turn.outcome;
      if RouteOf(o) == Routed(Critical, false) {
        t := t.(failed := true);
      } else if strict && RouteOf(o).Routed? && (RouteOf(o).lane.Critical? || RouteOf(o).lane.Normal?) {
        if ref.offset > At(t.signal, ref.key) {
          t := t.(signal := t.signal[ref.key := ref.offset]);
        }
      }
      if !o.Good? {
        t := t.(unrecoverable := t.unrecoverable + 1);
      }
      if ref.offset > At(t.maxOffsets, ref.key) {
        t := t.(maxOffsets := t.maxOffsets[ref.key := ref.offset]);
      }
      if ref.offset > At(processed, ref.key) {
        processed := processed[ref.key := ref.offset];
      }
    }

    /** The per-message loop of `_process_thread`. */
    method HandleBatch(turns: seq<Turn>, strict: bool) returns (t: Tally)
      modifies this
      ensures t == TallyAll(turns, strict)
      ensures processed == BumpAll(old(processed), HandledRefs(turns))
    {
      t := ZERO;
      var i := 0;
      while i < |turns|
        invariant 0 <= i <= |turns|
        invariant t == TallyAll(turns[..i], strict)
        invariant processed == BumpAll(old(processed), HandledRefs(turns[..i]))
      {
        NextTurn(turns, i, strict, old(processed));
        t := HandleTurn(turns[i], strict, t);
        i := i + 1;
      }
      assert turns[..i] == turns;
    }
  }
}
