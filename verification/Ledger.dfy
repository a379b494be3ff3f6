/** The broker's view of the source topic (log, fetch positions and committed offsets) together
    with the records that have been fetched and not yet finished with (the flow, oldest first). */
module Ledger {
  import opened Offsets

  /** `log` is everything the source topic holds and `end` its next offsets. `position` has the
      assigned partitions, `moved` those that have ever been revoked, and `floor` the offset from
      which this consumer group is answerable for a partition. */
  datatype Broker = Broker(
    log: set<Ref>, end: Marks, floor: Marks, position: Marks, committed: Marks, moved: set<Key>)

  function End(b: Broker, k: Key): nat {
    if k in b.end then b.end[k] else 0
  }

  // ---------------------------------------------------------------------------------------
  // What the broker does
  // ---------------------------------------------------------------------------------------

  /** A producer somewhere appends a record; offsets may have gaps. */
  function Append(b: Broker, k: Key, gap: nat): Broker {
    var o := End(b, k) + gap;
    b.(log := b.log + {Ref(k, o)}, end := b.end[k := o + 1])
  }

  /** Where fetching starts. A partition without a committed offset starts at one of the two ends of
      the log, as `auto.offset.reset` says. */
  function StartOf(b: Broker, k: Key, earliest: bool): nat {
    if k in b.committed then b.committed[k] else if earliest then 0 else End(b, k)
  }

  /** The partition is assigned. The group answers for what follows its first start, and goes on
      answering for that when a later start lies further on. */
  function Assign(b: Broker, k: Key, earliest: bool): Broker {
    var start := StartOf(b, k, earliest);
    var floor := if k in b.floor && b.floor[k] <= start then b.floor[k] else start;
    b.(position := b.position[k := start], floor := b.floor[k := floor])
  }

  /** What the group answers for and an assignment without a committed offset leaves behind. */
  function Skipped(b: Broker, k: Key, earliest: bool): set<Ref> {
    set r | r in b.log && r.key == k && k in b.floor && b.floor[k] <= r.offset < StartOf(b, k, earliest) &&
        k !in b.committed
  }

  function Revoke(b: Broker, keys: set<Key>): Broker {
    b.(position := b.position - keys, moved := b.moved + keys)
  }

  function Crash(b: Broker): Broker {
    b.(position := map[])
  }

  function Commit(b: Broker, vector: Marks): Broker {
    b.(committed := b.committed + vector)
  }

  /** The next record of its partition, if the partition is assigned. */
  ghost predicate CanFetch(b: Broker, r: Ref) {
    && r in b.log
    && r.key in b.position
    && b.position[r.key] <= r.offset
    && (forall q | q in b.log && q.key == r.key && q.offset < r.offset :: q.offset < b.position[r.key])
  }

  function Fetch(b: Broker, r: Ref): Broker {
    b.(position := b.position[r.key := r.offset + 1])
  }

  ghost predicate CanFetchAll(b: Broker, rs: seq<Ref>)
    decreases |rs|
  {
    rs == [] || (CanFetch(b, rs[0]) && CanFetchAll(Fetch(b, rs[0]), rs[1..]))
  }

  function FetchAll(b: Broker, rs: seq<Ref>): Broker
    decreases |rs|
  {
    if rs == [] then b else FetchAll(Fetch(b, rs[0]), rs[1..])
  }

  /** The next record may have any offset that is not taken yet. */
  lemma AppendAnywhere(b: Broker, k: Key, offset: nat) returns (gap: nat)
    requires End(b, k) <= offset
    ensures Append(b, k, gap).log == b.log + {Ref(k, offset)} && End(Append(b, k, gap), k) == offset + 1
  {
    gap := offset - End(b, k);
  }

  // ---------------------------------------------------------------------------------------
  // Invariants
  // ---------------------------------------------------------------------------------------

  /** Below the committed offset, and within what the group answers for. */
  predicate Below(b: Broker, r: Ref) {
    && r.key in b.committed && r.offset < b.committed[r.key]
    && r.key in b.floor && b.floor[r.key] <= r.offset
  }

  /** Fetched since the partition was assigned or committed before, and answerable for. */
  predicate Passed(b: Broker, r: Ref) {
    && r.key in b.position && r.offset < b.position[r.key]
    && r.key in b.floor && b.floor[r.key] <= r.offset
  }

  ghost predicate Bounded(b: Broker) {
    && (forall r | r in b.log :: r.offset < End(b, r.key))
    && (forall k | k in b.position && k !in b.moved ::
          k in b.floor && b.floor[k] <= b.position[k] <= End(b, k))
    && (forall k | k in b.position && k in b.committed && k !in b.moved :: b.committed[k] <= b.position[k])
    && (forall k | k in b.committed && k !in b.moved :: 
          k in b.floor && b.floor[k] <= b.committed[k] <= End(b, k))
  }

  ghost predicate FlowWithin(b: Broker, flow: seq<Ref>) {
    forall r | r in flow && r.key !in b.moved ::
      r in b.log && Passed(b, r) && (r.key in b.committed ==> b.committed[r.key] <= r.offset)
  }

  ghost predicate Ascending(rs: seq<Ref>, except: set<Key>) {
    forall i, j | 0 <= i < j < |rs| && rs[i].key == rs[j].key && rs[i].key !in except :: rs[i].offset < rs[j].offset
  }

  ghost predicate Shape(b: Broker, flow: seq<Ref>) {
    Bounded(b) && FlowWithin(b, flow) && Ascending(flow, b.moved)
  }

  /** Nothing is lost: every record that the consumer has passed is accounted for or still in the
      flow, and below the committed offset every record is accounted for. */
  ghost predicate Covered(b: Broker, flow: seq<Ref>, done: set<Ref>) {
    && (forall r | r in b.log && r.key !in b.moved && Passed(b, r) :: r in done || r in flow)
    && (forall r | r in b.log && r.key !in b.moved && Below(b, r) :: r in done)
  }

  // ---------------------------------------------------------------------------------------
  // Every step keeps them
  // ---------------------------------------------------------------------------------------

  lemma AppendKeeps(b: Broker, flow: seq<Ref>, done: set<Ref>, k: Key, gap: nat)
    requires Shape(b, flow) && Covered(b, flow, done)
    ensures Shape(Append(b, k, gap), flow) && Covered(Append(b, k, gap), flow, done)
  {
  }

  lemma CoverGrows(b: Broker, flow: seq<Ref>, done: set<Ref>, more: set<Ref>)
    requires Covered(b, flow, done) && (forall r | r in done && r in b.log :: r in more)
    ensures Covered(b, flow, more)
  {
  }

  lemma AssignKeepsShape(b: Broker, flow: seq<Ref>, k: Key, earliest: bool)
    requires Shape(b, flow) && k !in b.position
    ensures Shape(Assign(b, k, earliest), flow)
  {
  }

  lemma AssignKeeps(b: Broker, flow: seq<Ref>, done: set<Ref>, k: Key, earliest: bool)
    requires Shape(b, flow) && Covered(b, flow, done) && k !in b.position && Skipped(b, k, earliest) <= done
    ensures Shape(Assign(b, k, earliest), flow) && Covered(Assign(b, k, earliest), flow, done)
  {
    AssignKeepsShape(b, flow, k, earliest);
    var b' := Assign(b, k, earliest);
    forall r | r in b'.log && r.key !in b'.moved && Passed(b', r)
      ensures r in done || r in flow
    {
      if r.key == k {
        if k in b.committed {
          assert Below(b, r);
        } else {
          assert r in Skipped(b, k, earliest);
        }
      }
    }
  }

  lemma RevokeKeeps(b: Broker, flow: seq<Ref>, done: set<Ref>, keys: set<Key>, vector: Marks)
    requires Shape(b, flow) && Covered(b, flow, done) && vector.Keys <= keys
    ensures Shape(Commit(Revoke(b, keys), vector), flow)
    ensures Covered(Commit(Revoke(b, keys), vector), flow, done)
  {
  }

  /** After a crash only what lies below the committed offsets has to stay accounted for: the rest
      is fetched again. */
  lemma CrashKeeps(b: Broker, flow: seq<Ref>, done: set<Ref>, kept: set<Ref>)
    requires Shape(b, flow) && Covered(b, flow, done)
    requires forall r | r in b.log && r in done && Below(b, r) :: r in kept
    ensures Shape(Crash(b), []) && Covered(Crash(b), [], kept)
  {
  }

  lemma FetchKeeps(b: Broker, flow: seq<Ref>, done: set<Ref>, r: Ref)
    requires Shape(b, flow) && Covered(b, flow, done) && CanFetch(b, r)
    ensures Shape(Fetch(b, r), flow + [r]) && Covered(Fetch(b, r), flow + [r], done)
  {
    var b', flow' := Fetch(b, r), flow + [r];
    forall q | q in flow' && q.key !in b'.moved
      ensures q in b'.log && Passed(b', q) && (q.key in b'.committed ==> b'.committed[q.key] <= q.offset)
    {
      if q !in flow {
        assert q == r;
      }
    }
    forall i, j | 0 <= i < j < |flow'| && flow'[i].key == flow'[j].key && flow'[i].key !in b'.moved
      ensures flow'[i].offset < flow'[j].offset
    {
      assert flow[i] in flow;
    }
    forall q | q in b'.log && q.key !in b'.moved && Passed(b', q)
      ensures q in done || q in flow'
    {
      if !Passed(b, q) {
        assert q.key == r.key && q.offset == r.offset;
        assert flow'[|flow|] == r;
      } else {
        assert q in flow ==> q in flow';
      }
    }
  }

  lemma {:induction false} FetchAllKeeps(b: Broker, flow: seq<Ref>, done: set<Ref>, rs: seq<Ref>)
    requires Shape(b, flow) && Covered(b, flow, done) && CanFetchAll(b, rs)
    ensures Shape(FetchAll(b, rs), flow + rs) && Covered(FetchAll(b, rs), flow + rs, done)
    decreases |rs|
  {
    if rs == [] {
      assert flow + rs == flow;
    } else {
      assert CanFetch(b, rs[0]) && CanFetchAll(Fetch(b, rs[0]), rs[1..]);
      assert FetchAll(b, rs) == FetchAll(Fetch(b, rs[0]), rs[1..]);
      assert (flow + [rs[0]]) + rs[1..] == flow + rs;
      FetchKeeps(b, flow, done, rs[0]);
      FetchAllKeeps(Fetch(b, rs[0]), flow + [rs[0]], done, rs[1..]);
    }
  }

  /** Only fetch positions move, and only forward. */
  lemma {:induction false} FetchAllFrame(b: Broker, rs: seq<Ref>)
    requires CanFetchAll(b, rs)
    ensures FetchAll(b, rs) == b.(position := FetchAll(b, rs).position)
    ensures FetchAll(b, rs).position.Keys == b.position.Keys
    ensures forall k | k in b.position :: b.position[k] <= FetchAll(b, rs).position[k]
    ensures forall r | r in rs :: r in b.log && r.key in b.position && b.position[r.key] <= r.offset
    decreases |rs|
  {
    if rs != [] {
      FetchAllFrame(Fetch(b, rs[0]), rs[1..]);
      forall r | r in rs ensures r in b.log && r.key in b.position && b.position[r.key] <= r.offset {
        if r != rs[0] {
          assert r in rs[1..];
        }
      }
    }
  }

  /** The vector raises a partition to just past a record of the part of the flow that is
      finished with. */
  ghost predicate CommitsFrom(b: Broker, finished: seq<Ref>, vector: Marks) {
    forall k | k in vector && k !in b.moved :: vector[k] > 0 && Ref(k, vector[k] - 1) in finished
  }

  /** The oldest part of the flow is finished with, and the commit that follows is safe. */
  lemma RetireKeeps(b: Broker, finished: seq<Ref>, rest: seq<Ref>, done: set<Ref>, vector: Marks)
    requires Shape(b, finished + rest) && Covered(b, finished + rest, done)
    requires forall r | r in finished && r.key !in b.moved :: r in done
    requires CommitsFrom(b, finished, vector)
    ensures Shape(Commit(b, vector), rest) && Covered(Commit(b, vector), rest, done)
  {
    var b' := Commit(b, vector);
    forall k | k in vector && k !in b.moved
      ensures k in b.position && k in b.floor && vector[k] <= b.position[k]
    {
      var r := Ref(k, vector[k] - 1);
      assert r in finished + rest && Passed(b, r);
    }
    RestKeepsShape(b, finished, rest, vector);
    forall r | r in b'.log && r.key !in b'.moved && Below(b', r)
      ensures r in done
    {
      if !Below(b, r) {
        assert r.key in vector && Passed(b, r);
      }
    }
  }

  /** Everything younger than the finished part lies at or above the committed offset. */
  lemma RestStaysAhead(b: Broker, finished: seq<Ref>, rest: seq<Ref>, vector: Marks)
    requires Shape(b, finished + rest) && CommitsFrom(b, finished, vector)
    ensures forall r | r in rest && r.key !in b.moved && r.key in vector :: vector[r.key] <= r.offset
  {
    var flow := finished + rest;
    forall r | r in rest && r.key !in b.moved && r.key in vector
      ensures vector[r.key] <= r.offset
    {
      var last := Ref(r.key, vector[r.key] - 1);
      var i :| 0 <= i < |finished| && finished[i] == last;
      var j :| 0 <= j < |rest| && rest[j] == r;
      assert flow[i] == last && flow[|finished| + j] == r;
    }
  }

  lemma RestAscends(finished: seq<Ref>, rest: seq<Ref>, except: set<Key>)
    requires Ascending(finished + rest, except)
    ensures Ascending(rest, except)
  {
    var flow := finished + rest;
    assert forall i | 0 <= i < |rest| :: flow[|finished| + i] == rest[i];
  }

  /** A commit lies between what the group answers for and what it has fetched. */
  lemma CommitsWithin(b: Broker, flow: seq<Ref>, vector: Marks)
    requires Shape(b, flow) && CommitsFrom(b, flow, vector)
    ensures forall k | k in vector && k !in b.moved ::
              k in b.position && k in b.floor && b.floor[k] <= vector[k] <= b.position[k]
  {
    forall k | k in vector && k !in b.moved
      ensures k in b.position && k in b.floor && b.floor[k] <= vector[k] <= b.position[k]
    {
      var r := Ref(k, vector[k] - 1);
      assert r in flow && Passed(b, r);
    }
  }

  lemma CommitStaysBounded(b: Broker, flow: seq<Ref>, vector: Marks)
    requires Shape(b, flow) && (forall k | k in vector && k !in b.moved ::
                                vector[k] > 0 && Ref(k, vector[k] - 1) in flow)
    ensures Bounded(Commit(b, vector))
  {
    CommitsWithin(b, flow, vector);
  }

  lemma RestStaysWithin(b: Broker, finished: seq<Ref>, rest: seq<Ref>, vector: Marks)
    requires Shape(b, finished + rest) && CommitsFrom(b, finished, vector)
    ensures FlowWithin(Commit(b, vector), rest)
  {
    RestStaysAhead(b, finished, rest, vector);
    assert forall r | r in rest :: r in finished + rest;
  }

  lemma RestKeepsShape(b: Broker, finished: seq<Ref>, rest: seq<Ref>, vector: Marks)
    requires Shape(b, finished + rest) && CommitsFrom(b, finished, vector)
    ensures Shape(Commit(b, vector), rest)
  {
    RestStaysWithin(b, finished, rest, vector);
    RestAscends(finished, rest, b.moved);
    CommitStaysBounded(b, finished + rest, vector);
  }

  /** The youngest part of the flow is given up; nothing is committed. */
  lemma ShedKeeps(b: Broker, rest: seq<Ref>, given: seq<Ref>, done: set<Ref>)
    requires Shape(b, rest + given) && Covered(b, rest + given, done)
    requires forall r | r in given && r.key !in b.moved :: r in done
    ensures Shape(b, rest) && Covered(b, rest, done)
  {
    var flow := rest + given;
    assert forall r | r in rest :: r in flow;
    assert forall i | 0 <= i < |rest| :: flow[i] == rest[i];
  }
}
