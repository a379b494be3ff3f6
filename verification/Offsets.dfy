/** Partitions, offsets and the per-partition high-water marks that every thread of the
    forwarder keeps as a dictionary. */
module Offsets {
  datatype Key = Key(topic: string, partition: nat)

  /** One source record: a partition and its offset there. */
  datatype Ref = Ref(key: Key, offset: nat)

  type Marks = map<Key, nat>

  /** A dictionary lookup whose default is -1. */
  function At(m: Marks, k: Key): int {
    if k in m then m[k] else -1
  }

  function Bump(m: Marks, r: Ref): Marks {
    if r.offset > At(m, r.key) then m[r.key := r.offset] else m
  }

  function BumpAll(m: Marks, rs: seq<Ref>): Marks {
    if rs == [] then m else Bump(BumpAll(m, rs[..|rs| - 1]), rs[|rs| - 1])
  }

  /** Every required offset has been reached. */
  predicate Covers(m: Marks, required: Marks) {
    forall k | k in required :: At(m, k) >= required[k]
  }

  /** A mark is a maximum: it bounds the old mark and every offset recorded for its key, and it
      is one of them. */
  ghost predicate IsHighest(before: Marks, rs: seq<Ref>, after: Marks, k: Key) {
    && At(before, k) <= At(after, k)
    && (forall i | 0 <= i < |rs| && rs[i].key == k :: rs[i].offset <= At(after, k))
    && (At(after, k) == At(before, k) || exists i :: 0 <= i < |rs| && rs[i] == Ref(k, after[k]))
  }

  lemma {:induction false} BumpAllIsHighest(m: Marks, rs: seq<Ref>, k: Key)
    ensures IsHighest(m, rs, BumpAll(m, rs), k)
  {
    if rs != [] {
      var rest := rs[..|rs| - 1];
      BumpAllIsHighest(m, rest, k);
      var mid, after := BumpAll(m, rest), BumpAll(m, rs);
      if At(mid, k) != At(m, k) && At(after, k) == At(mid, k) {
        var i :| 0 <= i < |rest| && rest[i] == Ref(k, mid[k]);
        assert rs[i] == Ref(k, after[k]);
      }
    }
  }

  lemma BumpAllSnoc(m: Marks, rs: seq<Ref>, r: Ref)
    ensures BumpAll(m, rs + [r]) == Bump(BumpAll(m, rs), r)
  {
    assert (rs + [r])[..|rs + [r]| - 1] == rs;
  }

  lemma {:induction false} BumpAllConcat(m: Marks, a: seq<Ref>, b: seq<Ref>)
    ensures BumpAll(m, a + b) == BumpAll(BumpAll(m, a), b)
  {
    if b == [] {
      assert a + b == a;
    } else {
      BumpAllConcat(m, a, b[..|b| - 1]);
      assert (a + b)[..|a + b| - 1] == a + b[..|b| - 1];
    }
  }

  /** What the maxima of a list say about one partition. */
  lemma HighestMember(rs: seq<Ref>, k: Key)
    ensures var m := BumpAll(map[], rs);
            && (k in m ==> Ref(k, m[k]) in rs)
            && (forall r | r in rs && r.key == k :: k in m && r.offset <= m[k])
  {
    BumpAllIsHighest(map[], rs, k);
    var m := BumpAll(map[], rs);
    forall r | r in rs && r.key == k ensures k in m && r.offset <= m[k] {
      var i :| 0 <= i < |rs| && rs[i] == r;
    }
  }
}
