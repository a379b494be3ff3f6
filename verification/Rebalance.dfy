/** The rebalance callbacks and the two dictionaries they share with the processor: the partitions
    that have been revoked, and the highest offset handled in each partition. */
module Rebalance {
  import opened Offsets

  /** What `on_revoke` asks the broker to commit: one entry per revoked partition that has a handled
      offset, in the order of the callback's list. */
  function CommitRequest(processed: Marks, keys: seq<Key>): seq<Ref> {
    if keys == [] then []
    else
      var k := keys[|keys| - 1];
      CommitRequest(processed, keys[..|keys| - 1]) + (if k in processed then [Ref(k, processed[k] + 1)] else [])
  }

  /** The request as a dictionary of commits. */
  function RevokeVector(processed: Marks, keys: set<Key>): Marks {
    map k | k in keys && k in processed :: processed[k] + 1
  }

  class Callbacks {
    var processed: Marks
    var revoked: set<Key>

    method OnAssign(partitions: seq<Key>)
      modifies this`revoked
      ensures revoked == old(revoked) - set k | k in partitions
    {
      var i := 0;
      while i < |partitions|
        invariant 0 <= i <= |partitions|
        invariant revoked == old(revoked) - set k | k in partitions[..i]
      {
        revoked := revoked - {partitions[i]};
        i := i + 1;
      }
      assert partitions[..i] == partitions;
    }

    /** The request is sent, and its failure ignored, only if it is not empty. */
    method OnRevoke(partitions: seq<Key>) returns (request: seq<Ref>)
      modifies this`revoked
      ensures revoked == old(revoked) + set k | k in partitions
      ensures request == CommitRequest(processed, partitions)
    {
      request := [];
      if partitions == [] {
        return;
      }
      revoked := revoked + set k | k in partitions;
      var i := 0;
      while i < |partitions|
        invariant 0 <= i <= |partitions|
        invariant request == CommitRequest(processed, partitions[..i])
      {
        var key := partitions[i];
        assert partitions[..i + 1][..i] == partitions[..i];
        if key in processed {
          request := request + [Ref(key, processed[key] + 1)];
        }
        i := i + 1;
      }
      assert partitions[..i] == partitions;
    }

    /** The processor publishes a message it has handled. */
    method Publish(r: Ref)
      modifies this`processed
      ensures processed == Bump(old(processed), r)
    {
      if r.offset > At(processed, r.key) {
        processed := processed[r.key := r.offset];
      }
    }
  }

  // ---------------------------------------------------------------------------------------
  // Over any sequence of callbacks and handled messages
  // ---------------------------------------------------------------------------------------

  datatype Event =
    | Assigned(keys: seq<Key>)
    | Revoked(keys: seq<Key>)
    | Handled(ref: Ref)

  datatype View = View(processed: Marks, revoked: set<Key>)

  function See(v: View, e: Event): View {
    match e
    case Assigned(keys) => v.(revoked := v.revoked - set k | k in keys)
    case Revoked(keys) => v.(revoked := v.revoked + set k | k in keys)
    case Handled(r) => v.(processed := Bump(v.processed, r))
  }

  function SeeAll(events: seq<Event>): View {
    if events == [] then View(map[], {}) else See(SeeAll(events[..|events| - 1]), events[|events| - 1])
  }

  predicate Calls(e: Event, k: Key) {
    !e.Handled? && k in e.keys
  }

  /** The latest callback that named the partition was a revoke. */
  ghost predicate LatestIsRevoke(events: seq<Event>, k: Key) {
    exists i :: RevokesLast(events, k, i)
  }

  ghost predicate RevokesLast(events: seq<Event>, k: Key, i: int) {
    && 0 <= i < |events| && events[i].Revoked? && Calls(events[i], k)
    && forall j | i < j < |events| :: !Calls(events[j], k)
  }

  /** The highest offset of the partition among the handled messages. */
  ghost predicate HighestHandled(events: seq<Event>, k: Key, offset: nat) {
    && Handled(Ref(k, offset)) in events
    && forall e | e in events && e.Handled? && e.ref.key == k :: e.ref.offset <= offset
  }

  /** An event that does not name the partition changes nothing about its latest callback. */
  lemma LatestStays(before: seq<Event>, e: Event, k: Key)
    requires !Calls(e, k)
    ensures LatestIsRevoke(before + [e], k) <==> LatestIsRevoke(before, k)
  {
    var events := before + [e];
    if i :| RevokesLast(before, k, i) {
      assert RevokesLast(events, k, i);
    }
    if i :| RevokesLast(events, k, i) {
      assert i < |before|;
      assert forall j | i < j < |before| :: events[j] == before[j];
      assert RevokesLast(before, k, i);
    }
  }

  lemma LatestIsThis(before: seq<Event>, e: Event, k: Key)
    requires Calls(e, k)
    ensures LatestIsRevoke(before + [e], k) <==> e.Revoked?
  {
    var events := before + [e];
    assert events[|before|] == e;
    if e.Revoked? {
      assert RevokesLast(events, k, |before|);
    }
  }

  lemma {:induction false} RevokedIsLatest(events: seq<Event>, k: Key)
    ensures k in SeeAll(events).revoked <==> LatestIsRevoke(events, k)
  {
    if events != [] {
      var n := |events| - 1;
      RevokedIsLatest(events[..n], k);
      assert events == events[..n] + [events[n]];
      if Calls(events[n], k) {
        LatestIsThis(events[..n], events[n], k);
      } else {
        LatestStays(events[..n], events[n], k);
      }
    }
  }

  lemma {:induction false} ProcessedIsHighest(events: seq<Event>, k: Key)
    ensures var m := SeeAll(events).processed;
            if k in m then HighestHandled(events, k, m[k])
            else forall e | e in events && e.Handled? :: e.ref.key != k
  {
    if events != [] {
      var n := |events| - 1;
      ProcessedIsHighest(events[..n], k);
      assert events == events[..n] + [events[n]];
    }
  }

  lemma {:induction false} ProcessedNeverFalls(events: seq<Event>, n: nat, k: Key)
    requires n <= |events|
    ensures At(SeeAll(events[..n]).processed, k) <= At(SeeAll(events).processed, k)
  {
    if n == |events| {
      assert events[..n] == events;
    } else {
      var rest := events[..|events| - 1];
      ProcessedNeverFalls(rest, n, k);
      assert rest[..n] == events[..n];
    }
  }

  lemma {:induction false} RequestMembers(processed: Marks, keys: seq<Key>, r: Ref)
    ensures r in CommitRequest(processed, keys) <==>
      r.key in keys && r.key in processed && r.offset == processed[r.key] + 1
  {
    if keys != [] {
      RequestMembers(processed, keys[..|keys| - 1], r);
      assert keys == keys[..|keys| - 1] + [keys[|keys| - 1]];
    }
  }

  /** Every entry of the request says the same about its partition. */
  lemma RequestIsVector(processed: Marks, keys: seq<Key>, k: Key, c: nat)
    ensures var vector := RevokeVector(processed, set x | x in keys);
            Ref(k, c) in CommitRequest(processed, keys) <==> k in vector && vector[k] == c
  {
    RequestMembers(processed, keys, Ref(k, c));
  }

  /** Whatever callbacks and messages have come before: the processor skips exactly the partitions
      whose latest callback was a revoke, and a revoke commits, for exactly the partitions it names
      that have a handled message, one past the highest of them. */
  lemma RevokeCommitsHandled(events: seq<Event>, keys: seq<Key>, k: Key, c: nat)
    ensures k in SeeAll(events).revoked <==> LatestIsRevoke(events, k)
    ensures Ref(k, c) in CommitRequest(SeeAll(events).processed, keys) <==>
      k in keys && c > 0 && HighestHandled(events, k, c - 1)
  {
    RevokedIsLatest(events, k);
    ProcessedIsHighest(events, k);
    RequestMembers(SeeAll(events).processed, keys, Ref(k, c));
  }

  /** The dictionary of handled offsets outlives the ownership: a partition that comes back and is
      revoked again before any of its messages has been handled is committed to the offset that was
      handled in the earlier ownership. Against what another owner has committed meanwhile, that is a
      step back exactly if the other owner has come further. */
  lemma EarlierOwnershipIsCommitted(events: seq<Event>, k: Key, offset: nat, committed: Marks)
    requires HighestHandled(events, k, offset)
    ensures var processed := SeeAll(events + [Revoked([k]), Assigned([k])]).processed;
            && CommitRequest(processed, [k]) == [Ref(k, offset + 1)]
            && (At(committed + RevokeVector(processed, {k}), k) < At(committed, k) <==> offset + 1 < At(committed, k))
  {
    var mid, all := events + [Revoked([k])], events + [Revoked([k]), Assigned([k])];
    assert mid[..|events|] == events && all[..|mid|] == mid;
    ProcessedIsHighest(events, k);
    assert [k][..0] == [];
  }
}
