/** The commit that `on_revoke` makes: exactly when it is safe, and exactly when it moves a partition
    backwards. */
module Revocation {
  import opened Offsets
  import opened Sequences
  import opened Split
  import opened Batch
  import opened Protocol
  import opened Invariant
  import opened LaneInvariant
  import opened CommitInvariant
  import opened NoiseInvariant
  import opened RevokeInvariant
  import opened Theorems
  import L = Ledger
  import D = Delivery

  /** No message of the handling is on its way, has failed or was lost in a crash. */
  predicate Closed(w: D.Wire, a: Attempt) {
    forall id | a.lo <= id < a.hi :: id !in w.outstanding && id !in w.failed && id !in w.lost
  }

  ghost predicate Answered(s: State, r: Ref) {
    exists a :: a in s.h.attempts && a.ref == r && Closed(s.wire, a)
  }

  /** A closed handling has been delivered, for every message is in one of the five places. */
  lemma AnsweredIsProduced(s: State, r: Ref)
    requires WireOk(s)
    ensures Answered(s, r) <==> Produced(s.h, s.wire, r)
  {
    if a :| a in s.h.attempts && a.ref == r && Closed(s.wire, a) {
      forall id | a.lo <= id < a.hi ensures id in s.wire.delivered {
        assert id < s.wire.next;
      }
      assert Resolved(s.wire, a);
    }
    if a :| a in s.h.attempts && a.ref == r && Resolved(s.wire, a) {
      assert Closed(s.wire, a);
    }
  }

  /** The current batch has handled the record. */
  ghost predicate HandledInHand(s: State, r: Ref) {
    !s.processor.Waiting? && exists t :: t in s.processor.turns && Reached(t) && t.record.ref == r
  }

  /** Of the records up to the published offset, those of the current batch are closed or inserted, and
      the blamed ones are durable all the same. The rest needs no look. */
  ghost predicate RevokeGuard(s: State, k: Key)
    requires k in s.processed
  {
    forall r: Ref | r.key == k && Answerable(s, r) && r.offset <= s.processed[k] ::
      && (HandledInHand(s, r) || DivertedInHand(s, r) ==> r in s.noiseTable || Answered(s, r))
      && (Blamed(s.h, r) ==> Kept(s, r))
  }

  /** A record of the current batch was diverted, handled, or lies ahead of the processor. */
  lemma HandSplits(s: State, r: Ref)
    requires Structure(s) && SkipsAreMoves(s) && r in HandFlow(s.processor) && r.key !in s.broker.moved
    ensures DivertedInHand(s, r) || HandledInHand(s, r) || r in Ahead(s)
  {
    var p := s.processor;
    var source, flags, rest := p.env.source, p.env.flags, Residual(p.env);
    RefsMember(source, r);
    var x :| x in source && x.Message? && x.ref == r;
    var i :| 0 <= i < |source| && source[i] == x;
    PickMember(source, flags, flags[i], x);
    if flags[i] {
      RefsMember(Pick(source, flags, true), r);
    } else {
      var j :| 0 <= j < |rest| && rest[j] == x;
      if j < |p.turns| {
        assert p.turns[j] in p.turns && Reached(p.turns[j]);
      } else {
        assert rest[|p.turns|..][j - |p.turns|] == x;
        RefsMember(rest[|p.turns|..], r);
      }
    }
  }

  /** Up to the published offset every record is settled or in the processor's hand. */
  lemma UpToPublished(c: Config, s: State, k: Key, r: Ref)
    requires Inv(c, s) && k in s.processed && k !in s.broker.moved
    requires r.key == k && Answerable(s, r) && r.offset <= s.processed[k]
    ensures Settled(s, r) || HandledInHand(s, r) || DivertedInHand(s, r)
  {
    var last := Ref(k, s.processed[k]);
    assert IsLastHandled(s, last);
    assert Fetched(s, last);
    assert L.Passed(s.broker, r);
    if r !in SettledSet(s) {
      assert r in Flow(s);
      assert r !in Ahead(s);
      assert r in HandFlow(s.processor);
      HandSplits(s, r);
    }
  }

  lemma RevokeCommits(c: Config, s: State, keys: set<Key>, k: Key)
    requires CanStep(c, s, Revoke(keys, true)) && k in keys
    ensures var s' := Next(c, s, Revoke(keys, true));
            && s'.h == s.h && s'.wire == s.wire && s'.noiseTable == s.noiseTable
            && At(s'.broker.committed, k) == if k in s.processed then s.processed[k] + 1 else At(s.broker.committed, k)
  {
  }

  lemma KeptIsAnswered(s: State, s': State)
    requires WireOk(s) && s'.h == s.h && s'.wire == s.wire && s'.noiseTable == s.noiseTable
    ensures forall r :: Kept(s', r) <==> r in s.noiseTable || Answered(s, r)
    ensures forall r :: Kept(s', r) <==> Kept(s, r)
  {
    forall r ensures Kept(s', r) <==> r in s.noiseTable || Answered(s, r) {
      AnsweredIsProduced(s, r);
    }
  }

  lemma RunWire(c: Config, run: seq<State>, steps: seq<Step>, n: nat)
    requires IsRun(c, run, steps) && n < |run|
    ensures WireOk(run[n]) && CommitsPublished(run[n])
  {
    RunInv(c, run, steps, n);
  }

  /** Everything below the offset that the revoke commits is durable. */
  ghost predicate RevokedIsKept(s: State, k: Key, s': State) {
    forall r: Ref | r.key == k && Answerable(s, r) && BelowCommit(s', r) :: Kept(s', r)
  }

  lemma GuardSuffices(c: Config, s: State, keys: set<Key>, k: Key)
    requires Inv(c, s) && CanStep(c, s, Revoke(keys, true)) && k in keys && k in s.processed && k !in s.broker.moved
    requires RevokeGuard(s, k)
    ensures RevokedIsKept(s, k, Next(c, s, Revoke(keys, true)))
  {
    var s' := Next(c, s, Revoke(keys, true));
    RevokeCommits(c, s, keys, k);
    KeptIsAnswered(s, s');
    forall r: Ref | r.key == k && Answerable(s, r) && BelowCommit(s', r) ensures Kept(s', r) {
      UpToPublished(c, s, k, r);
    }
  }

  lemma GuardNeeded(c: Config, s: State, keys: set<Key>, k: Key)
    requires WireOk(s) && CanStep(c, s, Revoke(keys, true)) && k in keys && k in s.processed
    requires RevokedIsKept(s, k, Next(c, s, Revoke(keys, true)))
    ensures RevokeGuard(s, k)
  {
    var s' := Next(c, s, Revoke(keys, true));
    RevokeCommits(c, s, keys, k);
    KeptIsAnswered(s, s');
    forall r: Ref | r.key == k && Answerable(s, r) && r.offset <= s.processed[k] ensures Kept(s', r) {
      assert BelowCommit(s', r);
    }
  }

  /** Exactly when the commit of a revoke is safe: everything below the new offset is durable if and
      only if no handling of the current batch has an open message, its diverted records are inserted,
      and every blamed record below is durable. No barrier checks any of this. */
  lemma SafeRevokeExactly(c: Config, run: seq<State>, steps: seq<Step>, n: nat, keys: set<Key>, k: Key)
    requires IsRun(c, run, steps) && n < |steps| && steps[n] == Revoke(keys, true)
    requires k in keys && k in run[n].processed && k !in run[n].broker.moved
    ensures run[n + 1].broker.committed[k] == run[n].processed[k] + 1
    ensures RevokedIsKept(run[n], k, run[n + 1]) <==> RevokeGuard(run[n], k)
  {
    RunInv(c, run, steps, n);
    RevokeCommits(c, run[n], keys, k);
    if RevokeGuard(run[n], k) {
      GuardSuffices(c, run[n], keys, k);
    }
    if RevokedIsKept(run[n], k, run[n + 1]) {
      GuardNeeded(c, run[n], keys, k);
    }
  }

  /** Exactly when a revoke moves a partition backwards. In one ownership that happens only when the
      last committed record was a diverted one, which is committed but never published. */
  lemma RevokeLowersExactly(c: Config, run: seq<State>, steps: seq<Step>, n: nat, keys: set<Key>, k: Key)
    requires IsRun(c, run, steps) && n < |steps| && steps[n] == Revoke(keys, true)
    requires k in keys && k in run[n].broker.committed
    ensures k in run[n + 1].broker.committed
    ensures var before, after := run[n].broker.committed[k], run[n + 1].broker.committed[k];
            && (after < before <==> k in run[n].processed && run[n].processed[k] + 1 < before)
            && (after < before && k !in run[n].broker.moved ==> Ref(k, before - 1) in run[n].h.diverted)
  {
    RunWire(c, run, steps, n);
    RevokeCommits(c, run[n], keys, k);
  }

  /** Exactly what a revoke does: the named partitions are no longer assigned and are skipped from now on;
      if its commit succeeds, those of them with a handled message are committed to one past the highest,
      and no other committed offset changes. */
  lemma RevokeExactly(c: Config, s: State, keys: set<Key>, committed: bool, k: Key)
    requires CanStep(c, s, Revoke(keys, committed))
    ensures var s' := Next(c, s, Revoke(keys, committed));
            && (k in s'.broker.position <==> k in s.broker.position && k !in keys)
            && (k in s'.broker.moved <==> k in s.broker.moved || k in keys)
            && (k in s'.revoked <==> k in s.revoked || k in keys)
            && At(s'.broker.committed, k) == if committed && k in keys && k in s.processed
                                            then s.processed[k] + 1 else At(s.broker.committed, k)
  {
  }

  /** An assigned partition starts from its committed offset or from where the reset says, and its
      messages are no longer skipped. */
  lemma AssignExactly(c: Config, s: State, k: Key, other: Key)
    requires CanStep(c, s, Assign(k))
    ensures var s' := Next(c, s, Assign(k));
            && k in s'.broker.position
            && s'.broker.position[k] == (if k in s.broker.committed then s.broker.committed[k]
                                         else if c.earliest then 0 else L.End(s.broker, k))
            && k !in s'.revoked && s'.broker.committed == s.broker.committed
            && (other != k ==>
                  && (other in s'.revoked <==> other in s.revoked)
                  && At(s'.broker.position, other) == At(s.broker.position, other))
  {
  }
}
