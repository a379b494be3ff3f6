/** The in-memory buffer of the single-writer mode and its flush into Postgres. */
module Buffer {

  function Min(a: nat, b: nat): nat {
    if a <= b then a else b
  }

  // ---------------------------------------------------------------------------------------
  // One chunk after another
  // ---------------------------------------------------------------------------------------

  /** How many writes succeed before the first that fails. */
  function Leading(oks: seq<bool>): (n: nat)
    ensures n <= |oks|
    ensures forall i | 0 <= i < n :: oks[i]
    ensures n < |oks| ==> !oks[n]
  {
    if oks == [] || !oks[0] then 0 else 1 + Leading(oks[1..])
  }

  /** How many of `n` payloads a forced flush writes: chunk after chunk, up to one that fails. */
  function Forced(n: nat, size: nat, oks: seq<bool>): (w: nat)
    requires size > 0
    ensures w <= n
    decreases |oks|
  {
    if n == 0 || oks == [] || !oks[0] then 0
    else Min(size, n) + Forced(n - Min(size, n), size, oks[1..])
  }

  /** An unforced flush writes at most one full chunk. */
  function Unforced(n: nat, size: nat, oks: seq<bool>): nat {
    if n >= size && oks != [] && oks[0] then size else 0
  }

  lemma NextSlice<T>(xs: seq<T>, done: nat, n: nat)
    requires done + n <= |xs|
    ensures xs[..done] + xs[done..][..n] == xs[..done + n] && xs[done..][n..] == xs[done + n..]
  {
  }

  lemma ForcedStep(n: nat, size: nat, oks: seq<bool>, i: nat)
    requires size > 0 && n > 0 && i < |oks|
    ensures Forced(n, size, oks[i..])
         == if oks[i] then Min(size, n) + Forced(n - Min(size, n), size, oks[i + 1..]) else 0
  {
    assert oks[i..][1..] == oks[i + 1..];
  }

  lemma AddChunk(k: nat, size: nat)
    ensures (k + 1) * size == k * size + size
  {
  }

  /** A forced flush writes as many full chunks as it has leading successes, or everything. */
  lemma {:induction false} ForcedIsWholeChunks(n: nat, size: nat, oks: seq<bool>)
    requires size > 0
    ensures Forced(n, size, oks) == Min(n, Leading(oks) * size)
    decreases |oks|
  {
    if n > 0 && oks != [] && oks[0] {
      var k, m := Leading(oks[1..]), n - Min(size, n);
      ForcedIsWholeChunks(m, size, oks[1..]);
      AddChunk(k, size);
      assert k * size >= 0;
    }
  }

  // ---------------------------------------------------------------------------------------
  // All chunks at once
  // ---------------------------------------------------------------------------------------

  function Chunks<T>(xs: seq<T>, size: nat): seq<seq<T>>
    requires size > 0
    decreases |xs|
  {
    if xs == [] then []
    else
      var n := Min(size, |xs|);
      [xs[..n]] + Chunks(xs[n..], size)
  }

  /** The result of one submitted write: `ok` is what the future reports in time, `stored` whether
      its rows are in the table. */
  datatype Write = Write(ok: bool, stored: bool)

  predicate Plausible(w: Write) {
    w.ok ==> w.stored
  }

  function Stored<T>(chunks: seq<seq<T>>, writes: seq<Write>): seq<T>
    requires |chunks| == |writes|
  {
    if chunks == [] then []
    else Stored(chunks[..|chunks| - 1], writes[..|chunks| - 1])
         + (if writes[|chunks| - 1].stored then chunks[|chunks| - 1] else [])
  }

  lemma StoredNext<T>(chunks: seq<seq<T>>, writes: seq<Write>, i: nat)
    requires |chunks| == |writes| && i < |chunks|
    ensures Stored(chunks[..i + 1], writes[..i + 1])
         == Stored(chunks[..i], writes[..i]) + (if writes[i].stored then chunks[i] else [])
    ensures writes[..i + 1] == writes[..i] + [writes[i]]
  {
    assert chunks[..i + 1][..i] == chunks[..i] && writes[..i + 1][..i] == writes[..i];
  }

  function Concat<T>(chunks: seq<seq<T>>): seq<T> {
    if chunks == [] then [] else chunks[0] + Concat(chunks[1..])
  }

  /** The chunks are the buffer, cut: in order, whole, none empty and none too long, and all but the last
      as long as can be. */
  lemma {:induction false} ChunksConcat<T>(xs: seq<T>, size: nat)
    requires size > 0
    ensures Concat(Chunks(xs, size)) == xs
    ensures forall chunk | chunk in Chunks(xs, size) :: 0 < |chunk| <= size
    ensures forall i | 0 <= i < |Chunks(xs, size)| - 1 :: |Chunks(xs, size)[i]| == size
    decreases |xs|
  {
    if xs != [] {
      var n := Min(size, |xs|);
      ChunksConcat(xs[n..], size);
      assert xs[..n] + xs[n..] == xs;
      assert |xs| <= size ==> Chunks(xs[n..], size) == [];
    }
  }

  lemma {:induction false} ConcatSnoc<T>(chunks: seq<seq<T>>, last: seq<T>)
    ensures Concat(chunks + [last]) == Concat(chunks) + last
  {
    if chunks == [] {
      assert [last][1..] == [];
    } else {
      ConcatSnoc(chunks[1..], last);
      assert (chunks + [last])[1..] == chunks[1..] + [last];
    }
  }

  /** Storing every chunk stores the buffer. */
  lemma {:induction false} AllStored<T>(chunks: seq<seq<T>>, writes: seq<Write>)
    requires |chunks| == |writes| && forall w | w in writes :: w.stored
    ensures Stored(chunks, writes) == Concat(chunks)
  {
    if chunks != [] {
      var n := |chunks| - 1;
      AllStored(chunks[..n], writes[..n]);
      ConcatSnoc(chunks[..n], chunks[n]);
      assert chunks == chunks[..n] + [chunks[n]];
    }
  }

  lemma {:induction false} NothingStored<T>(chunks: seq<seq<T>>, writes: seq<Write>)
    requires |chunks| == |writes| && forall chunk | chunk in chunks :: chunk != []
    ensures Stored(chunks, writes) == [] <==> forall w | w in writes :: !w.stored
  {
    if chunks != [] {
      var n := |chunks| - 1;
      assert forall chunk | chunk in chunks[..n] :: chunk in chunks;
      NothingStored(chunks[..n], writes[..n]);
      assert chunks[n] in chunks && writes == writes[..n] + [writes[n]];
    }
  }

  /** A parallel flush that has not been acknowledged is flushed again whole. If the second flush
      succeeds, every payload has been written exactly once if and only if the first flush stored
      nothing; otherwise the chunks it stored are written twice. */
  lemma RetryWritesTwice<T>(xs: seq<T>, size: nat, first: seq<Write>, second: seq<Write>)
    requires size > 0 && |first| == |second| == |Chunks(xs, size)|
    requires forall w | w in second :: w.ok && w.stored
    ensures var written := Stored(Chunks(xs, size), first) + Stored(Chunks(xs, size), second);
            && multiset(written) == multiset(Stored(Chunks(xs, size), first)) + multiset(xs)
            && (multiset(written) == multiset(xs) <==> forall w | w in first :: !w.stored)
  {
    var chunks := Chunks(xs, size);
    ChunksConcat(xs, size);
    AllStored(chunks, second);
    NothingStored(chunks, first);
    var again := Stored(chunks, first);
    assert |multiset(again + xs)| == |again| + |xs|;
  }

  // ---------------------------------------------------------------------------------------
  // The flush
  // ---------------------------------------------------------------------------------------

  class DbBuffer<T> {
    const enabled: bool
    const size: nat
    var payloads: seq<T>
    var written: seq<T>

    /** The loop of `flush_db_writer_buffer`. `oks[i]` says whether the i-th write would succeed. A
        prefix of the buffer moves to the table, whole chunks at a time, and nothing else changes:
        no payload is lost or written twice, whatever fails. */
    method FlushSequential(force: bool, oks: seq<bool>) returns (ok: bool)
      requires size > 0 && |oks| > |payloads|
      modifies this
      ensures var n := if force then Forced(|old(payloads)|, size, oks) else Unforced(|old(payloads)|, size, oks);
              && written == old(written) + old(payloads)[..n]
              && payloads == old(payloads)[n..]
      ensures force ==> (ok <==> payloads == [])
      ensures !force ==> (ok <==> |old(payloads)| < size || oks[0])
    {
      ghost var done := 0;
      var i := 0;
      while payloads != [] && (force || |payloads| >= size)
        invariant done <= |old(payloads)| && i + |payloads| <= |old(payloads)|
        invariant !force ==> i == done == 0
        invariant force ==> done + Forced(|payloads|, size, oks[i..]) == Forced(|old(payloads)|, size, oks)
        invariant payloads == old(payloads)[done..]
        invariant written == old(written) + old(payloads)[..done]
        decreases |payloads|
      {
        var n := Min(size, |payloads|);
        var chunk := payloads[..n];
        ForcedStep(|payloads|, size, oks, i);
        if !oks[i] {
          return false;
        }
        NextSlice(old(payloads), done, n);
        written := written + chunk;
        payloads := payloads[n..];
        done := done + n;
        i := i + 1;
        if !force {
          return true;
        }
      }
      return true;
    }

    /** The executor's branch. The buffer is cleared if and only if every write is acknowledged in
        time; otherwise it stays whole, although some chunks may be in the table. */
    method FlushParallel(chunkSize: nat, writes: seq<Write>) returns (ok: bool)
      requires chunkSize > 0 && |payloads| > chunkSize && |writes| == |Chunks(payloads, chunkSize)|
      requires forall w | w in writes :: Plausible(w)
      modifies this
      ensures written == old(written) + Stored(Chunks(old(payloads), chunkSize), writes)
      ensures ok <==> forall w | w in writes :: w.ok
      ensures payloads == if ok then [] else old(payloads)
      ensures ok ==> written == old(written) + old(payloads)
    {
      var chunks := Chunks(payloads, chunkSize);
      ok := true;
      var i := 0;
      while i < |chunks|
        invariant 0 <= i <= |chunks|
        invariant payloads == old(payloads)
        invariant written == old(written) + Stored(chunks[..i], writes[..i])
        invariant ok <==> forall w | w in writes[..i] :: w.ok
      {
        StoredNext(chunks, writes, i);
        if writes[i].stored {
          written := written + chunks[i];
        }
        ok := ok && writes[i].ok;
        i := i + 1;
      }
      assert chunks[..i] == chunks && writes[..i] == writes;
      if ok {
        AllStored(chunks, writes);
        ChunksConcat(payloads, chunkSize);
        payloads := [];
      }
    }

    /** `flush_db_writer_buffer`: the executor is used only for a forced flush of more than one
        chunk. */
    method Flush(force: bool, executor: bool, chunkSize: nat, oks: seq<bool>, writes: seq<Write>) returns (ok: bool)
      requires size > 0 && chunkSize > 0 && |oks| > |payloads| && |writes| == |Chunks(payloads, chunkSize)|
      requires forall w | w in writes :: Plausible(w)
      modifies this
      ensures !enabled ==> ok && payloads == old(payloads) && written == old(written)
      ensures ok && force && enabled ==> payloads == [] && written == old(written) + old(payloads)
      ensures !ok ==> payloads != []
      ensures enabled && !(executor && force && |old(payloads)| > chunkSize) ==>
        written + payloads == old(written) + old(payloads)
      ensures !force && enabled ==> |written| == |old(written)| + if |old(payloads)| >= size && oks[0] then size else 0
      ensures !force && enabled ==> (ok <==> |old(payloads)| < size || oks[0])
      ensures enabled && force && !(executor && |old(payloads)| > chunkSize) ==>
        |written| == |old(written)| + Min(|old(payloads)|, Leading(oks) * size)
    {
      if !enabled || payloads == [] {
        return true;
      }
      if executor && force && |payloads| > chunkSize {
        ok := FlushParallel(chunkSize, writes);
        return;
      }
      ForcedIsWholeChunks(|payloads|, size, oks);
      ok := FlushSequential(force, oks);
    }
  }
}
