/** Dividing a sequence by a flag for every element. */
module Sequences {
  function Pick<T>(xs: seq<T>, flags: seq<bool>, want: bool): seq<T>
    requires |xs| == |flags|
  {
    if xs == [] then []
    else
      var n := |xs| - 1;
      Pick(xs[..n], flags[..n], want) + (if flags[n] == want then [xs[n]] else [])
  }

  ghost predicate IsSubsequence<T>(xs: seq<T>, ys: seq<T>) {
    xs == [] || (ys != [] &&
      (IsSubsequence(xs, ys[..|ys| - 1])
       || (xs[|xs| - 1] == ys[|ys| - 1] && IsSubsequence(xs[..|xs| - 1], ys[..|ys| - 1]))))
  }

  /** The flags split a sequence in two. */
  lemma {:induction false} PickSplits<T>(xs: seq<T>, flags: seq<bool>)
    requires |xs| == |flags|
    ensures multiset(Pick(xs, flags, false)) + multiset(Pick(xs, flags, true)) == multiset(xs)
  {
    if xs != [] {
      var n := |xs| - 1;
      PickSplits(xs[..n], flags[..n]);
      PickedCounts(xs, flags, flags[n]);
      PickedCounts(xs, flags, !flags[n]);
      Unsnoc(xs);
    }
  }

  /** What the last element adds to one part. */
  lemma PickedCounts<T>(xs: seq<T>, flags: seq<bool>, want: bool)
    requires |xs| == |flags| > 0
    ensures var n := |xs| - 1;
            var before, last := Pick(xs[..n], flags[..n], want), if flags[n] == want then multiset{xs[n]}
                else multiset{};
            multiset(Pick(xs, flags, want)) == multiset(before) + last
  {
    var n := |xs| - 1;
    var rest := Pick(xs[..n], flags[..n], want);
    assert Pick(xs, flags, want) == rest + (if flags[n] == want then [xs[n]] else []);
    assert rest + [] == rest;
  }

  /** Each part is in the order of the whole. */
  lemma {:induction false} PickKeepsOrder<T>(xs: seq<T>, flags: seq<bool>, want: bool)
    requires |xs| == |flags|
    ensures IsSubsequence(Pick(xs, flags, want), xs)
  {
    if xs != [] {
      var n := |xs| - 1;
      var rest := Pick(xs[..n], flags[..n], want);
      PickKeepsOrder(xs[..n], flags[..n], want);
      if flags[n] == want {
        assert (rest + [xs[n]])[..|rest|] == rest;
      } else {
        assert rest + [] == rest;
      }
    }
  }

  lemma {:induction false} PickMember<T>(xs: seq<T>, flags: seq<bool>, want: bool, x: T)
    requires |xs| == |flags|
    ensures x in Pick(xs, flags, want) <==> exists i :: 0 <= i < |xs| && flags[i] == want && xs[i] == x
  {
    if xs != [] {
      PickMember(xs[..|xs| - 1], flags[..|xs| - 1], want, x);
    }
  }

  /** The positions of a flag, in order. */
  function Positions(flags: seq<bool>, want: bool): seq<nat> {
    if flags == [] then []
    else
      var n := |flags| - 1;
      Positions(flags[..n], want) + (if flags[n] == want then [n] else [])
  }

  predicate Ascends(at: seq<nat>) {
    forall a, b | 0 <= a < b < |at| :: at[a] < at[b]
  }

  /** `at` lists the positions of a set, each once and in order. */
  ghost predicate Lists(at: seq<nat>, positions: set<nat>) {
    && Ascends(at)
    && (forall i: nat :: i in at <==> i in positions)
  }

  lemma {:induction false} PositionsMember(flags: seq<bool>, want: bool, i: nat)
    ensures i in Positions(flags, want) <==> i < |flags| && flags[i] == want
  {
    if flags != [] {
      PositionsMember(flags[..|flags| - 1], want, i);
    }
  }

  lemma AscendsSnoc(at: seq<nat>, n: nat)
    requires Ascends(at) && forall a | 0 <= a < |at| :: at[a] < n
    ensures Ascends(at + [n])
  {
  }

  lemma {:induction false} PositionsAscend(flags: seq<bool>, want: bool)
    ensures Ascends(Positions(flags, want))
  {
    if flags != [] {
      var n := |flags| - 1;
      var before := Positions(flags[..n], want);
      PositionsAscend(flags[..n], want);
      if flags[n] == want {
        forall a | 0 <= a < |before| ensures before[a] < n {
          assert before[a] in before;
          PositionsMember(flags[..n], want, before[a]);
        }
        AscendsSnoc(before, n);
      } else {
        assert before + [] == before;
      }
    }
  }

  lemma PositionsList(flags: seq<bool>, want: bool)
    ensures Lists(Positions(flags, want), set i: nat | i < |flags| && flags[i] == want)
  {
    var at, positions := Positions(flags, want), set i: nat | i < |flags| && flags[i] == want;
    PositionsAscend(flags, want);
    forall i: nat ensures i in at <==> i in positions {
      PositionsMember(flags, want, i);
    }
  }

  /** What is picked is, one after the other, what stands at the positions of the flag. */
  lemma {:induction false} PickAt<T>(xs: seq<T>, flags: seq<bool>, want: bool)
    requires |xs| == |flags|
    ensures var picked, at := Pick(xs, flags, want), Positions(flags, want);
            |picked| == |at| && forall j | 0 <= j < |at| :: at[j] < |xs| && picked[j] == xs[at[j]]
  {
    if xs != [] {
      PickAt(xs[..|xs| - 1], flags[..|xs| - 1], want);
    }
  }

  lemma TailConcat<T>(a: seq<T>, b: seq<T>)
    requires a != []
    ensures (a + b)[0] == a[0] && (a + b)[1..] == a[1..] + b
  {
  }

  lemma Unsnoc<T>(xs: seq<T>)
    requires xs != []
    ensures xs == xs[..|xs| - 1] + [xs[|xs| - 1]] && multiset(xs) == multiset(xs[..|xs| - 1]) + multiset{xs[|xs| - 1]}
  {
    var n := |xs| - 1;
    assert xs == xs[..n] + [xs[n]];
  }

  lemma TakeSnoc<T>(xs: seq<T>, n: nat)
    requires n < |xs|
    ensures xs[..n + 1] == xs[..n] + [xs[n]]
  {
  }

  lemma PickSnoc<T>(xs: seq<T>, flags: seq<bool>, x: T, flag: bool, want: bool)
    requires |xs| == |flags|
    ensures Pick(xs + [x], flags + [flag], want) == Pick(xs, flags, want) + (if flag == want then [x] else [])
  {
    assert (xs + [x])[..|xs|] == xs && (flags + [flag])[..|xs|] == flags;
  }
}
