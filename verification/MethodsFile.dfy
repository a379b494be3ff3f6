/** The schema watcher's data file: the known methods by level, and a log of the last additions. */
module MethodsFile {

  type Buckets = map<string, set<string>>

  /** The methods that one update added, by level. */
  datatype Entry = Entry(time: string, added: Buckets)

  datatype File = File(buckets: Buckets, log: seq<Entry>, updated: string)

  const LEVELS: seq<string> := ["CRITICAL", "HIGH", "MEDIUM", "LOW"]
  const LOG_BOUND: nat := 100

  /** `dict.get(level, [])`. */
  function At(b: Buckets, level: string): set<string> {
    if level in b then b[level] else {}
  }

  function Supplied(news: map<string, seq<string>>, level: string): set<string> {
    if level in news then set m | m in news[level] else {}
  }

  // ---------------------------------------------------------------------------------------
  // One update
  // ---------------------------------------------------------------------------------------

  /** What is new at the given levels. */
  function AddedAt(b: Buckets, news: map<string, seq<string>>, levels: seq<string>): Buckets {
    map level | level in levels && Supplied(news, level) - At(b, level) != {} :: Supplied(news, level) - At(b, level)
  }

  function Added(b: Buckets, news: map<string, seq<string>>): Buckets {
    AddedAt(b, news, LEVELS)
  }

  /** What an entry does to the buckets. */
  function Play(b: Buckets, added: Buckets): Buckets {
    map level | level in b.Keys + added.Keys :: At(b, level) + At(added, level)
  }

  /** `audit_trail[-100:]`. */
  function Last(log: seq<Entry>): (r: seq<Entry>)
    ensures |r| <= LOG_BOUND && |r| <= |log| && r == log[|log| - |r|..]
    ensures |log| <= LOG_BOUND ==> r == log
    ensures |log| > LOG_BOUND ==> |r| == LOG_BOUND
  {
    if |log| <= LOG_BOUND then log else log[|log| - LOG_BOUND..]
  }

  function Merge(f: File, news: map<string, seq<string>>, now: string): File {
    var added := Added(f.buckets, news);
    File(Play(f.buckets, added), if added == map[] then f.log else Last(f.log + [Entry(now, added)]), now)
  }

  datatype Outcome = Updated | Unchanged | Raised

  /** One call of `update_methods_data_file` and the world around it: `saved` says whether the file
      could be read and replaced. */
  datatype Call = Call(news: map<string, seq<string>>, dryRun: bool, python: bool, saved: bool, now: string)

  predicate Nothing(news: map<string, seq<string>>) {
    forall level | level in news :: news[level] == []
  }

  predicate IsLevel(level: string) {
    level == "CRITICAL" || level == "HIGH" || level == "MEDIUM" || level == "LOW"
  }

  /** The call brings a method, for whatever level. */
  predicate BringsSomething(c: Call) {
    exists level :: level in c.news && c.news[level] != []
  }

  /** The call is to change the file and can: it is no dry run, it brings a method, its target is a data
      file, and the file can be replaced. */
  predicate TakesEffect(c: Call) {
    !c.dryRun && BringsSomething(c) && !c.python && c.saved
  }

  function OutcomeOf(c: Call): Outcome {
    if c.dryRun || Nothing(c.news) then Unchanged
    else if c.python || !c.saved then Raised
    else Updated
  }

  function Apply(f: File, c: Call): File {
    if OutcomeOf(c).Updated? then Merge(f, c.news, c.now) else f
  }

  function ApplyAll(f: File, calls: seq<Call>): File {
    if calls == [] then f else Apply(ApplyAll(f, calls[..|calls| - 1]), calls[|calls| - 1])
  }

  class DataFile {
    var file: File

    /** The merge of the four levels, one after the other. */
    method MergeLevels(news: map<string, seq<string>>, now: string) returns (merged: File)
      ensures merged == Merge(file, news, now)
    {
      var buckets, summary: Buckets := file.buckets, map[];
      PlayNothing(file.buckets);
      var i := 0;
      while i < |LEVELS|
        invariant 0 <= i <= |LEVELS|
        invariant summary == AddedAt(file.buckets, news, LEVELS[..i])
        invariant buckets == Play(file.buckets, summary)
      {
        var level := LEVELS[i];
        LevelsDiffer(i);
        OneLevel(file.buckets, news, LEVELS[..i], level);
        var methods := if level in news then news[level] else [];
        if methods != [] {
          assert Supplied(news, level) == set m | m in methods;
          assert methods[0] in Supplied(news, level);
          var bucket := At(buckets, level);
          var unseen := (set m | m in methods) - bucket;
          buckets := buckets[level := bucket + set m | m in methods];
          if unseen != {} {
            summary := summary[level := unseen];
          }
        }
        i := i + 1;
      }
      assert LEVELS[..i] == LEVELS;
      merged := File(buckets, if summary == map[] then file.log else Last(file.log + [Entry(now, summary)]), now);
    }

    /** `update_methods_data_file`. A failed write leaves the old file in place. */
    method Update(c: Call) returns (r: Outcome)
      modifies this
      ensures r == OutcomeOf(c) && file == Apply(old(file), c)
      ensures r.Updated? <==> TakesEffect(c)
      ensures r.Raised? <==> !c.dryRun && BringsSomething(c) && (c.python || !c.saved)
      ensures !r.Updated? ==> file == old(file)
      ensures r.Updated? ==> file.updated == c.now && Accumulates(old(file), c, file) && LogsNews(old(file), c, file)
    {
      OutcomeExactly(c);
      if TakesEffect(c) {
        EffectExactly(file, c);
      }
      if c.dryRun {
        return Unchanged;
      }
      if forall level | level in c.news :: c.news[level] == [] {
        return Unchanged;
      }
      if c.python {
        return Raised;
      }
      var merged := MergeLevels(c.news, c.now);
      if !c.saved {
        return Raised;
      }
      file := merged;
      return Updated;
    }
  }

  /** The buckets have what they had, and at the four levels what the call supplies. */
  ghost predicate Accumulates(before: File, c: Call, after: File) {
    forall level, m :: m in At(after.buckets, level) <==>
      m in At(before.buckets, level) || (IsLevel(level) && level in c.news && m in c.news[level])
  }

  /** The method is supplied for one of the four levels, where it was not known. */
  ghost predicate IsNews(before: File, c: Call, level: string, m: string) {
    IsLevel(level) && level in c.news && m in c.news[level] && m !in At(before.buckets, level)
  }

  /** The log ends with the news of the call, with its time, and before that has the youngest of its old
      entries; without news it is as it was. */
  ghost predicate LogsNews(before: File, c: Call, after: File) {
    if exists level, m :: IsNews(before, c, level, m)
    then
      && 0 < |after.log| <= 100 && |after.log| <= |before.log| + 1
      && (|after.log| == 100 || |after.log| == |before.log| + 1)
      && after.log[..|after.log| - 1] == before.log[|before.log| + 1 - |after.log|..]
      && after.log[|after.log| - 1].time == c.now
      && (forall level, m :: m in At(after.log[|after.log| - 1].added, level) <==> IsNews(before, c, level, m))
    else after.log == before.log
  }

  lemma OutcomeExactly(c: Call)
    ensures OutcomeOf(c).Updated? <==> TakesEffect(c)
    ensures OutcomeOf(c).Raised? <==> !c.dryRun && BringsSomething(c) && (c.python || !c.saved)
  {
  }

  lemma LevelsAre(level: string)
    ensures level in LEVELS <==> IsLevel(level)
  {
    assert LEVELS[0] == "CRITICAL" && LEVELS[1] == "HIGH" && LEVELS[2] == "MEDIUM" && LEVELS[3] == "LOW";
  }

  lemma AddedIsNews(f: File, c: Call, level: string, m: string)
    ensures m in At(Added(f.buckets, c.news), level) <==> IsNews(f, c, level, m)
  {
    LevelsAre(level);
    AddedMeans(f.buckets, c.news, level, m);
  }

  lemma LastMeans(log: seq<Entry>, e: Entry)
    ensures var r := Last(log + [e]);
            && 0 < |r| <= 100 && |r| <= |log| + 1 && (|r| == 100 || |r| == |log| + 1)
            && r[|r| - 1] == e && r[..|r| - 1] == log[|log| + 1 - |r|..]
  {
    LastIsYoungest(log, e);
    var all := log + [e];
    var r := Last(all);
    assert r == all[|all| - |r|..];
    assert all[|all| - |r|..][..|r| - 1] == log[|all| - |r|..];
  }

  lemma NewsMeans(f: File, c: Call)
    ensures (exists level, m :: IsNews(f, c, level, m)) <==> Added(f.buckets, c.news) != map[]
  {
    var added := Added(f.buckets, c.news);
    if level, m :| IsNews(f, c, level, m) {
      AddedIsNews(f, c, level, m);
    }
    if added != map[] {
      var level :| level in added;
      var m :| m in added[level];
      AddedIsNews(f, c, level, m);
    }
  }

  lemma EffectOnBuckets(f: File, c: Call)
    requires TakesEffect(c)
    ensures Accumulates(f, c, Apply(f, c))
  {
    var g := Apply(f, c);
    OutcomeExactly(c);
    forall level, m ensures m in At(g.buckets, level) <==>
      m in At(f.buckets, level) || (IsLevel(level) && level in c.news && m in c.news[level])
    {
      AddedIsNews(f, c, level, m);
    }
  }

  /** The log after the news have been added. */
  lemma NewsInLog(f: File, c: Call, log: seq<Entry>)
    requires log == Last(f.log + [Entry(c.now, Added(f.buckets, c.news))])
    ensures 0 < |log| && forall level, m :: m in At(log[|log| - 1].added, level) <==> IsNews(f, c, level, m)
  {
    LastMeans(f.log, Entry(c.now, Added(f.buckets, c.news)));
    forall level, m ensures m in At(log[|log| - 1].added, level) <==> IsNews(f, c, level, m) {
      AddedIsNews(f, c, level, m);
    }
  }

  lemma LogAfter(f: File, c: Call)
    requires TakesEffect(c)
    ensures Apply(f, c).updated == c.now
    ensures Apply(f, c).log == if Added(f.buckets, c.news) == map[] then f.log
                               else Last(f.log + [Entry(c.now, Added(f.buckets, c.news))])
  {
    OutcomeExactly(c);
  }

  lemma EffectOnLog(f: File, c: Call)
    requires TakesEffect(c)
    ensures LogsNews(f, c, Apply(f, c))
  {
    var g, added := Apply(f, c), Added(f.buckets, c.news);
    LogAfter(f, c);
    NewsMeans(f, c);
    if added != map[] {
      LastMeans(f.log, Entry(c.now, added));
      NewsInLog(f, c, g.log);
    }
  }

  lemma EffectExactly(f: File, c: Call)
    requires TakesEffect(c)
    ensures var g := Apply(f, c); g.updated == c.now && Accumulates(f, c, g) && LogsNews(f, c, g)
  {
    LogAfter(f, c);
    EffectOnBuckets(f, c);
    EffectOnLog(f, c);
  }

  lemma LevelsDiffer(i: nat)
    requires i < |LEVELS|
    ensures LEVELS[i] !in LEVELS[..i] && LEVELS[..i + 1] == LEVELS[..i] + [LEVELS[i]]
  {
  }

  lemma PlayNothing(b: Buckets)
    ensures Play(b, map[]) == b
  {
    forall level | level in b ensures Play(b, map[])[level] == b[level] {
      assert b[level] + {} == b[level];
    }
  }

  lemma PlayOne(b: Buckets, s: Buckets, level: string, unseen: set<string>)
    requires level !in s
    ensures At(Play(b, s), level) == At(b, level)
    ensures Play(b, s[level := unseen]) == Play(b, s)[level := At(b, level) + unseen]
  {
    assert At(b, level) + {} == At(b, level);
    var x, y := Play(b, s[level := unseen]), Play(b, s)[level := At(b, level) + unseen];
    assert x.Keys == y.Keys;
  }

  lemma PlaySame(b: Buckets, s: Buckets, level: string)
    requires level !in s && level in b
    ensures Play(b, s)[level := b[level]] == Play(b, s)
  {
    assert b[level] + {} == b[level];
  }

  lemma AddedSnoc(b: Buckets, news: map<string, seq<string>>, levels: seq<string>, level: string)
    requires level !in levels
    ensures var s, unseen := AddedAt(b, news, levels), Supplied(news, level) - At(b, level);
            level !in s && AddedAt(b, news, levels + [level]) == if unseen == {} then s else s[level := unseen]
  {
    var s, unseen := AddedAt(b, news, levels), Supplied(news, level) - At(b, level);
    var x, y := AddedAt(b, news, levels + [level]), if unseen == {} then s else s[level := unseen];
    assert forall l :: l in x <==> l in y;
  }

  /** What one more level adds: nothing if it brings no method that is not known, and then its bucket
      stays as it is. */
  lemma OneLevel(b: Buckets, news: map<string, seq<string>>, levels: seq<string>, level: string)
    requires level !in levels
    ensures var s, s' := AddedAt(b, news, levels), AddedAt(b, news, levels + [level]);
            var unseen := Supplied(news, level) - At(b, level);
            && At(Play(b, s), level) == At(b, level)
            && s' == (if unseen == {} then s else s[level := unseen])
            && (Supplied(news, level) != {} ==>
                Play(b, s') == Play(b, s)[level := At(b, level) + Supplied(news, level)])
  {
    var s, unseen := AddedAt(b, news, levels), Supplied(news, level) - At(b, level);
    AddedSnoc(b, news, levels, level);
    PlayOne(b, s, level, unseen);
    assert At(b, level) + unseen == At(b, level) + Supplied(news, level);
    if unseen == {} && Supplied(news, level) != {} {
      PlaySame(b, s, level);
    }
  }

  // ---------------------------------------------------------------------------------------
  // Over any sequence of updates
  // ---------------------------------------------------------------------------------------

  /** The method has been supplied for the level by a call that took effect. */
  ghost predicate WasSupplied(calls: seq<Call>, level: string, m: string) {
    exists c :: c in calls && TakesEffect(c) && level in c.news && m in c.news[level]
  }

  lemma ApplyAdds(f: File, c: Call, level: string, m: string)
    requires IsLevel(level)
    ensures m in At(Apply(f, c).buckets, level) <==>
      m in At(f.buckets, level) || (TakesEffect(c) && level in c.news && m in c.news[level])
  {
    OutcomeExactly(c);
    LevelsAre(level);
  }

  /** A bucket holds what it held at the start and everything supplied since, whatever calls were
      dry runs or failed; a bucket of an unknown name never changes. */
  lemma {:induction false} BucketsAccumulate(f: File, calls: seq<Call>, level: string, m: string)
    ensures IsLevel(level) ==>
      (m in At(ApplyAll(f, calls).buckets, level) <==> m in At(f.buckets, level) || WasSupplied(calls, level, m))
    ensures !IsLevel(level) ==> At(ApplyAll(f, calls).buckets, level) == At(f.buckets, level)
  {
    LevelsAre(level);
    if calls != [] {
      var n := |calls| - 1;
      BucketsAccumulate(f, calls[..n], level, m);
      if IsLevel(level) {
        ApplyAdds(ApplyAll(f, calls[..n]), calls[n], level, m);
        assert forall c :: c in calls <==> c in calls[..n] || c == calls[n];
      }
    }
  }

  function PlayAll(b: Buckets, log: seq<Entry>): Buckets {
    if log == [] then b else Play(PlayAll(b, log[..|log| - 1]), log[|log| - 1].added)
  }

  /** How many entries the calls add to the log. */
  function Additions(f: File, calls: seq<Call>): nat {
    if calls == [] then 0
    else
      var before := ApplyAll(f, calls[..|calls| - 1]);
      var c := calls[|calls| - 1];
      Additions(f, calls[..|calls| - 1])
      + (if OutcomeOf(c).Updated? && Added(before.buckets, c.news) != map[] then 1 else 0)
  }

  /** The youngest `k` entries. */
  function Tail(log: seq<Entry>, k: nat): seq<Entry>
    requires k <= |log|
  {
    log[|log| - k..]
  }

  lemma TailSnoc(log: seq<Entry>, k: nat, e: Entry)
    requires k <= |log| && k < LOG_BOUND
    ensures k + 1 <= |Last(log + [e])| && Tail(Last(log + [e]), k + 1) == Tail(log, k) + [e]
  {
    var all := log + [e];
    SliceSnoc(log, |log| - k, e);
    if |all| > LOG_BOUND {
      assert Last(all) == all[|all| - LOG_BOUND..];
      SliceSlice(all, |all| - LOG_BOUND, LOG_BOUND - k - 1);
    } else {
      assert Last(all) == all;
    }
  }

  lemma SliceSnoc<T>(xs: seq<T>, i: nat, x: T)
    requires i <= |xs|
    ensures (xs + [x])[i..] == xs[i..] + [x]
  {
  }

  lemma SliceSlice<T>(xs: seq<T>, a: nat, b: nat)
    requires a + b <= |xs|
    ensures xs[a..][b..] == xs[a + b..]
  {
  }

  lemma PlaySnoc(b: Buckets, log: seq<Entry>, e: Entry)
    ensures PlayAll(b, log + [e]) == Play(PlayAll(b, log), e.added)
  {
    assert (log + [e])[..|log|] == log;
  }

  /** A call that adds something leaves one entry, and what the entry says is all it does. */
  lemma CallEffect(f: File, c: Call)
    ensures var g, added := Apply(f, c), Added(f.buckets, c.news);
            if OutcomeOf(c).Updated? && added != map[]
            then g.buckets == Play(f.buckets, added) && g.log == Last(f.log + [Entry(c.now, added)])
            else g.buckets == f.buckets && g.log == f.log
  {
    PlayNothing(f.buckets);
  }

  lemma ReplayStep(b: Buckets, f: File, c: Call, k: nat)
    requires k < LOG_BOUND && k <= |f.log| && PlayAll(b, Tail(f.log, k)) == f.buckets
    requires OutcomeOf(c).Updated? && Added(f.buckets, c.news) != map[]
    ensures var g := Apply(f, c); k + 1 <= |g.log| && PlayAll(b, Tail(g.log, k + 1)) == g.buckets
  {
    var e := Entry(c.now, Added(f.buckets, c.news));
    CallEffect(f, c);
    TailSnoc(f.log, k, e);
    PlaySnoc(b, Tail(f.log, k), e);
  }

  /** The end of the log replays. While the calls have added no more entries than the log keeps, the
      entries they added, played on the buckets from before the oldest of them, give the buckets of
      now. */
  lemma {:induction false} LogReplays(f: File, calls: seq<Call>)
    requires Additions(f, calls) <= LOG_BOUND
    ensures var k, g := Additions(f, calls), ApplyAll(f, calls);
            k <= |g.log| && PlayAll(f.buckets, Tail(g.log, k)) == g.buckets
  {
    if calls != [] {
      var n := |calls| - 1;
      var before, c := ApplyAll(f, calls[..n]), calls[n];
      LogReplays(f, calls[..n]);
      if OutcomeOf(c).Updated? && Added(before.buckets, c.news) != map[] {
        ReplayStep(f.buckets, before, c, Additions(f, calls[..n]));
      } else {
        CallEffect(before, c);
      }
    }
  }

  /** From any moment of the file's life on: if the log kept everything that was added since, it
      replays from the buckets of that moment to those of now. */
  lemma ReplaysFromAnyMoment(f: File, calls: seq<Call>, j: nat)
    requires j <= |calls| && Additions(ApplyAll(f, calls[..j]), calls[j..]) <= LOG_BOUND
    ensures var start, end := ApplyAll(f, calls[..j]), ApplyAll(f, calls);
            var k := Additions(start, calls[j..]);
            k <= |end.log| && PlayAll(start.buckets, Tail(end.log, k)) == end.buckets
  {
    ApplyConcat(f, calls[..j], calls[j..]);
    assert calls[..j] + calls[j..] == calls;
    LogReplays(ApplyAll(f, calls[..j]), calls[j..]);
  }

  lemma {:induction false} ApplyConcat(f: File, a: seq<Call>, b: seq<Call>)
    ensures ApplyAll(f, a + b) == ApplyAll(ApplyAll(f, a), b)
  {
    if b == [] {
      assert a + b == a;
    } else {
      ApplyConcat(f, a, b[..|b| - 1]);
      assert (a + b)[..|a + b| - 1] == a + b[..|b| - 1];
    }
  }

  /** The log holds at most a hundred entries, unless it had more at the start and nothing has been
      added since. */
  lemma {:induction false} LogIsBounded(f: File, calls: seq<Call>)
    ensures |ApplyAll(f, calls).log| <= 100 || ApplyAll(f, calls).log == f.log
  {
    if calls != [] {
      LogIsBounded(f, calls[..|calls| - 1]);
    }
  }

  lemma AddedMeans(b: Buckets, news: map<string, seq<string>>, level: string, m: string)
    ensures m in At(Added(b, news), level) <==> level in LEVELS && m in Supplied(news, level) && m !in At(b, level)
  {
  }

  lemma LastIsYoungest(log: seq<Entry>, e: Entry)
    ensures var r := Last(log + [e]); r != [] && r[|r| - 1] == e
  {
    var all := log + [e];
    var r := Last(all);
    assert r[|r| - 1] == all[|all| - |r|..][|r| - 1];
  }

  /** An entry holds exactly the methods that its call supplied and that were not known before. */
  lemma EntriesAreNews(f: File, c: Call, level: string, m: string)
    requires TakesEffect(c) && exists l, x :: IsNews(f, c, l, x)
    ensures var log := Apply(f, c).log;
            && log != [] && log[|log| - 1].time == c.now
            && (m in At(log[|log| - 1].added, level) <==>
                  IsLevel(level) && level in c.news && m in c.news[level] && m !in At(f.buckets, level))
  {
    EffectExactly(f, c);
  }
}
