/** The event table's run-grouping: adjacent events with the same key are shown as one group, as long
    as they lie within an hour of the group's first event. */
module Grouping {

  const GROUP_WINDOW_MS: int := 60 * 60 * 1000

  /** `ts` is the parsed timestamp in milliseconds; None stands for NaN. */
  datatype Timestamp = None | Some(ms: int)

  datatype Event = Event(key: string, ts: Timestamp)

  datatype Group = Group(key: string, firstTs: int, events: seq<Event>)

  /** The time that stands for a group's first event; `now[i]` is the clock when the loop is at event
      i, and is used when the event has no valid timestamp. */
  function HeadTs(events: seq<Event>, now: seq<int>, h: nat): (ms: int)
    requires |now| == |events| && h < |events|
    ensures events[h].ts == Some(ms) || (events[h].ts.None? && ms == now[h])
  {
    if events[h].ts.Some? then events[h].ts.ms else now[h]
  }

  /** Event j may stand in a group whose first event is h. */
  predicate Joins(events: seq<Event>, now: seq<int>, h: nat, j: nat)
    requires |now| == |events| && h < |events| && j < |events|
  {
    && events[j].key == events[h].key
    && events[j].ts.Some?
    && HeadTs(events, now, h) - events[j].ts.ms <= GROUP_WINDOW_MS
  }

  /** Events h up to e may form one group. */
  predicate IsRun(events: seq<Event>, now: seq<int>, h: nat, e: nat)
    requires |now| == |events|
  {
    h < e <= |events| && forall j | h < j < e :: Joins(events, now, h, j)
  }

  /** The first event that does not join, looking from j on. */
  function EndFrom(events: seq<Event>, now: seq<int>, h: nat, j: nat): (e: nat)
    requires |now| == |events| && h < j <= |events|
    ensures j <= e <= |events|
    ensures forall i | j <= i < e :: Joins(events, now, h, i)
    ensures e < |events| ==> !Joins(events, now, h, e)
    decreases |events| - j
  {
    if j < |events| && Joins(events, now, h, j) then EndFrom(events, now, h, j + 1) else j
  }

  /** The groups from event h on. */
  function Groups(events: seq<Event>, now: seq<int>, h: nat): seq<Group>
    requires |now| == |events| && h <= |events|
    decreases |events| - h
  {
    if h == |events| then []
    else
      var e := EndFrom(events, now, h, h + 1);
      [Group(events[h].key, HeadTs(events, now, h), events[h..e])] + Groups(events, now, e)
  }

  // ---------------------------------------------------------------------------------------
  // What the groups are
  // ---------------------------------------------------------------------------------------

  function Flatten(groups: seq<Group>): seq<Event> {
    if groups == [] then [] else groups[0].events + Flatten(groups[1..])
  }

  /** Every group has events, all with its key, the later ones with a valid timestamp within an hour
      of its first. */
  predicate IsGroup(g: Group) {
    && g.events != []
    && (forall ev | ev in g.events :: ev.key == g.key)
    && (g.events[0].ts.Some? ==> g.firstTs == g.events[0].ts.ms)
    && (forall j | 1 <= j < |g.events| :: g.events[j].ts.Some? && g.firstTs - g.events[j].ts.ms <= 3600000)
  }

  /** The first event of a group could not have joined the group before it. */
  predicate Separate(g: Group, next: Group)
  {
    next.events != [] &&
      var ev := next.events[0];
      ev.key != g.key || ev.ts.None? || g.firstTs - ev.ts.ms > 3600000
  }

  lemma GroupsHead(events: seq<Event>, now: seq<int>, h: nat)
    requires |now| == |events| && h < |events|
    ensures IsGroup(Groups(events, now, h)[0])
  {
    var e := EndFrom(events, now, h, h + 1);
    var g := Groups(events, now, h)[0];
    assert forall j | 0 <= j < |g.events| :: g.events[j] == events[h + j] && (j > 0 ==> Joins(events, now, h, h + j));
  }

  /** No group could have gone on. */
  predicate Maximal(gs: seq<Group>)
  {
    |gs| <= 1 || (Separate(gs[0], gs[1]) && Maximal(gs[1..]))
  }

  /** The groups concatenate to the input in its order, each is a group, and each is as long as it
      can be. */
  lemma {:induction false} GroupsCorrect(events: seq<Event>, now: seq<int>, h: nat)
    requires |now| == |events| && h <= |events|
    ensures var gs := Groups(events, now, h);
            Flatten(gs) == events[h..] && (forall g | g in gs :: IsGroup(g)) && Maximal(gs)
    decreases |events| - h
  {
    if h < |events| {
      var e := EndFrom(events, now, h, h + 1);
      var gs, rest := Groups(events, now, h), Groups(events, now, e);
      GroupsCorrect(events, now, e);
      GroupsHead(events, now, h);
      assert gs[1..] == rest && events[h..] == events[h..e] + events[e..];
      if e < |events| {
        assert rest[0].events[0] == events[e];
      }
    }
  }

  // ---------------------------------------------------------------------------------------
  // No grouping has fewer groups
  // ---------------------------------------------------------------------------------------

  /** `cuts` divides the events from f on into runs that could each be a group. */
  predicate IsPartition(events: seq<Event>, now: seq<int>, f: nat, cuts: seq<nat>)
    requires |now| == |events|
    decreases |cuts|
  {
    if cuts == [] then f == |events|
    else IsRun(events, now, f, cuts[0]) && IsPartition(events, now, cuts[0], cuts[1..])
  }

  /** The events from f up to e have valid timestamps, and those with the key of e are later than e:
      what is known of the rest of a group whose end is e. */
  ghost predicate Trails(events: seq<Event>, f: nat, e: nat)
    requires f <= e <= |events|
  {
    forall g | f <= g < e ::
      && events[g].ts.Some?
      && (e < |events| && events[e].ts.Some? && events[e].key == events[g].key ==> events[g].ts.ms > events[e].ts.ms)
  }

  /** What has joined a group lies later than the event that ends it. */
  lemma JoinedTrails(events: seq<Event>, now: seq<int>, h: nat, p: nat)
    requires |now| == |events| && h < |events| && h < p <= EndFrom(events, now, h, h + 1)
    ensures Trails(events, p, EndFrom(events, now, h, h + 1))
  {
    var e := EndFrom(events, now, h, h + 1);
    forall g | p <= g < e
      ensures events[g].ts.Some?
      ensures e < |events| && events[e].ts.Some? && events[e].key == events[g].key ==> events[g].ts.ms > events[e].ts.ms
    {
      assert Joins(events, now, h, g);
    }
  }

  /** A run that starts at or before e and goes past it can be entered at e. */
  lemma RunEntersLater(events: seq<Event>, now: seq<int>, f: nat, e: nat, p: nat)
    requires |now| == |events| && f <= e < p && IsRun(events, now, f, p) && Trails(events, f, e)
    ensures p <= EndFrom(events, now, e, e + 1)
  {
    if f < e {
      assert Joins(events, now, f, e);
    }
    forall j | e < j < p ensures Joins(events, now, e, j) {
      assert Joins(events, now, f, j);
    }
  }

  /** The greedy grouping stays ahead of every other division into runs. */
  lemma {:induction false} GreedyStaysAhead(events: seq<Event>, now: seq<int>, f: nat, cuts: seq<nat>, e: nat)
    requires |now| == |events| && f <= e <= |events|
    requires IsPartition(events, now, f, cuts) && Trails(events, f, e)
    ensures |Groups(events, now, e)| <= |cuts|
    decreases |cuts|
  {
    if e < |events| {
      var p := cuts[0];
      if p <= e {
        GreedyStaysAhead(events, now, p, cuts[1..], e);
      } else {
        RunEntersLater(events, now, f, e, p);
        JoinedTrails(events, now, e, p);
        GreedyStaysAhead(events, now, p, cuts[1..], EndFrom(events, now, e, e + 1));
      }
    }
  }

  /** For all events, in any order and with any invalid timestamps among them: no division into
      consecutive runs that share a key and stay within an hour of their first event has fewer
      groups. */
  lemma GreedyIsOptimal(events: seq<Event>, now: seq<int>, cuts: seq<nat>)
    requires |now| == |events| && IsPartition(events, now, 0, cuts)
    ensures |Groups(events, now, 0)| <= |cuts|
  {
    GreedyStaysAhead(events, now, 0, cuts, 0);
  }

  /** The greedy grouping is such a division itself. */
  lemma {:induction false} GreedyIsPartition(events: seq<Event>, now: seq<int>, h: nat) returns (cuts: seq<nat>)
    requires |now| == |events| && h <= |events|
    ensures IsPartition(events, now, h, cuts) && |cuts| == |Groups(events, now, h)|
    decreases |events| - h
  {
    if h == |events| {
      cuts := [];
    } else {
      var e := EndFrom(events, now, h, h + 1);
      var rest := GreedyIsPartition(events, now, e);
      cuts := [e] + rest;
      assert cuts[1..] == rest;
    }
  }

  // ---------------------------------------------------------------------------------------
  // The group ids
  // ---------------------------------------------------------------------------------------

  predicate SameId(g: Group, other: Group) {
    g.key == other.key && g.firstTs == other.firstTs
  }

  predicate IdsDistinct(gs: seq<Group>) {
    forall i, j | 0 <= i < j < |gs| :: !SameId(gs[i], gs[j])
  }

  /** The event that opens the group of event i, found in one pass over the events before it. */
  function Opener(events: seq<Event>, now: seq<int>, i: nat): (o: nat)
    requires |now| == |events| && i < |events|
    ensures o <= i && events[o].key == events[i].key
  {
    if i > 0 && Joins(events, now, Opener(events, now, i - 1), i) then Opener(events, now, i - 1) else i
  }

  predicate Opens(events: seq<Event>, now: seq<int>, i: nat)
    requires |now| == |events| && i < |events|
  {
    Opener(events, now, i) == i
  }

  /** The first events of the groups from event h on. */
  function Heads(events: seq<Event>, now: seq<int>, h: nat): seq<nat>
    requires |now| == |events| && h <= |events|
    decreases |events| - h
  {
    if h == |events| then [] else [h] + Heads(events, now, EndFrom(events, now, h, h + 1))
  }

  lemma {:induction false} HeadOfGroup(events: seq<Event>, now: seq<int>, h: nat, i: nat)
    requires |now| == |events| && h <= |events|
    ensures |Heads(events, now, h)| == |Groups(events, now, h)|
    ensures i < |Groups(events, now, h)| ==>
      var g, a := Groups(events, now, h)[i], Heads(events, now, h)[i];
      h <= a < |events| && (i > 0 ==> h < a) && g.key == events[a].key && g.firstTs == HeadTs(events, now, a)
    decreases |events| - h
  {
    if h < |events| {
      HeadOfGroup(events, now, EndFrom(events, now, h, h + 1), if i > 0 then i - 1 else 0);
    }
  }

  lemma {:induction false} HeadsAscend(events: seq<Event>, now: seq<int>, h: nat, i: nat, j: nat)
    requires |now| == |events| && h <= |events| && i < j < |Heads(events, now, h)|
    ensures Heads(events, now, h)[i] < Heads(events, now, h)[j]
    decreases |events| - h
  {
    var e := EndFrom(events, now, h, h + 1);
    HeadOfGroup(events, now, h, j);
    if i > 0 {
      HeadsAscend(events, now, e, i - 1, j - 1);
    }
  }

  /** Up to the end of its group, an event that opens one is the opener. */
  lemma {:induction false} OpenerOfGroup(events: seq<Event>, now: seq<int>, h: nat, j: nat)
    requires |now| == |events| && h <= j < |events| && Opens(events, now, h) && j <= EndFrom(events, now, h, h + 1)
    ensures Opener(events, now, j) == if j < EndFrom(events, now, h, h + 1) then h else j
  {
    if j > h {
      OpenerOfGroup(events, now, h, j - 1);
    }
  }

  /** The groups begin exactly at the events that open one. */
  lemma {:induction false} HeadsOpen(events: seq<Event>, now: seq<int>, h: nat, a: nat)
    requires |now| == |events| && h <= a < |events| && Opens(events, now, h)
    ensures a in Heads(events, now, h) <==> Opens(events, now, a)
    decreases |events| - h
  {
    var e := EndFrom(events, now, h, h + 1);
    if a < e {
      OpenerOfGroup(events, now, h, a);
      HeadsStartAt(events, now, e, a);
    } else {
      OpenerOfGroup(events, now, h, e);
      HeadsOpen(events, now, e, a);
    }
  }

  lemma {:induction false} HeadsStartAt(events: seq<Event>, now: seq<int>, h: nat, a: nat)
    requires |now| == |events| && a < h <= |events|
    ensures a !in Heads(events, now, h)
    decreases |events| - h
  {
    if h < |events| {
      HeadsStartAt(events, now, EndFrom(events, now, h, h + 1), a);
    }
  }

  /** Two events open groups with one id. */
  predicate Clash(events: seq<Event>, now: seq<int>, a: nat, b: nat)
    requires |now| == |events|
  {
    && a < b < |events| && Opens(events, now, a) && Opens(events, now, b)
    && events[a].key == events[b].key && HeadTs(events, now, a) == HeadTs(events, now, b)
  }

  lemma ClashingHeads(events: seq<Event>, now: seq<int>, i: nat, j: nat)
    requires |now| == |events| && i < j < |Groups(events, now, 0)|
    requires SameId(Groups(events, now, 0)[i], Groups(events, now, 0)[j])
    ensures exists a, b :: Clash(events, now, a, b)
  {
    var heads := Heads(events, now, 0);
    HeadOfGroup(events, now, 0, i);
    HeadOfGroup(events, now, 0, j);
    HeadsAscend(events, now, 0, i, j);
    HeadsOpen(events, now, 0, heads[i]);
    HeadsOpen(events, now, 0, heads[j]);
    assert Clash(events, now, heads[i], heads[j]);
  }

  lemma ClashingGroups(events: seq<Event>, now: seq<int>, a: nat, b: nat)
    requires |now| == |events| && Clash(events, now, a, b)
    ensures !IdsDistinct(Groups(events, now, 0))
  {
    var heads := Heads(events, now, 0);
    HeadsOpen(events, now, 0, a);
    HeadsOpen(events, now, 0, b);
    var i :| 0 <= i < |heads| && heads[i] == a;
    var j :| 0 <= j < |heads| && heads[j] == b;
    if j < i {
      HeadsAscend(events, now, 0, j, i);
    }
    HeadOfGroup(events, now, 0, i);
    HeadOfGroup(events, now, 0, j);
    assert SameId(Groups(events, now, 0)[i], Groups(events, now, 0)[j]);
  }

  /** For all events, in any order: the ids of the groups are distinct if no two events agree in key
      and time. */
  lemma IdsDiffer(events: seq<Event>, now: seq<int>)
    requires |now| == |events|
    requires forall a, b | 0 <= a < b < |events| && events[a].key == events[b].key ::
             HeadTs(events, now, a) != HeadTs(events, now, b)
    ensures IdsDistinct(Groups(events, now, 0))
  {
    var gs := Groups(events, now, 0);
    forall i, j | 0 <= i < j < |gs| ensures !SameId(gs[i], gs[j]) {
      if SameId(gs[i], gs[j]) {
        ClashingHeads(events, now, i, j);
        assert false;
      }
    }
  }

  /** The display order, with valid timestamps only. */
  predicate NewestFirst(events: seq<Event>) {
    && (forall i | 0 <= i < |events| :: events[i].ts.Some?)
    && (forall i, j | 0 <= i < j < |events| :: events[i].ts.ms >= events[j].ts.ms)
  }

  /** Event a opens a group, and at the same instant its key comes back at b after another key at m. */
  predicate ComesBack(events: seq<Event>, now: seq<int>, a: nat, m: nat, b: nat)
    requires |now| == |events|
  {
    && a < m < b < |events| && Opens(events, now, a) && events[a].ts == events[b].ts
    && events[a].key == events[b].key != events[m].key
  }

  /** Events of one key and one instant stay in the group that the first of them opens. */
  lemma {:induction false} SameInstantStays(events: seq<Event>, now: seq<int>, a: nat, b: nat)
    requires |now| == |events| && a <= b < |events| && NewestFirst(events) && Opens(events, now, a)
    requires events[a].ts == events[b].ts && forall j | a <= j <= b :: events[j].key == events[a].key
    ensures Opener(events, now, b) == a
  {
    if a < b {
      SameInstantStays(events, now, a, b - 1);
    }
  }

  lemma ClashComesBack(events: seq<Event>, now: seq<int>, a: nat, b: nat)
    requires |now| == |events| && NewestFirst(events) && Clash(events, now, a, b)
    ensures exists m :: ComesBack(events, now, a, m, b)
  {
    if m :| a <= m <= b && events[m].key != events[a].key {
      assert ComesBack(events, now, a, m, b);
    } else {
      SameInstantStays(events, now, a, b);
      assert false;
    }
  }

  /** An event whose key differs from the one before it opens a group. */
  lemma {:induction false} ComesBackClashes(events: seq<Event>, now: seq<int>, a: nat, m: nat, b: nat)
    requires |now| == |events| && NewestFirst(events) && ComesBack(events, now, a, m, b)
    ensures exists b' :: Clash(events, now, a, b')
    decreases b
  {
    if events[b - 1].key == events[b].key {
      ComesBackClashes(events, now, a, m, b - 1);
    } else {
      assert Clash(events, now, a, b);
    }
  }

  /** Exactly when the ids are distinct, for events in display order: unless some event that opens a
      group is followed, at the same instant, by an event of another key and then by one of its own. */
  lemma IdsDifferExactly(events: seq<Event>, now: seq<int>)
    requires |now| == |events| && NewestFirst(events)
    ensures IdsDistinct(Groups(events, now, 0)) <==> !exists a, m, b :: ComesBack(events, now, a, m, b)
  {
    var gs := Groups(events, now, 0);
    if a, m, b :| ComesBack(events, now, a, m, b) {
      ComesBackClashes(events, now, a, m, b);
      var b' :| Clash(events, now, a, b');
      ClashingGroups(events, now, a, b');
    }
    if i, j :| 0 <= i < j < |gs| && SameId(gs[i], gs[j]) {
      ClashingHeads(events, now, i, j);
      var a, b :| Clash(events, now, a, b);
      ClashComesBack(events, now, a, b);
    }
  }

  /** They need not be otherwise: an event of another key at the same time divides two groups with one
      id. */
  lemma IdsCanClash(a: Event, b: Event)
    requires a.ts.Some? && a.ts == b.ts && a.key != b.key
    ensures var gs := Groups([a, b, a], [0, 0, 0], 0); |gs| == 3 && SameId(gs[0], gs[2])
  {
    var events, now := [a, b, a], [0, 0, 0];
    assert Groups(events, now, 3) == [];
    assert EndFrom(events, now, 2, 3) == 3 && EndFrom(events, now, 1, 2) == 2 && EndFrom(events, now, 0, 1) == 1;
    assert |Groups(events, now, 2)| == 1 && |Groups(events, now, 1)| == 2;
  }

  // ---------------------------------------------------------------------------------------
  // The loop
  // ---------------------------------------------------------------------------------------

  /** A group ends where the first event does not join it. */
  lemma GroupEnds(events: seq<Event>, now: seq<int>, h: nat, e: nat)
    requires |now| == |events| && IsRun(events, now, h, e)
    requires e < |events| ==> !Joins(events, now, h, e)
    ensures EndFrom(events, now, h, h + 1) == e
    ensures Groups(events, now, h) == [Group(events[h].key, HeadTs(events, now, h), events[h..e])] +
            Groups(events, now, e)
  {
  }

  /** The input in order, divided into groups that are as long as can be and as few as can be. */
  ghost predicate IsBest(events: seq<Event>, now: seq<int>, gs: seq<Group>)
    requires |now| == |events|
  {
    && Flatten(gs) == events
    && (forall g | g in gs :: IsGroup(g))
    && Maximal(gs)
    && (forall cuts | IsPartition(events, now, 0, cuts) :: |gs| <= |cuts|)
  }

  lemma GroupsAreBest(events: seq<Event>, now: seq<int>)
    requires |now| == |events|
    ensures IsBest(events, now, Groups(events, now, 0))
  {
    GroupsCorrect(events, now, 0);
    forall cuts | IsPartition(events, now, 0, cuts) ensures |Groups(events, now, 0)| <= |cuts| {
      GreedyIsOptimal(events, now, cuts);
    }
  }

  /** The group under construction, if there is one. */
  datatype Current = Nothing | Open(group: Group)

  /** `groupConsecutive`. */
  method GroupConsecutive(events: seq<Event>, now: seq<int>) returns (r: seq<Group>)
    requires |now| == |events|
    ensures r == Groups(events, now, 0)
    ensures IsBest(events, now, r)
  {
    r := [];
    var current := Nothing;
    ghost var h := 0;
    var i := 0;
    while i < |events|
      invariant i <= |events| && (current.Nothing? <==> i == 0)
      invariant h == 0 || h < i
      invariant current.Open? ==>
        IsRun(events, now, h, i) && current.group == Group(events[h].key, HeadTs(events, now, h), events[h..i])
      invariant r + Groups(events, now, h) == Groups(events, now, 0)
    {
      var ev := events[i];
      if current.Open? && current.group.key == ev.key && ev.ts.Some? &&
          current.group.firstTs - ev.ts.ms <= GROUP_WINDOW_MS {
        current := Open(current.group.(events := current.group.events + [ev]));
      } else {
        if current.Open? {
          Closes(events, now, h, i, r, current.group);
          r := r + [current.group];
        }
        current := Open(Group(ev.key, if ev.ts.None? then now[i] else ev.ts.ms, [ev]));
        h := i;
      }
      i := i + 1;
    }
    if current.Open? {
      Closes(events, now, h, i, r, current.group);
      r := r + [current.group];
    }
    GroupsAreBest(events, now);
  }

  /** Closing a group that has ended keeps the account of the groups made and to be made. */
  lemma Closes(events: seq<Event>, now: seq<int>, h: nat, e: nat, r: seq<Group>, g: Group)
    requires |now| == |events| && IsRun(events, now, h, e) && (e < |events| ==> !Joins(events, now, h, e))
    requires g == Group(events[h].key, HeadTs(events, now, h), events[h..e])
    requires r + Groups(events, now, h) == Groups(events, now, 0)
    ensures (r + [g]) + Groups(events, now, e) == Groups(events, now, 0)
    ensures e == |events| ==> r + [g] == Groups(events, now, 0)
  {
    GroupEnds(events, now, h, e);
    Snoc(r, g, Groups(events, now, e));
    if e == |events| {
      assert (r + [g]) + [] == r + [g];
    }
  }

  lemma Snoc<T>(xs: seq<T>, x: T, ys: seq<T>)
    ensures xs + ([x] + ys) == (xs + [x]) + ys
    ensures xs + [x] + [] == xs + [x]
  {
  }
}
