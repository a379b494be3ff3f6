/** The consumer thread's split of a fetched batch: bulk noise goes straight to the bulk writer's
    queue, everything else stays for the processor. */
module Split {
  import opened Offsets
  import opened Sequences
  import opened Text

  datatype Option<+T> = None | Some(value: T)

  datatype Json =
    | Null
    | Bool(b: bool)
    | Num(n: real)
    | Str(s: string)
    | Arr(elems: seq<Json>)
    | Obj(fields: map<string, Json>)

  /** The value of a Kafka message: absent, not decodable (or raising), or a JSON document. */
  datatype Value = Absent | Undecodable | Decoded(json: Json)

  /** One element of what `consume()` returns. */
  datatype Record = Missing | Fault(eof: bool) | Message(ref: Ref, value: Value)

  // ---------------------------------------------------------------------------------------
  // Which payloads are bulk noise
  // ---------------------------------------------------------------------------------------

  /** `dict.get(name)`; None is Null. */
  function Get(j: Json, name: string): Json {
    if j.Obj? && name in j.fields then j.fields[name] else Null
  }

  predicate Truthy(j: Json)
    ensures Truthy(j) <==> j !in {Null, Bool(false), Num(0.0), Str(""), Arr([]), Obj(map[])}
  {
    match j
    case Null => false
    case Bool(b) => b
    case Num(n) => n != 0.0
    case Str(s) => s != ""
    case Arr(elems) => elems != []
    case Obj(fields) => fields != map[]
  }

  function Or(a: Json, b: Json): Json {
    if Truthy(a) then a else b
  }

  /** `_try_short_circuit_noise`, branch by branch. */
  function TryShortCircuit(noise: set<string>, v: Value): Option<Json> {
    if !v.Decoded? || !v.json.Obj? then None else
    var payload := v.json;
    var data := Get(payload, "data");
    var nested := if data.Obj? then Or(Get(data, "methodName"), Str("")) else Str("");
    var name := if Truthy(nested) then nested else Or(Or(Get(payload, "methodName"), Get(payload, "method")), Str(""));
    if !name.Str? || name.s == "" then None
    else if Lower(name.s) !in noise then None
    else if !data.Obj? then Some(payload)
    else
      var authz := Get(data, "authorizationInfo");
      var outcome := Get(data, "result");
      if authz.Obj? && Get(authz, "granted") == Bool(false) then None
      else if authz.Obj? && Get(authz, "result").Str? && Upper(Get(authz, "result").s) in {"DENY", "FAILURE"} then None
      else if outcome.Obj? && Get(outcome, "status").Str?
              && Upper(Get(outcome, "status").s) in {"DENY", "FAILURE", "UNAUTHENTICATED"} then None
      else Some(payload)
  }

  /** The value at the end of a path of field names. */
  function Lookup(j: Json, path: seq<string>): Json
    decreases |path|
  {
    if path == [] then j else Lookup(Get(j, path[0]), path[1..])
  }

  /** The text is one of the words, whatever the case of its letters. */
  ghost predicate Says(j: Json, words: set<string>) {
    j.Str? && exists w :: w in words && SameUpToCase(j.s, w)
  }

  /** The text is, up to case, one of the entries in small letters. */
  ghost predicate Listed(s: string, entries: set<string>) {
    exists w :: w in entries && !HasCapital(w) && SameUpToCase(s, w)
  }

  lemma SaysExactly(j: Json, words: set<string>)
    requires forall w | w in words :: !HasSmall(w)
    ensures Says(j, words) <==> j.Str? && Upper(j.s) in words
  {
    if j.Str? {
      forall w | w in words ensures Upper(j.s) == w <==> SameUpToCase(j.s, w) {
        UpperIs(j.s, w);
      }
    }
  }

  lemma ListedExactly(s: string, entries: set<string>)
    ensures Listed(s, entries) <==> Lower(s) in entries
  {
    forall w | w in entries ensures Lower(s) == w <==> !HasCapital(w) && SameUpToCase(s, w) {
      LowerIs(s, w);
    }
  }

  /** The three ways in which a raw payload expresses a denial. */
  ghost predicate Denied(payload: Json) {
    || Lookup(payload, ["data", "authorizationInfo", "granted"]) == Bool(false)
    || Says(Lookup(payload, ["data", "authorizationInfo", "result"]), {"DENY", "FAILURE"})
    || Says(Lookup(payload, ["data", "result", "status"]), {"DENY", "FAILURE", "UNAUTHENTICATED"})
  }

  /** The method an event names: the nested name unless it is empty, then the top-level ones. */
  function MethodName(payload: Json): Json {
    if Truthy(Lookup(payload, ["data", "methodName"])) then Lookup(payload, ["data", "methodName"])
    else if Truthy(Get(payload, "methodName")) then Get(payload, "methodName")
    else Get(payload, "method")
  }

  lemma LookupOne(j: Json, a: string)
    ensures Lookup(j, [a]) == Get(j, a)
  {
    assert Lookup(j, [a]) == Lookup(Get(j, a), [a][1..]);
  }

  lemma LookupTwo(j: Json, a: string, b: string)
    ensures Lookup(j, [a, b]) == Get(Get(j, a), b)
  {
    assert [a, b][1..] == [b];
    LookupOne(Get(j, a), b);
  }

  lemma LookupThree(j: Json, a: string, b: string, c: string)
    ensures Lookup(j, [a, b, c]) == Get(Get(Get(j, a), b), c)
  {
    assert [a, b, c][1..] == [b, c];
    LookupTwo(Get(j, a), b, c);
  }

  /** The method that the consumer reads is the one the event names. */
  lemma MethodIsRead(payload: Json)
    requires payload.Obj?
    ensures var data := Get(payload, "data");
            var nested := if data.Obj? then Or(Get(data, "methodName"), Str("")) else Str("");
            var name := if Truthy(nested) then nested
                        else Or(Or(Get(payload, "methodName"), Get(payload, "method")), Str(""));
            name == if Truthy(MethodName(payload)) then MethodName(payload) else Str("")
  {
    LookupTwo(payload, "data", "methodName");
  }

  lemma WordsOfDenial()
    ensures !HasSmall("DENY") && !HasSmall("FAILURE") && !HasSmall("UNAUTHENTICATED")
  {
    AllCapital("DENY");
    AllCapital("FAILURE");
    AllCapital("UNAUTHENTICATED");
  }

  lemma DenialIsRead(payload: Json)
    ensures var data := Get(payload, "data");
            var authz, outcome := Get(data, "authorizationInfo"), Get(data, "result");
            Denied(payload) <==>
              || Get(authz, "granted") == Bool(false)
              || (Get(authz, "result").Str? && Upper(Get(authz, "result").s) in {"DENY", "FAILURE"})
              || (Get(outcome, "status").Str?
                  && Upper(Get(outcome, "status").s) in {"DENY", "FAILURE", "UNAUTHENTICATED"})
  {
    WordsOfDenial();
    SaysExactly(Get(Get(Get(payload, "data"), "authorizationInfo"), "result"), {"DENY", "FAILURE"});
    SaysExactly(Get(Get(Get(payload, "data"), "result"), "status"), {"DENY", "FAILURE", "UNAUTHENTICATED"});
    LookupThree(payload, "data", "authorizationInfo", "granted");
    LookupThree(payload, "data", "authorizationInfo", "result");
    LookupThree(payload, "data", "result", "status");
  }

  /** A payload is short-circuited exactly when it is an object whose method is bulk noise and
      that expresses no denial; it is passed on unchanged. */
  lemma ShortCircuitsExactly(noise: set<string>, v: Value, payload: Json)
    ensures TryShortCircuit(noise, v) == Some(payload) <==>
      && v == Decoded(payload) && payload.Obj?
      && MethodName(payload).Str? && MethodName(payload).s != "" && Listed(MethodName(payload).s, noise)
      && !Denied(payload)
  {
    if MethodName(payload).Str? {
      ListedExactly(MethodName(payload).s, noise);
    }
    if v == Decoded(payload) && payload.Obj? {
      MethodIsRead(payload);
      DenialIsRead(payload);
    }
  }

  predicate IsNoise(noise: set<string>, r: Record) {
    r.Message? && TryShortCircuit(noise, r.value).Some?
  }

  function RefOf(r: Record): seq<Ref> {
    if r.Message? then [r.ref] else []
  }

  function Refs(rs: seq<Record>): seq<Ref> {
    if rs == [] then [] else Refs(rs[..|rs| - 1]) + RefOf(rs[|rs| - 1])
  }

  lemma {:induction false} RefsMember(rs: seq<Record>, r: Ref)
    ensures r in Refs(rs) <==> exists x :: x in rs && x.Message? && x.ref == r
  {
    if rs != [] {
      var n := |rs| - 1;
      RefsMember(rs[..n], r);
      assert rs == rs[..n] + [rs[n]];
    }
  }

  /** The offsets of the diverted part: a maximum per partition. */
  function NoiseOffsets(source: seq<Record>, flags: seq<bool>): Marks
    requires |source| == |flags|
  {
    BumpAll(map[], Refs(Pick(source, flags, true)))
  }

  // ---------------------------------------------------------------------------------------
  // The loop
  // ---------------------------------------------------------------------------------------

  /** A diverted payload with the metadata that the bulk writer acknowledges. */
  datatype Tagged = Tagged(payload: Json, ref: Ref)

  function TagOf(noise: set<string>, r: Record): seq<Tagged> {
    if IsNoise(noise, r) then [Tagged(TryShortCircuit(noise, r.value).value, r.ref)] else []
  }

  function Tags(noise: set<string>, rs: seq<Record>): seq<Tagged> {
    if rs == [] then [] else Tags(noise, rs[..|rs| - 1]) + TagOf(noise, rs[|rs| - 1])
  }

  /** Which records of a batch are diverted, given which of the puts find room in time. */
  function Diverted(noise: set<string>, batch: seq<Record>, room: seq<bool>): (flags: seq<bool>)
    requires |batch| == |room|
    ensures |flags| == |batch|
  {
    seq(|batch|, i requires 0 <= i < |batch| => IsNoise(noise, batch[i]) && room[i])
  }

  /** The positions of the records that go to the bulk queue: noise for which there is room in time. */
  ghost function ToBulk(noise: set<string>, batch: seq<Record>, room: seq<bool>): set<nat>
    requires |batch| == |room|
  {
    set i: nat | i < |batch| && IsNoise(noise, batch[i]) && room[i]
  }

  ghost function ToProcessor(noise: set<string>, batch: seq<Record>, room: seq<bool>): set<nat>
    requires |batch| == |room|
  {
    set i: nat | i < |batch| && !(IsNoise(noise, batch[i]) && room[i])
  }

  /** The records at some positions, in order. */
  ghost predicate AreAt(rest: seq<Record>, batch: seq<Record>, positions: set<nat>) {
    exists at: seq<nat> :: Lists(at, positions) && IsAt(rest, batch, at)
  }

  ghost predicate IsAt(rest: seq<Record>, batch: seq<Record>, at: seq<nat>) {
    |rest| == |at| && forall j | 0 <= j < |at| :: at[j] < |batch| && rest[j] == batch[at[j]]
  }

  /** The decoded payloads of the records at some positions, in order, with their partitions and
      offsets. */
  ghost predicate TagsAreAt(tags: seq<Tagged>, batch: seq<Record>, positions: set<nat>) {
    exists at: seq<nat> :: Lists(at, positions) && IsTagged(tags, batch, at)
  }

  ghost predicate IsTagged(tags: seq<Tagged>, batch: seq<Record>, at: seq<nat>) {
    |tags| == |at| && forall j | 0 <= j < |at| ::
        at[j] < |batch| && batch[at[j]] == Message(tags[j].ref, Decoded(tags[j].payload))
  }

  /** The offsets have exactly the partitions of the records at some positions, each with the highest
      offset among them. */
  ghost predicate AreHighest(offsets: Marks, batch: seq<Record>, positions: set<nat>) {
    && (forall k | k in offsets :: exists i :: i in positions && IsOf(batch, i, Ref(k, offsets[k])))
    && (forall i, r | i in positions && IsOf(batch, i, r) :: r.key in offsets && r.offset <= offsets[r.key])
  }

  predicate IsOf(batch: seq<Record>, i: nat, r: Ref) {
    i < |batch| && batch[i].Message? && batch[i].ref == r
  }

  class Splitter {
    const active: bool
    const noise: set<string>
    var bulkQueue: seq<Tagged>

    /** One record: it goes to the bulk queue if it is noise and there is room in time. */
    method Divert(msg: Record, room: bool) returns (diverted: bool)
      modifies this
      ensures diverted <==> IsNoise(noise, msg) && room
      ensures bulkQueue == old(bulkQueue) + if diverted then TagOf(noise, msg) else []
    {
      if msg.Missing? || msg.Fault? {
        return false;
      }
      var payload := TryShortCircuit(noise, msg.value);
      if payload.None? || !room {
        return false;
      }
      bulkQueue := bulkQueue + [Tagged(payload.value, msg.ref)];
      return true;
    }

    /** `_split_noise`. `room[i]` says whether the bulk queue has room for record i in time. */
    method SplitNoise(batch: seq<Record>, room: seq<bool>) returns (rest: seq<Record>, offsets: Marks)
      requires |batch| == |room|
      modifies this
      ensures !active ==> rest == batch && offsets == map[] && bulkQueue == old(bulkQueue)
      ensures active ==>
        var flags := Diverted(noise, batch, room);
        && rest == Pick(batch, flags, false)
        && bulkQueue == old(bulkQueue) + Tags(noise, Pick(batch, flags, true))
        && offsets == NoiseOffsets(batch, flags)
      ensures active ==> AreAt(rest, batch, ToProcessor(noise, batch, room))
      ensures active ==>
        old(bulkQueue) <= bulkQueue && TagsAreAt(bulkQueue[|old(bulkQueue)|..], batch, ToBulk(noise, batch, room))
      ensures active ==> AreHighest(offsets, batch, ToBulk(noise, batch, room))
    {
      if !active {
        return batch, map[];
      }
      rest, offsets := [], map[];
      ghost var flags := Diverted(noise, batch, room);
      var i := 0;
      while i < |batch|
        invariant 0 <= i <= |batch|
        invariant rest == Pick(batch[..i], flags[..i], false)
        invariant bulkQueue == old(bulkQueue) + Tags(noise, Pick(batch[..i], flags[..i], true))
        invariant offsets == NoiseOffsets(batch[..i], flags[..i])
      {
        var msg := batch[i];
        var diverted := Divert(msg, room[i]);
        if !diverted {
          KeepsOne(batch, flags, i);
          rest := rest + [msg];
        } else {
          DivertsOne(noise, batch, flags, i);
          var current := At(offsets, msg.ref.key);
          if msg.ref.offset > current {
            offsets := offsets[msg.ref.key := msg.ref.offset];
          }
        }
        i := i + 1;
      }
      assert batch[..i] == batch && flags[..i] == flags;
      SplitAt(noise, batch, room);
      assert bulkQueue[|old(bulkQueue)|..] == Tags(noise, Pick(batch, flags, true));
    }
  }

  lemma FlagsDivide(noise: set<string>, batch: seq<Record>, room: seq<bool>)
    requires |batch| == |room|
    ensures var flags := Diverted(noise, batch, room);
            && (set i: nat | i < |flags| && flags[i] == true) == ToBulk(noise, batch, room)
            && (set i: nat | i < |flags| && flags[i] == false) == ToProcessor(noise, batch, room)
  {
  }

  lemma {:induction false} TagsAt(noise: set<string>, rs: seq<Record>)
    requires forall r | r in rs :: IsNoise(noise, r)
    ensures |Tags(noise, rs)| == |rs|
    ensures forall j | 0 <= j < |rs| :: rs[j] == Message(Tags(noise, rs)[j].ref, Decoded(Tags(noise, rs)[j].payload))
  {
    if rs != [] {
      var n := |rs| - 1;
      TagsAt(noise, rs[..n]);
      assert rs[n] in rs;
      TagCarries(noise, rs[n]);
    }
  }

  lemma TagCarries(noise: set<string>, r: Record)
    requires IsNoise(noise, r)
    ensures TagOf(noise, r) == [Tagged(r.value.json, r.ref)] && r == Message(r.ref, Decoded(r.value.json))
  {
    ShortCircuitsExactly(noise, r.value, TryShortCircuit(noise, r.value).value);
  }

  /** The flags divide the batch by position: what is noise and has room goes to the bulk queue, whole
      and in order, and everything else stays. */
  lemma SplitAt(noise: set<string>, batch: seq<Record>, room: seq<bool>)
    requires |batch| == |room|
    ensures var flags := Diverted(noise, batch, room);
            && AreAt(Pick(batch, flags, false), batch, ToProcessor(noise, batch, room))
            && AreAt(Pick(batch, flags, true), batch, ToBulk(noise, batch, room))
            && TagsAreAt(Tags(noise, Pick(batch, flags, true)), batch, ToBulk(noise, batch, room))
            && AreHighest(NoiseOffsets(batch, flags), batch, ToBulk(noise, batch, room))
  {
    var flags := Diverted(noise, batch, room);
    FlagsDivide(noise, batch, room);
    PositionsList(flags, false);
    PositionsList(flags, true);
    PickAt(batch, flags, false);
    PickAt(batch, flags, true);
    assert IsAt(Pick(batch, flags, false), batch, Positions(flags, false));
    assert IsAt(Pick(batch, flags, true), batch, Positions(flags, true));
    PickedIsTagged(noise, batch, room);
    OffsetsAreHighest(noise, batch, room);
  }

  lemma PickedIsTagged(noise: set<string>, batch: seq<Record>, room: seq<bool>)
    requires |batch| == |room|
    ensures var flags := Diverted(noise, batch, room);
            IsTagged(Tags(noise, Pick(batch, flags, true)), batch, Positions(flags, true))
  {
    var flags := Diverted(noise, batch, room);
    var picked := Pick(batch, flags, true);
    forall r | r in picked ensures IsNoise(noise, r) {
      PickMember(batch, flags, true, r);
    }
    TagsAt(noise, picked);
    PickAt(batch, flags, true);
  }

  lemma OffsetsAreHighest(noise: set<string>, batch: seq<Record>, room: seq<bool>)
    requires |batch| == |room|
    ensures AreHighest(NoiseOffsets(batch, Diverted(noise, batch, room)), batch, ToBulk(noise, batch, room))
  {
    var flags, positions := Diverted(noise, batch, room), ToBulk(noise, batch, room);
    var picked, offsets := Pick(batch, flags, true), NoiseOffsets(batch, flags);
    forall k | k in offsets ensures exists i :: i in positions && IsOf(batch, i, Ref(k, offsets[k])) {
      HighestMember(Refs(picked), k);
      RefsMember(picked, Ref(k, offsets[k]));
      var x :| x in picked && x.Message? && x.ref == Ref(k, offsets[k]);
      PickMember(batch, flags, true, x);
      var i :| 0 <= i < |batch| && flags[i] && batch[i] == x;
      assert i in positions && IsOf(batch, i, Ref(k, offsets[k]));
    }
    forall i, r | i in positions && IsOf(batch, i, r) ensures r.key in offsets && r.offset <= offsets[r.key] {
      PickMember(batch, flags, true, batch[i]);
      RefsMember(picked, r);
      HighestMember(Refs(picked), r.key);
    }
  }

  /** What a record that stays adds to the two parts. */
  lemma KeepsOne(batch: seq<Record>, flags: seq<bool>, i: nat)
    requires |batch| == |flags| && i < |batch| && !flags[i]
    ensures Pick(batch[..i + 1], flags[..i + 1], false) == Pick(batch[..i], flags[..i], false) + [batch[i]]
    ensures Pick(batch[..i + 1], flags[..i + 1], true) == Pick(batch[..i], flags[..i], true)
  {
    assert batch[..i + 1] == batch[..i] + [batch[i]] && flags[..i + 1] == flags[..i] + [flags[i]];
    PickSnoc(batch[..i], flags[..i], batch[i], flags[i], false);
    PickSnoc(batch[..i], flags[..i], batch[i], flags[i], true);
  }

  /** What a diverted record adds to the queue and to the offsets. */
  lemma DivertsOne(noise: set<string>, batch: seq<Record>, flags: seq<bool>, i: nat)
    requires |batch| == |flags| && i < |batch| && flags[i] && IsNoise(noise, batch[i])
    ensures Pick(batch[..i + 1], flags[..i + 1], false) == Pick(batch[..i], flags[..i], false)
    ensures Tags(noise, Pick(batch[..i + 1], flags[..i + 1], true))
         == Tags(noise, Pick(batch[..i], flags[..i], true)) + TagOf(noise, batch[i])
    ensures NoiseOffsets(batch[..i + 1], flags[..i + 1]) == Bump(NoiseOffsets(batch[..i], flags[..i]), batch[i].ref)
  {
    assert batch[..i + 1] == batch[..i] + [batch[i]] && flags[..i + 1] == flags[..i] + [flags[i]];
    PickSnoc(batch[..i], flags[..i], batch[i], flags[i], false);
    PickSnoc(batch[..i], flags[..i], batch[i], flags[i], true);
    DivertOne(noise, Pick(batch[..i], flags[..i], true), batch[i]);
  }

  /** What looking at one more record adds to the diverted refs. */
  lemma DivertsOneMore(seen: seq<Record>, flags: seq<bool>, r: Record, flag: bool)
    requires |seen| == |flags|
    ensures var before, after := Refs(Pick(seen, flags, true)), Refs(Pick(seen + [r], flags + [flag], true));
            after == if flag then before + RefOf(r) else before
  {
    PickSnoc(seen, flags, r, flag, true);
    if flag {
      RefsSnoc(Pick(seen, flags, true), r);
    } else {
      NothingAdded(Pick(seen, flags, true));
    }
  }

  lemma NothingAdded<T>(xs: seq<T>)
    ensures xs + [] == xs
  {
  }

  lemma RefsSnoc(rs: seq<Record>, r: Record)
    ensures Refs(rs + [r]) == Refs(rs) + RefOf(r)
  {
    assert (rs + [r])[..|rs|] == rs;
  }

  lemma TagsSnoc(noise: set<string>, rs: seq<Record>, r: Record)
    ensures Tags(noise, rs + [r]) == Tags(noise, rs) + TagOf(noise, r)
  {
    assert (rs + [r])[..|rs|] == rs;
  }

  lemma DivertOne(noise: set<string>, sent: seq<Record>, msg: Record)
    requires IsNoise(noise, msg)
    ensures Tags(noise, sent + [msg]) == Tags(noise, sent) + TagOf(noise, msg)
    ensures BumpAll(map[], Refs(sent + [msg])) == Bump(BumpAll(map[], Refs(sent)), msg.ref)
  {
    TagsSnoc(noise, sent, msg);
    RefsSnoc(sent, msg);
    BumpAllSnoc(map[], Refs(sent), msg.ref);
  }

  /** What is diverted is a message that carries no denial. */
  lemma DivertedIsClean(noise: set<string>, batch: seq<Record>, room: seq<bool>, r: Record)
    requires |batch| == |room| && r in Pick(batch, Diverted(noise, batch, room), true)
    ensures r.Message? && r.value.Decoded? && !Denied(r.value.json)
  {
    PickMember(batch, Diverted(noise, batch, room), true, r);
    assert IsNoise(noise, r);
    ShortCircuitsExactly(noise, r.value, TryShortCircuit(noise, r.value).value);
  }

  /** Nothing is lost or duplicated by the split, both parts keep their order, and the offset map holds
      the highest diverted offset of each partition. */
  lemma SplitPreserves(noise: set<string>, batch: seq<Record>, room: seq<bool>)
    requires |batch| == |room|
    ensures var flags := Diverted(noise, batch, room);
            var rest, sent := Pick(batch, flags, false), Pick(batch, flags, true);
            && multiset(rest) + multiset(sent) == multiset(batch)
            && IsSubsequence(rest, batch) && IsSubsequence(sent, batch)
            && (forall k :: IsHighest(map[], Refs(sent), NoiseOffsets(batch, flags), k))
  {
    var flags := Diverted(noise, batch, room);
    PickSplits(batch, flags);
    PickKeepsOrder(batch, flags, false);
    PickKeepsOrder(batch, flags, true);
    forall k ensures IsHighest(map[], Refs(Pick(batch, flags, true)), NoiseOffsets(batch, flags), k) {
      BumpAllIsHighest(map[], Refs(Pick(batch, flags, true)), k);
    }
  }

  /** What is diverted carries no denial; noise with room is diverted, and whatever else there is stays. */
  ghost predicate DividesExactly(noise: set<string>, batch: seq<Record>, room: seq<bool>, flags: seq<bool>)
    requires |batch| == |room| == |flags|
  {
    var rest, sent := Pick(batch, flags, false), Pick(batch, flags, true);
    && (forall r | r in sent :: r.Message? && r.value.Decoded? && !Denied(r.value.json))
    && (forall i | 0 <= i < |batch| && (!room[i] || !IsNoise(noise, batch[i])) :: batch[i] in rest)
    && (forall i | 0 <= i < |batch| && room[i] && IsNoise(noise, batch[i]) :: batch[i] in sent)
  }

  lemma SplitDivides(noise: set<string>, batch: seq<Record>, room: seq<bool>)
    requires |batch| == |room|
    ensures DividesExactly(noise, batch, room, Diverted(noise, batch, room))
  {
    var flags := Diverted(noise, batch, room);
    forall r | r in Pick(batch, flags, true) ensures r.Message? && r.value.Decoded? && !Denied(r.value.json) {
      DivertedIsClean(noise, batch, room, r);
    }
    forall i | 0 <= i < |batch| ensures batch[i] in Pick(batch, flags, flags[i]) {
      PickMember(batch, flags, flags[i], batch[i]);
    }
  }

  /** Nothing is lost or duplicated by the split, both parts keep their order, and the offset map holds
      exactly the highest diverted offset of each partition. Position by position, a record is diverted
      exactly if it is noise and the bulk queue has room for it in time; so no denial is diverted, and a
      full bulk queue sends a record to the processor. */
  lemma SplitCorrect(noise: set<string>, batch: seq<Record>, room: seq<bool>)
    requires |batch| == |room|
    ensures var flags := Diverted(noise, batch, room);
            var rest, sent := Pick(batch, flags, false), Pick(batch, flags, true);
            && multiset(rest) + multiset(sent) == multiset(batch)
            && IsSubsequence(rest, batch) && IsSubsequence(sent, batch)
            && (forall k :: IsHighest(map[], Refs(sent), NoiseOffsets(batch, flags), k))
    ensures DividesExactly(noise, batch, room, Diverted(noise, batch, room))
    ensures var flags := Diverted(noise, batch, room);
            && AreAt(Pick(batch, flags, true), batch, ToBulk(noise, batch, room))
            && AreAt(Pick(batch, flags, false), batch, ToProcessor(noise, batch, room))
  {
    SplitPreserves(noise, batch, room);
    SplitAt(noise, batch, room);
    SplitDivides(noise, batch, room);
  }
}
