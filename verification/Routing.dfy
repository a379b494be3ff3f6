/** The processor's choice of a writer lane for an event, and the put into that lane's bounded queue. */
module Routing {
  import opened Offsets
  import opened Batch

  /** What the method tables say about an event's method. */
  datatype Family = Important | Routine | Other

  function LaneFor(validateOnly: bool, family: Family): LaneName {
    if validateOnly then Bulk
    else match family
      case Important => Critical
      case Routine => Bulk
      case Other => Normal
  }

  function Least(a: nat, b: nat): nat {
    if a <= b then a else b
  }

  /** The queue after a put that waits while the writer takes at most `taken` items: the second
      result says whether there was room. */
  function Offered(queue: seq<Ref>, capacity: nat, taken: nat, r: Ref): (seq<Ref>, bool) {
    if |queue| < capacity then (queue + [r], true)
    else
      var left := queue[Least(taken, |queue|)..];
      if |left| < capacity then (left + [r], true) else (left, false)
  }

  /** There is room at once, or the writer takes enough items in time. */
  predicate HasRoom(size: nat, capacity: nat, taken: nat) {
    size < capacity || (capacity > 0 && size < capacity + taken)
  }

  /** The queue loses only what the writer takes meanwhile, from its head, and only if it was full; with
      room the event stands at its end. */
  ghost predicate Enters(before: seq<Ref>, after: seq<Ref>, capacity: nat, taken: nat, r: Ref, room: bool) {
    exists gone: nat ::
      && gone <= taken && gone <= |before| && (|before| < capacity ==> gone == 0)
      && after == before[gone..] + if room then [r] else []
  }

  lemma OfferedEnters(queue: seq<Ref>, capacity: nat, taken: nat, r: Ref)
    ensures var (after, room) := Offered(queue, capacity, taken, r);
            (room <==> HasRoom(|queue|, capacity, taken)) && Enters(queue, after, capacity, taken, r, room)
  {
    var (after, room) := Offered(queue, capacity, taken, r);
    var gone := if |queue| < capacity then 0 else Least(taken, |queue|);
    assert queue[0..] == queue && queue[gone..] + [] == queue[gone..];
    assert after == queue[gone..] + if room then [r] else [];
  }

  class PriorityQueues {
    const enabled: bool
    const capacity: map<LaneName, nat>
    var queues: map<LaneName, seq<Ref>>
    var dropped: seq<Ref>

    ghost predicate Valid()
      reads this
    {
      forall lane: LaneName :: lane in queues && lane in capacity
    }

    /** `_route_to_queue`. The event enters the queue of its lane and no other if there is room in
        time. Without room a critical event is refused, which will decline the batch, and any other
        event is dropped although the caller is told that it was routed. */
    method RouteToQueue(r: Ref, validateOnly: bool, family: Family, taken: nat) returns (routed: bool, route: Route)
      requires Valid()
      modifies this
      ensures Valid()
      ensures !enabled ==> routed && route == NoRoute && queues == old(queues) && dropped == old(dropped)
      ensures enabled ==>
        var lane := LaneFor(validateOnly, family);
        var (queue, room) := Offered(old(queues)[lane], capacity[lane], taken, r);
        && route == Routed(lane, room)
        && queues == old(queues)[lane := queue]
        && dropped == old(dropped) + (if !room && lane != Critical then [r] else [])
      ensures enabled ==> route.Routed?
      ensures enabled ==> (route.lane.Critical? <==> !validateOnly && family.Important?)
      ensures enabled ==> (route.lane.Bulk? <==> validateOnly || family.Routine?)
      ensures enabled ==> HasRoom(|old(queues)[route.lane]|, capacity[route.lane], taken) == route.room
      ensures enabled ==> Enters(old(queues)[route.lane], queues[route.lane], capacity[route.lane], taken, r,
                                 route.room)
      ensures forall lane | enabled && lane != route.lane :: lane in queues && queues[lane] == old(queues)[lane]
      ensures routed <==> !(route.Routed? && route.lane.Critical? && !route.room)
      ensures forall sends :: routed <==> !Refused(Good(sends, route))
    {
      if !enabled {
        return true, NoRoute;
      }
      var lane := if validateOnly then Bulk
                  else if family.Important? then Critical
                  else if family.Routine? then Bulk
                  else Normal;
      OfferedEnters(queues[lane], capacity[lane], taken, r);
      if |queues[lane]| < capacity[lane] {
        queues := queues[lane := queues[lane] + [r]];
        return true, Routed(lane, true);
      }
      queues := queues[lane := queues[lane][Least(taken, |queues[lane]|)..]];
      if |queues[lane]| < capacity[lane] {
        queues := queues[lane := queues[lane] + [r]];
        return true, Routed(lane, true);
      }
      if lane.Critical? {
        return false, Routed(lane, false);
      }
      dropped := dropped + [r];
      return true, Routed(lane, false);
    }
  }
}
