/** The two processing-order strategies as functions of the queue map, and the optimality of serving
    the longest queue first. */
module Strategies {
  import opened Types
  import opened OrderedKeys

  type Queues = map<SourceId, seq<Frame>>

  /** `std::max_element` over queue sizes: a later element replaces the best only when strictly larger. */
  function MaxElement(queues: Queues, rest: seq<SourceId>, best: SourceId): (r: SourceId)
    requires best in queues && forall k :: k in rest ==> k in queues
    ensures r in queues
  {
    if rest == [] then best
    else MaxElement(queues, rest[1..], if |queues[best]| < |queues[rest[0]]| then rest[0] else best)
  }

  /** Longer queues first, lesser ids first among equally long ones. */
  predicate Preferred(queues: Queues, a: SourceId, b: SourceId)
    requires a in queues && b in queues
  {
    |queues[b]| < |queues[a]| || (|queues[b]| == |queues[a]| && a <= b)
  }

  lemma {:induction false} MaxElementPreferred(queues: Queues, rest: seq<SourceId>, best: SourceId, k: SourceId)
    requires best in queues && forall k :: k in rest ==> k in queues
    requires Ascending([best] + rest) && k in [best] + rest
    ensures Preferred(queues, MaxElement(queues, rest, best), k)
    decreases |rest|
  {
    if rest == [] {
    } else {
      var next := if |queues[best]| < |queues[rest[0]]| then rest[0] else best;
      AscendingWithout(best, rest, next);
      MaxElementPreferred(queues, rest[1..], next, if k in rest[1..] then k else next);
      AscendingHead(best, rest);
    }
  }

  lemma AscendingWithout(best: SourceId, rest: seq<SourceId>, next: SourceId)
    requires rest != [] && Ascending([best] + rest) && (next == best || next == rest[0])
    ensures Ascending([next] + rest[1..])
  {
    var whole, part := [best] + rest, [next] + rest[1..];
    forall i, j | 0 <= i < j < |part|
      ensures part[i] < part[j]
    {
      assert part[j] == whole[j + 1];
      assert part[i] == whole[i + 1] || part[i] == whole[0];
    }
  }

  lemma AscendingHead(best: SourceId, rest: seq<SourceId>)
    requires rest != [] && Ascending([best] + rest)
    ensures best < rest[0]
  {
    assert ([best] + rest)[0] < ([best] + rest)[1];
  }

  /** The load strategy; dereferencing the end iterator of an empty map is the caller's fault. */
  function ChooseByLoad(queues: Queues): (next: SourceId)
    requires queues.Keys != {}
    ensures next in queues
  {
    var order := Ascend(queues.Keys);
    MaxElement(queues, order[1..], order[0])
  }

  /** The chosen queue is a longest one and, among the longest, the one with the least id. */
  lemma {:induction false} LoadChoosesLeastLongest(queues: Queues, k: SourceId)
    requires k in queues
    ensures var c := ChooseByLoad(queues);
            |queues[k]| < |queues[c]| || (|queues[k]| == |queues[c]| && c <= k)
  {
    var order := Ascend(queues.Keys);
    assert [order[0]] + order[1..] == order;
    assert k in order;
    MaxElementPreferred(queues, order[1..], order[0], k);
  }

  /** One service takes the head of a queue; an empty or unknown queue gives nothing. */
  function Service(queues: Queues, id: SourceId): (r: Queues)
    ensures r.Keys == queues.Keys
  {
    if id in queues && queues[id] != [] then queues[id := queues[id][1..]] else queues
  }

  /** An arbitrary schedule of services without arrivals. */
  function Follow(queues: Queues, schedule: seq<SourceId>): (r: Queues)
    ensures r.Keys == queues.Keys
  {
    if schedule == [] then queues else Follow(Service(queues, schedule[0]), schedule[1..])
  }

  /** `k` services chosen by the load strategy without arrivals. */
  function LongestFirst(queues: Queues, k: nat): (r: Queues)
    requires queues.Keys != {}
    ensures r.Keys == queues.Keys
    decreases k
  {
    if k == 0 then queues else LongestFirst(ServeLongest(queues), k - 1)
  }

  function ServeLongest(queues: Queues): (r: Queues)
    requires queues.Keys != {}
    ensures r.Keys == queues.Keys
  {
    Service(queues, ChooseByLoad(queues))
  }

  ghost predicate BacklogAtMost(queues: Queues, m: nat) {
    forall k :: k in queues ==> |queues[k]| <= m
  }

  /** How many services are needed before no queue is longer than `m`. */
  function Excess(queues: Queues, order: seq<SourceId>, m: nat): nat
    requires forall k :: k in order ==> k in queues
  {
    if order == [] then 0
    else (if |queues[order[0]]| > m then |queues[order[0]]| - m else 0) + Excess(queues, order[1..], m)
  }

  lemma {:induction false} ExcessElsewhere(queues: Queues, order: seq<SourceId>, m: nat, id: SourceId)
    requires forall k :: k in order ==> k in queues
    requires id !in order
    ensures Excess(Service(queues, id), order, m) == Excess(queues, order, m)
  {
    if order == [] {
    } else {
      ExcessElsewhere(queues, order[1..], m, id);
    }
  }

  lemma {:induction false} ExcessOfService(queues: Queues, order: seq<SourceId>, m: nat, id: SourceId)
    requires Ascending(order) && id in order
    requires forall k :: k in order ==> k in queues
    ensures Excess(Service(queues, id), order, m)
         == Excess(queues, order, m) - (if |queues[id]| > m then 1 else 0)
  {
    if order[0] == id {
      assert id !in order[1..];
      ExcessElsewhere(queues, order[1..], m, id);
    } else {
      ExcessOfService(queues, order[1..], m, id);
    }
  }

  lemma {:induction false} ExcessZero(queues: Queues, order: seq<SourceId>, m: nat)
    requires forall k :: k in order ==> k in queues
    ensures Excess(queues, order, m) == 0 <==> forall k :: k in order ==> |queues[k]| <= m
  {
    if order == [] {
    } else {
      assert forall k :: k in order ==> k == order[0] || k in order[1..];
      ExcessZero(queues, order[1..], m);
    }
  }

  /** The services still needed, over all queues, before none is longer than `m`. */
  function Surplus(queues: Queues, m: nat): nat {
    Excess(queues, Ascend(queues.Keys), m)
  }

  lemma SurplusOfService(queues: Queues, m: nat, id: SourceId)
    ensures Surplus(Service(queues, id), m)
         == Surplus(queues, m) - (if id in queues && |queues[id]| > m then 1 else 0)
  {
    if id in queues {
      ExcessOfService(queues, Ascend(queues.Keys), m, id);
    }
  }

  lemma SurplusZero(queues: Queues, m: nat)
    ensures Surplus(queues, m) == 0 <==> BacklogAtMost(queues, m)
  {
    ExcessZero(queues, Ascend(queues.Keys), m);
  }

  lemma {:induction false} SurplusOfSchedule(queues: Queues, schedule: seq<SourceId>, m: nat)
    ensures Surplus(queues, m) <= Surplus(Follow(queues, schedule), m) + |schedule|
  {
    if schedule == [] {
    } else {
      SurplusOfService(queues, m, schedule[0]);
      SurplusOfSchedule(Service(queues, schedule[0]), schedule[1..], m);
    }
  }

  /** Serving a longest queue lowers the surplus unless it is already zero. */
  lemma SurplusOfLongest(queues: Queues, m: nat)
    requires queues.Keys != {}
    ensures var e := Surplus(queues, m);
            Surplus(ServeLongest(queues), m) == if e == 0 then 0 else e - 1
  {
    var c := ChooseByLoad(queues);
    SurplusOfService(queues, m, c);
    if |queues[c]| <= m {
      forall k | k in queues ensures |queues[k]| <= m {
        LoadChoosesLeastLongest(queues, k);
      }
    }
    SurplusZero(queues, m);
  }

  /** Exactly when longest-first brings every queue down to `m`: when it gets that many services. */
  lemma {:induction false} LongestFirstReaches(queues: Queues, k: nat, m: nat)
    requires queues.Keys != {}
    ensures BacklogAtMost(LongestFirst(queues, k), m) <==> Surplus(queues, m) <= k
    decreases k
  {
    if k == 0 {
      SurplusZero(queues, m);
    } else {
      LongestFirstReaches(ServeLongest(queues), k - 1, m);
      SurplusOfLongest(queues, m);
    }
  }

  /** Longest-first optimality: whatever bound an arbitrary schedule meets after some services,
      longest-first meets after as many. */
  lemma {:induction false} LongestFirstOptimal(queues: Queues, schedule: seq<SourceId>, m: nat)
    requires queues.Keys != {}
    requires BacklogAtMost(Follow(queues, schedule), m)
    ensures BacklogAtMost(LongestFirst(queues, |schedule|), m)
  {
    SurplusOfSchedule(queues, schedule, m);
    SurplusZero(Follow(queues, schedule), m);
    LongestFirstReaches(queues, |schedule|, m);
  }
}
