/** Iteration order of a `std::map` keyed by source id, and the round-robin order built on it. */
module OrderedKeys {
  import opened Types

  ghost predicate Ascending(s: seq<SourceId>) {
    forall i, j :: 0 <= i < j < |s| ==> s[i] < s[j]
  }

  lemma {:induction false} FindLeast(keys: set<SourceId>) returns (m: SourceId)
    requires keys != {}
    ensures m in keys && forall k :: k in keys ==> m <= k
    decreases |keys|
  {
    m :| m in keys;
    var rest := keys - {m};
    assert forall k :: k in keys ==> k == m || k in rest;
    if rest == {} {
    } else {
      var l := FindLeast(rest);
      if l < m { m := l; }
    }
  }

  lemma LeastExists(keys: set<SourceId>)
    requires keys != {}
    ensures exists m :: m in keys && forall k :: k in keys ==> m <= k
  {
    var m := FindLeast(keys);
  }

  /** `(*q.begin()).first`. */
  function Least(keys: set<SourceId>): (m: SourceId)
    requires keys != {}
    ensures m in keys && forall k :: k in keys ==> m <= k
  {
    LeastExists(keys);
    var m :| m in keys && forall k :: k in keys ==> m <= k;
    m
  }

  /** The keys in iteration order. */
  function Ascend(keys: set<SourceId>): (r: seq<SourceId>)
    ensures Ascending(r)
    ensures forall k :: k in r <==> k in keys
    ensures |r| == |keys|
    decreases |keys|
  {
    if keys == {} then []
    else
      var m := Least(keys);
      [m] + Ascend(keys - {m})
  }

  /** The round-robin strategy: the key after `current`, wrapping to the first key; the first key
      as well when `current` is not (or no longer) a key. */
  function ChooseByOrder(keys: set<SourceId>, current: SourceId): (next: SourceId)
    requires keys != {}
    ensures next in keys
  {
    var later := set k | k in keys && current < k;
    if current !in keys || later == {} then Least(keys) else Least(later)
  }

  /** Position of a key in iteration order. */
  function Index(keys: set<SourceId>, k: SourceId): (i: nat)
    requires k in keys
    ensures i < |keys| && Ascend(keys)[i] == k
  {
    var i :| 0 <= i < |keys| && Ascend(keys)[i] == k;
    i
  }

  /** How many calls of the round-robin strategy it takes, from `current`, until `target` is returned. */
  function Distance(keys: set<SourceId>, current: SourceId, target: SourceId): (d: nat)
    requires target in keys
    ensures 1 <= d <= |keys|
  {
    var j := Index(keys, target);
    if current !in keys then j + 1
    else
      var i := Index(keys, current);
      if i < j then j - i else j - i + |keys|
  }

  /** An ascending sequence orders its positions as it orders its elements. */
  lemma IndexOrder(keys: set<SourceId>, a: SourceId, b: SourceId)
    requires a in keys && b in keys
    ensures Index(keys, a) < Index(keys, b) <==> a < b
  {
    var r, i, j := Ascend(keys), Index(keys, a), Index(keys, b);
    assert r[i] == a && r[j] == b;
  }

  /** No key lies between two neighbours, and none before the first. */
  lemma NothingBetween(keys: set<SourceId>, a: SourceId, b: SourceId)
    requires a in keys && b in keys && a < b
    requires forall k :: k in keys && a < k ==> b <= k
    ensures Index(keys, b) == Index(keys, a) + 1
  {
    IndexOrder(keys, a, b);
    var k := Ascend(keys)[Index(keys, a) + 1];
    assert k in keys;
    assert Index(keys, k) == Index(keys, a) + 1 by { IndexAt(keys, Index(keys, a) + 1); }
    IndexOrder(keys, a, k);
    IndexOrder(keys, k, b);
  }

  lemma IndexAt(keys: set<SourceId>, i: nat)
    requires i < |keys|
    ensures Ascend(keys)[i] in keys && Index(keys, Ascend(keys)[i]) == i
  {
    var r := Ascend(keys);
    assert r[i] in keys;
    var j := Index(keys, r[i]);
    assert r[j] == r[i];
  }

  lemma LeastIsFirst(keys: set<SourceId>)
    requires keys != {}
    ensures Index(keys, Least(keys)) == 0
  {
    IndexAt(keys, 0);
    IndexOrder(keys, Ascend(keys)[0], Least(keys));
  }

  lemma GreatestIsLast(keys: set<SourceId>, a: SourceId)
    requires a in keys && forall k :: k in keys ==> k <= a
    ensures Index(keys, a) == |keys| - 1
  {
    IndexAt(keys, |keys| - 1);
    IndexOrder(keys, a, Ascend(keys)[|keys| - 1]);
  }

  lemma ChooseAtIndex(keys: set<SourceId>, current: SourceId)
    requires keys != {}
    ensures var next := ChooseByOrder(keys, current);
            if current in keys && Index(keys, current) + 1 < |keys|
            then Index(keys, next) == Index(keys, current) + 1
            else Index(keys, next) == 0
  {
    LeastIsFirst(keys);
    var later := set k | k in keys && current < k;
    if current in keys {
      if later == {} {
        assert forall k :: k in keys && current < k ==> k in later;
        GreatestIsLast(keys, current);
      } else {
        var next := Least(later);
        assert forall k :: k in keys && current < k ==> k in later;
        NothingBetween(keys, current, next);
      }
    }
  }

  /** The least key above the current one or, when there is none or the current id is no key, the least key. */
  lemma ChoosesLeastAbove(keys: set<SourceId>, current: SourceId, k: SourceId)
    requires k in keys
    ensures var next := ChooseByOrder(keys, current);
            && next in keys
            && (current in keys && current < k ==> current < next <= k)
            && (current !in keys || (forall j :: j in keys ==> j <= current) ==> next <= k)
  {
    hide Index, Ascend, ChooseByOrder;
    var next := ChooseByOrder(keys, current);
    ChooseAtIndex(keys, current);
    IndexOrder(keys, k, next);
    if current in keys {
      IndexOrder(keys, current, k);
      IndexOrder(keys, current, next);
      if forall j :: j in keys ==> j <= current {
        GreatestIsLast(keys, current);
      }
    }
  }

  lemma ChooseNext(keys: set<SourceId>, a: SourceId, b: SourceId)
    requires a in keys && b in keys && a < b && forall k :: k in keys && a < k ==> b <= k
    ensures ChooseByOrder(keys, a) == b
  {
    var later := set k | k in keys && a < k;
    assert b in later && forall k :: k in later ==> b <= k;
    assert ChooseByOrder(keys, a) == Least(later);
  }

  /** Every call brings the target one call closer; the call that returns it starts a full new lap. */
  lemma ChooseApproaches(keys: set<SourceId>, current: SourceId, target: SourceId)
    requires target in keys
    ensures var next := ChooseByOrder(keys, current);
            && (next == target <==> Distance(keys, current, target) == 1)
            && (next == target ==> Distance(keys, next, target) == |keys|)
            && (next != target ==> Distance(keys, next, target) == Distance(keys, current, target) - 1)
  {
    hide Index, Ascend, ChooseByOrder;
    ChooseAtIndex(keys, current);
    SameIndex(keys, ChooseByOrder(keys, current), target);
  }

  lemma SameIndex(keys: set<SourceId>, a: SourceId, b: SourceId)
    requires a in keys && b in keys
    ensures a == b <==> Index(keys, a) == Index(keys, b)
  {
    var r, i := Ascend(keys), Index(keys, a);
    assert r[i] == a && r[Index(keys, b)] == b;
  }

  /** The keys returned by `calls` consecutive calls of the round-robin strategy. */
  function Rounds(keys: set<SourceId>, current: SourceId, calls: nat): (r: seq<SourceId>)
    requires keys != {}
    ensures |r| == calls
    decreases calls
  {
    if calls == 0 then []
    else
      var next := ChooseByOrder(keys, current);
      [next] + Rounds(keys, next, calls - 1)
  }

  lemma UnfoldRound(keys: set<SourceId>, current: SourceId, calls: nat, j: nat)
    requires keys != {} && j < calls
    ensures var next := ChooseByOrder(keys, current);
            Rounds(keys, current, calls)[j] == if j == 0 then next else Rounds(keys, next, calls - 1)[j - 1]
  {
  }

  /** Among the first choices, call number `j` returns the target exactly when its distance says so. */
  predicate CoversAt(keys: set<SourceId>, current: SourceId, calls: nat, j: nat, target: SourceId)
    requires target in keys && j < calls
  {
    Rounds(keys, current, calls)[j] == target <==> j == Distance(keys, current, target) - 1
  }

  lemma CoversFirst(keys: set<SourceId>, current: SourceId, calls: nat, target: SourceId)
    requires target in keys && 0 < calls
    ensures CoversAt(keys, current, calls, 0, target)
  {
    hide Distance, ChooseByOrder;
    ChooseApproaches(keys, current, target);
    UnfoldRound(keys, current, calls, 0);
  }

  lemma CoversNext(keys: set<SourceId>, current: SourceId, calls: nat, j: nat, target: SourceId)
    requires target in keys && 0 < j < calls && j < |keys|
    requires CoversAt(keys, ChooseByOrder(keys, current), calls - 1, j - 1, target)
    ensures CoversAt(keys, current, calls, j, target)
  {
    hide Distance, ChooseByOrder;
    ChooseApproaches(keys, current, target);
    UnfoldRound(keys, current, calls, j);
  }

  lemma {:induction false} CoversFromAnywhere(keys: set<SourceId>, calls: nat, j: nat, target: SourceId)
    requires target in keys && j < calls && j < |keys|
    ensures forall current :: CoversAt(keys, current, calls, j, target)
    decreases j
  {
    hide CoversAt, ChooseByOrder;
    if j == 0 {
      forall current ensures CoversAt(keys, current, calls, j, target) {
        CoversFirst(keys, current, calls, target);
      }
    } else {
      CoversFromAnywhere(keys, calls - 1, j - 1, target);
      forall current ensures CoversAt(keys, current, calls, j, target) {
        CoversNext(keys, current, calls, j, target);
      }
    }
  }

  /** Round-robin coverage: |keys| consecutive calls return every key exactly once, whatever the
      current id is and whether or not it is a key. */
  lemma RoundsCoverOnce(keys: set<SourceId>, current: SourceId, calls: nat, j: nat, target: SourceId)
    requires target in keys && j < calls && j < |keys|
    ensures Rounds(keys, current, calls)[j] == target <==> j == Distance(keys, current, target) - 1
  {
    CoversFromAnywhere(keys, calls, j, target);
    assert CoversAt(keys, current, calls, j, target);
  }

  /** With the key set unchanged the sequence of choices has period |keys|. */
  lemma {:induction false} RoundsPeriodic(keys: set<SourceId>, current: SourceId, calls: nat, j: nat)
    requires keys != {} && j + |keys| < calls
    ensures Rounds(keys, current, calls)[j + |keys|] == Rounds(keys, current, calls)[j]
    decreases calls
  {
    var next := ChooseByOrder(keys, current);
    var n := |keys|;
    UnfoldRound(keys, current, calls, j + n);
    UnfoldRound(keys, current, calls, j);
    if j > 0 {
      RoundsPeriodic(keys, next, calls - 1, j - 1);
    } else {
      FullLap(keys, next, calls - 1);
    }
  }

  lemma FullLap(keys: set<SourceId>, current: SourceId, calls: nat)
    requires current in keys && |keys| <= calls
    ensures Rounds(keys, current, calls)[|keys| - 1] == current
  {
    RoundsCoverOnce(keys, current, calls, |keys| - 1, current);
    assert Distance(keys, current, current) == |keys|;
  }

  // ----- the distance while keys come and go -----

  function Below(keys: set<SourceId>, x: SourceId): set<SourceId> { set k | k in keys && k < x }

  lemma NextBelow(keys: set<SourceId>, a: SourceId, b: SourceId)
    requires a in keys && b in keys && Index(keys, b) == Index(keys, a) + 1
    ensures Below(keys, b) == Below(keys, a) + {a} && a !in Below(keys, a)
  {
    hide Index, Ascend;
    forall k | k in keys ensures k < b <==> k < a || k == a {
      IndexOrder(keys, k, a);
      IndexOrder(keys, k, b);
      SameIndex(keys, k, a);
    }
  }

  lemma NoneBelow(keys: set<SourceId>, x: SourceId)
    requires x in keys && Index(keys, x) == 0
    ensures Below(keys, x) == {}
  {
    hide Index, Ascend;
    forall k | k in keys ensures k >= x {
      IndexOrder(keys, k, x);
    }
  }

  /** The position of a key is the number of lesser keys. */
  lemma {:induction false} IndexCounts(keys: set<SourceId>, x: SourceId)
    requires x in keys
    ensures Index(keys, x) == |Below(keys, x)|
    decreases Index(keys, x)
  {
    var i := Index(keys, x);
    if i == 0 {
      NoneBelow(keys, x);
    } else {
      var before := Ascend(keys)[i - 1];
      IndexAt(keys, i - 1);
      hide Index, Ascend;
      IndexCounts(keys, before);
      NextBelow(keys, before, x);
    }
  }

  /** One more key moves the greater keys up by one position. */
  lemma IndexWith(keys: set<SourceId>, k: SourceId, x: SourceId)
    requires x in keys && k !in keys
    ensures Index(keys + {k}, x) == Index(keys, x) + if k < x then 1 else 0
  {
    hide Index, Ascend;
    IndexCounts(keys, x);
    IndexCounts(keys + {k}, x);
    if k < x {
      assert Below(keys + {k}, x) == Below(keys, x) + {k};
    } else {
      assert Below(keys + {k}, x) == Below(keys, x);
    }
  }

  /** One more key, other than the current id, delays any other key by one call at most, and advances none. */
  lemma DistanceWith(keys: set<SourceId>, k: SourceId, current: SourceId, target: SourceId)
    requires target in keys && k !in keys && k != current
    ensures Distance(keys, current, target) <= Distance(keys + {k}, current, target)
                                            <= Distance(keys, current, target) + 1
  {
    hide Index, Ascend;
    IndexWith(keys, k, target);
    if current in keys {
      IndexWith(keys, k, current);
      IndexOrder(keys, current, target);
    }
  }
}
