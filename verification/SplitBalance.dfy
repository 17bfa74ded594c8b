/** Balancing sets over files: each set, largest first, goes to the first of the least loaded files. */
module SplitBalance {
  import opened Common

  // ---------- Loads ----------

  /** The sum of `w[i]` over all `i` that are assigned to `k`. */
  function Load(w: seq<nat>, files: seq<nat>, k: nat): nat
    requires |w| == |files|
  {
    if w == [] then 0 else
    var n := |w| - 1;
    Load(w[..n], files[..n], k) + if files[n] == k then w[n] else 0
  }

  predicate Assignment(files: seq<nat>, n: nat, m: nat) {
    |files| == n && forall i | 0 <= i < n :: files[i] < m
  }

  function Loads(w: seq<nat>, files: seq<nat>, m: nat): (loads: seq<nat>)
    requires |w| == |files|
    ensures |loads| == m && forall k | 0 <= k < m :: loads[k] == Load(w, files, k)
  {
    seq(m, k requires 0 <= k => Load(w, files, k))
  }

  function Total(w: seq<nat>): nat {
    if w == [] then 0 else Total(w[..|w| - 1]) + w[|w| - 1]
  }

  lemma {:induction false} TotalSnoc(w: seq<nat>, x: nat)
    ensures Total(w + [x]) == Total(w) + x
  {
    assert (w + [x])[..|w|] == w;
  }

  lemma LoadSnoc(w: seq<nat>, files: seq<nat>, x: nat, a: nat, k: nat)
    requires |w| == |files|
    ensures Load(w + [x], files + [a], k) == Load(w, files, k) + if a == k then x else 0
  {
    assert (w + [x])[..|w|] == w && (files + [a])[..|w|] == files;
  }

  /** One element of a sequence grows. */
  lemma {:induction false} TotalUpdate(s: seq<nat>, k: nat, x: nat)
    requires k < |s|
    ensures Total(s[k := s[k] + x]) == Total(s) + x
  {
    var n := |s| - 1;
    var t := s[k := s[k] + x];
    if k == n {
      assert t[..n] == s[..n];
    } else {
      TotalUpdate(s[..n], k, x);
      assert t[..n] == s[..n][k := s[k] + x];
    }
  }

  /** However the work is assigned, the loads add up to all of it. */
  lemma {:induction false} LoadsAddUp(w: seq<nat>, files: seq<nat>, m: nat)
    requires Assignment(files, |w|, m)
    ensures Total(Loads(w, files, m)) == Total(w)
  {
    if w == [] {
      AllZero(Loads(w, files, m));
    } else {
      var n := |w| - 1;
      var before := Loads(w[..n], files[..n], m);
      LoadsAddUp(w[..n], files[..n], m);
      TotalUpdate(before, files[n], w[n]);
      assert Loads(w, files, m) == before[files[n] := before[files[n]] + w[n]];
    }
  }

  predicate AtLeast(s: seq<nat>, t: nat) {
    forall i | 0 <= i < |s| :: t <= s[i]
  }

  predicate AtMost(s: seq<nat>, t: nat) {
    forall i | 0 <= i < |s| :: s[i] <= t
  }

  lemma {:induction false} AllZero(s: seq<nat>)
    requires AtMost(s, 0)
    ensures Total(s) == 0
  {
    if s != [] {
      AllZero(s[..|s| - 1]);
    }
  }

  lemma {:induction false} TotalAtLeast(s: seq<nat>, t: nat)
    requires AtLeast(s, t)
    ensures t * |s| <= Total(s)
  {
    if s != [] {
      TotalAtLeast(s[..|s| - 1], t);
      assert t * |s| == t * (|s| - 1) + t;
    }
  }

  lemma {:induction false} TotalAtMost(s: seq<nat>, t: nat)
    requires AtMost(s, t)
    ensures Total(s) <= t * |s|
  {
    if s != [] {
      TotalAtMost(s[..|s| - 1], t);
      assert t * |s| == t * (|s| - 1) + t;
    }
  }

  lemma {:induction false} LoadGrows(w: seq<nat>, files: seq<nat>, j: nat, k: nat)
    requires |w| == |files| && j <= |w|
    ensures Load(w[..j], files[..j], k) <= Load(w, files, k)
    ensures j < |w| && files[j] == k ==> Load(w[..j], files[..j], k) + w[j] <= Load(w, files, k)
  {
    if j == |w| {
      assert w[..j] == w && files[..j] == files;
    } else {
      var n := |w| - 1;
      LoadGrows(w[..n], files[..n], j, k);
      assert w[..n][..j] == w[..j] && files[..n][..j] == files[..j];
    }
  }

  lemma {:induction false} TotalGrows(w: seq<nat>, j: nat)
    requires j <= |w|
    ensures Total(w[..j]) <= Total(w)
  {
    if j == |w| {
      assert w[..j] == w;
    } else {
      TotalGrows(w[..|w| - 1], j);
      assert w[..|w| - 1][..j] == w[..j];
    }
  }

  // ---------- The greedy assignment ----------

  predicate IsFirstMin(s: seq<nat>, k: nat) {
    && k < |s|
    && (forall i | 0 <= i < |s| :: s[k] <= s[i])
    && (forall i | 0 <= i < k :: s[k] < s[i])
  }

  /** array_search(min(...)): the first file whose size is the smallest. */
  function FirstMin(s: seq<nat>): (k: nat)
    requires s != []
    ensures IsFirstMin(s, k)
  {
    if |s| == 1 then 0 else
    var k := FirstMin(s[..|s| - 1]);
    if s[|s| - 1] < s[k] then |s| - 1 else k
  }

  lemma FirstMinUnique(s: seq<nat>, k: nat)
    requires IsFirstMin(s, k)
    ensures s != [] && k < |s| && k == FirstMin(s)
  {
  }

  function Greedy(sizes: seq<nat>, m: nat): (files: seq<nat>)
    requires 0 < m
    ensures Assignment(files, |sizes|, m)
  {
    if sizes == [] then [] else
    var n := |sizes| - 1;
    var before := Greedy(sizes[..n], m);
    before + [FirstMin(Loads(sizes[..n], before, m))]
  }

  lemma GreedyNext(sizes: seq<nat>, x: nat, m: nat, k: nat)
    requires 0 < m && IsFirstMin(Loads(sizes, Greedy(sizes, m), m), k)
    ensures Greedy(sizes + [x], m) == Greedy(sizes, m) + [k]
    ensures var loads := Loads(sizes, Greedy(sizes, m), m);
            Loads(sizes + [x], Greedy(sizes + [x], m), m) == loads[k := loads[k] + x]
  {
    hide Greedy, Load, FirstMin, IsFirstMin;
    GreedySnoc(sizes, x, m);
    FirstMinUnique(Loads(sizes, Greedy(sizes, m), m), k);
    LoadsSnoc(sizes, Greedy(sizes, m), x, k, m);
  }

  lemma GreedySnoc(sizes: seq<nat>, x: nat, m: nat)
    requires 0 < m
    ensures Greedy(sizes + [x], m) == Greedy(sizes, m) + [FirstMin(Loads(sizes, Greedy(sizes, m), m))]
  {
    assert (sizes + [x])[..|sizes|] == sizes;
  }

  lemma LoadsSnoc(w: seq<nat>, files: seq<nat>, x: nat, k: nat, m: nat)
    requires |w| == |files| && k < m
    ensures Loads(w + [x], files + [k], m) == Loads(w, files, m)[k := Load(w, files, k) + x]
  {
    hide Load;
    forall i | 0 <= i < m
      ensures Loads(w + [x], files + [k], m)[i] == Loads(w, files, m)[k := Load(w, files, k) + x][i]
    {
      LoadSnoc(w, files, x, k, i);
    }
  }

  lemma {:induction false} GreedyPrefix(sizes: seq<nat>, m: nat, j: nat)
    requires 0 < m && j <= |sizes|
    ensures Greedy(sizes[..j], m) == Greedy(sizes, m)[..j]
  {
    if j == |sizes| {
      assert sizes[..j] == sizes;
    } else {
      var n := |sizes| - 1;
      GreedyPrefix(sizes[..n], m, j);
      assert sizes[..n][..j] == sizes[..j];
      assert Greedy(sizes, m)[..n] == Greedy(sizes[..n], m);
      assert Greedy(sizes, m)[..j] == Greedy(sizes, m)[..n][..j];
    }
  }

  /** The last set of a non-empty file was put there when no file had less. */
  lemma {:induction false} LastSet(sizes: seq<nat>, m: nat, k: nat) returns (j: nat)
    requires 0 < m && k < m && Load(sizes, Greedy(sizes, m), k) > 0
    ensures j < |sizes|
    ensures var before := Greedy(sizes[..j], m);
            && Load(sizes, Greedy(sizes, m), k) == Load(sizes[..j], before, k) + sizes[j]
            && forall i | 0 <= i < m :: Load(sizes[..j], before, k) <= Load(sizes[..j], before, i)
  {
    var n := |sizes| - 1;
    var before := Greedy(sizes[..n], m);
    assert Greedy(sizes, m)[..n] == before;
    if Greedy(sizes, m)[n] == k {
      j := n;
      var loads := Loads(sizes[..n], before, m);
      assert IsFirstMin(loads, k);
      forall i | 0 <= i < m
        ensures Load(sizes[..n], before, k) <= Load(sizes[..n], before, i)
      {
        assert loads[k] <= loads[i];
      }
    } else {
      j := LastSet(sizes[..n], m, k);
      assert sizes[..n][..j] == sizes[..j];
    }
  }

  // ---------- Bounds ----------

  predicate Descending(sizes: seq<nat>) {
    forall i, j | 0 <= i < j < |sizes| :: sizes[i] >= sizes[j]
  }

  /** When no file had less than file `k`, all of them had as much, and the next set came on top. */
  lemma BeforeLast(sizes: seq<nat>, m: nat, k: nat, j: nat)
    requires 0 < m && k < m && j < |sizes|
    requires forall i | 0 <= i < m ::
               Load(sizes[..j], Greedy(sizes[..j], m), k) <= Load(sizes[..j], Greedy(sizes[..j], m), i)
    ensures Load(sizes[..j], Greedy(sizes[..j], m), k) * m + sizes[j] <= Total(sizes)
  {
    var before := Greedy(sizes[..j], m);
    LoadsAddUp(sizes[..j], before, m);
    TotalAtLeast(Loads(sizes[..j], before, m), Load(sizes[..j], before, k));
    TotalGrows(sizes, j + 1);
    assert sizes[..j + 1] == sizes[..j] + [sizes[j]];
    TotalSnoc(sizes[..j], sizes[j]);
  }

  lemma ShareOf(m: nat, load: nat, t: nat, s: nat, largest: nat, total: nat)
    requires 0 < m && load == t + s && s <= largest && t * m + s <= total
    ensures m * load <= total + (m - 1) * largest
  {
    assert m * (t + s) == t * m + m * s;
    assert m * s == s + (m - 1) * s;
    Scaled(s, largest, m - 1);
  }

  lemma NoShare(m: nat, largest: nat, total: nat)
    requires 0 < m
    ensures m * 0 <= total + (m - 1) * largest
  {
  }

  lemma Scaled(x: nat, y: nat, c: nat)
    requires x <= y
    ensures c * x <= c * y
  {
  }

  /** No file is larger than its fair share and a bit less than one set. */
  lemma FairShare(sizes: seq<nat>, m: nat, k: nat, largest: nat)
    requires 0 < m && k < m && AtMost(sizes, largest)
    ensures m * Load(sizes, Greedy(sizes, m), k) <= Total(sizes) + (m - 1) * largest
  {
    hide Greedy, Load, Total;
    var load := Load(sizes, Greedy(sizes, m), k);
    if load > 0 {
      var j := LastSet(sizes, m, k);
      BeforeLast(sizes, m, k, j);
      ShareOf(m, load, Load(sizes[..j], Greedy(sizes[..j], m), k), sizes[j], largest, Total(sizes));
    } else {
      NoShare(m, largest, Total(sizes));
    }
  }

  /** Two files never differ by more than the largest set. */
  lemma Spread(sizes: seq<nat>, m: nat, k: nat, i: nat, largest: nat)
    requires 0 < m && k < m && i < m && AtMost(sizes, largest)
    ensures Load(sizes, Greedy(sizes, m), k) <= Load(sizes, Greedy(sizes, m), i) + largest
  {
    if Load(sizes, Greedy(sizes, m), k) > 0 {
      var j := LastSet(sizes, m, k);
      GreedyPrefix(sizes, m, j);
      LoadGrows(sizes, Greedy(sizes, m), j, i);
    }
  }

  // ---------- Against the best assignment ----------

  /** A set of size `x` leaves no room for one of size `s` in a file of size `best`. */
  function Weight(x: nat, s: nat, best: nat): nat {
    if x + s > best then 2 else 1
  }

  function Weights(sizes: seq<nat>, s: nat, best: nat): (w: seq<nat>)
    ensures |w| == |sizes| && forall i | 0 <= i < |sizes| :: w[i] == Weight(sizes[i], s, best)
  {
    seq(|sizes|, i requires 0 <= i < |sizes| => Weight(sizes[i], s, best))
  }

  /** A file of weight below 2 has room for one more set of size `s`. */
  lemma {:induction false} LightFile(sizes: seq<nat>, files: seq<nat>, k: nat, s: nat, best: nat)
    requires |sizes| == |files| && s <= best
    ensures var w := Load(Weights(sizes, s, best), files, k);
            var load := Load(sizes, files, k);
            (w == 0 ==> load == 0) && (w <= 1 ==> load + s <= best)
  {
    if sizes != [] {
      var n := |sizes| - 1;
      LightFile(sizes[..n], files[..n], k, s, best);
      assert Weights(sizes, s, best)[..n] == Weights(sizes[..n], s, best);
    }
  }

  /** A file of weight above 2 is larger than `best`, when three sets of size `s` are. */
  lemma {:induction false} HeavyFile(sizes: seq<nat>, files: seq<nat>, k: nat, s: nat, best: nat)
    requires |sizes| == |files| && 3 * s > best && AtLeast(sizes, s)
    ensures var w := Load(Weights(sizes, s, best), files, k);
            var load := Load(sizes, files, k);
            (w >= 1 ==> load >= s) && (w >= 2 ==> load + s > best) && (w >= 3 ==> load > best)
  {
    if sizes != [] {
      var n := |sizes| - 1;
      HeavyFile(sizes[..n], files[..n], k, s, best);
      assert Weights(sizes, s, best)[..n] == Weights(sizes[..n], s, best);
    }
  }

  /** When the sets are that large, the greedy assignment makes room for set `j` within the best size. */
  lemma LargeSetsFit(sizes: seq<nat>, m: nat, j: nat, k: nat, other: seq<nat>, best: nat)
    requires 0 < m && k < m && j < |sizes| && Descending(sizes) && 3 * sizes[j] > best
    requires Assignment(other, |sizes|, m) && forall i | 0 <= i < m :: Load(sizes, other, i) <= best
    requires forall i | 0 <= i < m ::
               Load(sizes[..j], Greedy(sizes[..j], m), k) <= Load(sizes[..j], Greedy(sizes[..j], m), i)
    ensures Load(sizes[..j], Greedy(sizes[..j], m), k) + sizes[j] <= best
  {
    var s := sizes[j];
    var mine := sizes[..j];
    LoadGrows(sizes, other, j, other[j]);
    hide Greedy, Load, Total, Descending;
    if Load(mine, Greedy(mine, m), k) + s > best {
      AllHeavy(mine, Greedy(mine, m), m, s, best);
      NoneTooHeavy(sizes, m, j, other, best);
      assert sizes[..j + 1] == mine + [s];
      assert Weights(mine + [s], s, best) == Weights(mine, s, best) + [Weight(s, s, best)];
      TotalSnoc(Weights(mine, s, best), Weight(s, s, best));
      assert false;
    }
  }

  /** When no file has room for one more set of size `s`, the files weigh at least 2 each. */
  lemma AllHeavy(sizes: seq<nat>, files: seq<nat>, m: nat, s: nat, best: nat)
    requires Assignment(files, |sizes|, m) && s <= best
    requires forall i | 0 <= i < m :: Load(sizes, files, i) + s > best
    ensures 2 * m <= Total(Weights(sizes, s, best))
  {
    hide Load, Total;
    var w := Weights(sizes, s, best);
    forall i | 0 <= i < m
      ensures Load(w, files, i) >= 2
    {
      LightFile(sizes, files, i, s, best);
    }
    TotalAtLeast(Loads(w, files, m), 2);
    LoadsAddUp(w, files, m);
  }

  lemma LargestFirst(sizes: seq<nat>, j: nat)
    requires j < |sizes| && Descending(sizes)
    ensures AtLeast(sizes[..j + 1], sizes[j])
  {
  }

  /** In the other assignment the first sets weigh at most 2 in each file. */
  lemma NoneTooHeavy(sizes: seq<nat>, m: nat, j: nat, other: seq<nat>, best: nat)
    requires j < |sizes| && Descending(sizes) && 3 * sizes[j] > best
    requires Assignment(other, |sizes|, m) && forall i | 0 <= i < m :: Load(sizes, other, i) <= best
    ensures Total(Weights(sizes[..j + 1], sizes[j], best)) <= 2 * m
  {
    hide Load, Total, Descending, AtLeast;
    var s, first, files := sizes[j], sizes[..j + 1], other[..j + 1];
    var v := Weights(first, s, best);
    LargestFirst(sizes, j);
    forall i | 0 <= i < m
      ensures Load(v, files, i) <= 2
    {
      HeavyFile(first, files, i, s, best);
      LoadGrows(sizes, other, j + 1, i);
    }
    TotalAtMost(Loads(v, files, m), 2);
    LoadsAddUp(v, files, m);
  }

  /**
   The largest file is at most 4/3 - 1/(3m) times as large as the largest file of any other assignment of the same
   sets to m files, because the sets are assigned from the largest to the smallest.
   */
  lemma NearlyBest(sizes: seq<nat>, m: nat, k: nat, other: seq<nat>, best: nat)
    requires 0 < m && k < m && Descending(sizes)
    requires Assignment(other, |sizes|, m) && forall i | 0 <= i < m :: Load(sizes, other, i) <= best
    ensures 3 * m * Load(sizes, Greedy(sizes, m), k) <= (4 * m - 1) * best
  {
    hide Greedy, Load, Total, Descending;
    var load := Load(sizes, Greedy(sizes, m), k);
    if load > 0 {
      var j := LastSet(sizes, m, k);
      if 3 * sizes[j] > best {
        LargeSetsFit(sizes, m, j, k, other, best);
        WithinBest(m, load, best);
      } else {
        BeforeLast(sizes, m, k, j);
        AllWithinBest(sizes, other, m, best);
        SmallLastSet(m, load, Load(sizes[..j], Greedy(sizes[..j], m), k), sizes[j], best);
      }
    } else {
      WithinBest(m, 0, best);
    }
  }

  lemma WithinBest(m: nat, load: nat, best: nat)
    requires 0 < m && load <= best
    ensures 3 * m * load <= (4 * m - 1) * best
  {
    Scaled(load, best, 3 * m);
    assert (4 * m - 1) * best == 3 * m * best + (m - 1) * best;
  }

  lemma AllWithinBest(sizes: seq<nat>, files: seq<nat>, m: nat, best: nat)
    requires Assignment(files, |sizes|, m) && forall i | 0 <= i < m :: Load(sizes, files, i) <= best
    ensures Total(sizes) <= best * m
  {
    hide Load, Total;
    LoadsAddUp(sizes, files, m);
    TotalAtMost(Loads(sizes, files, m), best);
  }

  lemma SmallLastSet(m: nat, load: nat, t: nat, s: nat, best: nat)
    requires 0 < m && load == t + s && t * m + s <= best * m && 3 * s <= best
    ensures 3 * m * load <= (4 * m - 1) * best
  {
    var x, y, z := t * m, s * m, best * m;
    Scaled(3 * s, best, m - 1);
    Thrice(m, t, s);
    OneLess(m, 3 * s);
    OneLess(m, best);
    OneLess(4 * m, best);
  }

  lemma Thrice(m: nat, t: nat, s: nat)
    ensures 3 * m * (t + s) == 3 * (t * m) + 3 * (s * m) && (3 * s) * m == 3 * (s * m)
  {
  }

  lemma OneLess(c: nat, x: nat)
    requires 0 < c
    ensures (c - 1) * x == x * c - x && x * (4 * c) == 4 * (x * c)
  {
  }

  /** The bound cannot be lowered: with two files, sets of 3, 3, 2, 2 and 2 reach it. */
  lemma BoundIsReached()
    ensures var sizes: seq<nat> := [3, 3, 2, 2, 2];
            && Descending(sizes) && Loads(sizes, Greedy(sizes, 2), 2) == [7, 5]
            && Loads(sizes, [0, 0, 1, 1, 1], 2) == [6, 6]
            && 3 * 2 * 7 == (4 * 2 - 1) * 6
  {
    hide Greedy, Load;
    ByHand();
    FirstThree();
    GreedyNext([3, 3, 2], 2, 2, 1);
    assert [3, 3, 2] + [2] == [3, 3, 2, 2];
    GreedyNext([3, 3, 2, 2], 2, 2, 0);
    assert [3, 3, 2, 2] + [2] == [3, 3, 2, 2, 2];
  }

  lemma FirstThree()
    ensures Loads([3, 3, 2], Greedy([3, 3, 2], 2), 2) == [5, 3]
  {
    hide Greedy, Load;
    NothingYet();
    GreedyNext([], 3, 2, 0);
    assert [] + [3] == [3];
    GreedyNext([3], 3, 2, 1);
    assert [3] + [3] == [3, 3];
    GreedyNext([3, 3], 2, 2, 0);
    assert [3, 3] + [2] == [3, 3, 2];
  }

  lemma NothingYet()
    ensures Loads([], Greedy([], 2), 2) == [0, 0]
  {
  }

  lemma ByHand()
    ensures Loads([3, 3, 2, 2, 2], [0, 0, 1, 1, 1], 2) == [6, 6]
  {
    forall k: nat | k < 2
      ensures Load([3, 3, 2, 2, 2], [0, 0, 1, 1, 1], k) == 6
    {
      ThreesAndTwos(k);
      hide Load;
      LoadSnoc([3, 3, 2], [0, 0, 1], 2, 1, k);
      assert [3, 3, 2] + [2] == [3, 3, 2, 2] && [0, 0, 1] + [1] == [0, 0, 1, 1];
      LoadSnoc([3, 3, 2, 2], [0, 0, 1, 1], 2, 1, k);
      assert [3, 3, 2, 2] + [2] == [3, 3, 2, 2, 2] && [0, 0, 1, 1] + [1] == [0, 0, 1, 1, 1];
    }
  }

  lemma ThreesAndTwos(k: nat)
    ensures Load([3, 3, 2], [0, 0, 1], k) == if k == 0 then 6 else if k == 1 then 2 else 0
  {
    assert Load([], [], k) == 0;
    hide Load;
    LoadSnoc([], [], 3, 0, k);
    assert [] + [3] == [3] && [] + [0] == [0];
    LoadSnoc([3], [0], 3, 0, k);
    assert [3] + [3] == [3, 3] && [0] + [0] == [0, 0];
    LoadSnoc([3, 3], [0, 0], 2, 1, k);
    assert [3, 3] + [2] == [3, 3, 2] && [0, 0] + [1] == [0, 0, 1];
  }
}
