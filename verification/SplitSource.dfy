/**
 Splitting a source file: functions that mention a common name stay together, the resulting sets are balanced over the
 new files. The function texts and the names found in each of them are inputs.
 */
module SplitSource {
  import opened Common
  import opened DisjointSet
  import opened SplitBalance

  type Name = string

  // ---------- Which functions belong together ----------

  /** Loading and storing a log event is the same dependency. */
  function Rename(name: Name): Name {
    if name == "parse" || name == "store" then "LogEvent" else name
  }

  predicate Mentions(found: seq<seq<Name>>, i: nat, n: Name) {
    i < |found| && exists a | 0 <= a < |found[i]| :: Rename(found[i][a]) == n
  }

  ghost predicate Share(found: seq<seq<Name>>, i: nat, j: nat) {
    exists n :: Mentions(found, i, n) && Mentions(found, j, n)
  }

  /** A chain of functions, each sharing a name with the next. */
  ghost predicate Chain(found: seq<seq<Name>>, path: seq<nat>, i: nat, j: nat) {
    && path != [] && path[0] == i && path[|path| - 1] == j
    && (forall k | 0 <= k < |path| :: path[k] < |found|)
    && (forall k | 0 < k < |path| :: Share(found, path[k - 1], path[k]))
  }

  ghost predicate Connected(found: seq<seq<Name>>, i: nat, j: nat) {
    exists path :: Chain(found, path, i, j)
  }

  lemma ConnectedToItself(found: seq<seq<Name>>, i: nat)
    requires i < |found|
    ensures Connected(found, i, i)
  {
    assert Chain(found, [i], i, i);
  }

  /** A chain is extended by a function that shares a name with its last one. */
  lemma OneMore(found: seq<seq<Name>>, i: nat, j: nat, k: nat)
    requires Connected(found, i, j) && Share(found, j, k) && k < |found|
    ensures Connected(found, i, k)
  {
    var path :| Chain(found, path, i, j);
    var longer := path + [k];
    forall n | 0 < n < |longer|
      ensures Share(found, longer[n - 1], longer[n])
    {
      if n < |path| {
        assert Share(found, path[n - 1], path[n]);
      }
    }
    assert Chain(found, longer, i, k);
  }

  lemma {:induction false} Joined(found: seq<seq<Name>>, i: nat, j: nat, path: seq<nat>, k: nat)
    requires Connected(found, i, j) && Chain(found, path, j, k)
    ensures Connected(found, i, k)
    decreases |path|
  {
    if |path| > 1 {
      var before := path[..|path| - 1];
      forall n | 0 < n < |before|
        ensures Share(found, before[n - 1], before[n])
      {
        assert Share(found, path[n - 1], path[n]);
      }
      Joined(found, i, j, before, path[|path| - 2]);
      assert Share(found, path[|path| - 2], path[|path| - 1]);
      OneMore(found, i, path[|path| - 2], k);
    }
  }

  lemma {:induction false} Backwards(found: seq<seq<Name>>, path: seq<nat>, i: nat, j: nat)
    requires Chain(found, path, i, j)
    ensures Connected(found, j, i)
    decreases |path|
  {
    ConnectedToItself(found, j);
    if |path| > 1 {
      var rest := path[1..];
      forall n | 0 < n < |rest|
        ensures Share(found, rest[n - 1], rest[n])
      {
        assert Share(found, path[n], path[n + 1]);
      }
      Backwards(found, rest, path[1], j);
      assert Share(found, path[0], path[1]);
      OneMore(found, j, path[1], i);
    }
  }

  lemma ConnectedBothWays(found: seq<seq<Name>>, i: nat, j: nat, k: nat)
    requires Connected(found, i, j)
    ensures Connected(found, j, i)
    ensures Connected(found, j, k) ==> Connected(found, i, k)
  {
    var path :| Chain(found, path, i, j);
    Backwards(found, path, i, j);
    if Connected(found, j, k) {
      var more :| Chain(found, more, j, k);
      Joined(found, i, j, more, k);
    }
  }

  // ---------- Grouping ----------

  /** What is in the same set is connected. */
  ghost predicate Sound(found: seq<seq<Name>>, f: Forest) {
    |f.rep| == |found| && forall a, b | Together(f, a, b) :: Connected(found, a, b)
  }

  /** The ids collected for a name are those of the functions that mention it. */
  ghost predicate Collected(found: seq<seq<Name>>, names: seq<Name>, deps: map<Name, seq<nat>>) {
    && (forall n :: n in names <==> n in deps)
    && (forall n | n in deps :: deps[n] != [] && forall i | i in deps[n] :: Mentions(found, i, n))
    && (forall i, n | Mentions(found, i, n) :: n in deps && i in deps[n])
  }

  /** $deps and $parents. */
  method CollectDeps(found: seq<seq<Name>>) returns (names: seq<Name>, deps: map<Name, seq<nat>>, parents: array<nat>)
    ensures fresh(parents) && parents.Length == |found| && forall i | 0 <= i < |found| :: parents[i] == i
    ensures Collected(found, names, deps)
  {
    names, deps := [], map[];
    parents := new nat[|found|];
    for i := 0 to |found|
      invariant Collected(found[..i], names, deps)
      invariant forall j | 0 <= j < i :: parents[j] == j
    {
      ghost var before := found[..i];
      assert found[..i + 1] == before + [found[i]];
      NothingFoundYet(before, names, deps);
      assert found[i][..0] == [];
      for a := 0 to |found[i]|
        invariant Collected(before + [found[i][..a]], names, deps)
        invariant forall j | 0 <= j < i :: parents[j] == j
      {
        var name := Rename(found[i][a]);
        CollectOne(before, found[i], a, names, deps);
        if name !in deps {
          names := names + [name];
          deps := deps[name := [i]];
        } else {
          deps := deps[name := deps[name] + [i]];
        }
      }
      assert found[i][..|found[i]|] == found[i];
      assert Collected(found[..i + 1], names, deps);
      parents[i] := i;
    }
    assert found[..|found|] == found;
  }

  lemma NothingFoundYet(before: seq<seq<Name>>, names: seq<Name>, deps: map<Name, seq<nat>>)
    requires Collected(before, names, deps)
    ensures Collected(before + [[]], names, deps)
  {
    forall j: nat, n: Name
      ensures Mentions(before + [[]], j, n) <==> Mentions(before, j, n)
    {
      if j < |before| {
        assert (before + [[]])[j] == before[j];
      }
    }
  }

  lemma CollectOne(before: seq<seq<Name>>, here: seq<Name>, a: nat, names: seq<Name>, deps: map<Name, seq<nat>>)
    requires a < |here| && Collected(before + [here[..a]], names, deps)
    ensures var name, i := Rename(here[a]), |before|;
            Collected(before + [here[..a + 1]], if name in deps then names else names + [name],
                      deps[name := (if name in deps then deps[name] else []) + [i]])
  {
    var name, i := Rename(here[a]), |before|;
    var prior, after := before + [here[..a]], before + [here[..a + 1]];
    forall j: nat, n: Name
      ensures Mentions(after, j, n) <==> Mentions(prior, j, n) || (j == i && n == name)
    {
      if j < i {
        assert prior[j] == after[j];
      } else if j == i {
        assert forall b | 0 <= b < a :: prior[i][b] == after[i][b];
        assert after[i][a] == here[a];
      }
    }
  }

  /** Nothing has been linked yet: every function is a set of its own. */
  ghost function Singletons(n: nat): (f: Forest)
    ensures |f.rep| == |f.height| == n && forall x | 0 <= x < n :: f.rep[x] == x
  {
    Forest(seq(n, (i: nat) requires i < n => i), seq(n, i => 0))
  }

  /** All functions collected for a name are in one set, up to position `k`. */
  ghost predicate Gathered(f: Forest, ids: seq<nat>, k: nat) {
    k <= |ids| && forall b | 0 <= b < k :: Together(f, ids[0], ids[b])
  }

  /** `g` is `f` with sets joined, never split. */
  ghost predicate Coarser(f: Forest, g: Forest) {
    |f.rep| == |g.rep| && forall a, b | Together(f, a, b) :: Together(g, a, b)
  }

  lemma JoinIsSound(found: seq<seq<Name>>, f: Forest, g: Forest, x: nat, y: nat)
    requires Sound(found, f) && |g.rep| == |f.rep| && x < |found| && y < |found| && Share(found, x, y)
    requires forall a, b | Together(g, a, b) ::
               Together(f, a, b) || (Together(f, a, x) && Together(f, b, y)) || (Together(f, a, y) && Together(f, b, x))
    ensures Sound(found, g)
  {
    ConnectedToItself(found, x);
    OneMore(found, x, x, y);
    ConnectedBothWays(found, x, y, x);
    forall a, b | Together(g, a, b)
      ensures Connected(found, a, b)
    {
      if Together(f, a, x) && Together(f, b, y) {
        ConnectedBothWays(found, b, y, y);
        ConnectedBothWays(found, x, y, b);
        ConnectedBothWays(found, a, x, b);
      } else if Together(f, a, y) && Together(f, b, x) {
        ConnectedBothWays(found, b, x, x);
        ConnectedBothWays(found, y, x, b);
        ConnectedBothWays(found, a, y, b);
      }
    }
  }

  /** The loop over one name. */
  method LinkAll(parents: array<nat>, ids: seq<nat>, coins: nat -> bool, k0: nat, ghost found: seq<seq<Name>>,
                 ghost n: Name, ghost f: Forest)
    returns (k: nat, ghost g: Forest)
    requires Rooted(parents[..], f) && parents.Length == |found| && Sound(found, f)
    requires ids != [] && forall i | i in ids :: Mentions(found, i, n)
    modifies parents
    ensures Rooted(parents[..], g) && Sound(found, g) && Coarser(f, g) && Gathered(g, ids, |ids|)
  {
    g, k := f, k0;
    for b := 0 to |ids|
      invariant Rooted(parents[..], g) && Sound(found, g) && Coarser(f, g) && Gathered(g, ids, b)
    {
      assert ids[0] in ids && ids[b] in ids;
      assert Share(found, ids[0], ids[b]);
      ghost var h := Union(parents, ids[0], ids[b], coins(k), g);
      JoinIsSound(found, g, h, ids[0], ids[b]);
      g := h;
      k := k + 1;
    }
  }

  /** The grouping loop. `coins` are the random directions of the links. */
  method Group(found: seq<seq<Name>>, coins: nat -> bool) returns (parents: array<nat>, ghost f: Forest)
    ensures fresh(parents) && parents.Length == |found| == |f.rep| && Rooted(parents[..], f)
    ensures forall i, j | 0 <= i < |found| && 0 <= j < |found| :: Together(f, i, j) <==> Connected(found, i, j)
  {
    var names, deps;
    names, deps, parents := CollectDeps(found);
    f := Singletons(|found|);
    SingletonsAreSound(found, parents[..]);
    var k := 0;
    for a := 0 to |names|
      invariant Rooted(parents[..], f) && Sound(found, f)
      invariant forall b | 0 <= b < a :: Gathered(f, deps[names[b]], |deps[names[b]]|)
    {
      assert names[a] in names;
      ghost var before := f;
      k, f := LinkAll(parents, deps[names[a]], coins, k, found, names[a], f);
    }
    GatheredIsConnected(found, names, deps, f);
  }

  lemma SingletonsAreSound(found: seq<seq<Name>>, parents: seq<nat>)
    requires |parents| == |found| && forall i | 0 <= i < |found| :: parents[i] == i
    ensures Rooted(parents, Singletons(|found|)) && Sound(found, Singletons(|found|))
  {
    forall a, b | Together(Singletons(|found|), a, b)
      ensures Connected(found, a, b)
    {
      ConnectedToItself(found, a);
    }
  }

  lemma GatheredIsConnected(found: seq<seq<Name>>, names: seq<Name>, deps: map<Name, seq<nat>>, f: Forest)
    requires Collected(found, names, deps) && Sound(found, f)
    requires forall b | 0 <= b < |names| :: Gathered(f, deps[names[b]], |deps[names[b]]|)
    ensures forall i, j | 0 <= i < |found| && 0 <= j < |found| :: Together(f, i, j) <==> Connected(found, i, j)
  {
    forall i: nat, j: nat | i < |found| && j < |found| && Connected(found, i, j)
      ensures Together(f, i, j)
    {
      var path :| Chain(found, path, i, j);
      AlongTheChain(found, names, deps, f, path, i, j);
    }
  }

  lemma {:induction false} AlongTheChain(
    found: seq<seq<Name>>, names: seq<Name>, deps: map<Name, seq<nat>>, f: Forest, path: seq<nat>, i: nat, j: nat)
    requires Collected(found, names, deps) && |f.rep| == |found| && Chain(found, path, i, j)
    requires forall b | 0 <= b < |names| :: Gathered(f, deps[names[b]], |deps[names[b]]|)
    ensures Together(f, i, j)
    decreases |path|
  {
    if |path| > 1 {
      var rest := path[1..];
      forall k | 0 < k < |rest|
        ensures Share(found, rest[k - 1], rest[k])
      {
        assert Share(found, path[k], path[k + 1]);
      }
      AlongTheChain(found, names, deps, f, rest, path[1], j);
      assert Share(found, path[0], path[1]);
      var n :| Mentions(found, path[0], n) && Mentions(found, path[1], n);
      assert n in names;
      var b :| 0 <= b < |names| && names[b] == n;
      assert Gathered(f, deps[n], |deps[n]|);
      assert path[0] in deps[n] && path[1] in deps[n];
    }
  }

  // ---------- Sets ----------

  /** The texts of the functions whose root is `r`, in order. */
  function TextOf(functions: seq<string>, rep: seq<nat>, r: nat): string
    requires |functions| == |rep|
  {
    if functions == [] then "" else
    var n := |functions| - 1;
    TextOf(functions[..n], rep[..n], r) + if rep[n] == r then functions[n] else ""
  }

  function Lengths(texts: seq<string>): (lengths: seq<nat>)
    ensures |lengths| == |texts|
  {
    seq(|texts|, i requires 0 <= i < |texts| => |texts[i]|)
  }

  /** One set for every root of the first functions, holding exactly the texts of its members. */
  ghost predicate SetsOf(functions: seq<string>, rep: seq<nat>, keys: seq<nat>, sets: map<nat, string>) {
    && |functions| == |rep|
    && Distinct(keys) && Have(keys, sets)
    && (forall r | r in sets :: r in keys)
    && (forall i | 0 <= i < |rep| :: rep[i] in sets)
    && (forall r | r in sets :: r in rep && sets[r] == TextOf(functions, rep, r))
  }

  predicate Have(keys: seq<nat>, sets: map<nat, string>) {
    forall i | 0 <= i < |keys| :: keys[i] in sets
  }

  /** The sizes of the sets, in the order of `keys`. */
  function SizesOf(keys: seq<nat>, sets: map<nat, string>): (sizes: seq<nat>)
    requires Have(keys, sets)
    ensures |sizes| == |keys| && forall i | 0 <= i < |keys| :: sizes[i] == |sets[keys[i]]|
  {
    seq(|keys|, i requires 0 <= i < |keys| => |sets[keys[i]]|)
  }

  /** The sets with one more text in set `r`. */
  function KeysWith(keys: seq<nat>, sets: map<nat, string>, r: nat): seq<nat> {
    if r in sets then keys else keys + [r]
  }

  function SetsWith(sets: map<nat, string>, r: nat, text: string): map<nat, string> {
    sets[r := (if r in sets then sets[r] else "") + text]
  }

  lemma NextSets(functions: seq<string>, rep: seq<nat>, keys: seq<nat>, sets: map<nat, string>, text: string, r: nat)
    requires SetsOf(functions, rep, keys, sets)
    ensures SetsOf(functions + [text], rep + [r], KeysWith(keys, sets, r), SetsWith(sets, r, text))
  {
    var keys', sets' := KeysWith(keys, sets, r), SetsWith(sets, r, text);
    assert (functions + [text])[..|functions|] == functions && (rep + [r])[..|rep|] == rep;
    NoTextOf(functions, rep, r);
    assert r == (rep + [r])[|rep|];
    assert r in sets || keys'[|keys|] == r;
    forall i: nat, j: nat {:trigger Differ(keys', i, j)} | i < j < |keys'|
      ensures Differ(keys', i, j)
    {
      assert j < |keys| ==> Differ(keys, i, j);
      assert i < |keys| ==> keys[i] in sets;
    }
    forall q | q in sets'
      ensures q in keys' && q in rep + [r] && sets'[q] == TextOf(functions + [text], rep + [r], q)
    {
      assert q == r || q in sets;
    }
  }

  lemma SetGrows(keys: seq<nat>, sets: map<nat, string>, k: nat, text: string)
    requires Distinct(keys) && Have(keys, sets) && k < |keys|
    ensures Have(keys, SetsWith(sets, keys[k], text))
    ensures Total(SizesOf(keys, SetsWith(sets, keys[k], text))) == Total(SizesOf(keys, sets)) + |text|
  {
    var sets', sizes := SetsWith(sets, keys[k], text), SizesOf(keys, sets);
    var grown := sizes[k := sizes[k] + |text|];
    forall i: nat | i < |keys|
      ensures SizesOf(keys, sets')[i] == grown[i]
    {
      assert i < k ==> Differ(keys, i, k);
      assert i > k ==> Differ(keys, k, i);
    }
    assert SizesOf(keys, sets') == grown;
    TotalUpdate(sizes, k, |text|);
  }

  lemma KeyOfSet(functions: seq<string>, rep: seq<nat>, keys: seq<nat>, sets: map<nat, string>, r: nat) returns (k: nat)
    requires SetsOf(functions, rep, keys, sets)
    ensures Distinct(keys) && Have(keys, sets) && (r in sets ==> k < |keys| && keys[k] == r)
  {
    hide TextOf, Distinct;
    k := 0;
    if r in sets {
      k :| k < |keys| && keys[k] == r;
    }
  }

  lemma NextSizes(functions: seq<string>, rep: seq<nat>, keys: seq<nat>, sets: map<nat, string>, text: string, r: nat)
    requires SetsOf(functions, rep, keys, sets)
    ensures var keys', sets' := KeysWith(keys, sets, r), SetsWith(sets, r, text);
            Have(keys', sets') && Total(SizesOf(keys', sets')) == Total(SizesOf(keys, sets)) + |text|
  {
    hide Distinct, SetsOf, Total, SizesOf, SetsWith, Have;
    var k := KeyOfSet(functions, rep, keys, sets, r);
    if r in sets {
      SetGrows(keys, sets, k, text);
    } else {
      SetAdded(keys, sets, text, r);
    }
  }

  lemma SetAdded(keys: seq<nat>, sets: map<nat, string>, text: string, r: nat)
    requires Have(keys, sets) && r !in sets
    ensures var sets' := SetsWith(sets, r, text);
            Have(keys + [r], sets') && Total(SizesOf(keys + [r], sets')) == Total(SizesOf(keys, sets)) + |text|
  {
    assert SizesOf(keys + [r], SetsWith(sets, r, text)) == SizesOf(keys, sets) + [|text|];
    TotalSnoc(SizesOf(keys, sets), |text|);
  }

  lemma NextLength(functions: seq<string>, i: nat)
    requires i < |functions|
    ensures Total(Lengths(functions[..i + 1])) == Total(Lengths(functions[..i])) + |functions[i]|
  {
    assert Lengths(functions[..i + 1]) == Lengths(functions[..i]) + [|functions[i]|];
    TotalSnoc(Lengths(functions[..i]), |functions[i]|);
  }

  lemma {:induction false} NoTextOf(functions: seq<string>, rep: seq<nat>, r: nat)
    requires |functions| == |rep|
    ensures r !in rep ==> TextOf(functions, rep, r) == ""
  {
    if functions != [] {
      NoTextOf(functions[..|functions| - 1], rep[..|functions| - 1], r);
    }
  }

  /** $sets; their sizes are the lengths of the texts. */
  method BuildSets(functions: seq<string>, parents: array<nat>, ghost f: Forest)
    returns (keys: seq<nat>, sets: map<nat, string>)
    requires Rooted(parents[..], f) && parents.Length == |functions|
    modifies parents
    ensures Rooted(parents[..], f)
    ensures SetsOf(functions, f.rep, keys, sets)
    ensures Total(SizesOf(keys, sets)) == Total(Lengths(functions))
  {
    hide TextOf, Lengths, SetsOf, Have, SizesOf, KeysWith, SetsWith;
    assert |f.rep| == |functions|;
    hide Rooted;
    keys, sets := [], map[];
    NoSets();
    assert functions[..0] == [] && f.rep[..0] == [];
    for i := 0 to |functions|
      invariant Rooted(parents[..], f)
      invariant SetsOf(functions[..i], f.rep[..i], keys, sets) && Have(keys, sets)
      invariant Total(SizesOf(keys, sets)) == Total(Lengths(functions[..i]))
    {
      NextSets(functions[..i], f.rep[..i], keys, sets, functions[i], f.rep[i]);
      assert functions[..i + 1] == functions[..i] + [functions[i]] && f.rep[..i + 1] == f.rep[..i] + [f.rep[i]];
      NextSizes(functions[..i], f.rep[..i], keys, sets, functions[i], f.rep[i]);
      NextLength(functions, i);
      var parent := Find(parents, i, f);
      keys, sets := AddText(keys, sets, parent, functions[i]);
    }
    assert functions[..|functions|] == functions && f.rep[..|functions|] == f.rep;
  }

  lemma NoSets()
    ensures Have([], map[]) && SetsOf([], [], [], map[]) && Total(SizesOf([], map[])) == Total(Lengths([]))
  {
  }

  method AddText(keys: seq<nat>, sets: map<nat, string>, parent: nat, text: string)
    returns (keys': seq<nat>, sets': map<nat, string>)
    ensures keys' == KeysWith(keys, sets, parent) && sets' == SetsWith(sets, parent, text)
  {
    keys', sets' := keys, sets;
    if parent !in sets' {
      keys' := keys' + [parent];
      sets' := sets'[parent := ""];
    }
    sets' := sets'[parent := sets'[parent] + text];
  }

  // ---------- Sorting and balancing ----------

  /** arsort: by size, the largest first. */
  method Arsort(keys: seq<nat>, sets: map<nat, string>) returns (order: seq<nat>)
    requires Have(keys, sets)
    ensures multiset(order) == multiset(keys) && Have(order, sets)
    ensures Descending(SizesOf(order, sets)) && Total(SizesOf(order, sets)) == Total(SizesOf(keys, sets))
  {
    order := [];
    HavePrefix(keys, sets);
    hide Have;
    for i := 0 to |keys|
      invariant Have(keys[..i], sets)
      invariant multiset(order) == multiset(keys[..i]) && Have(order, sets)
      invariant Descending(SizesOf(order, sets)) && Total(SizesOf(order, sets)) == Total(SizesOf(keys[..i], sets))
    {
      hide Insert, Descending, SizesOf;
      var k := Place(order, keys[i], sets);
      InsertKeepsTotal(order, keys[i], k, sets);
      OneMoreKey(keys, i, sets);
      order := Insert(order, keys[i], k);
    }
    assert keys[..|keys|] == keys;
  }

  /** Behind every set that is at least as large. */
  method Place(order: seq<nat>, key: nat, sets: map<nat, string>) returns (k: nat)
    requires Have(order, sets) && key in sets && Descending(SizesOf(order, sets))
    ensures k <= |order| && Have(Insert(order, key, k), sets) && Descending(SizesOf(Insert(order, key, k), sets))
    ensures multiset(Insert(order, key, k)) == multiset(order) + multiset{key}
  {
    k := 0;
    while k < |order| && |sets[order[k]]| >= |sets[key]|
      invariant k <= |order| && (k > 0 ==> |sets[order[k - 1]]| >= |sets[key]|)
    {
      k := k + 1;
    }
    hide Insert, Descending;
    InsertSizes(order, key, k, sets);
    InsertKeepsOrder(SizesOf(order, sets), |sets[key]|, k);
    InsertedItems(order, key, k);
  }

  lemma HavePrefix(keys: seq<nat>, sets: map<nat, string>)
    requires Have(keys, sets)
    ensures forall i | 0 <= i <= |keys| :: Have(keys[..i], sets)
    ensures forall i | 0 <= i < |keys| :: keys[i] in sets
    ensures Have([], sets)
  {
  }

  lemma OneMoreKey(keys: seq<nat>, i: nat, sets: map<nat, string>)
    requires i < |keys| && Have(keys, sets)
    ensures multiset(keys[..i + 1]) == multiset(keys[..i]) + multiset{keys[i]}
    ensures Total(SizesOf(keys[..i + 1], sets)) == Total(SizesOf(keys[..i], sets)) + |sets[keys[i]]|
  {
    OneMoreItem(keys, i);
    SizesSnoc(keys, i, sets);
    TotalSnoc(SizesOf(keys[..i], sets), |sets[keys[i]]|);
  }

  lemma InsertSizes(order: seq<nat>, key: nat, k: nat, sets: map<nat, string>)
    requires k <= |order| && key in sets && Have(order, sets)
    ensures Have(Insert(order, key, k), sets)
    ensures SizesOf(Insert(order, key, k), sets) == Insert<nat>(SizesOf(order, sets), |sets[key]|, k)
  {
  }

  lemma InsertKeepsOrder(sizes: seq<nat>, x: nat, k: nat)
    requires k <= |sizes| && Descending(sizes)
    requires (k > 0 ==> sizes[k - 1] >= x) && (k < |sizes| ==> sizes[k] < x)
    ensures Descending(Insert(sizes, x, k))
  {
    var after := Insert(sizes, x, k);
    forall i, j | 0 <= i < j < |after|
      ensures after[i] >= after[j]
    {
      if i < k {
        assert after[i] == sizes[i] >= sizes[k - 1];
      }
      if j > k {
        assert after[j] == sizes[j - 1] <= sizes[k];
      }
    }
  }

  lemma InsertKeepsTotal(order: seq<nat>, key: nat, k: nat, sets: map<nat, string>)
    requires k <= |order| && key in sets && Have(order, sets)
    ensures Have(Insert(order, key, k), sets)
    ensures Total(SizesOf(Insert(order, key, k), sets)) == Total(SizesOf(order, sets)) + |sets[key]|
  {
    hide Have, Insert;
    InsertSizes(order, key, k, sets);
    InsertTotal(SizesOf(order, sets), |sets[key]|, k);
  }

  lemma {:induction false} InsertTotal(sizes: seq<nat>, x: nat, k: nat)
    requires k <= |sizes|
    ensures Total(Insert(sizes, x, k)) == Total(sizes) + x
  {
    if k == |sizes| {
      assert Insert(sizes, x, k) == sizes + [x];
      TotalSnoc(sizes, x);
    } else {
      var n := |sizes| - 1;
      InsertTotal(sizes[..n], x, k);
      assert Insert(sizes, x, k) == Insert(sizes[..n], x, k) + [sizes[n]];
      TotalSnoc(Insert(sizes[..n], x, k), sizes[n]);
    }
  }

  /** The texts of the sets that are assigned to file `k`, in order. */
  function FileText(order: seq<nat>, sets: map<nat, string>, files: seq<nat>, k: nat): (text: string)
    requires |files| == |order| && Have(order, sets)
    ensures |text| == Load(SizesOf(order, sets), files, k)
  {
    if order == [] then "" else
    var n := |order| - 1;
    assert SizesOf(order, sets)[..n] == SizesOf(order[..n], sets);
    FileText(order[..n], sets, files[..n], k) + if files[n] == k then sets[order[n]] else ""
  }

  /** What the files are after these sets were assigned. */
  ghost predicate Filled(files: seq<string>, fileSizes: seq<nat>, order: seq<nat>, sets: map<nat, string>, m: nat)
    requires 0 < m && Have(order, sets)
  {
    var where := Greedy(SizesOf(order, sets), m);
    && fileSizes == Loads(SizesOf(order, sets), where, m)
    && |files| == m && TextsOf(files, order, sets, where)
  }

  /** Every file holds the texts of its sets. */
  ghost predicate TextsOf(files: seq<string>, order: seq<nat>, sets: map<nat, string>, where: seq<nat>)
    requires |where| == |order| && Have(order, sets)
  {
    forall k | 0 <= k < |files| :: files[k] == FileText(order, sets, where, k)
  }

  /** The balancing loop. */
  method Balance(order: seq<nat>, sets: map<nat, string>, m: nat) returns (files: array<string>, fileSizes: array<nat>)
    requires 0 < m && Have(order, sets)
    ensures fresh(files) && fresh(fileSizes) && files.Length == m == fileSizes.Length
    ensures Filled(files[..], fileSizes[..], order, sets, m)
  {
    files, fileSizes := EmptyFiles(m, sets);
    assert order[..0] == [];
    hide Filled, Greedy, Load, Loads, FileText, Have;
    for i := 0 to |order|
      invariant |fileSizes[..]| == |files[..]| == m
      invariant Filled(files[..], fileSizes[..], order[..i], sets, m)
    {
      Assign(files, fileSizes, order, i, sets, m);
    }
    assert order[..|order|] == order;
  }

  /** One set goes to the first of the least loaded files. */
  method Assign(files: array<string>, fileSizes: array<nat>, order: seq<nat>, i: nat, sets: map<nat, string>, m: nat)
    requires 0 < m && i < |order| && Have(order, sets) && files.Length == m == fileSizes.Length
    requires Filled(files[..], fileSizes[..], order[..i], sets, m)
    modifies files, fileSizes
    ensures Filled(files[..], fileSizes[..], order[..i + 1], sets, m)
  {
    hide Filled, Greedy, Load, Loads, FileText;
    ghost var filled, sizes := files[..], fileSizes[..];
    var fileId := FirstMin(fileSizes[..]);
    NextFilled(filled, sizes, order, i, sets, m, fileId);
    files[fileId] := files[fileId] + sets[order[i]];
    assert files[..] == filled[fileId := filled[fileId] + sets[order[i]]];
    fileSizes[fileId] := fileSizes[fileId] + |sets[order[i]]|;
    assert fileSizes[..] == sizes[fileId := sizes[fileId] + |sets[order[i]]|];
  }

  method EmptyFiles(m: nat, ghost sets: map<nat, string>) returns (files: array<string>, fileSizes: array<nat>)
    requires 0 < m
    ensures fresh(files) && fresh(fileSizes) && files.Length == m == fileSizes.Length
    ensures Filled(files[..], fileSizes[..], [], sets, m)
  {
    files := new string[m](i => "");
    fileSizes := new nat[m](i => 0);
  }

  lemma NextText(order: seq<nat>, i: nat, sets: map<nat, string>, where: seq<nat>, fileId: nat, k: nat)
    requires i < |order| && Have(order, sets) && |where| == i
    ensures FileText(order[..i + 1], sets, where + [fileId], k)
            == FileText(order[..i], sets, where, k) + if fileId == k then sets[order[i]] else ""
  {
    assert order[..i + 1][..i] == order[..i] && (where + [fileId])[..i] == where;
  }

  lemma NextTexts(files: seq<string>, order: seq<nat>, i: nat, sets: map<nat, string>, where: seq<nat>, fileId: nat)
    requires i < |order| && Have(order, sets) && |where| == i && fileId < |files|
    requires TextsOf(files, order[..i], sets, where)
    ensures TextsOf(files[fileId := files[fileId] + sets[order[i]]], order[..i + 1], sets, where + [fileId])
  {
    hide FileText;
    forall k | 0 <= k < |files|
      ensures FileText(order[..i + 1], sets, where + [fileId], k)
              == files[k] + if fileId == k then sets[order[i]] else ""
    {
      NextText(order, i, sets, where, fileId, k);
    }
  }

  lemma NextFilled(files: seq<string>, fileSizes: seq<nat>, order: seq<nat>, i: nat, sets: map<nat, string>, m: nat,
                   fileId: nat)
    requires 0 < m && i < |order| && Have(order, sets) && Filled(files, fileSizes, order[..i], sets, m)
    requires IsFirstMin(fileSizes, fileId)
    ensures Filled(files[fileId := files[fileId] + sets[order[i]]],
                   fileSizes[fileId := fileSizes[fileId] + |sets[order[i]]|], order[..i + 1], sets, m)
  {
    assert fileId < |fileSizes| == |files| == m;
    hide FileText, Greedy, Load, Loads, IsFirstMin, SizesOf, TextsOf;
    var sizes := SizesOf(order[..i], sets);
    GreedyNext(sizes, |sets[order[i]]|, m, fileId);
    SizesSnoc(order, i, sets);
    NextTexts(files, order, i, sets, Greedy(sizes, m), fileId);
  }

  lemma SizesSnoc(order: seq<nat>, i: nat, sets: map<nat, string>)
    requires i < |order| && Have(order, sets)
    ensures SizesOf(order[..i + 1], sets) == SizesOf(order[..i], sets) + [|sets[order[i]]|]
  {
  }

  // ---------- The whole split ----------

  /** How the functions were grouped, and the order in which the sets were assigned to files. */
  datatype Plan = Plan(rep: seq<nat>, order: seq<nat>, sets: map<nat, string>)

  /** The files hold the sets of connected functions, assigned greedily from the largest to the smallest. */
  ghost predicate SplitBy(functions: seq<string>, found: seq<seq<Name>>, m: nat, plan: Plan, files: seq<string>) {
    && 0 < m && SetsOf(functions, plan.rep, plan.order, plan.sets)
    && Descending(SizesOf(plan.order, plan.sets))
    && Total(SizesOf(plan.order, plan.sets)) == Total(Lengths(functions))
    && |found| == |functions|
    && (forall i, j | 0 <= i < |functions| && 0 <= j < |functions| ::
          plan.rep[i] == plan.rep[j] <==> Connected(found, i, j))
    && |files| == m
    && (forall k | 0 <= k < m ::
          files[k] == FileText(plan.order, plan.sets, Greedy(SizesOf(plan.order, plan.sets), m), k))
  }

  /** A file with fewer functions than there are to be new files is not split. */
  method Split(functions: seq<string>, found: seq<seq<Name>>, m: nat, coins: nat -> bool)
    returns (result: Option<seq<string>>, ghost plan: Plan)
    requires 0 < m && |found| == |functions|
    ensures result.None? <==> |functions| < m
    ensures result.Some? ==> SplitBy(functions, found, m, plan, result.value)
  {
    plan := Plan([], [], map[]);
    if |functions| < m {
      return None, plan;
    }
    hide Have, Distinct, Connected, Rooted, Greedy, Load, FileText, TextOf, SetsOf, Total, Lengths, SizesOf;
    var parents, f := Group(found, coins);
    SameRoots(found, f);
    var keys, sets := BuildSets(functions, parents, f);
    SetsHave(functions, f.rep, keys, sets);
    var order := Arsort(keys, sets);
    SortedSets(functions, f.rep, keys, order, sets);
    var files, fileSizes := Balance(order, sets, m);
    result, plan := Some(files[..]), Plan(f.rep, order, sets);
  }

  lemma SetsHave(functions: seq<string>, rep: seq<nat>, keys: seq<nat>, sets: map<nat, string>)
    requires SetsOf(functions, rep, keys, sets)
    ensures Have(keys, sets)
  {
  }

  lemma SameRoots(found: seq<seq<Name>>, f: Forest)
    requires |f.rep| == |found|
    requires forall i, j | 0 <= i < |found| && 0 <= j < |found| :: Together(f, i, j) <==> Connected(found, i, j)
    ensures forall i, j | 0 <= i < |found| && 0 <= j < |found| :: f.rep[i] == f.rep[j] <==> Connected(found, i, j)
  {
    forall i: nat, j: nat | i < |found| && j < |found|
      ensures f.rep[i] == f.rep[j] <==> Connected(found, i, j)
    {
      assert Together(f, i, j) <==> Connected(found, i, j);
    }
  }

  lemma {:induction false} DistinctCount(a: seq<nat>, x: nat)
    requires Distinct(a)
    ensures multiset(a)[x] <= 1 && (x !in a ==> multiset(a)[x] == 0)
  {
    if a != [] {
      var n := |a| - 1;
      assert a == a[..n] + [a[n]];
      forall i: nat, j: nat {:trigger Differ(a[..n], i, j)} | i < j < n
        ensures Differ(a[..n], i, j)
      {
        assert Differ(a, i, j);
      }
      DistinctCount(a[..n], x);
      if a[n] in a[..n] {
        var i :| 0 <= i < n && a[i] == a[n];
        assert Differ(a, i, n);
      }
    }
  }

  lemma SortedSets(functions: seq<string>, rep: seq<nat>, keys: seq<nat>, order: seq<nat>, sets: map<nat, string>)
    requires SetsOf(functions, rep, keys, sets) && multiset(order) == multiset(keys) && Have(order, sets)
    ensures SetsOf(functions, rep, order, sets)
  {
    forall r | r in sets
      ensures r in order
    {
      assert r in multiset(keys);
    }
    StillDistinct(keys, order);
    hide Distinct, TextOf;
  }

  lemma StillDistinct(keys: seq<nat>, order: seq<nat>)
    requires Distinct(keys) && multiset(order) == multiset(keys)
    ensures Distinct(order)
  {
    forall i: nat, j: nat {:trigger Differ(order, i, j)} | i < j < |order|
      ensures Differ(order, i, j)
    {
      if order[i] == order[j] {
        assert order == order[..i] + [order[i]] + order[i + 1..j] + [order[j]] + order[j + 1..];
        assert multiset(order)[order[i]] >= 2;
        DistinctCount(keys, order[i]);
      }
    }
  }

  // ---------- What a split promises ----------

  /** The position of the set of function `i` among the sorted sets. */
  ghost function SetAt(plan: Plan, i: nat): (p: nat)
    requires i < |plan.rep| && plan.rep[i] in plan.order
    ensures p < |plan.order| && plan.order[p] == plan.rep[i]
  {
    var p :| 0 <= p < |plan.order| && plan.order[p] == plan.rep[i];
    p
  }

  lemma OnePosition(order: seq<nat>, p: nat, q: nat)
    requires Distinct(order) && p < |order| && q < |order| && order[p] == order[q]
    ensures p == q
  {
    assert p < q ==> Differ(order, p, q);
    assert q < p ==> Differ(order, q, p);
  }

  /** The file function `i` went to. */
  ghost function FileOf(plan: Plan, m: nat, i: nat): (k: nat)
    requires 0 < m && i < |plan.rep| && plan.rep[i] in plan.order && Have(plan.order, plan.sets)
    ensures k < m
  {
    Greedy(SizesOf(plan.order, plan.sets), m)[SetAt(plan, i)]
  }

  /** `part` is a stretch of `whole`. */
  ghost predicate Within(part: string, whole: string) {
    exists before, after :: Surrounded(part, whole, before, after)
  }

  predicate Surrounded(part: string, whole: string, before: string, after: string) {
    whole == before + part + after
  }

  lemma WithinLonger(part: string, whole: string, more: string)
    requires Within(part, whole)
    ensures Within(part, whole + more)
  {
    var before, after :| Surrounded(part, whole, before, after);
    assert Surrounded(part, whole + more, before, after + more);
  }

  lemma WithinTail(part: string, whole: string, head: string)
    requires Within(part, whole)
    ensures Within(part, head + whole)
  {
    var before, after :| Surrounded(part, whole, before, after);
    assert Surrounded(part, head + whole, head + before, after);
  }

  lemma {:induction false} WithinItsSet(functions: seq<string>, rep: seq<nat>, i: nat)
    requires |functions| == |rep| && i < |functions|
    ensures Within(functions[i], TextOf(functions, rep, rep[i]))
  {
    var n := |functions| - 1;
    var before := TextOf(functions[..n], rep[..n], rep[i]);
    if i == n {
      assert Surrounded(functions[n], before + functions[n], before, "");
    } else {
      WithinItsSet(functions[..n], rep[..n], i);
      WithinLonger(functions[i], before, if rep[n] == rep[i] then functions[n] else "");
    }
  }

  lemma {:induction false} SetWithinItsFile(
    order: seq<nat>, sets: map<nat, string>, files: seq<nat>, p: nat, part: string)
    requires |files| == |order| && Have(order, sets) && p < |order| && Within(part, sets[order[p]])
    ensures Within(part, FileText(order, sets, files, files[p]))
  {
    var n := |order| - 1;
    var before := FileText(order[..n], sets, files[..n], files[p]);
    if p == n {
      WithinTail(part, sets[order[n]], before);
    } else {
      SetWithinItsFile(order[..n], sets, files[..n], p, part);
      WithinLonger(part, before, if files[n] == files[p] then sets[order[n]] else "");
    }
  }

  /** Every function is in its file, and functions connected by shared names are in the same file. */
  lemma FunctionsStayTogether(
    functions: seq<string>, found: seq<seq<Name>>, m: nat, plan: Plan, files: seq<string>, i: nat, j: nat)
    requires SplitBy(functions, found, m, plan, files) && i < |functions| && j < |functions|
    ensures plan.rep[i] in plan.order && plan.rep[j] in plan.order
    ensures Within(functions[i], files[FileOf(plan, m, i)])
    ensures Connected(found, i, j) ==> FileOf(plan, m, i) == FileOf(plan, m, j)
  {
    assert plan.rep[i] in plan.sets && plan.rep[j] in plan.sets;
    hide Connected, Greedy, Descending, Distinct;
    WithinItsSet(functions, plan.rep, i);
    var where := Greedy(SizesOf(plan.order, plan.sets), m);
    SetWithinItsFile(plan.order, plan.sets, where, SetAt(plan, i), functions[i]);
    if Connected(found, i, j) {
      OnePosition(plan.order, SetAt(plan, i), SetAt(plan, j));
    }
  }

  /** Nothing is lost and nothing is doubled: the new files are together as long as the functions. */
  lemma FilesAddUp(functions: seq<string>, found: seq<seq<Name>>, m: nat, plan: Plan, files: seq<string>)
    requires SplitBy(functions, found, m, plan, files)
    ensures Total(Lengths(files)) == Total(Lengths(functions))
  {
    hide Connected, Greedy, Descending, Distinct;
    var sizes := SizesOf(plan.order, plan.sets);
    LoadsAddUp(sizes, Greedy(sizes, m), m);
    assert Lengths(files) == Loads(sizes, Greedy(sizes, m), m);
  }

  /**
   How even the files are: none exceeds its fair share by as much as the largest set, no two differ by more than the
   largest set, and the largest file is within 4/3 - 1/(3m) of that of any other way to assign the sets.
   */
  lemma FilesAreEven(
    functions: seq<string>, found: seq<seq<Name>>, m: nat, plan: Plan, files: seq<string>, k: nat, i: nat, largest: nat,
    other: seq<nat>, best: nat)
    requires SplitBy(functions, found, m, plan, files) && k < m && i < m
    requires AtMost(SizesOf(plan.order, plan.sets), largest)
    requires Assignment(other, |plan.order|, m)
    requires forall n | 0 <= n < m :: |FileText(plan.order, plan.sets, other, n)| <= best
    ensures m * |files[k]| <= Total(Lengths(functions)) + (m - 1) * largest
    ensures |files[k]| <= |files[i]| + largest
    ensures 3 * m * |files[k]| <= (4 * m - 1) * best
  {
    hide Connected, Greedy, Distinct, TextOf, Load, Lengths;
    var sizes := SizesOf(plan.order, plan.sets);
    FairShare(sizes, m, k, largest);
    Spread(sizes, m, k, i, largest);
    forall n | 0 <= n < m
      ensures Load(sizes, other, n) <= best
    {
      assert |FileText(plan.order, plan.sets, other, n)| == Load(sizes, other, n);
    }
    NearlyBest(sizes, m, k, other, best);
  }
}
