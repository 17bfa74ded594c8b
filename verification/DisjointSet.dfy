/** Disjoint sets as a forest of parent pointers, with path compression and links in either direction. */
module DisjointSet {

  /** What a forest of parents means: the root of every element, and a height that falls along the pointers. */
  datatype Forest = Forest(rep: seq<nat>, height: seq<nat>)

  predicate Fits(parents: seq<nat>, f: Forest) {
    && |f.rep| == |parents| == |f.height|
    && forall x | 0 <= x < |parents| :: parents[x] < |parents| && f.rep[x] < |parents|
  }

  /** `x` points to itself and is its own root, or points lower and has the root of what it points to. */
  predicate RootedAt(parents: seq<nat>, f: Forest, x: nat)
    requires Fits(parents, f) && x < |parents|
  {
    if parents[x] == x then f.rep[x] == x
    else f.rep[parents[x]] == f.rep[x] && f.height[parents[x]] < f.height[x]
  }

  predicate Rooted(parents: seq<nat>, f: Forest) {
    Fits(parents, f) && forall x | 0 <= x < |parents| :: RootedAt(parents, f, x)
  }

  /** Two elements are in the same set. */
  predicate Together(f: Forest, x: nat, y: nat) {
    x < |f.rep| && y < |f.rep| && f.rep[x] == f.rep[y]
  }

  lemma {:induction false} RootIsRoot(parents: seq<nat>, f: Forest, x: nat)
    requires Rooted(parents, f) && x < |parents|
    ensures parents[f.rep[x]] == f.rep[x] && f.rep[f.rep[x]] == f.rep[x]
    ensures f.height[f.rep[x]] <= f.height[x] && (parents[x] != x ==> f.height[f.rep[x]] < f.height[x])
    decreases f.height[x]
  {
    assert RootedAt(parents, f, x);
    if parents[x] != x {
      RootIsRoot(parents, f, parents[x]);
    }
  }

  /** The parents alone decide the sets: every reading of the same forest gives the same roots. */
  lemma {:induction false} RootsAreUnique(parents: seq<nat>, f: Forest, g: Forest, x: nat)
    requires Rooted(parents, f) && Rooted(parents, g) && x < |parents|
    ensures f.rep[x] == g.rep[x]
    decreases f.height[x]
  {
    assert RootedAt(parents, f, x) && RootedAt(parents, g, x);
    if parents[x] != x {
      RootsAreUnique(parents, f, g, parents[x]);
    }
  }

  lemma Compress(parents: seq<nat>, f: Forest, x: nat)
    requires Rooted(parents, f) && x < |parents|
    ensures Rooted(parents[x := f.rep[x]], f)
  {
    RootIsRoot(parents, f, x);
    var after := parents[x := f.rep[x]];
    forall y: nat | y < |after|
      ensures RootedAt(after, f, y)
    {
      assert RootedAt(parents, f, y);
    }
  }

  /** The root of `x`. On the way back everything that was passed is made to point to it. */
  method Find(parents: array<nat>, x: nat, ghost f: Forest) returns (root: nat)
    requires Rooted(parents[..], f) && x < parents.Length
    modifies parents
    ensures Rooted(parents[..], f) && root == f.rep[x] == parents[x]
    ensures forall y | 0 <= y < parents.Length :: parents[y] == old(parents[y]) || parents[y] == f.rep[y]
    decreases f.height[x]
  {
    assert RootedAt(parents[..], f, x);
    if parents[x] != x {
      var up := Find(parents, parents[x], f);
      Compress(parents[..], f, x);
      parents[x] := up;
      return up;
    }
    return x;
  }

  /** The forest after root `a` was made to point to root `b`. */
  ghost function Linked(f: Forest, a: nat, b: nat): (g: Forest)
    requires b < |f.rep| == |f.height|
    ensures |g.rep| == |f.rep| == |g.height|
  {
    Forest(seq(|f.rep|, (z: nat) requires z < |f.rep| => if f.rep[z] == a then b else f.rep[z]),
           seq(|f.rep|, (z: nat) requires z < |f.rep| =>
             if f.rep[z] == a then f.height[z] + f.height[b] + 1 else f.height[z]))
  }

  lemma Link(parents: seq<nat>, f: Forest, a: nat, b: nat)
    requires Rooted(parents, f) && a < |parents| && b < |parents| && a != b && parents[a] == a && parents[b] == b
    ensures Rooted(parents[a := b], Linked(f, a, b))
  {
    assert RootedAt(parents, f, a) && RootedAt(parents, f, b);
    var after, g := parents[a := b], Linked(f, a, b);
    forall y: nat | y < |after|
      ensures RootedAt(after, g, y)
    {
      assert RootedAt(parents, f, y);
    }
  }

  /** The sets of `x` and `y` become one; which root points to the other is left to chance. */
  method Union(parents: array<nat>, x: nat, y: nat, coin: bool, ghost f: Forest) returns (ghost g: Forest)
    requires Rooted(parents[..], f) && x < parents.Length && y < parents.Length
    modifies parents
    ensures Rooted(parents[..], g)
    ensures forall a, b | 0 <= a < parents.Length && 0 <= b < parents.Length :: Together(g, a, b) <==>
              Together(f, a, b) || (Together(f, a, x) && Together(f, b, y)) || (Together(f, a, y) && Together(f, b, x))
  {
    var rx := Find(parents, x, f);
    var ry := Find(parents, y, f);
    g := f;
    RootIsRoot(parents[..], f, x);
    RootIsRoot(parents[..], f, y);
    if rx != ry {
      if coin {
        Link(parents[..], f, rx, ry);
        g := Linked(f, rx, ry);
        parents[rx] := ry;
      } else {
        Link(parents[..], f, ry, rx);
        g := Linked(f, ry, rx);
        parents[ry] := rx;
      }
    }
  }
}
