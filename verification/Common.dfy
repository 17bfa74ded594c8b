/** Small vocabulary shared by every model. */
module Common {

  datatype Option<+T> = None | Some(value: T)

  type Bytes = seq<bv8>

  function Min(x: int, y: int): int {
    if x < y then x else y
  }

  function Max(x: int, y: int): int {
    if x > y then x else y
  }

  /** No element occurs twice. */
  ghost predicate Distinct<T>(s: seq<T>) {
    forall i, j {:trigger Differ(s, i, j)} | 0 <= i < j < |s| :: Differ(s, i, j)
  }

  ghost predicate Differ<T>(s: seq<T>, i: nat, j: nat)
    requires i < |s| && j < |s|
  {
    s[i] != s[j]
  }

  /** A slice of two sequences in a row lies in the first, in the second, or in both. */
  lemma SliceOfBoth<T>(s: seq<T>, t: seq<T>, i: nat, j: nat)
    requires i <= j <= |s| + |t|
    ensures j <= |s| ==> (s + t)[i..j] == s[i..j]
    ensures i <= |s| <= j ==> (s + t)[i..j] == s[i..] + t[..j - |s|]
    ensures |s| <= i ==> (s + t)[i..j] == t[i - |s|..j - |s|]
  {
  }

  lemma SomeElement<T>(s: set<T>) returns (x: T)
    requires s != {}
    ensures x in s
  {
    x :| x in s;
  }

  function Insert<T>(s: seq<T>, x: T, k: nat): seq<T>
    requires k <= |s|
  {
    s[..k] + [x] + s[k..]
  }

  lemma InsertedItems<T>(s: seq<T>, x: T, k: nat)
    requires k <= |s|
    ensures multiset(Insert(s, x, k)) == multiset(s) + multiset{x}
  {
    assert s == s[..k] + s[k..];
  }

  lemma OneMoreItem<T>(s: seq<T>, i: nat)
    requires i < |s|
    ensures multiset(s[..i + 1]) == multiset(s[..i]) + multiset{s[i]}
  {
    assert s[..i + 1] == s[..i] + [s[i]];
  }
}
