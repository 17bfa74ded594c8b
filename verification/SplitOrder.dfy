/** Which names tie functions together, and that functions which stay together stay in their order. */
module SplitOrder {
  import opened Common
  import opened SplitBalance
  import opened SplitSource

  // ---------- Names ----------

  /** The names that stand for a log event. */
  predicate IsLogEvent(name: Name) {
    name == "LogEvent" || name == "parse" || name == "store"
  }

  /**
   Two functions are tied together by a name exactly when one finds a name that the other finds, or each finds one of
   the names that stand for a log event.
   */
  lemma TiedByNames(found: seq<seq<Name>>, i: nat, j: nat)
    requires i < |found| && j < |found|
    ensures Share(found, i, j) <==> exists a, b :: Tie(found, i, j, a, b)
  {
    hide Rename;
    RenamesLogEvents();
    if Share(found, i, j) {
      var n :| Mentions(found, i, n) && Mentions(found, j, n);
      var a :| 0 <= a < |found[i]| && Rename(found[i][a]) == n;
      var b :| 0 <= b < |found[j]| && Rename(found[j][b]) == n;
      assert Tie(found, i, j, a, b);
    }
    if a, b :| Tie(found, i, j, a, b) {
      assert Mentions(found, i, Rename(found[i][a])) && Mentions(found, j, Rename(found[i][a]));
    }
  }

  predicate Tie(found: seq<seq<Name>>, i: nat, j: nat, a: int, b: int)
    requires i < |found| && j < |found|
  {
    && 0 <= a < |found[i]| && 0 <= b < |found[j]|
    && (found[i][a] == found[j][b] || (IsLogEvent(found[i][a]) && IsLogEvent(found[j][b])))
  }

  lemma RenamesLogEvents()
    ensures forall x, y :: Rename(x) == Rename(y) <==> x == y || (IsLogEvent(x) && IsLogEvent(y))
  {
  }

  // ---------- Order ----------

  /** `first` comes before `second` in the text, and they do not overlap. */
  ghost predicate InOrder(first: string, second: string, whole: string) {
    exists before, between, after :: Laid(first, second, whole, before, between, after)
  }

  predicate Laid(first: string, second: string, whole: string, before: string, between: string, after: string) {
    whole == before + first + between + second + after
  }

  lemma InOrderLonger(first: string, second: string, whole: string, head: string, tail: string)
    requires InOrder(first, second, whole)
    ensures InOrder(first, second, head + whole + tail)
  {
    var before, between, after :| Laid(first, second, whole, before, between, after);
    assert Laid(first, second, head + whole + tail, head + before, between, after + tail);
  }

  lemma {:induction false} InOrderInSet(functions: seq<string>, rep: seq<nat>, i: nat, j: nat)
    requires |functions| == |rep| && i < j < |functions| && rep[i] == rep[j]
    ensures InOrder(functions[i], functions[j], TextOf(functions, rep, rep[i]))
  {
    var n := |functions| - 1;
    var text := TextOf(functions[..n], rep[..n], rep[i]);
    if j == n {
      WithinItsSet(functions[..n], rep[..n], i);
      var before, after :| Surrounded(functions[i], text, before, after);
      assert Laid(functions[i], functions[n], text + functions[n], before, after, "");
    } else {
      InOrderInSet(functions[..n], rep[..n], i, j);
      var tail := if rep[n] == rep[i] then functions[n] else "";
      InOrderLonger(functions[i], functions[j], text, "", tail);
      assert "" + text + tail == text + tail;
    }
  }

  lemma {:induction false} InOrderInFile(order: seq<nat>, sets: map<nat, string>, files: seq<nat>, p: nat,
                                         first: string, second: string)
    requires |files| == |order| && Have(order, sets) && p < |order| && InOrder(first, second, sets[order[p]])
    ensures InOrder(first, second, FileText(order, sets, files, files[p]))
  {
    var n := |order| - 1;
    var before := FileText(order[..n], sets, files[..n], files[p]);
    if p == n {
      InOrderLonger(first, second, sets[order[n]], before, "");
      assert before + sets[order[n]] + "" == before + sets[order[n]];
    } else {
      InOrderInFile(order[..n], sets, files[..n], p, first, second);
      var tail := if files[n] == files[p] then sets[order[n]] else "";
      InOrderLonger(first, second, before, "", tail);
      assert "" + before + tail == before + tail;
    }
  }

  /** Connected functions come in their file in the order in which they came in the source. */
  lemma ConnectedKeepTheirOrder(
    functions: seq<string>, found: seq<seq<Name>>, m: nat, plan: Plan, files: seq<string>, i: nat, j: nat)
    requires SplitBy(functions, found, m, plan, files) && i < j < |functions| && Connected(found, i, j)
    ensures plan.rep[i] in plan.order && InOrder(functions[i], functions[j], files[FileOf(plan, m, i)])
  {
    assert plan.rep[i] in plan.sets && plan.rep[i] == plan.rep[j];
    hide Connected, Greedy, Descending, Distinct;
    InOrderInSet(functions, plan.rep, i, j);
    var where := Greedy(SizesOf(plan.order, plan.sets), m);
    InOrderInFile(plan.order, plan.sets, where, SetAt(plan, i), functions[i], functions[j]);
  }
}
