/**
 * Fund allocations and their reconciliation: lists of `{name, amount}` pairs
 * are flattened and summed per fund name, funds kept in the order in which
 * they are first seen.
 */
module Allocations {
  import opened Wrappers
  import opened Errors

  /** One fund's dollar share. */
  datatype Allocation = Allocation(name: string, amount: real)

  /** Concatenation of a list of lists, left to right (the spread-and-reduce step). */
  function Flatten<T>(lists: seq<seq<T>>): seq<T>
  {
    if |lists| == 0 then [] else Flatten(lists[..|lists| - 1]) + lists[|lists| - 1]
  }

  /** Some allocation goes to fund `n`. */
  ghost predicate Has(xs: seq<Allocation>, n: string)
  {
    exists i :: 0 <= i < |xs| && xs[i].name == n
  }

  /** No fund name occurs twice. */
  ghost predicate DistinctNames(xs: seq<Allocation>)
  {
    forall i, j :: 0 <= i < j < |xs| ==> xs[i].name != xs[j].name
  }

  /** The sum of the amounts allocated to fund `n`. */
  function SumFor(xs: seq<Allocation>, n: string): real
  {
    if |xs| == 0 then 0.0
    else SumFor(xs[..|xs| - 1], n) + (if xs[|xs| - 1].name == n then xs[|xs| - 1].amount else 0.0)
  }

  /** The sum of all amounts. */
  function Total(xs: seq<Allocation>): real
  {
    if |xs| == 0 then 0.0 else Total(xs[..|xs| - 1]) + xs[|xs| - 1].amount
  }

  /** The position of the first allocation to fund `n`, or -1 when there is none. */
  function IndexOf(xs: seq<Allocation>, n: string): (i: int)
    ensures -1 <= i < |xs|
    ensures 0 <= i ==> xs[i].name == n
  {
    IndexFrom(xs, n, 0)
  }

  /** The position of the first allocation to fund `n` at or after `k`, or -1. */
  function IndexFrom(xs: seq<Allocation>, n: string, k: nat): (i: int)
    requires k <= |xs|
    ensures i == -1 || k <= i < |xs|
    ensures 0 <= i ==> xs[i].name == n
    decreases |xs| - k
  {
    if k == |xs| then -1
    else if xs[k].name == n then k
    else IndexFrom(xs, n, k + 1)
  }

  lemma {:induction false} IndexFromFirst(xs: seq<Allocation>, n: string, k: nat)
    requires k <= |xs|
    ensures forall j :: k <= j < |xs| && (IndexFrom(xs, n, k) < 0 || j < IndexFrom(xs, n, k)) ==> xs[j].name != n
    decreases |xs| - k
  {
    if k < |xs| && xs[k].name != n {
      IndexFromFirst(xs, n, k + 1);
    }
  }

  /** `IndexOf` finds the first allocation to `n`, and finds one exactly when there is one. */
  lemma IndexOfFirst(xs: seq<Allocation>, n: string)
    ensures 0 <= IndexOf(xs, n) ==> forall j :: 0 <= j < IndexOf(xs, n) ==> xs[j].name != n
    ensures IndexOf(xs, n) < 0 <==> !Has(xs, n)
  {
    IndexFromFirst(xs, n, 0);
  }

  /**
   * One step of the reconciling fold: the amount is added to the fund's
   * running total when the fund is already present, otherwise the
   * allocation is appended as a new fund.
   */
  function Add(acc: seq<Allocation>, a: Allocation): seq<Allocation>
  {
    var i := IndexOf(acc, a.name);
    if i < 0 then acc + [a] else acc[i := Allocation(a.name, acc[i].amount + a.amount)]
  }

  /**
   * `r` is the reconciliation of `xs`: fund names are pairwise distinct,
   * exactly the names of `xs` occur, each fund carries the sum of all of
   * its amounts in `xs`, and funds are listed in the order of their first
   * occurrence in `xs`.
   */
  ghost predicate Groups(r: seq<Allocation>, xs: seq<Allocation>)
  {
    && DistinctNames(r)
    && (forall n :: Has(r, n) <==> Has(xs, n))
    && (forall k :: 0 <= k < |r| ==> r[k].amount == SumFor(xs, r[k].name))
    && (forall i, j :: 0 <= i < j < |r| ==> IndexOf(xs, r[i].name) < IndexOf(xs, r[j].name))
  }

  /** Summing by fund name over a flat list, keeping first-seen order. */
  function GroupByName(xs: seq<Allocation>): seq<Allocation>
  {
    if |xs| == 0 then [] else Add(GroupByName(xs[..|xs| - 1]), xs[|xs| - 1])
  }

  /** The fold computes a reconciliation of its input. */
  lemma {:induction false} GroupByNameGroups(xs: seq<Allocation>)
    ensures Groups(GroupByName(xs), xs)
  {
    if |xs| > 0 {
      var p := xs[..|xs| - 1];
      GroupByNameGroups(p);
      AddExtendsGrouping(p, xs[|xs| - 1], GroupByName(p));
      assert p + [xs[|xs| - 1]] == xs;
    }
  }

  /**
   * `reconcileDistributions`: flattens the lists and groups the result by
   * fund name. The source reduces the outer list without a seed, so an
   * empty outer list is a failure.
   */
  function Reconcile(lists: seq<seq<Allocation>>): (r: Result<seq<Allocation>, EngineError>)
    ensures r.Failure? <==> |lists| == 0
    ensures r.Failure? ==> r.error == EmptyReduce
    ensures r.Success? ==> Groups(r.value, Flatten(lists))
  {
    if |lists| == 0 then Failure(EmptyReduce)
    else
      GroupByNameGroups(Flatten(lists));
      Success(GroupByName(Flatten(lists)))
  }

  // ---------------------------------------------------------------------
  // Facts about names, sums and first positions
  // ---------------------------------------------------------------------

  lemma HasAppend(xs: seq<Allocation>, a: Allocation, n: string)
    ensures Has(xs + [a], n) <==> Has(xs, n) || n == a.name
  {
    if Has(xs, n) {
      var i :| 0 <= i < |xs| && xs[i].name == n;
      assert (xs + [a])[i] == xs[i];
    }
    if n == a.name {
      assert (xs + [a])[|xs|] == a;
    }
    if Has(xs + [a], n) && n != a.name {
      var i :| 0 <= i < |xs + [a]| && (xs + [a])[i].name == n;
      assert xs[i] == (xs + [a])[i];
    }
  }

  lemma {:induction false} SumForAbsent(xs: seq<Allocation>, n: string)
    requires !Has(xs, n)
    ensures SumFor(xs, n) == 0.0
  {
    if |xs| > 0 {
      var p := xs[..|xs| - 1];
      HasAppend(p, xs[|xs| - 1], n);
      assert p + [xs[|xs| - 1]] == xs;
      SumForAbsent(p, n);
    }
  }

  /** Appending an allocation does not move the first position of a fund already present. */
  lemma IndexOfAppend(xs: seq<Allocation>, a: Allocation, n: string)
    ensures Has(xs, n) ==> IndexOf(xs + [a], n) == IndexOf(xs, n)
    ensures !Has(xs, n) && n == a.name ==> IndexOf(xs + [a], n) == |xs|
  {
    var i := IndexOf(xs + [a], n);
    var k := IndexOf(xs, n);
    HasAppend(xs, a, n);
    IndexOfFirst(xs + [a], n);
    IndexOfFirst(xs, n);
    if Has(xs, n) {
      assert (xs + [a])[k].name == n;
    } else if n == a.name {
      assert (xs + [a])[|xs|].name == n;
    }
  }

  /** Two lists with the same names agree on every first position. */
  lemma IndexOfSameNames(xs: seq<Allocation>, ys: seq<Allocation>, n: string)
    requires |xs| == |ys|
    requires forall k :: 0 <= k < |xs| ==> xs[k].name == ys[k].name
    ensures IndexOf(xs, n) == IndexOf(ys, n)
  {
    var i := IndexOf(xs, n);
    var j := IndexOf(ys, n);
    IndexOfFirst(xs, n);
    IndexOfFirst(ys, n);
    if Has(xs, n) {
      var k :| 0 <= k < |xs| && xs[k].name == n;
      assert ys[k].name == n;
    }
    if Has(ys, n) {
      var k :| 0 <= k < |ys| && ys[k].name == n;
      assert xs[k].name == n;
    }
    if 0 <= i && 0 <= j {
      assert !(i < j) && !(j < i);
    }
  }

  lemma SumForAppend(xs: seq<Allocation>, a: Allocation, n: string)
    ensures SumFor(xs + [a], n) == SumFor(xs, n) + (if a.name == n then a.amount else 0.0)
  {
    assert (xs + [a])[..|xs|] == xs;
  }

  /** A fund present in `p` keeps its first position when `a` is appended. */
  lemma IndexOfAppendPresent(p: seq<Allocation>, a: Allocation, g: seq<Allocation>, k: int)
    requires forall n :: Has(g, n) <==> Has(p, n)
    requires 0 <= k < |g|
    ensures IndexOf(p + [a], g[k].name) == IndexOf(p, g[k].name) < |p|
  {
    assert Has(g, g[k].name);
    IndexOfAppend(p, a, g[k].name);
  }

  /** One fold step extends a reconciliation of `p` to one of `p + [a]`. */
  lemma AddExtendsGrouping(p: seq<Allocation>, a: Allocation, g: seq<Allocation>)
    requires Groups(g, p)
    ensures Groups(Add(g, a), p + [a])
  {
    IndexOfFirst(g, a.name);
    if IndexOf(g, a.name) < 0 {
      AppendExtendsGrouping(p, a, g);
    } else {
      RaiseExtendsGrouping(p, a, g);
    }
  }

  lemma AppendExtendsGrouping(p: seq<Allocation>, a: Allocation, g: seq<Allocation>)
    requires Groups(g, p)
    requires IndexOf(g, a.name) < 0
    ensures Groups(Add(g, a), p + [a])
  {
    var xs := p + [a];
    var r := Add(g, a);
    assert r == g + [a];
    IndexOfFirst(g, a.name);
    assert !Has(p, a.name);
    SumForAbsent(p, a.name);
    SumForAppend(p, a, a.name);
    IndexOfAppend(p, a, a.name);
    forall n
      ensures Has(r, n) <==> Has(xs, n)
    {
      HasAppend(p, a, n);
      HasAppend(g, a, n);
    }
    forall k | 0 <= k < |r|
      ensures r[k].amount == SumFor(xs, r[k].name)
    {
      SumForAppend(p, a, r[k].name);
      if k < |g| {
        assert Has(g, g[k].name);
      }
    }
    forall u, v | 0 <= u < v < |r|
      ensures IndexOf(xs, r[u].name) < IndexOf(xs, r[v].name)
    {
      IndexOfAppendPresent(p, a, g, u);
      if v < |g| {
        IndexOfAppendPresent(p, a, g, v);
      }
    }
    forall u, v | 0 <= u < v < |r|
      ensures r[u].name != r[v].name
    {
      if v == |g| {
        assert Has(g, r[u].name);
      }
    }
  }

  lemma RaiseExtendsGrouping(p: seq<Allocation>, a: Allocation, g: seq<Allocation>)
    requires Groups(g, p)
    requires 0 <= IndexOf(g, a.name)
    ensures Groups(Add(g, a), p + [a])
  {
    var xs := p + [a];
    var i := IndexOf(g, a.name);
    var r := Add(g, a);
    assert r == g[i := Allocation(a.name, g[i].amount + a.amount)];
    forall n
      ensures Has(r, n) <==> Has(xs, n)
    {
      HasAppend(p, a, n);
      if Has(r, n) {
        var k :| 0 <= k < |r| && r[k].name == n;
        assert g[k].name == n;
      }
      if Has(g, n) {
        var k :| 0 <= k < |g| && g[k].name == n;
        assert r[k].name == n;
      }
    }
    forall k | 0 <= k < |r|
      ensures r[k].amount == SumFor(xs, r[k].name)
    {
      SumForAppend(p, a, r[k].name);
    }
    forall u, v | 0 <= u < v < |r|
      ensures IndexOf(xs, r[u].name) < IndexOf(xs, r[v].name)
    {
      IndexOfAppendPresent(p, a, g, u);
      IndexOfAppendPresent(p, a, g, v);
    }
  }

  // ---------------------------------------------------------------------
  // Totals are preserved
  // ---------------------------------------------------------------------

  lemma {:induction false} TotalConcat(a: seq<Allocation>, b: seq<Allocation>)
    ensures Total(a + b) == Total(a) + Total(b)
  {
    if |b| > 0 {
      var b' := b[..|b| - 1];
      assert (a + b)[..|a + b| - 1] == a + b';
      TotalConcat(a, b');
    } else {
      assert a + b == a;
    }
  }

  lemma {:induction false} TotalUpdate(xs: seq<Allocation>, i: nat, x: Allocation)
    requires i < |xs|
    ensures Total(xs[i := x]) == Total(xs) - xs[i].amount + x.amount
  {
    var p := xs[..|xs| - 1];
    if i < |xs| - 1 {
      assert xs[i := x][..|xs| - 1] == p[i := x];
      TotalUpdate(p, i, x);
    } else {
      assert xs[i := x][..|xs| - 1] == p;
    }
  }

  /** Each fold step adds exactly the allocation's amount to the total. */
  lemma AddTotal(acc: seq<Allocation>, a: Allocation)
    ensures Total(Add(acc, a)) == Total(acc) + a.amount
  {
    var i := IndexOf(acc, a.name);
    if i < 0 {
      assert (acc + [a])[..|acc|] == acc;
    } else {
      TotalUpdate(acc, i, Allocation(a.name, acc[i].amount + a.amount));
    }
  }

  /** Grouping by name neither creates nor loses money. */
  lemma {:induction false} GroupByNameTotal(xs: seq<Allocation>)
    ensures Total(GroupByName(xs)) == Total(xs)
  {
    if |xs| > 0 {
      GroupByNameTotal(xs[..|xs| - 1]);
      AddTotal(GroupByName(xs[..|xs| - 1]), xs[|xs| - 1]);
    }
  }

  function TotalOfLists(lists: seq<seq<Allocation>>): real
  {
    if |lists| == 0 then 0.0 else TotalOfLists(lists[..|lists| - 1]) + Total(lists[|lists| - 1])
  }

  lemma {:induction false} FlattenTotal(lists: seq<seq<Allocation>>)
    ensures Total(Flatten(lists)) == TotalOfLists(lists)
  {
    if |lists| > 0 {
      FlattenTotal(lists[..|lists| - 1]);
      TotalConcat(Flatten(lists[..|lists| - 1]), lists[|lists| - 1]);
    }
  }

  /** The reconciled list carries exactly the money of all the input lists together. */
  lemma {:induction false} ReconcileTotal(lists: seq<seq<Allocation>>)
    requires |lists| > 0
    ensures Reconcile(lists).Success?
    ensures Total(Reconcile(lists).value) == TotalOfLists(lists)
  {
    GroupByNameTotal(Flatten(lists));
    FlattenTotal(lists);
  }

  // ---------------------------------------------------------------------
  // Each fund keeps its money
  // ---------------------------------------------------------------------

  /** In a list without repeated names, a fund's sum is its single entry. */
  lemma {:induction false} SumForDistinct(r: seq<Allocation>, k: nat)
    requires DistinctNames(r)
    requires k < |r|
    ensures SumFor(r, r[k].name) == r[k].amount
  {
    var p := r[..|r| - 1];
    assert forall i :: 0 <= i < |p| ==> p[i] == r[i];
    if k == |r| - 1 {
      SumForAbsent(p, r[k].name);
    } else {
      SumForDistinct(p, k);
    }
  }

  /** A reconciliation gives every fund, named in the input or not, exactly its sum in the input. */
  lemma {:induction false} GroupsSumFor(r: seq<Allocation>, xs: seq<Allocation>, n: string)
    requires Groups(r, xs)
    ensures SumFor(r, n) == SumFor(xs, n)
  {
    if Has(r, n) {
      var k :| 0 <= k < |r| && r[k].name == n;
      SumForDistinct(r, k);
    } else {
      SumForAbsent(r, n);
      SumForAbsent(xs, n);
    }
  }

  lemma {:induction false} SumForConcat(a: seq<Allocation>, b: seq<Allocation>, n: string)
    ensures SumFor(a + b, n) == SumFor(a, n) + SumFor(b, n)
  {
    if |b| > 0 {
      var b' := b[..|b| - 1];
      assert (a + b)[..|a + b| - 1] == a + b';
      SumForConcat(a, b', n);
    } else {
      assert a + b == a;
    }
  }

  /** The sum for fund `n` in each list, added up over the lists. */
  function SumForLists(lists: seq<seq<Allocation>>, n: string): real
  {
    if |lists| == 0 then 0.0 else SumForLists(lists[..|lists| - 1], n) + SumFor(lists[|lists| - 1], n)
  }

  lemma {:induction false} FlattenSumFor(lists: seq<seq<Allocation>>, n: string)
    ensures SumFor(Flatten(lists), n) == SumForLists(lists, n)
  {
    if |lists| > 0 {
      FlattenSumFor(lists[..|lists| - 1], n);
      SumForConcat(Flatten(lists[..|lists| - 1]), lists[|lists| - 1], n);
    }
  }

  /** Reconciling gives each fund exactly what the input lists allocate to it. */
  lemma {:induction false} ReconcileSumFor(lists: seq<seq<Allocation>>, n: string)
    requires |lists| > 0
    ensures Reconcile(lists).Success?
    ensures SumFor(Reconcile(lists).value, n) == SumForLists(lists, n)
  {
    GroupsSumFor(Reconcile(lists).value, Flatten(lists), n);
    FlattenSumFor(lists, n);
  }

  // ---------------------------------------------------------------------
  // Reconciling in two stages equals reconciling once
  // ---------------------------------------------------------------------

  /** The reconciling fold started from an arbitrary accumulator. */
  function GroupInto(acc: seq<Allocation>, xs: seq<Allocation>): seq<Allocation>
  {
    if |xs| == 0 then acc else Add(GroupInto(acc, xs[..|xs| - 1]), xs[|xs| - 1])
  }

  lemma {:induction false} GroupByNameIsGroupInto(xs: seq<Allocation>)
    ensures GroupByName(xs) == GroupInto([], xs)
  {
    if |xs| > 0 {
      GroupByNameIsGroupInto(xs[..|xs| - 1]);
    }
  }

  lemma {:induction false} GroupIntoConcat(acc: seq<Allocation>, a: seq<Allocation>, b: seq<Allocation>)
    ensures GroupInto(acc, a + b) == GroupInto(GroupInto(acc, a), b)
  {
    if |b| == 0 {
      assert a + b == a;
    } else {
      var b' := b[..|b| - 1];
      assert (a + b)[..|a + b| - 1] == a + b';
      GroupIntoConcat(acc, a, b');
    }
  }

  /** Folding an allocation in keeps every fund already present and adds the new one. */
  lemma AddHas(acc: seq<Allocation>, a: Allocation, n: string)
    requires Has(acc, n) || n == a.name
    ensures Has(Add(acc, a), n)
  {
    var i := IndexOf(acc, a.name);
    IndexOfFirst(acc, a.name);
    if i < 0 {
      HasAppend(acc, a, n);
    } else if n != a.name {
      var k :| 0 <= k < |acc| && acc[k].name == n;
      assert Add(acc, a)[k].name == n;
    } else {
      assert Add(acc, a)[i].name == n;
    }
  }

  lemma {:induction false} GroupIntoMentions(acc: seq<Allocation>, xs: seq<Allocation>, n: string)
    requires Has(xs, n)
    ensures Has(GroupInto(acc, xs), n)
  {
    var p := xs[..|xs| - 1];
    HasAppend(p, xs[|xs| - 1], n);
    assert p + [xs[|xs| - 1]] == xs;
    if Has(p, n) {
      GroupIntoMentions(acc, p, n);
    }
    AddHas(GroupInto(acc, p), xs[|xs| - 1], n);
  }

  /** Two amounts for the same fund may be added before they are folded in. */
  lemma AddTwice(s: seq<Allocation>, n: string, v: real, w: real)
    ensures Add(Add(s, Allocation(n, v)), Allocation(n, w)) == Add(s, Allocation(n, v + w))
  {
    var i := IndexOf(s, n);
    IndexOfFirst(s, n);
    if i < 0 {
      IndexOfAppend(s, Allocation(n, v), n);
    } else {
      var s1 := Add(s, Allocation(n, v));
      IndexOfSameNames(s, s1, n);
    }
  }

  /** Folding in an allocation to a fund already present commutes with folding in one to another fund. */
  lemma AddCommute(s: seq<Allocation>, x: Allocation, y: Allocation)
    requires Has(s, x.name)
    requires x.name != y.name
    ensures Add(Add(s, x), y) == Add(Add(s, y), x)
  {
    IndexOfFirst(s, x.name);
    IndexOfFirst(s, y.name);
    if IndexOf(s, y.name) < 0 {
      AddCommuteNew(s, x, y);
    } else {
      AddCommuteBoth(s, x, y);
    }
  }

  lemma AddCommuteNew(s: seq<Allocation>, x: Allocation, y: Allocation)
    requires 0 <= IndexOf(s, x.name)
    requires IndexOf(s, y.name) < 0
    ensures Add(Add(s, x), y) == Add(Add(s, y), x)
  {
    var ix := IndexOf(s, x.name);
    var x' := Allocation(x.name, s[ix].amount + x.amount);
    var sx := s[ix := x'];
    assert Add(s, x) == sx;
    IndexOfSameNames(s, sx, y.name);
    assert Add(sx, y) == sx + [y];
    assert Add(s, y) == s + [y];
    IndexOfFirst(s, x.name);
    IndexOfAppend(s, y, x.name);
    assert Add(s + [y], x) == (s + [y])[ix := x'];
    assert (s + [y])[ix := x'] == sx + [y];
  }

  lemma AddCommuteBoth(s: seq<Allocation>, x: Allocation, y: Allocation)
    requires 0 <= IndexOf(s, x.name)
    requires 0 <= IndexOf(s, y.name)
    requires x.name != y.name
    ensures Add(Add(s, x), y) == Add(Add(s, y), x)
  {
    var ix := IndexOf(s, x.name);
    var iy := IndexOf(s, y.name);
    var x' := Allocation(x.name, s[ix].amount + x.amount);
    var y' := Allocation(y.name, s[iy].amount + y.amount);
    AddAt(s, x, ix);
    AddAt(s, y, iy);
    RaiseKeepsIndex(s, ix, x', y.name);
    RaiseKeepsIndex(s, iy, y', x.name);
    AddAt(s[ix := x'], y, iy);
    AddAt(s[iy := y'], x, ix);
    assert s[ix := x'][iy := y'] == s[iy := y'][ix := x'];
  }

  /** Replacing an entry by one for the same fund moves no fund's first position. */
  lemma RaiseKeepsIndex(s: seq<Allocation>, k: nat, v: Allocation, n: string)
    requires k < |s| && v.name == s[k].name
    ensures IndexOf(s[k := v], n) == IndexOf(s, n)
  {
    IndexOfSameNames(s, s[k := v], n);
  }

  /** Folding in an allocation to a fund found at position `i` raises that entry. */
  lemma AddAt(s: seq<Allocation>, a: Allocation, i: nat)
    requires i < |s| && IndexOf(s, a.name) == i
    ensures Add(s, a) == s[i := Allocation(a.name, s[i].amount + a.amount)]
  {
  }

  /**
   * Folding a reconciled list whose entry `i` was raised by `w` is the same
   * as folding the list and then folding in `w` for that fund.
   */
  lemma {:induction false} AbsorbRaise(acc: seq<Allocation>, g: seq<Allocation>, i: nat, w: real)
    requires DistinctNames(g)
    requires i < |g|
    ensures GroupInto(acc, g[i := Allocation(g[i].name, g[i].amount + w)])
         == Add(GroupInto(acc, g), Allocation(g[i].name, w))
  {
    var n := g[i].name;
    var p := g[..|g| - 1];
    var last := g[|g| - 1];
    var s := GroupInto(acc, p);
    var raised := g[i := Allocation(n, g[i].amount + w)];
    assert GroupInto(acc, g) == Add(s, last);
    if i == |g| - 1 {
      assert raised[..|g| - 1] == p;
      assert GroupInto(acc, raised) == Add(s, Allocation(n, last.amount + w));
      AddTwice(s, n, last.amount, w);
    } else {
      var p' := p[i := Allocation(n, p[i].amount + w)];
      assert raised[..|g| - 1] == p';
      assert raised[|g| - 1] == last;
      assert GroupInto(acc, raised) == Add(GroupInto(acc, p'), last);
      AbsorbRaise(acc, p, i, w);
      assert GroupInto(acc, p') == Add(s, Allocation(n, w));
      assert Has(p, n) by {
        assert p[i].name == n;
      }
      GroupIntoMentions(acc, p, n);
      AddCommute(s, Allocation(n, w), last);
    }
  }

  /** Folding `Add(g, y)` is folding `g` and then `y`, when `g` names each fund once. */
  lemma GroupIntoAdd(acc: seq<Allocation>, g: seq<Allocation>, y: Allocation)
    requires DistinctNames(g)
    ensures GroupInto(acc, Add(g, y)) == Add(GroupInto(acc, g), y)
  {
    var i := IndexOf(g, y.name);
    if i < 0 {
      assert Add(g, y) == g + [y];
      assert (g + [y])[..|g|] == g;
    } else {
      AddAt(g, y, i);
      AbsorbRaise(acc, g, i, y.amount);
      assert Allocation(g[i].name, y.amount) == y;
    }
  }

  /** Folding an already reconciled list is the same as folding the raw list. */
  lemma {:induction false} GroupIntoGrouped(acc: seq<Allocation>, xs: seq<Allocation>)
    ensures GroupInto(acc, GroupByName(xs)) == GroupInto(acc, xs)
  {
    if |xs| > 0 {
      var p := xs[..|xs| - 1];
      var y := xs[|xs| - 1];
      GroupIntoGrouped(acc, p);
      GroupByNameGroups(p);
      GroupIntoAdd(acc, GroupByName(p), y);
    }
  }

  /** Reconciles each list of `lists` on its own. */
  function GroupEach(lists: seq<seq<Allocation>>): (r: seq<seq<Allocation>>)
    ensures |r| == |lists|
    ensures forall i :: 0 <= i < |lists| ==> r[i] == GroupByName(lists[i])
  {
    seq(|lists|, i requires 0 <= i < |lists| => GroupByName(lists[i]))
  }

  /**
   * Two-level reconciliation: grouping the separately reconciled lists
   * yields the same list as grouping all allocations at once.
   */
  lemma {:induction false} GroupOfGroups(lists: seq<seq<Allocation>>)
    ensures GroupByName(Flatten(GroupEach(lists))) == GroupByName(Flatten(lists))
  {
    GroupByNameIsGroupInto(Flatten(GroupEach(lists)));
    GroupByNameIsGroupInto(Flatten(lists));
    if |lists| > 0 {
      var p := lists[..|lists| - 1];
      var l := lists[|lists| - 1];
      assert GroupEach(lists)[..|lists| - 1] == GroupEach(p);
      GroupOfGroups(p);
      GroupByNameIsGroupInto(Flatten(GroupEach(p)));
      GroupByNameIsGroupInto(Flatten(p));
      GroupIntoConcat([], Flatten(GroupEach(p)), GroupByName(l));
      GroupIntoConcat([], Flatten(p), l);
      GroupIntoGrouped(GroupInto([], Flatten(p)), l);
    }
  }

  /** Reconciling per-list reconciliations equals reconciling the original lists. */
  lemma ReconcileOfReconciled(lists: seq<seq<Allocation>>)
    requires |lists| > 0
    ensures Reconcile(GroupEach(lists)) == Reconcile(lists)
  {
    GroupOfGroups(lists);
  }
}
