/**
 * Where outputs are put next to each other: configured positions first, where they are free, and the rest in a row,
 * in an order that does not depend on how the outputs turned up.
 */
module Placement {
  import opened Prelude
  import opened OutputNames

  datatype Point = Point(x: int, y: int)

  datatype Rect = Rect(loc: Point, w: nat, h: nat)
  {
    predicate Overlaps(o: Rect) {
      loc.x < o.loc.x + o.w && o.loc.x < loc.x + w && loc.y < o.loc.y + o.h && o.loc.y < loc.y + h
    }
  }

  /** An output with its name, its current size and the position configured for that name. */
  datatype Data = Data(output: Output, name: OutputName, w: nat, h: nat, config: Option<Point>)

  datatype Placed = Placed(output: Output, rect: Rect)

  // The order of placement.

  predicate NameLeq(a: Data, b: Data) {
    a.name.Compare(b.name) != Greater
  }

  function InsertByName(d: Data, s: seq<Data>): seq<Data> {
    if s == [] || NameLeq(d, s[0]) then [d] + s else [s[0]] + InsertByName(d, s[1..])
  }

  function SortByName(s: seq<Data>): seq<Data> {
    if s == [] then [] else InsertByName(s[0], SortByName(s[1..]))
  }

  function Filter(s: seq<Data>, configured: bool): seq<Data> {
    if s == [] then []
    else (if s[0].config.Some? == configured then [s[0]] else []) + Filter(s[1..], configured)
  }

  /** Sorted by name, and then stably with the configured ones first. */
  function PlacementOrder(s: seq<Data>): seq<Data> {
    Filter(SortByName(s), true) + Filter(SortByName(s), false)
  }

  // One output after another.

  predicate Free(rect: Rect, placed: seq<Placed>) {
    forall i | 0 <= i < |placed| :: !placed[i].rect.Overlaps(rect)
  }

  /** The largest right edge, if any. */
  function RightEdge(placed: seq<Placed>): (x: Option<int>)
    ensures x.Some? <==> placed != []
    ensures x.Some? ==> forall i | 0 <= i < |placed| :: placed[i].rect.loc.x + placed[i].rect.w <= x.value
    ensures x.Some? ==> exists i | 0 <= i < |placed| :: placed[i].rect.loc.x + placed[i].rect.w == x.value
  {
    if placed == [] then None
    else
      var edge := placed[0].rect.loc.x + placed[0].rect.w;
      var rest := RightEdge(placed[1..]);
      if rest.Some? && rest.value > edge then
        var i :| 0 <= i < |placed| - 1 && placed[1..][i].rect.loc.x + placed[1..][i].rect.w == rest.value;
        assert placed[i + 1].rect.loc.x + placed[i + 1].rect.w == rest.value;
        rest
      else Some(edge)
  }

  function PositionFor(d: Data, placed: seq<Placed>): Point {
    if d.config.Some? && Free(Rect(d.config.value, d.w, d.h), placed) then d.config.value
    else Point(RightEdge(placed).GetOr(0), 0)
  }

  function Place(order: seq<Data>): (placed: seq<Placed>)
    ensures |placed| == |order|
    ensures forall i | 0 <= i < |order| :: placed[i].output == order[i].output
  {
    if order == [] then []
    else
      var before := Place(order[..|order| - 1]);
      var d := order[|order| - 1];
      before + [Placed(d.output, Rect(PositionFor(d, before), d.w, d.h))]
  }

  // No overlaps, and configured positions where they are free.

  lemma PositionIsFree(d: Data, placed: seq<Placed>)
    ensures Free(Rect(PositionFor(d, placed), d.w, d.h), placed)
  {
  }

  /** No two placed outputs overlap. */
  lemma {:induction false} PlacedApart(order: seq<Data>, i: nat, j: nat)
    requires i < j < |order|
    ensures !Place(order)[i].rect.Overlaps(Place(order)[j].rect)
  {
    var n := |order| - 1;
    if j == n {
      PositionIsFree(order[n], Place(order[..n]));
    } else {
      PlacedApart(order[..n], i, j);
    }
  }

  lemma {:induction false} PlacePrefix(order: seq<Data>, n: nat)
    requires n <= |order|
    ensures Place(order[..n]) == Place(order)[..n]
  {
    if n < |order| {
      PlacePrefix(order[..|order| - 1], n);
      assert order[..|order| - 1][..n] == order[..n];
    } else {
      assert order[..n] == order;
    }
  }

  /** An output is at its configured position exactly when that is free among the outputs placed before it. */
  lemma {:induction false} ConfigHonouredIff(order: seq<Data>, i: nat)
    requires i < |order| && order[i].config.Some?
    ensures Place(order)[i].rect == Rect(order[i].config.value, order[i].w, order[i].h)
      <==> Free(Rect(order[i].config.value, order[i].w, order[i].h), Place(order)[..i])
  {
    PlacePrefix(order, i);
    PlacePrefix(order, i + 1);
    assert order[..i + 1][..i] == order[..i];
    assert Place(order[..i + 1])[i] == Place(order)[i];
    PositionIsFree(order[i], Place(order)[..i]);
  }

  /**
   * An output without a configured position, or whose position is taken, is flush with the right edge of those placed
   * before it, at the top; the first is at the origin.
   */
  lemma {:induction false} OthersGoToTheRight(order: seq<Data>, i: nat)
    requires i < |order|
    requires order[i].config.Some? ==> !Free(Rect(order[i].config.value, order[i].w, order[i].h), Place(order)[..i])
    ensures
      var placed, rect := Place(order), Place(order)[i].rect;
      && rect.loc.y == 0 && rect.w == order[i].w && rect.h == order[i].h
      && (forall j | 0 <= j < i :: placed[j].rect.loc.x + placed[j].rect.w <= rect.loc.x)
      && (if i == 0 then rect.loc.x == 0 else exists j | 0 <= j < i :: placed[j].rect.loc.x + placed[j].rect.w == rect.loc.x)
  {
    PlaceNext(order, i);
    var before := Place(order)[..i];
    assert forall j | 0 <= j < i :: before[j] == Place(order)[j];
  }

  function Widths(order: seq<Data>): nat {
    if order == [] then 0 else Widths(order[..|order| - 1]) + order[|order| - 1].w
  }

  /** Without configured positions the outputs stand in one row, in the order of placement. */
  lemma {:induction false} RowWithoutConfig(order: seq<Data>, i: nat)
    requires i < |order| && forall j | 0 <= j < |order| :: order[j].config.None?
    ensures Place(order)[i].rect == Rect(Point(Widths(order[..i]), 0), order[i].w, order[i].h)
  {
    OthersGoToTheRight(order, i);
    var placed := Place(order);
    if i > 0 {
      forall j | 0 <= j < i ensures placed[j].rect.loc.x + placed[j].rect.w == Widths(order[..j + 1]) <= Widths(order[..i]) {
        RowWithoutConfig(order, j);
        assert order[..j + 1][..j] == order[..j];
        WidthsGrow(order, j + 1, i);
      }
      assert placed[i - 1].rect.loc.x + placed[i - 1].rect.w == Widths(order[..i]);
    }
  }

  lemma {:induction false} WidthsGrow(order: seq<Data>, i: nat, j: nat)
    requires i <= j <= |order|
    ensures Widths(order[..i]) <= Widths(order[..j])
  {
    if i < j {
      WidthsGrow(order, i, j - 1);
      assert order[..j][..j - 1] == order[..j - 1];
    }
  }

  // Independence of the order in which the outputs are listed.

  ghost predicate Sorted(s: seq<Data>) {
    forall i, j | 0 <= i < j < |s| :: NameLeq(s[i], s[j])
  }

  lemma NameLeqTransitive(a: Data, b: Data, c: Data)
    requires NameLeq(a, b) && NameLeq(b, c)
    ensures NameLeq(a, c)
  {
    CompareReverse(a.name, b.name);
    CompareReverse(b.name, c.name);
    if a.name.Compare(b.name) == Less && b.name.Compare(c.name) == Less {
      CompareTransitive(a.name, b.name, c.name);
    }
  }

  lemma PrependSorted(d: Data, s: seq<Data>)
    requires Sorted(s) && forall x | x in s :: NameLeq(d, x)
    ensures Sorted([d] + s)
  {
  }

  lemma PrependMultiset(d: Data, x: Data, s: seq<Data>, rest: seq<Data>)
    requires multiset(rest) == multiset([d] + s)
    ensures multiset([x] + rest) == multiset([d] + ([x] + s))
    ensures forall y | y in rest :: y == d || y in s
  {
    forall y | y in rest ensures y == d || y in s {
      assert y in multiset(rest);
      assert y in [d] + s;
    }
  }

  lemma {:induction false} InsertSorts(d: Data, s: seq<Data>)
    requires Sorted(s)
    ensures Sorted(InsertByName(d, s)) && multiset(InsertByName(d, s)) == multiset([d] + s)
  {
    if s == [] {
      assert [d] + s == [d];
    } else if NameLeq(d, s[0]) {
      forall x | x in s ensures NameLeq(d, x) {
        FirstIsLeast(s, x);
        NameLeqTransitive(d, s[0], x);
      }
      PrependSorted(d, s);
    } else {
      CompareReverse(d.name, s[0].name);
      var rest := InsertByName(d, s[1..]);
      InsertSorts(d, s[1..]);
      PrependMultiset(d, s[0], s[1..], rest);
      assert s == [s[0]] + s[1..];
      PrependSorted(s[0], rest);
    }
  }

  lemma {:induction false} SortSorts(s: seq<Data>)
    ensures Sorted(SortByName(s)) && multiset(SortByName(s)) == multiset(s)
  {
    if s != [] {
      SortSorts(s[1..]);
      InsertSorts(s[0], SortByName(s[1..]));
      assert s == [s[0]] + s[1..];
    }
  }

  /** The first of a sorted sequence has the least name of all. */
  lemma FirstIsLeast(s: seq<Data>, d: Data)
    requires Sorted(s) && d in s
    ensures NameLeq(s[0], d)
  {
    CompareReverse(d.name, d.name);
  }

  lemma TailMultiset(s: seq<Data>)
    requires s != []
    ensures multiset(s) == multiset{s[0]} + multiset(s[1..])
  {
    assert s == [s[0]] + s[1..];
  }

  lemma SortedHeadsAgree(s: seq<Data>, t: seq<Data>)
    requires s != [] && Sorted(s) && Sorted(t) && multiset(s) == multiset(t)
    requires forall a, b | a in s && b in s && a.name == b.name :: a == b
    ensures t != [] && s[0] == t[0]
  {
    assert s[0] in multiset(s);
    assert s[0] in t;
    assert t[0] in multiset(t);
    assert t[0] in s;
    FirstIsLeast(s, t[0]);
    FirstIsLeast(t, s[0]);
    CompareReverse(s[0].name, t[0].name);
  }

  lemma TailSorted(s: seq<Data>)
    requires s != [] && Sorted(s)
    ensures Sorted(s[1..]) && forall d | d in s[1..] :: d in s
  {
  }

  lemma TailMultisetsAgree(s: seq<Data>, t: seq<Data>)
    requires s != [] && t != [] && s[0] == t[0] && multiset(s) == multiset(t)
    ensures multiset(s[1..]) == multiset(t[1..])
  {
    TailMultiset(s);
    TailMultiset(t);
    assert multiset(s[1..]) == multiset(s) - multiset{s[0]};
    assert multiset(t[1..]) == multiset(t) - multiset{t[0]};
  }

  lemma {:induction false} SortedIsUnique(s: seq<Data>, t: seq<Data>)
    requires Sorted(s) && Sorted(t) && multiset(s) == multiset(t)
    requires forall a, b | a in s && b in s && a.name == b.name :: a == b
    ensures s == t
  {
    if s == [] {
      assert |multiset(t)| == 0;
    } else {
      SortedHeadsAgree(s, t);
      TailMultisetsAgree(s, t);
      TailSorted(s);
      TailSorted(t);
      SortedIsUnique(s[1..], t[1..]);
      assert s == [s[0]] + s[1..] && t == [t[0]] + t[1..];
    }
  }

  /** The placement order, and with it the whole placement, is the same however the outputs are listed. */
  lemma PlacementIgnoresListing(s: seq<Data>, t: seq<Data>)
    requires multiset(s) == multiset(t)
    requires forall a, b | a in s && b in s && a.name == b.name :: a == b
    ensures PlacementOrder(s) == PlacementOrder(t) && Place(PlacementOrder(s)) == Place(PlacementOrder(t))
  {
    SortSorts(s);
    SortSorts(t);
    var a, b := SortByName(s), SortByName(t);
    forall x | x in a ensures x in s {
      assert x in multiset(a);
      assert x in multiset(s);
    }
    SortedIsUnique(a, b);
  }

  lemma {:induction false} FilterParts(s: seq<Data>)
    ensures multiset(Filter(s, true) + Filter(s, false)) == multiset(s)
    ensures forall d | d in Filter(s, true) :: d.config.Some?
    ensures forall d | d in Filter(s, false) :: d.config.None?
  {
    if s != [] {
      FilterParts(s[1..]);
      assert s == [s[0]] + s[1..];
    }
  }

  lemma OrderKeepsAll(s: seq<Data>)
    ensures multiset(PlacementOrder(s)) == multiset(s) && |PlacementOrder(s)| == |s|
  {
    SortSorts(s);
    FilterParts(SortByName(s));
    assert |multiset(PlacementOrder(s))| == |multiset(s)|;
  }

  /** Every output with a configured position is placed before every one without. */
  lemma ConfiguredComeFirst(s: seq<Data>, i: nat, j: nat)
    requires i < j < |PlacementOrder(s)|
    ensures PlacementOrder(s)[j].config.Some? ==> PlacementOrder(s)[i].config.Some?
  {
    var a, b := Filter(SortByName(s), true), Filter(SortByName(s), false);
    FilterParts(SortByName(s));
    if i < |a| {
      assert a[i] in a;
    } else {
      assert b[j - |a|] in b;
    }
  }

  /** Among those with a configured position, and among those without, the order is by name. */
  lemma PartsAreSorted(s: seq<Data>, i: nat, j: nat)
    requires i < j < |PlacementOrder(s)| && PlacementOrder(s)[i].config.Some? == PlacementOrder(s)[j].config.Some?
    ensures NameLeq(PlacementOrder(s)[i], PlacementOrder(s)[j])
  {
    SortSorts(s);
    var sorted := SortByName(s);
    FilterParts(sorted);
    FilterStaysSorted(sorted, true);
    FilterStaysSorted(sorted, false);
    var a, b := Filter(sorted, true), Filter(sorted, false);
    assert i < |a| ==> a[i] in a;
    assert j >= |a| ==> b[j - |a|] in b;
    if j < |a| {
      assert NameLeq(a[i], a[j]);
    } else if i >= |a| {
      assert NameLeq(b[i - |a|], b[j - |a|]);
    }
  }

  lemma {:induction false} FilterStaysSorted(s: seq<Data>, configured: bool)
    requires Sorted(s)
    ensures Sorted(Filter(s, configured)) && forall d | d in Filter(s, configured) :: d in s
  {
    if s != [] {
      TailSorted(s);
      FilterStaysSorted(s[1..], configured);
      var rest := Filter(s[1..], configured);
      forall d | d in rest ensures NameLeq(s[0], d) {
        FirstIsLeast(s, d);
      }
      PrependSorted(s[0], rest);
      assert [] + rest == rest;
    }
  }

  // Repositioning.

  /** What placement depends on besides which outputs there are. */
  datatype Setup = Setup(name: Output -> OutputName, width: Output -> nat, height: Output -> nat, config: OutputName -> Option<Point>)
  {
    function Describe(o: Output): Data {
      Data(o, name(o), width(o), height(o), config(name(o)))
    }

    function List(outputs: seq<Output>): (list: seq<Data>)
      ensures |list| == |outputs|
      ensures forall i | 0 <= i < |outputs| :: list[i] == Describe(outputs[i])
    {
      seq(|outputs|, i requires 0 <= i < |outputs| => Describe(outputs[i]))
    }

    ghost predicate NamesDistinct(outputs: seq<Output>) {
      forall a, b | a in outputs && b in outputs && name(a) == name(b) :: a == b
    }
  }

  function PlacedOutputs(space: seq<Placed>): (outputs: seq<Output>)
    ensures |outputs| == |space|
    ensures forall i | 0 <= i < |space| :: outputs[i] == space[i].output
  {
    seq(|space|, i requires 0 <= i < |space| => space[i].output)
  }

  function Repositioned(setup: Setup, outputs: seq<Output>): seq<Placed> {
    Place(PlacementOrder(setup.List(outputs)))
  }

  function PositionIn(space: seq<Placed>, o: Output): Option<Point> {
    if space == [] then None
    else if space[0].output == o then Some(space[0].rect.loc)
    else PositionIn(space[1..], o)
  }

  lemma {:induction false} OrderDescribes(setup: Setup, outputs: seq<Output>)
    ensures PlacementOrder(setup.List(outputs)) == setup.List(PlacedOutputs(Repositioned(setup, outputs)))
  {
    var list := setup.List(outputs);
    var order := PlacementOrder(list);
    OrderKeepsAll(list);
    forall i | 0 <= i < |order| ensures order[i] == setup.Describe(order[i].output) {
      assert order[i] in multiset(order);
      assert order[i] in multiset(list);
      assert order[i] in list;
    }
  }

  /** Repositioning the result again, in whatever order its outputs are then listed, places everything where it is. */
  lemma {:induction false} RepositionIsFixpoint(setup: Setup, outputs: seq<Output>, relisted: seq<Output>)
    requires setup.NamesDistinct(outputs)
    requires multiset(relisted) == multiset(PlacedOutputs(Repositioned(setup, outputs)))
    ensures Repositioned(setup, relisted) == Repositioned(setup, outputs)
  {
    var list := setup.List(outputs);
    OrderDescribes(setup, outputs);
    OrderKeepsAll(list);
    var placed := PlacedOutputs(Repositioned(setup, outputs));
    ListKeepsMultiset(setup, relisted, placed);
    forall a, b | a in setup.List(relisted) && b in setup.List(relisted) && a.name == b.name ensures a == b {
      assert a in multiset(setup.List(relisted)) && b in multiset(setup.List(relisted));
      assert a in multiset(list) && b in multiset(list);
      assert a in list && b in list;
      assert a == setup.Describe(a.output) && b == setup.Describe(b.output);
    }
    PlacementIgnoresListing(setup.List(relisted), list);
  }

  lemma CountOf<T>(s: seq<T>, x: T)
    requires s != []
    ensures multiset(s)[x] == (if s[0] == x then 1 else 0) + multiset(s[1..])[x]
  {
    assert s == [s[0]] + s[1..];
  }

  lemma {:induction false} ListCounts(setup: Setup, s: seq<Output>, d: Data)
    ensures multiset(setup.List(s))[d] == if d == setup.Describe(d.output) then multiset(s)[d.output] else 0
  {
    if s != [] {
      ListCounts(setup, s[1..], d);
      CountOf(s, d.output);
      CountOf(setup.List(s), d);
      assert setup.List(s)[1..] == setup.List(s[1..]);
    }
  }

  lemma {:induction false} ListKeepsMultiset(setup: Setup, a: seq<Output>, b: seq<Output>)
    ensures multiset(a) == multiset(b) <==> multiset(setup.List(a)) == multiset(setup.List(b))
  {
    forall d: Data ensures multiset(a) == multiset(b) ==> multiset(setup.List(a))[d] == multiset(setup.List(b))[d] {
      ListCounts(setup, a, d);
      ListCounts(setup, b, d);
    }
    forall o: Output ensures multiset(setup.List(a)) == multiset(setup.List(b)) ==> multiset(a)[o] == multiset(b)[o] {
      ListCounts(setup, a, setup.Describe(o));
      ListCounts(setup, b, setup.Describe(o));
    }
  }

  // Neighbours in the resulting order.

  function SkipTo(s: seq<Output>, o: Output): seq<Output> {
    if s == [] || s[0] == o then s else SkipTo(s[1..], o)
  }

  function Reverse(s: seq<Output>): seq<Output> {
    if s == [] then [] else Reverse(s[1..]) + [s[0]]
  }

  /** The output after `current`, wrapping around; none if there is no other. */
  function NextOf(outputs: seq<Output>, current: Output): Option<Output> {
    var after := SkipTo(outputs, current);
    var next := if |after| > 1 then Some(after[1]) else if outputs != [] then Some(outputs[0]) else None;
    if next == Some(current) then None else next
  }

  function PreviousOf(outputs: seq<Output>, current: Output): Option<Output> {
    var after := SkipTo(Reverse(outputs), current);
    var previous := if |after| > 1 then Some(after[1]) else if outputs != [] then Some(outputs[|outputs| - 1]) else None;
    if previous == Some(current) then None else previous
  }

  ghost predicate Distinct(s: seq<Output>) {
    forall i, j | 0 <= i < j < |s| :: s[i] != s[j]
  }

  lemma {:induction false} SkipToAt(s: seq<Output>, i: nat)
    requires Distinct(s) && i < |s|
    ensures SkipTo(s, s[i]) == s[i..]
  {
    if i > 0 {
      SkipToAt(s[1..], i - 1);
    }
  }

  lemma {:induction false} ReverseAt(s: seq<Output>, i: nat)
    requires i < |s|
    ensures |Reverse(s)| == |s| && Reverse(s)[i] == s[|s| - 1 - i]
  {
    if |s| > 1 {
      ReverseAt(s[1..], if i < |s| - 1 then i else 0);
    }
  }

  lemma {:induction false} ReverseDistinct(s: seq<Output>)
    requires Distinct(s)
    ensures Distinct(Reverse(s)) && |Reverse(s)| == |s|
  {
    if s != [] {
      ReverseAt(s, 0);
      forall i, j | 0 <= i < j < |s| ensures Reverse(s)[i] != Reverse(s)[j] {
        ReverseAt(s, i);
        ReverseAt(s, j);
      }
    }
  }

  /** The neighbours of the i-th of several outputs are those around it on the circle. */
  lemma {:induction false} Neighbours(s: seq<Output>, i: nat)
    requires Distinct(s) && i < |s| && |s| > 1
    ensures NextOf(s, s[i]) == Some(s[if i + 1 == |s| then 0 else i + 1])
    ensures PreviousOf(s, s[i]) == Some(s[if i == 0 then |s| - 1 else i - 1])
  {
    SkipToAt(s, i);
    ReverseDistinct(s);
    var r, k := Reverse(s), |s| - 1 - i;
    ReverseAt(s, k);
    SkipToAt(r, k);
    if k + 1 < |s| {
      ReverseAt(s, k + 1);
    }
  }

  /** Going to the next output and back, or the other way round, returns to the start. */
  lemma {:induction false} NextAndPreviousAreInverse(s: seq<Output>, o: Output)
    requires Distinct(s) && o in s
    ensures NextOf(s, o).Some? <==> |s| > 1
    ensures PreviousOf(s, o).Some? <==> |s| > 1
    ensures |s| > 1 ==> NextOf(s, o).value in s && PreviousOf(s, NextOf(s, o).value) == Some(o)
    ensures |s| > 1 ==> PreviousOf(s, o).value in s && NextOf(s, PreviousOf(s, o).value) == Some(o)
  {
    var i :| 0 <= i < |s| && s[i] == o;
    if |s| > 1 {
      Neighbours(s, i);
      Neighbours(s, if i + 1 == |s| then 0 else i + 1);
      Neighbours(s, if i == 0 then |s| - 1 else i - 1);
    } else {
      assert s == [o];
      assert Reverse(s) == [o];
    }
  }

  /** The outputs mapped in the global space, and the order derived from placing them. */
  class OutputSpace {
    var space: seq<Placed>
    var sortedOutputs: seq<Output>
    var ipcOutputsChanged: bool
    var redrawQueued: set<Output>

    constructor ()
      ensures space == [] && sortedOutputs == [] && !ipcOutputsChanged && redrawQueued == {}
    {
      space, sortedOutputs, ipcOutputsChanged, redrawQueued := [], [], false, {};
    }

    method ListOutputs(setup: Setup, newOutput: Option<Output>) returns (listed: seq<Data>)
      ensures listed == setup.List(PlacedOutputs(space) + (if newOutput.Some? then [newOutput.value] else []))
    {
      ghost var mapped := PlacedOutputs(space);
      listed := [];
      for i := 0 to |space|
        invariant listed == setup.List(mapped[..i])
      {
        assert mapped[..i + 1] == mapped[..i] + [space[i].output];
        listed := listed + [setup.Describe(space[i].output)];
      }
      assert mapped[..|space|] == mapped;
      if newOutput.Some? {
        listed := listed + [setup.Describe(newOutput.value)];
        assert listed == setup.List(mapped + [newOutput.value]);
      } else {
        assert mapped + [] == mapped;
      }
    }

    /** Maps one output; `position` is where it was. */
    method MapOutput(d: Data, position: Option<Point>)
      modifies this`space, this`ipcOutputsChanged, this`redrawQueued
      ensures
        var target := PositionFor(d, old(space));
        && space == old(space) + [Placed(d.output, Rect(target, d.w, d.h))]
        && ipcOutputsChanged == (old(ipcOutputsChanged) || Some(target) != position)
        && redrawQueued == old(redrawQueued) + (if Some(target) != position then {d.output} else {})
    {
      var target: Option<Point> := None;
      if d.config.Some? {
        var i := 0;
        while i < |space| && !space[i].rect.Overlaps(Rect(d.config.value, d.w, d.h))
          invariant i <= |space| && Free(Rect(d.config.value, d.w, d.h), space[..i])
        {
          assert space[..i + 1] == space[..i] + [space[i]];
          i := i + 1;
        }
        if i == |space| {
          assert space[..i] == space;
          target := d.config;
        }
      }
      if target.None? {
        target := Some(Point(RightEdge(space).GetOr(0), 0));
      }
      space := space + [Placed(d.output, Rect(target.value, d.w, d.h))];
      if target != position {
        ipcOutputsChanged := true;
        redrawQueued := redrawQueued + {d.output};
      }
    }

    /** Places all outputs anew, with possibly one more; only those that move are redrawn. */
    method RepositionOutputs(setup: Setup, newOutput: Option<Output>)
      modifies this
      ensures
        var outputs := PlacedOutputs(old(space)) + (if newOutput.Some? then [newOutput.value] else []);
        && space == Repositioned(setup, outputs)
        && sortedOutputs == PlacedOutputs(space)
      ensures redrawQueued == old(redrawQueued) + Moved(old(space), space)
      ensures ipcOutputsChanged == (old(ipcOutputsChanged) || Moved(old(space), space) != {})
    {
      var before := space;
      var listed := ListOutputs(setup, newOutput);
      space := [];
      var order := PlacementOrder(listed);
      sortedOutputs := seq(|order|, i requires 0 <= i < |order| => order[i].output);
      for i := 0 to |order|
        invariant space == Place(order)[..i]
        invariant redrawQueued == old(redrawQueued) + Moved(before, space)
        invariant ipcOutputsChanged == (old(ipcOutputsChanged) || Moved(before, space) != {})
        invariant |sortedOutputs| == |order| && forall j | 0 <= j < |order| :: sortedOutputs[j] == order[j].output
      {
        PlaceNext(order, i);
        MovedGrows(before, space, Place(order)[i]);
        MapOutput(order[i], PositionIn(before, order[i].output));
      }
    }
  }

  lemma {:induction false} PlaceNext(order: seq<Data>, i: nat)
    requires i < |order|
    ensures
      var before := Place(order)[..i];
      var next := Placed(order[i].output, Rect(PositionFor(order[i], before), order[i].w, order[i].h));
      Place(order)[i] == next && Place(order)[..i + 1] == before + [next]
  {
    PlacePrefix(order, i);
    PlacePrefix(order, i + 1);
    assert order[..i + 1][..i] == order[..i];
  }

  /** The outputs that `after` has elsewhere than `before` had them. */
  function Moved(before: seq<Placed>, after: seq<Placed>): set<Output> {
    set i | 0 <= i < |after| && Some(after[i].rect.loc) != PositionIn(before, after[i].output) :: after[i].output
  }

  lemma {:induction false} PositionAt(space: seq<Placed>, i: nat)
    requires i < |space| && Distinct(PlacedOutputs(space))
    ensures PositionIn(space, space[i].output) == Some(space[i].rect.loc)
  {
    if i > 0 {
      assert PlacedOutputs(space)[0] != PlacedOutputs(space)[i];
      assert PlacedOutputs(space[1..]) == PlacedOutputs(space)[1..];
      PositionAt(space[1..], i - 1);
    }
  }

  lemma {:induction false} MovedGrows(before: seq<Placed>, after: seq<Placed>, next: Placed)
    ensures Moved(before, after + [next]) ==
      Moved(before, after) + (if Some(next.rect.loc) != PositionIn(before, next.output) then {next.output} else {})
  {
    var all := after + [next];
    forall o | o in Moved(before, after) ensures o in Moved(before, all) {
      var i :| 0 <= i < |after| && Some(after[i].rect.loc) != PositionIn(before, after[i].output) && after[i].output == o;
      assert all[i] == after[i];
    }
    assert all[|after|] == next;
  }

  lemma {:induction false} DistinctCounts(s: seq<Output>)
    ensures Distinct(s) <==> forall o :: multiset(s)[o] <= 1
  {
    if s != [] {
      DistinctCounts(s[1..]);
      assert s == [s[0]] + s[1..];
      assert multiset(s) == multiset{s[0]} + multiset(s[1..]);
      if Distinct(s) {
        assert forall j | 0 <= j < |s| - 1 :: s[1..][j] == s[j + 1];
        assert s[0] !in s[1..];
      } else if s[0] in s[1..] {
        assert multiset(s)[s[0]] >= 2;
      } else {
        assert !Distinct(s[1..]);
        var o :| multiset(s[1..])[o] > 1;
        assert multiset(s)[o] > 1;
      }
    }
  }

  /** Repositioning without a new output right after repositioning moves nothing, so nothing is redrawn. */
  lemma {:induction false} RepositioningAgainMovesNothing(setup: Setup, outputs: seq<Output>)
    requires setup.NamesDistinct(outputs) && Distinct(outputs)
    ensures
      var space := Repositioned(setup, outputs);
      Repositioned(setup, PlacedOutputs(space)) == space && Moved(space, space) == {}
  {
    var space := Repositioned(setup, outputs);
    var placed := PlacedOutputs(space);
    RepositionIsFixpoint(setup, outputs, placed);
    PlacedIsPermutation(setup, outputs);
    DistinctCounts(outputs);
    DistinctCounts(placed);
    forall i | 0 <= i < |space| ensures Some(space[i].rect.loc) == PositionIn(space, space[i].output) {
      PositionAt(space, i);
    }
  }

  lemma {:induction false} PlacedIsPermutation(setup: Setup, outputs: seq<Output>)
    ensures multiset(PlacedOutputs(Repositioned(setup, outputs))) == multiset(outputs)
  {
    var placed := PlacedOutputs(Repositioned(setup, outputs));
    OrderDescribes(setup, outputs);
    OrderKeepsAll(setup.List(outputs));
    ListKeepsMultiset(setup, placed, outputs);
  }
}
