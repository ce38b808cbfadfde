/** `GroupUtils`: the three encodings of vertex groups (a group count, a
  * list of group sizes, a list of index lists), their classification and
  * validation against a vertex count, and the partition of vertex indices
  * into groups. */
module GroupUtils {
  import opened Wrappers

  /** A Python value as the group functions inspect it at run time. */
  datatype PyValue = PyInt(n: int) | PyList(items: seq<PyValue>) | PyOther

  /** The typed groups of the API: `int | list[int] | list[list[int]]`. */
  datatype Groups = Count(count: int) | Sizes(sizes: seq<int>) | Members(members: seq<seq<int>>)

  datatype GroupsFormat = FormatInt | FormatListInt | FormatListListInt

  predicate AllInts(items: seq<PyValue>)
  {
    forall i :: 0 <= i < |items| ==> items[i].PyInt?
  }

  predicate AllIntLists(items: seq<PyValue>)
  {
    forall i :: 0 <= i < |items| ==> items[i].PyList? && AllInts(items[i].items)
  }

  function IntsOf(items: seq<PyValue>): (r: seq<int>)
    requires AllInts(items)
    ensures |r| == |items| && forall i :: 0 <= i < |r| ==> items[i] == PyInt(r[i])
  {
    seq(|items|, i requires 0 <= i < |items| => items[i].n)
  }

  function IntListsOf(items: seq<PyValue>): (r: seq<seq<int>>)
    requires AllIntLists(items)
    ensures |r| == |items| && forall i :: 0 <= i < |r| ==> items[i] == PyList(seq(|r[i]|, j requires 0 <= j < |r[i]| => PyInt(r[i][j])))
  {
    seq(|items|, i requires 0 <= i < |items| => IntsOf(items[i].items))
  }

  /** A typed groups value as a Python value. */
  function ToPy(g: Groups): PyValue
  {
    match g
    case Count(n) => PyInt(n)
    case Sizes(s) => PyList(seq(|s|, i requires 0 <= i < |s| => PyInt(s[i])))
    case Members(m) => PyList(seq(|m|, i requires 0 <= i < |m| => PyList(seq(|m[i]|, j requires 0 <= j < |m[i]| => PyInt(m[i][j])))))
  }

  /** `is_instance_of_groups`: any int, any list of ints (the empty list
    * included), any list of int lists. */
  predicate IsInstanceOfGroups(g: PyValue)
  {
    g.PyInt? || (g.PyList? && (AllInts(g.items) || AllIntLists(g.items)))
  }

  /** Every typed groups value passes the run-time type check. */
  lemma TypedGroupsAreInstances(g: Groups)
    ensures IsInstanceOfGroups(ToPy(g))
  {
  }

  /** `_groups_format`: classification by the first element; an empty list,
    * or a list whose first list is empty, is a ValueError. */
  function GroupsFormatOf(g: PyValue): (r: Result<GroupsFormat>)
    ensures r == Ok(FormatInt) <==> g.PyInt?
    ensures r == Ok(FormatListInt) <==> g.PyList? && |g.items| > 0 && g.items[0].PyInt?
    ensures r == Ok(FormatListListInt) <==>
      g.PyList? && |g.items| > 0 && g.items[0].PyList? && |g.items[0].items| > 0 && g.items[0].items[0].PyInt?
    ensures r.Err? ==> r.error == ValueError
  {
    match g
    case PyInt(_) => Ok(FormatInt)
    case PyList(items) =>
      if |items| > 0 && items[0].PyInt? then Ok(FormatListInt)
      else if |items| > 0 && items[0].PyList? && |items[0].items| > 0 && items[0].items[0].PyInt? then Ok(FormatListListInt)
      else Err(ValueError)
    case PyOther => Err(ValueError)
  }

  /** `get_group_count`: the int itself, or the length of either list form. */
  function GetGroupCount(g: PyValue): (r: Result<int>)
    ensures r.Ok? <==> GroupsFormatOf(g).Ok?
    ensures r.Ok? && g.PyInt? ==> r.value == g.n
    ensures r.Ok? && g.PyList? ==> r.value == |g.items|
    ensures r.Err? ==> r.error == ValueError
  {
    match GroupsFormatOf(g)
    case Err(e) => Err(e)
    case Ok(FormatInt) => Ok(g.n)
    case Ok(_) => Ok(|g.items|)
  }

  // Sums, ranges and flattening.

  /** `sum`, accumulated left to right. */
  function Sum(s: seq<int>): int
  {
    if s == [] then 0 else Sum(s[..|s| - 1]) + s[|s| - 1]
  }

  /** `range(a, b)`: empty when b <= a. */
  function Range(a: int, b: int): (r: seq<int>)
    ensures |r| == if a <= b then b - a else 0
    ensures forall i :: 0 <= i < |r| ==> r[i] == a + i
  {
    if a >= b then [] else seq(b - a, i => a + i)
  }

  lemma RangeConcat(a: int, b: int, c: int)
    requires a <= b <= c
    ensures Range(a, b) + Range(b, c) == Range(a, c)
  {
  }

  /** The elements of all lists, in order. */
  function Flatten(s: seq<seq<int>>): seq<int>
  {
    if s == [] then [] else s[0] + Flatten(s[1..])
  }

  lemma {:induction false} FlattenContains(s: seq<seq<int>>, i: nat, x: int)
    requires i < |s| && x in s[i]
    ensures x in Flatten(s)
  {
    if i > 0 {
      FlattenContains(s[1..], i - 1, x);
    }
  }

  /** No value occurs twice. */
  predicate Distinct(s: seq<int>)
  {
    forall i, j :: 0 <= i < j < |s| ==> s[i] != s[j]
  }

  function Elements(s: seq<int>): set<int>
  {
    set x | x in s
  }

  /** `len(set(s)) == len(s)` is the same as pairwise distinctness. */
  lemma {:induction false} DistinctIffSetSize(s: seq<int>)
    ensures |Elements(s)| <= |s|
    ensures Distinct(s) <==> |Elements(s)| == |s|
    decreases |s|
  {
    if s != [] {
      var rest := s[1..];
      DistinctIffSetSize(rest);
      assert Elements(s) == {s[0]} + Elements(rest);
      if s[0] in rest {
        assert Elements(s) == Elements(rest);
        var k :| 0 <= k < |rest| && rest[k] == s[0];
        assert s[k + 1] == s[0];
        assert !Distinct(s);
      } else {
        assert |Elements(s)| == 1 + |Elements(rest)|;
        if Distinct(rest) {
          forall i, j | 0 <= i < j < |s| ensures s[i] != s[j] {
            if i > 0 {
              assert s[i] == rest[i - 1] && s[j] == rest[j - 1];
            } else {
              assert s[j] == rest[j - 1];
            }
          }
        } else {
          var i, j :| 0 <= i < j < |rest| && rest[i] == rest[j];
          assert s[i + 1] == s[j + 1];
        }
      }
    }
  }

  /** Every element of s lies in [0, n). */
  predicate AllIn(s: seq<int>, n: int)
  {
    forall i :: 0 <= i < |s| ==> 0 <= s[i] < n
  }

  /** Bounds on the flattened groups hold for every group. */
  lemma AllInParts(s: seq<seq<int>>, n: int)
    requires AllIn(Flatten(s), n)
    ensures forall i :: 0 <= i < |s| ==> AllIn(s[i], n)
  {
    forall i, j | 0 <= i < |s| && 0 <= j < |s[i]|
      ensures 0 <= s[i][j] < n
    {
      FlattenContains(s, i, s[i][j]);
    }
  }

  /** `sanity_check`: Ok exactly when `groups` is a well-formed groups value
    * that fits `vertex_count`; every failure is a ValueError. */
  function SanityCheck(vertexCount: int, g: PyValue): (r: Result<()>)
    ensures r.Err? ==> r.error == ValueError
    ensures r.Ok? ==> IsInstanceOfGroups(g) && GroupsFormatOf(g).Ok?
    ensures g.PyInt? ==> (r.Ok? <==> 0 < g.n <= vertexCount)
    ensures GroupsFormatOf(g) == Ok(FormatListInt) ==>
      (r.Ok? <==> AllInts(g.items)
                  && (forall i :: 0 <= i < |g.items| ==> g.items[i].n > 0)
                  && Sum(IntsOf(g.items)) == vertexCount)
    ensures GroupsFormatOf(g) == Ok(FormatListListInt) ==>
      (r.Ok? <==> AllIntLists(g.items)
                  && AllIn(Flatten(IntListsOf(g.items)), vertexCount)
                  && Distinct(Flatten(IntListsOf(g.items))))
  {
    if !IsInstanceOfGroups(g) then Err(ValueError)
    else
      match GroupsFormatOf(g)
      case Err(e) => Err(e)
      case Ok(FormatInt) =>
        if g.n <= 0 then Err(ValueError)
        else if g.n > vertexCount then Err(ValueError)
        else Ok(())
      case Ok(FormatListInt) =>
        var sizes := IntsOf(g.items);
        if exists i :: 0 <= i < |sizes| && sizes[i] <= 0 then Err(ValueError)
        else if Sum(sizes) != vertexCount then Err(ValueError)
        else Ok(())
      case Ok(FormatListListInt) =>
        var all := Flatten(IntListsOf(g.items));
        DistinctIffSetSize(all);
        if exists i :: 0 <= i < |all| && (all[i] < 0 || all[i] >= vertexCount) then Err(ValueError)
        else if |Elements(all)| != |all| then Err(ValueError)
        else Ok(())
  }

  /** `sanity_check_safe`: true exactly when `sanity_check` succeeds. */
  function SanityCheckSafe(vertexCount: int, g: PyValue): (ok: bool)
    ensures ok <==> SanityCheck(vertexCount, g).Ok?
  {
    SanityCheck(vertexCount, g).Ok?
  }

  // Index partitions.

  predicate NonDecreasing(b: seq<int>)
  {
    forall i, j :: 0 <= i <= j < |b| ==> b[i] <= b[j]
  }

  /** The groups [b0, b1), [b1, b2), ... between consecutive bounds. */
  function Ranges(bounds: seq<int>): (r: seq<seq<int>>)
    requires |bounds| >= 1
    ensures |r| == |bounds| - 1
    ensures forall i :: 0 <= i < |r| ==> r[i] == Range(bounds[i], bounds[i + 1])
  {
    seq(|bounds| - 1, i requires 0 <= i < |bounds| - 1 => Range(bounds[i], bounds[i + 1]))
  }

  /** Consecutive ranges concatenate to the range from the first bound to
    * the last. */
  lemma {:induction false} FlattenRanges(bounds: seq<int>)
    requires |bounds| >= 1 && NonDecreasing(bounds)
    ensures Flatten(Ranges(bounds)) == Range(bounds[0], bounds[|bounds| - 1])
    decreases |bounds|
  {
    if |bounds| > 1 {
      var rest := bounds[1..];
      assert Ranges(bounds)[1..] == Ranges(rest);
      FlattenRanges(rest);
      RangeConcat(bounds[0], bounds[1], bounds[|bounds| - 1]);
    }
  }

  predicate Disjoint(a: seq<int>, b: seq<int>)
  {
    forall x :: x in a ==> x !in b
  }

  /** Consecutive ranges share no index. */
  lemma RangesDisjoint(bounds: seq<int>)
    requires |bounds| >= 1 && NonDecreasing(bounds)
    ensures forall i, j :: 0 <= i < j < |bounds| - 1 ==> Disjoint(Ranges(bounds)[i], Ranges(bounds)[j])
  {
    forall i, j | 0 <= i < j < |bounds| - 1
      ensures Disjoint(Ranges(bounds)[i], Ranges(bounds)[j])
    {
      assert bounds[i + 1] <= bounds[j];
    }
  }

  /** The group length the int form uses, as written: n / g when g divides
    * n, and n / (g - 1) otherwise. */
  function ElementCount(n: nat, g: nat): nat
    requires g >= 1
  {
    if n % g == 0 then n / g else n / (g - 1)
  }

  /** Group i starts at e * i; the last group ends at n. */
  function IntBounds(n: nat, g: nat, e: nat): (b: seq<int>)
    requires g >= 1
    ensures |b| == g + 1 && b[0] == 0 && b[g] == n
  {
    seq(g + 1, i => if i == g then n else e * i)
  }

  lemma MulMono(a: nat, b: nat, e: nat)
    requires a <= b
    ensures e * a <= e * b
  {
  }

  lemma DivMulLeq(n: nat, d: nat)
    requires d >= 1
    ensures (n / d) * d <= n
  {
  }

  /** The bounds are ordered whenever the first g - 1 groups fit in n. */
  lemma IntBoundsOrdered(n: nat, g: nat, e: nat)
    requires g >= 1 && e * (g - 1) <= n
    ensures NonDecreasing(IntBounds(n, g, e))
  {
    var b := IntBounds(n, g, e);
    forall i, j | 0 <= i <= j < |b| ensures b[i] <= b[j] {
      if j < g {
        MulMono(i, j, e);
      } else if i < g {
        MulMono(i, g - 1, e);
      }
    }
  }

  lemma ElementCountFits(n: nat, g: nat)
    requires 1 <= g
    ensures ElementCount(n, g) * (g - 1) <= n
  {
    if n % g == 0 {
      DivMulLeq(n, g);
      assert (n / g) * (g - 1) <= (n / g) * g;
    } else {
      DivMulLeq(n, g - 1);
    }
  }

  /** The loop of `_compute_indices_per_group_int` for a group length e:
    * group i is range(e * i, e * i + e), except that the last one runs
    * to n. */
  method ConsecutiveGroups(n: nat, g: nat, e: nat) returns (groups: seq<seq<int>>)
    requires g >= 1
    ensures groups == Ranges(IntBounds(n, g, e))
  {
    groups := [];
    var i := 0;
    while i < g
      invariant 0 <= i <= g
      invariant |groups| == i
      invariant forall k :: 0 <= k < i ==> groups[k] == Range(IntBounds(n, g, e)[k], IntBounds(n, g, e)[k + 1])
    {
      var start := e * i;
      var end := if i == g - 1 then n else start + e;
      assert IntBounds(n, g, e)[i] == start;
      assert i < g - 1 ==> e * (i + 1) == start + e;
      assert IntBounds(n, g, e)[i + 1] == end;
      groups := groups + [Range(start, end)];
      i := i + 1;
    }
  }

  /** `_compute_indices_per_group_int` as written: g groups of
    * `ElementCount(n, g)` consecutive indices, the last running to n. */
  method IndicesPerGroupInt(n: nat, g: nat) returns (groups: seq<seq<int>>)
    requires 1 <= g <= n
    ensures groups == Ranges(IntBounds(n, g, ElementCount(n, g)))
  {
    groups := ConsecutiveGroups(n, g, ElementCount(n, g));
  }

  /** The int-form partition covers [0, n) in order, with disjoint groups. */
  lemma IntPartitionCovers(n: nat, g: nat)
    requires 1 <= g <= n
    ensures Flatten(Ranges(IntBounds(n, g, ElementCount(n, g)))) == Range(0, n)
    ensures var r := Ranges(IntBounds(n, g, ElementCount(n, g)));
      forall i, j :: 0 <= i < j < |r| ==> Disjoint(r[i], r[j])
  {
    ElementCountFits(n, g);
    IntBoundsOrdered(n, g, ElementCount(n, g));
    FlattenRanges(IntBounds(n, g, ElementCount(n, g)));
    RangesDisjoint(IntBounds(n, g, ElementCount(n, g)));
  }

  /** The example of the docstring: seven vertices in four groups. */
  lemma IntPartitionExample()
    ensures Ranges(IntBounds(7, 4, ElementCount(7, 4))) == [[0, 1], [2, 3], [4, 5], [6]]
  {
    var r := Ranges(IntBounds(7, 4, ElementCount(7, 4)));
    assert ElementCount(7, 4) == 2;
    assert r[0] == Range(0, 2) == [0, 1];
    assert r[1] == Range(2, 4) == [2, 3];
    assert r[2] == Range(4, 6) == [4, 5];
    assert r[3] == Range(6, 7) == [6];
  }

  /** As written, four vertices in three groups leave the last group
    * empty, although every group could hold a vertex. */
  lemma IntPartitionEmptyGroup()
    ensures Ranges(IntBounds(4, 3, ElementCount(4, 3)))[2] == []
  {
    assert ElementCount(4, 3) == 2;
  }

  /** The group length with the remainder kept non-empty: when g does not
    * divide n, (n - 1) / (g - 1) instead of n / (g - 1). */
  function ElementCountCorrected(n: nat, g: nat): nat
    requires g >= 1
  {
    if n % g == 0 then n / g else (n - 1) / (g - 1)
  }

  /** The corrected length is at least one and leaves at least one index
    * for the last group. */
  lemma CorrectedCountFits(n: nat, g: nat)
    requires 1 <= g <= n
    ensures 1 <= ElementCountCorrected(n, g) && ElementCountCorrected(n, g) * (g - 1) < n
  {
    var e := ElementCountCorrected(n, g);
    if n % g == 0 {
      DivMulLeq(n, g);
      assert n == (n / g) * g;
      assert e >= 1;
      assert e * (g - 1) == n - e;
    } else {
      assert g >= 2;
      DivMulLeq(n - 1, g - 1);
      assert e >= 1;
    }
  }

  /** Bounds that strictly increase give non-empty groups. */
  lemma IntBoundsIncreasing(n: nat, g: nat, e: nat)
    requires g >= 1 && e >= 1 && e * (g - 1) < n
    ensures forall i :: 0 <= i < g ==> IntBounds(n, g, e)[i] < IntBounds(n, g, e)[i + 1]
  {
    var b := IntBounds(n, g, e);
    forall i | 0 <= i < g ensures b[i] < b[i + 1] {
      if i + 1 < g {
        assert e * (i + 1) == e * i + e;
      } else {
        assert b[i] == e * (g - 1);
      }
    }
  }

  /** Ordered bounds that strictly increase between neighbours give a
    * partition of the whole range into disjoint non-empty groups. */
  lemma StrictPartition(b: seq<int>)
    requires |b| >= 1 && NonDecreasing(b)
    requires forall i :: 0 <= i < |b| - 1 ==> b[i] < b[i + 1]
    ensures var r := Ranges(b);
      Flatten(r) == Range(b[0], b[|b| - 1])
      && (forall i, j :: 0 <= i < j < |r| ==> Disjoint(r[i], r[j]))
      && (forall i :: 0 <= i < |r| ==> |r[i]| > 0)
  {
    FlattenRanges(b);
    RangesDisjoint(b);
  }

  /** With the corrected length, the partition still covers [0, n) with
    * disjoint groups, and no group is empty. */
  lemma CorrectedPartitionNonEmpty(n: nat, g: nat)
    requires 1 <= g <= n
    ensures var r := Ranges(IntBounds(n, g, ElementCountCorrected(n, g)));
      |r| == g
      && Flatten(r) == Range(0, n)
      && (forall i, j :: 0 <= i < j < |r| ==> Disjoint(r[i], r[j]))
      && (forall i :: 0 <= i < |r| ==> |r[i]| > 0)
  {
    var e := ElementCountCorrected(n, g);
    CorrectedCountFits(n, g);
    IntBoundsOrdered(n, g, e);
    IntBoundsIncreasing(n, g, e);
    StrictPartition(IntBounds(n, g, e));
  }

  /** Prefix sums of the group sizes: where each group starts. */
  function SizeBounds(sizes: seq<int>): (b: seq<int>)
    ensures |b| == |sizes| + 1
    ensures forall i :: 0 <= i <= |sizes| ==> b[i] == Sum(sizes[..i])
  {
    seq(|sizes| + 1, i requires 0 <= i <= |sizes| => Sum(sizes[..i]))
  }

  lemma SumSnoc(s: seq<int>, k: nat)
    requires k < |s|
    ensures Sum(s[..k + 1]) == Sum(s[..k]) + s[k]
  {
    assert s[..k + 1][..k] == s[..k];
  }

  lemma {:induction false} SizeBoundsOrdered(sizes: seq<int>)
    requires forall i :: 0 <= i < |sizes| ==> sizes[i] >= 0
    ensures NonDecreasing(SizeBounds(sizes))
  {
    var b := SizeBounds(sizes);
    forall i, j | 0 <= i <= j < |b| ensures b[i] <= b[j] {
      PrefixSumMono(sizes, i, j);
    }
  }

  lemma {:induction false} PrefixSumMono(sizes: seq<int>, i: nat, j: nat)
    requires i <= j <= |sizes|
    requires forall k :: 0 <= k < |sizes| ==> sizes[k] >= 0
    ensures Sum(sizes[..i]) <= Sum(sizes[..j])
    decreases j - i
  {
    if i < j {
      SumSnoc(sizes, j - 1);
      PrefixSumMono(sizes, i, j - 1);
    }
  }

  /** `_compute_indices_per_group_list_int`: consecutive ranges of the
    * given sizes, with a running start index. */
  method IndicesPerGroupListInt(sizes: seq<int>) returns (groups: seq<seq<int>>)
    ensures groups == Ranges(SizeBounds(sizes))
  {
    groups := [];
    var current := 0;
    var i := 0;
    while i < |sizes|
      invariant 0 <= i <= |sizes|
      invariant current == Sum(sizes[..i])
      invariant |groups| == i
      invariant forall k :: 0 <= k < i ==> groups[k] == Range(Sum(sizes[..k]), Sum(sizes[..k + 1]))
    {
      groups := groups + [Range(current, current + sizes[i])];
      SumSnoc(sizes, i);
      current := current + sizes[i];
      i := i + 1;
    }
  }

  /** The list[int] partition covers [0, sum) in order, with disjoint
    * groups of exactly the given sizes. */
  lemma SizesPartitionCovers(sizes: seq<int>)
    requires forall i :: 0 <= i < |sizes| ==> sizes[i] > 0
    ensures var r := Ranges(SizeBounds(sizes));
      Flatten(r) == Range(0, Sum(sizes))
      && (forall i, j :: 0 <= i < j < |r| ==> Disjoint(r[i], r[j]))
      && (forall i :: 0 <= i < |r| ==> |r[i]| == sizes[i])
  {
    SizeBoundsOrdered(sizes);
    var b := SizeBounds(sizes);
    assert sizes[..|sizes|] == sizes;
    FlattenRanges(b);
    RangesDisjoint(b);
    forall i | 0 <= i < |sizes| ensures |Ranges(b)[i]| == sizes[i] {
      SumSnoc(sizes, i);
    }
  }

  /** `compute_indices_per_group`: fails unless the groups pass the sanity
    * check, then partitions by format: the int form with the group length
    * as written, the list of sizes with one range per size, and index
    * lists as they are. */
  method ComputeIndicesPerGroup(vertexCount: int, g: PyValue) returns (r: Result<seq<seq<int>>>)
    ensures r.Ok? <==> SanityCheck(vertexCount, g).Ok?
    ensures r.Err? ==> r.error == AssertionError
    ensures r.Ok? ==> GetGroupCount(g) == Ok(|r.value|)
    ensures r.Ok? && !GroupsFormatOf(g).value.FormatListListInt? ==>
      Flatten(r.value) == Range(0, vertexCount)
      && (forall i, j :: 0 <= i < j < |r.value| ==> Disjoint(r.value[i], r.value[j]))
    ensures r.Ok? && GroupsFormatOf(g).value.FormatInt? ==>
      r.value == Ranges(IntBounds(vertexCount, g.n, ElementCount(vertexCount, g.n)))
    ensures r.Ok? && GroupsFormatOf(g).value.FormatListInt? ==>
      r.value == Ranges(SizeBounds(IntsOf(g.items)))
      && forall i :: 0 <= i < |r.value| ==> |r.value[i]| == IntsOf(g.items)[i]
    ensures r.Ok? && GroupsFormatOf(g).value.FormatListListInt? ==>
      r.value == IntListsOf(g.items)
      && AllIn(Flatten(r.value), vertexCount) && Distinct(Flatten(r.value))
  {
    if !SanityCheckSafe(vertexCount, g) {
      return Err(AssertionError);
    }
    match GroupsFormatOf(g).value
    case FormatInt =>
      var groups := IndicesPerGroupInt(vertexCount, g.n);
      IntPartitionCovers(vertexCount, g.n);
      return Ok(groups);
    case FormatListInt =>
      var sizes := IntsOf(g.items);
      var groups := IndicesPerGroupListInt(sizes);
      SizesPartitionCovers(sizes);
      return Ok(groups);
    case FormatListListInt =>
      return Ok(IntListsOf(g.items));
  }

  /** The int-form partition with the corrected group length, which
    * leaves no group empty (CorrectedPartitionNonEmpty). */
  method IndicesPerGroupIntCorrected(n: nat, g: nat) returns (groups: seq<seq<int>>)
    requires 1 <= g <= n
    ensures groups == Ranges(IntBounds(n, g, ElementCountCorrected(n, g)))
  {
    groups := ConsecutiveGroups(n, g, ElementCountCorrected(n, g));
  }
}
