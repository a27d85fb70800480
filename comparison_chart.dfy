/**
 * The rows of the comparison bar chart (src/components/ComparisonChart.tsx):
 * one row per distinct label of the two breakdowns, in first-occurrence
 * order, then a final "Total" row.
 */
module ComparisonChart {
  import opened CostTypes

  /** One bar group: a category and the value plotted for each configuration. */
  datatype ChartRow = ChartRow(category: string, value1: real, value2: real)

  predicate NoDuplicates(s: seq<string>)
  {
    forall i, j :: 0 <= i < j < |s| ==> s[i] != s[j]
  }

  /**
   * The iteration order of a JavaScript `Set` built from `s`, leaving out
   * the values in `seen`: each value at its first occurrence.
   */
  function DedupFrom(s: seq<string>, seen: set<string>): (r: seq<string>)
    ensures NoDuplicates(r)
    ensures forall x :: x in r <==> x in s && x !in seen
    ensures |r| <= |s|
  {
    if s == [] then
      []
    else if s[0] in seen then
      DedupFrom(s[1..], seen)
    else
      var rest := DedupFrom(s[1..], seen + {s[0]});
      assert forall x :: x in s <==> x == s[0] || x in s[1..];
      [s[0]] + rest
  }

  /** The position of the first occurrence of `x` in `s`. */
  function FirstIndex(s: seq<string>, x: string): (k: nat)
    requires x in s
    ensures k < |s| && s[k] == x
  {
    if s[0] == x then
      0
    else
      assert x in s[1..];
      1 + FirstIndex(s[1..], x)
  }

  /** Past a different head, the first occurrence is one further on than in the tail. */
  lemma FirstIndexPastHead(s: seq<string>, x: string)
    requires x in s && x != s[0]
    ensures x in s[1..] && FirstIndex(s, x) == 1 + FirstIndex(s[1..], x)
  {
  }

  /** `new Set([...labels1, ...labels2])`, in iteration order. */
  function Categories(breakdown1: GenericCostBreakdown, breakdown2: GenericCostBreakdown): seq<string>
  {
    DedupFrom(Labels(breakdown1.items) + Labels(breakdown2.items), {})
  }

  /** Index `k` holds the first item called `name`. */
  predicate IsFirstNamed(items: seq<CostItem>, k: int, name: string)
  {
    0 <= k < |items| && items[k].name == name && forall j :: 0 <= j < k ==> items[j].name != name
  }

  /**
   * `items.find(item => item.label === label)?.cost || 0`: the cost of the
   * first item with that name, or 0 when there is none.
   */
  function CostOf(items: seq<CostItem>, name: string): (cost: real)
    ensures (forall k :: 0 <= k < |items| ==> items[k].name != name) ==> cost == 0.0
    ensures forall k :: IsFirstNamed(items, k, name) ==> cost == items[k].cost
  {
    if items == [] then
      0.0
    else if items[0].name == name then
      items[0].cost
    else
      var rest := CostOf(items[1..], name);
      assert forall k :: 1 <= k < |items| ==> items[k] == items[1..][k - 1];
      rest
  }

  function CategoryRow(category: string, breakdown1: GenericCostBreakdown, breakdown2: GenericCostBreakdown): ChartRow
  {
    ChartRow(category, CostOf(breakdown1.items, category), CostOf(breakdown2.items, category))
  }

  /** Builds the category rows, then appends the Total row. */
  method ChartData(breakdown1: GenericCostBreakdown, breakdown2: GenericCostBreakdown) returns (chartData: seq<ChartRow>)
    ensures |chartData| == |Categories(breakdown1, breakdown2)| + 1
    ensures forall i :: 0 <= i < |chartData| - 1 ==>
              chartData[i] == CategoryRow(Categories(breakdown1, breakdown2)[i], breakdown1, breakdown2)
    ensures chartData[|chartData| - 1] == ChartRow("Total", breakdown1.total, breakdown2.total)
    ensures |chartData| == |(set x | x in Labels(breakdown1.items)) + (set x | x in Labels(breakdown2.items))| + 1
  {
    CategoryCount(breakdown1, breakdown2);
    var categories := Categories(breakdown1, breakdown2);
    chartData := seq(|categories|, i requires 0 <= i < |categories| => CategoryRow(categories[i], breakdown1, breakdown2));
    chartData := chartData + [ChartRow("Total", breakdown1.total, breakdown2.total)];
  }

  // ---------------------------------------------------------------------
  // Properties
  // ---------------------------------------------------------------------

  /** De-duplicating a concatenation de-duplicates the first part, then what the first part did not show. */
  lemma {:induction false} DedupAppend(a: seq<string>, b: seq<string>, seen: set<string>)
    ensures DedupFrom(a + b, seen) == DedupFrom(a, seen) + DedupFrom(b, seen + set x | x in a)
  {
    if a == [] {
      assert a + b == b;
      assert (set x | x in a) == {};
      assert seen + {} == seen;
    } else {
      assert (a + b)[1..] == a[1..] + b;
      assert (a + b)[0] == a[0];
      if a[0] in seen {
        DedupAppend(a[1..], b, seen);
        assert seen + (set x | x in a[1..]) == seen + (set x | x in a);
      } else {
        DedupAppend(a[1..], b, seen + {a[0]});
        assert seen + {a[0]} + (set x | x in a[1..]) == seen + (set x | x in a);
      }
    }
  }

  /**
   * The categories are breakdown1's distinct labels in first-occurrence
   * order, followed by breakdown2's labels that breakdown1 does not have.
   */
  lemma CategoriesOrder(breakdown1: GenericCostBreakdown, breakdown2: GenericCostBreakdown)
    ensures Categories(breakdown1, breakdown2)
         == DedupFrom(Labels(breakdown1.items), {})
          + DedupFrom(Labels(breakdown2.items), set x | x in Labels(breakdown1.items))
    ensures NoDuplicates(Categories(breakdown1, breakdown2))
  {
    var l1, l2 := Labels(breakdown1.items), Labels(breakdown2.items);
    DedupAppend(l1, l2, {});
    assert {} + (set x | x in l1) == set x | x in l1;
  }

  /** The values come out in the order of their first occurrence in the input. */
  lemma {:induction false} DedupFirstOccurrenceOrder(s: seq<string>, seen: set<string>)
    ensures forall i, j :: 0 <= i < j < |DedupFrom(s, seen)| ==>
              FirstIndex(s, DedupFrom(s, seen)[i]) < FirstIndex(s, DedupFrom(s, seen)[j])
  {
    if s != [] {
      var r := DedupFrom(s, seen);
      var seen' := if s[0] in seen then seen else seen + {s[0]};
      var rest := DedupFrom(s[1..], seen');
      DedupFirstOccurrenceOrder(s[1..], seen');
      forall i, j | 0 <= i < j < |r| ensures FirstIndex(s, r[i]) < FirstIndex(s, r[j]) {
        var d := |r| - |rest|;
        assert d == 0 || d == 1;
        assert r[j] == rest[j - d] && r[j] in rest;
        FirstIndexPastHead(s, r[j]);
        if i >= d {
          assert r[i] == rest[i - d] && r[i] in rest;
          FirstIndexPastHead(s, r[i]);
        }
      }
    }
  }

  /** A sequence without duplicates has as many elements as its set of values. */
  lemma {:induction false} DistinctCount(s: seq<string>)
    requires NoDuplicates(s)
    ensures |s| == |set x | x in s|
  {
    if s != [] {
      DistinctCount(s[1..]);
      assert (set x | x in s) == {s[0]} + (set x | x in s[1..]);
      assert s[0] !in s[1..];
    }
  }

  /** There is one category per distinct label of either breakdown. */
  lemma CategoryCount(breakdown1: GenericCostBreakdown, breakdown2: GenericCostBreakdown)
    ensures |Categories(breakdown1, breakdown2)|
         == |(set x | x in Labels(breakdown1.items)) + (set x | x in Labels(breakdown2.items))|
  {
    var l1, l2 := Labels(breakdown1.items), Labels(breakdown2.items);
    var cats := Categories(breakdown1, breakdown2);
    DistinctCount(cats);
    assert (set x | x in cats) == (set x | x in l1) + (set x | x in l2);
  }

  /** A duplicate-free sequence whose values were all seen before contributes nothing. */
  lemma {:induction false} DedupAllSeen(s: seq<string>, seen: set<string>)
    requires forall x :: x in s ==> x in seen
    ensures DedupFrom(s, seen) == []
  {
    if s != [] {
      DedupAllSeen(s[1..], seen);
    }
  }

  /** A duplicate-free sequence with none of its values seen comes out unchanged. */
  lemma {:induction false} DedupFresh(s: seq<string>, seen: set<string>)
    requires NoDuplicates(s)
    requires forall x :: x in s ==> x !in seen
    ensures DedupFrom(s, seen) == s
  {
    if s != [] {
      assert s[0] !in s[1..];
      DedupFresh(s[1..], seen + {s[0]});
      assert [s[0]] + s[1..] == s;
    }
  }

  /** Two breakdowns with the same duplicate-free labels chart exactly those labels, in order. */
  lemma SameLabelsKeepOrder(breakdown1: GenericCostBreakdown, breakdown2: GenericCostBreakdown)
    requires Labels(breakdown1.items) == Labels(breakdown2.items)
    requires NoDuplicates(Labels(breakdown1.items))
    ensures Categories(breakdown1, breakdown2) == Labels(breakdown1.items)
  {
    var l := Labels(breakdown1.items);
    CategoriesOrder(breakdown1, breakdown2);
    DedupFresh(l, {});
    DedupAllSeen(l, set x | x in l);
    assert l + [] == l;
  }
}
