/** The non-rendering half of refreshing the paycheck table: the items are
    put in the fixed display order, the dental-plan item is kept out of the
    generic rows, and the deduction total and net pay are worked out. */
module Ordering {
  import opened Wrappers
  import opened LineItems

  /** The display order of the codes. */
  const CanonicalOrder: seq<string> := [
    "P001", "P002", "P307", "P031", "P025", "P316", "P317", "P331",
    "D026", "D019", "D031", "D042", "D055", "D070", "D303", "D351",
    "R101", "R102", "R103", "R104", "R105"
  ]

  /** Position of the first occurrence of `x` in `xs`, or -1 when it is absent. */
  function IndexOf(xs: seq<string>, x: string): (r: int)
    ensures -1 <= r < |xs|
    ensures r >= 0 ==> xs[r] == x && forall j :: 0 <= j < r ==> xs[j] != x
    ensures r == -1 <==> x !in xs
    decreases |xs|
  {
    if |xs| == 0 then -1
    else if xs[0] == x then 0
    else
      var k := IndexOf(xs[1..], x);
      assert x in xs[1..] ==> x in xs;
      assert x in xs && xs[0] != x ==> x in xs[1..] by {
        if x in xs && xs[0] != x {
          var j :| 0 <= j < |xs| && xs[j] == x;
          assert xs[1..][j - 1] == x;
        }
      }
      if k == -1 then -1 else k + 1
  }

  /** The sort key of an item under a display order; an unknown code gets -1
      and so sorts first. */
  function Rank(order: seq<string>, item: LineItem): int {
    IndexOf(order, item.code)
  }

  ghost predicate Sorted(order: seq<string>, items: seq<LineItem>) {
    forall i, j :: 0 <= i < j < |items| ==> Rank(order, items[i]) <= Rank(order, items[j])
  }

  /** Puts `x` in front of the first item whose rank is not below its own. */
  function Insert(order: seq<string>, x: LineItem, s: seq<LineItem>): seq<LineItem>
    decreases |s|
  {
    if |s| == 0 || Rank(order, x) <= Rank(order, s[0]) then [x] + s
    else [s[0]] + Insert(order, x, s[1..])
  }

  /** Inserting adds exactly the one item. */
  lemma {:induction false} InsertPermutes(order: seq<string>, x: LineItem, s: seq<LineItem>)
    ensures multiset(Insert(order, x, s)) == multiset(s) + multiset{x}
    decreases |s|
  {
    if |s| > 0 && Rank(order, x) > Rank(order, s[0]) {
      InsertPermutes(order, x, s[1..]);
      assert s == [s[0]] + s[1..];
    }
  }

  lemma SortedTail(order: seq<string>, s: seq<LineItem>)
    requires |s| > 0 && Sorted(order, s)
    ensures Sorted(order, s[1..])
  {
    forall i, j | 0 <= i < j < |s[1..]| ensures Rank(order, s[1..][i]) <= Rank(order, s[1..][j]) {
      assert s[1..][i] == s[i + 1] && s[1..][j] == s[j + 1];
    }
  }

  /** Every item ranks at least `lo`. */
  ghost predicate RanksFrom(order: seq<string>, lo: int, s: seq<LineItem>) {
    forall k :: 0 <= k < |s| ==> lo <= Rank(order, s[k])
  }

  lemma {:induction false} InsertRanksFrom(order: seq<string>, lo: int, x: LineItem, s: seq<LineItem>)
    requires RanksFrom(order, lo, s) && lo <= Rank(order, x)
    ensures RanksFrom(order, lo, Insert(order, x, s))
    decreases |s|
  {
    if |s| > 0 && Rank(order, x) > Rank(order, s[0]) {
      assert RanksFrom(order, lo, s[1..]) by {
        forall k | 0 <= k < |s[1..]| ensures lo <= Rank(order, s[1..][k]) {
          assert s[1..][k] == s[k + 1];
        }
      }
      InsertRanksFrom(order, lo, x, s[1..]);
      var r := [s[0]] + Insert(order, x, s[1..]);
      forall k | 0 <= k < |r| ensures lo <= Rank(order, r[k]) {
        if k > 0 {
          assert r[k] == Insert(order, x, s[1..])[k - 1];
        }
      }
    }
  }

  /** A list is sorted when its head ranks lowest and its tail is sorted. */
  lemma SortedCons(order: seq<string>, h: LineItem, t: seq<LineItem>)
    requires Sorted(order, t) && RanksFrom(order, Rank(order, h), t)
    ensures Sorted(order, [h] + t)
  {
    var r := [h] + t;
    forall i, j | 0 <= i < j < |r| ensures Rank(order, r[i]) <= Rank(order, r[j]) {
      assert r[j] == t[j - 1];
      if i > 0 {
        assert r[i] == t[i - 1];
      }
    }
  }

  /** Inserting into a sorted list keeps it sorted. */
  lemma {:induction false} InsertSorted(order: seq<string>, x: LineItem, s: seq<LineItem>)
    requires Sorted(order, s)
    ensures Sorted(order, Insert(order, x, s))
    decreases |s|
  {
    if |s| == 0 || Rank(order, x) <= Rank(order, s[0]) {
      assert RanksFrom(order, Rank(order, x), s) by {
        forall k | 0 <= k < |s| ensures Rank(order, x) <= Rank(order, s[k]) {
          assert Rank(order, s[0]) <= Rank(order, s[k]) || k == 0;
        }
      }
      SortedCons(order, x, s);
    } else {
      SortedTail(order, s);
      InsertSorted(order, x, s[1..]);
      assert RanksFrom(order, Rank(order, s[0]), s[1..]) by {
        forall k | 0 <= k < |s[1..]| ensures Rank(order, s[0]) <= Rank(order, s[1..][k]) {
          assert s[1..][k] == s[k + 1];
        }
      }
      InsertRanksFrom(order, Rank(order, s[0]), x, s[1..]);
      SortedCons(order, s[0], Insert(order, x, s[1..]));
    }
  }

  /** Stable sort by rank: an insertion sort that inserts each item in front
      of the later items of equal rank. */
  function SortBy(order: seq<string>, items: seq<LineItem>): seq<LineItem>
    decreases |items|
  {
    if |items| == 0 then [] else Insert(order, items[0], SortBy(order, items[1..]))
  }

  /** Sorting is a permutation. */
  lemma {:induction false} SortPermutes(order: seq<string>, items: seq<LineItem>)
    ensures multiset(SortBy(order, items)) == multiset(items)
    decreases |items|
  {
    if |items| > 0 {
      var t := SortBy(order, items[1..]);
      SortPermutes(order, items[1..]);
      InsertPermutes(order, items[0], t);
      assert multiset(SortBy(order, items)) == multiset(items[1..]) + multiset{items[0]};
      assert items == [items[0]] + items[1..];
      assert multiset(items) == multiset{items[0]} + multiset(items[1..]);
    }
  }

  /** Sorting orders the items by rank. */
  lemma {:induction false} SortSorted(order: seq<string>, items: seq<LineItem>)
    ensures Sorted(order, SortBy(order, items))
    decreases |items|
  {
    if |items| > 0 {
      SortSorted(order, items[1..]);
      InsertSorted(order, items[0], SortBy(order, items[1..]));
    }
  }

  /** The items of one rank, in list order. */
  function WithRank(order: seq<string>, items: seq<LineItem>, k: int): seq<LineItem>
    decreases |items|
  {
    if |items| == 0 then []
    else (if Rank(order, items[0]) == k then [items[0]] else []) + WithRank(order, items[1..], k)
  }

  lemma {:induction false} InsertByRank(order: seq<string>, x: LineItem, s: seq<LineItem>, k: int)
    ensures WithRank(order, Insert(order, x, s), k) == (if Rank(order, x) == k then [x] else []) + WithRank(order, s, k)
    decreases |s|
  {
    var hx := if Rank(order, x) == k then [x] else [];
    if |s| == 0 || Rank(order, x) <= Rank(order, s[0]) {
      var r := [x] + s;
      assert r[0] == x && r[1..] == s;
    } else {
      var rest := Insert(order, x, s[1..]);
      var r := [s[0]] + rest;
      assert r[0] == s[0] && r[1..] == rest;
      InsertByRank(order, x, s[1..], k);
      var tail := WithRank(order, s[1..], k);
      if Rank(order, s[0]) == k {
        assert hx == [];
        assert WithRank(order, r, k) == [s[0]] + tail == WithRank(order, s, k);
      } else {
        assert WithRank(order, r, k) == WithRank(order, rest, k) == hx + tail;
        assert WithRank(order, s, k) == tail;
      }
    }
  }

  lemma {:induction false} InsertByCode(order: seq<string>, x: LineItem, s: seq<LineItem>, c: string)
    ensures WithCode(Insert(order, x, s), c) == (if x.code == c then [x] else []) + WithCode(s, c)
    decreases |s|
  {
    var hx := if x.code == c then [x] else [];
    if |s| == 0 || Rank(order, x) <= Rank(order, s[0]) {
      var r := [x] + s;
      assert r[0] == x && r[1..] == s;
    } else {
      var rest := Insert(order, x, s[1..]);
      var r := [s[0]] + rest;
      assert r[0] == s[0] && r[1..] == rest;
      InsertByCode(order, x, s[1..], c);
      var tail := WithCode(s[1..], c);
      if s[0].code == c {
        assert hx == [];
        assert WithCode(r, c) == [s[0]] + tail == WithCode(s, c);
      } else {
        assert WithCode(r, c) == WithCode(rest, c) == hx + tail;
        assert WithCode(s, c) == tail;
      }
    }
  }

  /** Stability: the items of each rank keep their relative order, so the
      unknown codes keep the order in which they were pushed. */
  lemma {:induction false} SortStableByRank(order: seq<string>, items: seq<LineItem>, k: int)
    ensures WithRank(order, SortBy(order, items), k) == WithRank(order, items, k)
    decreases |items|
  {
    if |items| > 0 {
      SortStableByRank(order, items[1..], k);
      InsertByRank(order, items[0], SortBy(order, items[1..]), k);
    }
  }

  /** The items of each code keep their relative order too. */
  lemma {:induction false} SortStableByCode(order: seq<string>, items: seq<LineItem>, c: string)
    ensures WithCode(SortBy(order, items), c) == WithCode(items, c)
    decreases |items|
  {
    if |items| > 0 {
      SortStableByCode(order, items[1..], c);
      InsertByCode(order, items[0], SortBy(order, items[1..]), c);
    }
  }

  lemma {:induction false} InsertKeepsSum(order: seq<string>, x: LineItem, s: seq<LineItem>, c: char)
    ensures SumWithPrefix(Insert(order, x, s), c) == SumWithPrefix([x], c) + SumWithPrefix(s, c)
    decreases |s|
  {
    if |s| == 0 || Rank(order, x) <= Rank(order, s[0]) {
      SumConcat([x], s, c);
    } else {
      var rest := Insert(order, x, s[1..]);
      var r := [s[0]] + rest;
      assert r[0] == s[0] && r[1..] == rest;
      InsertKeepsSum(order, x, s[1..], c);
    }
  }

  /** Sorting changes no total. */
  lemma {:induction false} SortKeepsSum(order: seq<string>, items: seq<LineItem>, c: char)
    ensures SumWithPrefix(SortBy(order, items), c) == SumWithPrefix(items, c)
    decreases |items|
  {
    if |items| > 0 {
      SortKeepsSum(order, items[1..], c);
      InsertKeepsSum(order, items[0], SortBy(order, items[1..]), c);
      SumConcat([items[0]], items[1..], c);
      assert [items[0]] + items[1..] == items;
    }
  }

  /** Removing a code from a sorted list leaves it sorted. */
  lemma {:induction false} RemoveKeepsSorted(order: seq<string>, s: seq<LineItem>, code: string)
    requires Sorted(order, s)
    ensures Sorted(order, RemoveItem(s, code))
    decreases |s|
  {
    if |s| > 0 {
      var rest := RemoveItem(s[1..], code);
      SortedTail(order, s);
      RemoveKeepsSorted(order, s[1..], code);
      if s[0].code == code {
        assert RemoveItem(s, code) == [] + rest;
      } else {
        assert RanksFrom(order, Rank(order, s[0]), rest) by {
          forall k | 0 <= k < |rest| ensures Rank(order, s[0]) <= Rank(order, rest[k]) {
            RemoveMembership(s[1..], code, rest[k]);
            var j :| 0 <= j < |s[1..]| && s[1..][j] == rest[k];
            assert s[1..][j] == s[j + 1];
          }
        }
        SortedCons(order, s[0], rest);
      }
    }
  }

  /** The first item with the given code, if any. */
  function FirstWithCode(items: seq<LineItem>, code: string): Option<LineItem> {
    var found := WithCode(items, code);
    if |found| == 0 then None else Some(found[0])
  }

  /** The item for the dental plan, whose amount the page writes into its own
      cell instead of a generic row. */
  const DentalCode := "D042"

  /** The deduction total and the net pay shown under the rows. */
  datatype Totals = Totals(deductions: real, net: real)

  /** The state after a table refresh: the item list, sorted in place, the
      rows rendered from it, and the totals, which are missing when there is
      no gross-pay item to read (the refresh stops there). */
  datatype Refresh = Refresh(sorted: seq<LineItem>, rows: seq<LineItem>, totals: Option<Totals>)

  function RefreshTable(items: seq<LineItem>): Refresh {
    var sorted := SortBy(CanonicalOrder, items);
    var deductions := SumWithPrefix(sorted, 'D');
    Refresh(
      sorted,
      RemoveItem(sorted, DentalCode),
      match FirstWithCode(sorted, "R103")
      case None => None
      case Some(gross) => Some(Totals(deductions, gross.amount - deductions)))
  }

  /** Sum of a list of amounts. */
  function Sum(xs: seq<real>): real
    decreases |xs|
  {
    if |xs| == 0 then 0.0 else xs[0] + Sum(xs[1..])
  }

  /** The dental-plan item is not rendered, but its amount is in the total:
      the rendered deductions plus the dental amounts make the total. */
  lemma {:induction false} DentalCountedButHidden(items: seq<LineItem>)
    ensures SumWithPrefix(RemoveItem(items, DentalCode), 'D') + Sum(AmountsOf(items, DentalCode))
            == SumWithPrefix(items, 'D')
    decreases |items|
  {
    if |items| > 0 {
      DentalCountedButHidden(items[1..]);
      var x := items[0];
      var kept := RemoveItem(items[1..], DentalCode);
      var head := if x.code == DentalCode then [] else [x];
      SumConcat(head, kept, 'D');
      AmountsOfConcat([x], items[1..], DentalCode);
      assert [x] + items[1..] == items;
      var a := AmountsOf([x], DentalCode);
      var b := AmountsOf(items[1..], DentalCode);
      assert WithCode([x], DentalCode) == (if x.code == DentalCode then [x] else []);
      SumConcatReals(a, b);
      assert HasPrefix(DentalCode, 'D');
    }
  }

  lemma {:induction false} SumConcatReals(a: seq<real>, b: seq<real>)
    ensures Sum(a + b) == Sum(a) + Sum(b)
    decreases |a|
  {
    if |a| == 0 {
      assert a + b == b;
    } else {
      assert (a + b)[0] == a[0];
      assert (a + b)[1..] == a[1..] + b;
      SumConcatReals(a[1..], b);
    }
  }

  /** A code missing from the display order ranks -1, below every known
      code, so after the refresh the unknown codes all come first. */
  lemma UnknownCodesFirst(items: seq<LineItem>)
    ensures var s := RefreshTable(items).sorted;
            forall i, j :: 0 <= i < j < |s| && s[j].code !in CanonicalOrder ==> s[i].code !in CanonicalOrder
  {
    var s := RefreshTable(items).sorted;
    SortSorted(CanonicalOrder, items);
    forall i, j | 0 <= i < j < |s| && s[j].code !in CanonicalOrder ensures s[i].code !in CanonicalOrder {
      assert Rank(CanonicalOrder, s[i]) <= Rank(CanonicalOrder, s[j]);
    }
  }

  /** What a refresh yields, stated against the unsorted list: the sorted
      list is an ordered permutation of it; the rows are the sorted list,
      still in order, without the dental-plan item; the totals exist exactly when there is a
      gross-pay item; the deduction total is the sum over every D item of the
      list, dental plan included; net pay is the first gross-pay amount of the
      list minus that total. */
  lemma RefreshSpec(items: seq<LineItem>)
    ensures Sorted(CanonicalOrder, RefreshTable(items).sorted)
    ensures multiset(RefreshTable(items).sorted) == multiset(items)
    ensures forall i :: 0 <= i < |RefreshTable(items).rows| ==> RefreshTable(items).rows[i].code != DentalCode
    ensures Sorted(CanonicalOrder, RefreshTable(items).rows)
    ensures RefreshTable(items).rows == RemoveItem(RefreshTable(items).sorted, DentalCode)
    ensures RefreshTable(items).totals.Some? <==> FirstWithCode(items, "R103").Some?
    ensures RefreshTable(items).totals.Some? ==>
              && RefreshTable(items).totals.value.deductions == SumWithPrefix(items, 'D')
              && RefreshTable(items).totals.value.net
                 == FirstWithCode(items, "R103").value.amount - SumWithPrefix(items, 'D')
  {
    SortSorted(CanonicalOrder, items);
    RemoveKeepsSorted(CanonicalOrder, RefreshTable(items).sorted, DentalCode);
    SortPermutes(CanonicalOrder, items);
    SortStableByCode(CanonicalOrder, items, "R103");
    SortKeepsSum(CanonicalOrder, items, 'D');
  }
}
