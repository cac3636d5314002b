/** Progressive income-tax withholding: a scan of an ordered bracket table that
    picks a rate and a fixed deduction for a taxable base. */
module IncomeTax {
  import opened Wrappers

  /** One row of the table: an upper limit (absent for the open top bracket),
      the rate as a fraction, and the amount deducted from base * rate. */
  datatype Bracket = Bracket(limit: Option<real>, rate: real, deduction: real)

  /** The limit is truthy: present and not zero. A zero limit behaves exactly
      like a missing one. */
  predicate Bounded(b: Bracket) {
    b.limit.Some? && b.limit.value != 0.0
  }

  /** The bracket has a truthy limit and the base does not exceed it. */
  predicate Covers(b: Bracket, base: real) {
    Bounded(b) && base <= b.limit.value
  }

  /** The rate and deduction the scan settles on. */
  datatype Selection = Selection(rate: real, deduction: real)

  function SelectionOf(b: Bracket): Selection {
    Selection(b.rate, b.deduction)
  }

  const NoSelection := Selection(0.0, 0.0)

  /** The scan: a covering bracket wins and stops it; a bracket without a
      truthy limit overwrites the current choice and lets it go on; a bounded
      bracket that does not cover the base is passed over. */
  function Scan(base: real, table: seq<Bracket>, current: Selection): Selection
    decreases |table|
  {
    if |table| == 0 then current
    else if Covers(table[0], base) then SelectionOf(table[0])
    else Scan(base, table[1..], if !Bounded(table[0]) then SelectionOf(table[0]) else current)
  }

  /** The scan ends on the choice it started with or on some row of the table. */
  lemma {:induction false} ScanPicksFromTable(base: real, table: seq<Bracket>, current: Selection)
    ensures Scan(base, table, current) == current
            || exists i :: 0 <= i < |table| && Scan(base, table, current) == SelectionOf(table[i])
    decreases |table|
  {
    if |table| > 0 && !Covers(table[0], base) {
      var next := if !Bounded(table[0]) then SelectionOf(table[0]) else current;
      var s := Scan(base, table[1..], next);
      ScanPicksFromTable(base, table[1..], next);
      if s != next {
        var i :| 0 <= i < |table[1..]| && s == SelectionOf(table[1..][i]);
        assert s == SelectionOf(table[i + 1]);
      } else if next != current {
        assert s == SelectionOf(table[0]);
      }
    }
  }

  /** The selection for a base: a rate of zero and no deduction unless some
      bracket is chosen. */
  function SelectBracket(base: real, table: seq<Bracket>): Selection {
    Scan(base, table, NoSelection)
  }

  /** What the calculator hands back: the tax to withhold and the rate used. */
  datatype Withholding = Withholding(tax: real, rate: real)

  /** Tax is base * rate - deduction for the selected bracket, floored at zero. */
  function ComputeIncomeTax(base: real, table: seq<Bracket>): Withholding {
    var s := SelectBracket(base, table);
    var t := base * s.rate - s.deduction;
    Withholding(if t < 0.0 then 0.0 else t, s.rate)
  }

  /** The withholding is never negative and never below base * rate less the
      selected deduction; it is either zero or exactly that amount; the rate
      reported and taxed with is the selected bracket's, so zero or the rate
      of some row. */
  lemma WithholdingSpec(base: real, table: seq<Bracket>)
    ensures ComputeIncomeTax(base, table).rate == SelectBracket(base, table).rate
    ensures ComputeIncomeTax(base, table).tax >= 0.0
    ensures ComputeIncomeTax(base, table).tax
            >= base * ComputeIncomeTax(base, table).rate - SelectBracket(base, table).deduction
    ensures ComputeIncomeTax(base, table).tax == 0.0
            || ComputeIncomeTax(base, table).tax
               == base * ComputeIncomeTax(base, table).rate - SelectBracket(base, table).deduction
    ensures ComputeIncomeTax(base, table).rate == 0.0
            || exists i :: 0 <= i < |table| && ComputeIncomeTax(base, table).rate == table[i].rate
  {
    ScanPicksFromTable(base, table, NoSelection);
  }

  /** With an empty table nothing is selected: no rate, no tax. */
  lemma EmptyTableWithholdsNothing(base: real)
    ensures ComputeIncomeTax(base, []) == Withholding(0.0, 0.0)
  {
  }

  /** Bracket i is the first one that covers the base. */
  ghost predicate FirstCover(base: real, table: seq<Bracket>, i: int) {
    && 0 <= i < |table|
    && Covers(table[i], base)
    && forall j :: 0 <= j < i ==> !Covers(table[j], base)
  }

  /** No bracket covers the base. */
  ghost predicate NoCover(base: real, table: seq<Bracket>) {
    forall j :: 0 <= j < |table| ==> !Covers(table[j], base)
  }

  /** Bracket i is the last one without a truthy limit. */
  ghost predicate LastOpen(table: seq<Bracket>, i: int) {
    && 0 <= i < |table|
    && !Bounded(table[i])
    && forall j :: i < j < |table| ==> Bounded(table[j])
  }

  /** The first covering bracket decides, whatever came before it — an open
      bracket earlier in the table included. */
  lemma {:induction false} ScanTakesFirstCover(base: real, table: seq<Bracket>, current: Selection, i: int)
    requires FirstCover(base, table, i)
    ensures Scan(base, table, current) == SelectionOf(table[i])
    decreases |table|
  {
    if i > 0 {
      assert !Covers(table[0], base);
      var next := if !Bounded(table[0]) then SelectionOf(table[0]) else current;
      assert FirstCover(base, table[1..], i - 1) by {
        forall j | 0 <= j < i - 1 ensures !Covers(table[1..][j], base) {
          assert table[1..][j] == table[j + 1];
        }
      }
      ScanTakesFirstCover(base, table[1..], next, i - 1);
    }
  }

  /** When nothing covers the base, the last open bracket decides. */
  lemma {:induction false} ScanFallsBackToLastOpen(base: real, table: seq<Bracket>, current: Selection, i: int)
    requires NoCover(base, table)
    requires LastOpen(table, i)
    ensures Scan(base, table, current) == SelectionOf(table[i])
    decreases |table|
  {
    assert !Covers(table[0], base);
    var next := if !Bounded(table[0]) then SelectionOf(table[0]) else current;
    assert NoCover(base, table[1..]) by {
      forall j | 0 <= j < |table[1..]| ensures !Covers(table[1..][j], base) {
        assert table[1..][j] == table[j + 1];
      }
    }
    if i == 0 {
      assert forall j :: 0 <= j < |table[1..]| ==> Bounded(table[1..][j]) by {
        forall j | 0 <= j < |table[1..]| ensures Bounded(table[1..][j]) {
          assert table[1..][j] == table[j + 1];
        }
      }
      ScanKeepsCurrent(base, table[1..], next);
    } else {
      assert LastOpen(table[1..], i - 1) by {
        forall j | i - 1 < j < |table[1..]| ensures Bounded(table[1..][j]) {
          assert table[1..][j] == table[j + 1];
        }
      }
      ScanFallsBackToLastOpen(base, table[1..], next, i - 1);
    }
  }

  /** When nothing covers the base and every bracket has a truthy limit, the
      scan changes nothing. */
  lemma {:induction false} ScanKeepsCurrent(base: real, table: seq<Bracket>, current: Selection)
    requires NoCover(base, table)
    requires forall j :: 0 <= j < |table| ==> Bounded(table[j])
    ensures Scan(base, table, current) == current
    decreases |table|
  {
    if |table| > 0 {
      assert !Covers(table[0], base) && Bounded(table[0]);
      assert NoCover(base, table[1..]) by {
        forall j | 0 <= j < |table[1..]| ensures !Covers(table[1..][j], base) {
          assert table[1..][j] == table[j + 1];
        }
      }
      assert forall j :: 0 <= j < |table[1..]| ==> Bounded(table[1..][j]) by {
        forall j | 0 <= j < |table[1..]| ensures Bounded(table[1..][j]) {
          assert table[1..][j] == table[j + 1];
        }
      }
      ScanKeepsCurrent(base, table[1..], current);
    }
  }

  /** The whole selection rule, stated without the scan: the first covering
      bracket if there is one, else the last open bracket if there is one,
      else no rate and no deduction. */
  lemma SelectBracketSpec(base: real, table: seq<Bracket>)
    ensures forall i :: FirstCover(base, table, i) ==> SelectBracket(base, table) == SelectionOf(table[i])
    ensures forall i :: NoCover(base, table) && LastOpen(table, i) ==> SelectBracket(base, table) == SelectionOf(table[i])
    ensures NoCover(base, table) && (forall j :: 0 <= j < |table| ==> Bounded(table[j])) ==>
              SelectBracket(base, table) == NoSelection
  {
    forall i | FirstCover(base, table, i) ensures SelectBracket(base, table) == SelectionOf(table[i]) {
      ScanTakesFirstCover(base, table, NoSelection, i);
    }
    forall i | NoCover(base, table) && LastOpen(table, i) ensures SelectBracket(base, table) == SelectionOf(table[i]) {
      ScanFallsBackToLastOpen(base, table, NoSelection, i);
    }
    if NoCover(base, table) && (forall j :: 0 <= j < |table| ==> Bounded(table[j])) {
      ScanKeepsCurrent(base, table, NoSelection);
    }
  }

  /** A table of the usual progressive shape: every bracket but the last has a
      truthy limit, the last has none, and rates never decrease down the
      table. The limits need not be ascending. */
  ghost predicate Progressive(table: seq<Bracket>) {
    && |table| > 0
    && !Bounded(table[|table| - 1])
    && (forall i :: 0 <= i < |table| - 1 ==> Bounded(table[i]))
    && (forall i, j :: 0 <= i < j < |table| ==> table[i].rate <= table[j].rate)
  }

  lemma ProgressiveTail(table: seq<Bracket>)
    requires Progressive(table) && |table| > 1
    ensures Progressive(table[1..])
  {
    var t := table[1..];
    forall i | 0 <= i < |t| - 1 ensures Bounded(t[i]) {
      assert t[i] == table[i + 1];
    }
    forall i, j | 0 <= i < j < |t| ensures t[i].rate <= t[j].rate {
      assert t[i] == table[i + 1] && t[j] == table[j + 1];
    }
  }

  /** On a progressive table the selected rate is at least the first rate. */
  lemma {:induction false} ScanRateAtLeastFirst(base: real, table: seq<Bracket>, current: Selection)
    requires Progressive(table)
    ensures Scan(base, table, current).rate >= table[0].rate
    decreases |table|
  {
    if |table| > 1 && !Covers(table[0], base) {
      assert Bounded(table[0]);
      ProgressiveTail(table);
      ScanRateAtLeastFirst(base, table[1..], current);
      assert table[1..][0] == table[1];
    }
  }

  /** On a progressive table a larger base never selects a smaller rate. */
  lemma {:induction false} RateMonotone(b1: real, b2: real, table: seq<Bracket>, c1: Selection, c2: Selection)
    requires Progressive(table)
    requires b1 <= b2
    ensures Scan(b1, table, c1).rate <= Scan(b2, table, c2).rate
    decreases |table|
  {
    if |table| == 1 {
      assert !Bounded(table[0]);
      assert table[1..] == [];
    } else if Covers(table[0], b2) {
      assert Covers(table[0], b1);
    } else if Covers(table[0], b1) {
      assert Bounded(table[0]);
      ProgressiveTail(table);
      ScanRateAtLeastFirst(b2, table[1..], c2);
      assert table[1..][0] == table[1];
    } else {
      assert Bounded(table[0]);
      ProgressiveTail(table);
      RateMonotone(b1, b2, table[1..], c1, c2);
    }
  }

  /** The rate the calculator reports never falls as the base rises, on any
      progressive table. */
  lemma WithholdingRateMonotone(b1: real, b2: real, table: seq<Bracket>)
    requires Progressive(table)
    requires b1 <= b2
    ensures ComputeIncomeTax(b1, table).rate <= ComputeIncomeTax(b2, table).rate
  {
    RateMonotone(b1, b2, table, NoSelection, NoSelection);
  }
}
