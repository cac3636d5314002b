/** Successive salary adjustments (reajustes): a list of percentages compounded
    onto an amount, one after the other. */
module Adjustments {
  import opened Wrappers

  /** One adjustment field: `None` when its text does not parse as a number,
      otherwise the percentage as typed (10 means 10%). */
  type Entry = Option<real>

  /** The effect of one field on the running amount: an unparseable or zero
      percentage leaves it alone, any other adds `p`% of it. */
  function ApplyOne(v: real, e: Entry): real {
    match e
    case None => v
    case Some(p) => if p / 100.0 == 0.0 then v else v + v * (p / 100.0)
  }

  /** The growth factor a single field contributes. */
  function Factor(e: Entry): real {
    match e
    case None => 1.0
    case Some(p) => 1.0 + p / 100.0
  }

  /** The product of all growth factors: an independent, closed-form reading
      of what the whole list does to an amount. */
  function Growth(entries: seq<Entry>): real
    decreases |entries|
  {
    if |entries| == 0 then 1.0 else Factor(entries[0]) * Growth(entries[1..])
  }

  lemma ApplyOneScales(v: real, e: Entry)
    ensures ApplyOne(v, e) == v * Factor(e)
  {
    match e
    case None =>
    case Some(p) =>
      assert v + v * (p / 100.0) == v * (1.0 + p / 100.0);
  }

  /** Applies the fields in list order, each to the amount the previous ones
      left (the loop at the heart of the adjustment step). */
  function ApplyAdjustments(v: real, entries: seq<Entry>): real
    decreases |entries|
  {
    if |entries| == 0 then v else ApplyAdjustments(ApplyOne(v, entries[0]), entries[1..])
  }

  /** The step-by-step application equals the closed form: the original amount
      scaled by the product of all growth factors. */
  lemma {:induction false} ApplyScales(v: real, entries: seq<Entry>)
    ensures ApplyAdjustments(v, entries) == v * Growth(entries)
    decreases |entries|
  {
    if |entries| > 0 {
      ApplyOneScales(v, entries[0]);
      ApplyScales(ApplyOne(v, entries[0]), entries[1..]);
      Associative(v, Factor(entries[0]), Growth(entries[1..]));
    }
  }

  lemma Associative(x: real, y: real, z: real)
    ensures x * (y * z) == (x * y) * z
  {
  }

  lemma Commutative(x: real, y: real)
    ensures x * y == y * x
  {
  }

  lemma {:induction false} GrowthConcat(a: seq<Entry>, b: seq<Entry>)
    ensures Growth(a + b) == Growth(a) * Growth(b)
    decreases |a|
  {
    if |a| == 0 {
      assert a + b == b;
    } else {
      assert (a + b)[0] == a[0];
      assert (a + b)[1..] == a[1..] + b;
      GrowthConcat(a[1..], b);
      Associative(Factor(a[0]), Growth(a[1..]), Growth(b));
    }
  }

  /** Adjusting by a + b is adjusting by a, then adjusting that result by b. */
  lemma {:induction false} ApplyConcat(v: real, a: seq<Entry>, b: seq<Entry>)
    ensures ApplyAdjustments(v, a + b) == ApplyAdjustments(ApplyAdjustments(v, a), b)
    decreases |a|
  {
    if |a| == 0 {
      assert a + b == b;
    } else {
      assert (a + b)[0] == a[0];
      assert (a + b)[1..] == a[1..] + b;
      ApplyConcat(ApplyOne(v, a[0]), a[1..], b);
    }
  }

  /** Compounding commutes: the order of the fields does not change the result. */
  lemma ApplyOrderIrrelevant(v: real, a: seq<Entry>, b: seq<Entry>)
    ensures ApplyAdjustments(v, a + b) == ApplyAdjustments(v, b + a)
  {
    GrowthCommutes(a, b);
    ApplyScales(v, a + b);
    ApplyScales(v, b + a);
  }

  lemma GrowthCommutes(a: seq<Entry>, b: seq<Entry>)
    ensures Growth(a + b) == Growth(b + a)
  {
    GrowthConcat(a, b);
    GrowthConcat(b, a);
    Commutative(Growth(a), Growth(b));
  }

  /** Only unparseable and zero fields: every factor is one. */
  predicate NoOps(entries: seq<Entry>) {
    forall i :: 0 <= i < |entries| ==> entries[i] == None || entries[i] == Some(0.0)
  }

  lemma {:induction false} GrowthOfNoOps(entries: seq<Entry>)
    requires NoOps(entries)
    ensures Growth(entries) == 1.0
    decreases |entries|
  {
    if |entries| > 0 {
      assert NoOps(entries[1..]) by {
        forall i | 0 <= i < |entries[1..]| ensures entries[1..][i] == None || entries[1..][i] == Some(0.0) {
          assert entries[1..][i] == entries[i + 1];
        }
      }
      GrowthOfNoOps(entries[1..]);
    }
  }

  /** An empty list, or one holding only unparseable and zero percentages,
      returns the original amount. */
  lemma ApplyNoOp(v: real, entries: seq<Entry>)
    requires NoOps(entries)
    ensures ApplyAdjustments(v, entries) == v
  {
    GrowthOfNoOps(entries);
    ApplyScales(v, entries);
  }

  /** Adjustments are linear in the amount: scaling the input scales the output. */
  lemma ApplyLinear(c: real, v: real, entries: seq<Entry>)
    ensures ApplyAdjustments(c * v, entries) == c * ApplyAdjustments(v, entries)
  {
    ApplyScales(c * v, entries);
    ApplyScales(v, entries);
    Associative(c, v, Growth(entries));
  }

  /** Two successive 10% adjustments take 1000 to 1210. */
  lemma CompoundExample()
    ensures ApplyAdjustments(1000.0, [Some(10.0), Some(10.0)]) == 1210.0
  {
    var e := [Some(10.0), Some(10.0)];
    assert e[1..] == [Some(10.0)];
    assert ApplyAdjustments(1000.0, e) == ApplyAdjustments(1100.0, e[1..]);
  }
}
