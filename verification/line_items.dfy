/** Paycheck line items (rubricas) and the two list edits on them: removing
    every item with a code, and adding an item in place of any with its code. */
module LineItems {

  /** The fixed descriptions the calculation gives its items; `CaptionText`
      spells out the text the page shows for each. */
  datatype Caption =
    | IncomeTaxText | TaxBaseText | PensionBaseText | FinanprevText | GrossPayText
    | VacationThirdText | VacationTaxText | CoursesText | TitlesText | FunctionText
    | HealthPlanText | SindicontasText | AuditorsText | AssociationText | DentalText

  function CaptionText(c: Caption): string {
    match c
    case IncomeTaxText => "IMPOSTO DE RENDA"
    case TaxBaseText => "BASE I.R."
    case PensionBaseText => "BASE PREVIDÊNCIA"
    case FinanprevText => "FINANPREV - LEI COMP Nº112 12/16 (14%)"
    case GrossPayText => "REMUNERAÇÃO"
    case VacationThirdText => "1/3 FÉRIAS (30 DIAS)"
    case VacationTaxText => "IRRF - 1/3 FÉRIAS (30 DIAS)"
    case CoursesText => "ADICIONAL QUALIFIC./CURSOS"
    case TitlesText => "ADICIONAL QUALIFIC./TÍTULOS"
    case FunctionText => "REPRESENTAÇÃO - FUNC. GRAT."
    case HealthPlanText => "TCE-UNIMED BELÉM"
    case SindicontasText => "SINDICONTAS-PA CONTRIBUIÇÃO"
    case AuditorsText => "AUD-TCE/PA"
    case AssociationText => "ASTCEMP-MENSALIDADE"
    case DentalText => "ASTCEMP-UNIODONTO | BENEFICIÁRIOS"
  }

  /** Description of an item. Some carry a number the page formats into the
      text: a rate (income tax) or a count (beneficiaries). */
  datatype Label =
    | Text(caption: Caption)
    | WithRate(caption: Caption, rate: real)
    | WithCount(caption: Caption, count: int)

  datatype LineItem = LineItem(code: string, description: Label, amount: real)

  /** Codes are classified by their first letter: P earnings, D deductions,
      R computed bases and totals. */
  predicate HasPrefix(code: string, c: char) {
    |code| > 0 && code[0] == c
  }

  /** The items with the given code, in list order. */
  function WithCode(items: seq<LineItem>, code: string): seq<LineItem>
    decreases |items|
  {
    if |items| == 0 then []
    else (if items[0].code == code then [items[0]] else []) + WithCode(items[1..], code)
  }

  /** The amounts of the items with the given code, in list order. */
  function AmountsOf(items: seq<LineItem>, code: string): seq<real>
    decreases |items|
  {
    if |items| == 0 then []
    else (if items[0].code == code then [items[0].amount] else []) + AmountsOf(items[1..], code)
  }

  /** Sum of the amounts of all items whose code starts with `c`. */
  function SumWithPrefix(items: seq<LineItem>, c: char): real
    decreases |items|
  {
    if |items| == 0 then 0.0
    else (if HasPrefix(items[0].code, c) then items[0].amount else 0.0) + SumWithPrefix(items[1..], c)
  }

  /** One unfolding of each list function, on a list built by a cons. */
  lemma ConsUnfolds(x: LineItem, t: seq<LineItem>, code: string)
    ensures WithCode([x] + t, code) == (if x.code == code then [x] else []) + WithCode(t, code)
    ensures AmountsOf([x] + t, code) == (if x.code == code then [x.amount] else []) + AmountsOf(t, code)
  {
    assert ([x] + t)[0] == x;
    assert ([x] + t)[1..] == t;
  }

  lemma {:induction false} WithCodeConcat(a: seq<LineItem>, b: seq<LineItem>, code: string)
    ensures WithCode(a + b, code) == WithCode(a, code) + WithCode(b, code)
    decreases |a|
  {
    if |a| == 0 {
      assert a + b == b;
    } else {
      var x, t := a[0], a[1..];
      var h := if x.code == code then [x] else [];
      assert a == [x] + t;
      SeqAssoc([x], t, b);
      ConsUnfolds(x, t + b, code);
      ConsUnfolds(x, t, code);
      WithCodeConcat(t, b, code);
      SeqAssoc(h, WithCode(t, code), WithCode(b, code));
    }
  }

  lemma {:induction false} AmountsOfConcat(a: seq<LineItem>, b: seq<LineItem>, code: string)
    ensures AmountsOf(a + b, code) == AmountsOf(a, code) + AmountsOf(b, code)
    decreases |a|
  {
    if |a| == 0 {
      assert a + b == b;
    } else {
      var x, t := a[0], a[1..];
      var h := if x.code == code then [x.amount] else [];
      assert a == [x] + t;
      SeqAssoc([x], t, b);
      ConsUnfolds(x, t + b, code);
      ConsUnfolds(x, t, code);
      AmountsOfConcat(t, b, code);
      SeqAssoc(h, AmountsOf(t, code), AmountsOf(b, code));
    }
  }

  lemma SeqAssoc<T>(x: seq<T>, y: seq<T>, z: seq<T>)
    ensures x + (y + z) == (x + y) + z
  {
  }

  /** A code no item carries has no amounts. */
  lemma {:induction false} AmountsOfAbsent(items: seq<LineItem>, code: string)
    requires forall j :: 0 <= j < |items| ==> items[j].code != code
    ensures AmountsOf(items, code) == []
    decreases |items|
  {
    if |items| > 0 {
      AmountsOfAbsent(items[1..], code);
    }
  }

  /** A code exactly one item carries has exactly that item's amount. */
  lemma {:induction false} AmountsOfUnique(items: seq<LineItem>, i: int, code: string)
    requires 0 <= i < |items| && items[i].code == code
    requires forall j :: 0 <= j < |items| && j != i ==> items[j].code != code
    ensures AmountsOf(items, code) == [items[i].amount]
    decreases |items|
  {
    if i == 0 {
      AmountsOfAbsent(items[1..], code);
    } else {
      AmountsOfUnique(items[1..], i - 1, code);
    }
  }

  lemma {:induction false} SumConcat(a: seq<LineItem>, b: seq<LineItem>, c: char)
    ensures SumWithPrefix(a + b, c) == SumWithPrefix(a, c) + SumWithPrefix(b, c)
    decreases |a|
  {
    if |a| == 0 {
      assert a + b == b;
    } else {
      assert (a + b)[0] == a[0];
      assert (a + b)[1..] == a[1..] + b;
      SumConcat(a[1..], b, c);
    }
  }

  /** The amounts of a code are the amounts of its filtered items. */
  lemma {:induction false} AmountsMatchFilter(items: seq<LineItem>, code: string)
    ensures |AmountsOf(items, code)| == |WithCode(items, code)|
    ensures forall k :: 0 <= k < |WithCode(items, code)| ==>
              AmountsOf(items, code)[k] == WithCode(items, code)[k].amount
    decreases |items|
  {
    if |items| > 0 {
      AmountsMatchFilter(items[1..], code);
    }
  }

  /** Keeps every item whose code differs from `code`, in order. */
  function RemoveItem(items: seq<LineItem>, code: string): (r: seq<LineItem>)
    ensures forall i :: 0 <= i < |r| ==> r[i].code != code
    ensures |r| + |WithCode(items, code)| == |items|
    decreases |items|
  {
    if |items| == 0 then []
    else (if items[0].code == code then [] else [items[0]]) + RemoveItem(items[1..], code)
  }

  /** Removing a code leaves the items of every other code exactly as they
      were, and their order with them. */
  lemma {:induction false} RemoveKeepsOthers(items: seq<LineItem>, code: string, other: string)
    requires other != code
    ensures WithCode(RemoveItem(items, code), other) == WithCode(items, other)
    decreases |items|
  {
    if |items| > 0 {
      var head := if items[0].code == code then [] else [items[0]];
      WithCodeConcat(head, RemoveItem(items[1..], code), other);
      RemoveKeepsOthers(items[1..], code, other);
    }
  }

  /** An item survives the removal exactly when its code differs. */
  lemma {:induction false} RemoveMembership(items: seq<LineItem>, code: string, x: LineItem)
    ensures x in RemoveItem(items, code) <==> x in items && x.code != code
    decreases |items|
  {
    if |items| > 0 {
      RemoveMembership(items[1..], code, x);
      assert items == [items[0]] + items[1..];
    }
  }

  /** Removal works item by item: removing from a joined list is joining the
      removals, so the kept items stay in their original relative order,
      whatever their codes. */
  lemma {:induction false} RemoveConcat(a: seq<LineItem>, b: seq<LineItem>, code: string)
    ensures RemoveItem(a + b, code) == RemoveItem(a, code) + RemoveItem(b, code)
    decreases |a|
  {
    if |a| == 0 {
      assert a + b == b;
    } else {
      var h := if a[0].code == code then [] else [a[0]];
      assert (a + b)[0] == a[0];
      assert (a + b)[1..] == a[1..] + b;
      RemoveConcat(a[1..], b, code);
      SeqAssoc(h, RemoveItem(a[1..], code), RemoveItem(b, code));
    }
  }

  /** Removing twice is removing once. */
  lemma {:induction false} RemoveIdempotent(items: seq<LineItem>, code: string)
    ensures RemoveItem(RemoveItem(items, code), code) == RemoveItem(items, code)
    decreases |items|
  {
    if |items| > 0 {
      var rest := RemoveItem(items[1..], code);
      RemoveIdempotent(items[1..], code);
      if items[0].code != code {
        var r := [items[0]] + rest;
        assert r[0] == items[0] && r[1..] == rest;
      } else {
        assert [] + rest == rest;
      }
    }
  }

  /** Replaces any items with the new item's code by the new item, at the end. */
  function AddItem(items: seq<LineItem>, item: LineItem): (r: seq<LineItem>)
    ensures |r| > 0 && r[|r| - 1] == item
    ensures forall i :: 0 <= i < |r| - 1 ==> r[i].code != item.code
  {
    RemoveItem(items, item.code) + [item]
  }

  /** After adding, the new item is the only one with its code, and every other
      code's items are untouched. */
  lemma AddReplaces(items: seq<LineItem>, item: LineItem, other: string)
    ensures WithCode(AddItem(items, item), item.code) == [item]
    ensures other != item.code ==> WithCode(AddItem(items, item), other) == WithCode(items, other)
  {
    var kept := RemoveItem(items, item.code);
    WithCodeConcat(kept, [item], item.code);
    WithCodeConcat(kept, [item], other);
    NoneLeft(kept, item.code);
    if other != item.code {
      RemoveKeepsOthers(items, item.code, other);
    }
  }

  lemma {:induction false} NoneLeft(items: seq<LineItem>, code: string)
    requires forall i :: 0 <= i < |items| ==> items[i].code != code
    ensures WithCode(items, code) == []
    decreases |items|
  {
    if |items| > 0 {
      NoneLeft(items[1..], code);
    }
  }

  /** Adding leaves every item of another code where it was: apart from the
      new item, the list is the old one with that code removed, in order. */
  lemma AddKeepsRest(items: seq<LineItem>, item: LineItem)
    ensures RemoveItem(AddItem(items, item), item.code) == RemoveItem(items, item.code)
  {
    RemoveAppendOwn(RemoveItem(items, item.code), item);
    RemoveIdempotent(items, item.code);
  }

  /** Adding the same item twice is adding it once. */
  lemma AddIdempotent(items: seq<LineItem>, item: LineItem)
    ensures AddItem(AddItem(items, item), item) == AddItem(items, item)
  {
    var kept := RemoveItem(items, item.code);
    RemoveAppendOwn(kept, item);
    RemoveIdempotent(items, item.code);
  }

  lemma {:induction false} RemoveAppendOwn(items: seq<LineItem>, item: LineItem)
    ensures RemoveItem(items + [item], item.code) == RemoveItem(items, item.code)
    decreases |items|
  {
    if |items| == 0 {
      assert items + [item] == [item];
    } else {
      assert (items + [item])[0] == items[0];
      assert (items + [item])[1..] == items[1..] + [item];
      RemoveAppendOwn(items[1..], item);
    }
  }
}
