/** The derived totals of the order form: the order total of `calculateTotal`
    and the per-line subtotal with its display guard
    (frontend/src/components/OrderForm.js). Amounts are exact reals; the
    two-decimal formatting of `toFixed(2)` is not modelled. */
module Totals {
  import opened Wrappers
  import opened LineItems

  /** `parseFloat(item.unit_price) || 0`: an unset price reads as 0. */
  function PriceOrZero(it: Item): real {
    it.unitPrice.GetOr(0.0)
  }

  /** What one line adds to the order total: price times quantity, an unset price giving 0. */
  function LineAmount(it: Item): real {
    PriceOrZero(it) * (it.quantity as real)
  }

  /** The `reduce` of `calculateTotal`: a left fold from `acc` over the lines.
      It carries its start value through: the result is the start plus the sum. */
  function Fold(acc: real, items: seq<Item>): (r: real)
    ensures r == acc + Sum(items)
    decreases |items|
  {
    if items == [] then acc else Fold(acc + LineAmount(items[0]), items[1..])
  }

  /** `calculateTotal`: the fold started at 0, which is the sum over all lines
      of price times quantity, an unset price counting 0. */
  function Total(items: seq<Item>): (r: real)
    ensures r == Sum(items)
  {
    Fold(0.0, items)
  }

  /** Reference definition of the order total: the plain sum of the line amounts. */
  function Sum(items: seq<Item>): real
    decreases |items|
  {
    if items == [] then 0.0 else LineAmount(items[0]) + Sum(items[1..])
  }

  /** The per-line subtotal of the form's item card: shown only when the price
      is truthy (set and non-zero) and the quantity is truthy (non-zero); the
      shown value is price times quantity, which is also exactly what the line
      contributes to the order total; a hidden subtotal stands for a line that
      contributes nothing. */
  function Subtotal(it: Item): (r: Option<real>)
    ensures r.Some? <==> it.unitPrice.Some? && it.unitPrice.value != 0.0 && it.quantity != 0
    ensures r.Some? ==> r.value == LineAmount(it)
    ensures r.None? ==> LineAmount(it) == 0.0
  {
    match it.unitPrice
    case Some(p) => if p != 0.0 && it.quantity != 0 then Some(p * (it.quantity as real)) else None
    case None => None
  }

  /** On a well-formed line the guard reduces to "the price is set". */
  lemma SubtotalShownIffPriceSet(it: Item)
    requires WellFormedItem(it)
    ensures Subtotal(it).Some? <==> it.unitPrice.Some?
    ensures Subtotal(it).Some? ==> Subtotal(it).value != 0.0
  {
  }

  /** Editing one line never changes the subtotal shown on any other line. */
  lemma SubtotalIsolation(items: seq<Item>, index: nat, e: Edit, other: nat)
    requires index < |items| && other < |items| && other != index
    ensures Subtotal(EditAt(items, index, e)[other]) == Subtotal(items[other])
  {
  }

  /** The sum splits over concatenation. */
  lemma {:induction false} SumAppend(s: seq<Item>, t: seq<Item>)
    ensures Sum(s + t) == Sum(s) + Sum(t)
    decreases |s|
  {
    if s == [] {
      assert s + t == t;
    } else {
      assert (s + t)[1..] == s[1..] + t;
      SumAppend(s[1..], t);
    }
  }

  /** Sum of a list seen as prefix, one line, suffix. */
  lemma SumAround(s: seq<Item>, i: nat)
    requires i < |s|
    ensures Sum(s) == Sum(s[..i]) + LineAmount(s[i]) + Sum(s[i + 1..])
  {
    assert s == s[..i] + [s[i]] + s[i + 1..];
    SumAppend(s[..i] + [s[i]], s[i + 1..]);
    SumAppend(s[..i], [s[i]]);
  }

  /** Matching the first line of `s` with the line at `j` of a permutation `t`
      leaves permutations of each other. */
  lemma PermutationTail(s: seq<Item>, t: seq<Item>, j: nat)
    requires multiset(s) == multiset(t)
    requires s != [] && j < |t| && t[j] == s[0]
    ensures multiset(s[1..]) == multiset(t[..j] + t[j + 1..])
  {
    var x, a, b := s[0], t[..j], t[j + 1..];
    assert t == a + [x] + b;
    assert s == [x] + s[1..];
    assert multiset(s) == multiset{x} + multiset(s[1..]);
    assert multiset(t) == multiset(a) + multiset{x} + multiset(b);
    assert multiset(a + b) == multiset(a) + multiset(b);
    forall y ensures multiset(s[1..])[y] == multiset(a + b)[y] {
      assert multiset(s)[y] == multiset{x}[y] + multiset(s[1..])[y];
      assert multiset(t)[y] == multiset(a)[y] + multiset{x}[y] + multiset(b)[y];
    }
  }

  /** Taking out the line at `j` takes exactly its amount off the sum, so a
      list whose first line is `t[j]` and whose rest sums like `t` without
      `t[j]` sums like `t`. */
  lemma SumWithout(s: seq<Item>, t: seq<Item>, j: nat)
    requires s != [] && j < |t| && t[j] == s[0]
    requires Sum(s[1..]) == Sum(t[..j] + t[j + 1..])
    ensures Sum(s) == Sum(t)
  {
    SumAround(t, j);
    SumAppend(t[..j], t[j + 1..]);
  }

  /** The order total does not depend on the order of the lines. */
  lemma {:induction false} SumPermutation(s: seq<Item>, t: seq<Item>)
    requires multiset(s) == multiset(t)
    ensures Sum(s) == Sum(t)
    decreases |s|
  {
    if s == [] {
      assert t == [] by {
        assert |t| == |multiset(t)| == 0;
      }
    } else {
      assert s[0] in t by {
        assert s[0] in multiset(s);
      }
      var j :| 0 <= j < |t| && t[j] == s[0];
      PermutationTail(s, t, j);
      SumPermutation(s[1..], t[..j] + t[j + 1..]);
      SumWithout(s, t, j);
    }
  }

  /** `calculateTotal` is order-independent. */
  lemma TotalPermutation(s: seq<Item>, t: seq<Item>)
    requires multiset(s) == multiset(t)
    ensures Total(s) == Total(t)
  {
    SumPermutation(s, t);
  }

  /** Appending a blank line leaves the order total unchanged. */
  lemma TotalAfterAdd(items: seq<Item>)
    ensures Total(items + [BlankItem()]) == Total(items)
  {
    SumAppend(items, [BlankItem()]);
  }

  /** Editing a line changes the order total by exactly that line's change. */
  lemma TotalAfterEdit(items: seq<Item>, index: nat, e: Edit)
    requires index < |items|
    ensures Total(EditAt(items, index, e))
            == Total(items) - LineAmount(items[index]) + LineAmount(ApplyEdit(items[index], e))
  {
    var r := EditAt(items, index, e);
    assert r[..index] == items[..index];
    assert r[index + 1..] == items[index + 1..];
    SumAround(items, index);
    SumAround(r, index);
  }

  /** Removing a line takes exactly that line's amount off the order total;
      a refused removal changes nothing. */
  lemma TotalAfterRemove(items: seq<Item>, index: int)
    ensures |items| > 1 && 0 <= index < |items| ==>
              Total(AfterRemove(items, index)) == Total(items) - LineAmount(items[index])
    ensures !(|items| > 1 && 0 <= index < |items|) ==>
              Total(AfterRemove(items, index)) == Total(items)
  {
    if |items| > 1 && 0 <= index < |items| {
      SumAround(items, index);
      SumAppend(items[..index], items[index + 1..]);
    }
  }

  /** The order total is the sum of what the lines display as subtotals,
      a hidden subtotal counting as nothing. */
  lemma TotalIsSumOfShownSubtotals(items: seq<Item>)
    ensures Total(items) == ShownSum(items)
  {
    SumIsShownSum(items);
  }

  /** Sum of the displayed subtotals, 0 for a line that displays none. */
  function ShownSum(items: seq<Item>): real
    decreases |items|
  {
    if items == [] then 0.0 else Subtotal(items[0]).GetOr(0.0) + ShownSum(items[1..])
  }

  /** The reference sum and the sum of the shown subtotals agree line by line. */
  lemma {:induction false} SumIsShownSum(items: seq<Item>)
    ensures Sum(items) == ShownSum(items)
    decreases |items|
  {
    if items != [] {
      SumIsShownSum(items[1..]);
    }
  }
}
