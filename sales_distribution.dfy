/**
 * src/viewmodels/sales_distribution.py: one row per sales interval of
 * the report's sales histogram, labelled by its end points.
 */
module SalesDistribution {
  import opened Numerals
  import opened ViewHelpers

  /** The right end of a histogram bin: a number or numpy's `inf`. */
  datatype Bound = Finite(x: real) | PosInfinity

  /** A pandas interval `(left, right]`. */
  datatype Interval = Interval(left: real, right: Bound)

  datatype SalesDistributionItem = SalesDistributionItem(interval: Interval, share: real)

  /**
   * `SalesDistributionItem.label`: `0` for a bin starting at zero, checked
   * first; `> left` for an unbounded bin; `left-right` otherwise, with
   * both ends cut to integers.
   */
  function ItemLabel(item: SalesDistributionItem): (s: string)
    ensures s == "0" <==> item.interval.left == 0.0
    ensures item.interval.left != 0.0 && item.interval.right.PosInfinity? ==>
      s == "> " + IntToString(TruncToInt(item.interval.left))
    ensures item.interval.left != 0.0 && item.interval.right.Finite? ==>
      s == IntToString(TruncToInt(item.interval.left)) + "-" + IntToString(TruncToInt(item.interval.right.x))
  {
    var iv := item.interval;
    if iv.left == 0.0 then "0"
    else if iv.right == PosInfinity then "> " + IntToString(TruncToInt(iv.left))
    else IntToString(TruncToInt(iv.left)) + "-" + IntToString(TruncToInt(iv.right.x))
  }

  /**
   * The label of a bounded bin with non-negative ends gives both ends
   * back: the digits before the dash are `int(left)`, those after it `int(right)`.
   */
  lemma BoundedLabelReadsBack(item: SalesDistributionItem)
    requires item.interval.left > 0.0
    requires item.interval.right.Finite? && item.interval.right.x >= 0.0
    ensures var s := ItemLabel(item);
            var a, b := TruncToInt(item.interval.left), TruncToInt(item.interval.right.x);
            var k := NumDigits(a);
            && k < |s| && s[k] == '-'
            && AllDigits(s[..k]) && AllDigits(s[k + 1..])
            && ParseNat(s[..k]) == a && ParseNat(s[k + 1..]) == b
  {
    var a, b := TruncToInt(item.interval.left), TruncToInt(item.interval.right.x);
    var s := ItemLabel(item);
    var k := NumDigits(a);
    assert s == NatToString(a) + "-" + NatToString(b);
    assert s[..k] == NatToString(a);
    assert s[k + 1..] == NatToString(b);
    ParseNatToString(a);
    ParseNatToString(b);
  }

  /** `SalesDistribution`: the items built from the records of the distribution table. */
  class SalesDistribution {
    var items: seq<SalesDistributionItem>

    /** One item per record, in the records' order. */
    constructor (records: seq<SalesDistributionItem>)
      ensures items == records
    {
      items := [];
      new;
      var i := 0;
      while i < |records|
        invariant 0 <= i <= |records|
        invariant items == records[..i]
      {
        items := items + [SalesDistributionItem(records[i].interval, records[i].share)];
        i := i + 1;
      }
    }
  }
}
