/** `categorizePrice`: the ten price buckets of the bar chart. */
module Prices {

  /** The bucket labels, in the order `priceRanges` is initialised. */
  const Labels: seq<string> :=
    ["0-100", "101-200", "201-300", "301-400", "401-500",
     "501-600", "601-700", "701-800", "801-900", "901-above"]

  /** Bucket `i` holds the prices in (100*i, 100*(i+1)], except that the
      first bucket has no lower bound and the last no upper bound. */
  predicate InRange(price: int, i: nat)
  {
    i < 10 && (i == 0 || 100 * i < price) && (i == 9 || price <= 100 * (i + 1))
  }

  /** `categorizePrice` as written: a chain of inclusive upper bounds. */
  function Categorize(price: int): (bucket: string)
    ensures bucket in Labels
    ensures bucket == Labels[BucketIndex(price)]
  {
    if price <= 100 then "0-100"
    else if price <= 200 then "101-200"
    else if price <= 300 then "201-300"
    else if price <= 400 then "301-400"
    else if price <= 500 then "401-500"
    else if price <= 600 then "501-600"
    else if price <= 700 then "601-700"
    else if price <= 800 then "701-800"
    else if price <= 900 then "801-900"
    else "901-above"
  }

  /** The bucket of a price, computed arithmetically instead of by the chain. */
  function BucketIndex(price: int): (i: nat)
    ensures i < |Labels|
    ensures InRange(price, i)
  {
    if price <= 100 then 0 else if price > 900 then 9 else (price - 1) / 100
  }

  /** No two buckets share a label. */
  lemma LabelsDistinct()
    ensures forall i, j :: 0 <= i < j < |Labels| ==> Labels[i] != Labels[j]
  {
    forall i, j | 0 <= i < j < |Labels| ensures Labels[i] != Labels[j] {
      assert |Labels[i]| != |Labels[j]| || Labels[i][0] != Labels[j][0];
    }
  }

  /** The buckets do not overlap: a price lies in exactly one of them. */
  lemma RangesDisjoint(price: int, i: nat)
    ensures InRange(price, i) <==> i == BucketIndex(price)
  {
  }

  /** A price gets label `i` exactly when it lies in the range of bucket `i`. */
  lemma CategorizeExactly(price: int, i: nat)
    requires i < |Labels|
    ensures Categorize(price) == Labels[i] <==> InRange(price, i)
  {
    LabelsDistinct();
    RangesDisjoint(price, i);
  }

  /** A boundary price 100, 200, ..., 900 lands in the lower bucket. */
  lemma BoundaryGoesLow(k: nat)
    requires 1 <= k <= 9
    ensures Categorize(100 * k) == Labels[k - 1]
  {
  }

  /** Every price above 900 lands in "901-above". */
  lemma AboveNineHundred(price: int)
    requires price > 900
    ensures Categorize(price) == "901-above"
  {
  }
}
