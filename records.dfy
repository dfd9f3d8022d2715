/** The transaction records and the `filter` passes the routes make over them. */
module Records {
  import opened Results
  import opened Text
  import Prices

  /** One record of the remote dataset. `month` stands for
      `new Date(dateOfSale).getMonth()`. */
  datatype Transaction = Transaction(
    title: string,
    description: string,
    price: nat,
    sold: bool,
    month: int)

  /** The tests the routes filter by. */
  datatype Criterion =
    | SameMonth(monthNumber: Option<nat>)   // getMonth() === monthNumber
    | PriceRange(bucket: string)             // categorizePrice(price) === bucket
    | Sold(flag: bool)                       // transaction.sold === flag
    | SearchAll(text: string)                // the search of /allTransactions
    | SearchInMonth(text: string)            // the search of /transactions

  /** The search test of `/allTransactions` (lines 124-131): the needle is
      lower-cased once and compared with the lower-cased title, the lower-cased
      description and the decimal price. */
  predicate MatchesAll(t: Transaction, search: string)
  {
    var needle := ToLower(search);
    Contains(ToLower(t.title), needle)
    || Contains(ToLower(t.description), needle)
    || Contains(NatToString(t.price), needle)
  }

  /** The search test of `/transactions` (lines 182-189): the price is
      compared with the search text as given, not lower-cased. */
  predicate MatchesInMonth(t: Transaction, search: string)
  {
    Contains(ToLower(t.title), ToLower(search))
    || Contains(ToLower(t.description), ToLower(search))
    || Contains(NatToString(t.price), search)
  }

  predicate Keeps(c: Criterion, t: Transaction)
  {
    match c
    case SameMonth(m) => m.Some? && t.month == m.value
    case PriceRange(b) => Prices.Categorize(t.price) == b
    case Sold(flag) => t.sold == flag
    case SearchAll(text) => MatchesAll(t, text)
    case SearchInMonth(text) => MatchesInMonth(t, text)
  }

  /** The positions of `s` whose record the criterion keeps, in increasing order. */
  function KeptIndices(s: seq<Transaction>, c: Criterion): (idx: seq<nat>)
    ensures forall k :: 0 <= k < |idx| ==> idx[k] < |s|
    ensures forall k, k' :: 0 <= k < k' < |idx| ==> idx[k] < idx[k']
    ensures forall j :: 0 <= j < |s| ==> (j in idx <==> Keeps(c, s[j]))
  {
    if s == [] then []
    else
      var init := KeptIndices(s[..|s| - 1], c);
      init + if Keeps(c, s[|s| - 1]) then [|s| - 1] else []
  }

  /** `Array.prototype.filter`: the kept records, in their original order. */
  function Filter(s: seq<Transaction>, c: Criterion): seq<Transaction>
  {
    if s == [] then []
    else Filter(s[..|s| - 1], c) + if Keeps(c, s[|s| - 1]) then [s[|s| - 1]] else []
  }

  /** The filtered list is the list of the records at the kept positions:
      together with the facts about `KeptIndices`, it is the order-preserving
      subsequence of exactly the records the criterion keeps. */
  lemma {:induction false} FilterAtKeptIndices(s: seq<Transaction>, c: Criterion)
    ensures |Filter(s, c)| == |KeptIndices(s, c)|
    ensures forall k :: 0 <= k < |Filter(s, c)| ==> Filter(s, c)[k] == s[KeptIndices(s, c)[k]]
  {
    if s != [] {
      var init, x := s[..|s| - 1], s[|s| - 1];
      assert s == init + [x];
      FilterAtKeptIndices(init, c);
      FilterSnoc(init, x, c);
      KeptIndicesSnoc(init, x, c);
    }
  }

  lemma KeptIndicesSnoc(s: seq<Transaction>, x: Transaction, c: Criterion)
    ensures Keeps(c, x) ==> KeptIndices(s + [x], c) == KeptIndices(s, c) + [|s|]
    ensures !Keeps(c, x) ==> KeptIndices(s + [x], c) == KeptIndices(s, c)
  {
    assert (s + [x])[..|s|] == s;
    assert KeptIndices(s, c) + [] == KeptIndices(s, c);
  }

  /** Every record of a filtered list passes the criterion, and it keeps at most
      the records it was given. */
  lemma FilterSound(s: seq<Transaction>, c: Criterion)
    ensures |Filter(s, c)| <= |s|
    ensures forall t :: t in Filter(s, c) ==> t in s && Keeps(c, t)
  {
    var idx := KeptIndices(s, c);
    var r := Filter(s, c);
    FilterAtKeptIndices(s, c);
    forall t | t in r ensures t in s && Keeps(c, t) {
      var k :| 0 <= k < |r| && r[k] == t;
      assert idx[k] in idx;
    }
    IncreasingBelow(idx, |s|);
  }

  /** A strictly increasing sequence of indices below `n` has at most `n` elements. */
  lemma {:induction false} IncreasingBelow(idx: seq<nat>, n: nat)
    requires forall k :: 0 <= k < |idx| ==> idx[k] < n
    requires forall k, k' :: 0 <= k < k' < |idx| ==> idx[k] < idx[k']
    ensures |idx| <= n
  {
    if idx != [] {
      var last := idx[|idx| - 1];
      IncreasingBelow(idx[..|idx| - 1], last);
    }
  }

  /** Filtering one more record appends it when it is kept. */
  lemma FilterSnoc(s: seq<Transaction>, t: Transaction, c: Criterion)
    ensures Keeps(c, t) ==> Filter(s + [t], c) == Filter(s, c) + [t]
    ensures !Keeps(c, t) ==> Filter(s + [t], c) == Filter(s, c)
  {
    assert (s + [t])[..|s|] == s;
    assert Filter(s, c) + [] == Filter(s, c);
  }

  /** Two criteria that keep the same records filter alike. */
  lemma {:induction false} FilterSameTest(s: seq<Transaction>, c: Criterion, d: Criterion)
    requires forall t :: t in s ==> (Keeps(c, t) <==> Keeps(d, t))
    ensures Filter(s, c) == Filter(s, d)
  {
    if s != [] {
      var init, x := s[..|s| - 1], s[|s| - 1];
      assert x in s && s == init + [x];
      assert forall t :: t in init ==> t in s;
      FilterSameTest(init, c, d);
      FilterSnoc(init, x, c);
      FilterSnoc(init, x, d);
    }
  }

  /** A criterion that keeps every record of `s` returns `s` itself. */
  lemma {:induction false} FilterKeepsAll(s: seq<Transaction>, c: Criterion)
    requires forall t :: t in s ==> Keeps(c, t)
    ensures Filter(s, c) == s
  {
    if s != [] {
      var init, x := s[..|s| - 1], s[|s| - 1];
      assert x in s && s == init + [x];
      assert forall t :: t in init ==> t in s;
      FilterKeepsAll(init, c);
      FilterSnoc(init, x, c);
    }
  }

  /** A criterion that keeps no record of `s` returns nothing. */
  lemma {:induction false} FilterKeepsNone(s: seq<Transaction>, c: Criterion)
    requires forall t :: t in s ==> !Keeps(c, t)
    ensures Filter(s, c) == []
  {
    if s != [] {
      var init, x := s[..|s| - 1], s[|s| - 1];
      assert x in s && s == init + [x];
      assert forall t :: t in init ==> t in s;
      FilterKeepsNone(init, c);
      FilterSnoc(init, x, c);
    }
  }

  /** The sold and the unsold records partition any list. */
  lemma {:induction false} SoldPartition(s: seq<Transaction>)
    ensures |Filter(s, Sold(true))| + |Filter(s, Sold(false))| == |s|
  {
    if s != [] {
      SoldPartition(s[..|s| - 1]);
    }
  }

  /** The empty search keeps everything, since every string includes "". */
  lemma EmptySearchKeepsAll(s: seq<Transaction>)
    ensures Filter(s, SearchAll("")) == s
    ensures Filter(s, SearchInMonth("")) == s
  {
    forall t | t in s ensures Keeps(SearchAll(""), t) && Keeps(SearchInMonth(""), t) {
      ContainsEmpty(ToLower(t.title));
    }
    FilterKeepsAll(s, SearchAll(""));
    FilterKeepsAll(s, SearchInMonth(""));
  }

  /** The two routes' searches keep the same records: a decimal price string
      has no letters, so lower-casing the needle does not matter for it. */
  lemma SearchesAgree(s: seq<Transaction>, search: string)
    ensures Filter(s, SearchAll(search)) == Filter(s, SearchInMonth(search))
  {
    forall t | t in s ensures MatchesAll(t, search) <==> MatchesInMonth(t, search) {
      ContainsInDigits(NatToString(t.price), search);
    }
    FilterSameTest(s, SearchAll(search), SearchInMonth(search));
  }

  /** The month filter for a month that did not resolve keeps nothing. */
  lemma NoMonthKeepsNothing(s: seq<Transaction>)
    ensures Filter(s, SameMonth(None)) == []
  {
    FilterKeepsNone(s, SameMonth(None));
  }

  /** The sum of the prices of a list. */
  function SumPrices(s: seq<Transaction>): nat
  {
    if s == [] then 0 else SumPrices(s[..|s| - 1]) + s[|s| - 1].price
  }

  lemma SumPricesSnoc(s: seq<Transaction>, t: Transaction)
    ensures SumPrices(s + [t]) == SumPrices(s) + t.price
  {
    assert (s + [t])[..|s|] == s;
  }
}
