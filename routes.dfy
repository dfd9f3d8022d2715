/** The bodies of the four routes, with the dataset already fetched. */
module Routes {
  import opened Results
  import opened Records
  import Prices
  import opened Months
  import opened Paging

  /** The month-filtered set: the records whose sale month is `monthNumber`. */
  function InMonth(data: seq<Transaction>, monthNumber: Option<nat>): seq<Transaction>
  {
    Filter(data, SameMonth(monthNumber))
  }

  /** How many records of the month fall in the price bucket `bucket`. */
  function BucketCount(data: seq<Transaction>, monthNumber: nat, bucket: string): nat
  {
    |Filter(InMonth(data, Some(monthNumber)), PriceRange(bucket))|
  }

  function LabelSet(): set<string>
  {
    set i | 0 <= i < |Prices.Labels| :: Prices.Labels[i]
  }

  /** The sum of the counters named by `labels`. */
  function CountTotal(counts: map<string, nat>, labels: seq<string>): nat
    requires forall i :: 0 <= i < |labels| ==> labels[i] in counts
  {
    if labels == [] then 0 else counts[labels[0]] + CountTotal(counts, labels[1..])
  }

  /** The sum over `labels` of the bucket sizes of `s`. */
  function RangeTotal(s: seq<Transaction>, labels: seq<string>): nat
  {
    if labels == [] then 0 else |Filter(s, PriceRange(labels[0]))| + RangeTotal(s, labels[1..])
  }

  /** How often `x` appears in `labels`. */
  function Occurrences(x: string, labels: seq<string>): nat
  {
    if labels == [] then 0 else (if labels[0] == x then 1 else 0) + Occurrences(x, labels[1..])
  }

  predicate Distinct(labels: seq<string>)
  {
    forall i, j :: 0 <= i < j < |labels| ==> labels[i] != labels[j]
  }

  lemma {:induction false} OccursOnce(x: string, labels: seq<string>)
    requires Distinct(labels)
    ensures Occurrences(x, labels) == if x in labels then 1 else 0
  {
    if labels != [] {
      assert Distinct(labels[1..]) by {
        assert forall i :: 0 <= i < |labels[1..]| ==> labels[1..][i] == labels[i + 1];
      }
      OccursOnce(x, labels[1..]);
      assert x in labels <==> labels[0] == x || x in labels[1..];
      if labels[0] == x {
        assert x !in labels[1..] by {
          forall i | 0 <= i < |labels[1..]| ensures labels[1..][i] != x {
            assert labels[1..][i] == labels[i + 1];
          }
        }
      }
    }
  }

  /** One more record adds one to the bucket sizes of the labels that name
      its bucket. */
  lemma {:induction false} RangeTotalSnoc(s: seq<Transaction>, t: Transaction, labels: seq<string>)
    ensures RangeTotal(s + [t], labels) == RangeTotal(s, labels) + Occurrences(Prices.Categorize(t.price), labels)
  {
    if labels != [] {
      FilterSnoc(s, t, PriceRange(labels[0]));
      RangeTotalSnoc(s, t, labels[1..]);
    }
  }

  lemma {:induction false} RangeTotalEmpty(labels: seq<string>)
    ensures RangeTotal([], labels) == 0
  {
    if labels != [] {
      RangeTotalEmpty(labels[1..]);
    }
  }

  /** The ten buckets share out every record: their sizes add up to the length. */
  lemma {:induction false} BucketsPartition(s: seq<Transaction>)
    ensures RangeTotal(s, Prices.Labels) == |s|
  {
    if s == [] {
      RangeTotalEmpty(Prices.Labels);
    } else {
      var init, t := s[..|s| - 1], s[|s| - 1];
      assert s == init + [t];
      BucketsPartition(init);
      RangeTotalSnoc(init, t, Prices.Labels);
      Prices.LabelsDistinct();
      assert Distinct(Prices.Labels);
      OccursOnce(Prices.Categorize(t.price), Prices.Labels);
      assert Occurrences(Prices.Categorize(t.price), Prices.Labels) == 1;
      assert RangeTotal(s, Prices.Labels) == RangeTotal(init, Prices.Labels) + 1;
    }
  }

  /** Counters that agree with the bucket sizes have the same total. */
  lemma {:induction false} CountTotalIsRangeTotal(counts: map<string, nat>, s: seq<Transaction>, labels: seq<string>)
    requires forall i :: 0 <= i < |labels| ==> labels[i] in counts
    requires forall i :: 0 <= i < |labels| ==> counts[labels[i]] == |Filter(s, PriceRange(labels[i]))|
    ensures CountTotal(counts, labels) == RangeTotal(s, labels)
  {
    if labels != [] {
      CountTotalIsRangeTotal(counts, s, labels[1..]);
    }
  }

  /** One more record adds one to the count of its own bucket, if it is of the month. */
  lemma BucketCountSnoc(s: seq<Transaction>, t: Transaction, monthNumber: nat, bucket: string)
    ensures BucketCount(s + [t], monthNumber, bucket)
            == BucketCount(s, monthNumber, bucket)
               + if t.month == monthNumber && Prices.Categorize(t.price) == bucket then 1 else 0
  {
    FilterSnoc(s, t, SameMonth(Some(monthNumber)));
    FilterSnoc(InMonth(s, Some(monthNumber)), t, PriceRange(bucket));
  }

  /** `counts` holds one counter per bucket label, each the bucket size of the
      records of `s` in the month. */
  predicate CountsFor(counts: map<string, nat>, s: seq<Transaction>, monthNumber: nat)
  {
    counts.Keys == LabelSet()
    && forall l :: l in counts ==> counts[l] == BucketCount(s, monthNumber, l)
  }

  /** The initial value of `priceRanges` (lines 45-56): every label at zero. */
  const InitialPriceRanges: map<string, nat> := map l | l in LabelSet() :: 0

  /** The counters `priceRanges` start with exactly the ten labels, at zero. */
  lemma InitialCounts(monthNumber: nat)
    ensures CountsFor(InitialPriceRanges, [], monthNumber)
  {
    var labels := Prices.Labels;
    assert labels[0] in LabelSet() && labels[1] in LabelSet() && labels[2] in LabelSet();
    assert labels[3] in LabelSet() && labels[4] in LabelSet() && labels[5] in LabelSet();
    assert labels[6] in LabelSet() && labels[7] in LabelSet() && labels[8] in LabelSet();
    assert labels[9] in LabelSet();
  }

  /** `priceRanges[range] += 1` for a record of the month keeps the counters
      right; a record of another month leaves them right as they are. */
  lemma CountStep(counts: map<string, nat>, s: seq<Transaction>, t: Transaction, monthNumber: nat)
    requires CountsFor(counts, s, monthNumber)
    ensures Prices.Categorize(t.price) in counts
    ensures t.month == monthNumber ==>
              var range := Prices.Categorize(t.price);
              CountsFor(counts[range := counts[range] + 1], s + [t], monthNumber)
    ensures t.month != monthNumber ==> CountsFor(counts, s + [t], monthNumber)
  {
    var range := Prices.Categorize(t.price);
    assert range in LabelSet();
    if t.month == monthNumber {
      var next := counts[range := counts[range] + 1];
      assert next.Keys == counts.Keys;
      forall l | l in next ensures next[l] == BucketCount(s + [t], monthNumber, l) {
        BucketCountSnoc(s, t, monthNumber, l);
      }
    } else {
      forall l | l in counts ensures counts[l] == BucketCount(s + [t], monthNumber, l) {
        BucketCountSnoc(s, t, monthNumber, l);
      }
    }
  }

  /** The `forEach` of `/barchart` (lines 45-64): one counter per bucket label,
      incremented for each record of the month. */
  method CountPriceRanges(data: seq<Transaction>, monthNumber: nat) returns (priceRanges: map<string, nat>)
    ensures priceRanges.Keys == LabelSet()
    ensures forall i :: 0 <= i < |Prices.Labels| ==>
              priceRanges[Prices.Labels[i]] == BucketCount(data, monthNumber, Prices.Labels[i])
    ensures CountTotal(priceRanges, Prices.Labels) == |InMonth(data, Some(monthNumber))|
  {
    priceRanges := InitialPriceRanges;
    InitialCounts(monthNumber);
    var i := 0;
    while i < |data|
      invariant i <= |data|
      invariant CountsFor(priceRanges, data[..i], monthNumber)
    {
      var t := data[i];
      assert data[..i + 1] == data[..i] + [t];
      CountStep(priceRanges, data[..i], t, monthNumber);
      if t.month == monthNumber {
        var range := Prices.Categorize(t.price);
        priceRanges := priceRanges[range := priceRanges[range] + 1];
      }
      i := i + 1;
    }
    assert data[..|data|] == data;
    CountsTotal(priceRanges, data, monthNumber);
  }

  /** Right counters name every label and add up to the size of the month. */
  lemma CountsTotal(counts: map<string, nat>, data: seq<Transaction>, monthNumber: nat)
    requires CountsFor(counts, data, monthNumber)
    ensures forall i :: 0 <= i < |Prices.Labels| ==> Prices.Labels[i] in counts
    ensures CountTotal(counts, Prices.Labels) == |InMonth(data, Some(monthNumber))|
  {
    forall k | 0 <= k < |Prices.Labels| ensures Prices.Labels[k] in counts {
      assert Prices.Labels[k] in LabelSet();
    }
    CountTotalIsRangeTotal(counts, InMonth(data, Some(monthNumber)), Prices.Labels);
    BucketsPartition(InMonth(data, Some(monthNumber)));
  }

  /** The `forEach` of `/statistics` (lines 88-102): the sale amount and the
      sold and unsold counts of the month. */
  method MonthStatistics(data: seq<Transaction>, monthNumber: nat)
    returns (totalSaleAmount: nat, totalSoldItems: nat, totalNotSoldItems: nat)
    ensures totalSaleAmount == SumPrices(Filter(InMonth(data, Some(monthNumber)), Sold(true)))
    ensures totalSoldItems == |Filter(InMonth(data, Some(monthNumber)), Sold(true))|
    ensures totalNotSoldItems == |Filter(InMonth(data, Some(monthNumber)), Sold(false))|
    ensures totalSoldItems + totalNotSoldItems == |InMonth(data, Some(monthNumber))|
  {
    totalSaleAmount, totalSoldItems, totalNotSoldItems := 0, 0, 0;
    var i := 0;
    while i < |data|
      invariant i <= |data|
      invariant totalSaleAmount == SumPrices(Filter(InMonth(data[..i], Some(monthNumber)), Sold(true)))
      invariant totalSoldItems == |Filter(InMonth(data[..i], Some(monthNumber)), Sold(true))|
      invariant totalNotSoldItems == |Filter(InMonth(data[..i], Some(monthNumber)), Sold(false))|
    {
      var t := data[i];
      assert data[..i + 1] == data[..i] + [t];
      var matched := InMonth(data[..i], Some(monthNumber));
      FilterSnoc(data[..i], t, SameMonth(Some(monthNumber)));
      if t.month == monthNumber {
        FilterSnoc(matched, t, Sold(true));
        FilterSnoc(matched, t, Sold(false));
        if t.sold {
          SumPricesSnoc(Filter(matched, Sold(true)), t);
          totalSaleAmount := totalSaleAmount + t.price;
          totalSoldItems := totalSoldItems + 1;
        } else {
          totalNotSoldItems := totalNotSoldItems + 1;
        }
      }
      i := i + 1;
    }
    assert data[..|data|] == data;
    SoldPartition(InMonth(data, Some(monthNumber)));
  }

  /** `GET /barchart?month=...` without the fetch: the price histogram of the
      month, or the 400 errors for a missing or unknown month. */
  method Barchart(data: seq<Transaction>, month: Option<string>) returns (r: Result<map<string, nat>>)
    ensures (month.None? || month == Some("")) ==> r == Err(MonthRequired)
    ensures (month.Some? && month != Some("") && MonthToNumber(month.value).None?) ==> r == Err(InvalidMonth)
    ensures r.Err? ==> Status(r.error) == 400
    ensures r.Ok? <==> RequiredMonth(month).Ok?
    ensures r.Ok? ==> r.value.Keys == LabelSet()
    ensures r.Ok? ==> forall i :: 0 <= i < |Prices.Labels| ==>
              r.value[Prices.Labels[i]] == BucketCount(data, RequiredMonth(month).value, Prices.Labels[i])
    ensures r.Ok? ==> CountTotal(r.value, Prices.Labels) == |InMonth(data, Some(RequiredMonth(month).value))|
  {
    var monthNumber := RequiredMonth(month);
    if monthNumber.Err? {
      return Err(monthNumber.error);
    }
    var priceRanges := CountPriceRanges(data, monthNumber.value);
    return Ok(priceRanges);
  }

  /** The body of a `/statistics` answer. */
  datatype Stats = Stats(month: string, totalSaleAmount: nat, totalSoldItems: nat, totalNotSoldItems: nat)

  /** `GET /statistics?month=...` without the fetch: the month as given, the
      sale amount and the sold and unsold counts, or the 400 errors. */
  method Statistics(data: seq<Transaction>, month: Option<string>) returns (r: Result<Stats>)
    ensures (month.None? || month == Some("")) ==> r == Err(MonthRequired)
    ensures (month.Some? && month != Some("") && MonthToNumber(month.value).None?) ==> r == Err(InvalidMonth)
    ensures r.Err? ==> Status(r.error) == 400
    ensures r.Ok? <==> RequiredMonth(month).Ok?
    ensures r.Ok? ==> r.value.month == month.value
    ensures r.Ok? ==>
              var matched := InMonth(data, Some(RequiredMonth(month).value));
              && r.value.totalSaleAmount == SumPrices(Filter(matched, Sold(true)))
              && r.value.totalSoldItems == |Filter(matched, Sold(true))|
              && r.value.totalNotSoldItems == |Filter(matched, Sold(false))|
              && r.value.totalSoldItems + r.value.totalNotSoldItems == |matched|
  {
    var monthNumber := RequiredMonth(month);
    if monthNumber.Err? {
      return Err(monthNumber.error);
    }
    var amount, sold, notSold := MonthStatistics(data, monthNumber.value);
    return Ok(Stats(month.value, amount, sold, notSold));
  }

  /** The body of an `/allTransactions` answer. */
  datatype Listing = Listing(page: Positive, perPage: Positive, total: nat, totalPages: nat, data: seq<Transaction>)

  /** `GET /allTransactions?search=&page=&perPage=` without the fetch
      (lines 117-142): search over the whole dataset, then one page. */
  function AllTransactions(data: seq<Transaction>, search: Option<string>,
                           page: Option<Positive>, perPage: Option<Positive>): (r: Listing)
    ensures r.page == page.GetOr(DefaultPage) && r.perPage == perPage.GetOr(DefaultPerPage)
    ensures r.total == |Filter(data, SearchAll(search.GetOr("")))|
    ensures r.data == Paginate(Filter(data, SearchAll(search.GetOr(""))), r.page, r.perPage)
    ensures r.total <= |data|
    ensures (search.None? || search == Some("")) ==> r.total == |data|
    ensures r.totalPages * r.perPage >= r.total
    ensures r.totalPages > 0 ==> (r.totalPages - 1) * r.perPage < r.total
    ensures |r.data| <= r.perPage
    ensures forall t :: t in r.data ==> t in data && MatchesAll(t, search.GetOr(""))
  {
    var filteredData := Filter(data, SearchAll(search.GetOr("")));
    FilterSound(data, SearchAll(search.GetOr("")));
    EmptySearchKeepsAll(data);
    var p := page.GetOr(DefaultPage);
    var pp := perPage.GetOr(DefaultPerPage);
    var paginatedData := Paginate(filteredData, p, pp);
    assert forall t :: t in paginatedData ==> t in filteredData;
    Listing(p, pp, |filteredData|, TotalPages(|filteredData|, pp), paginatedData)
  }

  /** The pages 1 to `totalPages` of `/allTransactions`, one after another. */
  function AllPages(data: seq<Transaction>, search: Option<string>, perPage: Option<Positive>, n: nat): seq<Transaction>
  {
    if n == 0 then [] else AllPages(data, search, perPage, n - 1) + AllTransactions(data, search, Some(n), perPage).data
  }

  /** Fetching every page of `/allTransactions` and joining them gives back
      exactly the records the search keeps, in the dataset's order. */
  lemma {:induction false} AllTransactionsPagesReassemble(data: seq<Transaction>, search: Option<string>, perPage: Option<Positive>)
    ensures var first := AllTransactions(data, search, None, perPage);
            AllPages(data, search, perPage, first.totalPages) == Filter(data, SearchAll(search.GetOr("")))
  {
    var filtered := Filter(data, SearchAll(search.GetOr("")));
    var pp := perPage.GetOr(DefaultPerPage);
    var n := TotalPages(|filtered|, pp);
    AllPagesArePages(data, search, perPage, n);
    PagesReassemble(filtered, pp);
  }

  lemma {:induction false} AllPagesArePages(data: seq<Transaction>, search: Option<string>, perPage: Option<Positive>, n: nat)
    ensures AllPages(data, search, perPage, n)
            == Pages(Filter(data, SearchAll(search.GetOr(""))), perPage.GetOr(DefaultPerPage), n)
  {
    if n > 0 {
      AllPagesArePages(data, search, perPage, n - 1);
      var filtered := Filter(data, SearchAll(search.GetOr("")));
      assert AllTransactions(data, search, Some(n), perPage).data
             == Paginate(filtered, n, perPage.GetOr(DefaultPerPage));
    }
  }

  /** The body of a `/transactions` answer (it has no `totalPages`). */
  datatype MonthListing = MonthListing(data: seq<Transaction>, total: nat, page: Positive, perPage: Positive)

  /** `GET /transactions?search=&month=&page=&perPage=` without the fetch
      (lines 169-200): month filter, then the search if it is non-empty, then
      one page. A missing month makes `month.toLowerCase()` throw inside the
      `try`, which answers 500. */
  function MonthTransactions(data: seq<Transaction>, search: Option<string>, month: Option<string>,
                             page: Option<Positive>, perPage: Option<Positive>): (r: Result<MonthListing>)
    ensures r.Err? <==> month.None?
    ensures r.Err? ==> r.error == InternalServerError
    ensures r.Err? ==> Status(r.error) == 500
    ensures r.Ok? ==> r.value.page == page.GetOr(DefaultPage) && r.value.perPage == perPage.GetOr(DefaultPerPage)
    ensures r.Ok? ==> |r.value.data| <= r.value.perPage
  {
    if month.None? then Err(InternalServerError)
    else
      var monthNumber := MonthToNumber(month.value);
      var searchedData := SearchMonth(data, search, monthNumber);
      var p := page.GetOr(DefaultPage);
      var pp := perPage.GetOr(DefaultPerPage);
      Ok(MonthListing(Paginate(searchedData, p, pp), |searchedData|, p, pp))
  }

  /** The month filter of `/transactions`, then its search when the search
      text is truthy (present and non-empty). */
  function SearchMonth(data: seq<Transaction>, search: Option<string>, monthNumber: Option<nat>): seq<Transaction>
  {
    var filteredData := Filter(data, SameMonth(monthNumber));
    if search.Some? && search.value != "" then Filter(filteredData, SearchInMonth(search.value))
    else filteredData
  }

  /** A month that does not resolve leaves `/transactions` empty, not failing. */
  lemma MonthTransactionsUnresolved(data: seq<Transaction>, search: Option<string>, month: string,
                                    page: Option<Positive>, perPage: Option<Positive>)
    requires MonthToNumber(month).None?
    ensures var r := MonthTransactions(data, search, Some(month), page, perPage);
            r.Ok? && r.value.total == 0 && r.value.data == []
  {
    NoMonthKeepsNothing(data);
    assert SearchMonth(data, search, None) == [] by {
      assert Filter([], SearchInMonth(search.GetOr(""))) == [];
    }
    PaginateEmpty(SearchMonth(data, search, None), page.GetOr(DefaultPage), perPage.GetOr(DefaultPerPage));
  }

  /** Without a search text every record of the month passes to the page. */
  lemma MonthTransactionsNoSearch(data: seq<Transaction>, search: Option<string>, month: string,
                                  page: Option<Positive>, perPage: Option<Positive>)
    requires search.None? || search == Some("")
    ensures var r := MonthTransactions(data, search, Some(month), page, perPage);
            r.Ok? && r.value.total == |InMonth(data, MonthToNumber(month))|
  {
  }

  /** Every record on a `/transactions` page is a record of the dataset from
      the requested month. */
  lemma MonthTransactionsOfMonth(data: seq<Transaction>, search: Option<string>, month: string,
                                 page: Option<Positive>, perPage: Option<Positive>)
    ensures var r := MonthTransactions(data, search, Some(month), page, perPage);
            r.Ok? && forall t :: t in r.value.data ==> t in data && Some(t.month) == MonthToNumber(month)
  {
    var monthNumber := MonthToNumber(month);
    var filtered := Filter(data, SameMonth(monthNumber));
    FilterSound(data, SameMonth(monthNumber));
    FilterSound(filtered, SearchInMonth(search.GetOr("")));
    PaginateWithin(SearchMonth(data, search, monthNumber), page.GetOr(DefaultPage), perPage.GetOr(DefaultPerPage));
  }

  /** `/transactions` is the search of `/allTransactions` run over the
      month-filtered set: skipping an empty search and testing the raw text
      against the price change nothing. */
  lemma MonthTransactionsIsSearchOfMonth(data: seq<Transaction>, search: Option<string>, month: string,
                                         page: Option<Positive>, perPage: Option<Positive>)
    ensures var r := MonthTransactions(data, search, Some(month), page, perPage);
            var searched := Filter(InMonth(data, MonthToNumber(month)), SearchAll(search.GetOr("")));
            r.Ok? && r.value.total == |searched|
            && r.value.data == Paginate(searched, page.GetOr(DefaultPage), perPage.GetOr(DefaultPerPage))
  {
    var filtered := InMonth(data, MonthToNumber(month));
    EmptySearchKeepsAll(filtered);
    SearchesAgree(filtered, search.GetOr(""));
  }
}
