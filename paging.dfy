/** `paginate` and the page arithmetic of the two listing routes. */
module Paging {
  import opened Results
  import opened Text

  /** `page` and `perPage` once read from the query: positive whole numbers. */
  type Positive = n: nat | n >= 1 witness 1

  /** The defaults of `page = 1, perPage = 10` in the query destructuring. */
  const DefaultPage: Positive := 1
  const DefaultPerPage: Positive := 10

  function Min(a: nat, b: nat): nat { if a <= b then a else b }

  /** `Array.prototype.slice(start, end)` for non-negative bounds: both bounds
      are clipped to the length, and a window with `end <= start` is empty. */
  function Slice<T>(s: seq<T>, start: nat, end: nat): (r: seq<T>)
    ensures |r| == if start < end && start < |s| then Min(end, |s|) - start else 0
    ensures forall k :: 0 <= k < |r| ==> r[k] == s[start + k]
  {
    if start < end && start < |s| then s[start..Min(end, |s|)] else []
  }

  /** `paginate(array, page, perPage)`: the 1-based page `page`. */
  function Paginate<T>(s: seq<T>, page: Positive, perPage: Positive): (r: seq<T>)
    ensures |r| <= perPage
    ensures |r| == if (page - 1) * perPage < |s| then Min(perPage, |s| - (page - 1) * perPage) else 0
    ensures forall k :: 0 <= k < |r| ==> r[k] == s[(page - 1) * perPage + k]
  {
    var start := (page - 1) * perPage;
    assert page * perPage == start + perPage;
    Slice(s, start, page * perPage)
  }

  /** Every page of the empty list is empty. */
  lemma PaginateEmpty<T>(s: seq<T>, page: Positive, perPage: Positive)
    requires s == []
    ensures Paginate(s, page, perPage) == []
  {
  }

  /** A page holds only records of the list. */
  lemma PaginateWithin<T>(s: seq<T>, page: Positive, perPage: Positive)
    ensures forall x :: x in Paginate(s, page, perPage) ==> x in s
  {
    var r := Paginate(s, page, perPage);
    forall x | x in r ensures x in s {
      var k :| 0 <= k < |r| && r[k] == x;
      assert s[(page - 1) * perPage + k] == x;
    }
  }

  /** `Math.ceil(total / perPage)`: the least number of pages of `perPage`
      records that hold `total` records. */
  function TotalPages(total: nat, perPage: Positive): (pages: nat)
    ensures pages * perPage >= total
    ensures pages > 0 ==> (pages - 1) * perPage < total
  {
    var q := (total + perPage - 1) / perPage;
    var m := (total + perPage - 1) % perPage;
    assert q * perPage + m == total + perPage - 1;
    assert (q - 1) * perPage == q * perPage - perPage;
    q
  }

  /** Pages 1 to `n`, one after the other. */
  function Pages<T>(s: seq<T>, perPage: Positive, n: nat): seq<T>
  {
    if n == 0 then [] else Pages(s, perPage, n - 1) + Paginate(s, n, perPage)
  }

  /** The first `n` pages are the first `n * perPage` records. */
  lemma {:induction false} PagesArePrefix<T>(s: seq<T>, perPage: Positive, n: nat)
    ensures Pages(s, perPage, n) == s[..Min(n * perPage, |s|)]
  {
    if n > 0 {
      PagesArePrefix(s, perPage, n - 1);
      var start := (n - 1) * perPage;
      assert n * perPage == start + perPage;
      var page := Paginate(s, n, perPage);
      if start < |s| {
        assert page == s[start..Min(n * perPage, |s|)];
        assert s[..Min(n * perPage, |s|)] == s[..start] + s[start..Min(n * perPage, |s|)];
      } else {
        assert page == [];
      }
    }
  }

  /** Pages 1 to `totalPages` together are the whole list: no record is lost
      and none is repeated. */
  lemma PagesReassemble<T>(s: seq<T>, perPage: Positive)
    ensures Pages(s, perPage, TotalPages(|s|, perPage)) == s
  {
    var n := TotalPages(|s|, perPage);
    PagesArePrefix(s, perPage, n);
    assert s[..|s|] == s;
  }

  /** A page after the last one is empty. */
  lemma PagePastEnd<T>(s: seq<T>, page: Positive, perPage: Positive)
    requires page > TotalPages(|s|, perPage)
    ensures Paginate(s, page, perPage) == []
  {
    var n := TotalPages(|s|, perPage);
    assert (page - 1) * perPage >= n * perPage;
  }

  /** The `end` of `searchedData.slice(startIndex, startIndex + perPage)` in
      `/transactions` as written (lines 192-193). A `perPage` given in the
      query is a string, so `startIndex + perPage` joins the decimal form of
      `startIndex` and the text of `perPage`, and `slice` reads the joined
      text as a number; the default `perPage` is the number 10 and adds. */
  function SliceEndAsWritten(page: Positive, perPage: Option<Positive>): nat
  {
    match perPage
    case None => (page - 1) * DefaultPerPage + DefaultPerPage
    case Some(n) =>
      var a := NatToString((page - 1) * n);
      var b := NatToString(n);
      assert AllDigits(a + b) by {
        assert forall i :: 0 <= i < |a + b| ==> (a + b)[i] == if i < |a| then a[i] else b[i - |a|];
      }
      DecimalValue(a + b)
  }

  /** Page 2 of 5 records: the slice ends at 55, not at 10, and a long enough
      list yields 50 records where 5 are meant. */
  lemma SliceEndAsWrittenOverruns(s: seq<int>)
    requires |s| >= 55
    ensures SliceEndAsWritten(2, Some(5)) == 55
    ensures |Slice(s, 5, SliceEndAsWritten(2, Some(5)))| == 50
    ensures |Paginate(s, 2, 5)| == 5
  {
    assert NatToString(5) == "5";
    assert "5" + "5" == "55";
    assert DecimalValue("55") == DecimalValue("5") * 10 + 5;
  }

  /** The end as written is right on the first page and when `perPage` is not
      given. */
  lemma SliceEndAsWrittenAgrees(page: Positive, perPage: Option<Positive>)
    requires page == 1 || perPage.None?
    ensures SliceEndAsWritten(page, perPage) == page * perPage.GetOr(DefaultPerPage)
  {
    if perPage.Some? {
      var n := perPage.value;
      assert NatToString(0) == "0";
      DecimalLeadingZero(NatToString(n));
      DecimalRoundTrip(n);
    }
  }
}
