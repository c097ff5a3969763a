/**
 * The history table: the search and date filter over the rows from the
 * server, and the pages of five rows that the table shows.
 */
module TransactionHistory {
  import opened Ledger
  import Text

  const TransactionsPerPage: int := 5

  /** The `filter` callback: name contains the term, ignoring ASCII case; same day if a day is chosen. */
  predicate Matches(t: Transaction, searchTerm: string, filterDate: Date) {
    && Text.Contains(Text.ToLower(t.productName), Text.ToLower(searchTerm))
    && (filterDate != "" ==> t.date == filterDate)
  }

  /** `filteredTransactions`. */
  function Filtered(ts: seq<Transaction>, searchTerm: string, filterDate: Date): (r: seq<Transaction>)
    ensures forall t :: t in r <==> t in ts && Matches(t, searchTerm, filterDate)
    ensures |r| <= |ts|
    decreases |ts|
  {
    if |ts| == 0 then []
    else
      (if Matches(ts[0], searchTerm, filterDate) then [ts[0]] else []) +
      Filtered(ts[1..], searchTerm, filterDate)
  }

  /** Filtering a concatenation filters each part and keeps them in order. */
  lemma {:induction false} FilteredAppend(a: seq<Transaction>, b: seq<Transaction>,
                                          searchTerm: string, filterDate: Date)
    ensures Filtered(a + b, searchTerm, filterDate) ==
      Filtered(a, searchTerm, filterDate) + Filtered(b, searchTerm, filterDate)
    decreases |a|
  {
    if |a| == 0 {
      assert a + b == b;
    } else {
      var head := if Matches(a[0], searchTerm, filterDate) then [a[0]] else [];
      assert (a + b)[0] == a[0] && (a + b)[1..] == a[1..] + b;
      assert Filtered(a + b, searchTerm, filterDate)
        == head + Filtered(a[1..] + b, searchTerm, filterDate);
      assert Filtered(a, searchTerm, filterDate) == head + Filtered(a[1..], searchTerm, filterDate);
      FilteredAppend(a[1..], b, searchTerm, filterDate);
      assert head + (Filtered(a[1..], searchTerm, filterDate) + Filtered(b, searchTerm, filterDate))
        == (head + Filtered(a[1..], searchTerm, filterDate)) + Filtered(b, searchTerm, filterDate);
    }
  }

  /** With no search term and no date every row is kept, in its order. */
  lemma {:induction false} FilterNothing(ts: seq<Transaction>)
    ensures Filtered(ts, "", "") == ts
    decreases |ts|
  {
    if |ts| > 0 {
      Text.ContainsEmpty(Text.ToLower(ts[0].productName));
      FilterNothing(ts[1..]);
      assert [ts[0]] + ts[1..] == ts;
    }
  }

  /** A position as `Array.prototype.slice` reads it: negative counts from the end, clamped. */
  function SliceIndex(i: int, len: nat): (r: nat)
    ensures r <= len
    ensures 0 <= i <= len ==> r == i
    ensures i < 0 && 0 <= len + i ==> r == len + i
    ensures len + i < 0 ==> r == 0
    ensures len < i ==> r == len
  {
    if i < 0 then (if len + i < 0 then 0 else len + i)
    else if i > len then len
    else i
  }

  /** `s.slice(start, end)`. */
  function Slice<T>(s: seq<T>, start: int, end: int): (r: seq<T>)
    ensures SliceIndex(start, |s|) + |r| <= |s|
    ensures r == s[SliceIndex(start, |s|)..SliceIndex(start, |s|) + |r|]
    ensures 0 <= start <= end <= |s| ==> r == s[start..end]
    ensures SliceIndex(end, |s|) <= SliceIndex(start, |s|) ==> r == []
  {
    var from := SliceIndex(start, |s|);
    var to := SliceIndex(end, |s|);
    if from < to then s[from..to] else []
  }

  /** `currentTransactions` on page `p`: `slice((p - 1) * 5, p * 5)`. */
  function Page<T>(list: seq<T>, p: int): (r: seq<T>)
    ensures |r| <= TransactionsPerPage
    ensures var from := SliceIndex(p * TransactionsPerPage - TransactionsPerPage, |list|);
      from + |r| <= |list| && r == list[from..from + |r|]
  {
    var from := SliceIndex(p * TransactionsPerPage - TransactionsPerPage, |list|);
    var to := SliceIndex(p * TransactionsPerPage, |list|);
    assert to - from <= TransactionsPerPage;
    Slice(list, p * TransactionsPerPage - TransactionsPerPage, p * TransactionsPerPage)
  }

  /** `Math.ceil(n / 5)`. */
  function TotalPages(n: nat): (r: nat)
    ensures r * TransactionsPerPage >= n
    ensures r == 0 || (r - 1) * TransactionsPerPage < n
    ensures r == 0 <==> n == 0
  {
    (n + TransactionsPerPage - 1) / TransactionsPerPage
  }

  function Min(a: int, b: int): int {
    if a < b then a else b
  }

  /** Page `p >= 1` is the stretch of five rows starting at row `(p - 1) * 5`, cut at the end. */
  lemma PageIsStretch<T>(list: seq<T>, p: int)
    requires p >= 1
    ensures Page(list, p) ==
      list[Min((p - 1) * TransactionsPerPage, |list|)..Min(p * TransactionsPerPage, |list|)]
    ensures |Page(list, p)| <= TransactionsPerPage
  {
  }

  /** A page number past the last page shows nothing. */
  lemma PageBeyondLastIsEmpty<T>(list: seq<T>, p: int)
    requires p > TotalPages(|list|)
    ensures Page(list, p) == []
  {
  }

  /** Pages 1 to k, one after the other. */
  function FirstPages<T>(list: seq<T>, k: nat): seq<T>
    decreases k
  {
    if k == 0 then [] else FirstPages(list, k - 1) + Page(list, k)
  }

  lemma {:induction false} FirstPagesArePrefix<T>(list: seq<T>, k: nat)
    ensures FirstPages(list, k) == list[..Min(k * TransactionsPerPage, |list|)]
    decreases k
  {
    if k > 0 {
      FirstPagesArePrefix(list, k - 1);
      PageIsStretch(list, k);
      var a := Min((k - 1) * TransactionsPerPage, |list|);
      var b := Min(k * TransactionsPerPage, |list|);
      assert list[..a] + list[a..b] == list[..b];
    }
  }

  /** Reading every page in order gives the whole filtered list, nothing twice. */
  lemma AllPagesGiveTheList<T>(list: seq<T>)
    ensures FirstPages(list, TotalPages(|list|)) == list
  {
    FirstPagesArePrefix(list, TotalPages(|list|));
    assert list[..|list|] == list;
  }
}
