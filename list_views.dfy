/** The list-view derivations the pages share: filtering in order, the
    fallback from an empty search result to the full list, and pagination
    by nine items per page. */
module ListViews {
  import opened Values


  /** The elements of `s` that `keep` accepts, in their original order. */
  function Filter<T(!new)>(s: seq<T>, keep: T -> bool): (r: seq<T>)
    ensures |r| <= |s|
    ensures forall x :: x in r <==> x in s && keep(x)
  {
    if s == [] then []
    else if keep(s[0]) then [s[0]] + Filter(s[1..], keep)
    else Filter(s[1..], keep)
  }

  /** Filtering distributes over concatenation, so the relative order of
      the kept elements is the order of the input. */
  lemma {:induction false} FilterAppend<T(!new)>(a: seq<T>, b: seq<T>, keep: T -> bool)
    ensures Filter(a + b, keep) == Filter(a, keep) + Filter(b, keep)
  {
    if a == [] {
      assert a + b == b;
    } else {
      assert (a + b)[1..] == a[1..] + b;
      FilterAppend(a[1..], b, keep);
    }
  }

  /** A filter that keeps everything is the identity, and filtering twice
      with the same test is filtering once. */
  lemma {:induction false} FilterIdempotent<T(!new)>(s: seq<T>, keep: T -> bool)
    ensures Filter(Filter(s, keep), keep) == Filter(s, keep)
    ensures (forall x :: x in s ==> keep(x)) ==> Filter(s, keep) == s
  {
    if s != [] {
      FilterIdempotent(s[1..], keep);
      if keep(s[0]) {
        assert Filter(s, keep)[1..] == Filter(s[1..], keep);
      }
    }
  }

  /** Two tests that agree on every element filter alike. */
  lemma {:induction false} FilterSameTest<T(!new)>(s: seq<T>, keep1: T -> bool, keep2: T -> bool)
    requires forall x :: keep1(x) == keep2(x)
    ensures Filter(s, keep1) == Filter(s, keep2)
  {
    if s != [] {
      FilterSameTest(s[1..], keep1, keep2);
    }
  }

  /** `Array.prototype.find`: the first element the test accepts. */
  function FindFirst<T(!new)>(s: seq<T>, test: T -> bool): (r: Option<T>)
    ensures r.None? <==> forall x :: x in s ==> !test(x)
    ensures r.Some? ==> exists i :: 0 <= i < |s| && s[i] == r.value && test(s[i]) && forall j :: 0 <= j < i ==> !test(s[j])
  {
    if s == [] then None
    else if test(s[0]) then Some(s[0])
    else
      var r := FindFirst(s[1..], test);
      assert r.Some? ==> exists i :: 0 <= i < |s| && s[i] == r.value && test(s[i]) && forall j :: 0 <= j < i ==> !test(s[j]) by {
        if r.Some? {
          var i :| 0 <= i < |s[1..]| && s[1..][i] == r.value && test(s[1..][i]) && forall j :: 0 <= j < i ==> !test(s[1..][j]);
          assert s[i + 1] == r.value;
          assert forall j :: 0 <= j < i + 1 ==> !test(s[j]) by {
            forall j | 0 <= j < i + 1
              ensures !test(s[j])
            {
              if j > 0 {
                assert s[j] == s[1..][j - 1];
              }
            }
          }
        }
      }
      r
  }

  /** What a page lists: the search result when it is not empty, else
      everything. */
  function Display<T(!new)>(filtered: seq<T>, all: seq<T>): (d: seq<T>)
    ensures |d| > 0 ==> (d == filtered || d == all)
  {
    if |filtered| > 0 then filtered else all
  }

  /** When the search result came from filtering the full list, what is
      listed is always drawn from the full list, and it is everything
      exactly when nothing matched. */
  lemma DisplayDrawsFromAll<T(!new)>(all: seq<T>, keep: T -> bool)
    ensures forall x :: x in Display(Filter(all, keep), all) ==> x in all
    ensures Filter(all, keep) == [] ==> Display(Filter(all, keep), all) == all
    ensures Filter(all, keep) != [] ==> forall x :: x in Display(Filter(all, keep), all) ==> keep(x)
  {
  }

  const PageSize: nat := 9

  /** `Math.ceil(n / 9)`. */
  function TotalPages(n: nat): (t: nat)
    ensures t * PageSize >= n
    ensures t > 0 ==> (t - 1) * PageSize < n
  {
    (n + PageSize - 1) / PageSize
  }

  /** `Array.prototype.slice(start, end)` for `0 <= start`: out-of-range
      bounds are cut back to the length. */
  function Slice<T(!new)>(s: seq<T>, start: nat, end: nat): (r: seq<T>)
    ensures |r| == if start < end && start < |s| then (if end < |s| then end else |s|) - start else 0
    ensures |r| > 0 ==> start + |r| <= |s|
    ensures forall i :: 0 <= i < |r| ==> r[i] == s[start + i]
  {
    var e := if end < |s| then end else |s|;
    if start < e then s[start..e] else []
  }

  /** Page `p` (counted from 1) of a list. */
  function PageOf<T(!new)>(s: seq<T>, p: nat): (r: seq<T>)
    requires p >= 1
    ensures |r| <= PageSize
    ensures |r| > 0 ==> (p - 1) * PageSize + |r| <= |s|
    ensures forall x :: x in r ==> x in s
    ensures forall i :: 0 <= i < |r| ==> r[i] == s[(p - 1) * PageSize + i]
  {
    Slice(s, (p - 1) * PageSize, p * PageSize)
  }

  /** Every element of a list is on the page numbered by its position
      divided by nine, at the remainder, and that page exists. */
  lemma IndexOnPage<T(!new)>(s: seq<T>, i: nat)
    requires i < |s|
    ensures 1 <= i / PageSize + 1 <= TotalPages(|s|)
    ensures i % PageSize < |PageOf(s, i / PageSize + 1)|
    ensures PageOf(s, i / PageSize + 1)[i % PageSize] == s[i]
  {
  }

  /** The pages that exist are never empty, and those beyond them are. */
  lemma PagesInRange<T(!new)>(s: seq<T>, p: nat)
    requires p >= 1
    ensures p <= TotalPages(|s|) ==> |PageOf(s, p)| > 0
    ensures p > TotalPages(|s|) ==> PageOf(s, p) == []
  {
  }

  /** The pagination controls appear when there is more than one page,
      which is when there are more than nine items. */
  predicate ShowPagination(n: nat)
  {
    TotalPages(n) > 1
  }

  lemma ShowPaginationIffMoreThanAPage(n: nat)
    ensures ShowPagination(n) <==> n > PageSize
  {
  }
}
