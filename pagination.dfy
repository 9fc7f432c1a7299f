/**
 * The page arithmetic of GET /paginatedUsers (app.js:597-621): the slice of
 * the user list for one page, the page count and the links to the next and
 * previous pages. `page` and `limit` are the integers `parseInt` gave; the
 * arithmetic on them is exact (see the README on doubles).
 */
module Pagination {

  import opened Optional

  /** The JSON body of the reply; a link that is not set is None. */
  datatype PageResult<T> = PageResult(
    totalUser: nat,
    pageCount: Option<int>,   // None: `Math.ceil(n / 0)` is Infinity or NaN, which JSON writes as null
    next: Option<int>,
    prev: Option<int>,
    result: seq<T>)

  function Min(a: int, b: int): int { if a <= b then a else b }
  function Max(a: int, b: int): int { if a >= b then a else b }

  /** The least integer not below `x`, as `Math.ceil`. */
  function Ceil(x: real): (r: int)
    ensures r as real - 1.0 < x <= r as real
  {
    -((-x).Floor)
  }

  /**
   * `s.slice(start, end)` in JavaScript: a negative index counts from the
   * end, and both indices are clamped to [0, |s|].
   */
  function JsSlice<T>(s: seq<T>, start: int, end: int): (r: seq<T>)
    ensures |r| <= |s|
    ensures 0 <= start && 0 <= end ==> |r| == Max(Min(end, |s|) - Min(start, |s|), 0)
    ensures 0 <= start && r != [] ==> start + |r| <= |s|
    ensures 0 <= start ==> forall i :: 0 <= i < |r| ==> r[i] == s[start + i]
    ensures start < 0 && 0 <= end ==> |r| == Max(Min(end, |s|) - Max(|s| + start, 0), 0)
    ensures start < 0 ==> Max(|s| + start, 0) + |r| <= |s|
    ensures start < 0 ==> forall i :: 0 <= i < |r| ==> r[i] == s[Max(|s| + start, 0) + i]
    ensures end < 0 && 0 <= start ==> |r| == Max(Max(|s| + end, 0) - Min(start, |s|), 0)
    ensures end < 0 && start < 0 ==> |r| == Max(Max(|s| + end, 0) - Max(|s| + start, 0), 0)
  {
    var from := if start < 0 then Max(|s| + start, 0) else Min(start, |s|);
    var to := if end < 0 then Max(|s| + end, 0) else Min(end, |s|);
    if from < to then s[from..to] else []
  }

  /** The handler's computation, without the database read. */
  function Paginate<T>(allUser: seq<T>, page: int, limit: int): (r: PageResult<T>)
    ensures r.totalUser == |allUser|
    ensures r.next.Some? <==> page * limit < |allUser|
    ensures r.next.Some? ==> r.next.value == page + 1
    ensures r.prev.Some? <==> (page - 1) * limit > 0
    ensures r.prev.Some? ==> r.prev.value == page - 1
    ensures r.pageCount.None? <==> limit == 0
  {
    var startIndex := (page - 1) * limit;
    var lastIndex := page * limit;
    PageResult(
      |allUser|,
      if limit == 0 then None else Some(Ceil(|allUser| as real / limit as real)),
      if lastIndex < |allUser| then Some(page + 1) else None,
      if startIndex > 0 then Some(page - 1) else None,
      JsSlice(allUser, startIndex, lastIndex))
  }

  /** For a positive limit the page count is the least number of `limit`-sized pages that hold every user. */
  lemma PageCountIsCeiling<T>(allUser: seq<T>, page: int, limit: int)
    requires limit >= 1
    ensures var pc := Paginate(allUser, page, limit).pageCount;
      pc.Some? && pc.value >= 0 && pc.value * limit >= |allUser| && (pc.value - 1) * limit < |allUser|
  {
    CeilOfQuotient(|allUser|, limit);
  }

  /** `Math.ceil(n / l)` for a positive integer `l` is the least `c` with `c * l >= n`. */
  lemma CeilOfQuotient(n: nat, l: int)
    requires l >= 1
    ensures var c := Ceil(n as real / l as real);
      c >= 0 && c * l >= n && (c - 1) * l < n
  {
    var q := n as real / l as real;
    var c := Ceil(q);
    QuotientTimesDivisor(n, l);
    ScaleBelow(q, c as real, l as real, n as real);
    RealOfProduct(c, l);
    ScaleStrictlyAbove((c - 1) as real, q, l as real, n as real);
    RealOfProduct(c - 1, l);
  }

  /** x <= y with x * z == n and z > 0 give y * z >= n. */
  lemma ScaleBelow(x: real, y: real, z: real, n: real)
    requires x <= y && z > 0.0 && x * z == n
    ensures y * z >= n
  {
  }

  /** x < y with y * z == n and z > 0 give x * z < n. */
  lemma ScaleStrictlyAbove(x: real, y: real, z: real, n: real)
    requires x < y && z > 0.0 && y * z == n
    ensures x * z < n
  {
  }

  lemma QuotientTimesDivisor(n: nat, l: int)
    requires l >= 1
    ensures (n as real / l as real) * l as real == n as real
    ensures n as real / l as real >= 0.0
  {
  }

  lemma RealOfProduct(a: int, b: int)
    ensures (a * b) as real == a as real * b as real
  {
  }

  lemma IntMulMonotone(x: int, y: int, z: int)
    requires x <= y && z >= 0
    ensures x * z <= y * z
  {
  }

  /**
   * For page >= 1 and limit >= 1 the page holds the users from index
   * (page-1)*limit up to page*limit or the end of the list, whichever comes
   * first: never more than `limit` of them. The previous-page link is set
   * exactly from page 2 on.
   */
  lemma PageIsWindow<T>(allUser: seq<T>, page: int, limit: int)
    requires page >= 1 && limit >= 1
    ensures var r := Paginate(allUser, page, limit);
      var startIndex := (page - 1) * limit;
      && (startIndex < |allUser| ==> r.result == allUser[startIndex..Min(page * limit, |allUser|)])
      && (startIndex >= |allUser| ==> r.result == [])
      && |r.result| <= limit
      && (r.prev.Some? <==> page >= 2)
  {
    PageIndexFacts(page, limit);
  }

  /** The two indices of a page, for page >= 1 and limit >= 1, are `limit` apart and not negative. */
  lemma PageIndexFacts(page: int, limit: int)
    requires page >= 1 && limit >= 1
    ensures page * limit == (page - 1) * limit + limit
    ensures (page - 1) * limit >= 0
    ensures (page - 1) * limit > 0 <==> page >= 2
  {
    if page >= 2 {
      IntMulMonotone(1, page - 1, limit);
    }
  }

  /** For page >= 1 and limit >= 1 the page has users exactly when the page number is within the page count. */
  lemma PageNonEmptyWithinCount<T>(allUser: seq<T>, page: int, limit: int)
    requires page >= 1 && limit >= 1
    ensures var r := Paginate(allUser, page, limit);
      r.pageCount.Some? && (|r.result| > 0 <==> page <= r.pageCount.value)
  {
    PageCountIsCeiling(allUser, page, limit);
    PageIsWindow(allUser, page, limit);
    var pc := Paginate(allUser, page, limit).pageCount.value;
    var startIndex := (page - 1) * limit;
    if page <= pc {
      IntMulMonotone(page - 1, pc - 1, limit);
      assert startIndex < |allUser|;
      assert page * limit == startIndex + limit;
    } else {
      IntMulMonotone(pc, page - 1, limit);
      assert startIndex >= |allUser|;
    }
  }

  /** A next-page link, for page >= 1 and limit >= 1, always points at a page that has users. */
  lemma NextPageIsNonEmpty<T>(allUser: seq<T>, page: int, limit: int)
    requires page >= 1 && limit >= 1
    requires Paginate(allUser, page, limit).next.Some?
    ensures |Paginate(allUser, page + 1, limit).result| > 0
  {
    PageIsWindow(allUser, page + 1, limit);
  }

  /** The users of pages 1 to k, one page after the other. */
  function PagesUpTo<T>(allUser: seq<T>, limit: int, k: nat): seq<T>
    decreases k
  {
    if k == 0 then [] else PagesUpTo(allUser, limit, k - 1) + Paginate(allUser, k, limit).result
  }

  /** Pages 1 to k, read in order, are the first k*limit users (or all of them). */
  lemma {:induction false} PagesTile<T>(allUser: seq<T>, limit: int, k: nat)
    requires limit >= 1
    ensures PagesUpTo(allUser, limit, k) == allUser[..Min(k * limit, |allUser|)]
  {
    if k > 0 {
      PagesTile(allUser, limit, k - 1);
      PageIsWindow(allUser, k, limit);
      PageIndexFacts(k, limit);
      var before := Min((k - 1) * limit, |allUser|);
      var after := Min(k * limit, |allUser|);
      if (k - 1) * limit < |allUser| {
        assert allUser[..after] == allUser[..before] + allUser[before..after];
      } else {
        assert before == after;
      }
    }
  }

  /** Read page by page up to the page count, the pages give back the whole user list, in order. */
  lemma AllPagesCoverUsers<T>(allUser: seq<T>, limit: int)
    requires limit >= 1
    ensures var pc := Paginate(allUser, 1, limit).pageCount.value;
      pc >= 0 && PagesUpTo(allUser, limit, pc) == allUser
  {
    PageCountIsCeiling(allUser, 1, limit);
    var pc := Paginate(allUser, 1, limit).pageCount.value;
    PagesTile(allUser, limit, pc);
    assert allUser[..|allUser|] == allUser;
  }

  /** With a zero limit the page is empty, there is no previous page and the page count is null. */
  lemma ZeroLimit<T>(allUser: seq<T>, page: int)
    ensures var r := Paginate(allUser, page, 0);
      r.result == [] && r.prev.None? && r.pageCount.None? && (r.next.Some? <==> |allUser| > 0)
  {
  }
}
