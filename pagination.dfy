/**
 * The page arithmetic shared by the call, analysis and coaching-plan listings:
 * `page = parseInt(page) || 1`, `limit = parseInt(limit) || 10`,
 * `skip = (page - 1) * limit` and `pages = Math.ceil(total / limit)`.
 * A query parameter that is missing or does not parse is `None`.
 */
module Pagination {
  import opened Wrappers

  const DefaultPage := 1
  const DefaultLimit := 10

  /** `parseInt(param) || fallback`: a missing, unparsable or zero parameter gives the fallback. */
  function ParamOr(param: Option<int>, fallback: int): (v: int)
    ensures param.None? || param == Some(0) ==> v == fallback
    ensures param.Some? && param.value != 0 ==> v == param.value
    ensures fallback != 0 ==> v != 0
  {
    if param.Some? && param.value != 0 then param.value else fallback
  }

  /** `Math.ceil(total / limit)` for a non-zero limit. */
  function CeilDiv(total: nat, limit: int): (q: int)
    requires limit != 0
    ensures limit > 0 ==> q * limit >= total && (q - 1) * limit < total
    ensures limit > 0 ==> q >= 0
    ensures limit < 0 ==> q == -(total / -limit)
  {
    if limit > 0 then (total + limit - 1) / limit else -(total / -limit)
  }

  /** The `pagination` block of a listing and the items of the requested page. */
  datatype Page<T> = Page(items: seq<T>, current: int, pages: int, total: nat)

  function Min(a: int, b: int): int {
    if a <= b then a else b
  }

  /**
   * One page of `all` (already filtered and sorted). A negative skip is refused by the
   * database, so the listing fails (`None`); a negative limit returns at most its
   * absolute value of items, as MongoDB does.
   */
  function Paginate<T>(all: seq<T>, pageParam: Option<int>, limitParam: Option<int>): (r: Option<Page<T>>)
    ensures var page := ParamOr(pageParam, DefaultPage);
            var limit := ParamOr(limitParam, DefaultLimit);
            r.None? <==> (page - 1) * limit < 0
    ensures r.Some? ==> r.value.total == |all| && r.value.current == ParamOr(pageParam, DefaultPage)
    ensures r.Some? ==> var limit := ParamOr(limitParam, DefaultLimit);
                        |r.value.items| <= if limit > 0 then limit else -limit
    ensures r.Some? ==> var skip := (ParamOr(pageParam, DefaultPage) - 1) * ParamOr(limitParam, DefaultLimit);
                        forall k :: 0 <= k < |r.value.items| ==> 0 <= skip + k < |all| && r.value.items[k] == all[skip + k]
    ensures r.Some? ==> r.value.pages == CeilDiv(|all|, ParamOr(limitParam, DefaultLimit))
    ensures r.Some? ==> var limit := ParamOr(limitParam, DefaultLimit);
                        var skip := (ParamOr(pageParam, DefaultPage) - 1) * limit;
                        |r.value.items| == if skip >= |all| then 0 else Min(if limit > 0 then limit else -limit, |all| - skip)
  {
    var page := ParamOr(pageParam, DefaultPage);
    var limit := ParamOr(limitParam, DefaultLimit);
    var skip := (page - 1) * limit;
    if skip < 0 then None
    else
      var size := if limit > 0 then limit else -limit;
      var from := Min(skip, |all|);
      var to := Min(skip + size, |all|);
      Some(Page(all[from..to], page, CeilDiv(|all|, limit), |all|))
  }

  /** Without parameters the first ten items are listed as page 1. */
  lemma DefaultsListFirstTen<T>(all: seq<T>)
    ensures Paginate(all, None, None) == Some(Page(all[..Min(10, |all|)], 1, CeilDiv(|all|, 10), |all|))
    ensures Paginate(all, Some(0), Some(0)) == Paginate(all, None, None)
  {
  }

  /** Multiplying by a positive limit keeps the order of page numbers. */
  lemma MulMono(a: int, b: int, l: int)
    requires a <= b && l > 0
    ensures a * l <= b * l
  {
  }

  /**
   * With a positive page and limit, the page holds items exactly when it is one of
   * `1..pages`, and a page before the last is full.
   */
  lemma {:induction false} PageHoldsItemsIffInRange<T>(all: seq<T>, page: int, limit: int)
    requires page > 0 && limit > 0
    ensures var r := Paginate(all, Some(page), Some(limit));
            r.Some? && (r.value.items != [] <==> page <= r.value.pages)
    ensures var r := Paginate(all, Some(page), Some(limit));
            r.Some? && page < r.value.pages ==> |r.value.items| == limit
  {
    var q := CeilDiv(|all|, limit);
    var skip := (page - 1) * limit;
    MulMono(0, page - 1, limit);
    assert skip >= 0;
    var r := Paginate(all, Some(page), Some(limit));
    assert r.Some? && r.value.pages == q;
    if page <= q {
      MulMono(page - 1, q - 1, limit);
      assert skip < |all|;
      assert r.value.items != [];
    } else {
      MulMono(q, page - 1, limit);
      assert skip >= |all|;
      assert r.value.items == [];
    }
    if page < q {
      MulMono(page, q - 1, limit);
      assert skip + limit == page * limit;
      assert skip + limit < |all|;
    }
  }

  /** Every item is listed on page `i / limit + 1`, at position `i % limit`, and that page is in range. */
  lemma {:induction false} EveryItemHasAPage<T>(all: seq<T>, i: int, limit: int)
    requires 0 <= i < |all| && limit > 0
    ensures var r := Paginate(all, Some(i / limit + 1), Some(limit));
            r.Some? && i % limit < |r.value.items| && r.value.items[i % limit] == all[i]
            && 1 <= r.value.current <= r.value.pages
  {
    var page := i / limit + 1;
    var skip := (page - 1) * limit;
    assert skip == i / limit * limit;
    assert skip + i % limit == i;
    PageHoldsItemsIffInRange(all, page, limit);
    var r := Paginate(all, Some(page), Some(limit));
    assert skip + i % limit < |all|;
    assert i % limit < |r.value.items|;
  }
}
