/**
 * The optional `page` and `size` parameters, appended to a freshly joined URL
 * in the same way by every paginated request of both clients.
 */
module Paging {
  import opened Wrappers
  import opened Decimal
  import opened Urls

  /** How many pairs of `q` have `key`. */
  function KeyCount(q: seq<Pair>, key: string): nat {
    if q == [] then 0 else (if q[0].0 == key then 1 else 0) + KeyCount(q[1..], key)
  }

  /** Appending one pair adds one to the count of its key. */
  lemma {:induction false} KeyCountAppend(q: seq<Pair>, p: Pair, key: string)
    ensures KeyCount(q + [p], key) == KeyCount(q, key) + (if p.0 == key then 1 else 0)
  {
    if q != [] {
      assert (q + [p])[1..] == q[1..] + [p];
      KeyCountAppend(q[1..], p, key);
    }
  }

  /** The value of the first pair of `q` with `key`. */
  function Lookup(q: seq<Pair>, key: string): Option<string> {
    if q == [] then None else if q[0].0 == key then Some(q[0].1) else Lookup(q[1..], key)
  }

  /** Append `("page", page)` when a page is present, then `("size", size)` when a size
      is present, each value in decimal; nothing but the query changes. */
  function Paginate(u: Url, page: Option<nat>, size: Option<nat>): (r: Url)
    ensures r.(query := u.query) == u
    ensures r.query == None <==> u.query == None && page.None? && size.None?
    ensures |Pairs(r)| >= |Pairs(u)| && Pairs(r)[..|Pairs(u)|] == Pairs(u)
    ensures KeyCount(Pairs(r), "page") == KeyCount(Pairs(u), "page") + (if page.Some? then 1 else 0)
    ensures KeyCount(Pairs(r), "size") == KeyCount(Pairs(u), "size") + (if size.Some? then 1 else 0)
  {
    var withPage :=
      if page.Some? then
        var pair := ("page", Render(page.value));
        KeyCountAppend(Pairs(u), pair, "page");
        KeyCountAppend(Pairs(u), pair, "size");
        AppendPair(u, pair.0, pair.1)
      else u;
    if size.Some? then
      var pair := ("size", Render(size.value));
      KeyCountAppend(Pairs(withPage), pair, "page");
      KeyCountAppend(Pairs(withPage), pair, "size");
      AppendPair(withPage, pair.0, pair.1)
    else withPage
  }

  /** `s` is a string of decimal digits whose value is `n`. */
  predicate DecimalOf(s: string, n: nat) {
    IsDigits(s) && ParseDecimal(s) == n
  }

  /** The pairs the conditional appends add to a URL that had no query. */
  function FreshPairs(page: Option<nat>, size: Option<nat>): seq<Pair> {
    (if page.Some? then [("page", Render(page.value))] else []) +
    (if size.Some? then [("size", Render(size.value))] else [])
  }

  /** On a URL without a query: only "page" and "size" keys, each at most once and only
      when present, "page" before "size", every value the decimal form of its number
      and unchanged by form encoding. */
  lemma PaginateFresh(u: Url, page: Option<nat>, size: Option<nat>, q: seq<Pair>)
    requires u.query == None && q == Pairs(Paginate(u, page, size))
    ensures |q| <= 2
    ensures KeyCount(q, "page") == (if page.Some? then 1 else 0)
    ensures KeyCount(q, "size") == (if size.Some? then 1 else 0)
    ensures forall i :: 0 <= i < |q| ==>
              (q[i].0 == "page" || q[i].0 == "size") && FormInert(q[i].0) &&
              IsCanonical(q[i].1) && FormInert(q[i].1)
    ensures forall i, j :: 0 <= i < |q| && 0 <= j < |q| && q[i].0 == "page" && q[j].0 == "size" ==> i < j
    ensures page.Some? <==> Lookup(q, "page").Some?
    ensures size.Some? <==> Lookup(q, "size").Some?
    ensures page.Some? ==> DecimalOf(Lookup(q, "page").value, page.value)
    ensures size.Some? ==> DecimalOf(Lookup(q, "size").value, size.value)
  {
    assert q == FreshPairs(page, size);
    FreshPairsCounts(page, size);
    FreshPairsShape(page, size);
    FreshPairsValues(page, size);
  }

  lemma FreshPairsCounts(page: Option<nat>, size: Option<nat>)
    ensures var q := FreshPairs(page, size);
      && |q| <= 2
      && KeyCount(q, "page") == (if page.Some? then 1 else 0)
      && KeyCount(q, "size") == (if size.Some? then 1 else 0)
  {
    assert "page"[0] != "size"[0];
    var q := FreshPairs(page, size);
    if page.Some? && size.Some? {
      var tail := [("size", Render(size.value))];
      assert q[1..] == tail && tail[1..] == [];
      assert KeyCount(tail, "page") == 0 && KeyCount(tail, "size") == 1;
    }
  }

  lemma FreshPairsShape(page: Option<nat>, size: Option<nat>)
    ensures var q := FreshPairs(page, size);
      && (forall i :: 0 <= i < |q| ==>
            (q[i].0 == "page" || q[i].0 == "size") && FormInert(q[i].0) &&
            IsCanonical(q[i].1) && FormInert(q[i].1))
      && (forall i, j :: 0 <= i < |q| && 0 <= j < |q| && q[i].0 == "page" && q[j].0 == "size" ==> i < j)
  {
    assert "page"[0] != "size"[0];
    DecimalIsFormInert(if page.Some? then page.value else 0);
    DecimalIsFormInert(if size.Some? then size.value else 0);
  }

  lemma FreshPairsValues(page: Option<nat>, size: Option<nat>)
    ensures var q := FreshPairs(page, size);
      && (page.Some? <==> Lookup(q, "page").Some?)
      && (size.Some? <==> Lookup(q, "size").Some?)
      && (page.Some? ==> DecimalOf(Lookup(q, "page").value, page.value))
      && (size.Some? ==> DecimalOf(Lookup(q, "size").value, size.value))
  {
    assert "page"[0] != "size"[0];
    var q := FreshPairs(page, size);
    if page.Some? {
      ParseRender(page.value);
    }
    if size.Some? {
      ParseRender(size.value);
      if page.Some? {
        assert q[1..] == [("size", Render(size.value))];
      }
    }
  }

  /** With neither parameter the URL is left as it is. */
  lemma PaginateNothing(u: Url)
    ensures Paginate(u, None, None) == u
  {
  }

  /** A page alone on a URL without a query becomes its only pair. */
  lemma PaginatePageOnly(u: Url, n: nat)
    requires u.query == None
    ensures Paginate(u, Some(n), None) == u.(query := Some([("page", Render(n))]))
  {
  }

  /** A size alone on a URL without a query becomes its only pair. */
  lemma PaginateSizeOnly(u: Url, n: nat)
    requires u.query == None
    ensures Paginate(u, None, Some(n)) == u.(query := Some([("size", Render(n))]))
  {
  }

  /** On a URL without a query, every appended value is a decimal string whose number is
      below any bound both parameters respect (2^32 for `u32`, 2^64 for `usize`). */
  lemma PaginateBound(u: Url, page: Option<nat>, size: Option<nat>, bound: nat)
    requires u.query == None
    requires page.Some? ==> page.value < bound
    requires size.Some? ==> size.value < bound
    ensures var q := Pairs(Paginate(u, page, size));
            forall i :: 0 <= i < |q| ==> IsDigits(q[i].1) && ParseDecimal(q[i].1) < bound
  {
    var q := Pairs(Paginate(u, page, size));
    assert q == FreshPairs(page, size);
    if page.Some? {
      ParseRender(page.value);
    }
    if size.Some? {
      ParseRender(size.value);
    }
  }

  /** Decimal digits pass through form encoding unchanged. */
  lemma DecimalIsFormInert(n: nat)
    ensures FormInert(Render(n))
  {
  }

  /** The pairs appended depend only on the parameters, not on the URL's path. */
  lemma PaginateQueryOnly(u: Url, v: Url, page: Option<nat>, size: Option<nat>)
    requires u.query == v.query
    ensures Paginate(u, page, size).query == Paginate(v, page, size).query
  {
  }
}
