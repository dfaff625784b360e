/**
 * `src/hooks/usePagination.ts`: `skip` and `limit` read from the URL with
 * `parseInt(params.get(..) || default)`, and `updateURL`, which writes each
 * of them into fresh parameters only when it is truthy.
 */
module Pagination {
  import opened Text
  import Utils

  /** `skip` as read from the URL: a missing or empty value reads as 0. */
  function ParseSkip(entries: map<string, string>): (r: Num)
    ensures "skip" !in entries ==> r == Finite(0)
  {
    if "skip" in entries && entries["skip"] != "" then ParseInt(entries["skip"]) else Finite(0)
  }

  /** `limit` as read from the URL: a missing or empty value reads as 10. */
  function ParseLimit(entries: map<string, string>): (r: Num)
    ensures "limit" !in entries ==> r == Finite(10)
  {
    if "limit" in entries && entries["limit"] != "" then ParseInt(entries["limit"]) else Finite(10)
  }

  /** The `skip` reader is `parseInt(params.get("skip") || "0")`. */
  lemma SkipAsWritten(entries: map<string, string>)
    ensures ParseSkip(entries) == ParseInt(Utils.GetOr(entries, "skip", "0"))
  {
    assert IntToText(0) == "0";
    ParseIntToText(0);
  }

  /** The `limit` reader is `parseInt(params.get("limit") || "10")`. */
  lemma LimitAsWritten(entries: map<string, string>)
    ensures ParseLimit(entries) == ParseInt(Utils.GetOr(entries, "limit", "10"))
  {
    assert NatToText(1) == "1";
    assert IntToText(10) == "10";
    ParseIntToText(10);
  }

  /** The parameters `updateURL` writes: `skip` and `limit`, each only when truthy. */
  function PaginationQuery(skip: Num, limit: Num): (r: map<string, string>)
    ensures forall k :: k in r ==> k == "skip" || k == "limit"
    ensures "skip" in r <==> Truthy(skip)
    ensures "limit" in r <==> Truthy(limit)
    ensures Truthy(skip) ==> r["skip"] == IntToText(skip.n)
    ensures Truthy(limit) ==> r["limit"] == IntToText(limit.n)
  {
    var withSkip: map<string, string> := if Truthy(skip) then map["skip" := IntToText(skip.n)] else map[];
    if Truthy(limit) then withSkip["limit" := IntToText(limit.n)] else withSkip
  }

  /** Every integer `skip` survives the URL; 0 is omitted and reads back as 0. */
  lemma SkipRoundTrip(skip: int, limit: Num)
    ensures ParseSkip(PaginationQuery(Finite(skip), limit)) == Finite(skip)
  {
    if skip != 0 {
      ParseIntToText(skip);
    }
  }

  /** Every non-zero integer `limit` survives the URL; 0 is omitted and reads back as 10. */
  lemma LimitRoundTrip(skip: Num, limit: int)
    ensures limit != 0 ==> ParseLimit(PaginationQuery(skip, Finite(limit))) == Finite(limit)
    ensures limit == 0 ==> ParseLimit(PaginationQuery(skip, Finite(limit))) == Finite(10)
  {
    if limit != 0 {
      ParseIntToText(limit);
    }
  }

  /** The hook's state: the two parsed numbers. */
  datatype PageState = PageState(skip: Num, limit: Num)

  /** Both fields as read from the location's query. */
  function ParseState(entries: map<string, string>): (r: PageState)
    ensures Utils.GetOr(entries, "skip", "") == "" ==> r.skip == Finite(0)
    ensures Utils.GetOr(entries, "limit", "") == "" ==> r.limit == Finite(10)
    ensures Utils.GetOr(entries, "skip", "") != "" ==> r.skip == ParseInt(entries["skip"])
    ensures Utils.GetOr(entries, "limit", "") != "" ==> r.limit == ParseInt(entries["limit"])
  {
    PageState(ParseSkip(entries), ParseLimit(entries))
  }

  class Pagination {
    var skip: Num
    var limit: Num

    function View(): PageState
      reads this
    {
      PageState(skip, limit)
    }

    /** The initial state read from the location's query. */
    constructor (search: map<string, string>)
      ensures View() == ParseState(search)
    {
      var parsed := ParseState(search);
      skip := parsed.skip;
      limit := parsed.limit;
    }

    method SetSkip(n: Num)
      modifies this
      ensures skip == n && limit == old(limit)
    {
      skip := n;
    }

    method SetLimit(n: Num)
      modifies this
      ensures limit == n && skip == old(skip)
    {
      limit := n;
    }

    /** The effect on a change of `location.search`: both fields re-read. */
    method SyncFromURL(search: map<string, string>)
      modifies this
      ensures View() == ParseState(search)
    {
      var parsed := ParseState(search);
      skip := parsed.skip;
      limit := parsed.limit;
    }

    /** `updateURL`: the query navigated to; the state is not changed. */
    method UpdateURL() returns (query: map<string, string>)
      ensures query == PaginationQuery(skip, limit)
    {
      var params := new Utils.SearchParams();
      if Truthy(skip) {
        params.Set("skip", IntToText(skip.n));
      }
      if Truthy(limit) {
        params.Set("limit", IntToText(limit.n));
      }
      query := params.entries;
      var spec := PaginationQuery(skip, limit);
      assert forall k :: k in query <==> k in spec;
      assert forall k :: k in query ==> query[k] == spec[k];
      assert query == spec;
    }
  }
}
