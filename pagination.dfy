/**
 * Query-parameter pagination of the strategy service: parsing and clamping page and limit,
 * the SQL offset, and the page count reported to clients.
 */
module Pagination {
  import opened Util

  /** strconv.Atoi on base-10 text: an optional sign and at least one digit; None is the error. */
  function Atoi(s: string): (r: Option<int>)
    ensures r.Some? ==> |s| > 0
    ensures |s| > 0 && AllDigits(s) ==> r == Some(DigitsValue(s))
  {
    if |s| == 0 then None
    else if s[0] == '+' || s[0] == '-' then
      var digits := s[1..];
      if |digits| == 0 || !AllDigits(digits) then None
      else
        var v: int := DigitsValue(digits);
        if s[0] == '-' then Some(-v) else Some(v)
    else if AllDigits(s) then Some(DigitsValue(s))
    else None
  }

  /** Atoi reads back what strconv.Itoa writes. */
  lemma AtoiItoa(n: int)
    ensures Atoi(IntToString(n)) == Some(n)
  {
    if n >= 0 {
      var s := NatToString(n);
      assert IntToString(n) == s;
      assert IsDigit(s[0]);
      NatToStringValue(n);
    } else {
      var d := NatToString(-n);
      var s := "-" + d;
      assert IntToString(n) == s;
      assert s[0] == '-' && s[1..] == d;
      NatToStringValue(-n);
    }
  }

  /** `v, _ := strconv.Atoi(s)`: the value, or 0 on an error. */
  function AtoiOrZero(s: string): (n: int)
    ensures Atoi(s).None? ==> n == 0
    ensures |s| > 0 && AllDigits(s) ==> n == DigitsValue(s)
  {
    if Atoi(s).Some? then Atoi(s).value else 0
  }

  /** gin's DefaultQuery: the query value when the key is present (even empty), else the default text. */
  function DefaultQuery(q: Option<string>, dflt: string): string
  {
    if q.Some? then q.value else dflt
  }

  datatype PaginationParams = PaginationParams(page: int, limit: int)

  /** ParsePaginationParams on the raw "page" and "limit" query values. */
  function ParsePaginationParams(pageQ: Option<string>, limitQ: Option<string>, defaultLimit: int, maxLimit: int): (p: PaginationParams)
    ensures p.page >= 1
    ensures 1 <= defaultLimit <= maxLimit ==> 1 <= p.limit <= maxLimit
    ensures pageQ.None? ==> p.page == 1
    ensures limitQ.None? && 1 <= defaultLimit <= maxLimit ==> p.limit == defaultLimit
    ensures pageQ.Some? && AtoiOrZero(pageQ.value) >= 1 ==> p.page == AtoiOrZero(pageQ.value)
    ensures limitQ.Some? && 1 <= AtoiOrZero(limitQ.value) <= maxLimit ==> p.limit == AtoiOrZero(limitQ.value)
    ensures limitQ.Some? && AtoiOrZero(limitQ.value) < 1 ==> p.limit == defaultLimit
    ensures limitQ.Some? && AtoiOrZero(limitQ.value) >= 1 && AtoiOrZero(limitQ.value) > maxLimit ==> p.limit == maxLimit
  {
    assert Atoi("1") == Some(1) by {
      assert AllDigits("1");
      assert DigitsValue("1") == 10 * DigitsValue("") + 1;
    }
    AtoiItoa(defaultLimit);
    var page := AtoiOrZero(DefaultQuery(pageQ, "1"));
    var limit := AtoiOrZero(DefaultQuery(limitQ, IntToString(defaultLimit)));
    var page' := if page < 1 then 1 else page;
    var limit' := if limit < 1 then defaultLimit else if limit > maxLimit then maxLimit else limit;
    PaginationParams(page', limit')
  }

  /** CalculateOffset: the rows of the earlier pages are skipped. */
  function CalculateOffset(page: int, limit: int): (offset: int)
    ensures page >= 1 && limit >= 0 ==> offset >= 0
    ensures offset + limit == page * limit
  {
    (page - 1) * limit
  }

  /** CalculateTotalPages; Go's division truncates, and a zero limit would panic. */
  function CalculateTotalPages(totalItems: int, limit: int): (pages: int)
    requires limit != 0
    ensures pages != 0
    ensures totalItems >= 0 && limit > 0 ==> pages >= 1
    ensures totalItems > 0 && limit > 0 ==> (pages - 1) * limit < totalItems <= pages * limit
    ensures totalItems == 0 && limit > 0 ==> pages == 1
  {
    var pages := GoQuo(totalItems + limit - 1, limit);
    if pages == 0 then 1 else pages
  }

  datatype PaginationMetadata = PaginationMetadata(totalItems: int, currentPage: int, totalPages: int, itemsPerPage: int)

  /** NewPaginationMetadata: the inputs unchanged beside the page count. */
  function NewPaginationMetadata(totalItems: int, page: int, limit: int): (m: PaginationMetadata)
    requires limit != 0
    ensures m.totalItems == totalItems && m.currentPage == page && m.itemsPerPage == limit
    ensures m.totalPages == CalculateTotalPages(totalItems, limit)
  {
    PaginationMetadata(totalItems, page, CalculateTotalPages(totalItems, limit), limit)
  }

  /** Concrete queries: absent values, an empty value, text that is not a number, and a limit above the cap. */
  lemma ScenarioParse()
    ensures ParsePaginationParams(None, None, 10, 100) == PaginationParams(1, 10)
    ensures ParsePaginationParams(Some(""), Some("abc"), 10, 100) == PaginationParams(1, 10)
    ensures ParsePaginationParams(Some("3"), Some("500"), 10, 100) == PaginationParams(3, 100)
  {
    assert Atoi("") == None;
    assert !AllDigits("abc") by { assert !IsDigit("abc"[0]); }
    assert Atoi("abc") == None;
    ScenarioDigits();
  }

  lemma ScenarioDigits()
    ensures Atoi("3") == Some(3)
    ensures Atoi("500") == Some(500)
  {
    assert AllDigits("3");
    assert DigitsValue("3") == 10 * DigitsValue("") + 3;
    assert AllDigits("500");
    assert "500"[..2] == "50" && "50"[..1] == "5" && "5"[..0] == "";
    assert DigitsValue("5") == 5;
    assert DigitsValue("50") == 50;
    assert DigitsValue("500") == 500;
  }
}
