/** The shared pagination model: defaults, clamping getters, offset and page metadata. */
module SharedPagination {
  import opened Util
  import ServicePaging = Pagination

  const DefaultPage := 1
  const DefaultPerPage := 20
  const MaxPerPage := 100

  datatype Pagination = Pagination(page: int, perPage: int)

  /** GetPage: the page when it is at least 1, else the default page. */
  function GetPage(p: Pagination): (n: int)
    ensures n >= 1
    ensures p.page >= 1 ==> n == p.page
    ensures p.page < 1 ==> n == DefaultPage
  {
    if p.page < 1 then DefaultPage else p.page
  }

  /** GetPerPage: the default below 1, the cap above 100, the value otherwise. */
  function GetPerPage(p: Pagination): (n: int)
    ensures 1 <= n <= MaxPerPage
    ensures 1 <= p.perPage <= MaxPerPage ==> n == p.perPage
    ensures p.perPage < 1 ==> n == DefaultPerPage
    ensures p.perPage > MaxPerPage ==> n == MaxPerPage
  {
    if p.perPage < 1 then DefaultPerPage else if p.perPage > MaxPerPage then MaxPerPage else p.perPage
  }

  /** GetOffset: the rows of the earlier pages. */
  function GetOffset(p: Pagination): (offset: int)
    ensures offset >= 0
    ensures offset + GetPerPage(p) == GetPage(p) * GetPerPage(p)
  {
    (GetPage(p) - 1) * GetPerPage(p)
  }

  datatype PaginationMeta = PaginationMeta(page: int, perPage: int, totalItems: int, totalPages: int)

  /** NewPaginationMeta: the clamped page and size, and the number of pages needed for the items. */
  function NewPaginationMeta(p: Pagination, totalItems: int): (m: PaginationMeta)
    ensures m.page == GetPage(p) && m.perPage == GetPerPage(p) && m.totalItems == totalItems
    ensures totalItems >= 0 ==> (m.totalPages - 1) * m.perPage < totalItems <= m.totalPages * m.perPage || (totalItems == 0 && m.totalPages == 0)
    ensures totalItems == 0 ==> m.totalPages == 0
    ensures totalItems >= 0 ==> m.totalPages >= 0
  {
    var perPage := GetPerPage(p);
    var totalPages := GoQuo(totalItems, perPage);
    var totalPages' := if GoRem(totalItems, perPage) > 0 then totalPages + 1 else totalPages;
    PaginationMeta(GetPage(p), perPage, totalItems, totalPages')
  }

  /** Every page up to the reported page count starts inside the items. */
  lemma LastPageStartsInside(p: Pagination, totalItems: nat)
    requires totalItems > 0
    requires GetPage(p) <= NewPaginationMeta(p, totalItems).totalPages
    ensures GetOffset(p) < totalItems
  {
    var m := NewPaginationMeta(p, totalItems);
    var n := GetPerPage(p);
    assert (m.totalPages - 1) * n < totalItems;
    assert (GetPage(p) - 1) * n <= (m.totalPages - 1) * n by {
      MulMonotoneInt(GetPage(p) - 1, m.totalPages - 1, n);
    }
  }

  /**
   * The two page counts of the repository agree on a non-empty result, and differ on an
   * empty one: the strategy service reports one page, the shared model none.
   */
  lemma PageCountsCompared(p: Pagination, totalItems: nat)
    requires 1 <= p.perPage <= MaxPerPage
    ensures totalItems > 0 ==> NewPaginationMeta(p, totalItems).totalPages == ServicePaging.CalculateTotalPages(totalItems, p.perPage)
    ensures totalItems == 0 ==> NewPaginationMeta(p, totalItems).totalPages == 0 && ServicePaging.CalculateTotalPages(totalItems, p.perPage) == 1
  {
    if totalItems > 0 {
      var n := p.perPage;
      var a := NewPaginationMeta(p, totalItems).totalPages;
      var b := ServicePaging.CalculateTotalPages(totalItems, n);
      CeilingUnique(a, b, n, totalItems);
    }
  }

  /** At most one count c of pages of size n satisfies (c - 1) * n < total <= c * n. */
  lemma CeilingUnique(a: int, b: int, n: int, total: int)
    requires n > 0
    requires (a - 1) * n < total <= a * n
    requires (b - 1) * n < total <= b * n
    ensures a == b
  {
    if a < b {
      MulMonotoneInt(a, b - 1, n);
    } else if b < a {
      MulMonotoneInt(b, a - 1, n);
    }
  }

  lemma MulMonotoneInt(a: int, b: int, n: int)
    requires a <= b && n > 0
    ensures a * n <= b * n
  {
  }
}
