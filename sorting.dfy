/** The sort direction accepted by the market-data queries. */
module Sorting {
  import opened Util

  /** NormalizeSortDirection: the upper-cased direction when it is "ASC" or "DESC", else "DESC". */
  function NormalizeSortDirection(direction: string): (r: string)
    ensures r == "ASC" || r == "DESC"
    ensures r == "ASC" <==> Upper(direction) == "ASC"
    ensures Upper(direction) == "DESC" ==> r == "DESC"
  {
    var d := Upper(direction);
    if d != "ASC" && d != "DESC" then "DESC" else d
  }

  /** Normalising twice gives the same direction as once. */
  lemma NormalizeIdempotent(direction: string)
    ensures NormalizeSortDirection(NormalizeSortDirection(direction)) == NormalizeSortDirection(direction)
  {
    assert Upper("ASC") == "ASC";
    assert Upper("DESC") == "DESC";
  }

  /** "asc" written in any mix of cases selects ascending order. */
  lemma AnyCaseAsc(direction: string)
    requires Lower(direction) == "asc"
    ensures NormalizeSortDirection(direction) == "ASC"
  {
    assert |direction| == 3;
    assert Upper(direction) == "ASC" by {
      forall i | 0 <= i < 3 ensures Upper(direction)[i] == "ASC"[i] {
        assert LowerChar(direction[i]) == "asc"[i];
      }
    }
  }
}
