/**
 * The gap computation of CalculateMissingDataRanges: given the blocks of stored candles
 * (in the order the database returns them) and a requested window, the date ranges to download.
 *
 * Times are whole seconds; `t.Add(time.Second)` is t + 1 and `t.Add(-time.Second)` is t - 1.
 * The stored blocks are an input: the query that produces them is not part of this model.
 */
module MissingRanges {

  datatype DateRange = DateRange(start: int, end: int)

  /** The gap between two neighbouring blocks, when the second starts more than one second after the first ends. */
  function Gap(a: DateRange, b: DateRange): seq<DateRange>
  {
    if a.end + 1 < b.start then [DateRange(a.end + 1, b.start - 1)] else []
  }

  /** The gaps between neighbouring blocks, in block order. */
  function InteriorGaps(rs: seq<DateRange>): (gs: seq<DateRange>)
    ensures |rs| > 0 ==> |gs| <= |rs| - 1
  {
    if |rs| < 2 then [] else InteriorGaps(rs[..|rs| - 1]) + Gap(rs[|rs| - 2], rs[|rs| - 1])
  }

  /** The gap before the first block, when the window starts earlier. */
  function Leading(start: int, first: DateRange): seq<DateRange>
  {
    if start < first.start then [DateRange(start, first.start - 1)] else []
  }

  /** The gap after the last block, when the window ends later. */
  function Trailing(end: int, last: DateRange): seq<DateRange>
  {
    if end > last.end then [DateRange(last.end + 1, end)] else []
  }

  /** The missing ranges for the window [start, end]: the whole window when nothing is stored. */
  function Missing(rs: seq<DateRange>, start: int, end: int): (r: seq<DateRange>)
    ensures |rs| == 0 ==> r == [DateRange(start, end)]
    ensures |r| <= |rs| + 1
    ensures |rs| > 0 && start < rs[0].start ==> |r| > 0 && r[0] == DateRange(start, rs[0].start - 1)
    ensures |rs| > 0 && end > rs[|rs| - 1].end ==> |r| > 0 && r[|r| - 1] == DateRange(rs[|rs| - 1].end + 1, end)
  {
    if |rs| == 0 then [DateRange(start, end)]
    else Leading(start, rs[0]) + InteriorGaps(rs) + Trailing(end, rs[|rs| - 1])
  }

  /** Some stored block contains the second t. */
  predicate Covered(rs: seq<DateRange>, t: int)
  {
    exists i :: 0 <= i < |rs| && rs[i].start <= t <= rs[i].end
  }

  /** Some range of gs contains the second t. */
  predicate InSome(gs: seq<DateRange>, t: int)
  {
    exists j :: 0 <= j < |gs| && gs[j].start <= t <= gs[j].end
  }

  /** Blocks in ascending order, each non-empty and ending before the next one starts. */
  predicate Sorted(rs: seq<DateRange>)
  {
    && (forall i :: 0 <= i < |rs| ==> rs[i].start <= rs[i].end)
    && (forall i :: 0 <= i < |rs| - 1 ==> rs[i].end < rs[i + 1].start)
  }

  /** Ranges in strictly ascending order, each non-empty. */
  predicate Ascending(gs: seq<DateRange>)
  {
    && (forall j :: 0 <= j < |gs| ==> gs[j].start <= gs[j].end)
    && (forall j :: 0 <= j < |gs| - 1 ==> gs[j].end < gs[j + 1].start)
  }

  /** CalculateMissingDataRanges after the stored blocks have been read. */
  method CalculateMissingRanges(existing: seq<DateRange>, start: int, end: int) returns (missing: seq<DateRange>)
    ensures missing == Missing(existing, start, end)
    ensures |existing| == 0 ==> missing == [DateRange(start, end)]
  {
    if |existing| == 0 {
      return [DateRange(start, end)];
    }
    missing := [];
    if start < existing[0].start {
      missing := missing + [DateRange(start, existing[0].start - 1)];
    }
    var i := 0;
    assert existing[..1] == [existing[0]];
    while i < |existing| - 1
      invariant 0 <= i <= |existing| - 1
      invariant missing == Leading(start, existing[0]) + InteriorGaps(existing[..i + 1])
    {
      assert existing[..i + 2][..i + 1] == existing[..i + 1];
      if existing[i].end + 1 < existing[i + 1].start {
        missing := missing + [DateRange(existing[i].end + 1, existing[i + 1].start - 1)];
      }
      i := i + 1;
    }
    assert existing[..i + 1] == existing;
    if end > existing[|existing| - 1].end {
      missing := missing + [DateRange(existing[|existing| - 1].end + 1, end)];
    }
  }

  // ---- Completeness: every uncovered second of the window is reported ----

  /** An uncovered second strictly between the first block's end and the last block's start lies in an interior gap. */
  lemma {:induction false} InteriorGapsCover(rs: seq<DateRange>, t: int)
    requires |rs| >= 2
    requires rs[0].end < t < rs[|rs| - 1].start
    requires !Covered(rs, t)
    ensures InSome(InteriorGaps(rs), t)
  {
    var n := |rs|;
    var g := Gap(rs[n - 2], rs[n - 1]);
    if t > rs[n - 2].end {
      assert g == [DateRange(rs[n - 2].end + 1, rs[n - 1].start - 1)];
      assert InteriorGaps(rs)[|InteriorGaps(rs)| - 1] == g[0];
    } else {
      assert t < rs[n - 2].start;
      var p := rs[..n - 1];
      assert p[|p| - 1] == rs[n - 2] && p[0] == rs[0];
      assert !Covered(p, t) by {
        forall i | 0 <= i < |p|
          ensures !(p[i].start <= t <= p[i].end)
        {
          assert p[i] == rs[i];
        }
      }
      InteriorGapsCover(p, t);
      var j :| 0 <= j < |InteriorGaps(p)| && InteriorGaps(p)[j].start <= t <= InteriorGaps(p)[j].end;
      assert InteriorGaps(rs)[j] == InteriorGaps(p)[j];
    }
  }

  /**
   * Every second of the window that no stored block contains lies in some reported range.
   * This holds for any list of blocks, sorted or not.
   */
  lemma MissingIsComplete(rs: seq<DateRange>, start: int, end: int, t: int)
    requires start <= t <= end
    requires !Covered(rs, t)
    ensures InSome(Missing(rs, start, end), t)
  {
    var m := Missing(rs, start, end);
    if |rs| == 0 {
      assert m[0] == DateRange(start, end);
    } else {
      var n := |rs|;
      var lead := Leading(start, rs[0]);
      var mid := InteriorGaps(rs);
      var trail := Trailing(end, rs[n - 1]);
      assert m == lead + mid + trail;
      assert !(rs[0].start <= t <= rs[0].end);
      assert !(rs[n - 1].start <= t <= rs[n - 1].end);
      if t < rs[0].start {
        assert m[0] == DateRange(start, rs[0].start - 1);
      } else if t > rs[n - 1].end {
        assert m[|m| - 1] == DateRange(rs[n - 1].end + 1, end);
      } else {
        InteriorGapsCover(rs, t);
        var j :| 0 <= j < |mid| && mid[j].start <= t <= mid[j].end;
        assert m[|lead| + j] == mid[j];
      }
    }
  }

  // ---- Soundness and order, for sorted blocks ----

  /** In sorted blocks every earlier block ends before every later block starts. */
  lemma {:induction false} SortedApart(rs: seq<DateRange>, i: nat, k: nat)
    requires Sorted(rs)
    requires i < k < |rs|
    ensures rs[i].end < rs[k].start
    decreases k - i
  {
    if i + 1 < k {
      SortedApart(rs, i + 1, k);
    }
  }

  /** Every interior gap lies strictly between two neighbouring blocks i and i + 1. */
  lemma {:induction false} InteriorGapsBetween(rs: seq<DateRange>, j: nat) returns (i: nat)
    requires j < |InteriorGaps(rs)|
    ensures i < |rs| - 1
    ensures InteriorGaps(rs)[j] == DateRange(rs[i].end + 1, rs[i + 1].start - 1)
    ensures rs[i].end + 1 < rs[i + 1].start
  {
    var n := |rs|;
    var p := rs[..n - 1];
    if j < |InteriorGaps(p)| {
      i := InteriorGapsBetween(p, j);
      assert p[i] == rs[i] && p[i + 1] == rs[i + 1];
    } else {
      i := n - 2;
      assert InteriorGaps(rs)[j] == DateRange(rs[n - 2].end + 1, rs[n - 1].start - 1);
    }
  }

  /** A second strictly between two neighbouring sorted blocks is in no block. */
  lemma BetweenNotCovered(rs: seq<DateRange>, i: nat, t: int)
    requires Sorted(rs)
    requires i + 1 < |rs|
    requires rs[i].end < t < rs[i + 1].start
    ensures !Covered(rs, t)
  {
    forall k | 0 <= k < |rs|
      ensures !(rs[k].start <= t <= rs[k].end)
    {
      if k < i {
        SortedApart(rs, k, i);
      } else if k > i + 1 {
        SortedApart(rs, i + 1, k);
      }
    }
  }

  /** A second lies in a concatenation of ranges exactly when it lies in one of the parts. */
  lemma InSomeConcat(a: seq<DateRange>, b: seq<DateRange>, t: int)
    ensures InSome(a + b, t) <==> InSome(a, t) || InSome(b, t)
  {
    if InSome(a + b, t) {
      var j :| 0 <= j < |a + b| && (a + b)[j].start <= t <= (a + b)[j].end;
      if j >= |a| {
        assert b[j - |a|] == (a + b)[j];
      }
    }
    if InSome(a, t) {
      var j :| 0 <= j < |a| && a[j].start <= t <= a[j].end;
      assert (a + b)[j] == a[j];
    }
    if InSome(b, t) {
      var j :| 0 <= j < |b| && b[j].start <= t <= b[j].end;
      assert (a + b)[|a| + j] == b[j];
    }
  }

  /** A second before the first sorted block is in no block. */
  lemma BeforeNotCovered(rs: seq<DateRange>, t: int)
    requires Sorted(rs) && |rs| > 0
    requires t < rs[0].start
    ensures !Covered(rs, t)
  {
    forall k | 0 < k < |rs|
      ensures !(rs[k].start <= t <= rs[k].end)
    {
      SortedApart(rs, 0, k);
    }
  }

  /** A second after the last sorted block is in no block. */
  lemma AfterNotCovered(rs: seq<DateRange>, t: int)
    requires Sorted(rs) && |rs| > 0
    requires t > rs[|rs| - 1].end
    ensures !Covered(rs, t)
  {
    forall k | 0 <= k < |rs| - 1
      ensures !(rs[k].start <= t <= rs[k].end)
    {
      SortedApart(rs, k, |rs| - 1);
    }
  }

  /** A second in an interior gap of sorted blocks is in no block. */
  lemma InteriorNotCovered(rs: seq<DateRange>, t: int)
    requires Sorted(rs)
    requires InSome(InteriorGaps(rs), t)
    ensures !Covered(rs, t)
  {
    var mid := InteriorGaps(rs);
    var j :| 0 <= j < |mid| && mid[j].start <= t <= mid[j].end;
    var i := InteriorGapsBetween(rs, j);
    BetweenNotCovered(rs, i, t);
  }

  /** For sorted blocks no reported second is stored: with completeness, the report is exactly the uncovered window seconds plus the unclipped interior gaps. */
  lemma MissingIsSound(rs: seq<DateRange>, start: int, end: int, t: int)
    requires Sorted(rs)
    requires InSome(Missing(rs, start, end), t)
    ensures |rs| > 0 ==> !Covered(rs, t)
  {
    if |rs| > 0 {
      var n := |rs|;
      var lead := Leading(start, rs[0]);
      var mid := InteriorGaps(rs);
      var trail := Trailing(end, rs[n - 1]);
      InSomeConcat(lead + mid, trail, t);
      InSomeConcat(lead, mid, t);
      if InSome(lead, t) {
        BeforeNotCovered(rs, t);
      } else if InSome(mid, t) {
        InteriorNotCovered(rs, t);
      } else {
        AfterNotCovered(rs, t);
      }
    }
  }

  /** Every range of gs lies strictly after lo and strictly before hi. */
  predicate Within(gs: seq<DateRange>, lo: int, hi: int)
  {
    forall j :: 0 <= j < |gs| ==> lo < gs[j].start && gs[j].end < hi
  }

  /** The interior gaps of sorted blocks are ascending and lie within [first.end + 1, last.start - 1]. */
  lemma {:induction false} InteriorGapsAscending(rs: seq<DateRange>)
    requires Sorted(rs)
    ensures Ascending(InteriorGaps(rs))
    ensures |rs| > 0 ==> Within(InteriorGaps(rs), rs[0].end, rs[|rs| - 1].start)
  {
    if |rs| >= 2 {
      var n := |rs|;
      var p := rs[..n - 1];
      assert Sorted(p) by {
        assert forall i :: 0 <= i < |p| ==> p[i] == rs[i];
      }
      InteriorGapsAscending(p);
      var gp := InteriorGaps(p);
      var g := Gap(rs[n - 2], rs[n - 1]);
      assert InteriorGaps(rs) == gp + g;
      assert p[0] == rs[0] && p[|p| - 1] == rs[n - 2];
      assert Within(gp, rs[0].end, rs[n - 2].start);
      assert rs[n - 2].start <= rs[n - 2].end < rs[n - 1].start;
      assert Within(gp, rs[0].end, rs[n - 1].start) by {
        forall j | 0 <= j < |gp|
          ensures rs[0].end < gp[j].start && gp[j].end < rs[n - 1].start
        {
          assert gp[j].end < rs[n - 2].start;
        }
      }
      if |g| > 0 {
        assert g[0] == DateRange(rs[n - 2].end + 1, rs[n - 1].start - 1);
        if n > 2 {
          SortedApart(rs, 0, n - 2);
        }
        assert rs[0].end < g[0].start;
        assert Within(g, rs[0].end, rs[n - 1].start);
        if |gp| > 0 {
          assert gp[|gp| - 1].end < g[0].start;
        }
      }
      AscendingConcat(gp, g);
      WithinConcat(gp, g, rs[0].end, rs[n - 1].start);
    }
  }

  lemma WithinConcat(a: seq<DateRange>, b: seq<DateRange>, lo: int, hi: int)
    requires Within(a, lo, hi) && Within(b, lo, hi)
    ensures Within(a + b, lo, hi)
  {
    forall j | 0 <= j < |a + b|
      ensures lo < (a + b)[j].start && (a + b)[j].end < hi
    {
      if j < |a| {
        assert (a + b)[j] == a[j];
      } else {
        assert (a + b)[j] == b[j - |a|];
      }
    }
  }

  /** Two ascending lists, the first ending before the second starts, concatenate to an ascending list. */
  lemma AscendingConcat(a: seq<DateRange>, b: seq<DateRange>)
    requires Ascending(a) && Ascending(b)
    requires |a| > 0 && |b| > 0 ==> a[|a| - 1].end < b[0].start
    ensures Ascending(a + b)
  {
    var c := a + b;
    forall j | 0 <= j < |c| - 1
      ensures c[j].end < c[j + 1].start
    {
      if j + 1 < |a| {
        assert c[j] == a[j] && c[j + 1] == a[j + 1];
      } else if j + 1 == |a| {
        assert c[j] == a[|a| - 1] && c[j + 1] == b[0];
      } else {
        assert c[j] == b[j - |a|] && c[j + 1] == b[j - |a| + 1];
      }
    }
  }

  /** The leading gap and the interior gaps are ascending, and the last of them ends before the last block does. */
  lemma LeadingAndInteriorAscending(rs: seq<DateRange>, start: int)
    requires Sorted(rs) && |rs| > 0
    ensures Ascending(Leading(start, rs[0]) + InteriorGaps(rs))
    ensures var lm := Leading(start, rs[0]) + InteriorGaps(rs);
      |lm| > 0 ==> lm[|lm| - 1].end < rs[|rs| - 1].end + 1
  {
    var lead := Leading(start, rs[0]);
    var mid := InteriorGaps(rs);
    GapBounds(rs, start);
    AscendingConcat(lead, mid);
    LastOfConcat(lead, mid);
  }

  /** The facts about the leading gap and the interior gaps that their concatenation needs. */
  lemma GapBounds(rs: seq<DateRange>, start: int)
    requires Sorted(rs) && |rs| > 0
    ensures Ascending(Leading(start, rs[0])) && Ascending(InteriorGaps(rs))
    ensures |Leading(start, rs[0])| > 0 && |InteriorGaps(rs)| > 0 ==> Leading(start, rs[0])[0].end < InteriorGaps(rs)[0].start
    ensures |InteriorGaps(rs)| > 0 ==> InteriorGaps(rs)[|InteriorGaps(rs)| - 1].end < rs[|rs| - 1].end + 1
    ensures |Leading(start, rs[0])| > 0 ==> Leading(start, rs[0])[0].end < rs[|rs| - 1].end + 1
  {
    var n := |rs|;
    var mid := InteriorGaps(rs);
    InteriorGapsAscending(rs);
    assert rs[0].start <= rs[0].end && rs[n - 1].start <= rs[n - 1].end;
    if n > 1 {
      SortedApart(rs, 0, n - 1);
    }
    if |mid| > 0 {
      assert rs[0].end < mid[0].start;
      assert mid[|mid| - 1].end < rs[n - 1].start;
    }
  }

  lemma LastOfConcat(a: seq<DateRange>, b: seq<DateRange>)
    ensures |b| > 0 ==> (a + b)[|a + b| - 1] == b[|b| - 1]
    ensures |b| == 0 && |a| > 0 ==> (a + b)[|a + b| - 1] == a[|a| - 1]
  {
  }

  /** For sorted blocks and a non-empty window the reported ranges are non-empty and in ascending order. */
  lemma MissingAscending(rs: seq<DateRange>, start: int, end: int)
    requires Sorted(rs)
    requires start <= end
    ensures Ascending(Missing(rs, start, end))
  {
    if |rs| > 0 {
      LeadingAndInteriorAscending(rs, start);
      AscendingConcat(Leading(start, rs[0]) + InteriorGaps(rs), Trailing(end, rs[|rs| - 1]));
    }
  }

  // ---- Concrete windows ----

  /** A window inside the gap between two blocks reports the whole gap, reaching outside the window on both sides. */
  lemma ScenarioInteriorGapNotClipped()
    ensures Missing([DateRange(100, 200), DateRange(300, 400)], 250, 260) == [DateRange(201, 299)]
  {
    var rs := [DateRange(100, 200), DateRange(300, 400)];
    assert rs[..1] == [DateRange(100, 200)];
  }

  /** Nothing stored: the window itself, even when it is empty. */
  lemma ScenarioNothingStored()
    ensures Missing([], 10, 20) == [DateRange(10, 20)]
    ensures Missing([], 20, 10) == [DateRange(20, 10)]
  {
  }

  /** A window that starts before and ends after a single block has a leading and a trailing gap. */
  lemma ScenarioBothEnds()
    ensures Missing([DateRange(100, 200)], 0, 300) == [DateRange(0, 99), DateRange(201, 300)]
  {
  }
}
