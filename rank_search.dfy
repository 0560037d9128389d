/**
 * The search-ranking demo on the home page: a typewriter that types and
 * erases six sample queries in turn, a scroll handler that moves "your
 * business" from position 28 towards position 1, and the first page of ten
 * listings with "your business" placed among them when it has reached it.
 *
 * Timers are not modelled: each firing of the typewriter's timeout is one
 * call of `Tick`, whatever its delay (100 ms typing, 50 ms erasing, 2000 ms
 * before erasing starts).
 */
module RankSearch {

  const Queries: seq<string> := [
    "Bedste frisør i København",
    "Massage i Herlev",
    "Fix min bil i Odense",
    "Rengøring i Aalborg",
    "Elektriker i Roskilde",
    "Tandlæge i Frederiksberg"
  ]

  const ListingsPerPage := 10
  const StartingPosition := 28

  type QueryIndex = i: int | 0 <= i < 6

  // ---------------------------------------------------------------------
  // Typewriter
  // ---------------------------------------------------------------------

  /** The typewriter's state: the text shown, which query, and whether it is erasing. */
  datatype Typing = Typing(text: string, index: QueryIndex, deleting: bool)

  /** The text shown is always a beginning of the current query. */
  predicate Consistent(t: Typing) {
    t.text <= Queries[t.index]
  }

  /** One firing of the typewriter's timeout. */
  function Tick(t: Typing): (r: Typing)
    ensures !t.deleting && |t.text| < |Queries[t.index]| ==>
      r == Typing(Queries[t.index][..|t.text| + 1], t.index, false)
    ensures !t.deleting && |t.text| >= |Queries[t.index]| ==>
      r == Typing(t.text, t.index, true)
    ensures t.deleting && t.text != [] ==>
      r == Typing(t.text[..|t.text| - 1], t.index, true)
    ensures t.deleting && t.text == [] ==>
      r == Typing([], (t.index + 1) % |Queries|, false)
    ensures Consistent(t) ==> Consistent(r)
  {
    var target := Queries[t.index];
    if !t.deleting then
      if |t.text| < |target| then t.(text := target[..|t.text| + 1])
      else t.(deleting := true)
    else if |t.text| > 0 then t.(text := t.text[..|t.text| - 1])
    else Typing(t.text, (t.index + 1) % |Queries|, false)
  }

  /** The state after `n` firings. */
  function Run(t: Typing, n: nat): Typing
  {
    if n == 0 then t else Tick(Run(t, n - 1))
  }

  /** Every state reached from a consistent one is consistent. */
  lemma {:induction false} RunIsConsistent(t: Typing, n: nat)
    requires Consistent(t)
    ensures Consistent(Run(t, n))
  {
    if n > 0 {
      RunIsConsistent(t, n - 1);
    }
  }

  /** Running `a` firings and then `b` more is running `a + b`. */
  lemma {:induction false} RunAdd(t: Typing, a: nat, b: nat)
    ensures Run(Run(t, a), b) == Run(t, a + b)
  {
    if b > 0 {
      RunAdd(t, a, b - 1);
    }
  }

  /** Typing from empty: after `k` firings the first `k` characters are shown. */
  lemma {:induction false} TypingPhase(i: QueryIndex, k: nat)
    requires k <= |Queries[i]|
    ensures Run(Typing([], i, false), k) == Typing(Queries[i][..k], i, false)
  {
    if k > 0 {
      TypingPhase(i, k - 1);
      assert Queries[i][..k - 1][..k - 1] == Queries[i][..k - 1];
    }
  }

  /** Erasing: after `k` firings the last `k` characters are gone. */
  lemma {:induction false} ErasingPhase(i: QueryIndex, k: nat)
    requires k <= |Queries[i]|
    ensures Run(Typing(Queries[i], i, true), k) == Typing(Queries[i][..|Queries[i]| - k], i, true)
  {
    if k > 0 {
      ErasingPhase(i, k - 1);
      var q := Queries[i];
      assert q[..|q| - (k - 1)][..|q| - (k - 1) - 1] == q[..|q| - k];
    }
  }

  /**
   * A full cycle: from an empty text, typing the whole query, one pause,
   * erasing it and one more firing bring the typewriter to the next query.
   */
  lemma CycleReachesNextQuery(i: QueryIndex)
    ensures Run(Typing([], i, false), 2 * |Queries[i]| + 2) == Typing([], (i + 1) % |Queries|, false)
  {
    var q := Queries[i];
    var start := Typing([], i, false);
    var n := |q|;
    TypingPhase(i, n);
    assert q[..n] == q;
    assert Run(start, n) == Typing(q, i, false);
    assert Run(start, n + 1) == Typing(q, i, true);
    ErasingPhase(i, n);
    RunAdd(start, n + 1, n);
    assert Run(start, 2 * n + 1) == Typing([], i, true);
    assert Run(start, 2 * n + 2) == Tick(Typing([], i, true));
  }

  // ---------------------------------------------------------------------
  // Scroll position
  // ---------------------------------------------------------------------

  /** `Math.round`: halves round up. */
  function Round(x: real): int {
    (x + 0.5).Floor
  }

  /**
   * What the scroll handler sets for a scroll percentage: at 50% or more the
   * progress through the second half (capped at 1) and the position it
   * reaches from 28; below 50% the starting position and no progress.
   */
  function ScrollState(scrollPercentage: real): (r: (int, real))
    ensures scrollPercentage < 50.0 ==> r == (StartingPosition, 0.0)
    ensures 1 <= r.0 <= StartingPosition && 0.0 <= r.1 <= 1.0
    ensures scrollPercentage >= 100.0 ==> r == (1, 1.0)
  {
    if scrollPercentage >= 50.0 then
      var progress := if (scrollPercentage - 50.0) / 50.0 < 1.0 then (scrollPercentage - 50.0) / 50.0 else 1.0;
      var rounded := Round(StartingPosition as real - progress * (StartingPosition - 1) as real);
      (if rounded > 1 then rounded else 1, progress)
    else
      (StartingPosition, 0.0)
  }

  /** Scrolling further never moves the business down the ranking. */
  lemma ScrollPositionMonotone(p: real, q: real)
    requires p <= q
    ensures ScrollState(q).0 <= ScrollState(p).0
  {
    if p >= 50.0 {
      var pp := if (p - 50.0) / 50.0 < 1.0 then (p - 50.0) / 50.0 else 1.0;
      var qp := if (q - 50.0) / 50.0 < 1.0 then (q - 50.0) / 50.0 else 1.0;
      assert pp <= qp;
      var x := 28.0 - qp * 27.0 + 0.5;
      var y := 28.0 - pp * 27.0 + 0.5;
      assert x <= y;
      assert x.Floor <= y.Floor;
    }
  }

  // ---------------------------------------------------------------------
  // Listings
  // ---------------------------------------------------------------------

  datatype Listing = Listing(position: int, isYourBusiness: bool)

  /** `regularListings`: the positions 1 to 10. */
  function RegularListings(): (r: seq<int>)
    ensures |r| == ListingsPerPage
    ensures forall k :: 0 <= k < |r| ==> r[k] == k + 1
  {
    seq(ListingsPerPage, k => k + 1)
  }

  /**
   * `getListingsWithYourBusiness`: ten listings at positions 1 to 10, the one
   * at `yourPosition` flagged when that is on the page.
   */
  method ListingsWithYourBusiness(yourPosition: int) returns (listings: seq<Listing>)
    ensures |listings| == ListingsPerPage
    ensures forall k :: 0 <= k < |listings| ==> listings[k].position == k + 1
    ensures forall k :: 0 <= k < |listings| ==> (listings[k].isYourBusiness <==> k == yourPosition - 1)
    ensures (exists k :: 0 <= k < |listings| && listings[k].isYourBusiness) <==> 1 <= yourPosition <= ListingsPerPage
  {
    var regular := RegularListings();
    if !(yourPosition <= ListingsPerPage) {
      listings := seq(|regular|, k requires 0 <= k < |regular| => Listing(regular[k], false));
      return;
    }
    listings := [];
    var i := 1;
    while i <= ListingsPerPage
      invariant 1 <= i <= ListingsPerPage + 1
      invariant |listings| == i - 1
      invariant forall k :: 0 <= k < |listings| ==> listings[k].position == k + 1
      invariant forall k :: 0 <= k < |listings| ==> (listings[k].isYourBusiness <==> k == yourPosition - 1)
    {
      if i == yourPosition {
        listings := listings + [Listing(yourPosition, true)];
      } else if i < yourPosition {
        listings := listings + [Listing(i, false)];
      } else {
        listings := listings + [Listing(i, false)];
      }
      i := i + 1;
    }
    if 1 <= yourPosition {
      assert listings[yourPosition - 1].isYourBusiness;
    }
  }

  // ---------------------------------------------------------------------
  // The component's state
  // ---------------------------------------------------------------------

  /** The state the section keeps between renders. */
  class RankSearchSection {
    var currentQuery: string
    var queryIndex: QueryIndex
    var isDeleting: bool
    var yourPosition: int
    var scrollProgress: real

    function Typewriter(): Typing
      reads this
    {
      Typing(currentQuery, queryIndex, isDeleting)
    }

    /** The text is a beginning of the current query, and the position and progress are in range. */
    ghost predicate Valid()
      reads this
    {
      && Consistent(Typewriter())
      && 1 <= yourPosition <= StartingPosition
      && 0.0 <= scrollProgress <= 1.0
    }

    constructor ()
      ensures Valid()
      ensures Typewriter() == Typing([], 0, false)
      ensures yourPosition == StartingPosition && scrollProgress == 0.0
    {
      currentQuery := [];
      queryIndex := 0;
      isDeleting := false;
      yourPosition := StartingPosition;
      scrollProgress := 0.0;
    }

    /** The typewriter effect's timeout firing once. */
    method TypewriterTick()
      requires Valid()
      modifies this
      ensures Valid()
      ensures Typewriter() == Tick(old(Typewriter()))
      ensures yourPosition == old(yourPosition) && scrollProgress == old(scrollProgress)
    {
      var targetQuery := Queries[queryIndex];
      if !isDeleting {
        if |currentQuery| < |targetQuery| {
          currentQuery := targetQuery[..|currentQuery| + 1];
        } else {
          isDeleting := true;
        }
      } else {
        if |currentQuery| > 0 {
          currentQuery := currentQuery[..|currentQuery| - 1];
        } else {
          isDeleting := false;
          queryIndex := (queryIndex + 1) % |Queries|;
        }
      }
    }

    /** The scroll handler, given the scroll percentage of the listing container. */
    method OnScroll(scrollPercentage: real)
      requires Valid()
      modifies this
      ensures Valid()
      ensures (yourPosition, scrollProgress) == ScrollState(scrollPercentage)
      ensures Typewriter() == old(Typewriter())
    {
      if scrollPercentage >= 50.0 {
        var progress := if (scrollPercentage - 50.0) / 50.0 < 1.0 then (scrollPercentage - 50.0) / 50.0 else 1.0;
        scrollProgress := progress;
        var rounded := Round(StartingPosition as real - progress * (StartingPosition - 1) as real);
        yourPosition := if rounded > 1 then rounded else 1;
      } else {
        scrollProgress := 0.0;
        yourPosition := StartingPosition;
      }
    }
  }
}
