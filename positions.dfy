/**
 * Append-at-end positions for new lists and cards: one more than the
 * largest position among the siblings, where an absent (or zero) maximum
 * counts as 0.
 */
module Positions {
  import opened Models

  lemma {:induction false} MaxExists(s: set<int>)
    requires s != {}
    ensures exists m :: m in s && forall x :: x in s ==> x <= m
    decreases |s|
  {
    if forall y :: y !in s {
      assert false;
    }
    var y :| y in s;
    if s != {y} {
      var rest := s - {y};
      assert |rest| < |s|;
      MaxExists(rest);
      var m :| m in rest && forall x :: x in rest ==> x <= m;
      var top := if y <= m then m else y;
      forall x | x in s
        ensures x <= top
      {
        if x != y {
          assert x in rest;
        }
      }
      assert top in s;
    } else {
      assert forall x :: x in s ==> x <= y;
    }
  }

  /** The largest element of a non-empty set. */
  function MaxOf(s: set<int>): (m: int)
    requires s != {}
    ensures m in s
    ensures forall x :: x in s ==> x <= m
  {
    MaxExists(s);
    var m :| m in s && forall x :: x in s ==> x <= m;
    m
  }

  /** The SQL `max(position)` aggregate: absent on an empty table. */
  function MaxPosition(positions: set<int>): (r: Option<int>)
    ensures r.None? <==> positions == {}
    ensures r.Some? ==> r.value in positions && forall p :: p in positions ==> p <= r.value
  {
    if positions == {} then None else Some(MaxOf(positions))
  }

  /** `(max_pos or 0) + 1`: Python's `or` replaces both None and 0 with 0. */
  function NextPosition(positions: set<int>): (r: int)
    ensures forall p :: p in positions ==> p < r
    ensures positions == {} ==> r == 1
    ensures positions != {} ==> r - 1 in positions
  {
    var max := MaxPosition(positions);
    (if max.Some? && max.value != 0 then max.value else 0) + 1
  }

  /** A position handed out this way is never taken by an existing sibling. */
  lemma NextPositionIsFree(positions: set<int>)
    ensures NextPosition(positions) !in positions
  {
  }
}
