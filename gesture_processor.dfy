/**
 * `GestureProcessor`: turns an alert's gesture configuration into a table of
 * per-direction swipe thresholds plus a tap flag, and decides whether a drag
 * translation dismisses the alert.
 */
module GestureProcessing {

  import opened AlertTypes

  type ThresholdTable = map<SwipeDirection, real>

  // ---------------------------------------------------------------------
  // Building the table
  // ---------------------------------------------------------------------

  /** `thresholds[direction] ?? 0` */
  function StoredOrZero(table: ThresholdTable, d: SwipeDirection): real
  {
    if d in table then table[d] else 0.0
  }

  function Max(a: real, b: real): (m: real)
    ensures m >= a && m >= b && (m == a || m == b)
  {
    if a >= b then a else b
  }

  /**
   * The table after the inner loop has visited `directions` in order,
   * raising each listed direction to at least `threshold`.
   */
  function RaiseAll(table: ThresholdTable, directions: seq<SwipeDirection>, threshold: real): ThresholdTable
    decreases |directions|
  {
    if directions == [] then table
    else
      var before := RaiseAll(table, directions[..|directions| - 1], threshold);
      var d := directions[|directions| - 1];
      before[d := Max(StoredOrZero(before, d), threshold)]
  }

  /** The effect of one entry of the gesture list on the table. */
  function Absorb(table: ThresholdTable, g: AlertGesture): ThresholdTable
  {
    match g
    case Swipe(directions, threshold) => RaiseAll(table, directions, threshold)
    case Tap => table
    case NoGesture => table
  }

  /** The table the outer loop has built after visiting `gestures` in order. */
  function Thresholds(gestures: seq<AlertGesture>): ThresholdTable
    decreases |gestures|
  {
    if gestures == [] then map[]
    else Absorb(Thresholds(gestures[..|gestures| - 1]), gestures[|gestures| - 1])
  }

  /** Some `.swipe` entry of `gestures` lists direction `d`. */
  ghost predicate Lists(gestures: seq<AlertGesture>, d: SwipeDirection)
  {
    exists g :: g in gestures && g.Swipe? && d in g.directions
  }

  /**
   * `v` is the maximum of 0 and of the thresholds of every `.swipe` entry
   * that lists `d`.
   */
  ghost predicate IsMaxListedThreshold(gestures: seq<AlertGesture>, d: SwipeDirection, v: real)
  {
    && v >= 0.0
    && (forall g :: g in gestures && g.Swipe? && d in g.directions ==> g.threshold <= v)
    && (v == 0.0 || exists g :: g in gestures && g.Swipe? && d in g.directions && g.threshold == v)
  }

  /**
   * The loop of `init(gestures:)`: `tapDetected` records whether a `.tap`
   * entry was seen; every direction of every `.swipe` entry is raised to
   * `max(thresholds[direction] ?? 0, threshold)`; `.none` is skipped.
   */
  method BuildThresholds(gestures: seq<AlertGesture>) returns (thresholds: ThresholdTable, tapDetected: bool)
    ensures thresholds == Thresholds(gestures)
    ensures tapDetected <==> Tap in gestures
  {
    tapDetected := false;
    thresholds := map[];
    for i := 0 to |gestures|
      invariant thresholds == Thresholds(gestures[..i])
      invariant tapDetected <==> Tap in gestures[..i]
    {
      assert gestures[..i + 1][..i] == gestures[..i];
      match gestures[i] {
        case Tap =>
          tapDetected := true;
        case Swipe(directions, threshold) =>
          ghost var start := thresholds;
          for j := 0 to |directions|
            invariant thresholds == RaiseAll(start, directions[..j], threshold)
          {
            assert directions[..j + 1][..j] == directions[..j];
            var d := directions[j];
            thresholds := thresholds[d := Max(StoredOrZero(thresholds, d), threshold)];
          }
          assert directions[..|directions|] == directions;
        case NoGesture =>
      }
    }
    assert gestures[..|gestures|] == gestures;
  }

  // ---------------------------------------------------------------------
  // What the table holds
  // ---------------------------------------------------------------------

  lemma {:induction false} RaiseAllAt(table: ThresholdTable, directions: seq<SwipeDirection>, threshold: real, d: SwipeDirection)
    ensures d in RaiseAll(table, directions, threshold) <==> d in table || d in directions
    ensures StoredOrZero(RaiseAll(table, directions, threshold), d)
         == if d in directions then Max(StoredOrZero(table, d), threshold) else StoredOrZero(table, d)
    decreases |directions|
  {
    if directions != [] {
      var prefix := directions[..|directions| - 1];
      RaiseAllAt(table, prefix, threshold, d);
      assert directions == prefix + [directions[|directions| - 1]];
    }
  }

  /** A direction has an entry in the table iff some `.swipe` entry lists it. */
  lemma {:induction false} ThresholdsKeys(gestures: seq<AlertGesture>, d: SwipeDirection)
    ensures d in Thresholds(gestures) <==> Lists(gestures, d)
    decreases |gestures|
  {
    if gestures != [] {
      var prefix, last := gestures[..|gestures| - 1], gestures[|gestures| - 1];
      assert gestures == prefix + [last];
      ThresholdsKeys(prefix, d);
      if last.Swipe? {
        RaiseAllAt(Thresholds(prefix), last.directions, last.threshold, d);
      }
      if Lists(prefix, d) {
        var g :| g in prefix && g.Swipe? && d in g.directions;
        assert g in gestures;
      }
      if Lists(gestures, d) && !(last.Swipe? && d in last.directions) {
        var g :| g in gestures && g.Swipe? && d in g.directions;
        assert g in prefix;
      }
    }
  }

  /**
   * A direction's stored threshold (0 when absent) is the maximum of 0 and
   * of every `.swipe` threshold listing it; in particular it is never negative.
   */
  lemma {:induction false} ThresholdsAreMaxima(gestures: seq<AlertGesture>, d: SwipeDirection)
    ensures IsMaxListedThreshold(gestures, d, StoredOrZero(Thresholds(gestures), d))
    decreases |gestures|
  {
    if gestures != [] {
      var prefix, last := gestures[..|gestures| - 1], gestures[|gestures| - 1];
      assert gestures == prefix + [last];
      ThresholdsAreMaxima(prefix, d);
      var before := StoredOrZero(Thresholds(prefix), d);
      var after := StoredOrZero(Thresholds(gestures), d);
      if last.Swipe? {
        RaiseAllAt(Thresholds(prefix), last.directions, last.threshold, d);
      }
      forall g | g in gestures && g.Swipe? && d in g.directions
        ensures g.threshold <= after
      {
        if g != last {
          assert g in prefix;
        }
      }
      if after != 0.0 {
        if after == before {
          var g :| g in prefix && g.Swipe? && d in g.directions && g.threshold == before;
          assert g in gestures;
        } else {
          assert last in gestures && last.threshold == after;
        }
      }
    }
  }

  /** Two values that are both the maximum threshold for `d` are equal. */
  lemma MaximaAgree(gs1: seq<AlertGesture>, gs2: seq<AlertGesture>, d: SwipeDirection, v1: real, v2: real)
    requires forall g :: g in gs1 <==> g in gs2
    requires IsMaxListedThreshold(gs1, d, v1) && IsMaxListedThreshold(gs2, d, v2)
    ensures v1 == v2
  {
    if v1 != 0.0 {
      var g :| g in gs1 && g.Swipe? && d in g.directions && g.threshold == v1;
      assert g in gs2;
    }
    if v2 != 0.0 {
      var g :| g in gs2 && g.Swipe? && d in g.directions && g.threshold == v2;
      assert g in gs1;
    }
  }

  /** The table does not depend on the order in which the gestures are listed. */
  lemma ThresholdsOrderIndependent(gs1: seq<AlertGesture>, gs2: seq<AlertGesture>)
    requires multiset(gs1) == multiset(gs2)
    ensures Thresholds(gs1) == Thresholds(gs2)
  {
    assert forall g :: g in gs1 <==> g in multiset(gs2);
    forall d: SwipeDirection
      ensures d in Thresholds(gs1) <==> d in Thresholds(gs2)
      ensures d in Thresholds(gs1) ==> Thresholds(gs1)[d] == Thresholds(gs2)[d]
    {
      ThresholdsKeys(gs1, d);
      ThresholdsKeys(gs2, d);
      if Lists(gs1, d) {
        var g :| g in gs1 && g.Swipe? && d in g.directions;
        assert g in gs2;
      }
      if Lists(gs2, d) {
        var g :| g in gs2 && g.Swipe? && d in g.directions;
        assert g in gs1;
      }
      ThresholdsAreMaxima(gs1, d);
      ThresholdsAreMaxima(gs2, d);
      MaximaAgree(gs1, gs2, d, StoredOrZero(Thresholds(gs1), d), StoredOrZero(Thresholds(gs2), d));
    }
  }

  // ---------------------------------------------------------------------
  // Evaluating a drag
  // ---------------------------------------------------------------------

  /**
   * The per-direction test of `shouldDismissOnSwipe`: the translation goes
   * beyond `threshold` in direction `d`, and along `d`'s axis it is strictly
   * larger than across it.
   */
  predicate DirectionDismisses(d: SwipeDirection, threshold: real, x: real, y: real)
  {
    match d
    case Left => x < -threshold && Abs(x) > Abs(y)
    case Right => x > threshold && Abs(x) > Abs(y)
    case Up => y < -threshold && Abs(y) > Abs(x)
    case Down => y > threshold && Abs(y) > Abs(x)
  }

  /** Some configured direction's test holds. */
  predicate SwipeDismisses(table: ThresholdTable, x: real, y: real)
  {
    exists d :: d in table && DirectionDismisses(d, table[d], x, y)
  }

  /**
   * `GestureProcessor`: the threshold table and tap flag are fixed when it is
   * built; evaluating a drag reads them and changes nothing.
   */
  class GestureProcessor {
    const swipeThresholds: ThresholdTable
    const hasTapGesture: bool

    constructor(gestures: seq<AlertGesture>)
      ensures swipeThresholds == Thresholds(gestures)
      ensures hasTapGesture <==> Tap in gestures
    {
      var thresholds, tapDetected := BuildThresholds(gestures);
      hasTapGesture := tapDetected;
      swipeThresholds := thresholds;
    }

    /**
     * Visits the table's directions in an arbitrary order (dictionary
     * iteration order is unspecified) and answers true at the first direction
     * whose test holds.
     */
    method ShouldDismissOnSwipe(x: real, y: real) returns (dismiss: bool)
      ensures dismiss <==> SwipeDismisses(swipeThresholds, x, y)
    {
      var remaining := swipeThresholds.Keys;
      while remaining != {}
        invariant remaining <= swipeThresholds.Keys
        invariant forall d :: d in swipeThresholds && d !in remaining ==> !DirectionDismisses(d, swipeThresholds[d], x, y)
        decreases remaining
      {
        var d :| d in remaining;
        if DirectionDismisses(d, swipeThresholds[d], x, y) {
          return true;
        }
        remaining := remaining - {d};
      }
      return false;
    }
  }

  // ---------------------------------------------------------------------
  // Properties of the decision
  // ---------------------------------------------------------------------

  /**
   * With non-negative thresholds at most one direction's test can hold for a
   * given drag, so the order in which directions are visited cannot change
   * the answer.
   */
  lemma AtMostOneDirectionDismisses(table: ThresholdTable, x: real, y: real, d1: SwipeDirection, d2: SwipeDirection)
    requires forall d :: d in table ==> table[d] >= 0.0
    requires d1 in table && DirectionDismisses(d1, table[d1], x, y)
    requires d2 in table && DirectionDismisses(d2, table[d2], x, y)
    ensures d1 == d2
  {
  }

  /** A drag that is exactly diagonal (|x| = |y|) never dismisses. */
  lemma DiagonalDragNeverDismisses(table: ThresholdTable, x: real, y: real)
    requires Abs(x) == Abs(y)
    ensures !SwipeDismisses(table, x, y)
  {
  }

  /** A gesture list without `.swipe` entries never dismisses on a drag. */
  lemma NoSwipeEntryNeverDismisses(gestures: seq<AlertGesture>, x: real, y: real)
    requires forall g :: g in gestures ==> !g.Swipe?
    ensures !SwipeDismisses(Thresholds(gestures), x, y)
  {
    forall d | d in Thresholds(gestures)
      ensures false
    {
      ThresholdsKeys(gestures, d);
    }
  }

  /**
   * Dismissal in terms of the configuration itself: a drag dismisses iff for
   * some listed direction it passes that direction's test against 0 and
   * against every `.swipe` entry listing the direction (so duplicates are
   * combined by their strictest threshold, not summed).
   */
  lemma SwipeDismissesFromConfig(gestures: seq<AlertGesture>, x: real, y: real)
    ensures SwipeDismisses(Thresholds(gestures), x, y) <==>
      exists d :: Lists(gestures, d) && DirectionDismisses(d, 0.0, x, y) &&
        forall g :: g in gestures && g.Swipe? && d in g.directions ==> DirectionDismisses(d, g.threshold, x, y)
  {
    var table := Thresholds(gestures);
    forall d
      ensures d in table && DirectionDismisses(d, table[d], x, y) <==>
        Lists(gestures, d) && DirectionDismisses(d, 0.0, x, y) &&
        forall g :: g in gestures && g.Swipe? && d in g.directions ==> DirectionDismisses(d, g.threshold, x, y)
    {
      ThresholdsKeys(gestures, d);
      ThresholdsAreMaxima(gestures, d);
      if Lists(gestures, d) && DirectionDismisses(d, 0.0, x, y) &&
         (forall g :: g in gestures && g.Swipe? && d in g.directions ==> DirectionDismisses(d, g.threshold, x, y))
      {
        if table[d] != 0.0 {
          var g :| g in gestures && g.Swipe? && d in g.directions && g.threshold == table[d];
          assert DirectionDismisses(d, g.threshold, x, y);
        }
      }
    }
  }

}
