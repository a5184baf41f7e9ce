/**
 * The derived values of an event card: the attendance percentage, the
 * "near capacity" highlight and the "spots left" fragment. Percentages are
 * exact rationals here; the page computes them in floating point.
 */
module EventCard {
  import opened Wrappers
  import opened MockEvents

  /** `maxAttendees ? attendeeCount / maxAttendees * 100 : null`: no percentage when the capacity is absent or 0. */
  function AttendancePercentage(e: Event): (r: Option<real>)
    ensures r.None? <==> e.maxAttendees.None? || e.maxAttendees.value == 0
    ensures r.Some? ==> r.value * (e.maxAttendees.value as real) == 100.0 * (e.attendeeCount as real)
  {
    match e.maxAttendees
    case None => None
    case Some(max) => if max == 0 then None else Some((e.attendeeCount as real) / (max as real) * 100.0)
  }

  /** `attendancePercentage && attendancePercentage > 80`: a zero or missing percentage is not near capacity. */
  function IsNearCapacity(e: Event): (r: bool)
    ensures r <==> e.maxAttendees.Some? && e.maxAttendees.value > 0
                   && e.attendeeCount * 100 > 80 * e.maxAttendees.value
  {
    var pct := AttendancePercentage(e);
    if pct.None? || pct.value == 0.0 then
      false
    else
      var max := e.maxAttendees.value as real;
      var count := e.attendeeCount as real;
      assert pct.value > 80.0 <==> count * 100.0 > 80.0 * max by {
        var d := pct.value - 80.0;
        assert d * max == 100.0 * count - 80.0 * max;
        assert max > 0.0;
        if d > 0.0 {
          assert d * max > 0.0;
        } else {
          assert (-d) * max >= 0.0;
        }
      }
      pct.value > 80.0
  }

  /**
   * What `{event.maxAttendees && ` • ${maxAttendees - attendeeCount} spots left`}` renders:
   * nothing for an absent capacity, the number itself for a capacity of 0 (React
   * renders a falsy number), and the spots-left text otherwise.
   */
  datatype SpotsFragment = NoFragment | StrayZero | SpotsLeft(spots: int)

  /** The fragment as the card's markup produces it. */
  function SpotsLeftAsWritten(e: Event): (r: SpotsFragment)
    ensures e.maxAttendees.None? ==> r == NoFragment
    ensures e.maxAttendees == Some(0) ==> r == StrayZero
    ensures e.maxAttendees.Some? && e.maxAttendees.value > 0 ==>
              r == SpotsLeft(e.maxAttendees.value - e.attendeeCount)
    ensures r.SpotsLeft? ==> r.spots == e.maxAttendees.value - e.attendeeCount
  {
    match e.maxAttendees
    case None => NoFragment
    case Some(max) => if max == 0 then StrayZero else SpotsLeft(max - e.attendeeCount)
  }

  /** A capacity of 0 makes the card print a bare "0" after the attendee count. */
  lemma ZeroCapacityPrintsStrayZero(e: Event)
    requires e.maxAttendees == Some(0)
    ensures SpotsLeftAsWritten(e) == StrayZero
    ensures AttendancePercentage(e).None? && !IsNearCapacity(e)
  {
  }

  /**
   * The fragment as evidently intended: spots left are shown only for a positive
   * capacity, like the percentage, and never as a stray number.
   */
  function SpotsLeftFragment(e: Event): (r: SpotsFragment)
    ensures r != StrayZero
    ensures r.SpotsLeft? <==> e.maxAttendees.Some? && e.maxAttendees.value > 0
    ensures r.SpotsLeft? ==> r.spots == e.maxAttendees.value - e.attendeeCount
    ensures r.SpotsLeft? <==> AttendancePercentage(e).Some?
  {
    match e.maxAttendees
    case None => NoFragment
    case Some(max) => if max == 0 then NoFragment else SpotsLeft(max - e.attendeeCount)
  }

  /** Both agree wherever the capacity is absent or positive. */
  lemma AsWrittenAgreesAwayFromZero(e: Event)
    requires e.maxAttendees != Some(0)
    ensures SpotsLeftAsWritten(e) == SpotsLeftFragment(e)
  {
  }

  /** An event within its capacity never shows a negative number of spots. */
  lemma SpotsLeftNonNegative(e: Event)
    requires e.maxAttendees.Some? ==> e.attendeeCount <= e.maxAttendees.value
    ensures SpotsLeftFragment(e).SpotsLeft? ==> SpotsLeftFragment(e).spots >= 0
  {
  }

  /** Every catalog card shows a non-negative number of spots left. */
  lemma CatalogSpotsLeftNonNegative()
    ensures forall i :: 0 <= i < |Events| ==>
      SpotsLeftFragment(Events[i]).SpotsLeft? && SpotsLeftFragment(Events[i]).spots >= 0
  {
    WithinCapacity();
  }
}
