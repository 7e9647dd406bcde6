/**
 * Date-range overlap, the availability rule, the pricing of a stay and the
 * booking table's invariant that no two active bookings of a hall overlap.
 */
module Availability {
  import opened Models

  /** Two inclusive day ranges overlap: written exactly as `_dates_overlap`. */
  predicate DatesOverlap(aStart: int, aEnd: int, bStart: int, bEnd: int) {
    aStart <= bEnd && bStart <= aEnd
  }

  /** The days of the inclusive range `start..end`. */
  ghost function Days(start: int, end: int): set<int>
    decreases end - start
  {
    if end < start then {} else Days(start, end - 1) + {end}
  }

  lemma {:induction false} InDays(start: int, end: int, d: int)
    ensures d in Days(start, end) <==> start <= d <= end
    decreases end - start
  {
    if start <= end {
      InDays(start, end - 1, d);
    }
  }

  /** Overlap is symmetric in its two ranges. */
  lemma OverlapSymmetric(aStart: int, aEnd: int, bStart: int, bEnd: int)
    ensures DatesOverlap(aStart, aEnd, bStart, bEnd) <==> DatesOverlap(bStart, bEnd, aStart, aEnd)
  {
  }

  /** Overlap is inclusive: ranges that only share an end day overlap. */
  lemma OverlapInclusive(aStart: int, shared: int, bEnd: int)
    requires aStart <= shared <= bEnd
    ensures DatesOverlap(aStart, shared, shared, bEnd)
  {
  }

  /** For proper ranges, overlapping means having a day in common. */
  lemma OverlapIffSharedDay(aStart: int, aEnd: int, bStart: int, bEnd: int)
    requires aStart <= aEnd && bStart <= bEnd
    ensures DatesOverlap(aStart, aEnd, bStart, bEnd) <==> Days(aStart, aEnd) * Days(bStart, bEnd) != {}
  {
    if DatesOverlap(aStart, aEnd, bStart, bEnd) {
      var d := if aStart < bStart then bStart else aStart;
      InDays(aStart, aEnd, d);
      InDays(bStart, bEnd, d);
      assert d in Days(aStart, aEnd) * Days(bStart, bEnd);
    } else {
      forall d | d in Days(aStart, aEnd) * Days(bStart, bEnd) ensures false {
        InDays(aStart, aEnd, d);
        InDays(bStart, bEnd, d);
      }
    }
  }

  /** The statuses that hold a hall: `status__in=["pending", "confirmed"]`. */
  predicate IsActive(s: BookingStatus) {
    s == Pending || s == Confirmed
  }

  /** Booking `b` stands in the way of a request for `hall` over `start..end`. */
  predicate Blocks(b: Booking, hall: int, start: int, end: int) {
    b.hall == hall && IsActive(b.status) && DatesOverlap(b.startDate, b.endDate, start, end)
  }

  /**
   * Whether `hall` is free over `start..end`: the `all(...)` over the hall's
   * active bookings in `check_availability`.
   */
  function Available(bs: seq<Booking>, hall: int, start: int, end: int): (r: bool)
    ensures r <==> forall i :: 0 <= i < |bs| ==> !Blocks(bs[i], hall, start, end)
  {
    if bs == [] then true
    else !Blocks(bs[0], hall, start, end) && Available(bs[1..], hall, start, end)
  }

  /** A cancelled booking, or one of another hall, never makes a hall unavailable. */
  lemma {:induction false} AvailableIgnoresInactive(bs: seq<Booking>, b: Booking, hall: int, start: int, end: int)
    requires b.status == Cancelled || b.hall != hall
    ensures Available(bs + [b], hall, start, end) == Available(bs, hall, start, end)
  {
    assert forall i :: 0 <= i < |bs| ==> (bs + [b])[i] == bs[i];
    assert (bs + [b])[|bs|] == b;
  }

  /** `(end_date - start_date).days + 1`. */
  function DayCount(start: int, end: int): int {
    end - start + 1
  }

  /** `price_per_day * days`. */
  function StayPrice(pricePerDay: int, start: int, end: int): int {
    pricePerDay * DayCount(start, end)
  }

  lemma {:induction false} DaysCardinality(start: int, end: int)
    requires start <= end
    ensures |Days(start, end)| == end - start + 1
    decreases end - start
  {
    if start < end {
      InDays(start, end - 1, end);
      DaysCardinality(start, end - 1);
    }
  }

  /**
   * A stay costs the daily price once for every day of the range, both ends
   * included; a reversed range (not rejected) has no positive day count, so a
   * non-negative price gives a non-positive total.
   */
  lemma StayPriceCountsDays(pricePerDay: int, start: int, end: int)
    ensures start <= end ==> StayPrice(pricePerDay, start, end) == pricePerDay * |Days(start, end)|
    ensures end < start ==> DayCount(start, end) <= 0
    ensures end < start && pricePerDay >= 0 ==> StayPrice(pricePerDay, start, end) <= 0
  {
    if start <= end {
      DaysCardinality(start, end);
    }
  }

  /** No two active bookings of the same hall overlap. */
  predicate NoOverlap(bs: seq<Booking>) {
    forall i, j :: 0 <= i < j < |bs| && IsActive(bs[j].status) ==>
      !Blocks(bs[i], bs[j].hall, bs[j].startDate, bs[j].endDate)
  }

  /**
   * Appending a booking whose hall is available over its range keeps the
   * table free of overlaps.
   */
  lemma AppendAvailableKeepsNoOverlap(bs: seq<Booking>, nb: Booking)
    requires NoOverlap(bs)
    requires Available(bs, nb.hall, nb.startDate, nb.endDate)
    ensures NoOverlap(bs + [nb])
  {
    var bs' := bs + [nb];
    forall i, j | 0 <= i < j < |bs'| && IsActive(bs'[j].status)
      ensures !Blocks(bs'[i], bs'[j].hall, bs'[j].startDate, bs'[j].endDate)
    {
      assert bs'[i] == bs[i];
      if j < |bs| {
        assert bs'[j] == bs[j];
      } else {
        assert bs'[j] == nb;
      }
    }
  }

  /** Status changes that make no booking active keep the table free of overlaps. */
  lemma NoReactivationKeepsNoOverlap(bs: seq<Booking>, bs': seq<Booking>)
    requires NoOverlap(bs)
    requires |bs'| == |bs|
    requires forall i :: 0 <= i < |bs| ==> bs'[i] == bs[i].(status := bs'[i].status)
    requires forall i :: 0 <= i < |bs| ==> IsActive(bs'[i].status) ==> IsActive(bs[i].status)
    ensures NoOverlap(bs')
  {
    forall i, j | 0 <= i < j < |bs'| && IsActive(bs'[j].status)
      ensures !Blocks(bs'[i], bs'[j].hall, bs'[j].startDate, bs'[j].endDate)
    {
      assert !Blocks(bs[i], bs[j].hall, bs[j].startDate, bs[j].endDate);
    }
  }
}
