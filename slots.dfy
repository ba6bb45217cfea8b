/** The availability grid: fixed 30-minute steps across the operating day. */
module Slots {
  import opened Domain
  import opened Schedule

  /** One entry of the grid; the locale-formatted display label is not modelled. */
  datatype Slot = Slot(startTime: int, endTime: int, isAvailable: bool)

  /** The number of slots in a day: (18 - 8) * 60 / 30. */
  const SlotCount: int := (CloseHour - OpenHour) * MinutesPerHour / SlotStep

  /**
   * The `some` callback of the grid: a fetched booking, taken to last the
   * requested service's duration `d`, meets the slot [s, e) under the
   * three-way test.
   */
  predicate Blocked(fetched: seq<Booking>, s: int, e: int, d: int)
  {
    exists i :: 0 <= i < |fetched| &&
      ThreeWayOverlap(s, e, fetched[i].scheduledDate, fetched[i].scheduledDate + d)
  }

  /** For a positive duration a slot is blocked exactly when it intersects a fetched booking. */
  lemma {:induction false} BlockedIsIntersection(fetched: seq<Booking>, s: int, d: int)
    requires d > 0
    ensures Blocked(fetched, s, s + d, d) <==>
      exists i :: 0 <= i < |fetched| &&
        Intersects(s, s + d, fetched[i].scheduledDate, fetched[i].scheduledDate + d)
  {
    forall i | 0 <= i < |fetched|
      ensures ThreeWayOverlap(s, s + d, fetched[i].scheduledDate, fetched[i].scheduledDate + d) <==>
              Intersects(s, s + d, fetched[i].scheduledDate, fetched[i].scheduledDate + d)
    {
      ThreeWayIsIntersection(s, s + d, fetched[i].scheduledDate, fetched[i].scheduledDate + d);
    }
  }

  /**
   * What the grid of day `day` for a service of duration `d` is: 20 slots,
   * the k-th starting 30 * k minutes after opening and ending `d` minutes
   * after its start, available when no fetched booking blocks it and it
   * starts after `now`.
   */
  ghost predicate IsGrid(slots: seq<Slot>, day: int, d: int, fetched: seq<Booking>, now: int)
  {
    && |slots| == SlotCount
    && (forall k :: 0 <= k < |slots| ==> slots[k].startTime == OpeningTime(day) + SlotStep * k)
    && (forall k :: 0 <= k < |slots| ==> slots[k].endTime == slots[k].startTime + d)
    && (forall k :: 0 <= k < |slots| ==>
          (slots[k].isAvailable <==>
             !Blocked(fetched, slots[k].startTime, slots[k].endTime, d) && slots[k].startTime > now))
  }

  /**
   * The grid is a function of its inputs: recomputing it with the same
   * bookings and the same `now` gives the same slots.
   */
  lemma {:induction false} GridIsDetermined(a: seq<Slot>, b: seq<Slot>, day: int, d: int, fetched: seq<Booking>, now: int)
    requires IsGrid(a, day, d, fetched, now) && IsGrid(b, day, d, fetched, now)
    ensures a == b
  {
    forall k | 0 <= k < |a|
      ensures a[k] == b[k]
    {
    }
  }

  /**
   * The grid of day `day` for a service of duration `d`: a slot every 30
   * minutes from opening while the start is before closing, each ending `d`
   * minutes after it starts and available when unblocked and after `now`.
   */
  method GenerateSlots(day: int, d: int, fetched: seq<Booking>, now: int) returns (slots: seq<Slot>)
    ensures IsGrid(slots, day, d, fetched, now)
    ensures forall k :: 0 <= k < |slots| ==> OpeningTime(day) <= slots[k].startTime < ClosingTime(day)
  {
    var startOfDay := OpeningTime(day);
    var endOfDay := ClosingTime(day);
    slots := [];
    var currentTime := startOfDay;
    while currentTime < endOfDay
      invariant currentTime == startOfDay + SlotStep * |slots|
      invariant |slots| <= SlotCount
      invariant forall k :: 0 <= k < |slots| ==> slots[k].startTime == startOfDay + SlotStep * k
      invariant forall k :: 0 <= k < |slots| ==> slots[k].endTime == slots[k].startTime + d
      invariant forall k :: 0 <= k < |slots| ==>
        (slots[k].isAvailable <==>
          !Blocked(fetched, slots[k].startTime, slots[k].endTime, d) && slots[k].startTime > now)
    {
      var slotEnd := currentTime + d;
      var isAvailable := !exists i :: 0 <= i < |fetched| &&
                                      ThreeWayOverlap(currentTime, slotEnd, fetched[i].scheduledDate,
                                                      fetched[i].scheduledDate + d);
      var isFuture := currentTime > now;
      slots := slots + [Slot(currentTime, slotEnd, isAvailable && isFuture)];
      currentTime := currentTime + SlotStep;
    }
  }

  /** Consecutive slots are exactly 30 minutes apart, so the starts strictly ascend with no gaps. */
  lemma {:induction false} SlotStartsAscend(slots: seq<Slot>, day: int, d: int, fetched: seq<Booking>, now: int)
    requires IsGrid(slots, day, d, fetched, now)
    ensures forall k :: 0 < k < |slots| ==> slots[k].startTime == slots[k - 1].startTime + SlotStep
    ensures forall j, k :: 0 <= j < k < |slots| ==> slots[j].startTime < slots[k].startTime
  {
  }

  /** The grid covers the operating day: 20 slots, the first at 08:00 and the last at 17:30. */
  lemma {:induction false} GridCoversDay(slots: seq<Slot>, day: int, d: int, fetched: seq<Booking>, now: int)
    requires IsGrid(slots, day, d, fetched, now)
    ensures |slots| == 20
    ensures slots[0].startTime == day * MinutesPerDay + 8 * MinutesPerHour
    ensures slots[|slots| - 1].startTime == day * MinutesPerDay + 17 * MinutesPerHour + 30
    ensures slots[|slots| - 1].startTime + SlotStep == ClosingTime(day)
  {
  }

  /**
   * With a 30-minute booking at 10:00 the 10:00 slot is blocked while the
   * 09:00 and 11:00 slots are not; with a 60-minute service the 09:30 slot
   * is blocked too.
   */
  lemma {:induction false} TenOClockExample(b: Booking, day: int)
    requires b.scheduledDate == day * MinutesPerDay + 10 * MinutesPerHour
    ensures Blocked([b], b.scheduledDate, b.scheduledDate + 30, 30)
    ensures !Blocked([b], b.scheduledDate - 60, b.scheduledDate - 30, 30)
    ensures !Blocked([b], b.scheduledDate + 60, b.scheduledDate + 90, 30)
    ensures Blocked([b], b.scheduledDate - 30, b.scheduledDate + 30, 60)
  {
    assert [b][0] == b;
  }
}
