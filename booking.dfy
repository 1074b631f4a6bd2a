/**
 * The booking record's pure logic (App.tsx): its defaults, the resolved
 * attraction, the derived total, and the updater that `updateCount` hands
 * to `setBooking`.
 */
module Booking {
  import opened Types
  import opened Constants

  /** The two counters of the record, `'adult' | 'child'`. */
  datatype CountKind = Adult | Child

  /** What holds of every record the widget can reach. */
  predicate Invariant(b: BookingDetails) {
    b.adultCount >= 1 && b.childCount >= 0 && b.timeSlot in TimeSlots
  }

  /** The record the session starts from; `today` is the clock's current date. */
  function InitialBooking(today: string): (b: BookingDetails)
    ensures Invariant(b)
  {
    BookingDetails(Orangutan, today, TimeSlots[0], 1, 0)
  }

  /** The defaults: the orangutan sanctuary, the first timeslot, one adult and no children. */
  lemma InitialBookingDefaults(today: string)
    ensures InitialBooking(today).attractionId == Orangutan
    ensures InitialBooking(today).timeSlot == "09:00 AM"
    ensures InitialBooking(today).adultCount == 1 && InitialBooking(today).childCount == 0
    ensures InitialBooking(today).date == today
  {
  }

  /** The catalog entry of the booked attraction; the lookup never misses. */
  function SelectedAttraction(id: AttractionType): (a: Attraction)
    ensures a.id == id
    ensures a in Attractions
  {
    FindAlwaysSucceeds(id);
    Find(Attractions, id).value
  }

  /** The derived total: each counter times its unit price. */
  function TotalPrice(b: BookingDetails): int {
    var prices := SelectedAttraction(b.attractionId).prices;
    b.adultCount * prices.adult + b.childCount * prices.child
  }

  /** The catalog position of each identifier. */
  function CatalogIndex(id: AttractionType): nat {
    match id
    case Orangutan => 0
    case SunBear => 1
    case Combo => 2
  }

  /** The resolved attraction is the catalog entry at the identifier's position. */
  lemma {:induction false} SelectedEntry(id: AttractionType)
    ensures CatalogIndex(id) < |Attractions| && SelectedAttraction(id) == Attractions[CatalogIndex(id)]
  {
    var a := SelectedAttraction(id);
    CatalogIds();
    var i :| 0 <= i < |Attractions| && Attractions[i] == a;
    assert Attractions[i].id == id;
  }

  /** The unit prices of each identifier, as the catalog fixes them. */
  lemma SelectedPrices(id: AttractionType)
    ensures SelectedAttraction(id).prices == if id == Combo then Prices(50, 25) else Prices(30, 15)
  {
    SelectedEntry(id);
  }

  /** The display name of each identifier. */
  lemma SelectedNames(id: AttractionType)
    ensures SelectedAttraction(id).name ==
              match id
              case Orangutan => "Orangutan Sanctuary"
              case SunBear => "Sun Bear Centre"
              case Combo => "Rainforest Combo"
  {
    SelectedEntry(id);
  }

  /** The total in terms of the catalog's price tables. */
  lemma TotalPriceByAttraction(b: BookingDetails)
    ensures b.attractionId == Combo ==> TotalPrice(b) == 50 * b.adultCount + 25 * b.childCount
    ensures b.attractionId != Combo ==> TotalPrice(b) == 30 * b.adultCount + 15 * b.childCount
  {
    SelectedPrices(b.attractionId);
  }

  /** Non-negative counts give a non-negative total. */
  lemma TotalPriceNonNegative(b: BookingDetails)
    requires b.adultCount >= 0 && b.childCount >= 0
    ensures TotalPrice(b) >= 0
  {
    TotalPriceByAttraction(b);
  }

  /** Two adults and a child at the orangutan sanctuary cost 75; one adult on the combo costs 50. */
  lemma TotalPriceScenarios(today: string)
    ensures TotalPrice(BookingDetails(Orangutan, today, TimeSlots[0], 2, 1)) == 75
    ensures TotalPrice(BookingDetails(Combo, today, TimeSlots[0], 1, 0)) == 50
  {
    TotalPriceByAttraction(BookingDetails(Orangutan, today, TimeSlots[0], 2, 1));
    TotalPriceByAttraction(BookingDetails(Combo, today, TimeSlots[0], 1, 0));
  }

  /** The lowest value a counter may take: one lead adult, no children. */
  function Floor(kind: CountKind): int {
    if kind == Adult then 1 else 0
  }

  function CountOf(b: BookingDetails, kind: CountKind): int {
    if kind == Adult then b.adultCount else b.childCount
  }

  /** The counter that is not `kind`. */
  function Other(kind: CountKind): CountKind {
    if kind == Adult then Child else Adult
  }

  function Max(x: int, y: int): int {
    if x >= y then x else y
  }

  /**
   * The updater `updateCount(kind, delta)` passes to `setBooking`: the named
   * counter moves by `delta` and is clamped from below at its floor; nothing
   * else in the record changes.
   */
  function CountUpdate(prev: BookingDetails, kind: CountKind, delta: int): (next: BookingDetails)
    ensures CountOf(next, kind) >= Floor(kind)
    ensures CountOf(prev, kind) + delta >= Floor(kind) ==> CountOf(next, kind) == CountOf(prev, kind) + delta
    ensures CountOf(prev, kind) + delta < Floor(kind) ==> CountOf(next, kind) == Floor(kind)
    ensures CountOf(next, Other(kind)) == CountOf(prev, Other(kind))
    ensures next.attractionId == prev.attractionId && next.date == prev.date && next.timeSlot == prev.timeSlot
  {
    var count := Max(Floor(kind), CountOf(prev, kind) + delta);
    if kind == Adult then prev.(adultCount := count) else prev.(childCount := count)
  }

  /** A counter update keeps the record's invariant. */
  lemma CountUpdateKeepsInvariant(prev: BookingDetails, kind: CountKind, delta: int)
    requires Invariant(prev)
    ensures Invariant(CountUpdate(prev, kind, delta))
  {
  }

  /** Pressing minus twice on a single adult leaves one adult. */
  lemma AdultDoubleDecrement(prev: BookingDetails)
    requires prev.adultCount == 1
    ensures CountUpdate(CountUpdate(prev, Adult, -1), Adult, -1).adultCount == 1
  {
  }

  /**
   * A decrement by 100 leaves exactly one adult precisely when there were at
   * most 101; a larger party keeps `old - 100`.
   */
  lemma AdultLargeDecrement(prev: BookingDetails)
    ensures CountUpdate(prev, Adult, -100).adultCount == 1 <==> prev.adultCount <= 101
  {
  }

  /** A decrement by 100 leaves no child precisely when there were at most 100. */
  lemma ChildLargeDecrement(prev: BookingDetails)
    ensures CountUpdate(prev, Child, -100).childCount == 0 <==> prev.childCount <= 100
  {
  }

  /** There is no upper bound: from a valid count any increment is applied in full. */
  lemma CountUpdateUnbounded(prev: BookingDetails, kind: CountKind, delta: nat)
    requires Invariant(prev)
    ensures CountOf(CountUpdate(prev, kind, delta), kind) == CountOf(prev, kind) + delta
  {
  }
}
