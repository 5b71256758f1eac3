/**
 * The in-memory reservation store of the Express backend
 * (src/app/backend/index.js): one module-level array of bookings and the
 * logic of the four route handlers, with the HTTP framing stripped away.
 *
 * An absent query parameter or body field is written "" here: both are
 * falsy in JavaScript, and the handlers only ever test them for truthiness.
 */
module BookingStore {

  /** One stored booking, with the fields the create handler copies from the request body. */
  datatype Booking = Booking(id: int, date: string, time: string, guests: int, name: string, contact: string)

  /**
   * The handlers' distinct failure kinds. Validation and Conflict are both
   * answered with status 400, NotFound with 404, MissingDate with 400.
   */
  datatype Error = Validation | Conflict | NotFound | MissingDate

  datatype Result<T> = Ok(value: T) | Err(error: Error)

  /** The two shapes of a successful availability answer. */
  datatype Availability =
    | SlotStatus(available: bool)
    | DateStatus(unavailableSlots: seq<string>)

  /** The predicate both `some` callbacks use: the booking holds that date and time. */
  predicate Holds(b: Booking, date: string, time: string)
  {
    b.date == date && b.time == time
  }

  /** `bookings.some(b => b.date === date && b.time === time)` */
  function IsBooked(bs: seq<Booking>, date: string, time: string): (r: bool)
    ensures r <==> exists i :: 0 <= i < |bs| && Holds(bs[i], date, time)
  {
    if bs == [] then false
    else if Holds(bs[0], date, time) then true
    else
      var rest := IsBooked(bs[1..], date, time);
      assert forall i :: 1 <= i < |bs| ==> bs[i] == bs[1..][i - 1];
      rest
  }

  /** `bookings.filter(b => b.date === date).map(b => b.time)` */
  function UnavailableSlots(bs: seq<Booking>, date: string): (r: seq<string>)
    ensures |r| <= |bs|
    ensures forall t :: t in r <==> exists i :: 0 <= i < |bs| && Holds(bs[i], date, t)
  {
    if bs == [] then []
    else
      var rest := UnavailableSlots(bs[1..], date);
      assert forall i :: 1 <= i < |bs| ==> bs[i] == bs[1..][i - 1];
      (if bs[0].date == date then [bs[0].time] else []) + rest
  }

  /** `bookings.findIndex(b => b.id === id)`: the first index holding `id`, or -1. */
  function FindIndex(bs: seq<Booking>, id: int): (r: int)
    ensures -1 <= r < |bs|
    ensures r == -1 <==> forall k :: 0 <= k < |bs| ==> bs[k].id != id
    ensures r != -1 ==> bs[r].id == id && forall k :: 0 <= k < r ==> bs[k].id != id
  {
    if bs == [] then -1
    else if bs[0].id == id then 0
    else
      var k := FindIndex(bs[1..], id);
      assert forall j :: 1 <= j < |bs| ==> bs[j] == bs[1..][j - 1];
      if k == -1 then -1 else k + 1
  }

  /** `bookings.splice(i, 1)`, as a value: the sequence without its element at `i`. */
  function RemoveAt(bs: seq<Booking>, i: nat): (r: seq<Booking>)
    requires i < |bs|
    ensures |r| == |bs| - 1
    ensures forall k :: 0 <= k < i ==> r[k] == bs[k]
    ensures forall k :: i <= k < |r| ==> r[k] == bs[k + 1]
  {
    bs[..i] + bs[i + 1..]
  }

  /** The store's invariant: no two stored bookings share a (date, time) pair. */
  ghost predicate NoDoubleBooking(bs: seq<Booking>)
  {
    forall i, j :: 0 <= i < j < |bs| ==> !Holds(bs[j], bs[i].date, bs[i].time)
  }

  /** The create handler's field check: every field truthy, where only 0 is a falsy number. */
  predicate FieldsPresent(date: string, time: string, guests: int, name: string, contact: string)
  {
    date != "" && time != "" && guests != 0 && name != "" && contact != ""
  }

  class Store {
    /** The module-level `bookings` array, in insertion order. */
    var bookings: seq<Booking>

    ghost predicate Valid()
      reads this
    {
      NoDoubleBooking(bookings)
    }

    constructor ()
      ensures bookings == [] && Valid()
    {
      bookings := [];
    }

    /**
     * GET /api/check-availability. With a time, whether that slot is free;
     * without one, the times already taken on the date, in storage order.
     */
    function CheckAvailability(date: string, time: string): (r: Result<Availability>)
      reads this
      ensures r.Err? <==> date == ""
      ensures r.Err? ==> r.error == MissingDate
      ensures r.Ok? && time != "" ==>
        r.value.SlotStatus? &&
        (r.value.available <==> forall i :: 0 <= i < |bookings| ==> !Holds(bookings[i], date, time))
      ensures r.Ok? && time == "" ==>
        r.value.DateStatus? &&
        r.value.unavailableSlots == UnavailableSlots(bookings, date) &&
        forall t :: t in r.value.unavailableSlots <==> !IsFree(date, t)
      ensures Valid() && r.Ok? && r.value.DateStatus? ==>
        forall p, q :: 0 <= p < q < |r.value.unavailableSlots| ==>
          r.value.unavailableSlots[p] != r.value.unavailableSlots[q]
    {
      if date == "" then Err(MissingDate)
      else if time != "" then Ok(SlotStatus(!IsBooked(bookings, date, time)))
      else
        assert Valid() ==> forall p, q :: 0 <= p < q < |UnavailableSlots(bookings, date)| ==>
          UnavailableSlots(bookings, date)[p] != UnavailableSlots(bookings, date)[q] by {
          if Valid() {
            UnavailableSlotsDistinct(bookings, date);
          }
        }
        Ok(DateStatus(UnavailableSlots(bookings, date)))
    }

    /** Whether no stored booking holds the slot; the answer a slot query gives. */
    ghost predicate IsFree(date: string, time: string)
      reads this
    {
      forall i :: 0 <= i < |bookings| ==> !Holds(bookings[i], date, time)
    }

    /** GET /api/bookings: every stored booking, in insertion order. */
    function List(): (r: seq<Booking>)
      reads this
      ensures |r| == |bookings| && forall i :: 0 <= i < |r| ==> r[i] == bookings[i]
    {
      bookings
    }

    /**
     * POST /api/bookings. Rejects a falsy field, then a slot already held;
     * otherwise appends a booking whose id is the old length plus one.
     */
    method Create(date: string, time: string, guests: int, name: string, contact: string)
      returns (r: Result<Booking>)
      modifies this
      ensures old(Valid()) ==> Valid()
      ensures !FieldsPresent(date, time, guests, name, contact) ==> r == Err(Validation)
      ensures FieldsPresent(date, time, guests, name, contact) && IsBooked(old(bookings), date, time) ==>
        r == Err(Conflict)
      ensures FieldsPresent(date, time, guests, name, contact) && !IsBooked(old(bookings), date, time) ==>
        r == Ok(Booking(|old(bookings)| + 1, date, time, guests, name, contact))
      ensures r.Ok? ==> bookings == old(bookings) + [r.value]
      ensures r.Err? ==> bookings == old(bookings)
    {
      if !FieldsPresent(date, time, guests, name, contact) {
        return Err(Validation);
      }
      if IsBooked(bookings, date, time) {
        return Err(Conflict);
      }
      var newBooking := Booking(|bookings| + 1, date, time, guests, name, contact);
      if NoDoubleBooking(bookings) {
        FreshSlotKeepsNoDoubleBooking(bookings, newBooking);
      }
      bookings := bookings + [newBooking];
      r := Ok(newBooking);
    }

    /**
     * DELETE /api/bookings/:id. Removes only the first booking carrying the
     * id; fails with NotFound when none does.
     */
    method Delete(id: int) returns (r: Result<()>)
      modifies this
      ensures old(Valid()) ==> Valid()
      ensures r.Err? <==> forall k :: 0 <= k < |old(bookings)| ==> old(bookings)[k].id != id
      ensures r.Err? ==> r.error == NotFound && bookings == old(bookings)
      ensures r.Ok? ==>
        exists i :: 0 <= i < |old(bookings)| && old(bookings)[i].id == id &&
          (forall k :: 0 <= k < i ==> old(bookings)[k].id != id) &&
          bookings == RemoveAt(old(bookings), i)
    {
      var i := FindIndex(bookings, id);
      if i == -1 {
        return Err(NotFound);
      }
      if NoDoubleBooking(bookings) {
        RemoveKeepsNoDoubleBooking(bookings, i);
      }
      bookings := RemoveAt(bookings, i);
      r := Ok(());
    }
  }

  /** Appending a booking for a slot nobody holds keeps the invariant. */
  lemma FreshSlotKeepsNoDoubleBooking(bs: seq<Booking>, b: Booking)
    requires NoDoubleBooking(bs)
    requires !IsBooked(bs, b.date, b.time)
    ensures NoDoubleBooking(bs + [b])
  {
    var s := bs + [b];
    forall i, j | 0 <= i < j < |s|
      ensures !Holds(s[j], s[i].date, s[i].time)
    {
      if j == |bs| {
        assert !Holds(bs[i], b.date, b.time);
      } else {
        assert s[i] == bs[i] && s[j] == bs[j];
      }
    }
  }

  /** Removing any one booking keeps the invariant. */
  lemma {:induction false} RemoveKeepsNoDoubleBooking(bs: seq<Booking>, i: nat)
    requires i < |bs|
    requires NoDoubleBooking(bs)
    ensures NoDoubleBooking(RemoveAt(bs, i))
  {
    var r := RemoveAt(bs, i);
    forall a, b | 0 <= a < b < |r|
      ensures !Holds(r[b], r[a].date, r[a].time)
    {
      var a' := if a < i then a else a + 1;
      var b' := if b < i then b else b + 1;
      assert r[a] == bs[a'] && r[b] == bs[b'] && a' < b';
    }
  }

  /**
   * The date query distributes over concatenation: the answer for a store
   * is the answers for its parts, in storage order.
   */
  lemma {:induction false} UnavailableSlotsAppend(a: seq<Booking>, b: seq<Booking>, date: string)
    ensures UnavailableSlots(a + b, date) == UnavailableSlots(a, date) + UnavailableSlots(b, date)
  {
    if a == [] {
      assert a + b == b;
    } else {
      assert (a + b)[0] == a[0] && (a + b)[1..] == a[1..] + b;
      UnavailableSlotsAppend(a[1..], b, date);
      calc {
        UnavailableSlots(a + b, date);
        (if a[0].date == date then [a[0].time] else []) + UnavailableSlots(a[1..] + b, date);
        (if a[0].date == date then [a[0].time] else []) + (UnavailableSlots(a[1..], date) + UnavailableSlots(b, date));
      }
    }
  }

  /**
   * After a successful create of booking b, the date query for b's date
   * gains b's time at the end, other dates are unaffected, and the slot
   * query for b's slot answers "taken".
   */
  lemma CreatedSlotIsUnavailable(bs: seq<Booking>, b: Booking, date: string)
    ensures UnavailableSlots(bs + [b], date) ==
      UnavailableSlots(bs, date) + (if b.date == date then [b.time] else [])
    ensures b.time in UnavailableSlots(bs + [b], b.date)
    ensures IsBooked(bs + [b], b.date, b.time)
  {
    UnavailableSlotsAppend(bs, [b], date);
    UnavailableSlotsAppend(bs, [b], b.date);
    assert Holds((bs + [b])[|bs|], b.date, b.time);
  }

  /**
   * Under the invariant, deleting the booking that held a slot frees it, so
   * a later create with truthy fields for that slot succeeds.
   */
  lemma FreedSlotIsNotBooked(bs: seq<Booking>, i: nat)
    requires i < |bs|
    requires NoDoubleBooking(bs)
    ensures !IsBooked(RemoveAt(bs, i), bs[i].date, bs[i].time)
  {
    var r := RemoveAt(bs, i);
    forall k | 0 <= k < |r|
      ensures !Holds(r[k], bs[i].date, bs[i].time)
    {
      if k < i {
        assert r[k] == bs[k];
      } else {
        assert r[k] == bs[k + 1];
      }
    }
  }

  /** Under the invariant, a date query never lists the same time twice. */
  lemma {:induction false} UnavailableSlotsDistinct(bs: seq<Booking>, date: string)
    requires NoDoubleBooking(bs)
    ensures forall p, q :: 0 <= p < q < |UnavailableSlots(bs, date)| ==>
      UnavailableSlots(bs, date)[p] != UnavailableSlots(bs, date)[q]
  {
    if bs != [] {
      var tail := bs[1..];
      assert NoDoubleBooking(tail) by {
        forall i, j | 0 <= i < j < |tail|
          ensures !Holds(tail[j], tail[i].date, tail[i].time)
        {
          assert tail[i] == bs[i + 1] && tail[j] == bs[j + 1];
        }
      }
      UnavailableSlotsDistinct(tail, date);
      var rest := UnavailableSlots(tail, date);
      if bs[0].date == date {
        forall t | t in rest
          ensures t != bs[0].time
        {
          var j :| 0 <= j < |tail| && Holds(tail[j], date, t);
          assert tail[j] == bs[j + 1];
        }
        var r := UnavailableSlots(bs, date);
        assert r == [bs[0].time] + rest;
        forall p, q | 0 <= p < q < |r|
          ensures r[p] != r[q]
        {
          assert r[q] == rest[q - 1] && rest[q - 1] in rest;
          if p > 0 {
            assert r[p] == rest[p - 1];
          }
        }
      }
    }
  }

  /** The reservation lifecycle: book, see the slot taken, conflict, cancel, see it free. */
  method ExampleLifecycle()
  {
    var store := new Store();
    var created := store.Create("2025-03-01", "6:00 PM", 2, "Ana", "5551234567");
    assert created == Ok(Booking(1, "2025-03-01", "6:00 PM", 2, "Ana", "5551234567"));
    assert store.bookings == [] + [created.value];
    CreatedSlotIsUnavailable([], created.value, "2025-03-01");
    assert UnavailableSlots(store.bookings, "2025-03-01") == ["6:00 PM"];
    assert store.CheckAvailability("2025-03-01", "6:00 PM") == Ok(SlotStatus(false));
    assert store.CheckAvailability("2025-03-01", "") == Ok(DateStatus(["6:00 PM"]));
    var again := store.Create("2025-03-01", "6:00 PM", 4, "Ben", "5559876543");
    assert again == Err(Conflict);
    assert |store.bookings| == 1 && store.bookings[0].id == 1;
    var cancelled := store.Delete(1);
    assert cancelled.Ok?;
    assert |store.bookings| == 0;
    assert store.CheckAvailability("2025-03-01", "6:00 PM") == Ok(SlotStatus(true));
    var missing := store.Delete(1);
    assert missing == Err(NotFound);
  }

  /**
   * Ids are the length plus one, so after a delete an id still in use is
   * handed out again.
   */
  method ExampleIdReuse()
  {
    var store := new Store();
    var first := store.Create("2025-03-01", "6:00 PM", 2, "Ana", "5551234567");
    var second := store.Create("2025-03-02", "6:00 PM", 3, "Ben", "5559876543");
    assert second.value.id == 2;
    var gone := store.Delete(1);
    var third := store.Create("2025-03-03", "6:00 PM", 4, "Cy", "5550001111");
    assert third.value.id == 2;
    assert |store.bookings| == 2 && store.bookings[0].id == store.bookings[1].id;
  }

  /**
   * The state `ExampleIdReuse` reaches holds two bookings with id 2; deleting
   * that id then succeeds twice, the older booking first.
   */
  method ExampleDoubleDelete()
  {
    var store := new Store();
    var first := store.Create("2025-03-01", "6:00 PM", 2, "Ana", "5551234567");
    var second := store.Create("2025-03-02", "6:00 PM", 3, "Ben", "5559876543");
    var gone := store.Delete(1);
    var third := store.Create("2025-03-03", "6:00 PM", 4, "Cy", "5550001111");
    assert store.bookings == [second.value, third.value];
    assert store.bookings[0].id == 2;
    var d1 := store.Delete(2);
    assert d1.Ok? && store.bookings == [third.value];
    assert store.bookings[0].id == 2;
    var d2 := store.Delete(2);
    assert d2.Ok? && store.bookings == [];
  }
}
