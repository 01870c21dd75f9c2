/** The Bookings admin page: the status and client-name filter, the status
    actions offered per booking, the car label, and the two updates an admin
    makes to a stored booking (its status and its driver). The stored
    `bookings` collection is modelled as a table updated in place. */
module BookingsAdmin {
  import opened Common
  import Rows

  /** `carName` is `Rows.CarLabel(cars, id, NoCarName)`: the car's name, or
      this text for a missing car or an empty name. */
  const NoCarName := "—"

  /** A row of the `bookings` collection, as the page reads it. */
  datatype Booking = Booking(
    id: string, clientName: string, clientPhone: Option<string>, carId: Option<string>,
    bookingDate: string, pickupLocation: string, totalPrice: int, status: string,
    driver: Option<string>)

  /** `filtered`: the status filter (`all` or equal) and, when the search is
      non-empty, a case-insensitive substring test on the client name. */
  predicate Matches(statusFilter: string, search: string, b: Booking) {
    (statusFilter == "all" || b.status == statusFilter) &&
    (search == "" || Contains(Lower(b.clientName), Lower(search)))
  }

  function Filtered(bookings: seq<Booking>, statusFilter: string, search: string): seq<Booking> {
    FilterSeq(bookings, (b: Booking) => Matches(statusFilter, search, b))
  }

  /** The action buttons shown for a booking: the status each one sets. */
  function OfferedActions(status: string): seq<string> {
    if status == "pending" then ["approved", "rejected"]
    else if status == "approved" then ["completed"]
    else []
  }

  /** How far along the life of a booking a status is. */
  function Rank(status: string): nat {
    if status == "pending" then 0 else if status == "approved" then 1 else 2
  }

  /** The table after `update({ status }).eq('id', id)`. */
  function SetStatus(rows: seq<Booking>, id: string, status: string): (r: seq<Booking>)
    ensures |r| == |rows|
  {
    seq(|rows|, i requires 0 <= i < |rows| => if rows[i].id == id then rows[i].(status := status) else rows[i])
  }

  /** The table after `update({ driver }).eq('id', id)`. */
  function SetDriver(rows: seq<Booking>, id: string, driver: string): (r: seq<Booking>)
    ensures |r| == |rows|
  {
    seq(|rows|, i requires 0 <= i < |rows| => if rows[i].id == id then rows[i].(driver := Some(driver)) else rows[i])
  }

  // -------------------------------------------------------------------
  // The filter

  /** A booking is listed exactly when the status filter is `all` or its
      status, and the search is empty or a case-insensitive substring of the
      client name; the list keeps the page's order, and with `all` and an
      empty search nothing is left out. */
  lemma {:induction false} FilterMembership(bookings: seq<Booking>, statusFilter: string, search: string, b: Booking)
    requires b in bookings
    ensures b in Filtered(bookings, statusFilter, search) <==>
      (statusFilter == "all" || b.status == statusFilter) &&
      (search == "" || Contains(Lower(b.clientName), Lower(search)))
    ensures IsSubseq(Filtered(bookings, statusFilter, search), bookings)
    ensures Filtered(bookings, "all", "") == bookings
  {
    FilterSubseq(bookings, (x: Booking) => Matches(statusFilter, search, x));
    FilterAll(bookings, (x: Booking) => Matches("all", "", x));
  }

  // -------------------------------------------------------------------
  // Status transitions

  /** The transitions the buttons offer: pending to approved or rejected,
      approved to completed, and nothing from any other status. */
  lemma Transitions(from: string, to: string)
    ensures to in OfferedActions(from) <==>
      (from == "pending" && (to == "approved" || to == "rejected")) ||
      (from == "approved" && to == "completed")
    ensures from != "pending" && from != "approved" ==> OfferedActions(from) == []
  {
  }

  /** Every offered action moves a booking strictly forward. */
  lemma ActionAdvances(from: string, to: string)
    requires to in OfferedActions(from)
    ensures Rank(to) > Rank(from)
  {
  }

  /** A run of offered actions, each applied to the status the previous one
      set. */
  predicate ActionChain(statuses: seq<string>) {
    forall i :: 0 < i < |statuses| ==> statuses[i] in OfferedActions(statuses[i - 1])
  }

  /** A booking goes through at most two actions, so no status is ever
      reached twice and no chain of actions cycles. */
  lemma {:induction false} ChainIsShort(statuses: seq<string>)
    requires |statuses| > 0 && ActionChain(statuses)
    ensures |statuses| <= 3
    ensures forall i, j :: 0 <= i < j < |statuses| ==> statuses[i] != statuses[j]
  {
    RanksIncrease(statuses);
    assert Rank(statuses[|statuses| - 1]) >= Rank(statuses[0]) + |statuses| - 1;
    forall i, j | 0 <= i < j < |statuses| ensures statuses[i] != statuses[j] {
      assert Rank(statuses[j]) >= Rank(statuses[i]) + (j - i);
    }
  }

  lemma {:induction false} RanksIncrease(statuses: seq<string>)
    requires ActionChain(statuses)
    ensures forall i, j :: 0 <= i <= j < |statuses| ==> Rank(statuses[j]) >= Rank(statuses[i]) + (j - i)
    decreases |statuses|
  {
    if |statuses| > 1 {
      var p := statuses[..|statuses| - 1];
      assert ActionChain(p) by {
        forall i | 0 < i < |p| ensures p[i] in OfferedActions(p[i - 1]) {
          assert p[i] == statuses[i] && p[i - 1] == statuses[i - 1];
        }
      }
      RanksIncrease(p);
      var n := |statuses| - 1;
      ActionAdvances(statuses[n - 1], statuses[n]);
      forall i, j | 0 <= i <= j < |statuses| ensures Rank(statuses[j]) >= Rank(statuses[i]) + (j - i) {
        if j < n {
          assert statuses[i] == p[i] && statuses[j] == p[j];
        } else if i < n {
          assert statuses[i] == p[i] && statuses[n - 1] == p[n - 1];
        }
      }
    }
  }

  // -------------------------------------------------------------------
  // Updates

  /** `updateStatus` changes the status of the rows with that id and nothing
      else: the same rows in the same order, every other field as it was. */
  lemma SetStatusOnlyStatus(rows: seq<Booking>, id: string, status: string)
    ensures forall i :: 0 <= i < |rows| ==>
      && SetStatus(rows, id, status)[i].status == (if rows[i].id == id then status else rows[i].status)
      && SetStatus(rows, id, status)[i] == rows[i].(status := SetStatus(rows, id, status)[i].status)
    ensures (forall i :: 0 <= i < |rows| ==> rows[i].id != id) ==> SetStatus(rows, id, status) == rows
  {
  }

  /** `updateDriver` changes the driver of the rows with that id and nothing
      else. */
  lemma SetDriverOnlyDriver(rows: seq<Booking>, id: string, driver: string)
    ensures forall i :: 0 <= i < |rows| ==>
      && SetDriver(rows, id, driver)[i].driver == (if rows[i].id == id then Some(driver) else rows[i].driver)
      && SetDriver(rows, id, driver)[i] == rows[i].(driver := SetDriver(rows, id, driver)[i].driver)
    ensures (forall i :: 0 <= i < |rows| ==> rows[i].id != id) ==> SetDriver(rows, id, driver) == rows
  {
  }

  /** Setting the same status twice is setting it once, and a driver update
      leaves every status as it was. */
  lemma {:induction false} UpdatesCommute(rows: seq<Booking>, id: string, status: string, driver: string)
    ensures SetStatus(SetStatus(rows, id, status), id, status) == SetStatus(rows, id, status)
    ensures SetDriver(SetStatus(rows, id, status), id, driver) == SetStatus(SetDriver(rows, id, driver), id, status)
  {
    var a := SetStatus(SetStatus(rows, id, status), id, status);
    var b := SetStatus(rows, id, status);
    assert forall i :: 0 <= i < |rows| ==> a[i] == b[i];
    var c := SetDriver(SetStatus(rows, id, status), id, driver);
    var d := SetStatus(SetDriver(rows, id, driver), id, status);
    assert forall i :: 0 <= i < |rows| ==> c[i] == d[i];
  }

  /** The stored bookings the page acts on. */
  class BookingTable {
    var rows: seq<Booking>

    constructor (rows0: seq<Booking>)
      ensures rows == rows0
    {
      rows := rows0;
    }

    /** `updateStatus(id, status)`. */
    method UpdateStatus(id: string, status: string)
      modifies this
      ensures rows == SetStatus(old(rows), id, status)
    {
      rows := SetStatus(rows, id, status);
    }

    /** The driver input's `onBlur`: `updateDriver(b.id, value)`. */
    method UpdateDriver(id: string, driver: string)
      modifies this
      ensures rows == SetDriver(old(rows), id, driver)
    {
      rows := SetDriver(rows, id, driver);
    }

    /** A click on one of the action buttons of row `i`: only an offered
        action reaches `updateStatus`, so the row moves strictly forward. */
    method Act(i: nat, action: string)
      requires i < |rows| && action in OfferedActions(rows[i].status)
      modifies this
      ensures rows == SetStatus(old(rows), old(rows)[i].id, action)
      ensures Rank(rows[i].status) > Rank(old(rows)[i].status)
    {
      ActionAdvances(rows[i].status, action);
      UpdateStatus(rows[i].id, action);
    }
  }
}
