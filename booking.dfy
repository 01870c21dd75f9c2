/** The public booking wizard: four steps (select car, client details,
    date/time/plan, confirm), the price preview, the submission record and
    the offline queue of pending submissions. */
module Booking {
  import opened Common
  import Catalog

  datatype Plan = Hour | Day | Trip

  /** The form state the wizard edits. `date` is the chosen calendar day,
      already in the `yyyy-MM-dd` form the submission uses. */
  datatype Draft = Draft(
    carId: string,
    clientName: string,
    clientEmail: string,
    clientPhone: string,
    pickupLocation: string,
    dropoffLocation: string,
    date: Option<string>,
    time: string,
    plan: Plan,
    duration: int)

  /** The record sent to the `bookings` collection. */
  datatype Payload = Payload(
    carId: Option<string>,
    clientName: string,
    clientEmail: Option<string>,
    clientPhone: Option<string>,
    pickupLocation: string,
    dropoffLocation: Option<string>,
    bookingDate: string,
    bookingTime: Option<string>,
    durationHours: int,
    totalPrice: int,
    userId: Option<string>,
    status: string)

  /** One entry of the offline queue: the payload plus its creation time. */
  datatype PendingEntry = PendingEntry(payload: Payload, createdAt: string)

  /** What the gateway's insert returned. */
  datatype InsertResult = Inserted | InsertFailed(message: string)

  const LastStep := 3

  function InitialDraft(carParam: Option<string>): Draft {
    Draft(OrElse(carParam, ""), "", "", "", "", "", None, "", Hour, 1)
  }

  function SelectedCar(d: Draft): Option<Catalog.Car> {
    if d.carId == "" then None else Catalog.GetCarById(d.carId)
  }

  function Rate(car: Catalog.Car, plan: Plan): int {
    match plan
    case Hour => car.pricePerHour
    case Day => car.pricePerDay
    case Trip => car.pricePerTrip
  }

  /** `calculatePrice`. */
  function CalculatePrice(d: Draft): int {
    match SelectedCar(d)
    case None => 0
    case Some(car) => Rate(car, d.plan) * d.duration
  }

  /** The number of entries of the duration picker. */
  function MaxDuration(plan: Plan): nat {
    if plan == Day then 30 else 24
  }

  /** The values the duration picker offers, in order. */
  function DurationOptions(plan: Plan): (r: seq<int>)
    ensures |r| == MaxDuration(plan)
  {
    seq(MaxDuration(plan), i requires 0 <= i < MaxDuration(plan) => i + 1)
  }

  /** `getDurationLabel`. */
  function DurationLabel(plan: Plan, duration: int): string {
    match plan
    case Hour => if duration == 1 then "hour" else "hours"
    case Day => if duration == 1 then "day" else "days"
    case Trip => if duration == 1 then "trip" else "trips"
  }

  /** `canProceed`: may the wizard leave `step`? */
  predicate CanProceed(step: int, d: Draft) {
    if step == 0 then d.carId != ""
    else if step == 1 then d.clientName != "" && d.clientPhone != "" && d.pickupLocation != ""
    else if step == 2 then d.date.Some? && d.time != "" && d.duration > 0
    else true
  }

  /** The unit rule of the submission: days are sent as hours. */
  function DurationHours(plan: Plan, duration: int): int {
    if plan == Day then duration * 24 else duration
  }

  /** The submission record built by `handleSubmit`; `userId` is the signed-in
      user's id, if any. */
  function BuildPayload(d: Draft, userId: Option<string>): Payload {
    Payload(
      OrNull(d.carId), d.clientName, OrNull(d.clientEmail), OrNull(d.clientPhone),
      d.pickupLocation, OrNull(d.dropoffLocation),
      if d.date.Some? then d.date.value else "",
      OrNull(d.time),
      DurationHours(d.plan, d.duration),
      CalculatePrice(d),
      if Truthy(userId) then userId else None,
      "pending")
  }

  // -------------------------------------------------------------------
  // Properties of the pure rules

  /** The price is the selected car's rate for the plan times the duration,
      and 0 when no catalog car is selected. */
  lemma PriceIsRateTimesDuration(d: Draft)
    ensures SelectedCar(d).None? ==> CalculatePrice(d) == 0
    ensures d.carId != "" ==> forall k :: 0 <= k < |Catalog.Cars| && Catalog.Cars[k].id == d.carId ==>
      CalculatePrice(d) == Rate(Catalog.Cars[k], d.plan) * d.duration
  {
    forall k | 0 <= k < |Catalog.Cars| && Catalog.Cars[k].id == d.carId && d.carId != ""
      ensures CalculatePrice(d) == Rate(Catalog.Cars[k], d.plan) * d.duration
    {
      Catalog.LookupUnique(k);
    }
  }

  /** For a catalog car and a duration the picker offers, the price is
      positive; it is zero exactly when no car is selected. */
  lemma {:induction false} PricePositiveForCatalogCar(d: Draft)
    requires 1 <= d.duration
    ensures CalculatePrice(d) > 0 <==> SelectedCar(d).Some?
  {
    if SelectedCar(d).Some? {
      var car := SelectedCar(d).value;
      RatePositive(car, d.plan);
      ProductPositive(Rate(car, d.plan), d.duration);
    }
  }

  lemma RatePositive(car: Catalog.Car, plan: Plan)
    requires car in Catalog.Cars
    ensures Rate(car, plan) > 0
  {
    Catalog.CatalogRatesPositive();
  }

  lemma ProductPositive(a: int, b: int)
    requires a > 0 && b >= 1
    ensures a * b > 0
  {
  }

  /** Leaving a step needs exactly that step's required fields: the car on
      step 0; name, phone and pickup on step 1 (email and dropoff are
      optional); date, time and a positive duration on step 2; nothing on
      the confirm step. */
  lemma GuardTable(d: Draft)
    ensures CanProceed(0, d) <==> d.carId != ""
    ensures CanProceed(1, d) <==> d.clientName != "" && d.clientPhone != "" && d.pickupLocation != ""
    ensures CanProceed(1, d) == CanProceed(1, d.(clientEmail := "", dropoffLocation := ""))
    ensures CanProceed(2, d) <==> d.date.Some? && d.time != "" && d.duration > 0
    ensures CanProceed(3, d)
  {
  }

  /** Choosing a plan resets the duration to 1, which every plan's picker
      offers; the price then is one unit of the new plan's rate. */
  lemma {:induction false} ChoosePlanResets(d: Draft, plan: Plan)
    ensures var d' := d.(plan := plan, duration := 1);
      d'.duration in DurationOptions(plan) &&
      (SelectedCar(d').Some? ==> CalculatePrice(d') == Rate(SelectedCar(d').value, plan))
  {
    assert DurationOptions(plan)[0] == 1;
  }

  /** The picker offers 1..30 days, and 1..24 hours or trips. */
  lemma {:induction false} DurationRange(plan: Plan, n: int)
    ensures n in DurationOptions(plan) <==> 1 <= n <= (if plan == Day then 30 else 24)
  {
    if 1 <= n <= MaxDuration(plan) {
      assert DurationOptions(plan)[n - 1] == n;
    }
  }

  /** The unit a plan is counted in. */
  function UnitName(plan: Plan): string {
    match plan
    case Hour => "hour"
    case Day => "day"
    case Trip => "trip"
  }

  /** The duration label is the plan's unit, singular exactly for a duration
      of 1 and plural for every other. */
  lemma DurationLabelRules(plan: Plan, duration: int)
    ensures DurationLabel(plan, duration) == UnitName(plan) + (if duration == 1 then "" else "s")
    ensures DurationLabel(plan, duration) != DurationLabel(plan, if duration == 1 then 2 else 1)
  {
  }

  /** toyota-corolla, plan `hour`, duration 3 costs 75; switching to `day`
      resets the duration to 1 and the price to 120. */
  lemma CorollaExample()
    ensures var d := InitialDraft(Some("toyota-corolla")).(duration := 3);
      CalculatePrice(d) == 75 &&
      CalculatePrice(d.(plan := Day, duration := 1)) == 120
  {
    Catalog.CorollaEntry();
  }

  /** The submission record: days are sent as 24 hours each, empty optional
      fields become null, the status is `pending`, an anonymous booking has
      no user, and the price is the preview price. */
  lemma PayloadRules(d: Draft, userId: Option<string>)
    ensures var p := BuildPayload(d, userId);
      && p.durationHours == (if d.plan == Day then d.duration * 24 else d.duration)
      && (p.clientEmail.None? <==> d.clientEmail == "")
      && (p.clientEmail.Some? ==> p.clientEmail.value == d.clientEmail)
      && (p.clientPhone.None? <==> d.clientPhone == "")
      && (p.clientPhone.Some? ==> p.clientPhone.value == d.clientPhone)
      && (p.dropoffLocation.None? <==> d.dropoffLocation == "")
      && (p.dropoffLocation.Some? ==> p.dropoffLocation.value == d.dropoffLocation)
      && (p.bookingTime.None? <==> d.time == "")
      && (p.bookingTime.Some? ==> p.bookingTime.value == d.time)
      && (p.carId.None? <==> d.carId == "")
      && (p.carId.Some? ==> p.carId.value == d.carId)
      && p.clientName == d.clientName && p.pickupLocation == d.pickupLocation
      && (d.date.Some? ==> p.bookingDate == d.date.value)
      && (d.date.None? ==> p.bookingDate == "")
      && p.status == "pending"
      && (Truthy(userId) ==> p.userId == userId)
      && (!Truthy(userId) ==> p.userId.None?)
      && p.totalPrice == CalculatePrice(d)
  {
  }

  /** A draft that has passed the three guards before the confirm step gives
      a record with the car, name, phone, pickup place, date and time the
      gateway needs, a positive number of hours, and a positive price when the
      car is in the catalog. */
  lemma GuardsFillPayload(d: Draft, userId: Option<string>)
    requires CanProceed(0, d) && CanProceed(1, d) && CanProceed(2, d)
    ensures var p := BuildPayload(d, userId);
      && p.carId == Some(d.carId)
      && p.clientName != "" && p.pickupLocation != ""
      && p.clientPhone == Some(d.clientPhone)
      && p.bookingDate == d.date.value && p.bookingTime == Some(d.time)
      && p.durationHours >= d.duration > 0
      && (SelectedCar(d).Some? ==> p.totalPrice > 0)
  {
    PricePositiveForCatalogCar(d);
  }

  lemma TwoDaysAreFortyEightHours(d: Draft)
    requires d.plan == Day && d.duration == 2
    ensures BuildPayload(d, None).durationHours == 48
  {
  }

  // -------------------------------------------------------------------
  // The wizard's state

  class BookingWizard {
    var step: int
    var draft: Draft
    var isSubmitted: bool
    var submitting: bool
    /** The `pendingBookings` list kept in local storage. */
    var pending: seq<PendingEntry>

    /** The step is one of the four, and the duration is one the picker
        offers for the current plan. */
    ghost predicate Valid()
      reads this
    {
      0 <= step <= LastStep && 1 <= draft.duration <= MaxDuration(draft.plan)
    }

    /** A fresh wizard, preselecting the car named by the `car` query
        parameter; the queue is what local storage already holds. */
    constructor (carParam: Option<string>, stored: seq<PendingEntry>)
      ensures Valid()
      ensures step == 0 && draft == InitialDraft(carParam)
      ensures !isSubmitted && !submitting && pending == stored
    {
      step := 0;
      draft := InitialDraft(carParam);
      isSubmitted := false;
      submitting := false;
      pending := stored;
    }

    /** The Next button: shown below the last step, enabled when the guard
        holds. */
    method Next()
      requires Valid()
      modifies this
      ensures Valid()
      ensures step == (if old(step) < LastStep && CanProceed(old(step), old(draft))
                       then old(step) + 1 else old(step))
      ensures draft == old(draft) && pending == old(pending)
      ensures isSubmitted == old(isSubmitted) && submitting == old(submitting)
    {
      if step < LastStep && CanProceed(step, draft) {
        step := step + 1;
      }
    }

    /** The Previous button: shown from step 1 on. */
    method Previous()
      requires Valid()
      modifies this
      ensures Valid()
      ensures step == (if old(step) > 0 then old(step) - 1 else old(step))
      ensures draft == old(draft) && pending == old(pending)
      ensures isSubmitted == old(isSubmitted) && submitting == old(submitting)
    {
      if step > 0 {
        step := step - 1;
      }
    }

    /** A car button of step 0. */
    method SelectCar(id: string)
      requires Valid()
      modifies this
      ensures Valid()
      ensures draft == old(draft).(carId := id)
      ensures step == old(step) && pending == old(pending)
      ensures isSubmitted == old(isSubmitted) && submitting == old(submitting)
    {
      draft := draft.(carId := id);
    }

    /** The text inputs of step 1 and the time picker of step 2. */
    method EditDetails(name: string, email: string, phone: string, pickup: string, dropoff: string, time: string)
      requires Valid()
      modifies this
      ensures Valid()
      ensures draft == old(draft).(clientName := name, clientEmail := email, clientPhone := phone,
                                   pickupLocation := pickup, dropoffLocation := dropoff, time := time)
      ensures step == old(step) && pending == old(pending)
      ensures isSubmitted == old(isSubmitted) && submitting == old(submitting)
    {
      draft := draft.(clientName := name, clientEmail := email, clientPhone := phone,
                      pickupLocation := pickup, dropoffLocation := dropoff, time := time);
    }

    /** The calendar of step 2 (it may also clear the date). */
    method PickDate(date: Option<string>)
      requires Valid()
      modifies this
      ensures Valid()
      ensures draft == old(draft).(date := date)
      ensures step == old(step) && pending == old(pending)
      ensures isSubmitted == old(isSubmitted) && submitting == old(submitting)
    {
      draft := draft.(date := date);
    }

    /** A plan button of step 2: the duration goes back to 1. */
    method ChoosePlan(plan: Plan)
      requires Valid()
      modifies this
      ensures Valid()
      ensures draft == old(draft).(plan := plan, duration := 1)
      ensures step == old(step) && pending == old(pending)
      ensures isSubmitted == old(isSubmitted) && submitting == old(submitting)
    {
      draft := draft.(plan := plan, duration := 1);
    }

    /** The duration picker; it only offers the plan's options. */
    method ChooseDuration(n: int)
      requires Valid()
      requires n in DurationOptions(draft.plan)
      modifies this
      ensures Valid()
      ensures draft == old(draft).(duration := n)
      ensures step == old(step) && pending == old(pending)
      ensures isSubmitted == old(isSubmitted) && submitting == old(submitting)
    {
      DurationRange(draft.plan, n);
      draft := draft.(duration := n);
    }

    /** `handleSubmit`, from the confirm step with the button enabled.
        Offline, the record is queued with its creation time and nothing is
        sent; online, it is sent and the outcome of the insert decides. The
        result is the record sent to the gateway, if any, and the error
        text shown, if any. */
    method Submit(isOnline: bool, userId: Option<string>, createdAt: string, insert: InsertResult)
      returns (sent: Option<Payload>, error: Option<string>)
      requires Valid() && step == LastStep && !submitting
      modifies this
      ensures Valid()
      ensures step == old(step) && draft == old(draft) && !submitting
      ensures !isOnline ==>
        && pending == old(pending) + [PendingEntry(BuildPayload(old(draft), userId), createdAt)]
        && isSubmitted && sent.None? && error.None?
      ensures isOnline ==>
        && pending == old(pending)
        && sent == Some(BuildPayload(old(draft), userId))
        && (insert.InsertFailed? ==> isSubmitted == old(isSubmitted) && error == Some(insert.message))
        && (insert.Inserted? ==> isSubmitted && error.None?)
    {
      submitting := true;
      var payload := BuildPayload(draft, userId);
      if !isOnline {
        var queue := pending;
        queue := queue + [PendingEntry(payload, createdAt)];
        pending := queue;
        isSubmitted := true;
        submitting := false;
        return None, None;
      }
      sent := Some(payload);
      submitting := false;
      if insert.InsertFailed? {
        error := Some(insert.message);
      } else {
        error := None;
        isSubmitted := true;
      }
    }

    /** The effect run when connectivity changes: when online, a non-empty
        queue is cleared; its entries are not sent. */
    method SyncOnReconnect(isOnline: bool)
      requires Valid()
      modifies this
      ensures Valid()
      ensures pending == (if isOnline then [] else old(pending))
      ensures step == old(step) && draft == old(draft)
      ensures isSubmitted == old(isSubmitted) && submitting == old(submitting)
    {
      if isOnline {
        if |pending| > 0 {
          pending := [];
        }
      }
    }
  }
}
