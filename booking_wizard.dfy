/**
 * The four-step booking wizard (locations, dates and add-ons, payment,
 * confirmation) as a mutable draft. Each input setter exists only at the step
 * whose card renders that input; the two "continue" buttons are disabled until
 * their fields are filled, so pressing a disabled one changes nothing; the
 * payment timer is an explicit completion event.
 */
module BookingWizard {
  import opened Wrappers
  import opened Seqs
  import opened MockData
  import opened FacilityToggle
  import opened Pricing

  class BookingDraft {
    const car: Car
    var step: int
    var pickupCity: string
    var pickupLocation: string
    var dropLocation: string
    var startDate: Option<int>
    var endDate: Option<int>
    var selectedFacilities: seq<string>
    var isProcessingPayment: bool

    ghost predicate Valid()
      reads this
    {
      && 1 <= step <= 4
      && (isProcessingPayment ==> step == 3)
      && NoDup(selectedFacilities)
    }

    /** The gate of "Continue to Dates & Facilities". */
    predicate LocationsEntered()
      reads this
    {
      pickupCity != "" && pickupLocation != "" && dropLocation != ""
    }

    /** The gate of "Proceed to Payment": both dates set, in any order. */
    predicate DatesEntered()
      reads this
    {
      startDate.Some? && endDate.Some?
    }

    /** `pricing`, recomputed from the draft on every render. */
    function CurrentPricing(): Breakdown
      reads this
    {
      Quote(car.pricePerDay, startDate, endDate, selectedFacilities)
    }

    constructor (car: Car)
      ensures Valid() && this.car == car
      ensures step == 1 && !isProcessingPayment
      ensures pickupCity == pickupLocation == dropLocation == ""
      ensures startDate.None? && endDate.None? && selectedFacilities == []
    {
      this.car := car;
      step := 1;
      pickupCity, pickupLocation, dropLocation := "", "", "";
      startDate, endDate := None, None;
      selectedFacilities := [];
      isProcessingPayment := false;
    }

    method SetPickupCity(city: string)
      requires Valid() && step == 1
      modifies this`pickupCity
      ensures Valid() && pickupCity == city
    {
      pickupCity := city;
    }

    method SetPickupLocation(location: string)
      requires Valid() && step == 1
      modifies this`pickupLocation
      ensures Valid() && pickupLocation == location
    {
      pickupLocation := location;
    }

    method SetDropLocation(location: string)
      requires Valid() && step == 1
      modifies this`dropLocation
      ensures Valid() && dropLocation == location
    {
      dropLocation := location;
    }

    /** Step 1 to 2, allowed exactly when all three location fields are non-empty. */
    method ContinueToDates() returns (advanced: bool)
      requires Valid() && step == 1
      modifies this`step
      ensures Valid() && advanced == LocationsEntered()
      ensures step == if advanced then 2 else 1
      ensures old(step) <= step
    {
      advanced := LocationsEntered();
      if advanced {
        step := 2;
      }
    }

    /** A cleared date input is `None`. */
    method SetStartDate(date: Option<int>)
      requires Valid() && step == 2
      modifies this`startDate
      ensures Valid() && startDate == date
    {
      startDate := date;
    }

    method SetEndDate(date: Option<int>)
      requires Valid() && step == 2
      modifies this`endDate
      ensures Valid() && endDate == date
    {
      endDate := date;
    }

    /** `handleFacilityToggle`: the selection stays duplicate-free and the add-on cost moves by the add-on's price. */
    method ToggleFacility(id: string)
      requires Valid() && step == 2
      modifies this`selectedFacilities
      ensures Valid() && selectedFacilities == Toggle(old(selectedFacilities), id)
      ensures id in old(selectedFacilities) ==>
        CurrentPricing().facilitiesPrice == old(CurrentPricing().facilitiesPrice) - PriceOf(id)
      ensures id !in old(selectedFacilities) ==>
        CurrentPricing().facilitiesPrice == old(CurrentPricing().facilitiesPrice) + PriceOf(id)
    {
      ToggleKeepsNoDup(selectedFacilities, id);
      ToggleAdjustsPrice(selectedFacilities, id);
      selectedFacilities := Toggle(selectedFacilities, id);
    }

    /** Step 2 to 3, allowed exactly when both dates are set; an end before the start is not refused. */
    method ProceedToPayment() returns (advanced: bool)
      requires Valid() && step == 2
      modifies this`step
      ensures Valid() && advanced == DatesEntered()
      ensures step == if advanced then 3 else 2
      ensures old(step) <= step
    {
      advanced := DatesEntered();
      if advanced {
        step := 3;
      }
    }

    /**
     * `handlePayment`: the pay button is disabled while a payment is in flight,
     * so a second press starts nothing. Nothing that feeds the price can change.
     */
    method Pay() returns (started: bool)
      requires Valid() && step == 3
      modifies this`isProcessingPayment
      ensures Valid() && started == !old(isProcessingPayment) && isProcessingPayment
      ensures CurrentPricing() == old(CurrentPricing())
    {
      started := !isProcessingPayment;
      if started {
        isProcessingPayment := true;
      }
    }

    /**
     * The payment timer firing: a timer is pending only while a payment is in
     * flight. It clears the flag and moves to the confirmation, whose
     * "Total Paid" is the total that was on the pay button.
     */
    method CompletePayment()
      requires Valid() && isProcessingPayment
      modifies this`isProcessingPayment, this`step
      ensures Valid() && step == 4 && old(step) == 3 && !isProcessingPayment
      ensures CurrentPricing() == old(CurrentPricing())
    {
      isProcessingPayment := false;
      step := 4;
    }
  }

  /** Mounting the wizard for `carId`: no draft exists when no catalog car has that id ("Car not found"). */
  method Open(carId: string) returns (draft: BookingDraft?)
    ensures draft == null <==> CarById(carId).None?
    ensures draft != null ==> fresh(draft) && draft.Valid() && draft.car == CarById(carId).value
    ensures draft != null ==> draft.step == 1 && draft.selectedFacilities == [] && !draft.isProcessingPayment
    ensures draft != null ==> draft.pickupCity == draft.pickupLocation == draft.dropLocation == ""
    ensures draft != null ==> draft.startDate.None? && draft.endDate.None?
  {
    match CarById(carId)
    case None =>
      draft := null;
    case Some(car) =>
      draft := new BookingDraft(car);
  }

  /**
   * Paying for a draft at step 3 and letting the timer fire: the draft reaches
   * the confirmation and the total shown there is the one quoted on the pay button.
   */
  method PayAndConfirm(draft: BookingDraft) returns (quoted: int, paid: int)
    requires draft.Valid() && draft.step == 3 && !draft.isProcessingPayment
    modifies draft`step, draft`isProcessingPayment
    ensures draft.Valid() && draft.step == 4
    ensures draft.CurrentPricing() == old(draft.CurrentPricing())
    ensures quoted == old(draft.CurrentPricing().total) && paid == quoted
  {
    quoted := draft.CurrentPricing().total;
    var started := draft.Pay();
    draft.CompletePayment();
    paid := draft.CurrentPricing().total;
  }

  /**
   * The full wizard for a Maruti Swift (car "1") over three days with a driver
   * (add-on "1"): every gate opens, and 4100 is quoted and paid.
   */
  method SwiftWithDriverBooking(start: int) returns (quoted: int, paid: int)
    ensures quoted == 4100 && paid == 4100
  {
    var draft := FillSwiftWithDriver(start);
    quoted, paid := PayAndConfirm(draft);
  }

  /** Step 1 filled in with three non-empty locations: the gate opens and the draft moves to step 2. */
  method EnterLocations(draft: BookingDraft, city: string, pickup: string, drop: string)
    requires draft.Valid() && draft.step == 1
    requires city != "" && pickup != "" && drop != ""
    modifies draft`pickupCity, draft`pickupLocation, draft`dropLocation, draft`step
    ensures draft.Valid() && draft.step == 2
    ensures draft.pickupCity == city && draft.pickupLocation == pickup && draft.dropLocation == drop
  {
    draft.SetPickupCity(city);
    draft.SetPickupLocation(pickup);
    draft.SetDropLocation(drop);
    var advanced := draft.ContinueToDates();
  }

  /** Steps 1 and 2 of that booking: both gates open and the pay button shows 4100. */
  method FillSwiftWithDriver(start: int) returns (draft: BookingDraft)
    ensures fresh(draft) && draft.Valid() && draft.step == 3 && !draft.isProcessingPayment
    ensures draft.CurrentPricing() == Breakdown(3, 3600, 500, 4100)
  {
    CarByIdFindsEach(Cars[0]);
    var found := Open("1");
    draft := found;
    EnterLocations(draft, "Vijayawada", "Railway Station", "Airport");
    draft.SetStartDate(Some(start));
    draft.SetEndDate(Some(start + 3));
    draft.ToggleFacility("1");
    var toPayment := draft.ProceedToPayment();
    SwiftWithDriverScenario(start);
  }
}
