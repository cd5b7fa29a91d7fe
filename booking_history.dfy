/**
 * The booking-history screen: a fixed list of past bookings rendered as
 * cards. Each card shows a status badge (text and colour), a payment badge,
 * the trip length in days and a row of action buttons. A booking whose car id
 * is not in the catalog renders nothing.
 */
module BookingHistory {
  import opened Wrappers
  import opened MockData
  import opened Pricing

  /** The badge classes of the four known statuses and of every other string. */
  const GreenBadge := "bg-green-100 text-green-800"
  const BlueBadge := "bg-blue-100 text-blue-800"
  const OrangeBadge := "bg-orange-100 text-orange-800"
  const RedBadge := "bg-red-100 text-red-800"
  const GreyBadge := "bg-gray-100 text-gray-800"

  predicate IsKnownStatus(status: string)
  {
    status == "completed" || status == "ongoing" || status == "confirmed" || status == "cancelled"
  }

  /** `getStatusColor`: the badge classes for a status string; unknown strings get grey. */
  function StatusColor(status: string): (classes: string)
    ensures !IsKnownStatus(status) <==> classes == GreyBadge
  {
    match status
    case "completed" => GreenBadge
    case "ongoing" => BlueBadge
    case "confirmed" => OrangeBadge
    case "cancelled" => RedBadge
    case _ => GreyBadge
  }

  /** `getStatusText`: the badge label for a status string; unknown strings are shown as they are. */
  function StatusText(status: string): (text: string)
    ensures !IsKnownStatus(status) ==> text == status
    ensures IsKnownStatus(status) ==> text != status
  {
    match status
    case "completed" => "Trip Completed"
    case "ongoing" => "Ongoing Trip"
    case "confirmed" => "Upcoming Trip"
    case "cancelled" => "Cancelled"
    case _ => status
  }

  /** Every booking status has its own badge label and its own colour, and none is grey. */
  lemma StatusBadgesDistinct(s: BookingStatus, t: BookingStatus)
    requires s != t
    ensures StatusText(s.Name()) != StatusText(t.Name())
    ensures StatusColor(s.Name()) != StatusColor(t.Name())
    ensures StatusColor(s.Name()) != GreyBadge
  {
  }

  /** The payment badge: "Paid" only for a completed payment; anything else reads "Pending". */
  function PaymentBadge(p: PaymentStatus): (text: string)
    ensures text == "Paid" <==> p == PaymentStatus.Completed
    ensures text != "Paid" ==> text == "Pending"
  {
    if p == PaymentStatus.Completed then "Paid" else "Pending"
  }

  /**
   * The "N days total" line: the difference of the two dates in whole days.
   * With dates at midnight the rounding up is exact, so nothing is clamped.
   */
  function DisplayedDays(startDate: int, endDate: int): (days: int)
    ensures days == DayCount(Some(startDate), Some(endDate))
    ensures days < 0 <==> endDate < startDate
  {
    endDate - startDate
  }

  datatype Action = ViewReceipt | ModifyBooking | BookAgain

  /** The action buttons of a card, left to right. */
  function Actions(status: BookingStatus): (buttons: seq<Action>)
    ensures 1 <= |buttons| <= 2 && buttons[0] == ViewReceipt
    ensures ModifyBooking in buttons <==> status == Confirmed
    ensures BookAgain in buttons <==> status == BookingStatus.Completed
  {
    [ViewReceipt]
      + (if status == Confirmed then [ModifyBooking] else [])
      + (if status == BookingStatus.Completed then [BookAgain] else [])
  }

  /** No booking offers both a change and a repeat. */
  lemma {:induction false} ModifyExcludesBookAgain(status: BookingStatus)
    ensures !(ModifyBooking in Actions(status) && BookAgain in Actions(status))
  {
    var buttons := Actions(status);
    if ModifyBooking in buttons {
      assert status == Confirmed;
    }
  }

  /** What one card shows, apart from text copied straight from the booking and the car. */
  datatype Card = Card(
    booking: Booking,
    car: Car,
    statusLabel: string,
    statusClasses: string,
    paymentLabel: string,
    days: int,
    actions: seq<Action>)

  function CardFor(b: Booking, car: Car): Card
  {
    Card(b, car, StatusText(b.bookingStatus.Name()), StatusColor(b.bookingStatus.Name()),
         PaymentBadge(b.paymentStatus), DisplayedDays(b.startDate, b.endDate), Actions(b.bookingStatus))
  }

  /** The cards rendered for a list of bookings, in list order; unknown cars are skipped. */
  function VisibleCards(bookings: seq<Booking>): (cards: seq<Card>)
    ensures |cards| <= |bookings|
    ensures forall card | card in cards :: card.booking in bookings && CarById(card.booking.carId) == Some(card.car)
    ensures forall card | card in cards :: card == CardFor(card.booking, card.car)
    ensures forall b | b in bookings :: CarById(b.carId).Some? <==> exists card | card in cards :: card.booking == b
  {
    if bookings == [] then []
    else
      var b := bookings[0];
      var rest := VisibleCards(bookings[1..]);
      match CarById(b.carId)
      case None => rest
      case Some(car) => [CardFor(b, car)] + rest
  }

  /** The "No bookings yet" panel: shown only when the booking list itself is empty. */
  predicate ShowsEmptyState(bookings: seq<Booking>)
  {
    |bookings| == 0
  }

  /**
   * A list whose only booking names an unknown car renders no card, and the
   * empty-state panel stays hidden too, because it looks at the raw list.
   */
  lemma UnknownCarLeavesBlankPage(b: Booking)
    requires CarById(b.carId).None?
    ensures VisibleCards([b]) == [] && !ShowsEmptyState([b])
  {
  }

  /** The booking's car id is found in the catalog. */
  predicate NamesKnownCar(b: Booking)
  {
    CarById(b.carId).Some?
  }

  /** Every booking whose car is in the catalog gets a card. */
  lemma {:induction false} AllKnownRendered(bookings: seq<Booking>)
    requires forall b | b in bookings :: NamesKnownCar(b)
    ensures |VisibleCards(bookings)| == |bookings|
  {
    if bookings != [] {
      assert forall b | b in bookings[1..] :: b in bookings;
      AllKnownRendered(bookings[1..]);
    }
  }

  /** The three fixture bookings shown on the screen. */
  const SwiftTrip :=
    Booking("LB123456", "1", "Vijayawada", "Railway Station", "Airport", 19737, 19739, 3600,
            PaymentStatus.Completed, BookingStatus.Completed, ["Driver", "GPS Navigation"], 19732)
  const InnovaTrip :=
    Booking("LB789012", "3", "Guntur", "Bus Stand", "City Center", 19773, 19775, 5700,
            PaymentStatus.Completed, Ongoing, ["Extra Insurance"], 19771)
  const CityTrip :=
    Booking("LB345678", "2", "Visakhapatnam", "Beach Road", "IT Park", 19783, 19785, 4200,
            PaymentStatus.Completed, Confirmed, [], 19781)
  const MockBookings: seq<Booking> := [SwiftTrip, InnovaTrip, CityTrip]

  /** A booking names a catalog car when its id is that car's id. */
  lemma {:induction false} NamesCar(b: Booking, c: Car)
    requires c in Cars && b.carId == c.id
    ensures CarById(b.carId) == Some(c)
  {
    CarByIdFindsEach(c);
  }

  /** Each fixture booking names a car of the catalog. */
  lemma MockCarsKnown()
    ensures NamesKnownCar(SwiftTrip) && NamesKnownCar(InnovaTrip) && NamesKnownCar(CityTrip)
  {
    NamesCar(SwiftTrip, MarutiSwift);
    NamesCar(InnovaTrip, ToyotaInnova);
    NamesCar(CityTrip, HondaCity);
  }

  /** Bookings of paid two-day trips render as cards saying so. */
  lemma PaidTwoDayCards(bookings: seq<Booking>)
    requires forall b | b in bookings :: b.endDate - b.startDate == 2 && b.paymentStatus == PaymentStatus.Completed
    ensures forall card | card in VisibleCards(bookings) :: card.days == 2 && card.paymentLabel == "Paid"
  {
  }

  /** Three bookings of catalog cars, each a paid two-day trip, render as three such cards. */
  lemma ThreePaidTwoDayTrips(x: Booking, y: Booking, z: Booking)
    requires NamesKnownCar(x) && NamesKnownCar(y) && NamesKnownCar(z)
    requires forall b | b in [x, y, z] :: b.endDate - b.startDate == 2 && b.paymentStatus == PaymentStatus.Completed
    ensures |VisibleCards([x, y, z])| == 3
    ensures forall card | card in VisibleCards([x, y, z]) :: card.days == 2 && card.paymentLabel == "Paid"
  {
    AllKnownRendered([x, y, z]);
    PaidTwoDayCards([x, y, z]);
  }

  /** All three fixture cards render, each for a paid two-day trip. */
  lemma MockHistoryShowsEveryBooking()
    ensures |VisibleCards(MockBookings)| == 3
    ensures forall card | card in VisibleCards(MockBookings) :: card.days == 2 && card.paymentLabel == "Paid"
  {
    MockCarsKnown();
    ThreePaidTwoDayTrips(SwiftTrip, InnovaTrip, CityTrip);
  }
}
