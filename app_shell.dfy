/**
 * The top-level page: which of the four screens is shown and which car the
 * booking screen is for. Six event handlers overwrite these two fields with
 * constants (or, for booking, with the chosen car id).
 */
module AppShell {

  datatype View = Auth | Homepage | Booking | History

  datatype AppState = AppState(currentView: View, selectedCarId: string)

  /** The six handlers passed down to the screens. */
  datatype Event = Login | Logout | BookCar(carId: string) | BookingComplete | ViewBookings | Back

  /** What `renderCurrentView` mounts; the booking screen receives the selected car id. */
  datatype Screen = AuthPage | HomepageScreen | BookingFlowScreen(carId: string) | BookingHistoryScreen

  const Initial := AppState(Auth, "")

  /** The state after one handler runs. Only booking a car writes the car id. */
  function Handle(s: AppState, e: Event): (t: AppState)
    ensures t.selectedCarId == if e.BookCar? then e.carId else s.selectedCarId
  {
    match e
    case Login => s.(currentView := Homepage)
    case Logout => s.(currentView := Auth)
    case BookCar(carId) => AppState(Booking, carId)
    case BookingComplete => s.(currentView := Homepage)
    case ViewBookings => s.(currentView := History)
    case Back => s.(currentView := Homepage)
  }

  /** The view a handler leads to. */
  function Target(e: Event): View
  {
    match e
    case Login => Homepage
    case Logout => Auth
    case BookCar(_) => Booking
    case BookingComplete => Homepage
    case ViewBookings => History
    case Back => Homepage
  }

  /** Every handler assigns a constant view: the new view depends on the event alone. */
  lemma HandleSetsTarget(s: AppState, e: Event)
    ensures Handle(s, e).currentView == Target(e)
  {
  }

  /** Applying a handler twice gives the same state as applying it once. */
  lemma HandleIdempotent(s: AppState, e: Event)
    ensures Handle(Handle(s, e), e) == Handle(s, e)
  {
  }

  function Render(s: AppState): (screen: Screen)
    ensures screen.BookingFlowScreen? <==> s.currentView == Booking
    ensures screen.BookingFlowScreen? ==> screen.carId == s.selectedCarId
  {
    match s.currentView
    case Auth => AuthPage
    case Homepage => HomepageScreen
    case Booking => BookingFlowScreen(s.selectedCarId)
    case History => BookingHistoryScreen
  }

  /** Distinct views render distinct screens. */
  lemma RenderSeparatesViews(s: AppState, t: AppState)
    requires s.currentView != t.currentView
    ensures Render(s) != Render(t)
  {
  }

  /** The page component: two fields overwritten by the handlers. */
  class App {
    var currentView: View
    var selectedCarId: string

    function State(): AppState
      reads this
    {
      AppState(currentView, selectedCarId)
    }

    constructor ()
      ensures State() == Initial
    {
      currentView := Auth;
      selectedCarId := "";
    }

    method HandleLogin()
      modifies this
      ensures State() == Handle(old(State()), Login)
    {
      currentView := Homepage;
    }

    method HandleLogout()
      modifies this
      ensures State() == Handle(old(State()), Logout)
    {
      currentView := Auth;
    }

    method HandleBookCar(carId: string)
      modifies this
      ensures State() == Handle(old(State()), BookCar(carId))
    {
      selectedCarId := carId;
      currentView := Booking;
    }

    method HandleBookingComplete()
      modifies this
      ensures State() == Handle(old(State()), BookingComplete)
    {
      currentView := Homepage;
    }

    method HandleViewBookings()
      modifies this
      ensures State() == Handle(old(State()), ViewBookings)
    {
      currentView := History;
    }

    method HandleBack()
      modifies this
      ensures State() == Handle(old(State()), Back)
    {
      currentView := Homepage;
    }

    /** `renderCurrentView`: the screen for the current state. */
    function RenderCurrentView(): Screen
      reads this
    {
      Render(State())
    }
  }
}
