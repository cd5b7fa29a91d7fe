# Car-rental storefront: booking wizard, catalog search, views and history

A model of the logic under a small car-rental storefront for Andhra Pradesh
cities. Customers browse a fixed catalog of six cars, filter it, and book one
through a four-step wizard: locations, then dates and add-ons, then payment,
then confirmation. A top-level page switches between the login, homepage,
booking and history screens. The history screen renders a fixed list of past
bookings.

Modules:

- `Wrappers`: `Option`.
- `Seqs`: the first-match lookup the storefront code uses everywhere (`find`) and
  duplicate-freedom of a list.
- `MockData`: the record shapes and the constant catalog of cities, cars and
  optional add-ons, with lookups by id.
- `FacilityToggle`: the add-on selection toggle, a list rewrite.
- `Pricing`: the price breakdown (days, car cost, add-on cost, total) and a
  second, checkbox-wise definition of the add-on cost.
- `BookingWizard`: the booking draft as a class. It has one method per input
  setter, one per "continue" button, the pay button and the payment
  completion.
- `CatalogFilter`: the homepage filter (case-insensitive search on name or
  model, type selector, price tier) and the Book button's availability gate.
- `AppShell`: the top-level view state machine, as a pure transition function
  and as a class whose six handlers follow it.
- `BookingHistory`: status badge text and colour, the payment badge, the day
  count, the action buttons and the skipping of unknown cars.

Dates are day numbers, counted from 1970-01-01, and an empty date input is
`None`. Date inputs carry whole days, so the storefront code's rounded-up millisecond
difference is plain subtraction.

The model follows the code as written:

- The day count has no one-day minimum. A same-day range gives 0 days.
- An end date before the start date is accepted and gives a negative day
  count and a lower total.
- The wizard has no step backwards.
- Payment always completes; there is no failure path.
- An unknown add-on id adds 0 to the price.
- The pay button is disabled while a payment is in flight, so a second press
  does nothing.

## Model

| member | source | states |
|---|---|---|
| Seqs.Find | src/components/BookingFlow.tsx:29 | The lookup returns an element of the list that matches, and returns nothing exactly when no element matches |
| Seqs.FindIsFirst | src/components/BookingFlow.tsx:29 | When the element at index j matches, the lookup finds one at index j or earlier: it is the first match |
| Seqs.FindUnique | src/components/BookingFlow.tsx:43 | When exactly one element matches, the lookup returns that element |
| MockData.CarById | src/components/BookingFlow.tsx:29-33 | The car found has the requested id and is in the catalog; nothing is found exactly when no catalog car has that id |
| MockData.FacilityById | src/components/BookingFlow.tsx:43 | The add-on found has the requested id and is in the add-on list; nothing is found exactly when no add-on has that id |
| MockData.CarsWellFormed | src/data/mockData.ts:37-98 | Car ids are pairwise distinct, every daily price is positive and every car is available |
| MockData.CarNames | src/data/mockData.ts:37-98 | The catalog holds six cars with the listed names, all of model year 2023 |
| MockData.FacilitiesWellFormed | src/data/mockData.ts:101-107 | Add-on ids are pairwise distinct and every add-on price is positive |
| MockData.CityIdsDistinct | src/data/mockData.ts:21-34 | City ids are pairwise distinct |
| MockData.CarByIdFindsEach | src/data/mockData.ts:37-98 | Looking up any catalog car by its id finds that same car, so lookup by id is unambiguous |
| MockData.FacilityByIdFindsEach | src/data/mockData.ts:101-107 | Looking up any add-on by its id finds that same add-on |
| MockData.StatusNamesDistinct | src/data/mockData.ts:120-121 | The three payment statuses and the four booking statuses have distinct string names |
| FacilityToggle.Remove | src/components/BookingFlow.tsx:56 | The filtered list contains every other id of the input and no occurrence of the removed id, and is no longer than the input |
| FacilityToggle.Toggle | src/components/BookingFlow.tsx:53-59 | Toggling flips the membership of the id and leaves the membership of every other id unchanged |
| FacilityToggle.RemoveAbsent | src/components/BookingFlow.tsx:56 | Removing an id the list does not contain gives back the same list |
| FacilityToggle.RemoveAppend | src/components/BookingFlow.tsx:56 | Removal distributes over concatenation |
| FacilityToggle.RemoveSingle | src/components/BookingFlow.tsx:56 | Removing an id that occurs once, between two parts without it, gives the two parts joined |
| FacilityToggle.RemoveNoDup | src/components/BookingFlow.tsx:56 | Removal keeps a duplicate-free list duplicate-free |
| FacilityToggle.RemoveMultiset | src/components/BookingFlow.tsx:56 | Removal deletes every occurrence of the id and keeps every other id with its count |
| FacilityToggle.ToggleKeepsNoDup | src/components/BookingFlow.tsx:53-59 | Toggling keeps a duplicate-free selection duplicate-free |
| FacilityToggle.ToggleKeepsOthersInOrder | src/components/BookingFlow.tsx:53-59 | Apart from the toggled id, the selection keeps its other ids in their order |
| FacilityToggle.ToggleTwiceRestores | src/components/BookingFlow.tsx:53-59 | Toggling an absent id twice restores the list exactly |
| FacilityToggle.ToggleTwicePermutes | src/components/BookingFlow.tsx:53-59 | On a duplicate-free list, toggling any id twice gives a permutation of the original |
| Pricing.PriceOf | src/components/BookingFlow.tsx:43-44 | The amount one selected id adds is never negative |
| Pricing.PriceOfCatalog | src/components/BookingFlow.tsx:43-44 | An add-on's id adds that add-on's price, and an id found in no add-on adds 0 |
| Pricing.FacilitiesPrice | src/components/BookingFlow.tsx:42-45 | The add-on cost is never negative |
| Pricing.Quote | src/components/BookingFlow.tsx:36-48 | The breakdown carries the day count of the two dates and the add-on cost of the selection; the total is the car cost plus the add-on cost, and the car cost is the daily price times the day count |
| Pricing.DayCountCases | src/components/BookingFlow.tsx:37-39 | Days are 1 when either date is empty, 0 for a same-day range and negative for a backwards range, and positive exactly when the end is after the start |
| Pricing.FacilitiesPriceAppend | src/components/BookingFlow.tsx:42-45 | The add-on cost of two selections joined is the sum of their costs |
| Pricing.FacilitiesPriceSingle | src/components/BookingFlow.tsx:42-45 | A one-id selection costs that id's price |
| Pricing.FacilitiesPriceSplit | src/components/BookingFlow.tsx:42-45 | The cost of a selection with one id between two parts is the parts' costs plus that id's price |
| Pricing.FacilitiesPricePermutation | src/components/BookingFlow.tsx:42-45 | Selections that are permutations of each other cost the same: order of selection does not matter |
| Pricing.ToggleAdjustsPrice | src/components/BookingFlow.tsx:53-59 | On a duplicate-free selection, toggling an id subtracts its price when it was selected and adds it otherwise |
| Pricing.QuoteMonotoneInSelection | src/components/BookingFlow.tsx:41-47 | Selecting one more add-on never lowers the total |
| Pricing.QuoteMonotoneInDays | src/components/BookingFlow.tsx:37-47 | With a non-negative daily price, a later end date never lowers the total |
| Pricing.SwiftWithDriverScenario | src/components/BookingFlow.tsx:36-48 | Car "1" over three days with add-on "1" gives 3 days, 3600, 500 and 4100 |
| Pricing.CheckedPriceAdd | src/components/BookingFlow.tsx:223-233 | In the checkbox view, selecting a new id adds that id's own checkbox cost |
| Pricing.CheckedPriceSingle | src/components/BookingFlow.tsx:223-233 | With distinct add-on ids, a single selected id costs its add-on's price, or 0 when no add-on has it |
| Pricing.CheckedPriceEmpty | src/components/BookingFlow.tsx:223-233 | Nothing checked costs nothing |
| Pricing.FacilitiesPriceIsCheckedPrice | src/components/BookingFlow.tsx:42-45 | For a duplicate-free selection, the left fold over the selection equals the sum of the prices of the checked add-ons |
| BookingWizard.BookingDraft.constructor | src/components/BookingFlow.tsx:19-26 | A new draft is at step 1 with empty locations, no dates, no add-ons and no payment in flight |
| BookingWizard.BookingDraft.SetPickupCity | src/components/BookingFlow.tsx:142 | At step 1, the pickup city becomes the chosen city and nothing else changes |
| BookingWizard.BookingDraft.SetPickupLocation | src/components/BookingFlow.tsx:162 | At step 1, the pickup location becomes the typed text and nothing else changes |
| BookingWizard.BookingDraft.SetDropLocation | src/components/BookingFlow.tsx:172 | At step 1, the drop location becomes the typed text and nothing else changes |
| BookingWizard.BookingDraft.ContinueToDates | src/components/BookingFlow.tsx:176-180 | The step moves from 1 to 2 exactly when all three location fields are non-empty; otherwise nothing changes |
| BookingWizard.BookingDraft.SetStartDate | src/components/BookingFlow.tsx:204 | At step 2, the start date becomes the input and nothing else changes |
| BookingWizard.BookingDraft.SetEndDate | src/components/BookingFlow.tsx:214 | At step 2, the end date becomes the input and nothing else changes |
| BookingWizard.BookingDraft.ToggleFacility | src/components/BookingFlow.tsx:53-59 | At step 2, the selection is toggled and stays duplicate-free, and the add-on cost moves by exactly that add-on's price |
| BookingWizard.BookingDraft.ProceedToPayment | src/components/BookingFlow.tsx:239-243 | The step moves from 2 to 3 exactly when both dates are set, in whatever order; otherwise nothing changes |
| BookingWizard.BookingDraft.Pay | src/components/BookingFlow.tsx:309-315 | A payment starts only when none is in flight; afterwards one is in flight and the quoted breakdown is unchanged |
| BookingWizard.BookingDraft.CompletePayment | src/components/BookingFlow.tsx:65-68 | Completion moves the draft from step 3 to step 4, clears the in-flight flag and leaves the breakdown unchanged |
| BookingWizard.Open | src/components/BookingFlow.tsx:29-33 | No draft exists exactly when no catalog car has the id; otherwise a fresh draft for that car starts at step 1 with empty locations, no dates, no add-ons and no payment in flight |
| BookingWizard.PayAndConfirm | src/components/BookingFlow.tsx:309-351 | Paying at step 3 and completing reaches step 4 and changes only the step and the in-flight flag, so locations, dates, add-ons and the whole breakdown survive to the confirmation, and the total paid equals the total quoted on the pay button |
| BookingWizard.EnterLocations | src/components/BookingFlow.tsx:131-182 | Filling in three non-empty locations at step 1 opens the gate: the draft moves to step 2 holding those locations |
| BookingWizard.FillSwiftWithDriver | src/components/BookingFlow.tsx:131-245 | Steps 1 and 2 for car "1", three days and a driver reach the payment step with the breakdown 3 days, 3600, 500, 4100 |
| BookingWizard.SwiftWithDriverBooking | src/components/BookingFlow.tsx:131-351 | Booking car "1" for three days with a driver passes every gate and quotes and pays 4100 |
| CatalogFilter.IncludesIffOccurs | src/components/Homepage.tsx:24-25 | The substring test holds exactly when the needle occurs at some position of the text |
| CatalogFilter.FilterCars | src/components/Homepage.tsx:23-35 | A car is listed exactly when it is in the catalog and matches the search, the type and the price tier |
| CatalogFilter.FilterIsSubsequence | src/components/Homepage.tsx:23 | The listing is an order-preserving subsequence of the catalog |
| CatalogFilter.FilterAppend | src/components/Homepage.tsx:23-35 | The filter decides car by car: filtering two lists joined is joining their filtered lists |
| CatalogFilter.FilterCount | src/components/Homepage.tsx:23-35 | A kept car is listed as often as it occurs in the catalog, and a dropped car never |
| CatalogFilter.FilterIgnoresCity | src/components/Homepage.tsx:23-35 | The city selector has no effect on the listing |
| CatalogFilter.NoFiltersKeepsAll | src/components/Homepage.tsx:23-35 | An empty query with both selectors on "all" lists the whole catalog in order |
| CatalogFilter.TypeSelector | src/components/Homepage.tsx:27 | "all" keeps every car; any other type value keeps exactly the cars of that type |
| CatalogFilter.PriceTiersPartition | src/components/Homepage.tsx:29-32 | Budget, mid and premium are the price bands up to 1500, up to 2500 and above; every price is in exactly one; any unknown tier keeps nothing |
| CatalogFilter.LowerCharIdempotent | src/components/Homepage.tsx:24 | Lower-casing a character twice is lower-casing it once |
| CatalogFilter.ToLowerIdempotent | src/components/Homepage.tsx:24 | Lower-casing a string twice is lower-casing it once |
| CatalogFilter.SearchIgnoresCase | src/components/Homepage.tsx:24-25 | A query matches a car exactly when its lower-case form does |
| CatalogFilter.FirstCharAbsent | src/components/Homepage.tsx:24-25 | A text lacking the query's first character does not contain the query |
| CatalogFilter.SwiftSearch | src/components/Homepage.tsx:23-35 | Searching "swift" with both selectors on "all" lists exactly the Maruti Swift, whatever the city |
| CatalogFilter.SwiftKept | src/components/Homepage.tsx:23-35 | The Maruti Swift passes the "swift" search with both selectors on "all" |
| CatalogFilter.OthersDoNotMatchSwift | src/components/Homepage.tsx:23-35 | No other catalog car is listed for the "swift" search |
| CatalogFilter.FilterNoneKept | src/components/Homepage.tsx:23-35 | A list none of whose cars matches filters to nothing |
| CatalogFilter.SwiftMatchesOnlyFirst | src/components/Homepage.tsx:24-25 | Of the catalog, only the first car's name or model contains "swift" |
| CatalogFilter.OtherNamesLackS | src/data/mockData.ts:49-96 | The names of the other five cars and the model year contain no letter s in either case |
| CatalogFilter.SedanAndMpvLackS | src/data/mockData.ts:49-66 | "Honda City", "Toyota Innova" and "2023" contain no letter s |
| CatalogFilter.SuvsLackS | src/data/mockData.ts:69-96 | "Hyundai Creta", "Mahindra XUV700" and "Tata Nexon" contain no letter s |
| CatalogFilter.LowerSwift | src/components/Homepage.tsx:24-25 | The query "swift" is already lower case |
| CatalogFilter.NoSwiftIn | src/components/Homepage.tsx:24-25 | A car with no letter s in its name and model does not match "swift" |
| CatalogFilter.BookButton | src/components/Homepage.tsx:224-230 | The Book button hands on the car's id exactly when the car is available, and is disabled otherwise |
| CatalogFilter.ListedCarBooks | src/components/Homepage.tsx:224-230 | Every car listed from the catalog can be booked, and its id finds that same car in the booking wizard |
| AppShell.Handle | src/pages/Index.tsx:14-42 | Only booking a car writes the selected car id, and it writes the chosen id; every other handler keeps it |
| AppShell.HandleSetsTarget | src/pages/Index.tsx:14-42 | Each handler leads to a fixed view: login, booking complete and back lead to the homepage, logout to login, view bookings to history, book car to booking |
| AppShell.HandleIdempotent | src/pages/Index.tsx:14-42 | Applying a handler twice gives the same state as applying it once |
| AppShell.Render | src/pages/Index.tsx:45-73 | The booking screen is shown exactly in the booking view, and it receives the selected car id |
| AppShell.RenderSeparatesViews | src/pages/Index.tsx:45-73 | Distinct views render distinct screens |
| AppShell.App.constructor | src/pages/Index.tsx:10-11 | The page starts at the login view with an empty selected car id |
| AppShell.App.HandleLogin | src/pages/Index.tsx:14-16 | The new state is the login transition of the old one |
| AppShell.App.HandleLogout | src/pages/Index.tsx:19-21 | The new state is the logout transition of the old one |
| AppShell.App.HandleBookCar | src/pages/Index.tsx:24-27 | The new state is the book-car transition of the old one |
| AppShell.App.HandleBookingComplete | src/pages/Index.tsx:30-32 | The new state is the booking-complete transition of the old one |
| AppShell.App.HandleViewBookings | src/pages/Index.tsx:35-37 | The new state is the view-bookings transition of the old one |
| AppShell.App.HandleBack | src/pages/Index.tsx:40-42 | The new state is the back transition of the old one |
| BookingHistory.StatusColor | src/components/BookingHistory.tsx:58-71 | A status gets the grey classes exactly when it is not one of the four known statuses |
| BookingHistory.StatusText | src/components/BookingHistory.tsx:73-86 | An unknown status is shown unchanged; a known status is shown as a different label |
| BookingHistory.StatusBadgesDistinct | src/components/BookingHistory.tsx:58-86 | Different booking statuses get different labels and different colours, and none is grey |
| BookingHistory.PaymentBadge | src/components/BookingHistory.tsx:142-147 | The badge reads "Paid" exactly for a completed payment and "Pending" otherwise, failed payments included |
| BookingHistory.DisplayedDays | src/components/BookingHistory.tsx:238 | The history's day count equals the wizard's day count for the same two dates; it is negative exactly for a backwards range |
| BookingHistory.Actions | src/components/BookingHistory.tsx:246-260 | View Receipt always comes first; Modify Booking appears exactly for confirmed bookings and Book Again exactly for completed ones |
| BookingHistory.ModifyExcludesBookAgain | src/components/BookingHistory.tsx:250-259 | No booking offers both Modify Booking and Book Again |
| BookingHistory.VisibleCards | src/components/BookingHistory.tsx:117-119 | A booking gets a card exactly when its car id is in the catalog; each card is for a listed booking and shows that booking's car |
| BookingHistory.UnknownCarLeavesBlankPage | src/components/BookingHistory.tsx:268 | A list whose only booking names an unknown car shows no card and no empty-state panel either |
| BookingHistory.AllKnownRendered | src/components/BookingHistory.tsx:117-119 | When every booking names a catalog car, every booking gets a card |
| BookingHistory.NamesCar | src/components/BookingHistory.tsx:118 | A booking whose car id is a catalog car's id resolves to that car |
| BookingHistory.MockCarsKnown | src/components/BookingHistory.tsx:12-55 | Each fixture booking names a catalog car |
| BookingHistory.PaidTwoDayCards | src/components/BookingHistory.tsx:142-147 | Paid two-day bookings render as cards showing "Paid" and 2 days |
| BookingHistory.ThreePaidTwoDayTrips | src/components/BookingHistory.tsx:117-119 | Three paid two-day bookings of catalog cars render as three such cards |
| BookingHistory.MockHistoryShowsEveryBooking | src/components/BookingHistory.tsx:12-55 | All three fixture bookings render, each as a paid two-day trip |

## Left out

- The screens' markup, styling, icons, images and progress bar are not modelled. The car's image reference is not a field of `Car`.
- The login and sign-up screen is not modelled beyond the view that shows it. src/components/AuthPage.tsx is not part of this model.
- Date parsing and formatting are not modelled. Dates are day numbers; the `min` hints on the date inputs are never enforced by the code and are left out.
- The three-second payment timer is not modelled. Payment completion is an explicit call, `BookingDraft.CompletePayment`, made while a payment is in flight.
- The confirmation's booking id is not modelled, because it is derived from the clock.
- The card number, expiry and CVV inputs are not modelled. They are not bound to state and not validated.
- The fixture bookings' `totalAmount` values are carried as given. They do not follow the pricing formula, so no relation to it is stated.
- The `userId` field of the booking record is not modelled, because no screen reads it.
- CatalogFilter.ToLower: lower-cases ASCII letters only. The host's full Unicode case mapping is not modelled. Catalog names and models are ASCII, but a typed query need not be: the host maps the Kelvin sign (U+212A) to "k", which `ToLower` leaves as it is. No catalog name or model contains "k", so that query matches no car either way and the fixture results agree.
- BookingWizard.BookingDraft.SetPickupCity: requires step 1, like the other input setters at their steps, because the input exists only while that step's card is rendered.
- BookingWizard.BookingDraft.Pay: modelled as one atomic update of the in-flight flag. React's batching of state updates is not modelled.
