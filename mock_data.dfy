/**
 * The fixture catalog of the storefront: the record shapes and the constant
 * lists of cities, cars and optional add-on facilities that every screen reads.
 * Prices are whole rupees; dates are day numbers (days since 1970-01-01).
 */
module MockData {
  import opened Wrappers
  import opened Seqs

  datatype Car = Car(
    id: string,
    name: string,
    model: string,
    pricePerDay: int,
    facilities: seq<string>,
    carType: string,
    available: bool)

  datatype City = City(id: string, name: string, state: string)

  /** An optional paid add-on (driver, insurance, …). */
  datatype Facility = Facility(id: string, name: string, price: int)

  datatype PaymentStatus = Pending | Completed | Failed
  {
    /** The string literal the storefront code uses for this status. */
    function Name(): string
    {
      match this
      case Pending => "pending"
      case Completed => "completed"
      case Failed => "failed"
    }
  }

  datatype BookingStatus = Confirmed | Ongoing | Completed | Cancelled
  {
    /** The string literal the storefront code uses for this status. */
    function Name(): string
    {
      match this
      case Confirmed => "confirmed"
      case Ongoing => "ongoing"
      case Completed => "completed"
      case Cancelled => "cancelled"
    }
  }

  datatype Booking = Booking(
    id: string,
    carId: string,
    pickupCity: string,
    pickupLocation: string,
    dropLocation: string,
    startDate: int,
    endDate: int,
    totalAmount: int,
    paymentStatus: PaymentStatus,
    bookingStatus: BookingStatus,
    optionalFacilities: seq<string>,
    createdAt: int)

  const Cities: seq<City> := [
    City("1", "Vijayawada", "Andhra Pradesh"),
    City("2", "Visakhapatnam", "Andhra Pradesh"),
    City("3", "Guntur", "Andhra Pradesh"),
    City("4", "Nellore", "Andhra Pradesh"),
    City("5", "Kurnool", "Andhra Pradesh"),
    City("6", "Rajahmundry", "Andhra Pradesh"),
    City("7", "Tirupati", "Andhra Pradesh"),
    City("8", "Anantapur", "Andhra Pradesh"),
    City("9", "Kadapa", "Andhra Pradesh"),
    City("10", "Eluru", "Andhra Pradesh"),
    City("11", "Chittoor", "Andhra Pradesh"),
    City("12", "Machilipatnam", "Andhra Pradesh")
  ]

  const MarutiSwift := Car("1", "Maruti Swift", "2023", 1200, ["AC", "Music System", "GPS"], "Hatchback", true)
  const HondaCity := Car("2", "Honda City", "2023", 1800, ["AC", "Music System", "GPS", "Leather Seats"], "Sedan", true)
  const ToyotaInnova :=
    Car("3", "Toyota Innova", "2023", 2500, ["AC", "Music System", "GPS", "7 Seater", "USB Charging"], "SUV", true)
  const HyundaiCreta :=
    Car("4", "Hyundai Creta", "2023", 2200, ["AC", "Music System", "GPS", "Sunroof", "Reverse Camera"], "SUV", true)
  const MahindraXuv700 := Car("5", "Mahindra XUV700", "2023", 3000,
    ["AC", "Music System", "GPS", "7 Seater", "Premium Audio", "Sunroof"], "SUV", true)
  const TataNexon :=
    Car("6", "Tata Nexon", "2023", 1600, ["AC", "Music System", "GPS", "Safety Features"], "Compact SUV", true)

  const Cars: seq<Car> := [MarutiSwift, HondaCity, ToyotaInnova, HyundaiCreta, MahindraXuv700, TataNexon]

  const OptionalFacilities: seq<Facility> := [
    Facility("1", "Driver", 500),
    Facility("2", "Extra Insurance", 200),
    Facility("3", "Child Seat", 100),
    Facility("4", "GPS Navigation", 150),
    Facility("5", "Phone Charger", 50)
  ]

  /** `cars.find(car => car.id === id)` */
  function CarById(id: string): (r: Option<Car>)
    ensures r.Some? ==> r.value in Cars && r.value.id == id
    ensures r.None? <==> forall c | c in Cars :: c.id != id
  {
    Find(Cars, (c: Car) => c.id == id)
  }

  /** `optionalFacilities.find(f => f.id === id)` */
  function FacilityById(id: string): (r: Option<Facility>)
    ensures r.Some? ==> r.value in OptionalFacilities && r.value.id == id
    ensures r.None? <==> forall f | f in OptionalFacilities :: f.id != id
  {
    Find(OptionalFacilities, (f: Facility) => f.id == id)
  }

  /** Car ids are pairwise distinct, and every daily price is positive. */
  lemma CarsWellFormed()
    ensures forall i, j :: 0 <= i < j < |Cars| ==> Cars[i].id != Cars[j].id
    ensures forall c | c in Cars :: c.pricePerDay > 0
    ensures forall c | c in Cars :: c.available
  {
  }

  /** The display names of the cars, in catalog order; every model is "2023". */
  lemma CarNames()
    ensures |Cars| == 6
    ensures Cars[0].name == "Maruti Swift" && Cars[1].name == "Honda City" && Cars[2].name == "Toyota Innova"
    ensures Cars[3].name == "Hyundai Creta" && Cars[4].name == "Mahindra XUV700" && Cars[5].name == "Tata Nexon"
    ensures forall k | 0 <= k < |Cars| :: Cars[k].model == "2023"
  {
  }

  /** Add-on ids are pairwise distinct, and every add-on price is positive. */
  lemma FacilitiesWellFormed()
    ensures forall i, j :: 0 <= i < j < |OptionalFacilities| ==> OptionalFacilities[i].id != OptionalFacilities[j].id
    ensures forall f | f in OptionalFacilities :: f.price > 0
  {
  }

  /** City ids are pairwise distinct. */
  lemma CityIdsDistinct()
    ensures forall i, j :: 0 <= i < j < |Cities| ==> Cities[i].id != Cities[j].id
  {
  }

  /** Lookup by id is unambiguous: every catalog car is found by its own id. */
  lemma {:induction false} CarByIdFindsEach(c: Car)
    requires c in Cars
    ensures CarById(c.id) == Some(c)
  {
    var k :| 0 <= k < |Cars| && Cars[k] == c;
    CarsWellFormed();
    FindUnique(Cars, (x: Car) => x.id == c.id, k);
  }

  /** Every add-on is found by its own id. */
  lemma {:induction false} FacilityByIdFindsEach(f: Facility)
    requires f in OptionalFacilities
    ensures FacilityById(f.id) == Some(f)
  {
    var k :| 0 <= k < |OptionalFacilities| && OptionalFacilities[k] == f;
    FacilitiesWellFormed();
    FindUnique(OptionalFacilities, (x: Facility) => x.id == f.id, k);
  }

  /** Both status enumerations name pairwise distinct string literals. */
  lemma StatusNamesDistinct()
    ensures forall s, t: PaymentStatus :: s != t ==> s.Name() != t.Name()
    ensures forall s, t: BookingStatus :: s != t ==> s.Name() != t.Name()
  {
  }
}
