/** The fixed vehicle catalog the public pages show, and lookup by id. */
module Catalog {
  import opened Common

  datatype Car = Car(
    id: string,
    name: string,
    kind: string,          // the `type` field: SUV, Van, Sedan, ...
    seats: nat,
    pricePerHour: int,
    pricePerDay: int,
    pricePerTrip: int,
    image: string,
    images: seq<string>,
    description: string,
    features: seq<string>)

  const LandCruiser := Car("toyota-land-cruiser", "Toyota Land Cruiser", "SUV", 7, 50, 300, 150,
    "https://wallpapers.com/images/hd/dodge-challenger-4k-rj7427un0psvbzqq.jpg",
    ["https://images.unsplash.com/photo-1594611110477-6cc9da17e33f?w=800",
     "https://images.unsplash.com/photo-1519641471654-76ce0107ad1b?w=800",
     "https://images.unsplash.com/photo-1606220588913-b3aacb4d2f46?w=800"],
    "The Toyota Land Cruiser offers exceptional off-road capability combined with luxury comfort. Perfect for long journeys and rough terrains.",
    ["4WD", "Leather Seats", "Air Conditioning", "GPS Navigation", "Bluetooth", "Sunroof", "Backup Camera"])

  const SClass := Car("mercedes-s-class", "Mercedes S-Class", "Luxury Sedan", 5, 80, 450, 200,
    "https://images.unsplash.com/photo-1618843479313-40f8afb4b4d8?w=800",
    ["https://images.unsplash.com/photo-1618843479313-40f8afb4b4d8?w=800",
     "https://images.unsplash.com/photo-1617814076367-b759c7d7e738?w=800",
     "https://images.unsplash.com/photo-1606220588913-b3aacb4d2f46?w=800"],
    "Experience ultimate luxury with the Mercedes S-Class. Premium comfort for business trips and special occasions.",
    ["Leather Interior", "Massage Seats", "Premium Sound", "Climate Control", "Night Vision", "Executive Rear Seats"])

  const HiAce := Car("toyota-hiace", "Toyota HiAce", "Van", 14, 40, 200, 120,
    "https://images.unsplash.com/photo-1570125909232-eb263c188f7e?w=800",
    ["https://images.unsplash.com/photo-1570125909232-eb263c188f7e?w=800",
     "https://images.unsplash.com/photo-1544620347-c4fd4a3d5957?w=800"],
    "Ideal for group travel. Spacious interior with comfortable seating for up to 14 passengers.",
    ["Air Conditioning", "Spacious Interior", "USB Ports", "Large Luggage Space", "Sliding Doors"])

  const RangeRoverSport := Car("range-rover-sport", "Range Rover Sport", "SUV", 5, 70, 400, 180,
    "https://images.unsplash.com/photo-1606664515524-ed2f786a0bd6?w=800",
    ["https://images.unsplash.com/photo-1606664515524-ed2f786a0bd6?w=800",
     "https://images.unsplash.com/photo-1617814076367-b759c7d7e738?w=800"],
    "British elegance meets rugged capability. The Range Rover Sport delivers both style and substance.",
    ["Terrain Response", "Panoramic Roof", "Meridian Sound", "Air Suspension", "Heated Seats", "Premium Leather"])

  const Corolla := Car("toyota-corolla", "Toyota Corolla", "Sedan", 5, 25, 120, 60,
    "https://images.unsplash.com/photo-1623869675781-80aa31012a5a?w=800",
    ["https://images.unsplash.com/photo-1623869675781-80aa31012a5a?w=800",
     "https://images.unsplash.com/photo-1621007947382-bb3c3994e3fb?w=800"],
    "Reliable and fuel-efficient. The Toyota Corolla is perfect for city driving and daily commutes.",
    ["Fuel Efficient", "Air Conditioning", "Bluetooth", "Backup Camera", "USB Charging"])

  const Patrol := Car("nissan-patrol", "Nissan Patrol", "SUV", 7, 55, 320, 160,
    "https://images.unsplash.com/photo-1519641471654-76ce0107ad1b?w=800",
    ["https://images.unsplash.com/photo-1519641471654-76ce0107ad1b?w=800",
     "https://images.unsplash.com/photo-1594611110477-6cc9da17e33f?w=800"],
    "Built for adventure. The Nissan Patrol conquers any terrain while keeping you comfortable.",
    ["4WD", "V8 Engine", "Leather Seats", "Bose Audio", "Intelligent Cruise Control", "360 Camera"])

  /** `cars`, in the catalog's order. */
  const Cars: seq<Car> := [LandCruiser, SClass, HiAce, RangeRoverSport, Corolla, Patrol]

  /** `cs.find(car => car.id === id)`: the first entry with that id. */
  function Find(cs: seq<Car>, id: string): (r: Option<Car>)
    ensures r.Some? ==> r.value.id == id && r.value in cs
    ensures r.None? <==> forall i :: 0 <= i < |cs| ==> cs[i].id != id
    ensures r.Some? ==> exists k :: 0 <= k < |cs| && cs[k] == r.value &&
                                    forall j :: 0 <= j < k ==> cs[j].id != id
  {
    if |cs| == 0 then None
    else if cs[0].id == id then Some(cs[0])
    else
      Find(cs[1..], id)
  }

  /** `getCarById`. */
  function GetCarById(id: string): (r: Option<Car>)
    ensures r.Some? ==> r.value.id == id && r.value in Cars
    ensures r.None? <==> forall i :: 0 <= i < |Cars| ==> Cars[i].id != id
  {
    Find(Cars, id)
  }

  /** No two catalog entries share an id. */
  predicate DistinctIds(cs: seq<Car>) {
    forall i, j :: 0 <= i < j < |cs| ==> cs[i].id != cs[j].id
  }

  lemma CatalogIdsDistinct()
    ensures DistinctIds(Cars)
  {
  }

  /** With distinct ids the lookup has only one possible answer: the entry
      at the position whose id matches. */
  lemma {:induction false} LookupUnique(k: nat)
    requires k < |Cars|
    ensures GetCarById(Cars[k].id) == Some(Cars[k])
  {
    CatalogIdsDistinct();
    var r := GetCarById(Cars[k].id);
    assert r.Some?;
    var k' :| 0 <= k' < |Cars| && Cars[k'] == r.value;
    assert Cars[k'].id == Cars[k].id;
  }

  /** Every catalog entry has at least two gallery images, so the gallery's
      modulus is never zero and its arrow controls are always shown. */
  lemma CatalogImages()
    ensures forall i :: 0 <= i < |Cars| ==> |Cars[i].images| >= 2
  {
  }

  /** Every catalog entry has positive hour, day and trip rates. */
  lemma CatalogRatesPositive()
    ensures forall i :: 0 <= i < |Cars| ==>
      Cars[i].pricePerHour > 0 && Cars[i].pricePerDay > 0 && Cars[i].pricePerTrip > 0
  {
  }

  lemma CorollaEntry()
    ensures GetCarById("toyota-corolla") == Some(Cars[4])
    ensures Cars[4].pricePerHour == 25 && Cars[4].pricePerDay == 120 && Cars[4].pricePerTrip == 60
  {
    LookupUnique(4);
  }
}
