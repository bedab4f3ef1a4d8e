/**
 * The Listing record shared by the store and the Browse page, and the
 * fixture the Browse page filters.
 *
 * Units: `price` is whole dollars per month, `hostRating` is tenths of a
 * star (4.8 stars is 48), `createdAt` is the ISO date as a day count since
 * 1970-01-01 (the order of `new Date(createdAt)`).
 */
module Listings {

  datatype Listing = Listing(
    id: string,
    title: string,
    price: int,
    location: string,
    availability: string,
    description: string,
    hostName: string,
    hostRating: int,
    propertyType: string,
    amenities: seq<string>,
    reportCount: int,
    verifiedHost: bool,
    images: seq<string>,
    createdAt: int)

  /** `listings.some(l => l.id === id)`, scanning from the front. */
  function HasId(listings: seq<Listing>, id: string): (found: bool)
    ensures found <==> exists i :: 0 <= i < |listings| && listings[i].id == id
  {
    if listings == [] then false
    else listings[0].id == id || HasId(listings[1..], id)
  }

  /** No two listings share an id. */
  ghost predicate UniqueIds(listings: seq<Listing>) {
    forall i, j :: 0 <= i < j < |listings| ==> listings[i].id != listings[j].id
  }

  /** The four listings the Browse page shows (`mockListings`). */
  function MockListings(): (fixture: seq<Listing>)
    ensures |fixture| == 4 && UniqueIds(fixture)
  {
    [ Listing("1", "Modern 2BR Apartment Near Campus", 1800, "Boston, MA", "Available Now",
        "Beautiful 2-bedroom apartment with modern amenities, close to public transport and universities.",
        "Sarah Johnson", 48, "Apartment", ["WiFi", "Laundry", "Parking", "Pet Friendly"], 0, true,
        ["/placeholder.svg"], 19737),
      Listing("2", "Shared Student Housing", 900, "New York, NY", "Available Feb 1",
        "Affordable shared housing perfect for students. All utilities included.",
        "Mike Chen", 45, "Shared Housing", ["WiFi", "Utilities Included", "Study Area"], 1, true,
        ["/placeholder.svg"], 19732),
      Listing("3", "Luxury Studio Downtown", 2200, "San Francisco, CA", "Available Now",
        "Premium studio apartment in the heart of downtown with stunning city views.",
        "Jennifer Davis", 49, "Studio", ["WiFi", "Gym", "Concierge", "City View"], 0, true,
        ["/placeholder.svg"], 19742),
      Listing("4", "Cozy Room in Family Home", 750, "Austin, TX", "Available Mar 1",
        "Comfortable room in a welcoming family home. Great for international students.",
        "Robert Wilson", 42, "Room", ["WiFi", "Kitchen Access", "Family Friendly"], 2, false,
        ["/placeholder.svg"], 19727) ]
  }
}
