/** The itinerary of one tour group as `GET /tours/:groupId` returns it:
    days, each with its locations, each with its events. Any list the server
    may leave out (`null`/missing) is an `Option`. Coordinates are only
    copied, never computed with, so they keep the type `real`. */
module Tours {
  import opened Collections

  datatype TourEvent = TourEvent(eventId: nat, eventName: string)

  datatype Location = Location(
    locationId: nat, locationName: string,
    latitude: Option<real>, longitude: Option<real>,
    orderInDay: int, events: Option<seq<TourEvent>>)

  datatype Day = Day(dayId: nat, dayNumber: int, locations: Option<seq<Location>>)

  datatype Tour = Tour(days: Option<seq<Day>>)
}
