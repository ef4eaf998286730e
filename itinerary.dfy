/** The map pins of the itinerary page: one pin for each location of the day
    on show that has both coordinates, in the day's order. */
module Itinerary {
  import opened Collections
  import opened Tours

  datatype Pin = Pin(id: nat, name: string, latitude: real, longitude: real, orderInDay: int, locationName: string)

  /** Both coordinates are present (neither `null` nor missing). */
  predicate Located(l: Location) {
    l.latitude.Some? && l.longitude.Some?
  }

  /** The label of a pin: the first event's name, or else the location's. */
  function PinName(l: Location): string {
    if l.events.Some? && |l.events.value| > 0 then l.events.value[0].eventName else l.locationName
  }

  /** The pin of a located location; everything but the name is copied. */
  function PinOf(l: Location): Pin
    requires Located(l)
  {
    Pin(l.locationId, PinName(l), l.latitude.value, l.longitude.value, l.orderInDay, l.locationName)
  }

  /** `locations.filter(loc => loc.latitude != null && loc.longitude != null)`. */
  function LocatedOnly(locations: seq<Location>): (r: seq<Location>)
    ensures IsSubsequence(r, locations)
    ensures forall l :: l in r <==> l in locations && Located(l)
    ensures forall i :: 0 <= i < |r| ==> Located(r[i])
  {
    if locations == [] then []
    else
      assert locations == [locations[0]] + locations[1..];
      if Located(locations[0]) then [locations[0]] + LocatedOnly(locations[1..]) else LocatedOnly(locations[1..])
  }

  /** The pins of a day's locations: the images of its located locations,
      one each, in the same order. */
  function PinsOf(locations: seq<Location>): (r: seq<Pin>)
    ensures |r| == |LocatedOnly(locations)|
    ensures forall i :: 0 <= i < |r| ==> r[i] == PinOf(LocatedOnly(locations)[i])
  {
    if locations == [] then []
    else
      var rest := PinsOf(locations[1..]);
      if Located(locations[0]) then
        var r := [PinOf(locations[0])] + rest;
        assert forall i :: 1 <= i < |r| ==> r[i] == rest[i - 1];
        r
      else
        rest
  }

  /** Pins are made exactly from the located locations. */
  lemma PinsMembers(locations: seq<Location>, p: Pin)
    ensures p in PinsOf(locations) <==> exists l :: l in locations && Located(l) && p == PinOf(l)
  {
    var located := LocatedOnly(locations);
    var pins := PinsOf(locations);
    if p in pins {
      var i :| 0 <= i < |pins| && pins[i] == p;
      assert located[i] in located;
    }
    if exists l :: l in locations && Located(l) && p == PinOf(l) {
      var l :| l in locations && Located(l) && p == PinOf(l);
      assert l in located;
      var i :| 0 <= i < |located| && located[i] == l;
      assert pins[i] == p;
    }
  }

  /** `activeDayPins`. The page reads `itinerary.days` without a guard, so
      a loaded itinerary always carries its day list here. */
  function ActiveDayPins(itinerary: Option<Tour>, activeDayIndex: int): (r: seq<Pin>)
    requires itinerary.Some? ==> itinerary.value.days.Some?
    ensures itinerary.None? || !(0 <= activeDayIndex < |itinerary.value.days.value|) ==> r == []
    ensures itinerary.Some? && 0 <= activeDayIndex < |itinerary.value.days.value| ==>
              r == PinsOf(itinerary.value.days.value[activeDayIndex].locations.GetOr([]))
  {
    if itinerary.None? then []
    else
      var days := itinerary.value.days.value;
      if 0 <= activeDayIndex < |days| then PinsOf(days[activeDayIndex].locations.GetOr([])) else []
  }
}
