/**
 * The trip records the planner returns. Fields the source declares with a default
 * take that default here too (`Field(None)`, `default_factory=list`, `default=1`);
 * the others must be given. Floats are modelled as `real`.
 */
module Schemas {
  import opened Wrappers

  datatype Coordinate = Coordinate(lat: real, lng: real, address: Option<string> := None)

  datatype TripNode = TripNode(
    name: string,
    description: string,
    startTime: Option<string> := None,
    endTime: Option<string> := None,
    coordinates: Option<Coordinate> := None,
    cost: Option<string> := None,
    kind: Option<string> := None)

  datatype DailyItinerary = DailyItinerary(
    day: int,
    summary: string,
    date: Option<string> := None,
    nodes: seq<TripNode> := [])

  datatype Note = Note(category: string, content: string)

  datatype Trip = Trip(
    destination: string,
    startDate: Option<string> := None,
    endDate: Option<string> := None,
    budget: Option<string> := None,
    interests: seq<string> := [],
    travelers: int := 1,
    itinerary: seq<DailyItinerary> := [],
    notes: seq<Note> := [])

  /** A trip built from its one required field has every default of the schema. */
  lemma TripDefaults(destination: string)
    ensures var t := Trip(destination);
      && t.destination == destination
      && t.startDate == None && t.endDate == None && t.budget == None
      && t.interests == [] && t.travelers == 1 && t.itinerary == [] && t.notes == []
  {
  }

  lemma TripNodeDefaults(name: string, description: string)
    ensures var n := TripNode(name, description);
      && n.name == name && n.description == description
      && n.startTime == None && n.endTime == None && n.coordinates == None
      && n.cost == None && n.kind == None
  {
  }

  lemma DailyItineraryDefaults(day: int, summary: string)
    ensures var d := DailyItinerary(day, summary);
      d.day == day && d.summary == summary && d.date == None && d.nodes == []
  {
  }

  lemma CoordinateDefaults(lat: real, lng: real)
    ensures Coordinate(lat, lng).address == None
  {
  }
}
