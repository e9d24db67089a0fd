/**
 * The `Home` component: the selection, the overlay handles it keeps on the map, the loading
 * flag, and the route lookup that ties them together.  Leaflet layers are modelled as values
 * recording only what the component chose for them; alerts, `console.error` and change
 * detection are recorded, in order, as events.
 */
module HomeComponent {
  import opened Wrappers
  import opened Geometry
  import Registry
  import opened Osrm

  /** Which icon a marker was given: `startIcon` or `endIcon`. */
  datatype Role = StartRole | EndRole

  /** A marker added to the map, at a `[lat, lon]` coordinate. */
  datatype Marker = Marker(at: Pair, role: Role)

  /** A route polyline added to the map, through `[lat, lon]` points in order. */
  datatype Polyline = Polyline(points: seq<Pair>)

  /** An observable side effect: `alert(message)`, `console.error(…)`, `cdr.detectChanges()`. */
  datatype Event = Alert(message: string) | ErrorLogged | ChangesDetected

  const SelectBothMessage := "Please select both start and end locations"
  const DifferentMessage := "Start and end locations must be different"
  const NoRouteMessage := "Could not find a route between the selected locations"
  const FetchErrorMessage := "Error fetching route. Please try again."

  /**
   * What the `try`/`catch` of `fetchRoute` reports for an outcome, before its `finally` runs
   * change detection: nothing for a drawn route, an alert for no route, and a logged error
   * followed by an alert for a failure.
   */
  function Reported(o: Outcome): (r: seq<Event>)
    ensures ChangesDetected !in r
    ensures |r| == (if o.Drawn? then 0 else if o.NoRoute? then 1 else 2)
    ensures r == [] <==> o.Drawn?
    ensures ErrorLogged in r <==> o.Failed?
    ensures !o.Drawn? ==> r[|r| - 1] == Alert(if o.NoRoute? then NoRouteMessage else FetchErrorMessage)
  {
    match o
    case Drawn(_) => []
    case NoRoute => [Alert(NoRouteMessage)]
    case Failed => [ErrorLogged, Alert(FetchErrorMessage)]
  }

  /**
   * The validation at the head of `findRoute`: the message it alerts, or `None` when the
   * selection is acceptable (both picked, and different).  An empty string is falsy.
   */
  function Rejection(start: string, end: string): (m: Option<string>)
    ensures m.None? <==> start != "" && end != "" && start != end
    ensures m == Some(SelectBothMessage) <==> start == "" || end == ""
    ensures m == Some(DifferentMessage) <==> start != "" && end != "" && start == end
  {
    if start == "" || end == "" then Some(SelectBothMessage)
    else if start == end then Some(DifferentMessage)
    else None
  }

  class Home {
    var routeLayer: Option<Polyline>
    var startMarker: Option<Marker>
    var endMarker: Option<Marker>

    const cityCoordinates: map<string, Pair>
    const cities: seq<string>

    var startLocation: string
    var endLocation: string
    var isLoading: bool

    /** The side effects so far, oldest first. */
    var events: seq<Event>

    /** How many `fetchRoute` calls are suspended at their `await`. */
    ghost var outstanding: nat

    /** What a selection box bound to `cities` can hold: nothing picked yet, or one of the cities. */
    predicate Selectable(name: string)
    {
      name == "" || name in cities
    }

    /**
     * The component's invariant: every listed city has a coordinate and every coordinate is
     * listed, the selection holds only selectable names, and the loading flag is down when
     * no request is outstanding.
     */
    ghost predicate Valid()
      reads this
    {
      (forall c :: c in cities <==> c in cityCoordinates)
      && Selectable(startLocation) && Selectable(endLocation)
      && (outstanding == 0 ==> !isLoading)
    }

    constructor ()
      ensures Valid()
      ensures cityCoordinates == Registry.CityCoordinates && cities == Registry.Cities
      ensures routeLayer.None? && startMarker.None? && endMarker.None?
      ensures startLocation == "" && endLocation == "" && !isLoading
      ensures events == [] && outstanding == 0
    {
      Registry.CitiesAreRegistryKeys();
      routeLayer, startMarker, endMarker := None, None, None;
      cityCoordinates := Registry.CityCoordinates;
      cities := Registry.Cities;
      startLocation, endLocation := "", "";
      isLoading := false;
      events := [];
      outstanding := 0;
    }

    /** The two-way binding of the start selection box. */
    method SetStartLocation(name: string)
      requires Valid() && Selectable(name)
      modifies this`startLocation
      ensures Valid() && startLocation == name
    {
      startLocation := name;
    }

    /** The two-way binding of the end selection box. */
    method SetEndLocation(name: string)
      requires Valid() && Selectable(name)
      modifies this`endLocation
      ensures Valid() && endLocation == name
    {
      endLocation := name;
    }

    /**
     * Validates the selection; on success clears the overlays, places a start and an end
     * marker at the registry coordinates of the two cities and starts the route request,
     * whose URL it returns.  A rejected selection only raises an alert.
     */
    method FindRoute() returns (request: Option<seq<Field>>)
      requires Valid()
      modifies this`routeLayer, this`startMarker, this`endMarker, this`isLoading, this`events, this`outstanding
      ensures Valid()
      ensures Rejection(startLocation, endLocation).Some? ==>
        request.None?
        && routeLayer == old(routeLayer) && startMarker == old(startMarker) && endMarker == old(endMarker)
        && isLoading == old(isLoading) && outstanding == old(outstanding)
        && events == old(events) + [Alert(Rejection(startLocation, endLocation).value)]
      ensures Rejection(startLocation, endLocation).None? ==>
        startLocation in cityCoordinates && endLocation in cityCoordinates
        && routeLayer.None?
        && startMarker == Some(Marker(cityCoordinates[startLocation], StartRole))
        && endMarker == Some(Marker(cityCoordinates[endLocation], EndRole))
        && isLoading && outstanding == old(outstanding) + 1 && events == old(events)
        && request == Some(RouteUrl(cityCoordinates[startLocation], cityCoordinates[endLocation]))
    {
      if startLocation == "" || endLocation == "" {
        events := events + [Alert(SelectBothMessage)];
        return None;
      }
      if startLocation == endLocation {
        events := events + [Alert(DifferentMessage)];
        return None;
      }

      ClearRoute();

      var startCoords := Registry.Lookup(cityCoordinates, startLocation).value;
      var endCoords := Registry.Lookup(cityCoordinates, endLocation).value;

      startMarker := Some(Marker(startCoords, StartRole));
      endMarker := Some(Marker(endCoords, EndRole));

      var url := BeginFetch(startCoords, endCoords);
      return Some(url);
    }

    /** The part of `fetchRoute` that runs before its `await`: build the URL, raise the loading flag. */
    method BeginFetch(start: Pair, end: Pair) returns (url: seq<Field>)
      requires Valid()
      modifies this`isLoading, this`outstanding
      ensures Valid()
      ensures url == RouteUrl(start, end)
      ensures isLoading && outstanding == old(outstanding) + 1
    {
      url := RouteUrl(start, end);
      isLoading := true;
      outstanding := outstanding + 1;
    }

    /**
     * The part of `fetchRoute` that runs once the awaited reply is in: draw the route, or
     * alert that there is none, or log and alert the failure; then, in every case, lower the
     * loading flag and run change detection, once.  The markers are not touched.
     */
    method CompleteFetch(reply: Reply)
      requires Valid() && outstanding > 0
      modifies this`routeLayer, this`isLoading, this`events, this`outstanding
      ensures Valid()
      ensures !isLoading && outstanding == old(outstanding) - 1
      ensures routeLayer == if Classify(reply).Drawn? then Some(Polyline(Classify(reply).path)) else old(routeLayer)
      ensures events == old(events) + Reported(Classify(reply)) + [ChangesDetected]
    {
      match Classify(reply) {
        case Drawn(path) =>
          routeLayer := Some(Polyline(path));
        case NoRoute =>
          events := events + [Alert(NoRouteMessage)];
        case Failed =>
          events := events + [ErrorLogged, Alert(FetchErrorMessage)];
      }

      isLoading := false;
      outstanding := outstanding - 1;
      events := events + [ChangesDetected];
    }

    /** Removes the route line and both markers, each only if present; on a cleared map it changes nothing. */
    method ClearRoute()
      modifies this`routeLayer, this`startMarker, this`endMarker
      ensures routeLayer.None? && startMarker.None? && endMarker.None?
      ensures old(routeLayer).None? && old(startMarker).None? && old(endMarker).None? ==> unchanged(this)
    {
      if routeLayer.Some? {
        routeLayer := None;
      }
      if startMarker.Some? {
        startMarker := None;
      }
      if endMarker.Some? {
        endMarker := None;
      }
    }

    /**
     * A whole lookup with no other request outstanding: `findRoute` and then its `fetchRoute`
     * resumed with `reply`.  Afterwards the loading flag is down on every path; an accepted
     * selection leaves exactly its two markers, and a route line exactly when the reply
     * carries a usable route, whose points swapped back are that route's geometry.
     */
    method FindRouteToCompletion(reply: Reply) returns (request: Option<seq<Field>>)
      requires Valid() && outstanding == 0
      modifies this`routeLayer, this`startMarker, this`endMarker, this`isLoading, this`events, this`outstanding
      ensures Valid() && !isLoading && outstanding == 0
      ensures Rejection(startLocation, endLocation).Some? ==>
        request.None?
        && routeLayer == old(routeLayer) && startMarker == old(startMarker) && endMarker == old(endMarker)
        && events == old(events) + [Alert(Rejection(startLocation, endLocation).value)]
      ensures Rejection(startLocation, endLocation).None? ==>
        startLocation in cityCoordinates && endLocation in cityCoordinates
        && request == Some(RouteUrl(cityCoordinates[startLocation], cityCoordinates[endLocation]))
        && startMarker == Some(Marker(cityCoordinates[startLocation], StartRole))
        && endMarker == Some(Marker(cityCoordinates[endLocation], EndRole))
        && (routeLayer.Some? <==> HasRoute(reply) && reply.routes.value[0].geometry.Some?)
        && (routeLayer.Some? ==> SwapAll(routeLayer.value.points) == reply.routes.value[0].geometry.value)
        && events == old(events) + Reported(Classify(reply)) + [ChangesDetected]
    {
      request := FindRoute();
      if request.Some? {
        CompleteFetch(reply);
      }
    }
  }
}
