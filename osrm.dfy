/**
 * The exchange with the OSRM route service: the request URL the component builds, the
 * awaited outcome of `fetch` plus `response.json()`, and how the component classifies it.
 */
module Osrm {
  import opened Wrappers
  import opened Geometry

  /**
   * A piece of the request URL: literal text, or a number interpolated into the template
   * (its decimal rendering is not modelled).
   */
  datatype Field = Text(text: string) | Number(value: real)

  const ServicePrefix := "https://router.project-osrm.org/route/v1/driving/"
  const ServiceQuery := "?overview=full&geometries=geojson"

  /** The numbers interpolated into a URL, in order. */
  function Numbers(url: seq<Field>): seq<real> {
    if url == [] then []
    else (if url[0].Number? then [url[0].value] else []) + Numbers(url[1..])
  }

  /**
   * The URL `…/route/v1/driving/{lon},{lat};{lon},{lat}?overview=full&geometries=geojson`
   * for two `[lat, lon]` registry coordinates: longitude first, start before end.
   */
  function RouteUrl(start: Pair, end: Pair): (url: seq<Field>)
    ensures Numbers(url) == [start.second, start.first, end.second, end.first]
    ensures url[0] == Text(ServicePrefix) && url[|url| - 1] == Text(ServiceQuery)
  {
    var url := [Text(ServicePrefix), Number(start.second), Text(","), Number(start.first),
                Text(";"), Number(end.second), Text(","), Number(end.first), Text(ServiceQuery)];
    assert Numbers(url[8..]) == [] by { assert url[8..][1..] == []; }
    assert Numbers(url[7..]) == [end.first] by { assert url[7..][1..] == url[8..]; }
    assert Numbers(url[5..]) == [end.second, end.first] by {
      assert url[5..][1..] == url[6..] && url[6..][1..] == url[7..];
    }
    assert Numbers(url[3..]) == [start.first, end.second, end.first] by {
      assert url[3..][1..] == url[4..] && url[4..][1..] == url[5..];
    }
    assert Numbers(url[1..]) == [start.second, start.first, end.second, end.first] by {
      assert url[1..][1..] == url[2..] && url[2..][1..] == url[3..];
    }
    url
  }

  /** Reads the two `[lat, lon]` coordinates back from a route request URL. */
  function ParseRouteUrl(url: seq<Field>): (r: Option<(Pair, Pair)>)
    ensures r.Some? ==> RouteUrl(r.value.0, r.value.1) == url
  {
    if |url| == 9 && url[0] == Text(ServicePrefix) && url[1].Number? && url[2] == Text(",")
       && url[3].Number? && url[4] == Text(";") && url[5].Number? && url[6] == Text(",")
       && url[7].Number? && url[8] == Text(ServiceQuery)
    then Some((Pair(url[3].value, url[1].value), Pair(url[7].value, url[5].value)))
    else None
  }

  /** The request determines its two endpoints: parsing undoes building. */
  lemma RouteUrlRoundTrip(start: Pair, end: Pair)
    ensures ParseRouteUrl(RouteUrl(start, end)) == Some((start, end))
  {
  }

  /** One element of `data.routes`; `geometry` is `None` when `geometry.coordinates` cannot be read. */
  datatype Route = Route(geometry: Option<seq<Pair>>)

  /**
   * What the awaited `fetch(url)` and `response.json()` produce: a rejected promise, or a
   * parsed body with its `code` and its `routes` (`None` when that property is absent).
   */
  datatype Reply = TransportFailure | Body(code: string, routes: Option<seq<Route>>)

  /** Which branch of the `try`/`catch` a reply takes, with the path to draw on success. */
  datatype Outcome = Drawn(path: seq<Pair>) | NoRoute | Failed

  /** The guard `data.code === 'Ok' && data.routes && data.routes.length > 0`. */
  predicate HasRoute(reply: Reply) {
    reply.Body? && reply.code == "Ok" && reply.routes.Some? && |reply.routes.value| > 0
  }

  /**
   * Classifies a reply.  A route is drawn exactly when the guard holds and the first route's
   * coordinates can be read; the drawn path is that geometry with both axes of every point
   * swapped.  A body failing the guard reports no route; a rejected request, or a first
   * route without readable coordinates (the read throws), lands in the `catch`.
   */
  function Classify(reply: Reply): (o: Outcome)
    ensures o.Drawn? <==> HasRoute(reply) && reply.routes.value[0].geometry.Some?
    ensures o.Drawn? ==> SwapAll(o.path) == reply.routes.value[0].geometry.value
    ensures o.NoRoute? <==> reply.Body? && !HasRoute(reply)
    ensures o.Failed? <==> reply.TransportFailure? || (HasRoute(reply) && reply.routes.value[0].geometry.None?)
  {
    match reply
    case TransportFailure => Failed
    case Body(_, _) =>
      if HasRoute(reply) then
        match reply.routes.value[0].geometry
        case Some(coordinates) =>
          SwapAllInvolutive(coordinates);
          Drawn(SwapAll(coordinates))
        case None => Failed
      else NoRoute
  }
}
