# Route lookup of the roadways `Home` component, in Dafny

The `Home` component of the roadways Angular application lets a user pick a start and an
end city in Sri Lanka and draws the driving route between them on a Leaflet map. The route
itself comes from the public OSRM route service. This project models the component's route
lookup as a state machine and proves what each transition does:

- the fixed city registry (`cityCoordinates`) and the selectable list `cities`, which is
  `Object.keys` of it;
- `findRoute`: it validates the selection, clears the overlays, places the start and end
  markers at the registry coordinates, and starts the request;
- `fetchRoute`: it builds the OSRM request URL longitude first and raises `isLoading`. Once
  the reply arrives it draws the first route with its axes swapped, or reports that there is
  no route, or logs and reports a failure. It lowers `isLoading` in every branch;
- `clearRoute`: it removes the route line and both markers, each only if present.

Modules:

- `Wrappers` (`wrappers.dfy`): `Option`, standing for a field that may be `undefined`.
- `Geometry` (`geometry.dfy`): coordinate pairs, treated as opaque and only reordered. It
  holds the per-point axis swap and its lift to a whole geometry.
- `Registry` (`registry.dfy`): the object literal as written (`Entries`). `ObjectLiteral`
  gives the map it evaluates to, with later properties overriding earlier ones.
  `ObjectKeys` models `Object.keys` for names that are not array indices (first-definition
  order, no repeats). `CityCoordinates` and `Cities` are the two applied to `Entries`. The
  registry lemmas show that the 25 names are distinct and none is an array index, so
  `cities` is exactly those names in written order. They also show that each city resolves
  to the coordinate written beside it.
- `Osrm` (`osrm.dfy`): the request URL as a list of text and number fields, and the awaited
  reply as a datatype. A reply is a rejected request or a parsed body with `code` and
  `routes`. `Classify` gives which branch of the `try`/`catch` the reply takes.
- `HomeComponent` (`home.dfy`): the class `Home`. Its fields are those of the component;
  `events` records `alert`, `console.error` and `detectChanges` in order. `fetchRoute` is
  split at its awaits: `BeginFetch` is the part before `await fetch(url)`, and
  `CompleteFetch(reply)` is the part after `await response.json()`. One `Reply` stands for
  the outcome of both awaits. The ghost field `outstanding` counts requests still waiting
  for their reply.
  The invariant `Valid()` says that `cities` and `cityCoordinates` have the same names, that
  the selection holds `""` or a listed city, and that `isLoading` is false when nothing is
  outstanding.

Inputs that come from outside are parameters: the reply of `fetch` plus `response.json()`,
and the values the two selection boxes write into `startLocation`/`endLocation`. The markup
is not part of this model. The `Selectable` requirement on `SetStartLocation` and
`SetEndLocation` is the assumption that each box offers only `cities` and an empty default.

## Model

| member | source | states |
|---|---|---|
| Geometry.SwapAll | src/app/home/home.ts:128-130 | the drawn path has as many points as the returned geometry, and point i is point i of the geometry with its two components exchanged |
| Geometry.SwapAllInvolutive | src/app/home/home.ts:128-130 | swapping the axes twice gives back the original geometry |
| Registry.ObjectLiteral | src/app/home/home.ts:18-44 | the object's keys are exactly the property names written, and the last property written holds its value |
| Registry.ObjectKeys | src/app/home/home.ts:46 | `Object.keys` lists exactly the keys of the object, each once |
| Registry.ObjectLiteralAt | src/app/home/home.ts:18-44 | with no name repeated, each key of the object holds the value written beside it |
| Registry.KeysInLiteralOrder | src/app/home/home.ts:18-46 | with no name repeated, `Object.keys` lists the names in the order the literal writes them |
| Registry.PropertyNames | src/app/home/home.ts:18-44 | the names of the literal, position by position |
| Registry.RegistryNamesAsWritten | src/app/home/home.ts:18-43 | the literal's property names are the 25 city names, Colombo first and Ampara last |
| Registry.RegistryNamesDistinct | src/app/home/home.ts:18-43 | no city name is written twice |
| Registry.RegistryNamesNotIndices | src/app/home/home.ts:18-43 | no city name is a run of digits, so none is an array index |
| Registry.CitiesInLiteralOrder | src/app/home/home.ts:18-46 | `cities` is exactly the 25 names in the order the literal writes them |
| Registry.CoordinatesAsWritten | src/app/home/home.ts:18-44 | the read `cityCoordinates[name]` (as `findRoute` does it at lines 101-102) is defined exactly for the listed cities, and for each it is the coordinate written beside that name |
| Registry.CitiesAreRegistryKeys | src/app/home/home.ts:46 | a name is in `cities` exactly when it is a key of `cityCoordinates` |
| Registry.CitiesListedOnce | src/app/home/home.ts:46 | no city is listed twice, and the list is as long as the registry has keys |
| Osrm.RouteUrl | src/app/home/home.ts:119 | the request starts with the OSRM driving-route path and ends with the overview/geojson query; its numbers are start longitude, start latitude, end longitude, end latitude, in that order |
| Osrm.ParseRouteUrl | src/app/home/home.ts:119 | a URL read as two coordinates is exactly the request built from those coordinates |
| Osrm.RouteUrlRoundTrip | src/app/home/home.ts:119 | reading a request back gives its start and end coordinates |
| Osrm.Classify | src/app/home/home.ts:123-147 | a route is drawn exactly when the code is `'Ok'`, `routes` is present and non-empty, and the first route's coordinates can be read; the drawn path swapped back is that geometry; a body failing the guard is "no route"; a rejected request or an unreadable first geometry is a failure |
| HomeComponent.Reported | src/app/home/home.ts:127-147 | a drawn route reports nothing; "no route" reports exactly its alert; a failure reports the logged error and then its alert; so every branch that is not drawn alerts exactly once, only a failure logs an error, and change detection is never part of it |
| HomeComponent.Rejection | src/app/home/home.ts:88-96 | the selection is accepted exactly when both names are non-empty and different; otherwise the alert is "select both" when one is empty and "must be different" when they are equal |
| HomeComponent.Home.constructor | src/app/home/home.ts:13-50 | no overlays, empty selection, not loading, nothing outstanding; `cityCoordinates` and `cities` are the registry object and its key list |
| HomeComponent.Home.SetStartLocation | src/app/home/home.ts:48 | the start selection becomes the chosen name and the invariant is kept |
| HomeComponent.Home.SetEndLocation | src/app/home/home.ts:49 | the end selection becomes the chosen name and the invariant is kept |
| HomeComponent.Home.FindRoute | src/app/home/home.ts:87-116 | a rejected selection alerts once and changes no overlay, not `isLoading` and nothing outstanding. An accepted one leaves no route line, exactly a start marker at the start city's coordinate and an end marker at the end city's coordinate, `isLoading` raised, one more request outstanding, and the request for those two coordinates. The selection is never changed |
| HomeComponent.Home.BeginFetch | src/app/home/home.ts:118-121 | returns the request URL for the two coordinates, raises `isLoading` and records one more outstanding request |
| HomeComponent.Home.CompleteFetch | src/app/home/home.ts:123-151 | `isLoading` is false afterwards in every branch and one request fewer is outstanding. The route layer becomes the swapped first geometry exactly when `Classify` says drawn, and is untouched otherwise. The markers are untouched. The events gained are the branch's report followed by exactly one change detection |
| HomeComponent.Home.ClearRoute | src/app/home/home.ts:154-167 | afterwards route line, start marker and end marker are all absent and nothing else has changed; on a cleared component it changes nothing, so a second call gives the state the first left |
| HomeComponent.Home.FindRouteToCompletion | src/app/home/home.ts:87-152 | with no other request outstanding, a lookup whose reply arrives with nothing else in between ends with `isLoading` false. An accepted selection leaves its two markers at the registry coordinates and a route line exactly when the reply carries a usable route, and that line swapped back is the route's geometry. A rejected selection only alerts |

## Left out

- Leaflet rendering is not modelled: `L.map`, the tile layer, icons, popups and their labels, polyline styling, `fitBounds` and its padding. A layer is modelled as the value the component keeps in its field; `addTo` and `removeLayer` are modelled only as that field becoming present or absent. The map's own list of layers is not modelled.
- `initMap`/`ngOnInit` only call Leaflet and are not modelled.
- `fetch`, `response.json()` and the OSRM service are not modelled. Their awaited outcome is the `Reply` parameter of `CompleteFetch`. A body that is not an object, or that has no `code`, is covered by `TransportFailure` or by a `code` other than `"Ok"`.
- Osrm.RouteUrl: the decimal rendering of the numbers in the URL is not modelled. The URL is a list of text and number fields, and only the order of the fields is stated.
- Coordinates are opaque pairs of `real`. Their ranges and floating-point nature are not modelled.
- `alert`, `console.error` and `cdr.detectChanges()` are recorded as abstract events. Message texts are kept; the logged error value is not.
- Which reply belongs to which request is not modelled. Overlapping lookups are allowed: `FindRoute` may start a new request while earlier ones are outstanding, and `CompleteFetch` may then apply any one reply. Its `Reply` parameter carries no link to the request that produced it. `outstanding` counts the requests, and `Valid()` claims only that `isLoading` is false when none is outstanding. The model shows, as the source does, that a late reply overwrites `routeLayer`; the polyline it replaces is not removed from the map.
- Registry.Lookup: names inherited from `Object.prototype` (`toString`, `constructor`, `__proto__` and the like) are not modelled. For those the read gives `None`, where the source would return the inherited member. `Valid()` and `Selectable` keep the selection from ever holding such a name.
- Registry.ObjectKeys: names that are array indices are not modelled; `Object.keys` would list those first, in numeric order. `RegistryNamesNotIndices` shows that none of the 25 city names is such a name.
- A selection holding a name that is not a city (the `cityCoordinates[...]` read giving `undefined`) is excluded by `Valid()`. The model does not follow what Leaflet would do with an `undefined` coordinate.
