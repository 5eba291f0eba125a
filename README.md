# Disaster live-update core, modelled in Dafny

This project models the real-time part of a disaster-coordination service and
the bookkeeping around it:

- **Server rooms** (`SocketHandler`). socket.io rooms are modelled as a map from
  a tagged room (`disasters`, `disaster_<id>`, `reports_<id>`) to a set of
  socket ids, kept in the class `SocketServer`. The class also holds the
  connection handler's subscribe intents and the three emit helpers. An emit
  returns the multiset of (socket, message) deliveries it causes. Before
  `initializeSocket` assigns the module-level `io`, every emit is a no-op.
- **Client listener registry** (`ClientSocket`). The browser's `SocketService`
  keeps a map from event names to sets of callbacks. The class models `on`,
  `off`, the unsubscribe thunk, `notifyListeners` (a loop over the set) and the
  forwarding of socket messages to listeners.
- **Map page reducer** (`DisasterMap`). The `disaster_updated` handler is a pure
  function of the previous list: a tombstone filters the list, and any other
  update replaces entries in place. The initial fetch replaces the list.
- **Store helpers** (`DbUtils`). These are the filtered snapshot query, the
  nearby-resources query (newest first) and the audit-trail append, over a
  `Database` holding the `disasters` and `resources` tables.
- **Geocoding** (`Geocoding`). This is a cache-aside lookup in front of
  Nominatim. It covers the `POINT(lon lat)` formatting and the space split
  that `reverseGeocode` uses.
- **Disaster handlers** (`DisasterController`). Each HTTP handler returns a
  status, a body and the payloads it hands to `emitDisasterUpdate`.

The store, the HTTP client and the clock are parameters:

- a store failure is `fault: Option<string>`;
- the Nominatim answer is an `ApiResponse`;
- `now` is the timestamp.

The store's text and spatial matching (ILIKE, `within`) are uninterpreted
predicates in `DbUtils.Semantics`.

Behaviours of the code that the model states:

- `emitDisasterUpdate` performs two separate room emits. A socket in both
  `disasters` and `disaster_<id>` therefore receives the update twice
  (`DisasterFanoutCount`, `TwoSubscribersScenario`).
- `subscribe_to_resources` calls `getNearbyResources`, which the handler file
  never imports. It always replies `error` to the requester and joins no room.
  Resource updates go to `disaster_<id>`; there is no resources room and no
  resources snapshot.
- Every connection joins `disasters`, whatever it subscribes to.
  `subscribe_to_disasters` only replies with a snapshot and joins nothing.
- The disconnect handler only logs. Removing the socket from its rooms is
  socket.io's own clean-up, which `Disconnect` models. The code has no
  unsubscribe intent.
- The exported `updateDisaster` and `deleteDisaster` are the second
  assignments in the controller, and they emit nothing. The first, emitting
  versions are modelled as `LegacyUpdateDisaster` and `LegacyDeleteDisaster`.
  Only the legacy delete publishes the tombstone that the map page expects.
- The legacy update with no matching row hands `undefined` to
  `emitDisasterUpdate`. Once `io` is set, `null` then reaches every member of
  `disasters` before reading `undefined.id` rejects the helper's promise
  (`EmitUndefinedDisasterUpdate`).
- The exported `updateDisaster` answers 400 when the request has no
  `audit_trail`, because `JSON.parse(undefined)` throws. It answers 200 with
  an `undefined` body when no row has the id. No handler answers 404.
- The `reverseGeocode` HTTP handler calls a name that the controller does not
  import. It answers 400 for every request.
- `createDisaster` and `updateDisaster` store `audit_trail` as a JSON string.
  `updateAuditTrail` pushes onto the stored value, so it fails with
  `auditTrail.push is not a function` on every row those handlers wrote.
- `queryDisasters` defaults `filters` to `{}` only when the argument is
  missing. A `null` argument throws when `filters.tags` is read.

## Model

| member | source | states |
|---|---|---|
| `SocketHandler.RoomNameInjective` | backend/socket/socketHandler.js:20-52 | Two rooms have the same socket.io name exactly when they are the same tagged room, so `disasters`, `disaster_<id>` and `reports_<id>` never collide. |
| `SocketHandler.Join` | backend/socket/socketHandler.js:35 | After `socket.join(r)`, room `r` holds its old members plus the socket, and every other room is unchanged. |
| `SocketHandler.JoinIdempotent` | backend/socket/socketHandler.js:34-36 | Joining the same room twice leaves the same membership as joining once. |
| `SocketHandler.LeaveAll` | backend/socket/socketHandler.js:54-56 | On disconnect, the socket is in no room, and every other socket's memberships are unchanged. |
| `SocketHandler.Broadcast` | backend/socket/socketHandler.js:73 | `io.to(r).emit(name, data)` reaches exactly the members of `r`, and only with that message. |
| `SocketHandler.BroadcastCount` | backend/socket/socketHandler.js:73 | A room emit delivers the message once to each member and nothing to anyone else. |
| `SocketHandler.BroadcastSize` | backend/socket/socketHandler.js:73 | A room emit makes exactly as many deliveries as the room has members; an empty room makes none. |
| `SocketHandler.DisasterFanout` | backend/socket/socketHandler.js:66-67 | The two emits reach exactly the members of `disasters` and of `disaster_<id>`, with `disaster_updated` and nothing else. |
| `SocketHandler.DisasterFanoutCount` | backend/socket/socketHandler.js:64-69 | A socket receives `disaster_updated` once for each of the rooms `disasters` and `disaster_<id>` it is in. No other message or socket is involved, and the total equals the sum of the two room sizes. |
| `SocketHandler.TwoSubscribersScenario` | backend/socket/socketHandler.js:64-69 | A socket subscribed to disaster 42 gets an update of 42 twice. A socket subscribed only to disaster 7 gets it once, through the default room. |
| `SocketHandler.UndefinedFanout` | backend/socket/socketHandler.js:64-67 | For an `undefined` argument, each member of `disasters` gets `null` exactly once, and nobody else gets anything: the second emit is never reached. |
| `SocketHandler.DisasterListReply` | backend/socket/socketHandler.js:25-29 | A successful query is answered with `disaster_list` and its rows; a failure is answered with `error` and the failure's message. |
| `SocketHandler.SocketServer.constructor` | backend/socket/socketHandler.js:5 | At module load `io` is unset, and there are no rooms and no connections. |
| `SocketHandler.SocketServer.ConnectedInDefaultRoom` | backend/socket/socketHandler.js:16-20 | Every connected socket receives every `disaster_updated`, whatever it subscribed to. |
| `SocketHandler.SocketServer.InitializeSocket` | backend/socket/socketHandler.js:7-13 | `initializeSocket` sets `io` to a fresh server with no rooms. |
| `SocketHandler.SocketServer.Connect` | backend/socket/socketHandler.js:16-20 | Once `io` is set, a connection joins the socket to `disasters`. Before that, nothing changes. The invariant holds: members are connected, and connected sockets are in `disasters`. |
| `SocketHandler.SocketServer.SubscribeToDisaster` | backend/socket/socketHandler.js:34-36 | The socket is added to exactly `disaster_<id>`; all other rooms are unchanged. |
| `SocketHandler.SocketServer.SubscribeToReports` | backend/socket/socketHandler.js:50-52 | The socket is added to exactly `reports_<id>`; all other rooms are unchanged. |
| `SocketHandler.SocketServer.SubscribeToDisasters` | backend/socket/socketHandler.js:23-31 | Rooms are unchanged, and exactly one reply goes to the requester. The reply is `disaster_list` with the query's rows if and only if the query succeeds, and `error` with the query's message otherwise. |
| `SocketHandler.SocketServer.SubscribeToResources` | backend/socket/socketHandler.js:39-47 | Rooms are unchanged. The one reply, to the requester only, is always `error` with the ReferenceError for the unimported `getNearbyResources`. |
| `SocketHandler.SocketServer.Disconnect` | backend/socket/socketHandler.js:54-56 | Disconnecting adds no application state. The socket leaves every room, and no other membership changes. |
| `SocketHandler.SocketServer.EmitDisasterUpdate` | backend/socket/socketHandler.js:64-69 | Before `io` is set there are no deliveries. Afterwards the deliveries are those of the two separate emits, counted by `DisasterFanoutCount`. |
| `SocketHandler.SocketServer.EmitUndefinedDisasterUpdate` | backend/socket/socketHandler.js:64-69 | Before `io` is set there are no deliveries and the promise resolves. Afterwards the deliveries are those of `UndefinedFanout`, and the promise rejects. |
| `SocketHandler.SocketServer.EmitResourceUpdate` | backend/socket/socketHandler.js:71-75 | Each member of `disaster_<resource.disaster_id>` gets `resource_updated` exactly once, and nobody else gets anything. There are no deliveries before `io` is set or when the room is empty. |
| `SocketHandler.SocketServer.EmitReportUpdate` | backend/socket/socketHandler.js:77-81 | Each member of `reports_<report.disaster_id>` gets `report_updated` exactly once, and nobody else gets anything. There are no deliveries before `io` is set or when the room is empty. |
| `ClientSocket.AddListener` | frontend/src/services/socketService.js:43-47 | After `on(e, cb)`, key `e` exists and its set is the old set plus `cb`. Other events are unchanged, and no event maps to an empty set. |
| `ClientSocket.RemoveListener` | frontend/src/services/socketService.js:51-59 | After `off(e, cb)`, `cb` is gone from `e`'s set. Key `e` remains only if its set is still non-empty, other events are unchanged, and no event maps to an empty set. |
| `ClientSocket.AddListenerIdempotent` | frontend/src/services/socketService.js:47 | Registering the same callback twice keeps one copy. |
| `ClientSocket.RemoveAbsentIsNoop` | frontend/src/services/socketService.js:51-54 | `off` on an unknown event or an unregistered callback changes nothing. |
| `ClientSocket.OnThenUnsubscribeRestores` | frontend/src/services/socketService.js:43-49 | Calling the thunk that `on` returned restores the registry, provided the callback was not registered before. |
| `ClientSocket.SocketService.constructor` | frontend/src/services/socketService.js:6-10 | The service starts with an empty registry. |
| `ClientSocket.SocketService.On` | frontend/src/services/socketService.js:43-49 | `on` updates the registry as `AddListener` does, keeps the no-empty-set invariant, and returns the thunk for `(event, callback)`. |
| `ClientSocket.SocketService.Off` | frontend/src/services/socketService.js:51-59 | `off` updates the registry as `RemoveListener` does and keeps the no-empty-set invariant. |
| `ClientSocket.SocketService.Call` | frontend/src/services/socketService.js:48 | The thunk's effect is exactly `off(event, callback)`. |
| `ClientSocket.SocketService.NotifyListeners` | frontend/src/services/socketService.js:36-41 | Each callback registered for the event is called exactly once, with `data`. With no listeners, nothing is called. |
| `ClientSocket.SocketService.Receive` | frontend/src/services/socketService.js:12-34 | `disaster_updated`, `resource_updated` and `report_updated` reach each listener of the same name once. Every other message reaches no listener. |
| `DisasterMap.WithoutId` | frontend/src/components/DisasterMap.jsx:14 | The filtered list holds exactly the entries whose id differs from the tombstone's, and it is no longer than the input. |
| `DisasterMap.ReplaceById` | frontend/src/components/DisasterMap.jsx:16-18 | The mapped list has the same length. Each position holds the new row where the id matches and the old entry otherwise. |
| `DisasterMap.OnDisasterUpdated` | frontend/src/components/DisasterMap.jsx:12-20 | A tombstone leaves no entry with its id, and an update keeps the length. No entry appears that was neither in the list nor the update itself. |
| `DisasterMap.OnFetch` | frontend/src/components/DisasterMap.jsx:33-40 | A successful fetch replaces the whole list with the response. A failed fetch leaves the list as it was. |
| `DisasterMap.TombstoneRemovesExactly` | frontend/src/components/DisasterMap.jsx:13-14 | A tombstone removes every entry with its id and keeps every other entry as many times as it occurred. |
| `DisasterMap.TombstoneKeepsOrder` | frontend/src/components/DisasterMap.jsx:14 | The remaining entries keep their order, because filtering distributes over concatenation. |
| `DisasterMap.UpdateReplacesInPlace` | frontend/src/components/DisasterMap.jsx:15-18 | A non-deleted update keeps the length, replaces entries with a matching id and leaves the others untouched. |
| `DisasterMap.AbsentIdLeavesListUnchanged` | frontend/src/components/DisasterMap.jsx:12-20 | An event whose id is not in the list leaves the list unchanged. |
| `DisasterMap.NeverAppends` | frontend/src/components/DisasterMap.jsx:12-20 | No event adds an id or lengthens the list. |
| `DisasterMap.OnDisasterUpdatedIdempotent` | frontend/src/components/DisasterMap.jsx:12-20 | Applying the same event twice gives the same list as applying it once. |
| `DisasterMap.FetchedIdsBoundTheList` | frontend/src/components/DisasterMap.jsx:12-36 | After the initial fetch, any sequence of events leaves only fetched ids in the list, and never more entries than were fetched. |
| `DbUtils.QueryDisasters` | backend/utils/dbUtils.js:3-28 | A `null` argument throws, and a store error is rethrown. Otherwise the result is a subset of the table. |
| `DbUtils.QueryIsConjunction` | backend/utils/dbUtils.js:5-19 | The filter-by-filter narrowing returns a row if and only if it is in the table and satisfies every truthy filter: tags ILIKE, status =, severity =, location within. |
| `DbUtils.QueryWithoutFiltersReturnsAll` | backend/utils/dbUtils.js:3-5 | A missing argument (default `{}`), or filters that are all falsy, return every row. |
| `DbUtils.ExtraFilterNarrows` | backend/utils/dbUtils.js:8-19 | Supplying more filters can only narrow the result. |
| `DbUtils.OrderNewestFirst` | backend/utils/dbUtils.js:46 | Ordering by `created_at` descending gives a newest-first list with the same rows and multiplicities. |
| `DbUtils.WithinRadius` | backend/utils/dbUtils.js:45 | The result holds exactly the resources within the radius of the centre. |
| `DbUtils.WithinRadiusKeepsMultiplicity` | backend/utils/dbUtils.js:45 | The radius filter keeps each resource within the radius with its store multiplicity and drops every other resource. |
| `DbUtils.GetNearbyResources` | backend/utils/dbUtils.js:30-54 | An absent disaster gives "Disaster not found", and a store error is rethrown. Otherwise the result is newest first and holds exactly the resources within the radius (default 10000) of the disaster's location. |
| `DbUtils.NearbyIsPermutation` | backend/utils/dbUtils.js:30-54 | Each resource within the radius of the disaster is returned exactly as often as the store holds it, and every other resource not at all. |
| `DbUtils.AppendAuditEntry` | backend/utils/dbUtils.js:68-73 | A missing trail counts as `[]`, and an array trail gets the entry pushed at its end with earlier entries kept. A string trail fails, because strings have no `push`. |
| `DbUtils.Database.UpdateAuditTrail` | backend/utils/dbUtils.js:56-85 | An absent id fails with "Disaster not found", and a string trail or a write error fails too; any failure writes nothing. On success the same row's trail becomes the old entries plus one `{action, details, timestamp}` entry, and nothing else changes. |
| `Geocoding.Split` | backend/services/geocodingService.js:68-69 | `split(' ')` always yields at least one token, and no token contains the separator. |
| `Geocoding.JoinSplit` | backend/services/geocodingService.js:68-69 | Joining the tokens with the separator gives the original string back. |
| `Geocoding.SplitJoin` | backend/services/geocodingService.js:68-69 | Splitting a join of separator-free parts gives the parts back. |
| `Geocoding.SplitCount` | backend/services/geocodingService.js:68-69 | `split(' ')` yields two or more tokens if and only if the string contains a space. |
| `Geocoding.FormatPoint` | backend/services/geocodingService.js:33 | `POINT(${lon} ${lat})` puts longitude first. For space-free coordinates it splits into exactly the two tokens `POINT(<lon>` and `<lat>)`. |
| `Geocoding.SplitFirstToken` | backend/services/geocodingService.js:68-69 | The first token of `split(' ')` is a prefix of the string, followed by a space or by the end of the string. |
| `Geocoding.SplitRest` | backend/services/geocodingService.js:68-69 | After the first token and its space, the remaining tokens are the split of the rest of the string. |
| `Geocoding.ReverseParams` | backend/services/geocodingService.js:66-71 | `lon` is always defined: the text before the first space, or the whole string. `lat` is defined if and only if the string contains a space. It is then the text after the first space, up to the next space or the end. |
| `Geocoding.ReverseParamsOfPoint` | backend/services/geocodingService.js:64-71 | For a stored `POINT(lon lat)` string, the request sends `lon` as `POINT(<lon>` (first token) and `lat` as `<lat>)` (second token). |
| `Geocoding.GeocodeStep` | backend/services/geocodingService.js:6-50 | A cache hit returns the cached coordinates with no request and no write. A miss sends one search for the name. On a miss, an empty answer fails with "Location not found" and a network error is rethrown, each leaving the cache unchanged. A success stores the name unless the silent write failed, and no other entry changes. |
| `Geocoding.GeocodeMissFormatsFirstResult` | backend/services/geocodingService.js:32-33 | On a miss with results, the answer is `POINT(<lon> <lat>)` from the first result, longitude first. |
| `Geocoding.GeocodeRepeatHits` | backend/services/geocodingService.js:9-45 | After a successful lookup whose write went through, looking up the same name again hits the cache. It returns the same value, makes no request and does not write. |
| `Geocoding.ReverseStep` | backend/services/geocodingService.js:52-96 | When exactly one cached name has the coordinates, that name is returned with no request and no write. Otherwise one request is sent with the split tokens. An empty answer fails with "Location not found" and a network error is rethrown, each leaving the cache unchanged. A success upserts only the returned name, unless the silent write failed. |
| `Geocoding.ReverseMissStoresDisplayName` | backend/services/geocodingService.js:79-91 | A successful miss returns the first result's `display_name`, even when the silent cache write fails. When the write goes through, `(display_name, coordinates)` is upserted. |
| `Geocoding.GeocodingService.GeocodeLocation` | backend/services/geocodingService.js:6-50 | The method's result, request and new cache are those of `GeocodeStep`. |
| `Geocoding.GeocodingService.ReverseGeocode` | backend/services/geocodingService.js:52-96 | The method's result, request and new cache are those of `ReverseStep`. |
| `DisasterController.NewRow` | backend/controllers/disasterController.js:13-26 | The inserted row carries the request's fields and the geocoded location. Its audit trail is the created-at stamp, and status and severity are left unwritten. |
| `DisasterController.ParseAuditTrail` | backend/controllers/disasterController.js:154 | Parsing succeeds only for a JSON text, and yields that text. A missing field throws V8's `"undefined" is not valid JSON`, and a malformed one throws its own parse error. |
| `DisasterController.Patch` | backend/controllers/disasterController.js:144-156 | The exported update writes title, description and tags where the request gives them, and replaces the audit trail. Every other column, status and severity included, keeps its value. |
| `DisasterController.LegacyPatch` | backend/controllers/disasterController.js:42-56 | The overwritten update writes the same columns as `Patch`, plus status and severity where the request gives them. |
| `DisasterController.UpdateIgnoresStatusAndSeverity` | backend/controllers/disasterController.js:141-158 | The exported update never changes status or severity. Where the request changes status, it differs from the overwritten version. |
| `DisasterController.CreateDisaster` | backend/controllers/disasterController.js:6-37 | The answer is 201 if and only if geocoding and the insert succeed. Then the row is inserted under the store's fresh id, returned and emitted exactly once. Otherwise the answer is 400 with the geocoder's error message, or the store's if geocoding succeeded. Nothing is emitted and the table is unchanged. |
| `DisasterController.UpdateDisaster` | backend/controllers/disasterController.js:141-166 | Nothing is emitted. The answer is 400 without a parseable `audit_trail` or on a store error, and the table is then unchanged. The 400 body carries the parse error's message, or else the store's. Otherwise the answer is 200: a found row is patched and returned, an absent id gets an `undefined` body. |
| `DisasterController.DeleteDisaster` | backend/controllers/disasterController.js:168-183 | Nothing is emitted. The row is removed with a 204 and an empty body. A store error answers 400 and removes nothing; there is never a 404. |
| `DisasterController.LegacyUpdateDisaster` | backend/controllers/disasterController.js:39-69 | The overwritten update also writes status and severity, and emits the updated row once when the id exists. For an absent id it answers 200 with an `undefined` body and hands `undefined` to the emit helper once. On failure it emits nothing and answers 400 with the parse error's message, or else the store's. |
| `DisasterController.LegacyDeleteDisaster` | backend/controllers/disasterController.js:71-90 | The overwritten delete emits the tombstone `{id, deleted: true}` once, even when no row matched, and answers 204. A store error emits nothing. |
| `DisasterController.GeocodeLocationHandler` | backend/controllers/disasterController.js:92-105 | A missing or empty name answers 400 "Location name is required" with no geocoder call and no cache change. Otherwise the geocoder's coordinates come back with 200, or its error with 400. |
| `DisasterController.ReverseGeocodeHandler` | backend/controllers/disasterController.js:107-120 | Every request answers 400: "Coordinates are required" if and only if the coordinates are falsy, and otherwise the ReferenceError for the unbound `reverseGeocode`. |
| `DisasterController.GetDisasters` | backend/controllers/disasterController.js:122-139 | Without a tag every row is returned with 200; with a tag the result is a subset of the rows. A store error answers 400. |
| `DisasterController.GetDisastersAgreesWithQuery` | backend/controllers/disasterController.js:127-129 | The list endpoint's tag filter returns the same rows as the snapshot query with only `tags` set. |

## Left out

- socket.io's own internals (adapter, packet encoding, acknowledgements, CORS) and the HTTP layer (express routing, status-code plumbing) are not modelled. `backend/server.js` creates its own `io` and never calls `initializeSocket`; it is not part of this model.
- Asynchrony is not modelled. Each handler runs as one atomic step, although the source awaits between the geocoder, the store and the emit. Races are not modelled: fetch against socket events, a read against the write in `updateAuditTrail`, or a disconnect during an emit.
- Store semantics are left abstract. ILIKE and `within` are uninterpreted predicates. Rows returned by unordered queries are a set, because the store's row order is not modelled.
- A failing *read* in `getNearbyResources` or `updateAuditTrail` has no parameter of its own. In the source such a read behaves like an absent row ("Disaster not found").
- A failing cache *read* in `geocodeLocation` or `reverseGeocode` has no parameter either. The source ignores the read's error, so such a read is a miss that calls Nominatim and upserts. `GeocodeStep` and `ReverseStep` decide hit or miss from the cache contents alone.
- An update field sent as JSON `null` writes NULL in the source. The model's `UpdateRequest` has no such value: `None` means the field is absent (`undefined`) and is not written.
- Timestamps (`new Date()`) are the `now` parameter. `JSON.parse`/`JSON.stringify` are abstracted: the stored stamps are the `CreatedStamp` and `UpdatedStamp` constructors, and a parse outcome is `RawJson`.
- `createDisaster` request fields are plain strings; missing (`undefined`) create fields are not modelled.
- The geocoding cache is a map keyed by location name. This assumes `location_name` is the table's conflict key for `upsert`.
- Socket handlers require the socket to be connected, since socket.io only runs a socket's handlers after its connection handler.
- `SocketService` callbacks are opaque ids. What a callback does, and re-entrant calls to `off` from inside `notifyListeners`, are not modelled.
- NotifyListeners: invocation order is not modelled. `Set.forEach` calls callbacks in insertion order, while the loop picks the next callback arbitrarily. The contract states only that each callback is called exactly once, with `data`.
- The client's `subscribeTo*` methods, and the `connect`/`disconnect` log handlers, are transport calls or logging and are not modelled.
- The rejected promise of `emitDisasterUpdate(undefined)` is never awaited. What the Node process does with the unhandled rejection is not modelled. Neither is the map page's handler failing on the `null` payload, since `OnDisasterUpdated` takes only rows and tombstones.
- The rendering part of the map page, the other pages, the Gemini, social-media and geospatial services, and the integration tests are outside this model. The geospatial `getNearbyResources` duplicates `DbUtils.GetNearbyResources`.
