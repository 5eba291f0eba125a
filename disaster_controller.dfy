/**
 * The HTTP handlers for disasters. Each handler returns the status code, the
 * JSON body and the payloads it hands to `emitDisasterUpdate`. The exported
 * `updateDisaster` and `deleteDisaster` are the later of the two assignments
 * in the file; the earlier, emitting versions are kept as `Legacy*`.
 */
module DisasterController {
  import opened Common
  import opened Protocol
  import DbUtils
  import Geocoding

  /** The JSON body of a response. */
  datatype Body =
    | RowBody(row: Disaster)
    | RowsBody(rows: set<Disaster>)
    | ErrorBody(error: string)
    | CoordinatesBody(coordinates: string)
    | LocationNameBody(locationName: string)
    | Undefined    // res.json(undefined)
    | NoContent    // res.status(204).send()

  /** A handler's observable effect besides the store: the response and the emitted payloads. */
  datatype Response = Response(status: int, body: Body, emitted: seq<EmitArg>)

  /** The body of a create request. */
  datatype CreateRequest = CreateRequest(title: string, locationName: string, description: string, tags: seq<string>, ownerId: string)

  /** The `audit_trail` field of an update request, as `JSON.parse` sees it. */
  datatype RawJson = Absent | Malformed(parseError: string) | Json(text: string)

  /** The body of an update request; a missing field is `None` and is not written. */
  datatype UpdateRequest = UpdateRequest(
    title: Option<string>,
    description: Option<string>,
    tags: Option<seq<string>>,
    status: Option<string>,
    severity: Option<string>,
    auditTrail: RawJson)

  const LOCATION_NAME_REQUIRED: string := "Location name is required"
  const COORDINATES_REQUIRED: string := "Coordinates are required"
  /** The ReferenceError the `reverseGeocode` handler catches: the service function is not imported. */
  const REVERSE_GEOCODE_UNBOUND: string := "reverseGeocode is not defined"
  /** What V8 throws for `JSON.parse(undefined)`. */
  const PARSE_UNDEFINED: string := "\"undefined\" is not valid JSON"

  /** The row `createDisaster` inserts. */
  function NewRow(id: Id, req: CreateRequest, coordinates: string, now: string): (d: Disaster)
    ensures d.id == id && d.location == coordinates && d.auditTrail == CreatedStamp(now)
    ensures d.title == req.title && d.locationName == req.locationName && d.description == req.description
    ensures d.tags == req.tags && d.ownerId == req.ownerId
    ensures d.status.None? && d.severity.None?
  {
    Disaster(id, req.title, req.locationName, coordinates, req.description, req.tags, req.ownerId, None, None, CreatedStamp(now))
  }

  /** `JSON.parse(req.body.audit_trail)`: throws when the field is missing or malformed. */
  function ParseAuditTrail(raw: RawJson): (r: Result<string>)
    ensures r.Ok? <==> raw.Json?
    ensures raw.Absent? ==> r == Err(PARSE_UNDEFINED)
    ensures raw.Malformed? ==> r == Err(raw.parseError)
    ensures raw.Json? ==> r == Ok(raw.text)
  {
    match raw
    case Absent => Err(PARSE_UNDEFINED)
    case Malformed(e) => Err(e)
    case Json(t) => Ok(t)
  }

  /** The columns the exported `updateDisaster` writes: title, description, tags and audit_trail. */
  function Patch(d: Disaster, req: UpdateRequest, now: string, previous: string): (r: Disaster)
    ensures r.id == d.id && r.locationName == d.locationName && r.location == d.location && r.ownerId == d.ownerId
    ensures r.status == d.status && r.severity == d.severity
    ensures r.title == req.title.GetOr(d.title)
    ensures r.description == req.description.GetOr(d.description)
    ensures r.tags == req.tags.GetOr(d.tags)
    ensures r.auditTrail == UpdatedStamp(now, previous)
  {
    d.(title := req.title.GetOr(d.title),
       description := req.description.GetOr(d.description),
       tags := req.tags.GetOr(d.tags),
       auditTrail := UpdatedStamp(now, previous))
  }

  /** The columns the overwritten `updateDisaster` writes: also status and severity. */
  function LegacyPatch(d: Disaster, req: UpdateRequest, now: string, previous: string): (r: Disaster)
    ensures r.(status := d.status, severity := d.severity) == Patch(d, req, now, previous)
    ensures r.status == (if req.status.Some? then req.status else d.status)
    ensures r.severity == (if req.severity.Some? then req.severity else d.severity)
  {
    Patch(d, req, now, previous).(status := if req.status.Some? then req.status else d.status,
                                  severity := if req.severity.Some? then req.severity else d.severity)
  }

  /** The exported `updateDisaster` writes neither status nor severity, whatever the request carries. */
  lemma UpdateIgnoresStatusAndSeverity(d: Disaster, req: UpdateRequest, now: string, previous: string)
    ensures Patch(d, req, now, previous).status == d.status
    ensures Patch(d, req, now, previous).severity == d.severity
    ensures req.status.Some? && req.status != d.status ==>
              LegacyPatch(d, req, now, previous).status != Patch(d, req, now, previous).status
  {
  }

  /**
   * `createDisaster`: geocode the location name, insert the row, emit it,
   * answer 201. A geocoding or store failure answers 400 with the error's
   * message and emits nothing. The inserted object has no id, so the store
   * generates one: `newId` is that fresh id.
   */
  method CreateDisaster(db: DbUtils.Database, geo: Geocoding.GeocodingService, req: CreateRequest,
                        api: Geocoding.ApiResponse, cacheWriteFails: bool, newId: Id, now: string, fault: Option<string>)
    returns (resp: Response)
    requires newId !in db.disasters
    modifies db, geo
    ensures geo.cache == Geocoding.GeocodeStep(old(geo.cache), req.locationName, api, cacheWriteFails).cache
    ensures db.resources == old(db.resources)
    ensures resp.status == 201 || resp.status == 400
    ensures resp.status == 201 <==>
              Geocoding.GeocodeStep(old(geo.cache), req.locationName, api, cacheWriteFails).result.Ok?
              && fault.None?
    ensures resp.status == 201 ==>
              var row := NewRow(newId, req, Geocoding.GeocodeStep(old(geo.cache), req.locationName, api, cacheWriteFails).result.value, now);
              resp.body == RowBody(row) && resp.emitted == [Defined(Row(row))] && db.disasters == old(db.disasters)[newId := row]
    ensures resp.status == 400 ==>
              var step := Geocoding.GeocodeStep(old(geo.cache), req.locationName, api, cacheWriteFails);
              resp.body == ErrorBody(if step.result.Err? then step.result.message else fault.value)
              && resp.emitted == [] && db.disasters == old(db.disasters)
  {
    var coordinates, _ := geo.GeocodeLocation(req.locationName, api, cacheWriteFails);
    if coordinates.Err? {
      return Response(400, ErrorBody(coordinates.message), []);
    }
    if fault.Some? {
      return Response(400, ErrorBody(fault.value), []);
    }
    var row := NewRow(newId, req, coordinates.value, now);
    db.disasters := db.disasters[newId := row];
    resp := Response(201, RowBody(row), [Defined(Row(row))]);
  }

  /**
   * The exported `updateDisaster`: parse the request's audit_trail, update
   * the row with the given id, answer with the updated row (or `undefined`
   * when no row has that id). It emits nothing.
   */
  method UpdateDisaster(db: DbUtils.Database, id: Id, req: UpdateRequest, now: string, fault: Option<string>)
    returns (resp: Response)
    modifies db
    ensures db.resources == old(db.resources)
    ensures resp.emitted == []
    ensures resp.status == 200 <==> req.auditTrail.Json? && fault.None?
    ensures resp.status != 200 ==> resp.status == 400 && resp.body.ErrorBody? && db.disasters == old(db.disasters)
    ensures req.auditTrail.Absent? ==> resp == Response(400, ErrorBody(PARSE_UNDEFINED), [])
    ensures resp.status == 400 ==>
              resp.body == ErrorBody(if ParseAuditTrail(req.auditTrail).Err? then ParseAuditTrail(req.auditTrail).message else fault.value)
    ensures resp.status == 200 && id in old(db.disasters) ==>
              var row := Patch(old(db.disasters)[id], req, now, req.auditTrail.text);
              resp.body == RowBody(row) && db.disasters == old(db.disasters)[id := row]
    ensures resp.status == 200 && id !in old(db.disasters) ==>
              resp.body == Undefined && db.disasters == old(db.disasters)
  {
    var previous := ParseAuditTrail(req.auditTrail);
    if previous.Err? {
      return Response(400, ErrorBody(previous.message), []);
    }
    if fault.Some? {
      return Response(400, ErrorBody(fault.value), []);
    }
    if id in db.disasters {
      var row := Patch(db.disasters[id], req, now, previous.value);
      db.disasters := db.disasters[id := row];
      resp := Response(200, RowBody(row), []);
    } else {
      resp := Response(200, Undefined, []);
    }
  }

  /** The exported `deleteDisaster`: delete the row, answer 204 with no body; emit nothing. */
  method DeleteDisaster(db: DbUtils.Database, id: Id, fault: Option<string>) returns (resp: Response)
    modifies db
    ensures db.resources == old(db.resources)
    ensures fault.Some? ==> resp == Response(400, ErrorBody(fault.value), []) && db.disasters == old(db.disasters)
    ensures fault.None? ==> resp == Response(204, NoContent, []) && db.disasters == old(db.disasters) - {id}
  {
    if fault.Some? {
      return Response(400, ErrorBody(fault.value), []);
    }
    db.disasters := db.disasters - {id};
    resp := Response(204, NoContent, []);
  }

  /**
   * The overwritten `updateDisaster`: as the exported one, but it also
   * writes status and severity and emits the updated row. With no matching
   * row, `data[0]` is undefined and that is what it hands to the emit helper.
   */
  method LegacyUpdateDisaster(db: DbUtils.Database, id: Id, req: UpdateRequest, now: string, fault: Option<string>)
    returns (resp: Response)
    modifies db
    ensures db.resources == old(db.resources)
    ensures resp.status == 200 <==> req.auditTrail.Json? && fault.None?
    ensures resp.status != 200 ==> resp.status == 400 && resp.body.ErrorBody? && resp.emitted == [] && db.disasters == old(db.disasters)
    ensures resp.status == 400 ==>
              resp.body == ErrorBody(if ParseAuditTrail(req.auditTrail).Err? then ParseAuditTrail(req.auditTrail).message else fault.value)
    ensures resp.status == 200 && id in old(db.disasters) ==>
              var row := LegacyPatch(old(db.disasters)[id], req, now, req.auditTrail.text);
              resp.body == RowBody(row) && resp.emitted == [Defined(Row(row))] && db.disasters == old(db.disasters)[id := row]
    ensures resp.status == 200 && id !in old(db.disasters) ==>
              resp.body == Undefined && resp.emitted == [UndefinedArg] && db.disasters == old(db.disasters)
  {
    var previous := ParseAuditTrail(req.auditTrail);
    if previous.Err? {
      return Response(400, ErrorBody(previous.message), []);
    }
    if fault.Some? {
      return Response(400, ErrorBody(fault.value), []);
    }
    if id in db.disasters {
      var row := LegacyPatch(db.disasters[id], req, now, previous.value);
      db.disasters := db.disasters[id := row];
      resp := Response(200, RowBody(row), [Defined(Row(row))]);
    } else {
      resp := Response(200, Undefined, [UndefinedArg]);
    }
  }

  /**
   * The overwritten `deleteDisaster`: delete the row, emit the tombstone
   * `{id, deleted: true}` (whether or not a row matched), answer 204.
   */
  method LegacyDeleteDisaster(db: DbUtils.Database, id: Id, fault: Option<string>) returns (resp: Response)
    modifies db
    ensures db.resources == old(db.resources)
    ensures fault.Some? ==> resp == Response(400, ErrorBody(fault.value), []) && db.disasters == old(db.disasters)
    ensures fault.None? ==> resp == Response(204, NoContent, [Defined(Tombstone(id))]) && db.disasters == old(db.disasters) - {id}
  {
    if fault.Some? {
      return Response(400, ErrorBody(fault.value), []);
    }
    db.disasters := db.disasters - {id};
    resp := Response(204, NoContent, [Defined(Tombstone(id))]);
  }

  /**
   * The `geocodeLocation` handler: a falsy `location_name` answers 400
   * without calling the geocoder; otherwise the geocoder's coordinates, or
   * 400 with its error.
   */
  method GeocodeLocationHandler(geo: Geocoding.GeocodingService, locationName: Option<string>,
                                api: Geocoding.ApiResponse, cacheWriteFails: bool)
    returns (resp: Response, call: Option<Geocoding.Request>)
    modifies geo
    ensures resp.emitted == []
    ensures !Truthy(locationName) ==>
              resp == Response(400, ErrorBody(LOCATION_NAME_REQUIRED), []) && call.None? && geo.cache == old(geo.cache)
    ensures Truthy(locationName) ==>
              var step := Geocoding.GeocodeStep(old(geo.cache), locationName.value, api, cacheWriteFails);
              call == step.call && geo.cache == step.cache &&
              resp == (if step.result.Ok? then Response(200, CoordinatesBody(step.result.value), [])
                       else Response(400, ErrorBody(step.result.message), []))
  {
    if !Truthy(locationName) {
      return Response(400, ErrorBody(LOCATION_NAME_REQUIRED), []), None;
    }
    var coordinates;
    coordinates, call := geo.GeocodeLocation(locationName.value, api, cacheWriteFails);
    if coordinates.Ok? {
      resp := Response(200, CoordinatesBody(coordinates.value), []);
    } else {
      resp := Response(400, ErrorBody(coordinates.message), []);
    }
  }

  /**
   * The `reverseGeocode` handler: a falsy `coordinates` answers 400; any
   * other request also answers 400, with the ReferenceError for the
   * unbound `reverseGeocode`.
   */
  function ReverseGeocodeHandler(coordinates: Option<string>): (resp: Response)
    ensures resp.status == 400 && resp.emitted == []
    ensures resp.body == ErrorBody(COORDINATES_REQUIRED) <==> !Truthy(coordinates)
    ensures Truthy(coordinates) ==> resp.body == ErrorBody(REVERSE_GEOCODE_UNBOUND)
  {
    if !Truthy(coordinates) then Response(400, ErrorBody(COORDINATES_REQUIRED), [])
    else Response(400, ErrorBody(REVERSE_GEOCODE_UNBOUND), [])
  }

  /** `getDisasters`: every row, narrowed by `tags ILIKE '%tag%'` when `tag` is truthy. */
  function GetDisasters(table: map<Id, Disaster>, tag: Option<string>, sem: DbUtils.Semantics, fault: Option<string>): (resp: Response)
    ensures resp.emitted == []
    ensures fault.Some? ==> resp == Response(400, ErrorBody(fault.value), [])
    ensures fault.None? ==> resp.status == 200 && resp.body.RowsBody? && resp.body.rows <= table.Values
    ensures fault.None? && !Truthy(tag) ==> resp.body == RowsBody(table.Values)
  {
    var rows := if Truthy(tag) then set d | d in table.Values && sem.ilike(d.tags, tag.value) else table.Values;
    if fault.Some? then Response(400, ErrorBody(fault.value), [])
    else Response(200, RowsBody(rows), [])
  }

  /** The list endpoint and the socket snapshot query agree on the tag filter. */
  lemma GetDisastersAgreesWithQuery(table: map<Id, Disaster>, tag: Option<string>, sem: DbUtils.Semantics)
    ensures GetDisasters(table, tag, sem, None).body ==
            RowsBody(DbUtils.QueryDisasters(table, DbUtils.Given(DbUtils.Filters(tag, None, None, None)), sem, None).value)
  {
    var f := DbUtils.Filters(tag, None, None, None);
    var q := DbUtils.QueryDisasters(table, DbUtils.Given(f), sem, None).value;
    forall d ensures d in GetDisasters(table, tag, sem, None).body.rows <==> d in q {
      DbUtils.QueryIsConjunction(table, f, sem, d);
    }
  }
}
