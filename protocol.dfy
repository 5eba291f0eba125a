/**
 * The records that travel between the store, the server and the browser:
 * disaster rows, resources, reports, the `disaster_updated` payload and the
 * socket.io messages (an event name and its single argument).
 */
module Protocol {
  import opened Common

  /** Row identifiers as they appear in room names and payloads. */
  type Id = string

  /** One element of the array that `updateAuditTrail` maintains. */
  datatype AuditEntry = AuditEntry(action: string, details: string, timestamp: string)

  /**
   * The `audit_trail` column. The controller writes it as a JSON *string*
   * (`CreatedStamp` stands for `JSON.stringify({created_at})`, `UpdatedStamp`
   * for `JSON.stringify({updated_at, ...JSON.parse(previous)})`), while
   * `updateAuditTrail` expects an array (`Entries`) or nothing (`NoTrail`).
   */
  datatype AuditTrail =
    | NoTrail
    | CreatedStamp(createdAt: string)
    | UpdatedStamp(updatedAt: string, previous: string)
    | Entries(entries: seq<AuditEntry>)

  /** A row of the `disasters` table; `status` and `severity` are `None` when never written. */
  datatype Disaster = Disaster(
    id: Id,
    title: string,
    locationName: string,
    location: string,
    description: string,
    tags: seq<string>,
    ownerId: string,
    status: Option<string>,
    severity: Option<string>,
    auditTrail: AuditTrail)

  /** The argument of `disaster_updated`: a full row, or the tombstone `{id, deleted: true}`. */
  datatype DisasterMsg = Row(row: Disaster) | Tombstone(deletedId: Id) {
    /** The `id` field of the payload. */
    function Id(): Id {
      match this
      case Row(d) => d.id
      case Tombstone(id) => id
    }
    /** Whether the payload's `deleted` field is truthy. */
    predicate Deleted() {
      Tombstone?
    }
  }

  /** The argument a handler passes to `emitDisasterUpdate`: a payload, or `undefined` (`data[0]` of an empty result). */
  datatype EmitArg = Defined(msg: DisasterMsg) | UndefinedArg

  /** A row of the `resources` table; `createdAt` orders rows in time. */
  datatype Resource = Resource(id: Id, disasterId: Id, name: string, location: string, createdAt: int)

  /** A row of the `reports` table. */
  datatype Report = Report(id: Id, disasterId: Id, content: string)

  /** The single argument carried by a socket.io message. */
  datatype Payload =
    | DisasterData(msg: DisasterMsg)
    | ResourceData(resource: Resource)
    | ReportData(report: Report)
    | DisasterRows(rows: set<Disaster>)
    | ResourceRows(resources: seq<Resource>)
    | ErrorData(message: string)
    | NullData    // an `undefined` argument, which arrives as `null`

  /** A socket.io message: `socket.emit(name, data)`. */
  datatype Message = Message(name: string, data: Payload)

  const DISASTER_UPDATED: string := "disaster_updated"
  const RESOURCE_UPDATED: string := "resource_updated"
  const REPORT_UPDATED: string := "report_updated"
  const DISASTER_LIST: string := "disaster_list"
  const RESOURCE_LIST: string := "resource_list"
  const ERROR: string := "error"
}
