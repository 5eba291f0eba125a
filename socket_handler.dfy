/**
 * The server's socket.io layer: rooms that map to the sockets that joined
 * them, the connection handler with its subscribe intents, and the three
 * emit helpers. The module-level `io` is `initialized`; an emit returns the
 * multiset of (socket, message) deliveries it causes.
 */
module SocketHandler {
  import opened Common
  import opened Protocol
  import DbUtils

  /** socket.io's `socket.id`. */
  type SocketId = string

  /** The three room families the handler joins sockets to. */
  datatype Room = AllDisasters | DisasterRoom(disasterId: Id) | ReportsRoom(reportsOf: Id) {
    /** The room's socket.io name. */
    function Name(): string {
      match this
      case AllDisasters => "disasters"
      case DisasterRoom(id) => "disaster_" + id
      case ReportsRoom(id) => "reports_" + id
    }
  }

  /** Distinct rooms have distinct names, so the tagged rooms lose nothing against the string names. */
  lemma RoomNameInjective(a: Room, b: Room)
    ensures a.Name() == b.Name() <==> a == b
  {
    if a != b {
      match a {
        case AllDisasters =>
          assert a.Name()[8] == 's';
          assert b.Name()[0] == 'r' || b.Name()[8] == '_';
        case DisasterRoom(x) =>
          assert a.Name()[9..] == x;
          assert b.Name()[0] == 'r' || b.Name()[8] == 's' || b.Name()[9..] != x;
        case ReportsRoom(x) =>
          assert a.Name()[8..] == x;
          assert b.Name()[0] == 'd' || b.Name()[8..] != x;
      }
    }
  }

  /** One message written to one socket. */
  datatype Delivery = Delivery(socket: SocketId, message: Message)

  /** The sockets in a room; a room nobody joined is empty. */
  function MembersOf(rooms: map<Room, set<SocketId>>, r: Room): set<SocketId> {
    if r in rooms then rooms[r] else {}
  }

  /** `socket.join(r)`. */
  function Join(rooms: map<Room, set<SocketId>>, r: Room, s: SocketId): (m: map<Room, set<SocketId>>)
    ensures MembersOf(m, r) == MembersOf(rooms, r) + {s}
    ensures forall q :: q != r ==> MembersOf(m, q) == MembersOf(rooms, q)
  {
    rooms[r := MembersOf(rooms, r) + {s}]
  }

  /** Joining a room twice is the same as joining it once. */
  lemma JoinIdempotent(rooms: map<Room, set<SocketId>>, r: Room, s: SocketId)
    ensures Join(Join(rooms, r, s), r, s) == Join(rooms, r, s)
  {
  }

  /** socket.io's own clean-up on disconnect: the socket leaves every room. */
  function LeaveAll(rooms: map<Room, set<SocketId>>, s: SocketId): (m: map<Room, set<SocketId>>)
    ensures forall q :: MembersOf(m, q) == MembersOf(rooms, q) - {s}
  {
    map q | q in rooms :: rooms[q] - {s}
  }

  /** `io.to(room).emit(...)`: one delivery to each member. */
  function Broadcast(members: set<SocketId>, msg: Message): (r: multiset<Delivery>)
    ensures forall d :: d in r <==> d.message == msg && d.socket in members
  {
    multiset(set s | s in members :: Delivery(s, msg))
  }

  /** Each member gets the message once; nobody else gets anything. */
  lemma BroadcastCount(members: set<SocketId>, msg: Message, d: Delivery)
    ensures Broadcast(members, msg)[d] == if d.message == msg && d.socket in members then 1 else 0
  {
  }

  /** A broadcast makes exactly as many deliveries as the room has members. */
  lemma {:induction false} BroadcastSize(members: set<SocketId>, msg: Message)
    ensures |Broadcast(members, msg)| == |members|
    decreases members
  {
    if members != {} {
      var x :| x in members;
      var rest := members - {x};
      BroadcastSize(rest, msg);
      var all := set s | s in members :: Delivery(s, msg);
      var others := set s | s in rest :: Delivery(s, msg);
      assert all == others + {Delivery(x, msg)};
      assert Delivery(x, msg) !in others;
    }
  }

  /** The deliveries of `emitDisasterUpdate(msg)`: two separate room emits. */
  function DisasterFanout(rooms: map<Room, set<SocketId>>, msg: DisasterMsg): (r: multiset<Delivery>)
    ensures forall d :: d in r <==>
              d.message == Message(DISASTER_UPDATED, DisasterData(msg)) &&
              (d.socket in MembersOf(rooms, AllDisasters) || d.socket in MembersOf(rooms, DisasterRoom(msg.Id())))
  {
    var m := Message(DISASTER_UPDATED, DisasterData(msg));
    Broadcast(MembersOf(rooms, AllDisasters), m) + Broadcast(MembersOf(rooms, DisasterRoom(msg.Id())), m)
  }

  /**
   * `emitDisasterUpdate(undefined)`: the first room emit sends `null` to
   * `disasters`; reading `undefined.id` for the second room then throws.
   */
  function UndefinedFanout(rooms: map<Room, set<SocketId>>): (r: multiset<Delivery>)
    ensures forall d :: r[d] == if d.message == Message(DISASTER_UPDATED, NullData) && d.socket in MembersOf(rooms, AllDisasters) then 1 else 0
    ensures |r| == |MembersOf(rooms, AllDisasters)|
  {
    var m := Message(DISASTER_UPDATED, NullData);
    forall d ensures Broadcast(MembersOf(rooms, AllDisasters), m)[d] == if d.message == m && d.socket in MembersOf(rooms, AllDisasters) then 1 else 0 {
      BroadcastCount(MembersOf(rooms, AllDisasters), m, d);
    }
    BroadcastSize(MembersOf(rooms, AllDisasters), m);
    Broadcast(MembersOf(rooms, AllDisasters), m)
  }

  /** 1 when the condition holds, else 0. */
  function Indicator(b: bool): nat {
    if b then 1 else 0
  }

  /**
   * A socket receives `disaster_updated` once per room it is in: once for
   * `disasters`, once more for `disaster_<id>`. Nobody else receives it.
   */
  lemma DisasterFanoutCount(rooms: map<Room, set<SocketId>>, msg: DisasterMsg, d: Delivery)
    ensures DisasterFanout(rooms, msg)[d] ==
              if d.message == Message(DISASTER_UPDATED, DisasterData(msg)) then
                Indicator(d.socket in MembersOf(rooms, AllDisasters))
                + Indicator(d.socket in MembersOf(rooms, DisasterRoom(msg.Id())))
              else 0
    ensures |DisasterFanout(rooms, msg)| ==
              |MembersOf(rooms, AllDisasters)| + |MembersOf(rooms, DisasterRoom(msg.Id()))|
  {
    var m := Message(DISASTER_UPDATED, DisasterData(msg));
    BroadcastCount(MembersOf(rooms, AllDisasters), m, d);
    BroadcastCount(MembersOf(rooms, DisasterRoom(msg.Id())), m, d);
    BroadcastSize(MembersOf(rooms, AllDisasters), m);
    BroadcastSize(MembersOf(rooms, DisasterRoom(msg.Id())), m);
  }

  /**
   * Two sockets connect; A subscribes to disaster 42, B to disaster 7. An
   * update of disaster 42 reaches A twice (both rooms) and B once (the
   * default room every connection joins).
   */
  lemma TwoSubscribersScenario(d: Disaster)
    requires d.id == "42"
    ensures var rooms := Join(Join(Join(Join(map[], AllDisasters, "A"), DisasterRoom("42"), "A"),
                                   AllDisasters, "B"), DisasterRoom("7"), "B");
            var m := Message(DISASTER_UPDATED, DisasterData(Row(d)));
            DisasterFanout(rooms, Row(d))[Delivery("A", m)] == 2 &&
            DisasterFanout(rooms, Row(d))[Delivery("B", m)] == 1
  {
    var rooms := Join(Join(Join(Join(map[], AllDisasters, "A"), DisasterRoom("42"), "A"),
                           AllDisasters, "B"), DisasterRoom("7"), "B");
    var m := Message(DISASTER_UPDATED, DisasterData(Row(d)));
    assert "42" != "7";
    assert MembersOf(rooms, AllDisasters) == {"A", "B"};
    assert MembersOf(rooms, DisasterRoom("42")) == {"A"};
    DisasterFanoutCount(rooms, Row(d), Delivery("A", m));
    DisasterFanoutCount(rooms, Row(d), Delivery("B", m));
  }

  /** What a `subscribe_to_resources` handler throws: the helper it calls is not imported. */
  const GET_NEARBY_RESOURCES_UNBOUND: string := "getNearbyResources is not defined"

  /** The reply a `subscribe_to_disasters` handler sends for a query outcome. */
  function DisasterListReply(query: Result<set<Disaster>>): (m: Message)
    ensures query.Ok? ==> m == Message(DISASTER_LIST, DisasterRows(query.value))
    ensures query.Err? ==> m == Message(ERROR, ErrorData(query.message))
  {
    match query
    case Ok(rows) => Message(DISASTER_LIST, DisasterRows(rows))
    case Err(e) => Message(ERROR, ErrorData(e))
  }

  /** The module's socket.io server: `io` and the rooms of its adapter. */
  class SocketServer {
    /** Whether `initializeSocket` has assigned the module-level `io`. */
    var initialized: bool
    var rooms: map<Room, set<SocketId>>
    /** The sockets whose connection handler has run and that have not disconnected. */
    ghost var connected: set<SocketId>

    /** Every room member is connected, and every connected socket is in `disasters`. */
    ghost predicate Valid()
      reads this
    {
      && (!initialized ==> connected == {})
      && (forall r :: r in rooms ==> rooms[r] <= connected)
      && connected <= MembersOf(rooms, AllDisasters)
    }

    /** The module as loaded: `let io;` is undefined. */
    constructor ()
      ensures Valid() && !initialized && rooms == map[] && connected == {}
    {
      initialized := false;
      rooms := map[];
      connected := {};
    }

    function Members(r: Room): set<SocketId>
      reads this
    {
      MembersOf(rooms, r)
    }

    /** Connected sockets always receive `disaster_updated`, whatever else they subscribed to. */
    lemma ConnectedInDefaultRoom(s: SocketId, msg: DisasterMsg)
      requires Valid() && s in connected
      ensures initialized
      ensures DisasterFanout(rooms, msg)[Delivery(s, Message(DISASTER_UPDATED, DisasterData(msg)))] >= 1
    {
      DisasterFanoutCount(rooms, msg, Delivery(s, Message(DISASTER_UPDATED, DisasterData(msg))));
    }

    /** `initializeSocket(server)`: a new `io` with no rooms and no connections. */
    method InitializeSocket()
      modifies this
      ensures Valid() && initialized && rooms == map[] && connected == {}
    {
      initialized := true;
      rooms := map[];
      connected := {};
    }

    /** A connection: once `io` is set, its handler joins the socket to `disasters`. */
    method Connect(s: SocketId)
      requires Valid()
      modifies this
      ensures Valid() && initialized == old(initialized)
      ensures old(initialized) ==> rooms == Join(old(rooms), AllDisasters, s) && connected == old(connected) + {s}
      ensures !old(initialized) ==> rooms == old(rooms) && connected == old(connected)
    {
      if initialized {
        rooms := Join(rooms, AllDisasters, s);
        connected := connected + {s};
      }
    }

    /** `subscribe_to_disaster(id)`: join `disaster_<id>`. */
    method SubscribeToDisaster(s: SocketId, disasterId: Id)
      requires Valid() && s in connected
      modifies this
      ensures Valid() && initialized == old(initialized) && connected == old(connected)
      ensures rooms == Join(old(rooms), DisasterRoom(disasterId), s)
    {
      rooms := Join(rooms, DisasterRoom(disasterId), s);
    }

    /** `subscribe_to_reports(id)`: join `reports_<id>`. */
    method SubscribeToReports(s: SocketId, disasterId: Id)
      requires Valid() && s in connected
      modifies this
      ensures Valid() && initialized == old(initialized) && connected == old(connected)
      ensures rooms == Join(old(rooms), ReportsRoom(disasterId), s)
    {
      rooms := Join(rooms, ReportsRoom(disasterId), s);
    }

    /**
     * `subscribe_to_disasters(filters)`: query the store and reply to the
     * requesting socket alone, with the rows or with the error's message.
     */
    method SubscribeToDisasters(s: SocketId, filters: DbUtils.FilterArg, table: map<Id, Disaster>,
                                sem: DbUtils.Semantics, fault: Option<string>)
      returns (out: seq<Delivery>)
      requires Valid() && s in connected
      ensures |out| == 1 && out[0].socket == s
      ensures out[0].message.name == DISASTER_LIST <==> DbUtils.QueryDisasters(table, filters, sem, fault).Ok?
      ensures out[0].message == DisasterListReply(DbUtils.QueryDisasters(table, filters, sem, fault))
    {
      var query := DbUtils.QueryDisasters(table, filters, sem, fault);
      match query {
        case Ok(rows) =>
          out := [Delivery(s, Message(DISASTER_LIST, DisasterRows(rows)))];
        case Err(e) =>
          out := [Delivery(s, Message(ERROR, ErrorData(e)))];
      }
    }

    /**
     * `subscribe_to_resources(id)`: the call to `getNearbyResources` throws
     * a ReferenceError, which the handler catches and reports to the
     * requesting socket alone; no room is joined.
     */
    method SubscribeToResources(s: SocketId, disasterId: Id) returns (out: seq<Delivery>)
      requires Valid() && s in connected
      ensures out == [Delivery(s, Message(ERROR, ErrorData(GET_NEARBY_RESOURCES_UNBOUND)))]
    {
      out := [Delivery(s, Message(ERROR, ErrorData(GET_NEARBY_RESOURCES_UNBOUND)))];
    }

    /** A disconnect: the handler only logs; socket.io removes the socket from its rooms. */
    method Disconnect(s: SocketId)
      requires Valid()
      modifies this
      ensures Valid() && initialized == old(initialized) && connected == old(connected) - {s}
      ensures rooms == LeaveAll(old(rooms), s)
    {
      rooms := LeaveAll(rooms, s);
      connected := connected - {s};
    }

    /** `emitDisasterUpdate(msg)`: nothing before `io` is set, else both room emits. */
    method EmitDisasterUpdate(msg: DisasterMsg) returns (out: multiset<Delivery>)
      ensures out == if initialized then DisasterFanout(rooms, msg) else multiset{}
    {
      if initialized {
        var m := Message(DISASTER_UPDATED, DisasterData(msg));
        var toAll := Broadcast(Members(AllDisasters), m);
        var toOne := Broadcast(Members(DisasterRoom(msg.Id())), m);
        out := toAll + toOne;
      } else {
        out := multiset{};
      }
    }

    /**
     * `emitDisasterUpdate(undefined)`: nothing before `io` is set; afterwards
     * `null` reaches the members of `disasters` and the returned promise
     * rejects with a TypeError before the second room emit.
     */
    method EmitUndefinedDisasterUpdate() returns (out: multiset<Delivery>, rejected: bool)
      ensures rejected == initialized
      ensures out == if initialized then UndefinedFanout(rooms) else multiset{}
    {
      if initialized {
        out := Broadcast(Members(AllDisasters), Message(DISASTER_UPDATED, NullData));
        rejected := true;
      } else {
        out := multiset{};
        rejected := false;
      }
    }

    /** `emitResourceUpdate(resource)`: only the members of `disaster_<resource.disaster_id>`, each once. */
    method EmitResourceUpdate(resource: Resource) returns (out: multiset<Delivery>)
      ensures forall d :: out[d] ==
                Indicator(initialized && d.message == Message(RESOURCE_UPDATED, ResourceData(resource))
                          && d.socket in Members(DisasterRoom(resource.disasterId)))
      ensures |out| == if initialized then |Members(DisasterRoom(resource.disasterId))| else 0
    {
      if initialized {
        var m := Message(RESOURCE_UPDATED, ResourceData(resource));
        out := Broadcast(Members(DisasterRoom(resource.disasterId)), m);
        forall d ensures out[d] == Indicator(d.message == m && d.socket in Members(DisasterRoom(resource.disasterId))) {
          BroadcastCount(Members(DisasterRoom(resource.disasterId)), m, d);
        }
        BroadcastSize(Members(DisasterRoom(resource.disasterId)), m);
      } else {
        out := multiset{};
      }
    }

    /** `emitReportUpdate(report)`: only the members of `reports_<report.disaster_id>`, each once. */
    method EmitReportUpdate(report: Report) returns (out: multiset<Delivery>)
      ensures forall d :: out[d] ==
                Indicator(initialized && d.message == Message(REPORT_UPDATED, ReportData(report))
                          && d.socket in Members(ReportsRoom(report.disasterId)))
      ensures |out| == if initialized then |Members(ReportsRoom(report.disasterId))| else 0
    {
      if initialized {
        var m := Message(REPORT_UPDATED, ReportData(report));
        out := Broadcast(Members(ReportsRoom(report.disasterId)), m);
        forall d ensures out[d] == Indicator(d.message == m && d.socket in Members(ReportsRoom(report.disasterId))) {
          BroadcastCount(Members(ReportsRoom(report.disasterId)), m, d);
        }
        BroadcastSize(Members(ReportsRoom(report.disasterId)), m);
      } else {
        out := multiset{};
      }
    }
  }
}
