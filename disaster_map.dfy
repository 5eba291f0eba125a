/**
 * The map page's list of disasters: the `disaster_updated` handler, a pure
 * transformation of the previous list, and the initial fetch that replaces
 * the list wholesale.
 */
module DisasterMap {
  import opened Common
  import opened Protocol

  /** The ids present in a list. */
  function Ids(list: seq<Disaster>): set<Id> {
    set d | d in list :: d.id
  }

  /** `prev.filter(d => d.id !== id)`. */
  function WithoutId(list: seq<Disaster>, id: Id): (r: seq<Disaster>)
    ensures |r| <= |list|
    ensures forall d :: d in r <==> d in list && d.id != id
  {
    if list == [] then []
    else (if list[0].id != id then [list[0]] else []) + WithoutId(list[1..], id)
  }

  /** `prev.map(d => d.id === row.id ? row : d)`. */
  function ReplaceById(list: seq<Disaster>, row: Disaster): (r: seq<Disaster>)
    ensures |r| == |list|
    ensures forall i :: 0 <= i < |list| ==> r[i] == if list[i].id == row.id then row else list[i]
  {
    if list == [] then []
    else [if list[0].id == row.id then row else list[0]] + ReplaceById(list[1..], row)
  }

  /**
   * The `disaster_updated` handler: a tombstone filters, anything else maps.
   * A tombstone's id is gone afterwards; an update keeps the length; no
   * entry appears that was neither in the list nor the update itself.
   */
  function OnDisasterUpdated(list: seq<Disaster>, msg: DisasterMsg): (r: seq<Disaster>)
    ensures msg.Deleted() ==> msg.Id() !in Ids(r)
    ensures !msg.Deleted() ==> |r| == |list|
    ensures forall d :: d in r ==> d in list || (msg.Row? && d == msg.row)
  {
    match msg
    case Tombstone(id) => WithoutId(list, id)
    case Row(d) => ReplaceById(list, d)
  }

  /** `fetchDisasters()`: the response replaces the list; a failed request is logged and changes nothing. */
  function OnFetch(list: seq<Disaster>, response: Result<seq<Disaster>>): (r: seq<Disaster>)
    ensures response.Ok? ==> r == response.value
    ensures response.Err? ==> r == list
  {
    if response.Ok? then response.value else list
  }

  /** The list after a series of `disaster_updated` events, in arrival order. */
  function ApplyAll(list: seq<Disaster>, msgs: seq<DisasterMsg>): seq<Disaster>
    decreases |msgs|
  {
    if msgs == [] then list else ApplyAll(OnDisasterUpdated(list, msgs[0]), msgs[1..])
  }

  /** A tombstone removes exactly the entries with its id: every other entry keeps its multiplicity. */
  lemma {:induction false} TombstoneRemovesExactly(list: seq<Disaster>, id: Id, d: Disaster)
    ensures multiset(OnDisasterUpdated(list, Tombstone(id)))[d] == if d.id == id then 0 else multiset(list)[d]
    decreases |list|
  {
    if list != [] {
      TombstoneRemovesExactly(list[1..], id, d);
      assert list == [list[0]] + list[1..];
    }
  }

  /** A tombstone keeps the remaining entries in their order: filtering distributes over concatenation. */
  lemma {:induction false} TombstoneKeepsOrder(a: seq<Disaster>, b: seq<Disaster>, id: Id)
    ensures WithoutId(a + b, id) == WithoutId(a, id) + WithoutId(b, id)
    decreases |a|
  {
    if a != [] {
      TombstoneKeepsOrder(a[1..], b, id);
      assert (a + b)[1..] == a[1..] + b;
    } else {
      assert a + b == b;
    }
  }

  /** A non-deleted update keeps the length and touches only the entries with its id. */
  lemma UpdateReplacesInPlace(list: seq<Disaster>, row: Disaster)
    ensures |OnDisasterUpdated(list, Row(row))| == |list|
    ensures forall i :: 0 <= i < |list| && list[i].id != row.id ==> OnDisasterUpdated(list, Row(row))[i] == list[i]
    ensures forall i :: 0 <= i < |list| && list[i].id == row.id ==> OnDisasterUpdated(list, Row(row))[i] == row
  {
  }

  /** An event whose id is not in the list leaves the list as it is. */
  lemma {:induction false} AbsentIdLeavesListUnchanged(list: seq<Disaster>, msg: DisasterMsg)
    requires msg.Id() !in Ids(list)
    ensures OnDisasterUpdated(list, msg) == list
    decreases |list|
  {
    if list != [] {
      assert list[0] in list;
      assert forall d | d in list[1..] :: d in list;
      AbsentIdLeavesListUnchanged(list[1..], msg);
      assert list == [list[0]] + list[1..];
    }
  }

  /** The handler never appends: every id afterwards was already there. */
  lemma NeverAppends(list: seq<Disaster>, msg: DisasterMsg)
    ensures Ids(OnDisasterUpdated(list, msg)) <= Ids(list)
    ensures |OnDisasterUpdated(list, msg)| <= |list|
  {
    match msg {
      case Tombstone(id) =>
      case Row(row) =>
        forall x | x in Ids(ReplaceById(list, row)) ensures x in Ids(list) {
          var i :| 0 <= i < |list| && ReplaceById(list, row)[i].id == x;
          assert list[i] in list;
        }
    }
  }

  /** Applying the same event twice is the same as applying it once. */
  lemma {:induction false} OnDisasterUpdatedIdempotent(list: seq<Disaster>, msg: DisasterMsg)
    ensures OnDisasterUpdated(OnDisasterUpdated(list, msg), msg) == OnDisasterUpdated(list, msg)
    decreases |list|
  {
    if list != [] {
      OnDisasterUpdatedIdempotent(list[1..], msg);
      match msg {
        case Tombstone(id) =>
          var once := WithoutId(list, id);
          if list[0].id == id {
            assert once == WithoutId(list[1..], id);
          } else {
            assert once == [list[0]] + WithoutId(list[1..], id);
            assert once[1..] == WithoutId(list[1..], id);
          }
        case Row(row) =>
      }
    }
  }

  /** After the initial fetch, however many events arrive, the list only holds fetched ids and never grows. */
  lemma {:induction false} FetchedIdsBoundTheList(prev: seq<Disaster>, rows: seq<Disaster>, msgs: seq<DisasterMsg>)
    ensures Ids(ApplyAll(OnFetch(prev, Ok(rows)), msgs)) <= Ids(rows)
    ensures |ApplyAll(OnFetch(prev, Ok(rows)), msgs)| <= |rows|
    decreases |msgs|
  {
    if msgs != [] {
      var next := OnDisasterUpdated(rows, msgs[0]);
      NeverAppends(rows, msgs[0]);
      FetchedIdsBoundTheList(prev, next, msgs[1..]);
    }
  }
}
