/**
 * The store helpers: the filtered snapshot query, the nearby-resources query
 * and the audit-trail append. The store's own matching (ILIKE, `within`) is
 * abstract: it is given as the predicates of a `Semantics` value. A failing
 * store call is a `fault` parameter carrying the store's error message.
 */
module DbUtils {
  import opened Common
  import opened Protocol

  /** The filter object of a snapshot query; each field may be missing. */
  datatype Filters = Filters(tags: Option<string>, status: Option<string>, severity: Option<string>, location: Option<string>)

  /** The `filters` argument as received: left out (the default `{}` applies), `null`, or an object. */
  datatype FilterArg = Omitted | NullFilters | Given(filters: Filters)

  const NO_FILTERS: Filters := Filters(None, None, None, None)
  const DEFAULT_RADIUS: int := 10000
  const DISASTER_NOT_FOUND: string := "Disaster not found"
  /** What V8 throws for `filters.tags` when `filters` is `null`. */
  const NULL_FILTERS_ERROR: string := "Cannot read properties of null (reading 'tags')"
  /** What V8 throws for `auditTrail.push(...)` when the trail is a string. */
  const PUSH_NOT_A_FUNCTION: string := "auditTrail.push is not a function"

  /** The store's matching predicates, left uninterpreted. */
  datatype Semantics = Semantics(
    ilike: (seq<string>, string) -> bool,          // tags ILIKE '%term%'
    within: (string, string) -> bool,               // location within an area
    withinRadius: (string, string, int) -> bool)    // location within radius of a point

  /** A row passes every filter that is supplied with a truthy value. */
  predicate Matches(d: Disaster, f: Filters, sem: Semantics) {
    && (Truthy(f.tags) ==> sem.ilike(d.tags, f.tags.value))
    && (Truthy(f.status) ==> d.status == f.status)
    && (Truthy(f.severity) ==> d.severity == f.severity)
    && (Truthy(f.location) ==> sem.within(d.location, f.location.value))
  }

  /**
   * `queryDisasters(filters)`: start from every row and narrow the query once
   * per truthy filter, in the order tags, status, severity, location.
   */
  function QueryDisasters(table: map<Id, Disaster>, arg: FilterArg, sem: Semantics, fault: Option<string>): (r: Result<set<Disaster>>)
    ensures arg.NullFilters? ==> r == Err(NULL_FILTERS_ERROR)
    ensures !arg.NullFilters? && fault.Some? ==> r == Err(fault.value)
    ensures !arg.NullFilters? && fault.None? ==> r.Ok? && r.value <= table.Values
  {
    if arg.NullFilters? then Err(NULL_FILTERS_ERROR)
    else
      var f := if arg.Given? then arg.filters else NO_FILTERS;
      var q0 := table.Values;
      var q1 := if Truthy(f.tags) then set d | d in q0 && sem.ilike(d.tags, f.tags.value) else q0;
      var q2 := if Truthy(f.status) then set d | d in q1 && d.status == f.status else q1;
      var q3 := if Truthy(f.severity) then set d | d in q2 && d.severity == f.severity else q2;
      var q4 := if Truthy(f.location) then set d | d in q3 && sem.within(d.location, f.location.value) else q3;
      if fault.Some? then Err(fault.value) else Ok(q4)
  }

  /** The step-by-step narrowing means one conjunction: a row is returned iff it matches every supplied filter. */
  lemma QueryIsConjunction(table: map<Id, Disaster>, f: Filters, sem: Semantics, d: Disaster)
    ensures QueryDisasters(table, Given(f), sem, None).Ok?
    ensures d in QueryDisasters(table, Given(f), sem, None).value <==> d in table.Values && Matches(d, f, sem)
  {
  }

  /** Without filters (argument left out, or every filter falsy) every row is returned. */
  lemma QueryWithoutFiltersReturnsAll(table: map<Id, Disaster>, arg: FilterArg, sem: Semantics)
    requires arg.Omitted? || (arg.Given? && !Truthy(arg.filters.tags) && !Truthy(arg.filters.status)
                              && !Truthy(arg.filters.severity) && !Truthy(arg.filters.location))
    ensures QueryDisasters(table, arg, sem, None) == Ok(table.Values)
  {
  }

  /** Supplying one more filter can only narrow the result. */
  lemma ExtraFilterNarrows(table: map<Id, Disaster>, f: Filters, g: Filters, sem: Semantics)
    requires Truthy(f.tags) ==> g.tags == f.tags
    requires Truthy(f.status) ==> g.status == f.status
    requires Truthy(f.severity) ==> g.severity == f.severity
    requires Truthy(f.location) ==> g.location == f.location
    ensures QueryDisasters(table, Given(g), sem, None).value <= QueryDisasters(table, Given(f), sem, None).value
  {
    forall d | d in QueryDisasters(table, Given(g), sem, None).value
      ensures d in QueryDisasters(table, Given(f), sem, None).value
    {
      QueryIsConjunction(table, g, sem, d);
      QueryIsConjunction(table, f, sem, d);
    }
  }

  /** Resources listed newest first. */
  ghost predicate NewestFirst(s: seq<Resource>) {
    forall i, j :: 0 <= i < j < |s| ==> s[i].createdAt >= s[j].createdAt
  }

  /** Inserts one resource into a newest-first list. */
  function InsertNewestFirst(x: Resource, s: seq<Resource>): (r: seq<Resource>)
    requires NewestFirst(s)
    ensures NewestFirst(r)
    ensures multiset(r) == multiset(s) + multiset{x}
  {
    if s == [] || x.createdAt >= s[0].createdAt then
      [x] + s
    else
      var tail := InsertNewestFirst(x, s[1..]);
      assert s == [s[0]] + s[1..];
      forall y | y in tail ensures y.createdAt <= s[0].createdAt {
        assert y in multiset(tail);
        if y != x {
          assert y in multiset(s[1..]);
        }
      }
      PrependNewest(s[0], tail);
      [s[0]] + tail
  }

  lemma PrependNewest(h: Resource, t: seq<Resource>)
    requires NewestFirst(t)
    requires forall y | y in t :: y.createdAt <= h.createdAt
    ensures NewestFirst([h] + t)
  {
    forall i, j | 0 <= i < j < |[h] + t| ensures ([h] + t)[i].createdAt >= ([h] + t)[j].createdAt {
      if i > 0 {
        assert ([h] + t)[i] == t[i - 1];
      }
      assert ([h] + t)[j] == t[j - 1];
    }
  }

  /** `.order('created_at', { ascending: false })`: newest first, same rows. */
  function OrderNewestFirst(s: seq<Resource>): (r: seq<Resource>)
    ensures NewestFirst(r)
    ensures multiset(r) == multiset(s)
  {
    if s == [] then []
    else
      assert s == [s[0]] + s[1..];
      InsertNewestFirst(s[0], OrderNewestFirst(s[1..]))
  }

  /** The resources located within `radius` of `centre`, in store order. */
  function WithinRadius(rs: seq<Resource>, centre: string, radius: int, sem: Semantics): (r: seq<Resource>)
    ensures forall x :: x in r <==> x in rs && sem.withinRadius(x.location, centre, radius)
  {
    if rs == [] then []
    else
      (if sem.withinRadius(rs[0].location, centre, radius) then [rs[0]] else [])
      + WithinRadius(rs[1..], centre, radius, sem)
  }

  /**
   * `getNearbyResources(disasterId, radius = 10000)`: the disaster's location
   * is looked up first; an absent row is "Disaster not found"; otherwise the
   * resources within the radius, newest first. Store errors are rethrown.
   */
  function GetNearbyResources(disasters: map<Id, Disaster>, resources: seq<Resource>, disasterId: Id,
                              radius: Option<int>, sem: Semantics, fault: Option<string>): (r: Result<seq<Resource>>)
    ensures disasterId !in disasters ==> r == Err(DISASTER_NOT_FOUND)
    ensures disasterId in disasters && fault.Some? ==> r == Err(fault.value)
    ensures disasterId in disasters && fault.None? ==> r.Ok?
    ensures r.Ok? ==> NewestFirst(r.value)
    ensures r.Ok? ==> forall x :: x in r.value <==>
              x in resources && sem.withinRadius(x.location, disasters[disasterId].location, radius.GetOr(DEFAULT_RADIUS))
  {
    if disasterId !in disasters then Err(DISASTER_NOT_FOUND)
    else if fault.Some? then Err(fault.value)
    else
      var near := WithinRadius(resources, disasters[disasterId].location, radius.GetOr(DEFAULT_RADIUS), sem);
      var ordered := OrderNewestFirst(near);
      assert forall x :: x in ordered <==> x in multiset(near);
      Ok(ordered)
  }

  /** The radius filter keeps each resource within the radius exactly as often as the store holds it, and no other. */
  lemma {:induction false} WithinRadiusKeepsMultiplicity(rs: seq<Resource>, centre: string, radius: int, sem: Semantics, x: Resource)
    ensures multiset(WithinRadius(rs, centre, radius, sem))[x] ==
            if sem.withinRadius(x.location, centre, radius) then multiset(rs)[x] else 0
    decreases |rs|
  {
    if rs != [] {
      WithinRadiusKeepsMultiplicity(rs[1..], centre, radius, sem, x);
      assert rs == [rs[0]] + rs[1..];
    }
  }

  /**
   * `getNearbyResources` returns each resource within the radius of the
   * disaster exactly as often as the store holds it, and no other.
   */
  lemma NearbyIsPermutation(disasters: map<Id, Disaster>, resources: seq<Resource>, disasterId: Id,
                            radius: Option<int>, sem: Semantics, x: Resource)
    requires disasterId in disasters
    ensures multiset(GetNearbyResources(disasters, resources, disasterId, radius, sem, None).value)[x] ==
            if sem.withinRadius(x.location, disasters[disasterId].location, radius.GetOr(DEFAULT_RADIUS))
            then multiset(resources)[x] else 0
  {
    WithinRadiusKeepsMultiplicity(resources, disasters[disasterId].location, radius.GetOr(DEFAULT_RADIUS), sem, x);
  }

  /** The entry list `updateAuditTrail` pushes onto: a missing trail counts as `[]`, a string trail has no `push`. */
  function AppendAuditEntry(trail: AuditTrail, entry: AuditEntry): (r: Result<seq<AuditEntry>>)
    ensures r.Ok? <==> trail.NoTrail? || trail.Entries?
    ensures r.Ok? ==> |r.value| >= 1 && r.value[|r.value| - 1] == entry
    ensures trail.Entries? ==> r == Ok(trail.entries + [entry])
    ensures trail.NoTrail? ==> r == Ok([entry])
  {
    match trail
    case NoTrail => Ok([entry])
    case Entries(es) => Ok(es + [entry])
    case _ => Err(PUSH_NOT_A_FUNCTION)
  }

  /** The `disasters` and `resources` tables. */
  class Database {
    var disasters: map<Id, Disaster>
    var resources: seq<Resource>

    constructor (disasters: map<Id, Disaster>, resources: seq<Resource>)
      ensures this.disasters == disasters && this.resources == resources
    {
      this.disasters := disasters;
      this.resources := resources;
    }

    /**
     * `updateAuditTrail(disasterId, action, details)`: read the row's trail,
     * push one `{action, details, timestamp}` entry and write the trail back
     * to the same row. `now` is the timestamp; `fault` the write's error.
     */
    method UpdateAuditTrail(disasterId: Id, action: string, details: string, now: string, fault: Option<string>)
      returns (outcome: Outcome)
      modifies this
      ensures resources == old(resources)
      ensures disasterId !in old(disasters) ==> outcome == Failed(DISASTER_NOT_FOUND)
      ensures (disasterId in old(disasters) &&
               AppendAuditEntry(old(disasters)[disasterId].auditTrail, AuditEntry(action, details, now)).Err?)
                ==> outcome == Failed(PUSH_NOT_A_FUNCTION)
      ensures (disasterId in old(disasters) &&
               AppendAuditEntry(old(disasters)[disasterId].auditTrail, AuditEntry(action, details, now)).Ok?)
                ==> outcome == (if fault.Some? then Failed(fault.value) else Done)
      ensures outcome.Failed? ==> disasters == old(disasters)
      ensures outcome.Done? ==>
                disasterId in old(disasters) &&
                disasters == old(disasters)[disasterId := old(disasters)[disasterId].(auditTrail :=
                  Entries(AppendAuditEntry(old(disasters)[disasterId].auditTrail, AuditEntry(action, details, now)).value))]
    {
      if disasterId !in disasters {
        return Failed(DISASTER_NOT_FOUND);
      }
      var row := disasters[disasterId];
      var trail: seq<AuditEntry>;
      match row.auditTrail {
        case NoTrail => trail := [];
        case Entries(es) => trail := es;
        case _ => return Failed(PUSH_NOT_A_FUNCTION);
      }
      trail := trail + [AuditEntry(action, details, now)];
      assert trail == AppendAuditEntry(row.auditTrail, AuditEntry(action, details, now)).value;
      if fault.Some? {
        return Failed(fault.value);
      }
      disasters := disasters[disasterId := row.(auditTrail := Entries(trail))];
      return Done;
    }
  }
}
