/**
 * The live map screen: which hospital is selected, the last route computed
 * for it, and the hospital list the route results are merged into.
 */
module MapView {
  import opened Wrappers
  import opened HospitalList

  /** `routes[id]?.distance || hospital.distance`: the route's value unless missing or empty. */
  function MergedDistance(routes: map<int, RouteInfo>, h: Hospital): string
  {
    if h.id in routes && routes[h.id].distance != "" then routes[h.id].distance else h.distance
  }

  /** `routes[id]?.eta || hospital.eta`, decided apart from the distance. */
  function MergedEta(routes: map<int, RouteInfo>, h: Hospital): string
  {
    if h.id in routes && routes[h.id].eta != "" then routes[h.id].eta else h.eta
  }

  /**
   * The updater of `handleAllRoutesCalculated`: the list keeps its length,
   * order and every field except `distance` and `eta`; each of those takes
   * the route's non-empty value for the hospital's id, or keeps its own.
   */
  function MergeAllRoutes(hospitals: seq<Hospital>, routes: map<int, RouteInfo>): (r: seq<Hospital>)
    ensures |r| == |hospitals|
    ensures forall i :: 0 <= i < |r| ==>
      r[i].id == hospitals[i].id && r[i].name == hospitals[i].name &&
      r[i].address == hospitals[i].address && r[i].routeInfo == hospitals[i].routeInfo
    ensures forall i :: 0 <= i < |r| ==>
      r[i].distance ==
        (if hospitals[i].id in routes && routes[hospitals[i].id].distance != ""
         then routes[hospitals[i].id].distance else hospitals[i].distance)
    ensures forall i :: 0 <= i < |r| ==>
      r[i].eta ==
        (if hospitals[i].id in routes && routes[hospitals[i].id].eta != ""
         then routes[hospitals[i].id].eta else hospitals[i].eta)
  {
    seq(|hospitals|, i requires 0 <= i < |hospitals| =>
      hospitals[i].(distance := MergedDistance(routes, hospitals[i]),
                    eta := MergedEta(routes, hospitals[i])))
  }

  /** Merging the same routes a second time changes nothing. */
  lemma MergeAllRoutesIdempotent(hospitals: seq<Hospital>, routes: map<int, RouteInfo>)
    ensures MergeAllRoutes(MergeAllRoutes(hospitals, routes), routes) == MergeAllRoutes(hospitals, routes)
  {
    var once := MergeAllRoutes(hospitals, routes);
    var twice := MergeAllRoutes(once, routes);
    forall i | 0 <= i < |once| ensures twice[i] == once[i] {
      assert twice[i].id == once[i].id;
    }
  }

  /**
   * A hospital's new values depend only on its own entry: what the routes
   * map holds for other ids, a failed or missing lookup included, cannot
   * change them.
   */
  lemma MergeIsPerHospital(hospitals: seq<Hospital>, a: map<int, RouteInfo>, b: map<int, RouteInfo>, i: nat)
    requires i < |hospitals|
    requires hospitals[i].id in a <==> hospitals[i].id in b
    requires hospitals[i].id in a ==> a[hospitals[i].id] == b[hospitals[i].id]
    ensures MergeAllRoutes(hospitals, a)[i] == MergeAllRoutes(hospitals, b)[i]
  {
  }

  /**
   * The updater of `handleRouteCalculated`: the hospital whose id is the
   * selected one takes the route's distance and ETA as they are; every other
   * hospital, and all of them when nothing is selected, stays as it was.
   */
  function MergeSelectedRoute(hospitals: seq<Hospital>, selected: Option<int>, route: RouteInfo): (r: seq<Hospital>)
    ensures |r| == |hospitals|
    ensures forall i :: 0 <= i < |r| ==>
      if selected == Some(hospitals[i].id)
      then r[i] == hospitals[i].(distance := route.distance, eta := route.eta)
      else r[i] == hospitals[i]
    ensures selected.None? ==> r == hospitals
  {
    seq(|hospitals|, i requires 0 <= i < |hospitals| =>
      if selected == Some(hospitals[i].id)
      then hospitals[i].(distance := route.distance, eta := route.eta)
      else hospitals[i])
  }

  predicate UniqueIds(hospitals: seq<Hospital>)
  {
    forall i, j :: 0 <= i < j < |hospitals| ==> hospitals[i].id != hospitals[j].id
  }

  /** With distinct ids, a single-route update changes at most one hospital. */
  lemma SelectedRouteChangesAtMostOne(hospitals: seq<Hospital>, selected: Option<int>, route: RouteInfo, i: nat, j: nat)
    requires UniqueIds(hospitals)
    requires i < |hospitals| && j < |hospitals|
    requires MergeSelectedRoute(hospitals, selected, route)[i] != hospitals[i]
    requires MergeSelectedRoute(hospitals, selected, route)[j] != hospitals[j]
    ensures i == j
  {
  }

  /**
   * Neither update reaches what the list renders: both write the top-level
   * `distance`/`eta`, while the list's labels read `routeInfo`. A hospital
   * that arrived without `routeInfo` keeps showing "Calculating...".
   */
  lemma RouteUpdatesNeverReachTheList(hospitals: seq<Hospital>, routes: map<int, RouteInfo>, selected: Option<int>, route: RouteInfo)
    ensures Entries(MergeAllRoutes(hospitals, routes)) == Entries(hospitals)
    ensures Entries(MergeSelectedRoute(hospitals, selected, route)) == Entries(hospitals)
    ensures forall i :: 0 <= i < |hospitals| && hospitals[i].routeInfo.None? ==>
      Entries(MergeAllRoutes(hospitals, routes))[i].distanceLabel == Calculating &&
      Entries(MergeAllRoutes(hospitals, routes))[i].etaLabel == Calculating
  {
    var all := MergeAllRoutes(hospitals, routes);
    forall i | 0 <= i < |hospitals| ensures Entries(all)[i] == Entries(hospitals)[i] {
      assert all[i] == hospitals[i].(distance := all[i].distance, eta := all[i].eta);
      LabelsReadOnlyRouteInfo(hospitals[i], all[i].distance, all[i].eta, RouteInfo("", ""));
    }
    var one := MergeSelectedRoute(hospitals, selected, route);
    forall i | 0 <= i < |hospitals| ensures Entries(one)[i] == Entries(hospitals)[i] {
      LabelsReadOnlyRouteInfo(hospitals[i], route.distance, route.eta, RouteInfo("", ""));
    }
  }

  /** The component's state and the parent's hospital list it updates through `setHospitals`. */
  class MapViewState {
    var selectedHospital: Option<int>
    var route: Option<RouteInfo>
    var hospitals: seq<Hospital>

    constructor (hospitals: seq<Hospital>)
      ensures selectedHospital.None? && route.None? && this.hospitals == hospitals
    {
      selectedHospital := None;
      route := None;
      this.hospitals := hospitals;
    }

    /** `handleHospitalSelect`: records the selection and touches nothing else. */
    method HandleHospitalSelect(id: int)
      modifies this
      ensures selectedHospital == Some(id)
      ensures route == old(route) && hospitals == old(hospitals)
    {
      selectedHospital := Some(id);
    }

    /** `handleAllRoutesCalculated`: merges a finished id-to-route map into the list. */
    method HandleAllRoutesCalculated(routes: map<int, RouteInfo>)
      modifies this
      ensures hospitals == MergeAllRoutes(old(hospitals), routes)
      ensures selectedHospital == old(selectedHospital) && route == old(route)
    {
      hospitals := MergeAllRoutes(hospitals, routes);
    }

    /** `handleRouteCalculated`: stores the route, then updates the selected hospital. */
    method HandleRouteCalculated(calculated: RouteInfo)
      modifies this
      ensures route == Some(calculated)
      ensures hospitals == MergeSelectedRoute(old(hospitals), old(selectedHospital), calculated)
      ensures selectedHospital == old(selectedHospital)
    {
      route := Some(calculated);
      hospitals := MergeSelectedRoute(hospitals, selectedHospital, calculated);
    }

    /**
     * The route panel: rendered only once a route exists, and open when
     * `!!selectedHospital` holds, which is false for a selected id of 0.
     */
    function RoutePanel(): (panel: Option<bool>)
      reads this
      ensures panel.Some? <==> route.Some?
      ensures panel == Some(true) <==>
        route.Some? && selectedHospital.Some? && selectedHospital.value != 0
    {
      if route.None? then None
      else Some(selectedHospital.Some? && selectedHospital.value != 0)
    }
  }
}
