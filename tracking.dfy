/**
 * The tracking screen: the driver's trip state machine. Geolocation and
 * Firestore calls are recorded as effects in a log rather than performed;
 * the answers they would deliver (a fix, a failed write, a missing document)
 * are parameters of the operations.
 *
 * Each operation is given twice: as a function from the current state to the
 * next state and the effects emitted (the specification, about which the
 * lemmas speak), and as a method of `TrackingScreen` that updates the fields
 * step by step and is proved to agree with the function.
 */
module Tracking {
  import opened Wrappers
  import opened Backend

  /** The platform's id for a position watch (a JavaScript number). */
  type WatchId = int

  /** `{ id: routeDoc.id, ...routeDoc.data() }` */
  datatype RouteDetails = RouteDetails(id: string, startPoint: string, endPoint: string)

  /**
   * The fields of the merge write to `live_trips/{busId}`. The
   * `lastUpdated` server timestamp is not represented.
   */
  datatype LiveTrip = LiveTrip(driverId: string, routeId: string, lastLocation: Coords, isActive: bool)

  datatype Alert = PermissionRequired | CannotStart | LocationUnavailable | PermissionDenied | RouteLoadFailed

  /** Everything the screen asks of the outside world. */
  datatype Effect =
    | ReadBus(busId: string)
    | ReadRoute(routeId: string)
    | RequestLocationPermission
    | GetCurrentPosition
    | WatchPosition(watchId: WatchId)
    | ClearWatch(watchId: WatchId)
    | MergeLiveTrip(docId: string, trip: LiveTrip)
    | DeactivateLiveTrip(docId: string)
    | ShowAlert(alert: Alert)

  /** What `PermissionsAndroid.request` resolves to, or that it threw. */
  datatype PermissionAnswer = Granted | Denied | NeverAskAgain | RequestThrew

  datatype Platform = Android(answer: PermissionAnswer) | OtherPlatform

  /** The screen's props: the signed-in user and the selected bus. */
  datatype Props = Props(user: User, busId: string)

  /**
   * The screen's state. `cleanupWatchId` is the `watchId` captured by the
   * cleanup that the `[watchId]` effect has installed.
   */
  datatype State = State(
    isTracking: bool,
    location: Option<Coords>,
    watchId: Option<WatchId>,
    routeDetails: Option<RouteDetails>,
    loadingRoute: bool,
    hasPermission: bool,
    cleanupWatchId: Option<WatchId>)

  /** The next state and the effects emitted on the way, in order. */
  datatype Step = Step(next: State, effects: seq<Effect>)

  /** JavaScript truthiness of `watchId`: held, and not the number 0. */
  predicate Held(w: Option<WatchId>) {
    w.Some? && w.value != 0
  }

  /** Effects that start or stop geolocation work. */
  predicate IsGeolocation(e: Effect) {
    e.GetCurrentPosition? || e.WatchPosition? || e.ClearWatch?
  }

  /** Effects that write to `live_trips`. */
  predicate IsStoreWrite(e: Effect) {
    e.MergeLiveTrip? || e.DeactivateLiveTrip?
  }

  /** The state right after mounting. */
  function Initial(): (s: State)
    ensures !s.isTracking && s.location.None? && s.watchId.None? && s.routeDetails.None?
    ensures s.loadingRoute && !s.hasPermission && s.cleanupWatchId.None?
  {
    State(false, None, None, None, true, false, None)
  }

  /** Both reads of `fetchRouteInfo` find their document, and the bus names a route. */
  predicate ResolvesRoute(props: Props, bus: DocRead<BusData>, route: DocRead<RouteData>) {
    props.busId != "" && bus.Exists? && Truthy(bus.data.routeId) && route.Exists?
  }

  /**
   * `fetchRouteInfo`: read the bus, then its route if it names one. The
   * answers of the two reads are parameters; `route` is consulted only
   * when the bus names a route.
   */
  function FetchRouteInfoStep(s: State, props: Props, bus: DocRead<BusData>, route: DocRead<RouteData>): (r: Step)
    // nothing happens for a missing bus id; otherwise the spinner always ends
    ensures props.busId == "" ==> r == Step(s, [])
    ensures props.busId != "" ==> !r.next.loadingRoute && |r.effects| > 0 && r.effects[0] == ReadBus(props.busId)
    // only the route details and the spinner can change
    ensures r.next == s.(routeDetails := r.next.routeDetails, loadingRoute := r.next.loadingRoute)
    // the route details are set exactly when both documents exist, and then carry the bus's route id
    ensures ResolvesRoute(props, bus, route) ==>
              r.next.routeDetails == Some(RouteDetails(bus.data.routeId.value, route.data.startPoint, route.data.endPoint))
    ensures !ResolvesRoute(props, bus, route) ==> r.next.routeDetails == s.routeDetails
    // the error alert: a bus that cannot be read, or a named route that cannot be read
    ensures ShowAlert(RouteLoadFailed) in r.effects <==>
              props.busId != "" && (!bus.Exists? || (Truthy(bus.data.routeId) && !route.Exists?))
    ensures forall e :: e in r.effects ==> !IsGeolocation(e) && !IsStoreWrite(e)
  {
    if props.busId == "" then Step(s, [])
    else
      var done := s.(loadingRoute := false);
      match bus
      case Exists(data) =>
        if Truthy(data.routeId) then
          var routeId := data.routeId.value;
          match route
          case Exists(rd) =>
            Step(done.(routeDetails := Some(RouteDetails(routeId, rd.startPoint, rd.endPoint))),
                 [ReadBus(props.busId), ReadRoute(routeId)])
          case _ => Step(done, [ReadBus(props.busId), ReadRoute(routeId), ShowAlert(RouteLoadFailed)])
        else Step(done, [ReadBus(props.busId)])
      case _ => Step(done, [ReadBus(props.busId), ShowAlert(RouteLoadFailed)])
  }

  /** `requestPermission`. */
  function RequestPermissionStep(s: State, platform: Platform): (r: Step)
    ensures r.next == s.(hasPermission := r.next.hasPermission)
    ensures r.next.hasPermission <==>
              platform == OtherPlatform || platform == Android(Granted) || (platform == Android(RequestThrew) && s.hasPermission)
    ensures ShowAlert(PermissionDenied) in r.effects <==>
              platform == Android(Denied) || platform == Android(NeverAskAgain)
    ensures RequestLocationPermission in r.effects <==> platform.Android?
    ensures forall e :: e in r.effects ==> !IsGeolocation(e) && !IsStoreWrite(e)
  {
    match platform
    case OtherPlatform => Step(s.(hasPermission := true), [])
    case Android(answer) =>
      match answer
      case Granted => Step(s.(hasPermission := true), [RequestLocationPermission])
      case RequestThrew => Step(s, [RequestLocationPermission])
      case _ => Step(s.(hasPermission := false), [RequestLocationPermission, ShowAlert(PermissionDenied)])
  }

  /**
   * The write guard and payload of `updateLocationInFirestore`: no write
   * without a bus id, a driver id and a route id.
   */
  function LiveTripWrite(props: Props, routeDetails: Option<RouteDetails>, coords: Coords): (w: Option<Effect>)
    ensures w.None? <==> props.busId == "" || props.user.uid == "" || routeDetails.None? || routeDetails.value.id == ""
    ensures w.Some? ==> w.value.MergeLiveTrip? && w.value.docId == props.busId
    ensures w.Some? ==> w.value.trip == LiveTrip(props.user.uid, routeDetails.value.id, coords, true)
  {
    if props.busId == "" || props.user.uid == "" || routeDetails.None? || routeDetails.value.id == "" then None
    else Some(MergeLiveTrip(props.busId, LiveTrip(props.user.uid, routeDetails.value.id, coords, true)))
  }

  /**
   * `updateLocationInFirestore`, used by both the one-shot and the watch
   * callback. `written` is whether the write's promise resolves.
   */
  function UpdateLocationStep(s: State, props: Props, coords: Coords, written: bool): (r: Step)
    ensures LiveTripWrite(props, s.routeDetails, coords).None? ==> r == Step(s, [])
    ensures LiveTripWrite(props, s.routeDetails, coords).Some? ==>
              r.effects == [LiveTripWrite(props, s.routeDetails, coords).value]
    // the shown location changes only after a write that succeeded, and then to the fix
    ensures r.next == s || (LiveTripWrite(props, s.routeDetails, coords).Some? && written && r.next == s.(location := Some(coords)))
    ensures LiveTripWrite(props, s.routeDetails, coords).Some? && written ==> r.next.location == Some(coords)
  {
    match LiveTripWrite(props, s.routeDetails, coords)
    case None => Step(s, [])
    case Some(write) => Step(if written then s.(location := Some(coords)) else s, [write])
  }

  /** Start was refused: missing permission or missing route details. */
  predicate StartRefused(s: State) {
    !s.hasPermission || s.routeDetails.None?
  }

  /**
   * `startTracking`. `geoWatchId` is the id `watchPosition` returns. The
   * one-shot fix arrives later, through `UpdateLocation` or
   * `InitialFixFailed`.
   */
  function StartTrackingStep(s: State, geoWatchId: WatchId): (r: Step)
    // permission is checked first, then the route details; a refusal changes nothing
    ensures !s.hasPermission ==> r == Step(s, [ShowAlert(PermissionRequired)])
    ensures s.hasPermission && s.routeDetails.None? ==> r == Step(s, [ShowAlert(CannotStart)])
    ensures StartRefused(s) ==> r.next == s && forall e :: e in r.effects ==> !IsGeolocation(e) && !IsStoreWrite(e)
    // a valid start: tracking, one one-shot request, one watch whose id is kept
    ensures !StartRefused(s) ==>
              r.next == s.(isTracking := true, watchId := Some(geoWatchId))
              && r.effects == [GetCurrentPosition, WatchPosition(geoWatchId)]
  {
    if !s.hasPermission then Step(s, [ShowAlert(PermissionRequired)])
    else if s.routeDetails.None? then Step(s, [ShowAlert(CannotStart)])
    else Step(s.(isTracking := true, watchId := Some(geoWatchId)), [GetCurrentPosition, WatchPosition(geoWatchId)])
  }

  /** The one-shot request's error callback: tracking drops, the watch stays. */
  function InitialFixFailedStep(s: State): (r: Step)
    ensures !r.next.isTracking
    ensures r.next == s.(isTracking := false)
    ensures r.effects == [ShowAlert(LocationUnavailable)]
  {
    Step(s.(isTracking := false), [ShowAlert(LocationUnavailable)])
  }

  /** The watch's error callback only logs. */
  function WatchFailedStep(s: State): (r: Step)
    ensures r == Step(s, [])
  {
    Step(s, [])
  }

  /**
   * `stopTracking`: clears a held watch, and always drops tracking, forgets
   * the location and sends the inactive update.
   */
  function StopTrackingStep(s: State, props: Props): (r: Step)
    ensures !r.next.isTracking && r.next.location.None?
    ensures r.next == s.(isTracking := false, location := None, watchId := r.next.watchId)
    ensures Held(s.watchId) ==> r.next.watchId.None? && r.effects == [ClearWatch(s.watchId.value), DeactivateLiveTrip(props.busId)]
    ensures !Held(s.watchId) ==> r.next.watchId == s.watchId && r.effects == [DeactivateLiveTrip(props.busId)]
  {
    var clear := if Held(s.watchId) then [ClearWatch(s.watchId.value)] else [];
    var next := s.(isTracking := false, location := None, watchId := if Held(s.watchId) then None else s.watchId);
    Step(next, clear + [DeactivateLiveTrip(props.busId)])
  }

  /**
   * The re-render after `watchId` changed: the previous cleanup runs (it
   * clears the watch it captured, if truthy) and a new one captures the
   * current `watchId`.
   */
  function CommitWatchEffectStep(s: State): (r: Step)
    ensures r.next == s.(cleanupWatchId := s.watchId)
    ensures r.effects == if s.cleanupWatchId != s.watchId && Held(s.cleanupWatchId)
                         then [ClearWatch(s.cleanupWatchId.value)] else []
  {
    if s.cleanupWatchId != s.watchId && Held(s.cleanupWatchId)
    then Step(s.(cleanupWatchId := s.watchId), [ClearWatch(s.cleanupWatchId.value)])
    else Step(s.(cleanupWatchId := s.watchId), [])
  }

  /**
   * Unmounting runs the installed cleanup: a held watch is cleared, and
   * nothing is written to `live_trips`.
   */
  function UnmountEffects(s: State): (effects: seq<Effect>)
    ensures Held(s.cleanupWatchId) ==> effects == [ClearWatch(s.cleanupWatchId.value)]
    ensures !Held(s.cleanupWatchId) ==> effects == []
  {
    if Held(s.cleanupWatchId) then [ClearWatch(s.cleanupWatchId.value)] else []
  }

  /** The mounted screen; its methods are the handlers and callbacks. */
  class TrackingScreen {
    const props: Props
    var isTracking: bool
    var location: Option<Coords>
    var watchId: Option<WatchId>
    var routeDetails: Option<RouteDetails>
    var loadingRoute: bool
    var hasPermission: bool
    var cleanupWatchId: Option<WatchId>
    /** Every effect emitted since mounting, in order. */
    ghost var effects: seq<Effect>

    function Snapshot(): State
      reads this
    {
      State(isTracking, location, watchId, routeDetails, loadingRoute, hasPermission, cleanupWatchId)
    }

    constructor (props: Props)
      ensures this.props == props && Snapshot() == Initial() && effects == []
    {
      this.props := props;
      isTracking, location, watchId, routeDetails := false, None, None, None;
      loadingRoute, hasPermission, cleanupWatchId := true, false, None;
      effects := [];
    }

    method FetchRouteInfo(bus: DocRead<BusData>, route: DocRead<RouteData>)
      modifies this
      ensures Snapshot() == FetchRouteInfoStep(old(Snapshot()), props, bus, route).next
      ensures effects == old(effects) + FetchRouteInfoStep(old(Snapshot()), props, bus, route).effects
    {
      if props.busId == "" {
        return;
      }
      loadingRoute := true;
      effects := effects + [ReadBus(props.busId)];
      if bus.Exists? {
        var routeId := bus.data.routeId;
        if Truthy(routeId) {
          effects := effects + [ReadRoute(routeId.value)];
          if route.Exists? {
            routeDetails := Some(RouteDetails(routeId.value, route.data.startPoint, route.data.endPoint));
          } else {
            effects := effects + [ShowAlert(RouteLoadFailed)];
          }
        }
      } else {
        effects := effects + [ShowAlert(RouteLoadFailed)];
      }
      loadingRoute := false;
    }

    method RequestPermission(platform: Platform)
      modifies this
      ensures Snapshot() == RequestPermissionStep(old(Snapshot()), platform).next
      ensures effects == old(effects) + RequestPermissionStep(old(Snapshot()), platform).effects
    {
      if platform.Android? {
        effects := effects + [RequestLocationPermission];
        if platform.answer == Granted {
          hasPermission := true;
        } else if platform.answer != RequestThrew {
          hasPermission := false;
          effects := effects + [ShowAlert(PermissionDenied)];
        }
      } else {
        hasPermission := true;
      }
    }

    /** The success callback of either the one-shot request or the watch. */
    method UpdateLocationInFirestore(coords: Coords, written: bool)
      modifies this
      ensures Snapshot() == UpdateLocationStep(old(Snapshot()), props, coords, written).next
      ensures effects == old(effects) + UpdateLocationStep(old(Snapshot()), props, coords, written).effects
    {
      if props.busId == "" || props.user.uid == "" || routeDetails.None? || routeDetails.value.id == "" {
        return;
      }
      effects := effects + [MergeLiveTrip(props.busId, LiveTrip(props.user.uid, routeDetails.value.id, coords, true))];
      if written {
        location := Some(coords);
      }
    }

    method StartTracking(geoWatchId: WatchId)
      modifies this
      ensures Snapshot() == StartTrackingStep(old(Snapshot()), geoWatchId).next
      ensures effects == old(effects) + StartTrackingStep(old(Snapshot()), geoWatchId).effects
    {
      if !hasPermission {
        effects := effects + [ShowAlert(PermissionRequired)];
        return;
      }
      if routeDetails.None? {
        effects := effects + [ShowAlert(CannotStart)];
        return;
      }
      isTracking := true;
      effects := effects + [GetCurrentPosition];
      effects := effects + [WatchPosition(geoWatchId)];
      watchId := Some(geoWatchId);
    }

    method OnInitialFixError()
      modifies this
      ensures Snapshot() == InitialFixFailedStep(old(Snapshot())).next
      ensures effects == old(effects) + InitialFixFailedStep(old(Snapshot())).effects
    {
      effects := effects + [ShowAlert(LocationUnavailable)];
      isTracking := false;
    }

    /** The watch's error callback. */
    method OnWatchError()
      modifies this
      ensures Snapshot() == WatchFailedStep(old(Snapshot())).next
      ensures effects == old(effects) + WatchFailedStep(old(Snapshot())).effects
    {
    }

    method StopTracking()
      modifies this
      ensures Snapshot() == StopTrackingStep(old(Snapshot()), props).next
      ensures effects == old(effects) + StopTrackingStep(old(Snapshot()), props).effects
    {
      if watchId.Some? && watchId.value != 0 {
        effects := effects + [ClearWatch(watchId.value)];
        watchId := None;
      }
      isTracking := false;
      location := None;
      effects := effects + [DeactivateLiveTrip(props.busId)];
    }

    method CommitWatchEffect()
      modifies this
      ensures Snapshot() == CommitWatchEffectStep(old(Snapshot())).next
      ensures effects == old(effects) + CommitWatchEffectStep(old(Snapshot())).effects
    {
      if cleanupWatchId != watchId {
        if cleanupWatchId.Some? && cleanupWatchId.value != 0 {
          effects := effects + [ClearWatch(cleanupWatchId.value)];
        }
        cleanupWatchId := watchId;
      }
    }

    method Unmount()
      modifies this`effects
      ensures effects == old(effects) + UnmountEffects(Snapshot())
    {
      if cleanupWatchId.Some? && cleanupWatchId.value != 0 {
        effects := effects + [ClearWatch(cleanupWatchId.value)];
      }
    }
  }
}
