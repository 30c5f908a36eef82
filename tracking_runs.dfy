/**
 * Runs of the tracking screen: sequences of handler calls and platform
 * callbacks applied one after the other, and what every such run emits.
 */
module TrackingRuns {
  import opened Wrappers
  import opened Backend
  import opened Tracking

  /** One thing that can happen to a mounted tracking screen. */
  datatype Event =
    | RouteFetched(bus: DocRead<BusData>, route: DocRead<RouteData>)
    | PermissionResolved(platform: Platform)
    | StartPressed(geoWatchId: WatchId)
    | InitialFix(coords: Coords, written: bool)
    | InitialFixError
    | WatchedFix(coords: Coords, written: bool)
    | WatchError
    | EndPressed
    | WatchIdCommitted

  function Apply(s: State, props: Props, ev: Event): Step {
    match ev
    case RouteFetched(bus, route) => FetchRouteInfoStep(s, props, bus, route)
    case PermissionResolved(platform) => RequestPermissionStep(s, platform)
    case StartPressed(geoWatchId) => StartTrackingStep(s, geoWatchId)
    case InitialFix(coords, written) => UpdateLocationStep(s, props, coords, written)
    case InitialFixError => InitialFixFailedStep(s)
    case WatchedFix(coords, written) => UpdateLocationStep(s, props, coords, written)
    case WatchError => WatchFailedStep(s)
    case EndPressed => StopTrackingStep(s, props)
    case WatchIdCommitted => CommitWatchEffectStep(s)
  }

  /**
   * Both position callbacks run `updateLocationInFirestore`, and neither
   * looks at `isTracking` or the watch: a fix writes whenever the session
   * and route allow it, tracking or not.
   */
  lemma FixCallbacksIgnoreTracking(s: State, props: Props, c: Coords, written: bool, tracking: bool, w: Option<WatchId>)
    ensures Apply(s, props, InitialFix(c, written)) == Apply(s, props, WatchedFix(c, written))
    ensures Apply(s.(isTracking := tracking, watchId := w), props, WatchedFix(c, written)).effects
            == Apply(s, props, WatchedFix(c, written)).effects
    ensures LiveTripWrite(props, s.routeDetails, c).Some? ==>
              Apply(s, props, WatchedFix(c, written)).effects == [LiveTripWrite(props, s.routeDetails, c).value]
  {
  }

  /** The final state of a run and all the effects it emitted, in order. */
  function Run(s: State, props: Props, events: seq<Event>): Step
    decreases |events|
  {
    if events == [] then Step(s, [])
    else
      var first := Apply(s, props, events[0]);
      var rest := Run(first.next, props, events[1..]);
      Step(rest.next, first.effects + rest.effects)
  }

  /** A write to `live_trips` that carries this session's identities. */
  ghost predicate SessionWrite(e: Effect, props: Props) {
    e.MergeLiveTrip? ==>
      && e.docId == props.busId && props.busId != ""
      && e.trip.driverId == props.user.uid && props.user.uid != ""
      && e.trip.routeId != "" && e.trip.isActive
  }

  /** Every merge write of every run goes to this bus's document, as this driver, with a route, active. */
  lemma {:induction false} RunWritesCarrySession(s: State, props: Props, events: seq<Event>)
    ensures forall e :: e in Run(s, props, events).effects ==> SessionWrite(e, props)
    decreases |events|
  {
    if events != [] {
      var first := Apply(s, props, events[0]);
      assert forall e :: e in first.effects ==> SessionWrite(e, props);
      RunWritesCarrySession(first.next, props, events[1..]);
    }
  }

  /**
   * Once the route is resolved and not fetched again, every merge write of
   * the run carries that route's id, however many fixes arrive.
   */
  lemma {:induction false} RunWritesCarryRoute(s: State, props: Props, events: seq<Event>, rd: RouteDetails)
    requires s.routeDetails == Some(rd)
    requires forall i :: 0 <= i < |events| ==> !events[i].RouteFetched?
    ensures Run(s, props, events).next.routeDetails == Some(rd)
    ensures forall e :: e in Run(s, props, events).effects && e.MergeLiveTrip? ==> e.trip.routeId == rd.id
    decreases |events|
  {
    if events != [] {
      var first := Apply(s, props, events[0]);
      assert first.next.routeDetails == Some(rd);
      RunWritesCarryRoute(first.next, props, events[1..], rd);
    }
  }

  /** The number of inactive updates in a list of effects. */
  function Deactivations(effects: seq<Effect>): nat {
    if effects == [] then 0
    else (if effects[0].DeactivateLiveTrip? then 1 else 0) + Deactivations(effects[1..])
  }

  /** The number of "End Trip" presses in a run. */
  function EndPresses(events: seq<Event>): nat {
    if events == [] then 0
    else (if events[0].EndPressed? then 1 else 0) + EndPresses(events[1..])
  }

  lemma {:induction false} DeactivationsAppend(a: seq<Effect>, b: seq<Effect>)
    ensures Deactivations(a + b) == Deactivations(a) + Deactivations(b)
  {
    if a == [] {
      assert a + b == b;
    } else {
      assert (a + b)[1..] == a[1..] + b;
      DeactivationsAppend(a[1..], b);
    }
  }

  /** One event emits one inactive update if it is "End Trip", none otherwise. */
  lemma ApplyDeactivations(s: State, props: Props, ev: Event)
    ensures Deactivations(Apply(s, props, ev).effects) == if ev.EndPressed? then 1 else 0
  {
    var effects := Apply(s, props, ev).effects;
    if ev.EndPressed? {
      var clear := if Held(s.watchId) then [ClearWatch(s.watchId.value)] else [];
      assert effects == clear + [DeactivateLiveTrip(props.busId)];
      ZeroDeactivations(clear);
      DeactivationsAppend(clear, [DeactivateLiveTrip(props.busId)]);
      assert Deactivations([DeactivateLiveTrip(props.busId)]) == 1 + Deactivations([]);
    } else {
      ZeroDeactivations(effects);
    }
  }

  lemma {:induction false} ZeroDeactivations(effects: seq<Effect>)
    requires forall e :: e in effects ==> !e.DeactivateLiveTrip?
    ensures Deactivations(effects) == 0
  {
    if effects != [] {
      assert effects[0] in effects;
      ZeroDeactivations(effects[1..]);
    }
  }

  /**
   * Every "End Trip" sends exactly one inactive update, whatever the state,
   * and nothing else sends one: a run emits as many as it has presses.
   */
  lemma {:induction false} DeactivationsMatchEndPresses(s: State, props: Props, events: seq<Event>)
    ensures Deactivations(Run(s, props, events).effects) == EndPresses(events)
    decreases |events|
  {
    if events != [] {
      var first := Apply(s, props, events[0]);
      ApplyDeactivations(s, props, events[0]);
      DeactivationsMatchEndPresses(first.next, props, events[1..]);
      DeactivationsAppend(first.effects, Run(first.next, props, events[1..]).effects);
    }
  }

  /** Effects that start location work or send a position. */
  predicate IsBroadcast(e: Effect) {
    e.GetCurrentPosition? || e.WatchPosition? || e.MergeLiveTrip?
  }

  /**
   * A bus whose document names no route (or whose route cannot be read)
   * never broadcasts: start is refused every time, nothing is written and
   * no location work is started.
   */
  lemma {:induction false} UnresolvedRouteNeverBroadcasts(s: State, props: Props, events: seq<Event>)
    requires s.routeDetails.None? && !s.isTracking
    requires forall i :: 0 <= i < |events| && events[i].RouteFetched? ==>
               !ResolvesRoute(props, events[i].bus, events[i].route)
    ensures Run(s, props, events).next.routeDetails.None?
    ensures !Run(s, props, events).next.isTracking
    ensures forall e :: e in Run(s, props, events).effects ==> !IsBroadcast(e)
    decreases |events|
  {
    if events != [] {
      var first := Apply(s, props, events[0]);
      assert first.next.routeDetails.None? && !first.next.isTracking;
      assert forall e :: e in first.effects ==> !IsBroadcast(e);
      UnresolvedRouteNeverBroadcasts(first.next, props, events[1..]);
    }
  }

  /** A permission answer that leaves the permission off when it was off. */
  predicate GrantsNothing(platform: Platform) {
    platform.Android? && platform.answer != Granted
  }

  /**
   * Without permission, and with no answer that grants it, start is refused
   * every time: tracking never begins and no fix request or watch is started.
   */
  lemma {:induction false} NoPermissionNeverStarts(s: State, props: Props, events: seq<Event>)
    requires !s.hasPermission && !s.isTracking
    requires forall i :: 0 <= i < |events| && events[i].PermissionResolved? ==>
               GrantsNothing(events[i].platform)
    ensures !Run(s, props, events).next.hasPermission
    ensures !Run(s, props, events).next.isTracking
    ensures forall e :: e in Run(s, props, events).effects ==> !e.GetCurrentPosition? && !e.WatchPosition?
    decreases |events|
  {
    if events != [] {
      var first := Apply(s, props, events[0]);
      assert !first.next.hasPermission && !first.next.isTracking;
      assert forall e :: e in first.effects ==> !e.GetCurrentPosition? && !e.WatchPosition?;
      NoPermissionNeverStarts(first.next, props, events[1..]);
    }
  }

  /** Stopping twice leaves the state of stopping once. */
  lemma StopIdempotent(s: State, props: Props)
    ensures StopTrackingStep(StopTrackingStep(s, props).next, props).next == StopTrackingStep(s, props).next
  {
  }

  // Worked runs for bus "B12" on route "R5" (Central to Airport).

  function B12(): Props {
    Props(User("driver-1"), "B12")
  }

  function RouteR5(): RouteDetails {
    RouteDetails("R5", "Central", "Airport")
  }

  function FetchR5(): Event {
    RouteFetched(Exists(BusData("Volvo", Some("R5"))), Exists(RouteData("Central", "Airport")))
  }

  /** The route is loaded and permission granted. */
  function ReadyState(): State {
    Initial().(loadingRoute := false, routeDetails := Some(RouteR5()), hasPermission := true)
  }

  /** Mounting, loading "R5" and being granted permission reach the ready state. */
  lemma BusWithRouteBecomesReady()
    ensures Run(Initial(), B12(), [FetchR5(), PermissionResolved(OtherPlatform)])
            == Step(ReadyState(), [ReadBus("B12"), ReadRoute("R5")])
  {
  }

  /**
   * Start, the one-shot fix and two watched fixes: three merge writes, all
   * active, each with its own fix, and the last fix shown.
   */
  lemma ThreeFixesThreeWrites()
    ensures
      var c1, c2, c3 := Coords(12.97, 77.59), Coords(12.971, 77.591), Coords(12.972, 77.592);
      var run := Run(ReadyState(), B12(),
        [StartPressed(1), WatchIdCommitted, InitialFix(c1, true), WatchedFix(c2, true), WatchedFix(c3, true)]);
      && run.effects == [GetCurrentPosition, WatchPosition(1),
                         MergeLiveTrip("B12", LiveTrip("driver-1", "R5", c1, true)),
                         MergeLiveTrip("B12", LiveTrip("driver-1", "R5", c2, true)),
                         MergeLiveTrip("B12", LiveTrip("driver-1", "R5", c3, true))]
      && run.next.isTracking && run.next.location == Some(c3)
  {
    var c1, c2, c3 := Coords(12.97, 77.59), Coords(12.971, 77.591), Coords(12.972, 77.592);
    var events := [StartPressed(1), WatchIdCommitted, InitialFix(c1, true), WatchedFix(c2, true), WatchedFix(c3, true)];
    var started := ReadyState().(isTracking := true, watchId := Some(1));
    var tracking := started.(cleanupWatchId := Some(1));
    var m1, m2, m3 := MergeLiveTrip("B12", LiveTrip("driver-1", "R5", c1, true)),
                      MergeLiveTrip("B12", LiveTrip("driver-1", "R5", c2, true)),
                      MergeLiveTrip("B12", LiveTrip("driver-1", "R5", c3, true));
    assert Run(tracking.(location := Some(c2)), B12(), events[4..]) == Step(tracking.(location := Some(c3)), [m3]);
    assert Run(tracking.(location := Some(c1)), B12(), events[3..]) == Step(tracking.(location := Some(c3)), [m2, m3]);
    assert Run(tracking, B12(), events[2..]) == Step(tracking.(location := Some(c3)), [m1, m2, m3]);
    assert Run(started, B12(), events[1..]) == Step(tracking.(location := Some(c3)), [m1, m2, m3]);
  }

  /**
   * "End Trip" right after start: the watch is cleared (once by the handler
   * and once more by the cleanup of the re-render) and one inactive update
   * is sent.
   */
  lemma StopRightAfterStart()
    ensures
      var run := Run(ReadyState(), B12(), [StartPressed(1), WatchIdCommitted, EndPressed, WatchIdCommitted]);
      && run.effects == [GetCurrentPosition, WatchPosition(1), ClearWatch(1), DeactivateLiveTrip("B12"), ClearWatch(1)]
      && !run.next.isTracking && run.next.watchId.None? && run.next.location.None?
  {
  }

  /**
   * "End Trip" does not cancel the one-shot request: a first fix that
   * arrives after the stop writes `isActive: true` again.
   */
  lemma LateFirstFixReactivates(c: Coords)
    ensures
      var run := Run(ReadyState(), B12(), [StartPressed(1), WatchIdCommitted, EndPressed, WatchIdCommitted, InitialFix(c, true)]);
      && run.effects == [GetCurrentPosition, WatchPosition(1), ClearWatch(1), DeactivateLiveTrip("B12"), ClearWatch(1),
                         MergeLiveTrip("B12", LiveTrip("driver-1", "R5", c, true))]
      && !run.next.isTracking && run.next.watchId.None? && run.next.location == Some(c)
  {
    var events := [StartPressed(1), WatchIdCommitted, EndPressed, WatchIdCommitted, InitialFix(c, true)];
    var started := ReadyState().(isTracking := true, watchId := Some(1));
    var write := MergeLiveTrip("B12", LiveTrip("driver-1", "R5", c, true));
    var ended := ReadyState().(location := Some(c));
    assert Run(ReadyState(), B12(), events[4..]) == Step(ended, [write]);
    assert Run(ReadyState().(cleanupWatchId := Some(1)), B12(), events[3..]) == Step(ended, [ClearWatch(1), write]);
    assert Run(started.(cleanupWatchId := Some(1)), B12(), events[2..]) ==
           Step(ended, [ClearWatch(1), DeactivateLiveTrip("B12"), ClearWatch(1), write]);
    assert Run(started, B12(), events[1..]) == Step(ended, [ClearWatch(1), DeactivateLiveTrip("B12"), ClearWatch(1), write]);
  }

  /** A bus document without `routeId`: no error, no route, and start is refused. */
  lemma BusWithoutRouteCannotStart()
    ensures
      var run := Run(Initial(), Props(User("driver-1"), "B99"),
        [RouteFetched(Exists(BusData("Volvo", None)), Missing), PermissionResolved(Android(Granted)), StartPressed(1)]);
      && run.effects == [ReadBus("B99"), RequestLocationPermission, ShowAlert(CannotStart)]
      && run.next.routeDetails.None? && !run.next.loadingRoute && !run.next.isTracking
  {
  }

  /**
   * A failed one-shot fix drops tracking but keeps the watch: nothing clears
   * it until a second start replaces `watchId` and the re-render's cleanup
   * clears the first watch.
   */
  lemma FailedInitialFixKeepsWatch()
    ensures
      var run := Run(ReadyState(), B12(), [StartPressed(1), WatchIdCommitted, InitialFixError]);
      && run.effects == [GetCurrentPosition, WatchPosition(1), ShowAlert(LocationUnavailable)]
      && !run.next.isTracking && run.next.watchId == Some(1)
    ensures
      var run := Run(ReadyState(), B12(), [StartPressed(1), WatchIdCommitted, InitialFixError, StartPressed(2), WatchIdCommitted]);
      && run.effects == [GetCurrentPosition, WatchPosition(1), ShowAlert(LocationUnavailable),
                         GetCurrentPosition, WatchPosition(2), ClearWatch(1)]
      && run.next.isTracking && run.next.watchId == Some(2)
  {
  }

  /**
   * A watch whose id is 0 is falsy to every check: "End Trip", the re-render
   * and unmounting all leave it running, and `watchId` keeps it. Its next fix
   * writes `isActive: true` again, after the inactive update.
   */
  lemma WatchIdZeroIsNeverCleared(c: Coords)
    ensures
      var run := Run(ReadyState(), B12(), [StartPressed(0), WatchIdCommitted, EndPressed, WatchIdCommitted]);
      && run.effects == [GetCurrentPosition, WatchPosition(0), DeactivateLiveTrip("B12")]
      && run.next.watchId == Some(0)
      && UnmountEffects(run.next) == []
    ensures
      var run := Run(ReadyState(), B12(), [StartPressed(0), WatchIdCommitted, EndPressed, WatchIdCommitted, WatchedFix(c, true)]);
      && run.effects == [GetCurrentPosition, WatchPosition(0), DeactivateLiveTrip("B12"),
                         MergeLiveTrip("B12", LiveTrip("driver-1", "R5", c, true))]
      && !run.next.isTracking && run.next.location == Some(c)
  {
    var events := [StartPressed(0), WatchIdCommitted, EndPressed, WatchIdCommitted, WatchedFix(c, true)];
    var started := ReadyState().(isTracking := true, watchId := Some(0));
    var stopped := ReadyState().(watchId := Some(0), cleanupWatchId := Some(0));
    var write := MergeLiveTrip("B12", LiveTrip("driver-1", "R5", c, true));
    assert Run(stopped, B12(), events[4..]) == Step(stopped.(location := Some(c)), [write]);
    assert Run(stopped, B12(), events[3..]) == Step(stopped.(location := Some(c)), [write]);
    assert Run(started.(cleanupWatchId := Some(0)), B12(), events[2..]) ==
           Step(stopped.(location := Some(c)), [DeactivateLiveTrip("B12"), write]);
    assert Run(started, B12(), events[1..]) == Step(stopped.(location := Some(c)), [DeactivateLiveTrip("B12"), write]);
  }
}
