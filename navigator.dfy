/**
 * The app's navigator: which screen is shown for the auth state and the
 * selected bus, and how signing out and selecting a bus change them.
 */
module Navigator {
  import opened Wrappers
  import opened Backend

  /** What the navigator shows. */
  datatype Screen =
    | ShowLoader
    | ShowPhoneAuth
    | ShowBusSelection
    | ShowTracking(user: User, busId: string)

  /** `renderScreen`: sign-in without a user, selection without a bus, tracking with both. */
  function RenderScreen(user: Option<User>, selectedBus: Option<string>): (r: Screen)
    ensures r != ShowLoader
    ensures r == ShowPhoneAuth <==> user.None?
    ensures r == ShowBusSelection <==> user.Some? && !Truthy(selectedBus)
    ensures r.ShowTracking? <==> user.Some? && Truthy(selectedBus)
    // the tracking screen always receives the signed-in user and a non-empty bus id
    ensures r.ShowTracking? ==> r.user == user.value && r.busId == selectedBus.value && r.busId != ""
  {
    if user.None? then ShowPhoneAuth
    else if !Truthy(selectedBus) then ShowBusSelection
    else ShowTracking(user.value, selectedBus.value)
  }

  /** Calls made to the identity provider. */
  datatype AuthCall = SignOut

  class App {
    var initializing: bool
    var user: Option<User>
    var selectedBus: Option<string>
    /** Every call made to the identity provider, in order. */
    ghost var calls: seq<AuthCall>

    /** What the app renders: the loader until the first auth state, then `renderScreen`. */
    function View(): (r: Screen)
      reads this
      ensures r == ShowLoader <==> initializing
    {
      if initializing then ShowLoader else RenderScreen(user, selectedBus)
    }

    constructor ()
      ensures initializing && user.None? && selectedBus.None? && calls == []
      ensures View() == ShowLoader
    {
      initializing, user, selectedBus := true, None, None;
      calls := [];
    }

    /** The `onAuthStateChanged` listener. */
    method OnAuthStateChanged(currentUser: Option<User>)
      modifies this`user, this`initializing
      ensures user == currentUser && !initializing
      ensures currentUser.None? ==> View() == ShowPhoneAuth
    {
      user := currentUser;
      initializing := false;
    }

    /** `onBusSelect`, passed to the bus-selection screen as `setSelectedBus`. */
    method SelectBus(busId: string)
      modifies this`selectedBus
      ensures selectedBus == Some(busId)
      ensures !initializing && user.Some? && busId != "" ==> View() == ShowTracking(user.value, busId)
    {
      selectedBus := Some(busId);
    }

    /**
     * `handleSignOut`: with a user, sign out and then clear the selected bus;
     * the bus stays selected if signing out fails. Without a user, nothing.
     */
    method HandleSignOut(signOutSucceeds: bool)
      modifies this`selectedBus, this`calls
      ensures user.None? ==> selectedBus == old(selectedBus) && calls == old(calls)
      ensures user.Some? ==> calls == old(calls) + [SignOut]
      ensures user.Some? ==> selectedBus == if signOutSucceeds then None else old(selectedBus)
      ensures user.Some? && signOutSucceeds && !initializing ==> View() == ShowBusSelection
    {
      if user.Some? {
        calls := calls + [SignOut];
        if signOutSucceeds {
          selectedBus := None;
        }
      }
    }

    /**
     * Signing out as it plays out: `handleSignOut`, and after a successful
     * sign-out the auth listener's report of no user. The app ends on the
     * sign-in screen with no bus selected.
     */
    method SignOutAndNotify(signOutSucceeds: bool)
      modifies this
      ensures old(user).Some? && signOutSucceeds ==>
                user.None? && selectedBus.None? && View() == ShowPhoneAuth
                && calls == old(calls) + [SignOut]
      ensures old(user).Some? && !signOutSucceeds ==>
                user == old(user) && selectedBus == old(selectedBus) && calls == old(calls) + [SignOut]
                && initializing == old(initializing)
      ensures old(user).None? ==>
                user.None? && selectedBus == old(selectedBus) && calls == old(calls)
                && initializing == old(initializing)
    {
      var signedIn := user.Some?;
      HandleSignOut(signOutSucceeds);
      if signedIn && signOutSucceeds {
        OnAuthStateChanged(None);
      }
    }
  }
}
