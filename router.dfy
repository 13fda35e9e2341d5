/** The single-page router: three views, the route table between hashes and views, the
    navigation that shows one view and hides the rest, the choice of view once the auth
    state is known, and the guard on hash changes. */
module Router {

  import opened Wrappers
  import opened Listeners

  const Landing: string := "landing-view"
  const App: string := "app-view"
  const Profile: string := "profile-view"

  /** `Object.values(VIEWS)`. */
  const Views: seq<string> := [Landing, App, Profile]

  /** `routeToViewId`. */
  function RouteToViewId(route: string): (r: string)
    ensures r in Views
  {
    if route == "/" || route == "/landing" then Landing
    else if route == "/app" then App
    else if route == "/profile" then Profile
    else Landing
  }

  /** `viewIdToRoute`. */
  function ViewIdToRoute(viewId: string): string {
    if viewId == Landing then "/"
    else if viewId == App then "/app"
    else if viewId == Profile then "/profile"
    else "/"
  }

  /** Exactly `/app` leads to the app and `/profile` to the profile; every other route,
      known or not, leads to the landing view. */
  lemma RouteTable(route: string)
    ensures RouteToViewId(route) == App <==> route == "/app"
    ensures RouteToViewId(route) == Profile <==> route == "/profile"
    ensures RouteToViewId(route) == Landing <==> route != "/app" && route != "/profile"
  {
    assert |Landing| != |App| && |App| != |Profile| && Landing[0] != Profile[0];
  }

  /** The route written for a view leads back to that view. */
  lemma RouteRoundTrip(viewId: string)
    requires viewId in Views
    ensures RouteToViewId(ViewIdToRoute(viewId)) == viewId
  {
  }

  /** `location.hash.slice(1) || '/'`. */
  function HashRoute(hash: string): (r: string)
    ensures r != ""
    ensures |hash| > 1 ==> r == hash[1..]
    ensures |hash| <= 1 ==> r == "/"
  {
    if |hash| <= 1 then "/" else hash[1..]
  }

  /** The view `handleAuthNavigation` picks: the landing view when signed out; when signed
      in, the profile for `/profile` and the app for anything else. */
  function AuthTarget(signedIn: bool, route: string): string {
    if !signedIn then Landing
    else if route == "/" || route == "/landing" then App
    else if route == "/profile" then Profile
    else App
  }

  lemma AuthTargetRules(signedIn: bool, route: string)
    ensures !signedIn ==> AuthTarget(signedIn, route) == Landing
    ensures signedIn ==> (AuthTarget(signedIn, route) == Profile <==> route == "/profile")
    ensures signedIn ==> (AuthTarget(signedIn, route) == App <==> route != "/profile")
    ensures AuthTarget(signedIn, route) != Landing <==> signedIn
  {
    assert |Landing| != |App| && |App| != |Profile| && Landing[0] != Profile[0];
  }

  /** The view a hash change shows: the route's view, except that the app and the profile
      need a signed-in user and send everyone else to the landing view. */
  function GuardedView(signedIn: bool, route: string): string {
    var viewId := RouteToViewId(route);
    if (viewId == App || viewId == Profile) && !signedIn then Landing else viewId
  }

  /** After a hash change a signed-out user never sees the app or the profile, and a
      signed-in user sees the route's own view. */
  lemma GuardRules(signedIn: bool, route: string)
    ensures !signedIn ==> GuardedView(signedIn, route) == Landing
    ensures signedIn ==> GuardedView(signedIn, route) == RouteToViewId(route)
  {
  }

  /** The router's module state and the part of the page it touches: which elements exist
      (`present`), which of them carry the `hidden` class, and the location hash. `L` is the
      type of view-change callbacks. */
  class Router<L(==)> {
    var currentView: Option<string>
    var authReady: bool
    var hash: string
    var hidden: set<string>
    const present: set<string>
    const registry: Registry<L>

    constructor(present0: set<string>, hash0: string)
      ensures currentView.None? && !authReady && hash == hash0 && hidden == {}
      ensures present == present0 && fresh(registry) && registry.listeners == []
    {
      currentView := None;
      authReady := false;
      hash := hash0;
      hidden := {};
      present := present0;
      registry := new Registry();
    }

    /** `navigateTo`: every present view is hidden; when the target element exists it is
        shown, becomes the current view, the hash follows it if asked, and the listeners
        are notified (the returned callbacks, in order). A missing target changes nothing
        else and notifies nobody. */
    method NavigateTo(viewId: string, pushState: bool) returns (notified: seq<L>)
      modifies this
      ensures var allHidden := old(hidden) + (set v | v in Views && v in present);
        hidden == if viewId in present then allHidden - {viewId} else allHidden
      ensures viewId in present ==> currentView == Some(viewId)
      ensures viewId in present && pushState ==> hash == "#" + ViewIdToRoute(viewId)
      ensures viewId in present ==> notified == registry.listeners
      ensures viewId !in present ==> currentView == old(currentView) && notified == []
      ensures !(viewId in present && pushState) ==> hash == old(hash)
      ensures authReady == old(authReady)
    {
      hidden := hidden + (set v | v in Views && v in present);
      notified := [];
      if viewId in present {
        hidden := hidden - {viewId};
        currentView := Some(viewId);
        if pushState {
          hash := "#" + ViewIdToRoute(viewId);
        }
        notified := registry.Notify();
      }
    }

    /** `handleAuthNavigation`: auth becomes ready for good and the view is chosen by
        `AuthTarget` from the current hash. */
    method HandleAuthNavigation(signedIn: bool) returns (notified: seq<L>)
      modifies this
      ensures authReady
      ensures var target := AuthTarget(signedIn, HashRoute(old(hash)));
        && (target in present ==> currentView == Some(target) && hash == "#" + ViewIdToRoute(target))
        && (target !in present ==> currentView == old(currentView))
    {
      authReady := true;
      var target := AuthTarget(signedIn, HashRoute(hash));
      notified := NavigateTo(target, true);
    }

    /** The `hashchange` handler: a protected route without a user goes to the landing
        view (writing its hash), any other route shows its view without writing the hash. */
    method HashChange(signedIn: bool) returns (notified: seq<L>)
      modifies this
      ensures var target := GuardedView(signedIn, HashRoute(old(hash)));
        target in present ==> currentView == Some(target)
      ensures !signedIn ==> currentView == (if Landing in present then Some(Landing) else old(currentView))
      ensures authReady == old(authReady)
    {
      var viewId := RouteToViewId(HashRoute(hash));
      if (viewId == App || viewId == Profile) && !signedIn {
        notified := NavigateTo(Landing, true);
        return;
      }
      notified := NavigateTo(viewId, false);
    }
  }
}
