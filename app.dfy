/** App.tsx: the session and navigation state of the single-page application.
    The current page is a string, as in the source, so that names nobody routes
    to can be represented; `RenderPage` is the dispatch on it. */
module Navigation {
  import opened Types
  import Api
  import SupabaseConfig

  const LandingPage: string := "landing"
  const AuthPage: string := "auth"
  const RoleSelectionPage: string := "role-selection"
  const ProfilePage: string := "profile"
  const SearchPage: string := "search"
  const DashboardPage: string := "dashboard"
  const AddPropertyPage: string := "add-property"
  const PropertyDetailsPage: string := "property-details"
  const WishlistPage: string := "wishlist"

  /** What `renderPage` shows. */
  datatype View =
    | Spinner
    | LandingView
    | AuthView
    | RoleSelectionView
    | ProfileView
    | SearchView
    | DashboardView
    | AddPropertyView
    | PropertyDetailsView(propertyId: Option<string>)
    | WishlistView

  /** renderPage: the spinner while loading, whatever the page; then a switch
      on the page name whose default is the landing view. */
  function RenderPage(loading: bool, page: string, selected: Option<string>): View
  {
    if loading then Spinner
    else if page == LandingPage then LandingView
    else if page == AuthPage then AuthView
    else if page == RoleSelectionPage then RoleSelectionView
    else if page == ProfilePage then ProfileView
    else if page == SearchPage then SearchView
    else if page == DashboardPage then DashboardView
    else if page == AddPropertyPage then AddPropertyView
    else if page == PropertyDetailsPage then PropertyDetailsView(selected)
    else if page == WishlistPage then WishlistView
    else LandingView
  }

  /** The page name that leads to a view. */
  function PageName(v: View): string
  {
    match v
    case Spinner => LandingPage
    case LandingView => LandingPage
    case AuthView => AuthPage
    case RoleSelectionView => RoleSelectionPage
    case ProfileView => ProfilePage
    case SearchView => SearchPage
    case DashboardView => DashboardPage
    case AddPropertyView => AddPropertyPage
    case PropertyDetailsView(_) => PropertyDetailsPage
    case WishlistView => WishlistPage
  }

  predicate Routed(page: string)
  {
    page in {LandingPage, AuthPage, RoleSelectionPage, ProfilePage, SearchPage,
             DashboardPage, AddPropertyPage, PropertyDetailsPage, WishlistPage}
  }

  /** Every view but the spinner is reached through its own page name, the
      details view showing the selected property; every name outside the
      switch renders the landing view; loading hides every page. */
  lemma RenderPageDispatch(v: View, page: string, selected: Option<string>)
    ensures v != Spinner && (v.PropertyDetailsView? ==> v.propertyId == selected) ==>
            RenderPage(false, PageName(v), selected) == v
    ensures !Routed(page) ==> RenderPage(false, page, selected) == LandingView
    ensures RenderPage(true, page, selected) == Spinner
    ensures !Routed(page) ==> RenderPage(false, page, selected) == RenderPage(false, LandingPage, selected)
  {
  }

  /** The onboarding gate applied after a user is (re)read: an incomplete
      profile goes to the profile form, then a missing role goes to role
      selection; otherwise, or with nobody signed in, the page stays. */
  function Gate(u: Option<User>, page: string): (p: string)
    ensures p == page || p == ProfilePage || p == RoleSelectionPage
  {
    if u.Some? && !u.value.profileComplete then ProfilePage
    else if u.Some? && u.value.role == NoRole then RoleSelectionPage
    else page
  }

  /** The page after the profile form's completion callback re-reads the user:
      role selection for a role-less user, the landing page otherwise, a
      missing user included. */
  function AfterProfile(u: Option<User>): string
  {
    if u.Some? && u.value.role == NoRole then RoleSelectionPage else LandingPage
  }

  /** Onboarding converges: gating sends a user to the first missing step and
      leaves a fully onboarded user (or nobody) where they are; gating twice
      is gating once. */
  lemma GateOnboarding(u: Option<User>, page: string)
    ensures Gate(u, page) == ProfilePage <==> (u.Some? && !u.value.profileComplete) || (page == ProfilePage && (u.None? || u.value.role != NoRole))
    ensures u.Some? && u.value.profileComplete && u.value.role != NoRole ==> Gate(u, page) == page
    ensures u.None? ==> Gate(u, page) == page
    ensures Gate(u, Gate(u, page)) == Gate(u, page)
    ensures u.Some? && u.value.profileComplete && u.value.role == NoRole ==>
            Gate(u, page) == RoleSelectionPage && AfterProfile(u) == RoleSelectionPage
  {
  }

  /** Auth notifications the application reacts to. */
  datatype AuthEvent = SignedIn | SignedOut | OtherEvent

  class App {
    var user: Option<User>
    var currentPage: string
    var selectedPropertyId: Option<string>
    var loading: bool

    /** The state before the first check: landing page, nobody, nothing selected, loading. */
    constructor ()
      ensures user == None && currentPage == LandingPage && selectedPropertyId == None && loading
    {
      user := None;
      currentPage := LandingPage;
      selectedPropertyId := None;
      loading := true;
    }

    function View(): View
      reads this
    {
      RenderPage(loading, currentPage, selectedPropertyId)
    }

    /** checkUser: read the current user, gate the page, and stop loading in every case. */
    method CheckUser(store: Api.Store, fault: bool)
      requires store.Valid()
      modifies this
      ensures user == (if store.configured && !fault then store.CurrentUser() else None)
      ensures currentPage == Gate(user, old(currentPage))
      ensures !loading
      ensures selectedPropertyId == old(selectedPropertyId)
    {
      var u := store.GetCurrentUser(fault);
      user := u;
      currentPage := Gate(u, currentPage);
      loading := false;
    }

    /** The auth-change listener: on sign-in the user is re-read and gated; on
        sign-out the user is cleared and the landing page shown; other
        notifications change nothing. */
    method OnAuthEvent(event: AuthEvent, store: Api.Store, fault: bool)
      requires store.Valid()
      modifies this
      ensures event == SignedIn ==>
        && user == (if store.configured && !fault then store.CurrentUser() else None)
        && currentPage == Gate(user, old(currentPage))
      ensures event == SignedOut ==> user == None && currentPage == LandingPage
      ensures event == OtherEvent ==> user == old(user) && currentPage == old(currentPage)
      ensures selectedPropertyId == old(selectedPropertyId) && loading == old(loading)
    {
      match event
      case SignedIn =>
        var u := store.GetCurrentUser(fault);
        user := u;
        currentPage := Gate(u, currentPage);
      case SignedOut =>
        user := None;
        currentPage := LandingPage;
      case OtherEvent =>
    }

    /** handleLogout: sign out of the backend, clear the user, show the landing page. */
    method Logout(store: Api.Store)
      requires store.Valid()
      modifies this, store`session
      ensures store.Valid() && store.session == None
      ensures user == None && currentPage == LandingPage
      ensures selectedPropertyId == old(selectedPropertyId) && loading == old(loading)
    {
      store.Logout();
      user := None;
      currentPage := LandingPage;
    }

    /** navigateToProperty: select the property and show its details, nothing else. */
    method NavigateToProperty(id: string)
      modifies this
      ensures selectedPropertyId == Some(id) && currentPage == PropertyDetailsPage
      ensures user == old(user) && loading == old(loading)
      ensures !loading ==> View() == PropertyDetailsView(Some(id))
    {
      selectedPropertyId := Some(id);
      currentPage := PropertyDetailsPage;
    }

    /** `onNavigate`, which is `setCurrentPage` itself. */
    method Navigate(page: string)
      modifies this`currentPage
      ensures currentPage == page
    {
      currentPage := page;
    }

    /** The profile form's completion callback: re-read the user, then go to
        role selection if the role is still missing, otherwise to the landing page. */
    method ProfileCompleted(store: Api.Store, fault: bool)
      requires store.Valid()
      modifies this
      ensures user == (if store.configured && !fault then store.CurrentUser() else None)
      ensures currentPage == AfterProfile(user)
      ensures selectedPropertyId == old(selectedPropertyId) && loading == old(loading)
    {
      var u := store.GetCurrentUser(fault);
      user := u;
      currentPage := AfterProfile(u);
    }

    /** Role selection's completion callback. */
    method RoleSelectionCompleted()
      modifies this`currentPage
      ensures currentPage == LandingPage
    {
      currentPage := LandingPage;
    }

    /** The listing wizard's completion callback. */
    method AddPropertyCompleted()
      modifies this`currentPage
      ensures currentPage == DashboardPage
    {
      currentPage := DashboardPage;
    }

    /** handleLogin as written: the sign-in form's callback does nothing, so
        nothing about the session or the page changes. */
    method HandleLoginAsWritten(email: string)
      modifies this
      ensures user == old(user) && currentPage == old(currentPage)
      ensures selectedPropertyId == old(selectedPropertyId) && loading == old(loading)
    {
    }

    /** handleLogin as its callers need it: sign in (or sign up) with the
        submitted credentials and gate the page as the sign-in listener does.
        `fault` is a failing profile read after the sign-in. */
    method HandleLogin(store: Api.Store, email: string, password: string, fault: bool)
      requires store.Valid()
      modifies this, store
      ensures store.Valid()
      ensures currentPage == Gate(user, old(currentPage))
      ensures fault ==> user == None && currentPage == old(currentPage)
      ensures store.configured && email !in old(store.accounts) ==>
        store.Registered(email, Api.EffectivePassword(Some(password)), old(store.accounts), old(store.users), old(store.nextId))
      ensures store.configured && old(store.CanSignIn(email, Api.EffectivePassword(Some(password)))) ==>
        store.session == Some(old(store.accounts)[email].userId) && store.accounts == old(store.accounts)
      ensures store.configured && old(store.CanSignIn(email, Api.EffectivePassword(Some(password)))) && !fault ==>
        user.Some? && user.value.id == old(store.accounts)[email].userId && user == store.CurrentUser()
      ensures store.configured && email !in old(store.accounts) && !fault ==>
        user.Some? && !user.value.profileComplete && currentPage == ProfilePage
      ensures store.configured && email !in old(store.accounts) && fault ==>
        user == None && currentPage == old(currentPage)
      ensures !store.configured ==> user == None && currentPage == old(currentPage)
      ensures selectedPropertyId == old(selectedPropertyId) && loading == old(loading)
    {
      var r := store.Login(email, Some(password), fault);
      if r.Success? {
        user := r.value;
      } else {
        user := None;
      }
      currentPage := Gate(user, currentPage);
    }
  }

  /** A signed-out visitor who opens the sign-in form and submits it with an
      unknown address stays signed out on the sign-in form as written, while
      the corrected handler signs the new user up and opens the profile form. */
  method LoginDiscrepancy(env: SupabaseConfig.EnvSources, email: string, password: string)
    returns (asWrittenView: View, correctedView: View)
    requires SupabaseConfig.Configured(env)
    ensures asWrittenView == AuthView && correctedView == ProfileView
  {
    var store := new Api.Store(env, 0);
    var asWritten := new App();
    asWritten.loading := false;
    asWritten.Navigate(AuthPage);
    asWritten.HandleLoginAsWritten(email);
    assert !asWritten.loading && asWritten.currentPage == AuthPage;
    RenderPageDispatch(AuthView, AuthPage, asWritten.selectedPropertyId);
    asWrittenView := asWritten.View();

    var corrected := new App();
    corrected.loading := false;
    corrected.Navigate(AuthPage);
    corrected.HandleLogin(store, email, password, false);
    correctedView := corrected.View();
  }
}
