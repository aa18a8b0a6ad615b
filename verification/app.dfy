/**
 * The application shell (src/App.tsx): one current screen, one untyped
 * payload handed to it, an authenticated flag and a notification flag. Every
 * screen moves the app on by calling `navigate`, which replaces the screen
 * and the payload together; there is no history stack, so each "back" link
 * names its destination outright.
 */
module App {
  import opened Types
  import opened Wrappers

  /**
   * The screen identifiers of the `Screen` union, and any other name a screen
   * hands to `onNavigate` at run time (the profile screen asks for
   * 'edit-profile', which the union does not contain).
   */
  datatype ScreenId =
    | Splash | Login | Register | ForgotPassword | Home | Explore
    | RestaurantDetail | CreateReservation | Reservations | ReservationDetail
    | Profile | AddReview
    | Unknown(name: string)

  /** The string each identifier stands for in the source. */
  function Name(s: ScreenId): string
  {
    match s
    case Splash => "splash"
    case Login => "login"
    case Register => "register"
    case ForgotPassword => "forgot-password"
    case Home => "home"
    case Explore => "explore"
    case RestaurantDetail => "restaurant-detail"
    case CreateReservation => "create-reservation"
    case Reservations => "reservations"
    case ReservationDetail => "reservation-detail"
    case Profile => "profile"
    case AddReview => "add-review"
    case Unknown(n) => n
  }

  /** The twelve members of the `Screen` union. */
  const ScreenNames: seq<string> := [
    "splash", "login", "register", "forgot-password", "home", "explore",
    "restaurant-detail", "create-reservation", "reservations",
    "reservation-detail", "profile", "add-review"
  ]

  /** An `Unknown` identifier never carries the name of a member of the union. */
  predicate WellFormed(s: ScreenId)
  {
    s.Unknown? ==> s.name !in ScreenNames
  }

  /** The identifier a name passed to `navigate` denotes. */
  function FromName(n: string): (s: ScreenId)
    ensures Name(s) == n
    ensures WellFormed(s)
    ensures s.Unknown? <==> n !in ScreenNames
  {
    if n == "splash" then Splash
    else if n == "login" then Login
    else if n == "register" then Register
    else if n == "forgot-password" then ForgotPassword
    else if n == "home" then Home
    else if n == "explore" then Explore
    else if n == "restaurant-detail" then RestaurantDetail
    else if n == "create-reservation" then CreateReservation
    else if n == "reservations" then Reservations
    else if n == "reservation-detail" then ReservationDetail
    else if n == "profile" then Profile
    else if n == "add-review" then AddReview
    else Unknown(n)
  }

  /** Reading back the name of a well-formed identifier gives the identifier. */
  lemma NameRoundTrip(s: ScreenId)
    requires WellFormed(s)
    ensures FromName(Name(s)) == s
  {
  }

  /**
   * The payload handed to a screen. The source passes `any` and casts it in
   * the receiving screen; only its presence is ever checked.
   */
  datatype Payload = NoData | RestaurantData(restaurant: Restaurant) | ReservationData(reservation: Reservation)

  /** One call `navigate(screen, data)`; a call without data passes `NoData`. */
  datatype NavRequest = Go(screen: ScreenId, data: Payload)

  /** The screen components the shell can mount. */
  datatype View =
    | SplashView | LoginView | RegisterView | ForgotPasswordView | HomeView
    | ExploreView | RestaurantDetailView | CreateReservationView
    | ReservationsView | ReservationDetailView | ProfileView | AddReviewView

  /** The four screens that cast their payload and mount only when it is present. */
  predicate NeedsPayload(s: ScreenId)
  {
    s == RestaurantDetail || s == CreateReservation || s == ReservationDetail || s == AddReview
  }

  /**
   * The guard written in front of each component in the shell's markup,
   * one block at a time: `currentScreen === '<id>'`, and for the four
   * payload screens also `&& screenData`. Only a member of the union mounts
   * a component, and a payload screen mounts only with a payload.
   */
  predicate Mounted(v: View, s: ScreenId, d: Payload)
    ensures Mounted(v, s, d) ==> !s.Unknown?
    ensures Mounted(v, s, d) && NeedsPayload(s) ==> d != NoData
  {
    match v
    case SplashView => s == Splash
    case LoginView => s == Login
    case RegisterView => s == Register
    case ForgotPasswordView => s == ForgotPassword
    case HomeView => s == Home
    case ExploreView => s == Explore
    case RestaurantDetailView => s == RestaurantDetail && d != NoData
    case CreateReservationView => s == CreateReservation && d != NoData
    case ReservationsView => s == Reservations
    case ReservationDetailView => s == ReservationDetail && d != NoData
    case ProfileView => s == Profile
    case AddReviewView => s == AddReview && d != NoData
  }

  /**
   * The screen component on display for screen `s` and payload `d`, or
   * `None` for a blank screen. Whatever is returned is the one component
   * whose guard holds: no two guards hold at once.
   */
  function Rendered(s: ScreenId, d: Payload): (r: Option<View>)
    ensures r.Some? ==> Mounted(r.value, s, d)
    ensures forall v :: Mounted(v, s, d) ==> r == Some(v)
  {
    match s
    case Splash => Some(SplashView)
    case Login => Some(LoginView)
    case Register => Some(RegisterView)
    case ForgotPassword => Some(ForgotPasswordView)
    case Home => Some(HomeView)
    case Explore => Some(ExploreView)
    case RestaurantDetail => if d == NoData then None else Some(RestaurantDetailView)
    case CreateReservation => if d == NoData then None else Some(CreateReservationView)
    case Reservations => Some(ReservationsView)
    case ReservationDetail => if d == NoData then None else Some(ReservationDetailView)
    case Profile => Some(ProfileView)
    case AddReview => if d == NoData then None else Some(AddReviewView)
    case Unknown(_) => None
  }

  /**
   * The screen goes blank exactly when the identifier is outside the union,
   * or when a payload screen is reached without a payload; for an identifier
   * a name denotes, the first case is a name outside the union.
   */
  lemma BlankScreen(s: ScreenId, d: Payload)
    ensures Rendered(s, d) == None <==> s.Unknown? || (NeedsPayload(s) && d == NoData)
    ensures WellFormed(s) ==> (Rendered(s, d) == None <==> Name(s) !in ScreenNames || (NeedsPayload(s) && d == NoData))
  {
  }

  /** The profile screen's "edit profile" button leads to a blank screen. */
  lemma EditProfileIsBlank()
    ensures Rendered(FromName("edit-profile"), NoData) == None
  {
  }

  /**
   * The shell's four state cells. The authenticated flag is advisory: nothing
   * consults it when navigating.
   */
  class Shell {
    var currentScreen: ScreenId
    var screenData: Payload
    var showNotification: bool
    var isAuthenticated: bool

    /**
     * The current screen is one a name can denote: an `Unknown` identifier
     * never carries the name of a member of the union.
     */
    ghost predicate Valid()
      reads this
    {
      WellFormed(currentScreen)
    }

    /** The app starts on the splash screen, signed out, with no payload. */
    constructor ()
      ensures Valid()
      ensures currentScreen == Splash && screenData == NoData
      ensures !showNotification && !isAuthenticated
      ensures Screen() == Some(SplashView)
    {
      currentScreen := Splash;
      screenData := NoData;
      showNotification := false;
      isAuthenticated := false;
    }

    /** The screen component on display. */
    function Screen(): Option<View>
      reads this
    {
      Rendered(currentScreen, screenData)
    }

    /**
     * `navigate(screen, data)`: replaces the screen and the payload together.
     * The identifier is the one the name passed by the caller denotes.
     */
    method Navigate(screen: ScreenId, data: Payload)
      requires WellFormed(screen)
      modifies this
      ensures Valid()
      ensures currentScreen == screen && screenData == data
      ensures showNotification == old(showNotification)
      ensures isAuthenticated == old(isAuthenticated)
    {
      currentScreen := screen;
      screenData := data;
    }

    /** `handleLogin`: signs in and lands on the home screen. */
    method HandleLogin()
      requires Valid()
      modifies this
      ensures Valid()
      ensures isAuthenticated
      ensures currentScreen == Home && screenData == NoData
      ensures showNotification == old(showNotification)
      ensures Screen() == Some(HomeView)
    {
      isAuthenticated := true;
      Navigate(Home, NoData);
    }

    /** `handleRegister`: the same transition as a login. */
    method HandleRegister()
      requires Valid()
      modifies this
      ensures Valid()
      ensures isAuthenticated
      ensures currentScreen == Home && screenData == NoData
      ensures showNotification == old(showNotification)
      ensures Screen() == Some(HomeView)
    {
      isAuthenticated := true;
      Navigate(Home, NoData);
    }

    /** `handleLogout`: signs out and lands on the login screen. */
    method HandleLogout()
      requires Valid()
      modifies this
      ensures Valid()
      ensures !isAuthenticated
      ensures currentScreen == Login && screenData == NoData
      ensures showNotification == old(showNotification)
      ensures Screen() == Some(LoginView)
    {
      isAuthenticated := false;
      Navigate(Login, NoData);
    }

    /** `handleSplashComplete`: leaves the splash screen for login, auth untouched. */
    method HandleSplashComplete()
      requires Valid()
      modifies this
      ensures Valid()
      ensures currentScreen == Login && screenData == NoData
      ensures showNotification == old(showNotification)
      ensures isAuthenticated == old(isAuthenticated)
      ensures Screen() == Some(LoginView)
    {
      Navigate(Login, NoData);
    }

    /**
     * The home screen's bell: only the home screen is handed this callback,
     * and it opens the notification panel over it.
     */
    method ShowNotification()
      requires Valid()
      requires Screen() == Some(HomeView)
      modifies this
      ensures Valid()
      ensures showNotification
      ensures currentScreen == old(currentScreen) && screenData == old(screenData)
      ensures isAuthenticated == old(isAuthenticated)
      ensures Screen() == Some(HomeView)
    {
      showNotification := true;
    }

    /** The notification panel's close button. */
    method CloseNotification()
      requires Valid()
      modifies this
      ensures Valid()
      ensures !showNotification
      ensures currentScreen == old(currentScreen) && screenData == old(screenData)
      ensures isAuthenticated == old(isAuthenticated)
    {
      showNotification := false;
    }

    /** Back from the register or forgot-password screen: to login. */
    method BackToLogin()
      requires Valid()
      modifies this
      ensures Valid()
      ensures currentScreen == Login && screenData == NoData
      ensures showNotification == old(showNotification)
      ensures isAuthenticated == old(isAuthenticated)
      ensures Screen() == Some(LoginView)
    {
      Navigate(Login, NoData);
    }

    /** Back from a restaurant's page: to the explore screen, without payload. */
    method BackFromRestaurantDetail()
      requires Valid()
      modifies this
      ensures Valid()
      ensures currentScreen == Explore && screenData == NoData
      ensures showNotification == old(showNotification)
      ensures isAuthenticated == old(isAuthenticated)
      ensures Screen() == Some(ExploreView)
    {
      Navigate(Explore, NoData);
    }

    /**
     * Back from the reservation form or the review form (and the review form's
     * return after a submit): to the restaurant's page with the same payload,
     * which is therefore never blank.
     */
    method BackToRestaurant()
      requires Valid()
      requires Screen() == Some(CreateReservationView) || Screen() == Some(AddReviewView)
      modifies this
      ensures Valid()
      ensures currentScreen == RestaurantDetail && screenData == old(screenData)
      ensures showNotification == old(showNotification)
      ensures isAuthenticated == old(isAuthenticated)
      ensures Screen() == Some(RestaurantDetailView)
    {
      Navigate(RestaurantDetail, screenData);
    }

    /** The reservation form's confirmation: to the reservations list. */
    method ConfirmReservation()
      requires Valid()
      modifies this
      ensures Valid()
      ensures currentScreen == Reservations && screenData == NoData
      ensures showNotification == old(showNotification)
      ensures isAuthenticated == old(isAuthenticated)
      ensures Screen() == Some(ReservationsView)
    {
      Navigate(Reservations, NoData);
    }

    /** Back from a reservation's page: to the reservations list, without payload. */
    method BackFromReservationDetail()
      requires Valid()
      modifies this
      ensures Valid()
      ensures currentScreen == Reservations && screenData == NoData
      ensures showNotification == old(showNotification)
      ensures isAuthenticated == old(isAuthenticated)
      ensures Screen() == Some(ReservationsView)
    {
      Navigate(Reservations, NoData);
    }
  }
}
