/**
 * The session and navigation state of `App` (frontend/App.tsx): the current screen, the
 * optional logged-in user and the dark-mode flag, the five transitions, and which of them the
 * mounted view and the bottom bar actually wire to a button.
 */
module Navigation {
  import opened Wrappers
  import opened Screens
  import LoginForm

  datatype AppState = AppState(screen: Screen, user: Option<User>, isDarkMode: bool)

  /** The state `App` starts in. */
  const Initial := AppState(Login, None, false)

  /** The App-level callbacks. */
  datatype Event =
    | LoggedIn(u: User)      // handleLogin
    | Navigated(target: Screen) // handleNavigate
    | WentBack               // goBack
    | ThemeToggled           // toggleTheme
    | LoggedOut              // the settings screen's onLogout

  /** The effect of each callback on the App state: only login touches the user, only the
      theme toggle touches the theme, and the toggle is the one callback that keeps the screen. */
  function Step(st: AppState, e: Event): (r: AppState)
    ensures r.user == if e.LoggedIn? then Some(e.u) else st.user
    ensures r.isDarkMode == if e.ThemeToggled? then !st.isDarkMode else st.isDarkMode
    ensures e.LoggedIn? || e.WentBack? ==> r.screen == Home
    ensures e.Navigated? ==> r.screen == e.target
    ensures e.LoggedOut? ==> r.screen == Login
    ensures e.ThemeToggled? ==> r.screen == st.screen
  {
    match e
    case LoggedIn(u) => st.(user := Some(u), screen := Home)
    case Navigated(t) => st.(screen := t)
    case WentBack => st.(screen := Home)
    case ThemeToggled => st.(isDarkMode := !st.isDarkMode)
    case LoggedOut => st.(screen := Login)
  }

  /** `Screens.Render` applied to the App state. */
  function CurrentView(st: AppState): View {
    Render(st.screen, st.user, st.isDarkMode)
  }

  /** `Screens.ShowBottomNav` applied to the App state. */
  predicate BottomNavShown(st: AppState) {
    ShowBottomNav(st.screen, st.user)
  }

  /** The callback is reachable from a button on screen: the mounted view was handed it, or it
      is a button of the bottom bar. Login only offers `onLogin`, with a profile its form can
      submit; the home screen only
      navigates to its quick actions; every other screen has a back button; the settings
      screen also toggles the theme and logs out. */
  predicate Enabled(st: AppState, e: Event)
    ensures e.LoggedIn? ==> (Enabled(st, e) <==> st.screen == Login && LoginForm.Submittable(e.u))
    ensures e.Navigated? ==>
      (Enabled(st, e) <==>
        (st.screen == Home && e.target in HomeTargets()) || (BottomNavShown(st) && e.target in NavTargets()))
    ensures Enabled(st, e) && e.Navigated? ==>
      (st.screen == Home || BottomNavShown(st)) && e.target != Login && e.target != Insurance
    ensures e.WentBack? ==> (Enabled(st, e) <==> st.screen != Login && st.screen != Home)
    ensures e.ThemeToggled? || e.LoggedOut? ==> (Enabled(st, e) <==> st.screen == Settings)
  {
    var v := CurrentView(st);
    match e
    case LoggedIn(u) => v.LoginView? && LoginForm.Submittable(u)
    case Navigated(t) => (v.HomeView? && t in HomeTargets()) || (BottomNavShown(st) && t in NavTargets())
    case WentBack => !v.LoginView? && !v.HomeView?
    case ThemeToggled => v.SettingsView?
    case LoggedOut => v.SettingsView?
  }

  /** The state after a sequence of callbacks. */
  function Run(st: AppState, es: seq<Event>): AppState
    decreases |es|
  {
    if es == [] then st else Run(Step(st, es[0]), es[1..])
  }

  /** Every callback of the sequence is offered by the screen it is pressed on. */
  predicate EnabledRun(st: AppState, es: seq<Event>)
    decreases |es|
  {
    es == [] || (Enabled(st, es[0]) && EnabledRun(Step(st, es[0]), es[1..]))
  }

  /** What holds in every state the UI can reach: a screen other than login has a user, the
      "Coming Soon" placeholder is never shown, and a stored profile came from the form. */
  predicate Invariant(st: AppState) {
    (st.user.None? ==> st.screen == Login) && st.screen != Insurance &&
    (st.user.Some? ==> LoginForm.Submittable(st.user.value))
  }

  // ---- single transitions ----

  /** `handleLogin` stores the profile and shows the home screen; the theme is untouched. */
  lemma LoginEffect(st: AppState, u: User)
    ensures Step(st, LoggedIn(u)).user == Some(u)
    ensures Step(st, LoggedIn(u)).screen == Home
    ensures Step(st, LoggedIn(u)).isDarkMode == st.isDarkMode
    ensures BottomNavShown(Step(st, LoggedIn(u)))
  {
  }

  /** `handleNavigate` has no guard: it sets exactly the requested screen, even without a user,
      changes nothing else, and doing it twice is doing it once. */
  lemma NavigateEffect(st: AppState, t: Screen)
    ensures Step(st, Navigated(t)).screen == t
    ensures Step(st, Navigated(t)).user == st.user
    ensures Step(st, Navigated(t)).isDarkMode == st.isDarkMode
    ensures Step(Step(st, Navigated(t)), Navigated(t)) == Step(st, Navigated(t))
    ensures st.screen == t ==> Step(st, Navigated(t)) == st
  {
  }

  /** Without a user, `handleNavigate` still reaches a post-login screen. */
  lemma NavigateUnguarded()
    ensures Step(Initial, Navigated(Home)).screen == Home
    ensures Step(Initial, Navigated(Home)).user.None?
    ensures !Invariant(Step(Initial, Navigated(Home)))
  {
  }

  /** `goBack` keeps no history: from every screen it returns to home, so two different
      histories end in the same state. */
  lemma BackEffect(st: AppState, t: Screen)
    ensures Step(st, WentBack) == st.(screen := Home)
    ensures Step(Step(st, Navigated(t)), WentBack) == Step(st, WentBack)
  {
  }

  /** Logging out only moves to the login screen: the user stays stored and the theme stays. */
  lemma LogoutEffect(st: AppState)
    ensures Step(st, LoggedOut).screen == Login
    ensures Step(st, LoggedOut).user == st.user
    ensures Step(st, LoggedOut).isDarkMode == st.isDarkMode
  {
  }

  /** The theme flag flips and nothing else moves; flipping twice is the identity. */
  lemma ToggleThemeEffect(st: AppState)
    ensures Step(st, ThemeToggled).isDarkMode == !st.isDarkMode
    ensures Step(st, ThemeToggled).(isDarkMode := st.isDarkMode) == st
    ensures Step(Step(st, ThemeToggled), ThemeToggled) == st
  {
  }

  /** Logging in again after a logout replaces the retained user, so the retained profile
      never reaches a later session. */
  lemma ReloginReplacesUser(st: AppState, u: User)
    ensures Step(Step(st, LoggedOut), LoggedIn(u)) == AppState(Home, Some(u), st.isDarkMode)
  {
  }

  /** On the login screen the retained user is invisible: two login-screen states that differ
      only in their user render alike, offer the same callbacks and lead to the same states. */
  lemma RetainedUserUnobservable(st1: AppState, st2: AppState, e: Event)
    requires st1.screen == Login && st2.screen == Login && st1.isDarkMode == st2.isDarkMode
    ensures CurrentView(st1) == CurrentView(st2) == LoginView
    ensures !BottomNavShown(st1) && !BottomNavShown(st2)
    ensures Enabled(st1, e) <==> Enabled(st2, e)
    ensures Enabled(st1, e) ==> Step(st1, e) == Step(st2, e)
  {
  }

  /** The login screen offers nothing but logging in, so after a logout no other screen can be
      reached except through a new login. */
  lemma LoginScreenOnlyLogsIn(st: AppState, e: Event)
    requires st.screen == Login
    requires Enabled(st, e)
    ensures e.LoggedIn?
    ensures Step(st, e).screen == Home && Step(st, e).user == Some(e.u)
  {
  }

  /** Every callback the screen offers keeps the invariant. */
  lemma StepKeepsInvariant(st: AppState, e: Event)
    requires Invariant(st)
    requires Enabled(st, e)
    ensures Invariant(Step(st, e))
  {
  }

  // ---- sequences of transitions ----

  /** Along callbacks the screens offer, the invariant holds in every state. */
  lemma {:induction false} RunKeepsInvariant(st: AppState, es: seq<Event>)
    requires Invariant(st)
    requires EnabledRun(st, es)
    ensures Invariant(Run(st, es))
    decreases |es|
  {
    if es != [] {
      StepKeepsInvariant(st, es[0]);
      RunKeepsInvariant(Step(st, es[0]), es[1..]);
    }
  }

  /** In every state reachable from the start through the UI, a user is present whenever the
      screen is not the login screen (so the home and settings screens are never handed a
      missing user), the "Coming Soon" placeholder is never rendered, and the stored user has a
      name. */
  lemma {:induction false} Reachable(es: seq<Event>)
    requires EnabledRun(Initial, es)
    ensures Run(Initial, es).screen != Login ==> Run(Initial, es).user.Some?
    ensures !CurrentView(Run(Initial, es)).ComingSoonView?
    ensures CurrentView(Run(Initial, es)).HomeView? ==> CurrentView(Run(Initial, es)).homeUser.Some?
    ensures CurrentView(Run(Initial, es)).SettingsView? ==> CurrentView(Run(Initial, es)).settingsUser.Some?
    ensures Run(Initial, es).user.Some? ==> Run(Initial, es).user.value.name != ""
  {
    RunKeepsInvariant(Initial, es);
  }

  /** Apart from the placeholder, every screen the source declares is reachable from the start. */
  lemma ScreensReachable(s: Screen)
    requires s != Insurance
    ensures exists es :: EnabledRun(Initial, es) && Run(Initial, es).screen == s
  {
    var u := User("Farmer", En, "Punjab, India");
    var home := Step(Initial, LoggedIn(u));
    if s == Login {
      assert EnabledRun(Initial, []) && Run(Initial, []).screen == s;
    } else if s == Home {
      var es := [LoggedIn(u)];
      assert es[1..] == [];
      assert Run(Initial, es) == Run(home, []) == home;
      assert EnabledRun(Initial, es) && Run(Initial, es).screen == s;
    } else {
      var es := [LoggedIn(u), Navigated(s)];
      assert s in HomeTargets() || s in NavTargets();
      assert es[1..] == [Navigated(s)] && es[1..][1..] == [];
      assert Enabled(home, Navigated(s));
      var last := Step(home, Navigated(s));
      assert Run(home, es[1..]) == Run(last, []) == last;
      assert Run(Initial, es) == Run(home, es[1..]);
      assert EnabledRun(Initial, es) && Run(Initial, es).screen == s;
    }
  }

  /** Whatever sequence of navigations is made, the screen ends at the last requested target
      and the user and theme are kept. */
  lemma {:induction false} LastNavigationWins(st: AppState, es: seq<Event>)
    requires es != []
    requires forall i :: 0 <= i < |es| ==> es[i].Navigated?
    ensures Run(st, es) == st.(screen := es[|es| - 1].target)
    decreases |es|
  {
    if |es| > 1 {
      LastNavigationWins(Step(st, es[0]), es[1..]);
    }
  }

  /** The live state of the `App` component. */
  class App {
    var currentScreen: Screen
    var user: Option<User>
    var isDarkMode: bool

    function State(): AppState
      reads this
    {
      AppState(currentScreen, user, isDarkMode)
    }

    /** The three `useState` initialisers. */
    constructor ()
      ensures currentScreen == Login && user == None && !isDarkMode
      ensures State() == Initial
    {
      currentScreen := Login;
      user := None;
      isDarkMode := false;
    }

    method HandleLogin(u: User)
      modifies this
      ensures user == Some(u) && currentScreen == Home && isDarkMode == old(isDarkMode)
      ensures State() == Step(old(State()), LoggedIn(u))
    {
      user := Some(u);
      currentScreen := Home;
    }

    method HandleNavigate(screen: Screen)
      modifies this
      ensures currentScreen == screen && user == old(user) && isDarkMode == old(isDarkMode)
      ensures State() == Step(old(State()), Navigated(screen))
    {
      currentScreen := screen;
    }

    method GoBack()
      modifies this
      ensures currentScreen == Home && user == old(user) && isDarkMode == old(isDarkMode)
      ensures State() == Step(old(State()), WentBack)
    {
      currentScreen := Home;
    }

    method ToggleTheme()
      modifies this
      ensures isDarkMode == !old(isDarkMode) && currentScreen == old(currentScreen) && user == old(user)
      ensures State() == Step(old(State()), ThemeToggled)
    {
      isDarkMode := !isDarkMode;
    }

    /** The settings screen's `onLogout`: only the screen is set. */
    method Logout()
      modifies this
      ensures currentScreen == Login && user == old(user) && isDarkMode == old(isDarkMode)
      ensures State() == Step(old(State()), LoggedOut)
    {
      currentScreen := Login;
    }
  }
}
