/** The application shell: whether the user is signed in, which sign-in form
    or page is shown, and the colour theme, all mirrored in `localStorage`. */
module App {
  import opened Wrappers
  import opened Text
  import opened Storage
  import Register

  const AuthKey := "isAuthenticated"
  const UserKey := "userData"
  const ThemeKey := "theme"

  datatype AuthView = LoginView | RegisterView

  datatype Page = Dashboard | TasksPage | CalendarPage | GoalsPage | NotesPage | ProfilePage | SettingsPage

  /** What the shell renders. */
  datatype Screen = LoginScreen | RegisterScreen | MainScreen(page: Page)

  /** The stored flag is read as signed in only when it is exactly "true". */
  predicate StoredAuth(s: Store) {
    GetItem(s, AuthKey) == Some("true")
  }

  /** The stored theme: dark only for the value "dark"; an absent or empty
      value gives the light theme. */
  predicate StoredDark(s: Store) {
    var saved := GetItem(s, ThemeKey);
    if Truthy(saved) then saved.value == "dark" else false
  }

  function ThemeName(dark: bool): String {
    if dark then "dark" else "light"
  }

  /** The storage after `handleLogin`. */
  function LoginStore(s: Store): Store {
    s[AuthKey := "true"]
  }

  /** The storage after `handleRegister`, with the user serialised as `text`. */
  function RegisterStore(s: Store, text: String): Store {
    s[AuthKey := "true"][UserKey := text]
  }

  /** The storage after `handleLogout`. */
  function LogoutStore(s: Store): Store {
    s - {AuthKey}
  }

  /** The stored flags read back as they were written: after a login or a
      registration the next start is signed in, after a logout it is not,
      and a written theme is read back unchanged. Nothing else is touched. */
  lemma StoreRoundTrips(s: Store, text: String, dark: bool)
    ensures StoredAuth(LoginStore(s)) && StoredAuth(RegisterStore(s, text))
    ensures !StoredAuth(LogoutStore(s))
    ensures StoredDark(s[ThemeKey := ThemeName(dark)]) == dark
    ensures forall k :: k != AuthKey ==> GetItem(LoginStore(s), k) == GetItem(s, k)
    ensures forall k :: k != AuthKey ==> GetItem(LogoutStore(s), k) == GetItem(s, k)
    ensures forall k :: k != AuthKey && k != UserKey ==> GetItem(RegisterStore(s, text), k) == GetItem(s, k)
  {
    assert ThemeKey != AuthKey;
  }

  /** Routing: signed out, only one of the two sign-in forms is shown, the
      register form exactly when it was chosen; signed in, the current page. */
  function Render(isAuthenticated: bool, view: AuthView, page: Page): (r: Screen)
    ensures !isAuthenticated ==> (r.RegisterScreen? <==> view.RegisterView?)
    ensures !isAuthenticated ==> (r.LoginScreen? <==> view.LoginView?)
    ensures isAuthenticated <==> r.MainScreen?
    ensures r.MainScreen? ==> r.page == page
  {
    if !isAuthenticated then
      if view.RegisterView? then RegisterScreen else LoginScreen
    else MainScreen(page)
  }

  /** The shell's state cells and the storage they mirror. */
  class AppShell {
    var storage: Store
    var authView: AuthView
    var isAuthenticated: bool
    var userData: Option<Register.UserData>
    var currentPage: Page
    var isDarkMode: bool
    const encode: Register.UserData -> String

    /** The stored theme matches the theme in use, as the theme effect keeps
        it after every render. */
    predicate Valid()
      reads this
    {
      GetItem(storage, ThemeKey) == Some(ThemeName(isDarkMode))
    }

    /** Mounting: the state is read from `store`, then the theme effect runs
        once. `decode` stands for `JSON.parse` of the saved user. */
    constructor(store: Store, decode: String -> Option<Register.UserData>,
                encode: Register.UserData -> String)
      ensures Valid()
      ensures isAuthenticated == StoredAuth(store) && isDarkMode == StoredDark(store)
      ensures userData == (if Truthy(GetItem(store, UserKey)) then decode(store[UserKey]) else None)
      ensures authView == LoginView && currentPage == Dashboard
      ensures storage == store[ThemeKey := ThemeName(isDarkMode)]
      ensures this.encode == encode
    {
      var savedAuth := GetItem(store, AuthKey);
      isAuthenticated := savedAuth == Some("true");
      var savedUser := GetItem(store, UserKey);
      userData := if Truthy(savedUser) then decode(savedUser.value) else None;
      currentPage := Dashboard;
      authView := LoginView;
      var savedTheme := GetItem(store, ThemeKey);
      if Truthy(savedTheme) {
        isDarkMode := savedTheme.value == "dark";
      } else {
        isDarkMode := false;
      }
      this.encode := encode;
      storage := store;
      new;
      ApplyTheme();
    }

    /** The theme effect: the `dark` class (not modelled) and the stored
        theme follow `isDarkMode`. */
    method ApplyTheme()
      modifies this
      ensures Valid()
      ensures storage == old(storage)[ThemeKey := ThemeName(isDarkMode)]
      ensures isDarkMode == old(isDarkMode) && isAuthenticated == old(isAuthenticated)
      ensures authView == old(authView) && currentPage == old(currentPage) && userData == old(userData)
    {
      if isDarkMode {
        storage := storage[ThemeKey := "dark"];
      } else {
        storage := storage[ThemeKey := "light"];
      }
    }

    /** The theme switch: flip the theme, then the effect stores it. */
    method ToggleTheme()
      modifies this
      ensures Valid()
      ensures isDarkMode == !old(isDarkMode)
      ensures storage == old(storage)[ThemeKey := ThemeName(isDarkMode)]
      ensures isAuthenticated == old(isAuthenticated) && authView == old(authView)
      ensures currentPage == old(currentPage) && userData == old(userData)
    {
      isDarkMode := !isDarkMode;
      ApplyTheme();
    }

    /** `handleLogin` */
    method HandleLogin()
      modifies this
      requires Valid()
      ensures Valid()
      ensures isAuthenticated && storage == LoginStore(old(storage))
      ensures isDarkMode == old(isDarkMode) && authView == old(authView)
      ensures currentPage == old(currentPage) && userData == old(userData)
    {
      isAuthenticated := true;
      storage := storage[AuthKey := "true"];
    }

    /** `handleRegister`: the new user is kept and stored as JSON under
        "userData", and the session starts. */
    method HandleRegister(u: Register.UserData)
      modifies this
      requires Valid()
      ensures Valid()
      ensures isAuthenticated && userData == Some(u)
      ensures storage == RegisterStore(old(storage), encode(u))
      ensures isDarkMode == old(isDarkMode) && authView == old(authView) && currentPage == old(currentPage)
    {
      userData := Some(u);
      isAuthenticated := true;
      storage := storage[AuthKey := "true"];
      storage := storage[UserKey := encode(u)];
    }

    /** `handleLogout`: the session ends, the stored flag goes, and the next
        sign-in starts from the login form and the dashboard. The user data
        stay. */
    method HandleLogout()
      modifies this
      requires Valid()
      ensures Valid()
      ensures !isAuthenticated && storage == LogoutStore(old(storage))
      ensures currentPage == Dashboard && authView == LoginView
      ensures userData == old(userData) && isDarkMode == old(isDarkMode)
    {
      isAuthenticated := false;
      storage := storage - {AuthKey};
      currentPage := Dashboard;
      authView := LoginView;
    }

    /** The links between the two sign-in forms. */
    method SetAuthView(v: AuthView)
      modifies this
      ensures authView == v
      ensures storage == old(storage) && isAuthenticated == old(isAuthenticated)
      ensures currentPage == old(currentPage) && userData == old(userData) && isDarkMode == old(isDarkMode)
    {
      authView := v;
    }

    /** The sidebar links. */
    method Navigate(p: Page)
      modifies this
      ensures currentPage == p
      ensures storage == old(storage) && isAuthenticated == old(isAuthenticated)
      ensures authView == old(authView) && userData == old(userData) && isDarkMode == old(isDarkMode)
    {
      currentPage := p;
    }

    function Shown(): Screen
      reads this
    {
      Render(isAuthenticated, authView, currentPage)
    }
  }
}
