/** The navigation bar: three flags (mobile menu open, dark mode, scrolled
    past the top) and the handlers that set and flip them, plus the `dark`
    class on the document root that the theme toggle flips beside its flag. */
module NavbarComponent {

  /** One link of the navigation list. */
  datatype NavItem = NavItem(name: string, href: string)

  const NavigationItems: seq<NavItem> := [
    NavItem("Home", "/"),
    NavItem("Categories", "/categories"),
    NavItem("Notes", "/notes"),
    NavItem("Exam Papers", "/exam-papers"),
    NavItem("My Library", "/library"),
    NavItem("Contact", "/contact")
  ]

  /** Scroll offsets strictly above this give the bar its solid background. */
  const ScrollThreshold: int := 50

  /** The bar's state: the three flags, whether the document root carries
      the `dark` class, and how many times the login callback has fired. */
  datatype NavState = NavState(menuOpen: bool, darkMode: bool, scrolled: bool,
                               darkClass: bool, authRequests: nat)

  /** The state on mount: all three flags off. The root's class and the
      callback count are whatever they were before. */
  function Initial(darkClass: bool, authRequests: nat): (s: NavState)
    ensures !s.menuOpen && !s.darkMode && !s.scrolled
    ensures s.darkClass == darkClass && s.authRequests == authRequests
  {
    NavState(false, false, false, darkClass, authRequests)
  }

  /** The theme flag agrees with the class on the document root. */
  predicate ThemeInSync(s: NavState)
  {
    s.darkMode == s.darkClass
  }

  /** The scroll handler: `scrolled` becomes whether the offset is past the
      threshold; nothing else changes. */
  function OnScroll(s: NavState, scrollY: int): (r: NavState)
    ensures r.scrolled <==> scrollY > ScrollThreshold
    ensures r.(scrolled := s.scrolled) == s
  {
    s.(scrolled := scrollY > ScrollThreshold)
  }

  /** `toggleDarkMode`: flips the flag and the root's class together. */
  function ToggleDark(s: NavState): (r: NavState)
    ensures r.darkMode == !s.darkMode && r.darkClass == !s.darkClass
    ensures r.(darkMode := s.darkMode, darkClass := s.darkClass) == s
  {
    s.(darkMode := !s.darkMode, darkClass := !s.darkClass)
  }

  /** The menu button: flips `menuOpen`. */
  function ToggleMenu(s: NavState): (r: NavState)
    ensures r.menuOpen == !s.menuOpen
    ensures r.(menuOpen := s.menuOpen) == s
  {
    s.(menuOpen := !s.menuOpen)
  }

  /** A mobile link's click handler: closes the menu. */
  function CloseMenu(s: NavState): (r: NavState)
    ensures !r.menuOpen
    ensures r.(menuOpen := s.menuOpen) == s
  {
    s.(menuOpen := false)
  }

  /** The desktop login button: fires the callback once, menu untouched. */
  function DesktopLogin(s: NavState): (r: NavState)
    ensures r.authRequests == s.authRequests + 1
    ensures r.(authRequests := s.authRequests) == s
  {
    s.(authRequests := s.authRequests + 1)
  }

  /** The mobile login button: fires the callback once and closes the menu. */
  function MobileLogin(s: NavState): (r: NavState)
    ensures r.authRequests == s.authRequests + 1 && !r.menuOpen
    ensures r.(authRequests := s.authRequests, menuOpen := s.menuOpen) == s
  {
    CloseMenu(DesktopLogin(s))
  }

  /** The links listed in the mobile menu: all of them when it is open,
      none when it is closed. */
  function MobileLinks(s: NavState): (links: seq<NavItem>)
    ensures s.menuOpen ==> links == NavigationItems
    ensures links != [] <==> s.menuOpen
  {
    if s.menuOpen then NavigationItems else []
  }

  /** The scroll test is strict: an offset of exactly 50 leaves the bar
      transparent, 51 makes it solid. */
  lemma ScrollBoundary(s: NavState)
    ensures !OnScroll(s, 50).scrolled
    ensures OnScroll(s, 51).scrolled
  {
  }

  /** Toggling the theme twice restores the state. */
  lemma ToggleDarkTwice(s: NavState)
    ensures ToggleDark(ToggleDark(s)) == s
  {
  }

  /** Pressing the menu button twice restores the state. */
  lemma ToggleMenuTwice(s: NavState)
    ensures ToggleMenu(ToggleMenu(s)) == s
  {
  }

  /** The theme toggle keeps flag and class in agreement exactly when they
      agreed before. */
  lemma ToggleDarkKeepsSync(s: NavState)
    ensures ThemeInSync(ToggleDark(s)) <==> ThemeInSync(s)
  {
  }

  /** A mobile link closes the menu whatever its state, so a second click
      changes nothing. */
  lemma CloseMenuIdempotent(s: NavState)
    ensures CloseMenu(CloseMenu(s)) == CloseMenu(s)
    ensures CloseMenu(s) == CloseMenu(ToggleMenu(s))
  {
  }

  /** The two login buttons fire the callback alike and differ only in the
      menu. */
  lemma LoginsDifferOnlyInMenu(s: NavState)
    ensures MobileLogin(s) == CloseMenu(DesktopLogin(s))
    ensures MobileLogin(s).(menuOpen := s.menuOpen) == DesktopLogin(s)
  {
  }

  /** The user events the bar reacts to. */
  datatype Event = Scroll(scrollY: int) | DarkToggle | MenuToggle | LinkClick | DesktopLoginClick | MobileLoginClick

  function Step(s: NavState, e: Event): NavState
  {
    match e
    case Scroll(y) => OnScroll(s, y)
    case DarkToggle => ToggleDark(s)
    case MenuToggle => ToggleMenu(s)
    case LinkClick => CloseMenu(s)
    case DesktopLoginClick => DesktopLogin(s)
    case MobileLoginClick => MobileLogin(s)
  }

  /** The state after a run of events, oldest first. */
  function Run(s: NavState, events: seq<Event>): (r: NavState)
    ensures r.authRequests >= s.authRequests
    decreases |events|
  {
    if events == [] then s else Run(Step(s, events[0]), events[1..])
  }

  /** How many of the events are login clicks. */
  function LoginClicks(events: seq<Event>): nat
  {
    if events == [] then 0
    else (if events[0].DesktopLoginClick? || events[0].MobileLoginClick? then 1 else 0) + LoginClicks(events[1..])
  }

  /** Theme flag and class that agree on mount agree after any run of events. */
  lemma {:induction false} RunKeepsSync(s: NavState, events: seq<Event>)
    requires ThemeInSync(s)
    ensures ThemeInSync(Run(s, events))
    decreases |events|
  {
    if events != [] {
      if events[0] == DarkToggle {
        ToggleDarkKeepsSync(s);
      }
      RunKeepsSync(Step(s, events[0]), events[1..]);
    }
  }

  /** The callback fires exactly once per login click, whichever button. */
  lemma {:induction false} RunCountsLogins(s: NavState, events: seq<Event>)
    ensures Run(s, events).authRequests == s.authRequests + LoginClicks(events)
    decreases |events|
  {
    if events != [] {
      RunCountsLogins(Step(s, events[0]), events[1..]);
    }
  }

  /** The component: three state flags, the root's `dark` class as a ghost
      flag, and a count of calls to the login callback it was given. */
  class Navbar {
    var isMenuOpen: bool
    var isDarkMode: bool
    var isScrolled: bool
    ghost var darkClass: bool
    var authRequests: nat

    ghost function State(): NavState
      reads this
    {
      NavState(isMenuOpen, isDarkMode, isScrolled, darkClass, authRequests)
    }

    /** Mounting: the flags start off; the root's class is as found. */
    constructor (ghost rootHasDark: bool)
      ensures State() == Initial(rootHasDark, 0)
    {
      isMenuOpen, isDarkMode, isScrolled := false, false, false;
      darkClass := rootHasDark;
      authRequests := 0;
    }

    method HandleScroll(scrollY: int)
      modifies this
      ensures State() == OnScroll(old(State()), scrollY)
    {
      isScrolled := scrollY > ScrollThreshold;
    }

    method ToggleDarkMode()
      modifies this
      ensures State() == ToggleDark(old(State()))
      ensures ThemeInSync(State()) <==> old(ThemeInSync(State()))
    {
      isDarkMode := !isDarkMode;
      darkClass := !darkClass;
      ToggleDarkKeepsSync(old(State()));
    }

    method ToggleMenuButton()
      modifies this
      ensures State() == ToggleMenu(old(State()))
    {
      isMenuOpen := !isMenuOpen;
    }

    method NavLinkClicked()
      modifies this
      ensures State() == CloseMenu(old(State()))
    {
      isMenuOpen := false;
    }

    method DesktopLoginClicked()
      modifies this
      ensures State() == DesktopLogin(old(State()))
    {
      authRequests := authRequests + 1;
    }

    method MobileLoginClicked()
      modifies this
      ensures State() == MobileLogin(old(State()))
    {
      authRequests := authRequests + 1;
      isMenuOpen := false;
    }
  }
}
