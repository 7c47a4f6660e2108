/**
 * Route rendering: the two session guards, the right-to-left fold that nests
 * a route's guards around its screen, the optional layout wrapper, and the
 * handlers the router hands to screens (auth changes, onboarding, logout,
 * theme toggle).
 *
 * A rendered element is a tree of wrappers around one screen; what a tree
 * shows for a given session is computed by `Show`.  Navigation is returned
 * as the path navigated to.
 */
module RouteGuards {
  import opened Common
  import opened AppStoreModel

  datatype GuardKind = RequireUser | RedirectIfAuthenticated

  /** Props a screen receives; `getProps(context)` is evaluated by the caller. */
  type Props = map<string, string>

  /** An element tree: a screen, a guard around a child, or the app layout around a child. */
  datatype Element =
    | Screen(component: string, props: Props)
    | Guarded(kind: GuardKind, child: Element)
    | WithLayout(theme: Theme, child: Element)

  /** What an element tree renders for one session. */
  datatype View =
    | Blank
    | Redirect(to: string)
    | Page(component: string, props: Props)
    | Framed(theme: Theme, inner: View)

  // ---------------------------------------------------------------------
  // Guards
  // ---------------------------------------------------------------------

  /** The guard registry: only two keys name a guard. */
  function GuardFor(key: string): Option<GuardKind>
  {
    if key == "requireUser" then Some(RequireUser)
    else if key == "redirectIfAuthenticated" then Some(RedirectIfAuthenticated)
    else None
  }

  /** What a guard renders in place of its children, or None when it renders them. */
  function GuardVerdict(kind: GuardKind, hasUser: bool, checked: bool): Option<View>
  {
    if !checked then Some(Blank)
    else match kind
      case RequireUser => if !hasUser then Some(Redirect("/login")) else None
      case RedirectIfAuthenticated => if hasUser then Some(Redirect("/")) else None
  }

  function Show(e: Element, hasUser: bool, checked: bool): View
  {
    match e
    case Screen(c, p) => Page(c, p)
    case Guarded(k, child) =>
      var v := GuardVerdict(k, hasUser, checked);
      if v.Some? then v.value else Show(child, hasUser, checked)
    case WithLayout(t, child) => Framed(t, Show(child, hasUser, checked))
  }

  /**
   * The guard decision table: nothing while the session is unchecked; then
   * RequireUser sends a visitor without an account to /login and
   * RedirectIfAuthenticated sends a signed-in one to /; otherwise the
   * children render.  So for every session at most one of the two guards
   * renders its children, and exactly one once the session is checked.
   */
  lemma GuardDecisionTable(hasUser: bool, checked: bool)
    ensures !checked ==> (GuardVerdict(RequireUser, hasUser, checked) == Some(Blank) &&
                          GuardVerdict(RedirectIfAuthenticated, hasUser, checked) == Some(Blank))
    ensures checked && !hasUser ==> GuardVerdict(RequireUser, hasUser, checked) == Some(Redirect("/login"))
    ensures checked && hasUser ==> GuardVerdict(RedirectIfAuthenticated, hasUser, checked) == Some(Redirect("/"))
    ensures GuardVerdict(RequireUser, hasUser, checked).None? <==> checked && hasUser
    ensures GuardVerdict(RedirectIfAuthenticated, hasUser, checked).None? <==> checked && !hasUser
    ensures !(GuardVerdict(RequireUser, hasUser, checked).None? &&
              GuardVerdict(RedirectIfAuthenticated, hasUser, checked).None?)
    ensures checked ==> GuardVerdict(RequireUser, hasUser, checked).None? ||
                        GuardVerdict(RedirectIfAuthenticated, hasUser, checked).None?
  {
  }

  // ---------------------------------------------------------------------
  // guardSequence
  // ---------------------------------------------------------------------

  /** One step of the fold: wrap the child in the key's guard, or skip an unknown key. */
  function WrapGuard(child: Element, key: string): Element
  {
    var g := GuardFor(key);
    if g.Some? then Guarded(g.value, child) else child
  }

  /**
   * `guards.reduceRight(step, element)`: the accumulator starts at the
   * element and visits the keys from the last to the first.
   */
  function GuardSequence(element: Element, guards: seq<string>): Element
    decreases |guards|
  {
    if guards == [] then element
    else GuardSequence(WrapGuard(element, guards[|guards| - 1]), guards[..|guards| - 1])
  }

  /** The guard kinds of the known keys, in list order. */
  function KnownGuards(guards: seq<string>): seq<GuardKind>
    decreases |guards|
  {
    if guards == [] then []
    else
      var rest := KnownGuards(guards[1..]);
      var g := GuardFor(guards[0]);
      if g.Some? then [g.value] + rest else rest
  }

  /** Reference nesting: the first kind is the outermost wrapper. */
  function Nest(element: Element, kinds: seq<GuardKind>): Element
    decreases |kinds|
  {
    if kinds == [] then element else Guarded(kinds[0], Nest(element, kinds[1..]))
  }

  lemma {:induction false} KnownGuardsSnoc(guards: seq<string>, key: string)
    ensures KnownGuards(guards + [key]) ==
            KnownGuards(guards) + (if GuardFor(key).Some? then [GuardFor(key).value] else [])
    decreases |guards|
  {
    if guards == [] {
      assert [] + [key] == [key];
    } else {
      assert (guards + [key])[0] == guards[0];
      assert (guards + [key])[1..] == guards[1..] + [key];
      KnownGuardsSnoc(guards[1..], key);
    }
  }

  lemma {:induction false} NestSnoc(element: Element, kinds: seq<GuardKind>, k: GuardKind)
    ensures Nest(Guarded(k, element), kinds) == Nest(element, kinds + [k])
    decreases |kinds|
  {
    if kinds == [] {
      assert [] + [k] == [k];
    } else {
      assert (kinds + [k])[0] == kinds[0];
      assert (kinds + [k])[1..] == kinds[1..] + [k];
      NestSnoc(element, kinds[1..], k);
    }
  }

  /**
   * The fold nests the guards in list order: the first known key becomes
   * the outermost wrapper, unknown keys are skipped, and an empty list
   * returns the element unchanged.
   */
  lemma {:induction false} GuardSequenceNests(element: Element, guards: seq<string>)
    ensures GuardSequence(element, guards) == Nest(element, KnownGuards(guards))
    decreases |guards|
  {
    if guards != [] {
      var init, last := guards[..|guards| - 1], guards[|guards| - 1];
      assert guards == init + [last];
      GuardSequenceNests(WrapGuard(element, last), init);
      KnownGuardsSnoc(init, last);
      if GuardFor(last).Some? {
        NestSnoc(element, KnownGuards(init), GuardFor(last).value);
      } else {
        assert KnownGuards(init) + [] == KnownGuards(init);
      }
    }
  }

  /** The first guard in the list (outermost) whose verdict is not to render its children, if any. */
  function FirstVerdict(kinds: seq<GuardKind>, hasUser: bool, checked: bool): Option<View>
    decreases |kinds|
  {
    if kinds == [] then None
    else
      var v := GuardVerdict(kinds[0], hasUser, checked);
      if v.Some? then v else FirstVerdict(kinds[1..], hasUser, checked)
  }

  /**
   * A guarded screen renders exactly when every guard lets it through;
   * otherwise what renders is the verdict of the first guard, in list order,
   * that stops it.
   */
  lemma {:induction false} ShowNested(component: string, props: Props, kinds: seq<GuardKind>,
                                      hasUser: bool, checked: bool)
    ensures FirstVerdict(kinds, hasUser, checked).None? ==>
              Show(Nest(Screen(component, props), kinds), hasUser, checked) == Page(component, props)
    ensures FirstVerdict(kinds, hasUser, checked).Some? ==>
              Show(Nest(Screen(component, props), kinds), hasUser, checked) == FirstVerdict(kinds, hasUser, checked).value
    decreases |kinds|
  {
    if kinds != [] {
      ShowNested(component, props, kinds[1..], hasUser, checked);
    }
  }

  // ---------------------------------------------------------------------
  // renderRouteElement
  // ---------------------------------------------------------------------

  /** A route: its screen, the props `getProps` produced (if it has one), its guard keys and layout flag. */
  datatype RouteDefinition = RouteDefinition(component: string, props: Option<Props>,
                                             guards: Option<seq<string>>, withLayout: bool)

  function RenderRouteElement(def: RouteDefinition, theme: Theme): Element
  {
    var props := if def.props.Some? then def.props.value else map[];
    var element := GuardSequence(Screen(def.component, props), if def.guards.Some? then def.guards.value else []);
    if def.withLayout then WithLayout(theme, element) else element
  }

  /**
   * A route renders its screen with the given props (none when it has no
   * `getProps`), inside its known guards in list order, and inside the
   * layout, outermost, exactly when the route asks for it.
   */
  lemma RenderRouteElementShape(def: RouteDefinition, theme: Theme)
    ensures var props := if def.props.Some? then def.props.value else map[];
            var kinds := KnownGuards(if def.guards.Some? then def.guards.value else []);
            RenderRouteElement(def, theme) ==
              if def.withLayout then WithLayout(theme, Nest(Screen(def.component, props), kinds))
              else Nest(Screen(def.component, props), kinds)
    ensures RenderRouteElement(def, theme).WithLayout? <==> def.withLayout
  {
    var props := if def.props.Some? then def.props.value else map[];
    GuardSequenceNests(Screen(def.component, props), if def.guards.Some? then def.guards.value else []);
  }

  /**
   * A screen behind `requireUser` (and any unknown keys) is shown only to a
   * signed-in user of a checked session; an unchecked session shows nothing
   * and a visitor without an account is sent to /login.
   */
  lemma ProtectedRoute(component: string, props: Props, extra: seq<string>, hasUser: bool, checked: bool)
    requires forall i :: 0 <= i < |extra| ==> GuardFor(extra[i]).None?
    ensures var e := RenderRouteElement(RouteDefinition(component, Some(props), Some(["requireUser"] + extra), false), Light);
            && (checked && hasUser ==> Show(e, hasUser, checked) == Page(component, props))
            && (!checked ==> Show(e, hasUser, checked) == Blank)
            && (checked && !hasUser ==> Show(e, hasUser, checked) == Redirect("/login"))
  {
    var guards := ["requireUser"] + extra;
    var def := RouteDefinition(component, Some(props), Some(guards), false);
    RenderRouteElementShape(def, Light);
    assert guards[1..] == extra;
    UnknownKeysVanish(extra);
    assert KnownGuards(guards) == [RequireUser];
    ShowNested(component, props, [RequireUser], hasUser, checked);
  }

  lemma {:induction false} UnknownKeysVanish(keys: seq<string>)
    requires forall i :: 0 <= i < |keys| ==> GuardFor(keys[i]).None?
    ensures KnownGuards(keys) == []
    decreases |keys|
  {
    if keys != [] {
      UnknownKeysVanish(keys[1..]);
    }
  }

  // ---------------------------------------------------------------------
  // Handlers acting on the store
  // ---------------------------------------------------------------------

  /** An auth session as the auth service delivers it; it may carry no account. */
  datatype Session = Session(user: Option<User>)

  /** The account of an optional session: `session?.user ?? null`. */
  function SessionUser(session: Option<Session>): Option<User>
  {
    if session.Some? then session.value.user else None
  }

  /** The session's email when it is truthy (present and non-empty). */
  function SessionEmail(session: Option<Session>): Option<string>
  {
    var u := SessionUser(session);
    if u.Some? && u.value.email.Some? && u.value.email.value != "" then u.value.email else None
  }

  /**
   * The auth-change listener: store the account, the email (or the empty
   * string), mark the session checked, and go to /login when there is no
   * account.  Returns the path navigated to.  Afterwards neither guard stays
   * blank: each renders its children or redirects.
   */
  method OnAuthStateChange(store: AppStore, session: Option<Session>) returns (nav: Option<string>)
    modifies store
    ensures var email := SessionEmail(session);
            store.State() == old(store.State()).(
              user := SessionUser(session), isLoggedIn := SessionUser(session).Some?,
              hasCheckedSession := true,
              userInfo := old(store.userInfo).(email := if email.Some? then email.value else ""))
    ensures nav == (if SessionUser(session).None? then Some("/login") else None)
    ensures LoginConsistent(store.State())
    ensures GuardVerdict(RequireUser, store.user.Some?, store.hasCheckedSession) != Some(Blank)
    ensures GuardVerdict(RedirectIfAuthenticated, store.user.Some?, store.hasCheckedSession) != Some(Blank)
    ensures store.user.None? ==> GuardVerdict(RequireUser, store.user.Some?, store.hasCheckedSession) == Some(Redirect("/login"))
  {
    store.SetUser(SessionUser(session));
    var email := SessionEmail(session);
    if email.Some? {
      store.SetUserInfo(InfoPatch(None, None, None, Some(email.value)));
    } else {
      store.SetUserInfo(InfoPatch(None, None, None, Some("")));
    }
    store.SetHasCheckedSession(true);
    nav := None;
    if SessionUser(session).None? {
      nav := Some("/login");
    }
  }

  /**
   * The first session lookup on mount: the same as an auth change except
   * that an absent email leaves the stored one alone and nothing navigates.
   */
  method OnInitialSession(store: AppStore, session: Option<Session>)
    modifies store
    ensures var email := SessionEmail(session);
            store.State() == old(store.State()).(
              user := SessionUser(session), isLoggedIn := SessionUser(session).Some?,
              hasCheckedSession := true,
              userInfo := old(store.userInfo).(email := if email.Some? then email.value else old(store.userInfo.email)))
    ensures LoginConsistent(store.State())
  {
    store.SetUser(SessionUser(session));
    var email := SessionEmail(session);
    if email.Some? {
      store.SetUserInfo(InfoPatch(None, None, None, Some(email.value)));
    }
    store.SetHasCheckedSession(true);
  }

  function FlipTheme(t: Theme): Theme
  {
    if t == Light then Dark else Light
  }

  /** Toggling always changes the theme, and toggling twice restores it. */
  lemma FlipThemeInvolution(t: Theme)
    ensures FlipTheme(t) != t
    ensures FlipTheme(FlipTheme(t)) == t
  {
  }

  method ToggleTheme(store: AppStore)
    modifies store
    ensures store.State() == old(store.State()).(userInfo := old(store.userInfo).(theme := FlipTheme(old(store.userInfo.theme))))
  {
    store.SetUserInfo(InfoPatch(None, None, Some(if store.userInfo.theme == Light then Dark else Light), None));
  }

  /** Onboarding stores the nickname and interests, nothing else, and goes home. */
  method HandleOnboardingComplete(store: AppStore, nickname: string, interests: seq<string>) returns (nav: string)
    modifies store
    ensures store.State() == old(store.State()).(userInfo := old(store.userInfo).(nickname := nickname, interests := interests))
    ensures nav == "/"
  {
    store.SetUserInfo(InfoPatch(Some(nickname), Some(interests), None, None));
    nav := "/";
  }

  /** After the sign-out request completes: forget the account and go to /login. */
  method HandleLogout(store: AppStore) returns (nav: string)
    modifies store
    ensures store.State() == old(store.State()).(user := None, isLoggedIn := false)
    ensures nav == "/login"
  {
    store.SetUser(None);
    nav := "/login";
  }
}
