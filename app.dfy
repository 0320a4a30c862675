/**
 * The application shell: the session user kept in storage, the mount effect that restores it,
 * sign-in and sign-out, and the route table that picks a screen for an address.
 */
module App {
  import opened Wrappers
  import opened Records
  import opened Storage

  /** What a route renders: a screen, or a redirect to another address. */
  datatype Element =
    | LoginPage
    | DonorHome(user: User)
    | SeekerHome(user: User)
    | Redirect(target: string)

  /** The address of a role's dashboard, `/<type>-dashboard`. */
  function DashboardPath(role: Role): string {
    "/" + RoleName(role) + "-dashboard"
  }

  /** The route table: the element rendered at `path` for the signed-in `user`, if any. */
  function Route(path: string, user: Option<User>): (e: Element)
    ensures e == LoginPage <==> path == "/" && user.None?
    ensures e.DonorHome? <==> path == DashboardPath(Donor) && user.Some? && user.value.role == Donor
    ensures e.SeekerHome? <==> path == DashboardPath(Seeker) && user.Some? && user.value.role == Seeker
    ensures e.DonorHome? || e.SeekerHome? ==> user == Some(e.user)
    ensures e.Redirect? && user.Some? && path == "/" ==> e.target == DashboardPath(user.value.role)
    ensures e.Redirect? && path != "/" ==> e.target == "/"
  {
    if path == "/" then
      if user.Some? then Redirect(DashboardPath(user.value.role)) else LoginPage
    else if path == DashboardPath(Donor) then
      if user.Some? && user.value.role == Donor then DonorHome(user.value) else Redirect("/")
    else if path == DashboardPath(Seeker) then
      if user.Some? && user.value.role == Seeker then SeekerHome(user.value) else Redirect("/")
    else Redirect("/")
  }

  /** The screen that belongs to a session: the login page, or the user's own dashboard. */
  function Home(user: Option<User>): Element {
    match user
    case None => LoginPage
    case Some(u) => if u.role == Donor then DonorHome(u) else SeekerHome(u)
  }

  /** The element reached from `path` by following at most `hops` redirects. */
  function Follow(path: string, user: Option<User>, hops: nat): Element
    decreases hops
  {
    var e := Route(path, user);
    if e.Redirect? && hops > 0 then Follow(e.target, user, hops - 1) else e
  }

  /**
   * Whatever the address, at most two redirects lead to the session's own screen: the login
   * page when nobody is signed in, the user's dashboard otherwise.
   */
  lemma EveryPathSettles(path: string, user: Option<User>)
    ensures Follow(path, user, 2) == Home(user)
  {
    assert DashboardPath(Donor)[1] != DashboardPath(Seeker)[1];
    assert |DashboardPath(Donor)| > 1 && |DashboardPath(Seeker)| > 1;
  }

  /** The application's state: the signed-in user, the mount spinner, and browser storage. */
  class Shell {
    const store: Store
    var user: Option<User>
    var loading: bool

    constructor (store: Store)
      ensures this.store == store && user == None && loading
    {
      this.store := store;
      user := None;
      loading := true;
    }

    /**
     * The mount effect's session restore: a stored user is taken over; a stored value that is
     * not a user is removed; the spinner ends either way.
     */
    method RestoreSession()
      modifies this`user, this`loading, store
      ensures var stored := old(store.Get(CurrentUserKey));
              && (stored.Some? && stored.value.SessionUser? ==> user == Some(stored.value.user))
              && (stored.None? || !stored.value.SessionUser? ==> user == old(user))
              && (stored.Some? && !stored.value.SessionUser? ==> store.items == old(store.items) - {CurrentUserKey})
              && (stored.None? || stored.value.SessionUser? ==> store.items == old(store.items))
      ensures !loading
    {
      var stored := store.Get(CurrentUserKey);
      if stored.Some? {
        if stored.value.SessionUser? {
          user := Some(stored.value.user);
        } else {
          store.Remove(CurrentUserKey);
        }
      }
      loading := false;
    }

    /**
     * The mount effect: storage is cleared first, so there is never a session to restore; the
     * user stays as it was (nobody, on a fresh shell) whatever was stored before.
     */
    method Mount()
      modifies this`user, this`loading, store
      ensures user == old(user) && !loading
      ensures store.items == map[]
    {
      store.Clear();
      RestoreSession();
    }

    /** `handleLogin`: the user becomes the session and is written under `currentUser`. */
    method HandleLogin(u: User)
      modifies this`user, store
      ensures user == Some(u)
      ensures store.items == old(store.items)[CurrentUserKey := SessionUser(u)]
    {
      user := Some(u);
      store.Set(CurrentUserKey, SessionUser(u));
    }

    /** `handleLogout`: the session ends and `currentUser` is removed. */
    method HandleLogout()
      modifies this`user, store
      ensures user == None
      ensures store.items == old(store.items) - {CurrentUserKey}
    {
      user := None;
      store.Remove(CurrentUserKey);
    }
  }
}
