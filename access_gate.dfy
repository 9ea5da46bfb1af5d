/**
 * The protected-route decision: a placeholder while the session check is
 * pending, a redirect to the sign-in page unless both a user and a profile
 * are known, the protected content otherwise.
 */
module AccessGate {
  import opened Wrappers
  import opened Schema
  import opened Auth

  /** What the route renders. `Redirect` carries the target and whether history is replaced. */
  datatype Render = Skeleton | Redirect(to: string, replace: bool) | Children

  const SignInPath: string := "/auth"

  function Gate(loading: bool, user: Option<User>, profile: Option<Profile>): (r: Render)
    ensures loading ==> r == Skeleton
    ensures r == Skeleton ==> loading
    ensures r.Children? <==> !loading && user.Some? && profile.Some?
    ensures r.Redirect? ==> r == Redirect(SignInPath, true)
    ensures !loading && user.Some? && profile.None? ==> r == Redirect(SignInPath, true)
  {
    if loading then Skeleton
    else if user.None? then Redirect(SignInPath, true)
    else if profile.None? then Redirect(SignInPath, true)
    else Children
  }

  /** The decision for the hook's current state. */
  function GateOf(st: AuthState): (r: Render)
    reads st
    ensures r.Children? ==> st.user.Some? && st.profile.Some?
  {
    Gate(st.loading, st.user, st.profile)
  }

  /**
   * A session for user `u` arrives, the profile query finds `p` and the role
   * query finds one mine-admin grant: the user is an admin and is let in.
   */
  method SignInScenario(s: Session, p: Profile, g: UserRole) returns (admin: bool, r: Render)
    requires g.role == MineAdmin
    ensures admin && r == Children
  {
    var st := new AuthState();
    assert GateOf(st) == Skeleton;
    st.OnAuthChange(Some(s));
    st.RefreshProfile(Data(p), Data([g]));
    assert st.roles[0] == g;
    admin := IsAdmin(st.roles);
    r := GateOf(st);
  }

  /** A session ends: the profile and grants are gone at once and the route redirects. */
  method SignedOutScenario(st: AuthState) returns (r: Render)
    modifies st
    ensures st.profile == None && st.roles == [] && !IsAdmin(st.roles)
    ensures r == Redirect(SignInPath, true)
  {
    st.OnAuthChange(None);
    r := GateOf(st);
  }

  /**
   * A profile refresh that resolves after `signOut` but before the listener
   * has cleared the user stores its profile again: the route admits the user
   * once more. This is the hook's behaviour as written.
   */
  method StaleRefreshAfterSignOut(st: AuthState, p: Profile) returns (r: Render)
    requires !st.loading && st.user.Some?
    modifies st
    ensures st.profile == Some(p)
    ensures r == Children
  {
    st.SignOut(false);
    assert GateOf(st) == Redirect(SignInPath, true);
    st.RefreshProfile(Data(p), Thrown);
    r := GateOf(st);
  }
}
