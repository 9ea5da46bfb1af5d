/**
 * The session and authorisation state the auth hook keeps: who is signed in,
 * their profile row, their role grants, and whether the first session check
 * is still pending. The backend's answers arrive as method arguments.
 */
module Auth {
  import opened Wrappers
  import opened Schema

  /** The signed-in principal; only its id is read here. */
  datatype User = User(id: string)

  /** A backend session; it always names its user. */
  datatype Session = Session(accessToken: string, user: User)

  /** A row of the `profiles` table. */
  datatype Profile = Profile(
    id: string,
    userId: string,
    mineId: string,
    firstName: Option<string>,
    lastName: Option<string>,
    email: Option<string>,
    phone: Option<string>,
    avatarUrl: Option<string>,
    department: Option<string>,
    position: Option<string>)

  /** A row of the `user_roles` table: one grant of a role, scoped to a mine. */
  datatype UserRole = UserRole(id: string, userId: string, role: AppRole, mineId: string)

  /**
   * What an awaited backend query produced: a non-null `data` value, a null
   * `data` (the row is missing or the query reported an error), or an
   * exception thrown out of the `await`.
   */
  datatype Reply<T> = Data(value: T) | NoData | Thrown

  /** `hasRole(role)`: some grant in `roles` is for `role`. */
  function HasRole(roles: seq<UserRole>, role: AppRole): (b: bool)
    ensures b <==> exists i :: 0 <= i < |roles| && roles[i].role == role
  {
    if roles == [] then false
    else if roles[0].role == role then true
    else
      var b := HasRole(roles[1..], role);
      assert b ==> exists i :: 0 <= i < |roles| && roles[i].role == role by {
        if b {
          var j :| 0 <= j < |roles[1..]| && roles[1..][j].role == role;
          assert roles[j + 1].role == role;
        }
      }
      assert !b ==> forall i :: 0 < i < |roles| ==> roles[i].role != role by {
        if !b {
          forall i | 0 < i < |roles|
            ensures roles[i].role != role
          {
            assert roles[i] == roles[1..][i - 1];
          }
        }
      }
      b
  }

  /**
   * `hasRole(name)` as the hook defines it, with a role name string: a name
   * that is no role's name matches no grant, and a role's name matches
   * exactly that role's grants.
   */
  function HasRoleNamed(roles: seq<UserRole>, name: string): (b: bool)
    ensures b <==> ParseRole(name).Some? && HasRole(roles, ParseRole(name).value)
  {
    exists i :: 0 <= i < |roles| && RoleName(roles[i].role) == name
  }

  /** `isAdmin`: a mine admin or a super admin grant is held. */
  function IsAdmin(roles: seq<UserRole>): (b: bool)
    ensures b <==> exists i :: 0 <= i < |roles| && (roles[i].role == MineAdmin || roles[i].role == SuperAdmin)
  {
    HasRole(roles, MineAdmin) || HasRole(roles, SuperAdmin)
  }

  /** Grants for planners and workers only never make an admin; neither does an empty list. */
  lemma PlannersAndWorkersAreNotAdmins(roles: seq<UserRole>)
    requires forall i :: 0 <= i < |roles| ==> roles[i].role == Planner || roles[i].role == Worker
    ensures !IsAdmin(roles)
  {
  }

  /** The hook's state. */
  class AuthState {
    var user: Option<User>
    var session: Option<Session>
    var profile: Option<Profile>
    var roles: seq<UserRole>
    var loading: bool

    /** Nobody is known yet and the first session check is pending. */
    constructor ()
      ensures user == None && session == None && profile == None
      ensures roles == [] && loading
    {
      user := None;
      session := None;
      profile := None;
      roles := [];
      loading := true;
    }

    /**
     * The auth-change listener. It mirrors the new session and its user and
     * ends loading; a missing session also drops the profile and the grants.
     * With a session, the profile refresh the listener schedules is a
     * separate later call of RefreshProfile.
     */
    method OnAuthChange(s: Option<Session>)
      modifies this
      ensures session == s
      ensures user == (if s.Some? then Some(s.value.user) else None)
      ensures s.None? ==> profile == None && roles == []
      ensures s.Some? ==> profile == old(profile) && roles == old(roles)
      ensures !loading
    {
      session := s;
      user := if s.Some? then Some(s.value.user) else None;
      if s.None? {
        profile := None;
        roles := [];
      }
      loading := false;
    }

    /**
     * The answer to the `getSession()` check that runs each time the
     * effect runs (it is keyed on the user): like the listener it
     * mirrors the session and ends loading, but it never clears the profile
     * or the grants.
     */
    method ApplyExistingSession(s: Option<Session>)
      modifies this
      ensures session == s
      ensures user == (if s.Some? then Some(s.value.user) else None)
      ensures profile == old(profile) && roles == old(roles)
      ensures !loading
    {
      session := s;
      user := if s.Some? then Some(s.value.user) else None;
      loading := false;
    }

    /**
     * `refreshProfile`, given what the profile query and then the role
     * query produce. Without a user nothing happens. The profile is stored
     * only when a row came back; the grants are then replaced only when the
     * role query returned data (an empty list included). A thrown role query
     * leaves the already stored profile in place.
     */
    method RefreshProfile(profileReply: Reply<Profile>, rolesReply: Reply<seq<UserRole>>)
      modifies this
      ensures user == old(user) && session == old(session) && loading == old(loading)
      ensures old(user).None? || !profileReply.Data? ==> profile == old(profile) && roles == old(roles)
      ensures old(user).Some? && profileReply.Data? ==>
        profile == Some(profileReply.value) &&
        roles == (if rolesReply.Data? then rolesReply.value else old(roles))
    {
      if user.None? {
        return;
      }
      match profileReply {
        case Data(p) =>
          profile := Some(p);
          match rolesReply {
            case Data(rs) => roles := rs;
            case NoData =>
            case Thrown =>
          }
        case NoData =>
        case Thrown =>
      }
    }

    /**
     * `signOut`. When the backend call resolves (with or without an error
     * in its answer) the profile and grants are dropped and user and session
     * stay; when it rejects (`rejected`), nothing after the call runs and the
     * state is unchanged.
     */
    method SignOut(rejected: bool)
      modifies this
      ensures rejected ==> profile == old(profile) && roles == old(roles)
      ensures !rejected ==> profile == None && roles == []
      ensures user == old(user) && session == old(session) && loading == old(loading)
    {
      if !rejected {
        profile := None;
        roles := [];
      }
    }
  }
}
