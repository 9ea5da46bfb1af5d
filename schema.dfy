/** The `app_role` enumeration of the database schema. */
module Schema {
  import opened Wrappers

  datatype AppRole = SuperAdmin | MineAdmin | Planner | Worker

  /** The name the database stores for a role. */
  function RoleName(r: AppRole): string
  {
    match r
    case SuperAdmin => "super_admin"
    case MineAdmin => "mine_admin"
    case Planner => "planner"
    case Worker => "worker"
  }

  /** The role a stored name denotes, if any. */
  function ParseRole(name: string): (r: Option<AppRole>)
    ensures r.Some? ==> RoleName(r.value) == name
    ensures r.None? ==> forall a: AppRole :: RoleName(a) != name
  {
    if name == "super_admin" then Some(SuperAdmin)
    else if name == "mine_admin" then Some(MineAdmin)
    else if name == "planner" then Some(Planner)
    else if name == "worker" then Some(Worker)
    else None
  }

  /** Reading back a role's name gives the role. */
  lemma ParseRoleName(r: AppRole)
    ensures ParseRole(RoleName(r)) == Some(r)
  {
  }
}
