/**
 * Role gating of the web routes (app.py, `role_required` and `dashboard`).
 * The session is reduced to the two entries these checks read.
 */
module Access {
  import opened Optional

  /** The entries of the login session that the access checks read. */
  datatype Session = Session(userId: Option<int>, role: Option<string>)

  /** Where the home page sends a request. */
  datatype Landing = ToLogin | AdminHome | PharmacistHome | CustomerHome | InvalidRole

  /** The gate of `role_required(role)`: a logged-in user whose role is exactly `role`. */
  function RoleRequired(s: Session, role: string): (granted: bool)
    ensures granted ==> s.userId.Some? && s.role.Some?
    ensures s.role.Some? && s.role.value != role ==> !granted
  {
    s.userId.Some? && s.role == Some(role)
  }

  /** A session passes the gate for at most one role, and never without a login or a role. */
  lemma {:induction false} RoleRequiredExclusive(s: Session, a: string, b: string)
    requires RoleRequired(s, a)
    ensures s.userId.Some? && s.role.Some?
    ensures RoleRequired(s, b) <==> a == b
  {
  }

  /** The home page that a dashboard of the given role is served under. */
  function HomeOf(role: string): Landing {
    if role == "Admin" then AdminHome
    else if role == "Pharmacist" then PharmacistHome
    else if role == "Customer" then CustomerHome
    else InvalidRole
  }

  /**
   * The home route: a visitor without a login is sent to the login page;
   * a missing role counts as "Guest", which no dashboard accepts.
   * The landing page is a role's dashboard exactly when that role's gate would let the session in.
   */
  function Dashboard(s: Session): (r: Landing)
    ensures r == ToLogin <==> s.userId.None?
    ensures r == AdminHome <==> RoleRequired(s, "Admin")
    ensures r == PharmacistHome <==> RoleRequired(s, "Pharmacist")
    ensures r == CustomerHome <==> RoleRequired(s, "Customer")
    ensures r == InvalidRole <==>
      s.userId.Some? && !RoleRequired(s, "Admin") && !RoleRequired(s, "Pharmacist") && !RoleRequired(s, "Customer")
  {
    if s.userId.None? then ToLogin
    else HomeOf(s.role.GetOr("Guest"))
  }
}
