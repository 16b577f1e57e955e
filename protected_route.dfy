/** The route guard in front of the admin and player screens. */
module ProtectedRoute {
  import opened Wrappers
  import opened JsText

  /** The signed-in user as the auth context holds it; only the role is read here. */
  datatype AuthUser = AuthUser(role: Option<string>)

  /** What the guard renders. */
  datatype View = LoadingScreen | RedirectToLogin | Children

  /** `role?.toLowerCase()`: undefined stays undefined. */
  function LowerRole(role: Option<string>): Option<string> {
    match role
    case None => None
    case Some(r) => Some(ToLower(r))
  }

  /** `ProtectedRoute`: `user` is None when nobody is signed in, `required` is the route's `role` prop. */
  function Decide(loading: bool, user: Option<AuthUser>, required: Option<string>): (v: View)
    ensures loading ==> v == LoadingScreen
    ensures !loading && user.None? ==> v == RedirectToLogin
    ensures v == Children <==> !loading && user.Some? && LowerRole(user.value.role) == LowerRole(required)
    ensures v == RedirectToLogin <==>
      !loading && (user.None? || LowerRole(user.value.role) != LowerRole(required))
  {
    if loading then LoadingScreen
    else if user.None? then RedirectToLogin
    else if LowerRole(user.value.role) != LowerRole(required) then RedirectToLogin
    else Children
  }

  /** A stored role of `Admin` passes a route that requires `admin`. */
  lemma AdminCaseInsensitive()
    ensures Decide(false, Some(AuthUser(Some("Admin"))), Some("admin")) == Children
  {
    var lowered := ToLower("Admin");
    assert lowered[0] == 'a' && lowered[1..] == "dmin";
    assert lowered == "admin";
    ToLowerIdempotent("Admin");
  }

  /** With both roles present, access is granted exactly when they agree ignoring case. */
  lemma RoleMatchIgnoresCase(userRole: string, required: string)
    ensures Decide(false, Some(AuthUser(Some(userRole))), Some(required)) == Children
            <==> ToLower(userRole) == ToLower(required)
  {
  }

  /** A player is never let onto an admin route. */
  lemma PlayerKeptOffAdminRoute()
    ensures Decide(false, Some(AuthUser(Some("player"))), Some("admin")) == RedirectToLogin
  {
    assert ToLower("player")[0] == 'p' && ToLower("admin")[0] == 'a';
  }
}
