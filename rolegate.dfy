/**
 * The role gate in front of role-restricted pages: while authentication is
 * loading nothing is shown; the administrator e-mail always passes; otherwise
 * a signed-in user passes when the profile's role (or, failing that, its
 * `role_id`) is the required role or a list containing it.
 */
module RoleGate {
  import opened Common

  /** A profile's `role` or `role_id`, which the gate reads without a type: text, a list, a number, or nothing. */
  datatype RoleValue = Absent | Text(s: string) | List(elems: seq<string>) | Number(n: int)

  /** JavaScript truthiness: "" and 0 are falsy, every array is truthy. */
  predicate Truthful(v: RoleValue) {
    match v
    case Absent => false
    case Text(s) => s != ""
    case List(_) => true
    case Number(n) => n != 0
  }

  datatype Profile = Profile(role: RoleValue, roleId: RoleValue)

  datatype User = User(email: Option<string>)

  /** What the gate renders: nothing, the protected page, or a redirect. */
  datatype Decision = Nothing | Children | Redirect(to: string)

  const AdminEmail: string := "admin@example.com"

  /** `profile?.role || profile?.role_id || null`. */
  function UserRole(profile: Option<Profile>): (v: RoleValue)
    ensures Truthful(v) || v == Absent
    ensures profile.Some? && Truthful(profile.value.role) ==> v == profile.value.role
    ensures profile.Some? && !Truthful(profile.value.role) && Truthful(profile.value.roleId) ==> v == profile.value.roleId
  {
    if profile.None? then Absent
    else if Truthful(profile.value.role) then profile.value.role
    else if Truthful(profile.value.roleId) then profile.value.roleId
    else Absent
  }

  function Decide(loading: bool, user: Option<User>, profile: Option<Profile>, role: string): (d: Decision)
    ensures d == Nothing <==> loading
    ensures !loading && user.None? ==> d == Redirect("/auth")
    ensures d == Children ==> user.Some?
    ensures d.Redirect? ==> d.to == "/auth" || d.to == "/"
  {
    if loading then Nothing
    else
      var userRole := UserRole(profile);
      if user.Some? && user.value.email == Some(AdminEmail) then Children
      else if user.None? then Redirect("/auth")
      else if !Truthful(userRole) then Redirect("/")
      else if userRole.Text? && userRole.s == role then Children
      else if userRole.List? && role in userRole.elems then Children
      else Redirect("/")
  }

  /** Holding the role: the role text is it, or the role list contains it. */
  predicate Grants(v: RoleValue, role: string) {
    (v.Text? && v.s == role) || (v.List? && role in v.elems)
  }

  /**
   * Once loaded, the page is shown exactly to the administrator e-mail and to signed-in users
   * whose role grants it; everyone else is redirected, to /auth when signed out and to / otherwise.
   */
  lemma GateDecides(user: Option<User>, profile: Option<Profile>, role: string)
    ensures var d := Decide(false, user, profile, role);
      && (d == Children <==>
            user.Some? && (user.value.email == Some(AdminEmail) || Grants(UserRole(profile), role)))
      && (user.None? ==> d == Redirect("/auth"))
      && (user.Some? && d != Children ==> d == Redirect("/"))
  {
  }

  /** Nothing is decided while loading, whoever is signed in. */
  lemma LoadingShowsNothing(user: Option<User>, profile: Option<Profile>, role: string)
    ensures Decide(true, user, profile, role) == Nothing
  {
  }

  /** `role_id` is consulted only when `role` is falsy. */
  lemma RoleIdOnlyAsFallback(user: User, role: RoleValue, roleId: RoleValue, roleId': RoleValue, required: string)
    requires Truthful(role)
    ensures Decide(false, Some(user), Some(Profile(role, roleId)), required)
         == Decide(false, Some(user), Some(Profile(role, roleId')), required)
  {
  }

  /** A non-zero numeric role is truthy, hides `role_id`, and never grants a role: the user is sent to /. */
  lemma NumericRoleRedirects(email: Option<string>, n: int, roleId: RoleValue, required: string)
    requires email != Some(AdminEmail) && n != 0
    ensures Decide(false, Some(User(email)), Some(Profile(Number(n), roleId)), required) == Redirect("/")
  {
  }
}
