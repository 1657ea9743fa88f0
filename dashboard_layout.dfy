/** The user badge of the dashboard shell (src/app/dashboard/layout.tsx): the
    avatar initials, the name shown next to it and the role label, each a
    fallback chain over the stored profile. */
module Layout {
  import opened Js
  import opened Auth
  import LoginPage

  const Anonymous := "U"
  const DefaultLabel := "Usuario"

  /** `s?.[0] || ''`: the first character of an optional string, or nothing. */
  function FirstChar(s: Option<string>): (r: string)
    ensures |r| <= 1
    ensures r != "" <==> Filled(s)
    ensures Filled(s) ==> r[0] == s.value[0]
  {
    if Filled(s) then [s.value[0]] else ""
  }

  /** getUserInitials. The e-mail branch is kept as written; see InitialsComeFromName. */
  function Initials(user: Option<Profile>): (r: string)
    ensures r != ""
  {
    if user.None? || !Filled(user.value.name) then Anonymous
    else
      var initials := Upper(FirstChar(user.value.name) + FirstChar(user.value.lastname));
      var fromEmail := Upper(FirstChar(user.value.email));
      if initials != "" then initials
      else if fromEmail != "" then fromEmail
      else Anonymous
  }

  /** The initials are "U" exactly when there is no name; otherwise they are
      the upper-cased first letters of the name and, when there is one, of the
      last name. So the e-mail fallback is never taken: a present name always
      yields at least one initial. */
  lemma InitialsComeFromName(user: Option<Profile>)
    ensures (user.None? || !Filled(user.value.name)) ==> Initials(user) == Anonymous
    ensures user.Some? && Filled(user.value.name) ==>
      var u := user.value;
      |Initials(user)| == (if Filled(u.lastname) then 2 else 1) &&
      Initials(user)[0] == UpperChar(u.name.value[0]) &&
      (Filled(u.lastname) ==> Initials(user)[1] == UpperChar(u.lastname.value[0]))
  {
  }

  /** getUserDisplayName: fullName, then "name lastname", then name, then
      e-mail, then "Usuario". */
  function DisplayName(user: Option<Profile>): (r: string)
    ensures r != ""
    ensures user.Some? && Filled(user.value.fullName) ==> r == user.value.fullName.value
    ensures r == DefaultLabel || (user.Some? &&
              (Some(r) == user.value.fullName || Some(r) == user.value.name || Some(r) == user.value.email ||
               (Filled(user.value.name) && Filled(user.value.lastname) &&
                r == user.value.name.value + " " + user.value.lastname.value)))
    // each fallback is taken only when every earlier one is missing or empty
    ensures user.Some? && !Filled(user.value.fullName) && Filled(user.value.name) && Filled(user.value.lastname) ==>
              r == user.value.name.value + " " + user.value.lastname.value
    ensures user.Some? && !Filled(user.value.fullName) && Filled(user.value.name) && !Filled(user.value.lastname) ==>
              r == user.value.name.value
    ensures user.Some? && !Filled(user.value.fullName) && !Filled(user.value.name) && Filled(user.value.email) ==>
              r == user.value.email.value
    ensures user.None? || (!Filled(user.value.fullName) && !Filled(user.value.name) && !Filled(user.value.email)) ==>
              r == DefaultLabel
  {
    if user.Some? && Filled(user.value.fullName) then user.value.fullName.value
    else if user.Some? && Filled(user.value.name) && Filled(user.value.lastname) then
      user.value.name.value + " " + user.value.lastname.value
    else if user.Some? && Filled(user.value.name) then user.value.name.value
    else if user.Some? && Filled(user.value.email) then user.value.email.value
    else DefaultLabel
  }

  /** getUserRole: roleName, then role, then "Usuario". */
  function RoleLabel(user: Option<Profile>): (r: string)
    ensures r != ""
    ensures r == DefaultLabel || (user.Some? && (Some(r) == user.value.roleName || Some(r) == user.value.role))
    ensures user.Some? && Filled(user.value.roleName) ==> r == user.value.roleName.value
    ensures user.Some? && !Filled(user.value.roleName) && Filled(user.value.role) ==> r == user.value.role.value
    ensures user.None? || (!Filled(user.value.roleName) && !Filled(user.value.role)) ==> r == DefaultLabel
  {
    if user.Some? && Filled(user.value.roleName) then user.value.roleName.value
    else if user.Some? && Filled(user.value.role) then user.value.role.value
    else DefaultLabel
  }

  /** For a profile stored by a real login, the role label is the backend
      role's name, or "Usuario" when the backend gave none. */
  lemma LoggedInRoleLabel(u: BackendUser)
    ensures RoleLabel(Some(CleanUser(u))) ==
      if u.role.Some? && Filled(u.role.value.name) then u.role.value.name.value else DefaultLabel
  {
  }

  /** For a profile stored by a real login, the display name is the trimmed
      `${name} ${lastname}` the login built; template literals write a missing
      member as "undefined", so a user without a last name is shown as
      "<name> undefined". */
  lemma LoggedInWithoutLastname(u: BackendUser)
    requires Filled(u.name) && !IsSpace(u.name.value[0]) && u.lastname.None?
    ensures DisplayName(Some(CleanUser(u))) == u.name.value + " undefined"
  {
    var joined := TemplateText(u.name) + " " + TemplateText(u.lastname);
    assert joined == u.name.value + " undefined";
    assert joined[0] == u.name.value[0] && joined[|joined| - 1] == 'd';
    TrimUnchanged(joined);
    var p := CleanUser(u);
    assert p.fullName == Some(joined);
  }

  /** The demo administrator the login page stores shows as "Admin Usuario",
      with initial "A" and role "admin". */
  lemma DemoBadge()
    ensures DisplayName(Some(LoginPage.DemoProfile)) == "Admin Usuario"
    ensures Initials(Some(LoginPage.DemoProfile)) == "A"
    ensures RoleLabel(Some(LoginPage.DemoProfile)) == "admin"
  {
  }
}
