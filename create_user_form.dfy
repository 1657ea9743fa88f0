/** The create-user form of src/app/dashboard/users/CreateUserForm.tsx: the
    ordered validation chain, the permission checkbox update and the submit
    sequence around UserService.create. */
module CreateUser {
  import opened Js
  import opened Http
  import opened Auth
  import opened Api

  /** CreateUserData as the form holds it. */
  datatype UserForm = UserForm(
    name: string, lastname: string, email: string, password: string,
    roleId: int, cuit: string, phone: string, celphone: string,
    permissions: seq<int>)

  /** The state the form starts in and returns to after a creation. */
  const EmptyForm := UserForm("", "", "", "", 0, "", "", "", [])

  const NameRequired := "El nombre es obligatorio"
  const LastnameRequired := "El apellido es obligatorio"
  const EmailRequired := "El email es obligatorio"
  const PasswordRequired := "La contraseña es obligatoria"
  const RoleRequired := "Debe seleccionar un rol"
  const CuitRequired := "El CUIT es obligatorio"
  const EmailMalformed := "El email no tiene un formato válido"
  const CuitNotNumeric := "El CUIT debe contener solo números"
  const PasswordTooShort := "La contraseña debe tener al menos 6 caracteres"
  const CreatedMessage := "Usuario creado exitosamente"

  // ---------------------------------------------------------------- the e-mail pattern

  /** A character of the class `[^\s@]`. */
  predicate Plain(c: char) {
    !IsSpace(c) && c != '@'
  }

  predicate AllPlain(s: string) {
    forall i :: 0 <= i < |s| ==> Plain(s[i])
  }

  /** `/^[^\s@]+@[^\s@]+\.[^\s@]+$/` read as a regular expression: positions of
      the '@' and of a '.' that cut the string into three non-empty runs of
      characters that are neither whitespace nor '@'. */
  ghost predicate MatchesEmailPattern(s: string) {
    exists at, dot :: 0 < at && at + 1 < dot < |s| - 1 && s[at] == '@' && s[dot] == '.' &&
      AllPlain(s[..at]) && AllPlain(s[at + 1..dot]) && AllPlain(s[dot + 1..])
  }

  /** The same test, stated as the shape it accepts: no whitespace, exactly
      one '@', something before it, and a '.' inside the domain that is neither
      its first nor its last character. */
  predicate EmailShaped(s: string) {
    var parts := Split(s, '@');
    NoSpace(s) && |parts| == 2 && parts[0] != "" &&
    |parts[1]| >= 3 && '.' in parts[1][1..|parts[1]| - 1]
  }

  lemma EmailShapedMatches(s: string)
    requires EmailShaped(s)
    ensures MatchesEmailPattern(s)
  {
    var parts := Split(s, '@');
    var local, domain := parts[0], parts[1];
    assert parts[1..] == [domain];
    assert Join(parts, '@') == s;
    assert Join(parts[1..], '@') == domain;
    assert s == local + ['@'] + domain;
    var j :| 0 <= j < |domain| - 2 && domain[1..|domain| - 1][j] == '.';
    var at, dot := |local|, |local| + 2 + j;
    assert s[..at] == local;
    assert s[at + 1..dot] == domain[..j + 1];
    assert s[dot + 1..] == domain[j + 2..];
    assert s[at] == '@' && s[dot] == '.';
    forall i | 0 <= i < |s| && i != at
      ensures Plain(s[i])
    {
      if i < at {
        assert s[i] == local[i] && local[i] in local;
      } else {
        assert s[i] == domain[i - at - 1] && domain[i - at - 1] in domain;
      }
    }
    assert AllPlain(s[..at]);
    assert AllPlain(s[at + 1..dot]);
    assert AllPlain(s[dot + 1..]);
  }

  /** The cut points of a match: the '@' is the only one, and there is no whitespace. */
  lemma MatchCharacters(s: string, at: int, dot: int)
    requires 0 < at && at + 1 < dot < |s| - 1 && s[at] == '@' && s[dot] == '.'
    requires AllPlain(s[..at]) && AllPlain(s[at + 1..dot]) && AllPlain(s[dot + 1..])
    ensures NoSpace(s)
    ensures forall i :: 0 <= i < |s| && i != at ==> s[i] != '@'
  {
    forall i | 0 <= i < |s| && i != at
      ensures Plain(s[i]) || s[i] == '.'
    {
      if i < at {
        assert s[i] == s[..at][i];
      } else if i < dot {
        assert s[i] == s[at + 1..dot][i - at - 1];
      } else if i > dot {
        assert s[i] == s[dot + 1..][i - dot - 1];
      }
    }
  }

  /** A string with a single '@' splits into what precedes and what follows it. */
  lemma SplitAtSole(s: string, at: int)
    requires 0 <= at < |s| && s[at] == '@'
    requires forall i :: 0 <= i < |s| && i != at ==> s[i] != '@'
    ensures Split(s, '@') == [s[..at], s[at + 1..]]
  {
    var local, domain := s[..at], s[at + 1..];
    assert '@' !in local by {
      forall i | 0 <= i < |local| ensures local[i] != '@' { assert local[i] == s[i]; }
    }
    assert '@' !in domain by {
      forall i | 0 <= i < |domain| ensures domain[i] != '@' { assert domain[i] == s[at + 1 + i]; }
    }
    assert s == local + ['@'] + domain;
    SplitAtFirst(local, '@', domain);
    SplitWithoutSeparator(domain, '@');
  }

  /** Cut points with a sole '@' and no whitespace give the accepted shape. */
  lemma ShapedFromCuts(s: string, at: int, dot: int)
    requires 0 < at && at + 1 < dot < |s| - 1 && s[at] == '@' && s[dot] == '.'
    requires NoSpace(s) && forall i :: 0 <= i < |s| && i != at ==> s[i] != '@'
    ensures EmailShaped(s)
  {
    SplitAtSole(s, at);
    var domain := s[at + 1..];
    var inner := domain[1..|domain| - 1];
    assert inner[dot - at - 2] == '.';
  }

  lemma PatternIsShaped(s: string)
    requires MatchesEmailPattern(s)
    ensures EmailShaped(s)
  {
    var at, dot :| 0 < at && at + 1 < dot < |s| - 1 && s[at] == '@' && s[dot] == '.' &&
      AllPlain(s[..at]) && AllPlain(s[at + 1..dot]) && AllPlain(s[dot + 1..]);
    MatchCharacters(s, at, dot);
    ShapedFromCuts(s, at, dot);
  }

  /** The shape test accepts exactly the strings the pattern matches. */
  lemma EmailShapeIsPattern(s: string)
    ensures EmailShaped(s) <==> MatchesEmailPattern(s)
  {
    if EmailShaped(s) {
      EmailShapedMatches(s);
    }
    if MatchesEmailPattern(s) {
      PatternIsShaped(s);
    }
  }

  /** `/^\d+$/`: one or more ASCII decimal digits. */
  predicate Numeric(s: string) {
    |s| >= 1 && AllDigits(s)
  }

  // ---------------------------------------------------------------- validation

  /** One link of the chain: whether it passes, and its message. */
  datatype Check = Check(passes: bool, message: string)

  /** The message of the first failing check, if any. */
  ghost function FirstFailure(checks: seq<Check>): Option<string>
  {
    if checks == [] then None
    else if !checks[0].passes then Some(checks[0].message)
    else FirstFailure(checks[1..])
  }

  /** FirstFailure finds nothing exactly when every check passes, and
      otherwise the message of a failing check all of whose predecessors pass. */
  lemma {:induction false} FirstFailureIsFirst(checks: seq<Check>)
    ensures FirstFailure(checks).None? <==> forall i :: 0 <= i < |checks| ==> checks[i].passes
    ensures FirstFailure(checks).Some? ==>
              exists k :: 0 <= k < |checks| && !checks[k].passes &&
                FirstFailure(checks).value == checks[k].message &&
                forall i :: 0 <= i < k ==> checks[i].passes
  {
    if checks != [] && checks[0].passes {
      var rest := checks[1..];
      FirstFailureIsFirst(rest);
      if FirstFailure(rest).Some? {
        var k :| 0 <= k < |rest| && !rest[k].passes && FirstFailure(rest).value == rest[k].message &&
                 forall i :: 0 <= i < k ==> rest[i].passes;
        assert !checks[k + 1].passes && FirstFailure(checks).value == checks[k + 1].message;
        forall i | 0 < i < k + 1 ensures checks[i].passes { assert checks[i] == rest[i - 1]; }
      } else {
        forall i | 1 <= i < |checks| ensures checks[i].passes { assert checks[i] == rest[i - 1]; }
      }
    }
  }

  /** One step of the search, from position k of the chain. */
  lemma FirstFailureStep(checks: seq<Check>, k: nat)
    requires k < |checks|
    ensures FirstFailure(checks[k..]) ==
      if checks[k].passes then FirstFailure(checks[k + 1..]) else Some(checks[k].message)
  {
    assert checks[k..][1..] == checks[k + 1..];
  }

  /** The checks of validateForm, in the order it runs them, each with the
      message it reports, stated as what a passing field satisfies. */
  ghost function Checks(f: UserForm): seq<Check>
  {
    [ Check(!AllSpace(f.name), NameRequired),
      Check(!AllSpace(f.lastname), LastnameRequired),
      Check(!AllSpace(f.email), EmailRequired),
      Check(!AllSpace(f.password), PasswordRequired),
      Check(f.roleId != 0, RoleRequired),
      Check(!AllSpace(f.cuit), CuitRequired),
      Check(MatchesEmailPattern(f.email), EmailMalformed),
      Check(Numeric(f.cuit), CuitNotNumeric),
      Check(|f.password| >= 6, PasswordTooShort) ]
  }

  /** validateForm: the first failure message, or None (null) when the form
      may be sent. Each `!x.trim()` test is written as `AllSpace(x)`, which
      holds for exactly the same strings (Js.TrimEmptyIffBlank). */
  function ValidateForm(f: UserForm): (r: Option<string>)
    ensures r.None? <==>
      !AllSpace(f.name) && !AllSpace(f.lastname) && !AllSpace(f.email) && !AllSpace(f.password) &&
      f.roleId != 0 && !AllSpace(f.cuit) && EmailShaped(f.email) && Numeric(f.cuit) && |f.password| >= 6
    ensures r.Some? ==> r.value in {NameRequired, LastnameRequired, EmailRequired, PasswordRequired,
                                    RoleRequired, CuitRequired, EmailMalformed, CuitNotNumeric, PasswordTooShort}
  {
    if AllSpace(f.name) then Some(NameRequired)
    else if AllSpace(f.lastname) then Some(LastnameRequired)
    else if AllSpace(f.email) then Some(EmailRequired)
    else if AllSpace(f.password) then Some(PasswordRequired)
    else if f.roleId == 0 then Some(RoleRequired)
    else if AllSpace(f.cuit) then Some(CuitRequired)
    else if !EmailShaped(f.email) then Some(EmailMalformed)
    else if !Numeric(f.cuit) then Some(CuitNotNumeric)
    else if |f.password| < 6 then Some(PasswordTooShort)
    else None
  }

  /** validateForm reports the message of the first check, in the fixed
      order, that the form fails; so it returns null exactly when every check
      passes. */
  lemma ValidationFollowsChecks(f: UserForm)
    ensures ValidateForm(f) == FirstFailure(Checks(f))
    ensures ValidateForm(f).None? <==> forall i :: 0 <= i < |Checks(f)| ==> Checks(f)[i].passes
  {
    EmailShapeIsPattern(f.email);
    var cs := Checks(f);
    assert cs[9..] == [];
    FirstFailureStep(cs, 8);
    FirstFailureStep(cs, 7);
    FirstFailureStep(cs, 6);
    FirstFailureStep(cs, 5);
    FirstFailureStep(cs, 4);
    FirstFailureStep(cs, 3);
    FirstFailureStep(cs, 2);
    FirstFailureStep(cs, 1);
    FirstFailureStep(cs, 0);
    assert cs[0..] == cs;
    FirstFailureIsFirst(cs);
  }

  /** The length test counts the untrimmed password: a password that passes
      the non-blank check can still be too short, and padding it with spaces
      gets it past both password checks. */
  lemma PasswordLengthCountsWhitespace(f: UserForm)
    requires !AllSpace(f.name) && !AllSpace(f.lastname) && f.roleId != 0
    requires EmailShaped(f.email) && Numeric(f.cuit)
    ensures f.password == "ab" ==> ValidateForm(f) == Some(PasswordTooShort)
    ensures f.password == "  ab  " ==> ValidateForm(f) == None
  {
    EmailNotEmpty(f.email);
    assert IsDigit(f.cuit[0]);
    if f.password == "ab" {
      assert f.password[0] == 'a';
    } else if f.password == "  ab  " {
      assert f.password[2] == 'a';
    }
  }

  lemma EmailNotEmpty(s: string)
    requires EmailShaped(s)
    ensures |s| >= 1 && !IsSpace(s[0])
  {
    var parts := Split(s, '@');
    assert s == Join(parts, '@');
    assert |s| >= |parts[0]|;
  }

  // ---------------------------------------------------------------- permissions

  /** `list.filter(id => id !== permissionId)` */
  function Without(perms: seq<int>, id: int): (r: seq<int>)
    ensures id !in r
    ensures multiset(r) == multiset(perms)[id := 0]
  {
    if perms == [] then []
    else
      var rest := Without(perms[1..], id);
      assert perms == [perms[0]] + perms[1..];
      if perms[0] == id then rest else [perms[0]] + rest
  }

  /** The filter keeps the order of what it keeps: it works piecewise. */
  lemma {:induction false} WithoutDistributes(a: seq<int>, b: seq<int>, id: int)
    ensures Without(a + b, id) == Without(a, id) + Without(b, id)
  {
    if a != [] {
      assert (a + b)[1..] == a[1..] + b;
      WithoutDistributes(a[1..], b, id);
    } else {
      assert a + b == b;
    }
  }

  /** The new permission list of handlePermissionChange. */
  function Toggled(perms: seq<int>, id: int, checked: bool): (r: seq<int>)
    ensures checked ==> |r| == |perms| + 1 && r[..|perms|] == perms && r[|perms|] == id
    ensures !checked ==> id !in r && multiset(r) == multiset(perms)[id := 0]
  {
    if checked then perms + [id] else Without(perms, id)
  }

  /** Unchecking after checking removes every copy of the id; on a list that
      did not hold it, that restores the list. */
  lemma CheckThenUncheck(perms: seq<int>, id: int)
    requires id !in perms
    ensures Toggled(Toggled(perms, id, true), id, false) == perms
  {
    WithoutDistributes(perms, [id], id);
    WithoutAbsent(perms, id);
  }

  lemma {:induction false} WithoutAbsent(perms: seq<int>, id: int)
    requires id !in perms
    ensures Without(perms, id) == perms
  {
    if perms != [] {
      assert perms[0] != id;
      WithoutAbsent(perms[1..], id);
      assert [perms[0]] + perms[1..] == perms;
    }
  }

  // ---------------------------------------------------------------- the request body

  /** The JSON body UserService.create sends for the form. */
  function FormJson(f: UserForm): (j: Json)
    ensures j.Obj? && j.members.Keys ==
      {"name", "lastname", "email", "password", "role_id", "cuit", "phone", "celphone", "permissions"}
    ensures j.members["permissions"] == NumberList(f.permissions)
    ensures j.members["role_id"] == Num(f.roleId)
  {
    Obj(map[
      "name" := Str(f.name), "lastname" := Str(f.lastname), "email" := Str(f.email),
      "password" := Str(f.password), "role_id" := Num(f.roleId), "cuit" := Str(f.cuit),
      "phone" := Str(f.phone), "celphone" := Str(f.celphone),
      "permissions" := NumberList(f.permissions)])
  }

  /** A string member of a request body, if it is there. */
  function TextMember(m: map<string, Json>, key: string): Option<string>
  {
    if key in m && m[key].Str? then Some(m[key].s) else None
  }

  /** Reads a create request body back into the form it was built from. */
  function ReadForm(j: Json): Option<UserForm>
  {
    if !j.Obj? then None
    else
      var m := j.members;
      var name, lastname, email, password :=
        TextMember(m, "name"), TextMember(m, "lastname"), TextMember(m, "email"), TextMember(m, "password");
      var cuit, phone, celphone := TextMember(m, "cuit"), TextMember(m, "phone"), TextMember(m, "celphone");
      var permissions := if "permissions" in m then ReadNumberList(m["permissions"]) else None;
      if name.Some? && lastname.Some? && email.Some? && password.Some? && cuit.Some? && phone.Some? &&
         celphone.Some? && permissions.Some? && "role_id" in m && m["role_id"].Num?
      then Some(UserForm(name.value, lastname.value, email.value, password.value, m["role_id"].n,
                         cuit.value, phone.value, celphone.value, permissions.value))
      else None
  }

  /** The request body carries every field of the form unchanged. */
  lemma FormJsonRoundTrip(f: UserForm)
    ensures ReadForm(FormJson(f)) == Some(f)
  {
    NumberListRoundTrip(f.permissions);
    var m := FormJson(f).members;
    assert TextMember(m, "name") == Some(f.name);
    assert TextMember(m, "lastname") == Some(f.lastname);
    assert TextMember(m, "email") == Some(f.email);
    assert TextMember(m, "password") == Some(f.password);
    assert TextMember(m, "cuit") == Some(f.cuit);
    assert TextMember(m, "phone") == Some(f.phone);
    assert TextMember(m, "celphone") == Some(f.celphone);
  }

  // ---------------------------------------------------------------- the component

  class CreateUserForm {
    const store: TokenStore
    var form: UserForm
    var loading: bool
    var error: string
    var success: string

    constructor (store: TokenStore)
      ensures this.store == store && form == EmptyForm
      ensures !loading && error == "" && success == ""
    {
      this.store := store;
      form := EmptyForm;
      loading, error, success := false, "", "";
    }

    /** handlePermissionChange: only the permission list changes. */
    method TogglePermission(id: int, checked: bool)
      modifies this
      ensures form == old(form).(permissions := Toggled(old(form.permissions), id, checked))
      ensures loading == old(loading) && error == old(error) && success == old(success)
    {
      form := form.(permissions := Toggled(form.permissions, id, checked));
    }

    /** The try/catch/finally of handleSubmit, reached once the form is valid:
        the form is sent as it stands; on success it is cleared and the
        callback scheduled, on failure the error is shown; loading ends either way. */
    method Send(reply: Reply<Json>) returns (sent: Request, navigate: Option<string>, notified: bool)
      requires store.Valid()
      modifies this, store
      ensures store.Valid()
      ensures !loading && sent == Request("POST", "/auth/register", old(store.AuthHeaders()), Some(FormJson(old(form))))
      ensures navigate == (if Unauthorized(reply) && store.browser then Some("/login") else None)
      ensures if Unauthorized(reply) then store.token.None? && store.user.None?
              else store.token == old(store.token) && store.user == old(store.user)
      ensures MutationOutcome(reply, CreateFallback).Resolved? ==>
        form == EmptyForm && success == CreatedMessage && error == "" && notified
      ensures MutationOutcome(reply, CreateFallback).Thrown? ==>
        form == old(form) && success == "" && !notified &&
        error == MutationOutcome(reply, CreateFallback).message
    {
      var body := FormJson(form);
      loading, error, success := true, "", "";
      var outcome;
      sent, navigate, outcome := CreateUser(store, body, reply);
      if outcome.Resolved? {
        success := CreatedMessage;
        form := EmptyForm;
        notified := true;
      } else {
        error := outcome.message;
        notified := false;
      }
      loading := false;
    }

    /** handleSubmit, given the reply the create request gets. Returns the
        request sent, if any, and whether the success callback is scheduled. */
    method HandleSubmit(reply: Reply<Json>) returns (sent: Option<Request>, navigate: Option<string>, notified: bool)
      requires store.Valid()
      modifies this, store
      ensures store.Valid()
      // an invalid form: its message, nothing sent, nothing else changes
      ensures ValidateForm(old(form)).Some? ==>
        error == ValidateForm(old(form)).value && sent.None? && navigate.None? && !notified &&
        loading == old(loading) &&
        form == old(form) && success == old(success) &&
        store.token == old(store.token) && store.user == old(store.user)
      // a valid form is sent as it stands
      ensures ValidateForm(old(form)).None? ==>
        !loading && sent == Some(Request("POST", "/auth/register", old(store.AuthHeaders()), Some(FormJson(old(form))))) &&
        navigate == (if Unauthorized(reply) && store.browser then Some("/login") else None) &&
        if Unauthorized(reply) then store.token.None? && store.user.None?
        else store.token == old(store.token) && store.user == old(store.user)
      ensures ValidateForm(old(form)).None? && MutationOutcome(reply, CreateFallback).Resolved? ==>
        form == EmptyForm && success == CreatedMessage && error == "" && notified
      ensures ValidateForm(old(form)).None? && MutationOutcome(reply, CreateFallback).Thrown? ==>
        form == old(form) && success == "" && !notified &&
        error == MutationOutcome(reply, CreateFallback).message
    {
      var invalid := ValidateForm(form);
      if invalid.Some? {
        error := invalid.value;
        return None, None, false;
      }
      var request;
      request, navigate, notified := Send(reply);
      sent := Some(request);
    }
  }
}
