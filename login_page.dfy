/** The login page of src/app/login/page.tsx: the redirect of an already
    authenticated visitor, and the submit sequence with its client-side demo
    fallback. */
module LoginPage {
  import opened Js
  import opened Http
  import opened Auth

  const DemoEmail := "admin@conmomet.com"
  const DemoPassword := "admin123"
  /** 60 * 60 * 24 seconds. */
  const DemoLifetime := 86400
  const EmptyFieldsMessage := "Por favor, completa todos los campos."
  const ConnectionHint := "Error de conexión. Intenta con: admin@conmomet.com / admin123"

  /** The fixed administrator the demo fallback stores and embeds in its token. */
  const DemoProfile := Profile(Some(1), Some("Admin Usuario"), None, Some(DemoEmail), Some("admin"), None, None, None)

  /** `Math.floor(Date.now() / 1000) + 60 * 60 * 24`; Dafny's division by a
      positive divisor rounds down, as Math.floor does. */
  function DemoExpiry(nowMs: int): (exp: int)
    ensures nowMs + 86399000 < exp * 1000 <= nowMs + 86400000
  {
    nowMs / 1000 + DemoLifetime
  }

  function DemoClaims(nowMs: int): Claims
  {
    Claims(Some(DemoExpiry(nowMs)), Some(DemoProfile))
  }

  /** `demo.${btoa(JSON.stringify(payload))}.demo` */
  function DemoToken(encode: Claims -> string, nowMs: int): (t: string)
    ensures StartsWith(t, DemoPrefix) && |t| >= 10
    ensures t[5..|t| - 5] == encode(DemoClaims(nowMs)) && t[|t| - 5..] == ".demo"
  {
    "demo." + encode(DemoClaims(nowMs)) + ".demo"
  }

  /** The message the page shows for a failed login: the login error, or the
      hint naming the demo credentials when that error is empty. */
  function ShownError(loginError: string): (shown: string)
    ensures shown != ""
    ensures loginError != "" ==> shown == loginError
    ensures loginError == "" ==> shown == ConnectionHint
  {
    if loginError != "" then loginError else ConnectionHint
  }

  /** The demo token is accepted by the validator's demo branch exactly until
      its `exp`, and checking it never clears the store. */
  lemma {:induction false} DemoTokenHonoured(codec: PayloadCodec, issuedMs: int, nowMs: int)
    requires Faithful(codec)
    ensures Assess(Some(DemoToken(codec.encode, issuedMs)), nowMs, codec.decode)
         == Verdict(nowMs < DemoExpiry(issuedMs) * 1000, false)
  {
    var middle := codec.encode(DemoClaims(issuedMs));
    var token := DemoToken(codec.encode, issuedMs);
    assert '.' !in middle && codec.decode(middle) == Some(DemoClaims(issuedMs));
    assert token == "demo" + ['.'] + (middle + ['.'] + "demo");
    SplitAtFirst("demo", '.', middle + ['.'] + "demo");
    SplitAtFirst(middle, '.', "demo");
    assert token[..5] == DemoPrefix;
  }

  /** In wall-clock terms: accepted for the first 86399 seconds after it is
      issued, and rejected from 24 hours after it is issued. */
  lemma DemoTokenLifetime(codec: PayloadCodec, issuedMs: int, nowMs: int)
    requires Faithful(codec)
    ensures nowMs <= issuedMs + 86399000 ==>
              Assess(Some(DemoToken(codec.encode, issuedMs)), nowMs, codec.decode).authenticated
    ensures nowMs >= issuedMs + 86400000 ==>
              !Assess(Some(DemoToken(codec.encode, issuedMs)), nowMs, codec.decode).authenticated
  {
    DemoTokenHonoured(codec, issuedMs, nowMs);
    var seconds := issuedMs / 1000;
    assert issuedMs - 999 <= seconds * 1000 <= issuedMs;
  }

  class LoginPage {
    const store: TokenStore
    var email: string
    var password: string
    var error: string
    var loading: bool

    constructor (store: TokenStore)
      ensures this.store == store
      ensures email == "" && password == "" && error == "" && !loading
    {
      this.store := store;
      email := "";
      password := "";
      error := "";
      loading := false;
    }

    /** The mount-time check: an authenticated visitor is sent to /dashboard. */
    method OnMount(nowMs: int, decode: string -> Option<Claims>) returns (navigate: Option<string>)
      requires store.Valid()
      modifies store
      ensures store.Valid()
      ensures navigate == (if Assess(old(store.token), nowMs, decode).authenticated then Some("/dashboard") else None)
      ensures if Assess(old(store.token), nowMs, decode).purges then store.token.None? && store.user.None?
              else store.token == old(store.token) && store.user == old(store.user)
    {
      var ok := store.IsAuthenticated(nowMs, decode);
      navigate := if ok then Some("/dashboard") else None;
    }

    /** handleSubmit at time `nowMs`, given the reply the login request gets and
        the payload encoder of the demo token. */
    method HandleSubmit(nowMs: int, reply: Reply<LoginBody>, encode: Claims -> string)
      returns (sent: Option<Request>, navigate: Option<string>)
      requires store.Valid()
      modifies this, store
      ensures store.Valid() && !loading
      ensures email == old(email) && password == old(password)
      // an empty field: no request, the store untouched
      ensures old(email) == "" || old(password) == "" ==>
        sent.None? && navigate.None? && error == EmptyFieldsMessage &&
        store.token == old(store.token) && store.user == old(store.user)
      ensures old(email) != "" && old(password) != "" ==>
        sent == Some(Request("POST", "/auth/login", map["Content-Type" := "application/json"],
                             Some(Obj(map["email" := Str(old(email)), "password" := Str(old(password))]))))
      // a real login: the page itself writes nothing more
      ensures old(email) != "" && old(password) != "" && LoginOutcome(reply).LoggedIn? ==>
        navigate == Some("/dashboard") && error == "" &&
        store.token == (if store.browser then Some(LoginOutcome(reply).token) else None) &&
        store.user == (if store.browser then Some(LoginOutcome(reply).user) else None)
      // the demo fallback
      ensures old(email) != "" && old(password) != "" && LoginOutcome(reply).LoginFailed? &&
              old(email) == DemoEmail && old(password) == DemoPassword ==>
        navigate == Some("/dashboard") && error == "" &&
        store.token == (if store.browser then Some(DemoToken(encode, nowMs)) else None) &&
        store.user == (if store.browser then Some(DemoProfile) else None)
      // any other failure: the message, the store untouched
      ensures old(email) != "" && old(password) != "" && LoginOutcome(reply).LoginFailed? &&
              !(old(email) == DemoEmail && old(password) == DemoPassword) ==>
        navigate.None? && error == ShownError(LoginOutcome(reply).error) &&
        store.token == old(store.token) && store.user == old(store.user)
    {
      loading := true;
      error := "";
      if email == "" || password == "" {
        error := EmptyFieldsMessage;
        loading := false;
        return None, None;
      }
      var request, result := Login(store, email, password, reply);
      sent := Some(request);
      if result.LoggedIn? {
        navigate := Some("/dashboard");
      } else if email == DemoEmail && password == DemoPassword {
        store.SaveToken(DemoToken(encode, nowMs));
        store.SaveUser(DemoProfile);
        navigate := Some("/dashboard");
      } else {
        error := ShownError(result.error);
        navigate := None;
      }
      loading := false;
    }
  }

  /** The demo credentials on a failed login, then a session check at `nowMs`:
      the visitor counts as authenticated exactly until the token's `exp`. */
  method DemoSession(codec: PayloadCodec, issuedMs: int, nowMs: int, reply: Reply<LoginBody>)
    returns (authenticated: bool)
    requires Faithful(codec)
    requires LoginOutcome(reply).LoginFailed?
    ensures authenticated == (nowMs < DemoExpiry(issuedMs) * 1000)
  {
    var store := new TokenStore(true);
    var page := new LoginPage(store);
    page.email, page.password := DemoEmail, DemoPassword;
    var _, navigate := page.HandleSubmit(issuedMs, reply, codec.encode);
    assert store.token == Some(DemoToken(codec.encode, issuedMs));
    DemoTokenHonoured(codec, issuedMs, nowMs);
    authenticated := store.IsAuthenticated(nowMs, codec.decode);
  }
}
