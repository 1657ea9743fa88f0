/** The session guard of src/utils/auth.ts: the two-entry token store
    (TokenManager), the expiry check that purges it, the headers and the 401
    handling of authenticated requests, and the login and logout steps of
    the useAuth hook. */
module Auth {
  import opened Js
  import opened Http

  /** The stored user profile. Every member is optional because the login flow
      and the demo fallback store different shapes. */
  datatype Profile = Profile(
    id: Option<int>,
    name: Option<string>,
    lastname: Option<string>,
    email: Option<string>,
    role: Option<string>,
    roleName: Option<string>,
    permissions: Option<seq<Json>>,
    fullName: Option<string>)

  /** The members of a token payload that the client reads: `exp` in Unix
      seconds (section 4.1.4 of RFC 7519) and the embedded demo user. */
  datatype Claims = Claims(exp: Option<int>, user: Option<Profile>)

  /** `btoa(JSON.stringify(.))` and `JSON.parse(atob(.))` on token payloads, left
      abstract; `decode` answers None where atob or JSON.parse would throw. */
  datatype PayloadCodec = PayloadCodec(encode: Claims -> string, decode: string -> Option<Claims>)

  /** What the real encoders guarantee: decoding undoes encoding, and base64
      output never contains a dot. */
  ghost predicate Faithful(codec: PayloadCodec) {
    forall c :: codec.decode(codec.encode(c)) == Some(c) && '.' !in codec.encode(c)
  }

  /** The answer of isAuthenticated and whether it clears the store on the way. */
  datatype Verdict = Verdict(authenticated: bool, purges: bool)

  const DemoPrefix := "demo."

  /** A demo token's first dot-separated piece is "demo", so it has a second piece. */
  lemma DemoTokenPieces(token: string)
    requires StartsWith(token, DemoPrefix)
    ensures |Split(token, '.')| >= 2 && Split(token, '.')[0] == "demo"
  {
    assert token == "demo" + ['.'] + token[5..];
    SplitAtFirst("demo", '.', token[5..]);
  }

  /** isAuthenticated on the stored token at time `nowMs` (milliseconds since the
      epoch): the demo shape is judged on its second piece alone; any other token
      needs the three pieces of the JWS compact serialization (section 7.1 of
      RFC 7515), whose signature is never checked. `exp > now / 1000` is
      written `exp * 1000 > nowMs`. */
  function Assess(token: Option<string>, nowMs: int, decode: string -> Option<Claims>): (v: Verdict)
    ensures v.purges ==> !v.authenticated
  {
    if token.None? || token.value == "" then Verdict(false, false)
    else if StartsWith(token.value, DemoPrefix) then
      DemoTokenPieces(token.value);
      match decode(Split(token.value, '.')[1])
      case None => Verdict(false, true)
      case Some(c) => Verdict(c.exp.Some? && c.exp.value * 1000 > nowMs, false)
    else
      var parts := Split(token.value, '.');
      if |parts| != 3 then Verdict(false, false)
      else
        match decode(parts[1])
        case None => Verdict(false, true)
        case Some(c) =>
          if c.exp.Some? && c.exp.value != 0 && c.exp.value * 1000 < nowMs then Verdict(false, true)
          else Verdict(true, false)
  }

  /** The two `localStorage` entries the client owns: `conmomet_token` and
      `conmomet_user`. Outside a browser (`window` undefined) every operation is
      a no-op, so both entries stay empty. */
  class TokenStore {
    const browser: bool
    var token: Option<string>
    var user: Option<Profile>

    ghost predicate Valid()
      reads this
    {
      !browser ==> token.None? && user.None?
    }

    constructor (browser: bool)
      ensures Valid() && this.browser == browser
      ensures token.None? && user.None?
    {
      this.browser := browser;
      token := None;
      user := None;
    }

    method SaveToken(t: string)
      requires Valid()
      modifies this
      ensures Valid()
      ensures token == (if browser then Some(t) else None)
      ensures user == old(user)
    {
      if browser {
        token := Some(t);
      }
    }

    method GetToken() returns (t: Option<string>)
      requires Valid()
      ensures t == token
      ensures !browser ==> t.None?
    {
      if browser {
        t := token;
      } else {
        t := None;
      }
    }

    /** Clears both entries. */
    method RemoveToken()
      requires Valid()
      modifies this
      ensures Valid()
      ensures token.None? && user.None?
    {
      if browser {
        token := None;
        user := None;
      }
    }

    method SaveUser(p: Profile)
      requires Valid()
      modifies this
      ensures Valid()
      ensures user == (if browser then Some(p) else None)
      ensures token == old(token)
    {
      if browser {
        user := Some(p);
      }
    }

    method GetUser() returns (p: Option<Profile>)
      requires Valid()
      ensures p == user
      ensures !browser ==> p.None?
    {
      if browser {
        p := user;
      } else {
        p := None;
      }
    }

    /** isAuthenticated: answers as Assess does and clears the store exactly
        when Assess says it purges. */
    method IsAuthenticated(nowMs: int, decode: string -> Option<Claims>) returns (ok: bool)
      requires Valid()
      modifies this
      ensures Valid()
      ensures ok == Assess(old(token), nowMs, decode).authenticated
      ensures if Assess(old(token), nowMs, decode).purges then token.None? && user.None?
              else token == old(token) && user == old(user)
    {
      var stored := GetToken();
      if stored.None? || stored.value == "" {
        return false;
      }
      var t := stored.value;
      if StartsWith(t, DemoPrefix) {
        DemoTokenPieces(t);
        var payload := decode(Split(t, '.')[1]);
        if payload.None? {
          RemoveToken();
          return false;
        }
        return payload.value.exp.Some? && payload.value.exp.value * 1000 > nowMs;
      }
      var parts := Split(t, '.');
      if |parts| != 3 {
        return false;
      }
      var payload := decode(parts[1]);
      if payload.None? {
        RemoveToken();
        return false;
      }
      var exp := payload.value.exp;
      if exp.Some? && exp.value != 0 && exp.value * 1000 < nowMs {
        RemoveToken();
        return false;
      }
      return true;
    }

    /** getAuthHeaders: always the JSON content type; a bearer authorization
        exactly when a non-empty token is stored, valid or not. */
    function AuthHeaders(): (h: map<string, string>)
      reads this
      requires Valid()
      ensures "Content-Type" in h && h["Content-Type"] == "application/json"
      ensures "Authorization" in h <==> token.Some? && token.value != ""
      ensures "Authorization" in h ==> h["Authorization"] == "Bearer " + token.value
      ensures h.Keys <= {"Content-Type", "Authorization"}
    {
      var base := map["Content-Type" := "application/json"];
      if token.Some? && token.value != "" then base["Authorization" := "Bearer " + token.value]
      else base
    }

    /** authenticatedFetch: sends the request with the authorization headers
        under the caller's own (which win on a clash); a 401 reply clears the
        store and, in a browser, navigates to /login. The reply itself is handed
        back to the caller unchanged. */
    method AuthenticatedFetch<B>(request: Request, reply: Reply<B>) returns (sent: Request, navigate: Option<string>)
      requires Valid()
      modifies this
      ensures Valid()
      ensures sent == request.(headers := old(AuthHeaders()) + request.headers)
      ensures if Unauthorized(reply)
              then token.None? && user.None? && navigate == (if browser then Some("/login") else None)
              else token == old(token) && user == old(user) && navigate.None?
    {
      sent := request.(headers := AuthHeaders() + request.headers);
      navigate := None;
      if Unauthorized(reply) {
        RemoveToken();
        if browser {
          navigate := Some("/login");
        }
      }
    }
  }

  // ------------------------------------------------------------------ login

  datatype BackendRole = BackendRole(name: Option<string>, permissions: Option<seq<Json>>)

  /** The `user` member of a login reply; a missing or null `role` is None. */
  datatype BackendUser = BackendUser(
    id: Option<int>,
    name: Option<string>,
    lastname: Option<string>,
    email: Option<string>,
    role: Option<BackendRole>)

  /** A login reply body as the code reads it; members absent from the JSON are None. */
  datatype LoginBody = LoginBody(error: Option<Json>, token: Option<string>, user: Option<BackendUser>)

  /** What `login` resolves to: `{success: true, data}` or `{success: false, error}`. */
  datatype LoginResult = LoggedIn(token: string, user: Profile) | LoginFailed(error: string)

  const DefaultRole := "Usuario"
  const LoginFallback := "Error al iniciar sesión"
  const NotFoundMessage := "Usuario no encontrado"
  const ServerErrorMessage := "Error del servidor"
  const InvalidReplyMessage := "Respuesta del servidor inválida"

  /** A template literal's rendering of a possibly undefined string. */
  function TemplateText(s: Option<string>): string
  {
    if s.None? then "undefined" else s.value
  }

  /** The cleaned profile the login flow stores: identity members copied, role
      name defaulting to "Usuario", permissions to [], and fullName the trimmed
      "name lastname". */
  function CleanUser(u: BackendUser): (p: Profile)
    ensures p.id == u.id && p.name == u.name && p.lastname == u.lastname && p.email == u.email
    ensures p.role == p.roleName && Filled(p.roleName)
    ensures p.roleName == (if u.role.Some? && Filled(u.role.value.name) then u.role.value.name else Some(DefaultRole))
    ensures p.permissions == (if u.role.Some? && u.role.value.permissions.Some? then u.role.value.permissions else Some([]))
    ensures p.fullName == Some(Trim(TemplateText(u.name) + " " + TemplateText(u.lastname)))
    ensures var f := p.fullName.value; f != "" ==> !IsSpace(f[0]) && !IsSpace(f[|f| - 1])
  {
    var roleName := if u.role.Some? && Filled(u.role.value.name) then u.role.value.name.value else DefaultRole;
    var permissions := if u.role.Some? && u.role.value.permissions.Some? then u.role.value.permissions.value else [];
    var joined := TemplateText(u.name) + " " + TemplateText(u.lastname);
    TrimIsCore(joined);
    Profile(u.id, u.name, u.lastname, u.email, Some(roleName), Some(roleName), Some(permissions), Some(Trim(joined)))
  }

  /** The message a non-ok login reply fails with. */
  function RejectionMessage(r: Response<LoginBody>): (m: string)
    ensures r.status == 404 ==> m == NotFoundMessage
    ensures r.status >= 500 ==> m == ServerErrorMessage
    ensures r.status != 404 && r.status < 500 ==>
      if r.body.Parsed? && r.body.value.error.Some? && Truthy(r.body.value.error.value)
      then m == Show(r.body.value.error.value)
      else m == LoginFallback
  {
    var message :=
      if r.body.Parsed? && r.body.value.error.Some? && Truthy(r.body.value.error.value)
      then Show(r.body.value.error.value)
      else LoginFallback;
    if r.status == 401 then message
    else if r.status == 404 then NotFoundMessage
    else if r.status >= 500 then ServerErrorMessage
    else message
  }

  /** The outcome of `login` for a given reply of POST /auth/login. */
  function LoginOutcome(reply: Reply<LoginBody>): (r: LoginResult)
    ensures r.LoggedIn? ==> reply.Delivered? && reply.response.Ok() && r.token != ""
    ensures r.LoggedIn? ==> reply.response.body.Parsed? && reply.response.body.value.user.Some?
                            && r.user == CleanUser(reply.response.body.value.user.value)
    ensures reply.Delivered? && reply.response.Ok() && reply.response.body.Parsed?
            && Filled(reply.response.body.value.token) && reply.response.body.value.user.Some? ==>
              r == LoggedIn(reply.response.body.value.token.value, CleanUser(reply.response.body.value.user.value))
    ensures reply.Delivered? && reply.response.Ok() && reply.response.body.Parsed?
            && Filled(reply.response.body.value.token) && reply.response.body.value.user.None? ==>
              r == LoginFailed(PropertyReadError("undefined", "id"))
    ensures reply.NetworkError? ==> r == LoginFailed(reply.reason)
    ensures reply.Delivered? && reply.response.Ok() && reply.response.body.NotJson? ==>
              r == LoginFailed(reply.response.body.syntaxError)
  {
    match reply
    case NetworkError(reason) => LoginFailed(reason)
    case Delivered(response) =>
      if !response.Ok() then LoginFailed(RejectionMessage(response))
      else
        match response.body
        case NotJson(reason) => LoginFailed(reason)
        case Parsed(b) =>
          if !Filled(b.token) then LoginFailed(InvalidReplyMessage)
          else if b.user.None? then LoginFailed(PropertyReadError("undefined", "id"))
          else LoggedIn(b.token.value, CleanUser(b.user.value))
  }

  /** The status-to-message mapping of a failed login. */
  lemma LoginFailureMessages(reply: Reply<LoginBody>)
    ensures reply.NetworkError? ==> LoginOutcome(reply) == LoginFailed(reply.reason)
    ensures reply.Delivered? && !reply.response.Ok() ==>
      var r := reply.response;
      var backend := if r.body.Parsed? && r.body.value.error.Some? && Truthy(r.body.value.error.value)
                     then Show(r.body.value.error.value) else LoginFallback;
      LoginOutcome(reply) == LoginFailed(
        if r.status == 404 then NotFoundMessage
        else if r.status >= 500 then ServerErrorMessage
        else backend)
    ensures reply.Delivered? && reply.response.Ok() && reply.response.body.Parsed?
            && !Filled(reply.response.body.value.token) ==>
      LoginOutcome(reply) == LoginFailed(InvalidReplyMessage)
  {
  }

  /** `login(email, password)`: posts the credentials without authorization and,
      on success only, stores the token and the cleaned profile. */
  method Login(store: TokenStore, email: string, password: string, reply: Reply<LoginBody>)
    returns (sent: Request, result: LoginResult)
    requires store.Valid()
    modifies store
    ensures store.Valid()
    ensures sent == Request("POST", "/auth/login", map["Content-Type" := "application/json"],
                            Some(Obj(map["email" := Str(email), "password" := Str(password)])))
    ensures result == LoginOutcome(reply)
    ensures result.LoggedIn? ==>
      store.token == (if store.browser then Some(result.token) else None) &&
      store.user == (if store.browser then Some(result.user) else None)
    ensures result.LoginFailed? ==> store.token == old(store.token) && store.user == old(store.user)
  {
    sent := Request("POST", "/auth/login", map["Content-Type" := "application/json"],
                    Some(Obj(map["email" := Str(email), "password" := Str(password)])));
    result := LoginOutcome(reply);
    if result.LoggedIn? {
      store.SaveToken(result.token);
      store.SaveUser(result.user);
    }
  }

  /** `logout`: clears the store and, in a browser, navigates to the home page. */
  method Logout(store: TokenStore) returns (navigate: Option<string>)
    requires store.Valid()
    modifies store
    ensures store.Valid()
    ensures store.token.None? && store.user.None?
    ensures navigate == (if store.browser then Some("/") else None)
  {
    store.RemoveToken();
    navigate := if store.browser then Some("/") else None;
  }

  // ------------------------------------------------------------------ properties of Assess

  /** No token, or an empty one: not authenticated, and nothing is cleared. */
  lemma MissingTokenRejected(token: Option<string>, nowMs: int, decode: string -> Option<Claims>)
    requires token.None? || token.value == ""
    ensures Assess(token, nowMs, decode) == Verdict(false, false)
  {
  }

  /** A demo token is judged on its second piece: a decodable payload gives
      `exp > now` and never clears the store, even once expired; an
      undecodable one clears it. */
  lemma DemoTokenJudgement(token: string, nowMs: int, decode: string -> Option<Claims>)
    requires StartsWith(token, DemoPrefix)
    ensures |Split(token, '.')| >= 2
    ensures var p := decode(Split(token, '.')[1]);
      Assess(Some(token), nowMs, decode) ==
        if p.None? then Verdict(false, true)
        else Verdict(p.value.exp.Some? && p.value.exp.value * 1000 > nowMs, false)
  {
    DemoTokenPieces(token);
  }

  /** A non-demo token that does not split into exactly three pieces is rejected
      and left in place. */
  lemma MalformedTokenKept(token: string, nowMs: int, decode: string -> Option<Claims>)
    requires token != "" && !StartsWith(token, DemoPrefix)
    requires |Split(token, '.')| != 3
    ensures Assess(Some(token), nowMs, decode) == Verdict(false, false)
  {
  }

  /** For a three-piece token with a decodable payload: a truthy `exp` in the
      past clears the store and rejects; `exp` equal to now, in the future,
      absent or 0 is accepted with the store untouched. An undecodable payload
      clears the store. */
  lemma StandardTokenJudgement(token: string, nowMs: int, decode: string -> Option<Claims>)
    requires token != "" && !StartsWith(token, DemoPrefix)
    requires |Split(token, '.')| == 3
    ensures var p := decode(Split(token, '.')[1]);
      Assess(Some(token), nowMs, decode) ==
        if p.None? then Verdict(false, true)
        else if p.value.exp.Some? && p.value.exp.value != 0 && p.value.exp.value * 1000 < nowMs
        then Verdict(false, true)
        else Verdict(true, false)
  {
  }

  /** A payload that parses to a value other than an object or null (a
      number, a string, a boolean, a list) has no `exp`: a three-piece token
      carrying it is accepted, a demo token carrying it is rejected, and
      neither clears the store. */
  lemma ExpLessPayload(token: string, nowMs: int, decode: string -> Option<Claims>)
    requires token != "" && |Split(token, '.')| >= 2
    requires decode(Split(token, '.')[1]).Some? && decode(Split(token, '.')[1]).value.exp.None?
    ensures StartsWith(token, DemoPrefix) ==> Assess(Some(token), nowMs, decode) == Verdict(false, false)
    ensures !StartsWith(token, DemoPrefix) && |Split(token, '.')| == 3 ==>
              Assess(Some(token), nowMs, decode) == Verdict(true, false)
  {
  }

  /** A second check right after the first, at the same instant, gives the same
      answer and clears nothing more. */
  lemma AssessIdempotent(token: Option<string>, nowMs: int, decode: string -> Option<Claims>)
    ensures var first := Assess(token, nowMs, decode);
      var after := if first.purges then None else token;
      Assess(after, nowMs, decode) == Verdict(first.authenticated, false)
  {
  }

  /** Expiry is final: a token accepted at some instant was accepted at every
      earlier instant. */
  lemma AcceptanceIsMonotone(token: Option<string>, earlier: int, later: int, decode: string -> Option<Claims>)
    requires earlier <= later
    requires Assess(token, later, decode).authenticated
    ensures Assess(token, earlier, decode).authenticated
  {
  }

  /** The header starts the token, so a header without dots other than "demo"
      never gives the demo shape. */
  lemma NotDemoShaped(header: string, rest: string)
    requires '.' !in header && header != "demo"
    ensures !StartsWith(header + "." + rest, DemoPrefix)
  {
    var t := header + "." + rest;
    if |t| >= 5 {
      var head := t[..5];
      if |header| < 4 {
        assert head[|header|] == '.' != DemoPrefix[|header|];
      } else if |header| == 4 {
        assert head[..4] == header != DemoPrefix[..4];
      } else {
        assert head[4] == header[4] != DemoPrefix[4];
      }
    }
  }

  /** A header, a payload and a signature without dots make a standard token of
      exactly those three pieces. */
  lemma StandardTokenPieces(header: string, payload: string, sig: string)
    requires '.' !in header && '.' !in payload && '.' !in sig
    requires header != "demo"
    ensures var t := header + "." + payload + "." + sig;
      t != "" && !StartsWith(t, DemoPrefix) && Split(t, '.') == [header, payload, sig]
  {
    var t := header + "." + payload + "." + sig;
    assert t == header + ['.'] + (payload + ['.'] + sig);
    SplitAtFirst(header, '.', payload + ['.'] + sig);
    SplitAtFirst(payload, '.', sig);
    SplitWithoutSeparator(sig, '.');
    NotDemoShaped(header, payload + "." + sig);
  }

  /** The signature is never verified: two standard tokens that differ only in
      their third piece get the same verdict. */
  lemma SignatureIgnored(header: string, payload: string, sig1: string, sig2: string,
                         nowMs: int, decode: string -> Option<Claims>)
    requires '.' !in header && '.' !in payload && '.' !in sig1 && '.' !in sig2
    requires header != "demo"
    ensures Assess(Some(header + "." + payload + "." + sig1), nowMs, decode)
         == Assess(Some(header + "." + payload + "." + sig2), nowMs, decode)
  {
    StandardTokenPieces(header, payload, sig1);
    StandardTokenPieces(header, payload, sig2);
  }
}
