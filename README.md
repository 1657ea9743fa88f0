# conmomet-app client core in Dafny

This project models the client-side logic of the Conmomet administration
front end, a Next.js application. It proves properties of that model. The
modelled parts are:

- **Session store and token validation** (`auth.dfy`, module `Auth`). The two
  `localStorage` entries `conmomet_token` and `conmomet_user` are the class
  `TokenStore`. Outside a browser every operation on it is a no-op.
  - `isAuthenticated` is written step by step, as the source does it, and is
    proved against the pure verdict `Assess`. `Assess` covers the `demo.`
    token shape, the three-piece JWT shape, `exp` checks against the clock,
    and clearing the store on an expired or unreadable token.
  - The authorization headers, the authenticated request pipeline (a 401
    clears the store and goes to `/login`), login with its error mapping and
    profile cleaning, and logout.
- **Resource services** (`api.dfy`, module `Api`). This covers
  `UserService`, `RoleService` and `PermissionService`.
  - List-envelope normalization: a bare list, `{data: [...]}` or
    `{<resource>: [...]}`.
  - The messages of the errors each call throws.
  - The requests each call sends.
- **Login page** (`login_page.dfy`, module `LoginPage`).
  - The redirect of an already authenticated visitor.
  - The submit sequence, including the client-side demo fallback. That
    fallback fabricates a `demo.` token. The token is proved to be accepted
    by the validator exactly until its `exp`, 24 hours after it is issued.
- **Create-user form** (`create_user_form.dfy`, module `CreateUser`).
  - The ordered validation chain, with the e-mail regular expression proved
    equal to a shape test.
  - The permission checkbox update.
  - The submit sequence: no request when invalid; reset after success.
- **Carousels** (`card_slider.dfy`, module `Cards`, and `image_slider.dfy`,
  module `Slides`). These are index state machines with wrap-around
  navigation, indicator jumps, the card window built by a loop, and the
  autoplay tick.
- **Dashboard badge** (`dashboard_layout.dfy`, module `Layout`). These are the
  initials, display-name and role-label fallback chains.

`js.dfy` (module `Js`) states the JavaScript behaviour the code depends on:
truthiness, `String()`, `trim`, `split` on one character, `toUpperCase`, and
a JSON value type. `http.dfy` (module `Http`) holds the request and reply
records.

Modelling conventions:

- **Time.** Time is an integer count of milliseconds, `nowMs`, passed in. The
  source compares `exp > Date.now() / 1000`; the model writes this as
  `exp * 1000 > nowMs`, which is the same comparison for integer `exp`.
- **Transport.** The reply a request receives is an input:
  - `Delivered(response)`, or `NetworkError(reason)` for a rejected fetch.
  - A response body is `Parsed(value)`, or `NotJson(syntaxError)` when
    `response.json()` rejects.
- **Token payload encoding.** `btoa(JSON.stringify(...))` and its inverse are
  the parameters `encode` and `decode`. Lemmas that need the round trip
  assume the predicate `Faithful`: decoding an encoding gives the claims
  back, and encodings contain no `.`, which is true of base64.
- **Error wording.** Messages the JavaScript engine produces are carried in
  the input (`reason`, `syntaxError`), apart from "Cannot read properties
  of ..." (`Http.PropertyReadError`), which uses V8's wording.
- **Navigation.** It is returned as a target path (`navigate`), not
  performed.

Behaviour worth knowing that the lemmas make explicit:

- The demo branch of `isAuthenticated` never clears an expired demo token
  (`Auth.DemoTokenJudgement`). The JWT branch clears an expired token
  (`Auth.StandardTokenJudgement`).
- In a three-piece token an `exp` of 0 counts as "no expiry"; a demo token
  with an `exp` of 0 is rejected (`Auth.StandardTokenJudgement`,
  `Auth.DemoTokenJudgement`).
- The JWT signature is never looked at (`Auth.SignatureIgnored`).
- A backend user without a last name is shown as "<name> undefined", because
  the login builds `fullName` with a template literal
  (`Layout.LoggedInWithoutLastname`).
- From every reachable carousel position, the card window never actually
  wraps round the end (`Cards.WindowIsRun`).

## Model

| member | source | states |
|---|---|---|
| Js.UpperChar | src/app/dashboard/layout.tsx:90 | `toUpperCase` of one character moves 'a' to 'z' down by 32 onto 'A' to 'Z' and the Latin-1 lower-case letters 'à' to 'þ' (except '÷') down by 32 onto 'À' to 'Þ'; maps 'ÿ' to 'Ÿ' and 'µ' to 'Μ'; leaves every other character alone |
| Js.NatToString | src/utils/api.ts:74 | the decimal rendering of a status code is a non-empty digit string without a leading zero that reads back as the same number |
| Js.TrimIsCore | src/utils/auth.ts:175 | `trim` keeps a contiguous slice bounded by non-whitespace and drops only whitespace on either side |
| Js.TrimEmptyIffBlank | src/app/dashboard/users/CreateUserForm.tsx:118-123 | `!s.trim()` holds exactly for strings made only of whitespace |
| Js.Split | src/utils/auth.ts:53-59 | `split('.')` yields at least one piece, no piece contains the separator, and joining the pieces with it gives the string back |
| Js.SplitWithoutSeparator | src/utils/auth.ts:59-60 | a string without the separator splits into itself alone |
| Js.SplitAtFirst | src/utils/auth.ts:53 | a separator-free head followed by the separator becomes the first piece, followed by the pieces of the rest |
| Js.UpperIdempotent | src/app/dashboard/layout.tsx:90 | upper-casing twice is upper-casing once; lower-case ASCII letters become upper-case ones; upper-case letters and digits are kept |
| Auth.DemoTokenPieces | src/utils/auth.ts:52-53 | a token starting with `demo.` has a second piece and its first piece is "demo" |
| Auth.Assess | src/utils/auth.ts:46-78 | the verdict of isAuthenticated; clearing the store always comes with rejection |
| Auth.TokenStore.SaveToken | src/utils/auth.ts:7-11 | in a browser the token entry becomes the token, outside one nothing changes; the user entry is untouched |
| Auth.TokenStore.GetToken | src/utils/auth.ts:14-19 | returns the stored token; outside a browser null |
| Auth.TokenStore.RemoveToken | src/utils/auth.ts:22-27 | afterwards both the token and the user entries are empty |
| Auth.TokenStore.SaveUser | src/utils/auth.ts:30-34 | in a browser the user entry becomes the profile; the token entry is untouched |
| Auth.TokenStore.GetUser | src/utils/auth.ts:37-43 | returns the stored profile; outside a browser null |
| Auth.TokenStore.IsAuthenticated | src/utils/auth.ts:46-78 | answers as Assess on the stored token, clears both entries exactly when Assess says so and otherwise changes nothing |
| Auth.TokenStore.AuthHeaders | src/utils/auth.ts:81-87 | always the JSON content type; an `Authorization: Bearer <token>` header exactly when a non-empty token is stored; no other header |
| Auth.TokenStore.AuthenticatedFetch | src/utils/auth.ts:90-110 | sends the request with the authorization headers under the caller's; a 401 clears both entries and navigates to /login in a browser; any other reply leaves the store alone |
| Auth.CleanUser | src/utils/auth.ts:167-176 | copies id, name, lastname and email; role and roleName are the backend role name or "Usuario"; permissions default to []; fullName is the trimmed `${name} ${lastname}` with a missing member written "undefined", so it has no surrounding whitespace |
| Auth.RejectionMessage | src/utils/auth.ts:136-156 | a 404 gives "Usuario no encontrado" and a 5xx "Error del servidor"; any other status gives the backend's truthy `error` member or "Error al iniciar sesión" |
| Auth.LoginOutcome | src/utils/auth.ts:118-190 | an ok, parsed reply with a non-empty token and a user logs in with that token and the cleaned profile, and a login comes from no other reply; ok without a user fails reading `id` of undefined; a network error or a non-JSON body fails with its own message |
| Auth.LoginFailureMessages | src/utils/auth.ts:136-164 | the failure message for a network error, for 401/other statuses (backend `error` or the default), 404, 5xx, and a reply without a token |
| Auth.Login | src/utils/auth.ts:118-182 | posts the credentials as JSON with only the content type; stores token and cleaned profile on success only |
| Auth.Logout | src/utils/auth.ts:192-197 | clears both entries and navigates to / in a browser |
| Auth.MissingTokenRejected | src/utils/auth.ts:47-48 | no token or an empty one: rejected, nothing cleared |
| Auth.DemoTokenJudgement | src/utils/auth.ts:52-56 | a demo token is accepted iff its payload decodes and its exp is after now; a decodable payload never clears the store, an undecodable one does |
| Auth.MalformedTokenKept | src/utils/auth.ts:59-60 | a non-demo token without exactly three pieces is rejected and kept |
| Auth.StandardTokenJudgement | src/utils/auth.ts:59-76 | a three-piece token is rejected and cleared when its payload does not decode or its truthy exp is before now, and accepted otherwise |
| Auth.ExpLessPayload | src/utils/auth.ts:52-72 | a payload without `exp` (one that parses to a number, string, boolean or list) makes a three-piece token accepted and a demo token rejected, and neither clears the store |
| Auth.AssessIdempotent | src/utils/auth.ts:46-78 | checking twice at the same instant gives the same answer and the second check clears nothing |
| Auth.AcceptanceIsMonotone | src/utils/auth.ts:54-55 | a token accepted at some instant is accepted at every earlier one |
| Auth.NotDemoShaped | src/utils/auth.ts:52 | a dot-free header other than "demo" never gives the demo shape |
| Auth.StandardTokenPieces | src/utils/auth.ts:59-60 | header.payload.signature without inner dots splits into exactly those three pieces |
| Auth.SignatureIgnored | src/utils/auth.ts:62-63 | two tokens differing only in the signature get the same verdict |
| Api.Envelope | src/utils/api.ts:81 | throws exactly on a null body, with the engine's "Cannot read properties of null (reading 'data')" error; a result is a list or a truthy member; a non-empty result of an object comes from its `data` or resource-named member |
| Api.EnvelopeShapesAgree | src/utils/api.ts:80-81 | a bare list, `{data: list}` and `{<resource>: list}` all give the list |
| Api.DataMemberWins | src/utils/api.ts:81 | a truthy `data` member is returned whatever the resource-named member holds |
| Api.UnknownEnvelopeIsEmpty | src/utils/api.ts:81 | an object with neither truthy member gives the empty list |
| Api.KeyMemberFallback | src/utils/api.ts:81 | without a truthy `data` member, a truthy resource-named member is the list, whatever else the object holds |
| Api.PrimitiveEnvelopeIsEmpty | src/utils/api.ts:81 | a number, string or boolean body gives the empty list |
| Api.ListOutcome | src/utils/api.ts:57-89 | getAll resolves only on an ok, parsed reply, to the normalized envelope (which throws on a `null` body); a non-ok reply throws ListFailure; a network error or a non-JSON body throws its own message |
| Api.ListFailure | src/utils/api.ts:74 | the list error message starts with "Error al obtener <resource>: " and ends with a space and the status text; what lies between is the decimal status (Api.FailedListCarriesStatus) |
| Api.FailedListCarriesStatus | src/utils/api.ts:71-75 | a non-ok list reply throws "Error al obtener <resource>: <status> <statusText>" with the status in decimal |
| Api.RejectionMessage | src/utils/api.ts:104-107 | a truthy `error` member is the message, through `String()` when it is not a string; a parsed body without a truthy `error` gives the fallback; a body that is not JSON gives the SyntaxError text of `response.json()`, and a `null` body the TypeError of reading `error` of null, since the code does not catch either |
| Api.MutationOutcome | src/utils/api.ts:99-121 | create/update resolve exactly on an ok, parsed reply, to the parsed body; a non-ok reply throws the rejection message; a network error or a non-JSON body throws its own message |
| Api.CommandOutcome | src/utils/api.ts:123-131 | delete/assign resolve exactly on an ok reply; a non-ok reply throws the rejection message; a network error throws its own message |
| Api.LookupOutcome | src/utils/api.ts:91-97 | getById resolves on an ok, parsed reply to the parsed body, throws the fixed message on any non-ok reply, and throws the engine's message on a network error or a non-JSON body |
| Api.AssignmentBody | src/utils/api.ts:218-221 | the assignment body has exactly the members user_id and permission_ids |
| Api.AssignmentBodyRoundTrip | src/utils/api.ts:218-221 | the body carries the user id and the permission ids unchanged and in order |
| Api.CreateRejectionUsesBackendMessage | src/utils/api.ts:104-107 | a 400 reply `{"error": "email taken"}` to create throws "email taken" |
| Api.GetAll | src/utils/api.ts:57-89 | GET /<resource> with the authorization headers; outcome as ListOutcome; a 401 clears the store and, in a browser, navigates to /login; any other reply leaves the store alone and navigates nowhere |
| Api.GetById | src/utils/api.ts:91-97 | GET /<resource>/<id> with the authorization headers; outcome as LookupOutcome; a 401 clears the store and, in a browser, navigates to /login; any other reply leaves the store alone and navigates nowhere |
| Api.CreateUser | src/utils/api.ts:99-109 | POST /auth/register with the data; outcome as MutationOutcome; a 401 clears the store and, in a browser, navigates to /login; any other reply leaves the store alone and navigates nowhere |
| Api.UpdateUser | src/utils/api.ts:111-121 | PUT /users/<id> with the data; outcome as MutationOutcome; a 401 clears the store and, in a browser, navigates to /login; any other reply leaves the store alone and navigates nowhere |
| Api.DeleteUser | src/utils/api.ts:123-131 | DELETE /users/<id>; outcome as CommandOutcome; a 401 clears the store and, in a browser, navigates to /login; any other reply leaves the store alone and navigates nowhere |
| Api.AssignToUser | src/utils/api.ts:215-227 | POST /permissions_assign with the assignment body; outcome as CommandOutcome; a 401 clears the store and, in a browser, navigates to /login; any other reply leaves the store alone and navigates nowhere |
| LoginPage.ShownError | src/app/login/page.tsx:83 | the page shows the login error when it is non-empty, and the demo-credentials hint exactly when it is empty; never an empty message |
| LoginPage.DemoExpiry | src/app/login/page.tsx:64 | the demo `exp`, in seconds, is 24 hours after the issue instant less under one second: more than 86399 s and at most 86400 s later |
| LoginPage.DemoToken | src/app/login/page.tsx:63-73 | the demo token is `demo.`, the encoded claims, then `.demo` |
| LoginPage.DemoTokenHonoured | src/app/login/page.tsx:63-73 | the fabricated demo token is accepted exactly until its exp and checking it never clears the store |
| LoginPage.DemoTokenLifetime | src/app/login/page.tsx:64 | the demo token is accepted for the first 86399 seconds and rejected from 24 hours after it is issued |
| LoginPage.LoginPage.OnMount | src/app/login/page.tsx:30-34 | an authenticated visitor is sent to /dashboard; the check clears the store exactly when Assess says it purges and otherwise leaves it alone |
| LoginPage.LoginPage.HandleSubmit | src/app/login/page.tsx:44-88 | empty field: message, no request, store untouched; otherwise POSTs the credentials as JSON to /auth/login with only the Content-Type header; real login: /dashboard; demo credentials after a failed login: demo token and profile stored, /dashboard; otherwise the shown error and store untouched; loading ends false |
| LoginPage.DemoSession | src/app/login/page.tsx:61-81 | after a failed login with the demo credentials, the session check succeeds exactly until the demo token's exp |
| CreateUser.EmailShapeIsPattern | src/app/dashboard/users/CreateUserForm.tsx:126-129 | the e-mail regular expression accepts exactly the strings with no whitespace, exactly one '@', a non-empty local part, and a '.' inside the domain that is neither its first nor its last character |
| CreateUser.EmailShapedMatches | src/app/dashboard/users/CreateUserForm.tsx:126 | every string of that shape matches the regular expression |
| CreateUser.PatternIsShaped | src/app/dashboard/users/CreateUserForm.tsx:126 | every string the regular expression matches has that shape |
| CreateUser.FirstFailureIsFirst | src/app/dashboard/users/CreateUserForm.tsx:117-142 | the search reports nothing exactly when every check passes, and otherwise the message of a failing check whose predecessors all pass |
| CreateUser.ValidationFollowsChecks | src/app/dashboard/users/CreateUserForm.tsx:117-142 | validateForm returns the message of the first failing check in the order name, lastname, email, password, role, CUIT, e-mail shape, CUIT digits, password length, and null iff every check passes |
| CreateUser.PasswordLengthCountsWhitespace | src/app/dashboard/users/CreateUserForm.tsx:121-139 | a short non-blank password is rejected for length, while one padded to six characters with spaces passes |
| CreateUser.ValidateForm | src/app/dashboard/users/CreateUserForm.tsx:117-142 | null exactly when every field check passes (names, e-mail, password and CUIT not blank, a role chosen, the e-mail shape, a numeric CUIT, six characters of password); otherwise one of the nine messages |
| CreateUser.Without | src/app/dashboard/users/CreateUserForm.tsx:107 | the filter removes every occurrence of the id and keeps every other element with its multiplicity |
| CreateUser.WithoutDistributes | src/app/dashboard/users/CreateUserForm.tsx:107 | the filter works piecewise, so it keeps the order of what it keeps |
| CreateUser.Toggled | src/app/dashboard/users/CreateUserForm.tsx:103-114 | checking appends the id at the end (duplicates allowed); unchecking removes every copy |
| CreateUser.CheckThenUncheck | src/app/dashboard/users/CreateUserForm.tsx:103-114 | checking then unchecking an id the list lacked restores the list |
| CreateUser.FormJson | src/app/dashboard/users/CreateUserForm.tsx:159 | the request body has exactly the nine CreateUserData members, with the role id and the permission ids as numbers |
| CreateUser.FormJsonRoundTrip | src/app/dashboard/users/CreateUserForm.tsx:159 | reading the request body back gives every field of the form unchanged, the permission ids in order |
| CreateUser.CreateUserForm.TogglePermission | src/app/dashboard/users/CreateUserForm.tsx:103-114 | only the permission list of the form changes |
| CreateUser.CreateUserForm.Send | src/app/dashboard/users/CreateUserForm.tsx:154-184 | the form is posted to /auth/register as it stands with the current auth headers; success clears the form, shows "Usuario creado exitosamente" and schedules the callback; failure shows the thrown message and keeps the form; a 401 clears the store and navigates to /login in a browser, any other reply leaves the store alone; loading is off afterwards either way |
| CreateUser.CreateUserForm.HandleSubmit | src/app/dashboard/users/CreateUserForm.tsx:145-185 | an invalid form shows its message and sends nothing; a valid one is posted as it stands; success resets the form to its initial state and shows the success message; failure shows the thrown message and keeps the form; the store and navigation after a 401 are as Send gives them |
| Cards.MaxIndex | src/components/CardSlider.tsx:20 | the last start position is max(0, cards - visibleCards) |
| Cards.Next | src/components/CardSlider.tsx:26-28 | maxIndex wraps to 0, any other position advances by one; positions stay in 0..maxIndex |
| Cards.Previous | src/components/CardSlider.tsx:22-24 | 0 wraps to maxIndex, any other position goes back by one; positions stay in 0..maxIndex |
| Cards.NextPreviousInverse | src/components/CardSlider.tsx:22-28 | next then previous, and previous then next, restore the position |
| Cards.ReplayStaysInRange | src/components/CardSlider.tsx:18-28 | any sequence of arrow and dot presses keeps the position in 0..maxIndex |
| Cards.VisibleCount | src/components/CardSlider.tsx:32 | the loop takes visibleCards cards, no more than there are, and none when visibleCards is not positive |
| Cards.Window | src/components/CardSlider.tsx:30-37 | the window has VisibleCount entries, each a card tagged with its own index; it starts at current mod the card count and each entry is the one after the previous, round the end |
| Cards.WindowIsRun | src/components/CardSlider.tsx:30-37 | from any reachable position the window is the run of cards from that position on, without wrapping |
| Cards.CardSlider.GoToPrevious | src/components/CardSlider.tsx:22-24 | moves as Previous and keeps the position in range |
| Cards.CardSlider.GoToNext | src/components/CardSlider.tsx:26-28 | moves as Next and keeps the position in range |
| Cards.CardSlider.SelectIndicator | src/components/CardSlider.tsx:147-150 | a dot click sets the position to that dot's index |
| Cards.CardSlider.GetVisibleCards | src/components/CardSlider.tsx:30-37 | returns min(visibleCards, cards) entries; entry i is the card at (currentIndex + i) mod cards, tagged with that index |
| Cards.CardSlider.Render | src/components/CardSlider.tsx:39-150 | nothing is drawn for no cards; arrows and dots appear iff there are more cards than fit; one dot per start position, exactly the current one highlighted |
| Slides.Successor | src/components/ImageSlider.tsx:38-40 | the last image wraps to 0, any other advances by one; indices stay in range |
| Slides.Predecessor | src/components/ImageSlider.tsx:34-36 | 0 wraps to the last image, any other goes back by one; indices stay in range |
| Slides.SuccessorPredecessorInverse | src/components/ImageSlider.tsx:34-40 | next then previous, and previous then next, restore the index |
| Slides.Ticks | src/components/ImageSlider.tsx:25-29 | any number of autoplay ticks from an image in range stays in range |
| Slides.RemainderStep | src/components/ImageSlider.tsx:26-28 | one more tick moves n mod count one place round the circle |
| Slides.TicksFromStart | src/components/ImageSlider.tsx:25-29 | n ticks from the first image land on image n mod count |
| Slides.ImageSlider.GoToPrevious | src/components/ImageSlider.tsx:34-36 | moves as Predecessor and keeps the index in range |
| Slides.ImageSlider.GoToNext | src/components/ImageSlider.tsx:38-40 | moves as Successor and keeps the index in range |
| Slides.ImageSlider.Tick | src/components/ImageSlider.tsx:22-32 | the autoplay tick, only with autoplay on, makes the same move as goToNext |
| Slides.ImageSlider.GoToSlide | src/components/ImageSlider.tsx:42-44 | sets the index to exactly k and changes nothing else |
| Slides.ImageSlider.Render | src/components/ImageSlider.tsx:46-149 | nothing is drawn for no images; otherwise the current image, the caption currentIndex + 1 (so between 1 and the image count), one dot per image with exactly the current one highlighted |
| Slides.Autoplay | src/components/ImageSlider.tsx:25-29 | a carousel left to autoplay for n ticks shows image n mod count |
| Layout.FirstChar | src/app/dashboard/layout.tsx:90 | the optional first character is empty exactly when the string is missing or empty, and otherwise is its first character |
| Layout.Initials | src/app/dashboard/layout.tsx:88-92 | the initials are never empty |
| Layout.InitialsComeFromName | src/app/dashboard/layout.tsx:89-91 | "U" without a name; otherwise the upper-cased first letters of name and, if present, last name, so the e-mail fallback is never reached |
| Layout.DisplayName | src/app/dashboard/layout.tsx:95-101 | never empty; fullName when filled; otherwise "name lastname" when both are filled; otherwise name; otherwise e-mail; otherwise "Usuario" |
| Layout.RoleLabel | src/app/dashboard/layout.tsx:103-105 | never empty; roleName when filled; otherwise role when filled; otherwise "Usuario" |
| Layout.LoggedInRoleLabel | src/app/dashboard/layout.tsx:104 | for a profile stored by login the label is the backend role name or "Usuario" |
| Layout.LoggedInWithoutLastname | src/app/dashboard/layout.tsx:96 | a backend user whose name starts with a non-space and who has no last name is shown as "<name> undefined": login stores the trimmed template literal (src/utils/auth.ts:175) as fullName, which the display name prefers |
| Layout.DemoBadge | src/app/dashboard/layout.tsx:88-105 | the demo administrator shows as "Admin Usuario", initial "A", role "admin" |

## Left out

- Browser plumbing is not modelled: `fetch`, `localStorage` persistence, `window.location` and `router.push`. Navigation is a returned path.
- Logging with `console.log`/`console.error` is not modelled.
- The base URL and its environment variable are not modelled; request paths are relative.
- `btoa`/`atob` and `JSON.stringify`/`JSON.parse` of token payloads are the parameters `encode`/`decode`. They are not written out.
- Auth.Faithful: it asks for the round trip on every claim, while the real `btoa` throws on characters above U+00FF; the lemmas that assume it only encode the ASCII demo claims, and an encoding that throws is not modelled.
- `getUser` parsing a corrupt user entry (`JSON.parse` throwing) is not modelled; the entry holds a profile or nothing.
- JSON numbers are integers. Fractional numbers and `NaN` are not modelled.
- Auth.LoginOutcome: the login reply body is typed. A `null` body, or members of unexpected JSON types (a non-string token, a non-object role), are not modelled. A non-string `error` member is handled through `String()`.
- Auth.Assess: a decoded payload is `Claims` with an integer or absent `exp`; an `exp` of another JSON type is not modelled. A payload that parses to `null` is a decode failure, because reading `exp` of null throws into the `catch`. A payload that parses to a number, string, boolean or list decodes to claims without `exp` (`Auth.ExpLessPayload`).
- Lengths and first characters count Unicode code points, whereas JavaScript counts UTF-16 code units. They differ only outside the Basic Multilingual Plane.
- Js.UpperChar / Js.Upper: case mapping covers the characters of Basic Latin and Latin-1 (including "µ" to "Μ"); characters beyond Latin-1 are left unchanged, and multi-character expansions such as "ß" to "SS" are not modelled.
- Timers are not modelled: the `setInterval` of the image carousel, the `setTimeout` before the create form's success callback, and `clearInterval`. Only the tick's index update and whether the callback is scheduled are kept.
- The create form's data loading is not modelled: `Promise.all` over roles and permissions, and its spinner.
- Field editing handlers are not modelled: `handleChange` on the login page, and `handleInputChange`/`handleRoleChange` on the create form.
- CreateUser.ValidateForm tests `!x.trim()` as `AllSpace(x)`. `Js.TrimEmptyIffBlank` proves the two are the same test.
- CreateUser.ValidateForm: `role_id` is an integer. A string value coming from the select element is not modelled.
- The following are not part of this model: `src/app/page.tsx`, `src/app/dashboard/page.tsx`, `src/app/dashboard/users/page.tsx`, `src/components/ProtectedRoute.tsx` and `debug-api.js`. They hold presentation, list dialogs and a debugging script. ProtectedRoute's redirect decision is `isAuthenticated`, which is modelled.
- The `useAuth` snapshot of `isAuthenticated`/`user` taken at render time is not modelled separately. Taking it is a call of `TokenStore.IsAuthenticated`, which also clears a token it judges expired or unreadable, followed by `getUser` on the resulting store.
- Carousel props that change while mounted are not modelled; `cards`, `images`, `visibleCards` and `autoPlay` are constants of each instance. `visibleCards` is an integer.
- Styling and layout are not modelled: drawer, menus and the media query.
