# Catraca IoT console: the decision logic of the web front end

This project models the web console of a turnstile ("catraca") access-control system in Dafny.
Operators sign in, manage their locations (locais) and the gates (catracas) installed at each
location, and watch a location's occupancy.

Nearly all of the console is view markup and HTTP calls that pass data straight through. The
logic that makes decisions is modelled here as pure functions:

- **Session and routing.** The `AuthProvider` state machine over `(user, loading)` is
  `AuthContext`. The guarded route table is `Router`. The older token-based router of the
  `frontend/` tree is `LegacyApp`.
- **Token store.** The single-key token store and `verifyToken` are `AuthService`.
- **Input checks.** The registration checks of the older front end are `LegacyRegister`. The
  login page's field and token checks are `LoginPage`.
- **Page handlers.** Each page handler is one pure function from the page state, the stored
  token (where the page reads one) and the outcome of each request to a `Ui.Reaction`. A reaction holds:
  - the requests sent, in order;
  - the state shown while the first request is pending;
  - the state after `finally`;
  - the UI effects: sign-out, sign-in, navigation, "back" and toasts.

  The pages are `LoginPage`, `RegisterPage`, `LocaleList`, `LocaleCreate`, `LocaleDetails`,
  `LocaleEdit`, `GateCreate`, `GateEdit`, `GateList` and `GateDetails`.
- **Occupancy bar.** The bar of the location details page is `CapacityBar`. Its colour and width
  come from the `current_people / max_people` snapshot. Nothing in the console derives occupancy
  from movement history.

`Http.Outcome` is how a handler's `try`/`catch` sees a request: `Ok(body)`, an HTTP error with
status and optional message, a request that got no response, or anything else that was thrown.
`Http.Classify` sorts the four into the classes the create and edit forms distinguish; other
pages merge some of them (the location edit page treats every failure alike, and the location
list tells only a 401 from the rest). A 401 is the only
signal that the credential expired. The JavaScript semantics the handlers depend on are written
out in `Js`:
- truthiness of `""` and `null`;
- `a || b`;
- template interpolation of `null`;
- `parseInt` with its leading white space, sign, hexadecimal prefix and longest digit run;
- the decimal text of an integer.

## Model

| member | source | states |
|---|---|---|
| Js.ParseIntText | src/pages/locales/LocaleEdit.jsx:75 | `parseInt` of the decimal text of any integer (as a capacity is shown in the form) gives back that integer |
| Http.Classify | src/pages/locales/LocaleCreate.jsx:46-56 | every outcome falls in exactly one class: success, 401, other response, no response, anything else |
| Ui.CatchFourWay | src/pages/gates/GateCreate.jsx:55-65 | the forms' catch block: 401 expels; another response shows the server's message; no response shows the connection text; anything else is unexpected; the session ends exactly on a 401 |
| Entities.StatusLabel | src/pages/gates/GateList.jsx:129 | the badge is 'Ativado' exactly when the status is 'ativado', and 'Desativado' otherwise |
| AuthContext.Bootstrap | src/context/AuthContext.jsx:11-14 | the mount effect ends loading and never sets a user |
| AuthContext.Login | src/context/AuthContext.jsx:16-18 | `login(v)` sets the user to v and leaves loading alone |
| AuthContext.Logout | src/context/AuthContext.jsx:20-23 | `logout()` clears the user and leaves loading alone |
| AuthContext.BootstrapFromInitial | src/context/AuthContext.jsx:8-14 | the initial state is loading with no user, and after mount nobody is signed in |
| AuthContext.LoginKeepsLast | src/context/AuthContext.jsx:16-18 | two logins keep only the last value |
| AuthContext.LogoutIdempotent | src/context/AuthContext.jsx:20-23 | logging out twice is logging out once |
| AuthContext.BootstrapIdempotent | src/context/AuthContext.jsx:11-14 | running the mount effect again changes nothing |
| AuthContext.RunUser | src/context/AuthContext.jsx:8-23 | after any sequence of calls the user is the last login's value unless a logout follows it, null after a final logout, and unchanged when neither occurs |
| AuthContext.RunLoading | src/context/AuthContext.jsx:8-23 | loading is false exactly once the mount effect has run; login and logout never change it |
| AuthService.GetToken | src/services/authService.js:19-21 | the stored string under 'token', or null when there is none |
| AuthService.SaveToken | src/services/authService.js:15-17 | after saving, the token reads back; no other key changes |
| AuthService.StoredText | src/services/authService.js:16 | `setItem` stores a string as is and any other value as its text, never empty; a missing value becomes "undefined" |
| AuthService.SaveValue | frontend/src/Pages/Login.jsx:12-13 | storing an unchecked reply field reads back as its text, and a non-string always reads back as a truthy token; no other key changes |
| AuthService.RemoveToken | src/services/authService.js:23-25 | after removal the token reads null; no other key changes |
| AuthService.SaveOverwrites | src/services/authService.js:15-17 | a later save replaces an earlier one entirely |
| AuthService.RemoveUndoesSave | src/services/authService.js:15-25 | removing after a save leaves storage as removing alone would |
| AuthService.SaveAfterRemove | src/services/authService.js:15-25 | saving after a removal is the same as saving |
| AuthService.VerifyToken | src/services/authService.js:28-39 | without a truthy token: false and no request; otherwise one bearer request to /auth/verify, and the reply body on success or false on any failure |
| AuthService.VerifyAfterRemove | src/services/authService.js:23-30 | once the token is removed, verification fails without a request |
| Router.GuardOf | src/router/index.jsx:25-33 | /login, /register and / are public-only, /dashboard is private, and every other path is unguarded |
| Router.Route | src/router/index.jsx:9-35 | while loading, guarded paths render nothing; a private path shows the page to a truthy user and otherwise redirects to /login with replace; public-only paths send a user to /dashboard with replace; / sends a visitor to /login; any other path goes to / without replace |
| Router.SettlesWithinTwoHops | src/router/index.jsx:19-35 | once loading has ended, every path lands on a page within two redirects: the dashboard exactly when a user is signed in, and register only when asked for; / ends at /login or /dashboard |
| Router.LoadingNeverRedirectsAway | src/router/index.jsx:11-18 | while loading, no chain of redirects reaches /login or /dashboard |
| Router.VisitorIsSentToLogin | src/router/index.jsx:12 | after mount with no user, the dashboard redirects to /login with replace |
| Router.SignedInUserReachesDashboard | src/router/index.jsx:12-19 | after `login(token)` with a non-empty token, the dashboard renders and /login is sent to /dashboard |
| Router.LogoutClosesDashboard | src/router/index.jsx:12 | after `logout()`, the dashboard redirects to /login |
| LegacyApp.App | frontend/src/main.jsx:8-16 | / shows the dashboard exactly when a truthy token is stored and otherwise redirects to /login; /login and /register render whatever the token; nothing else matches |
| LegacyApp.SavedTokenOpensDashboard | frontend/src/main.jsx:9-15 | once a non-empty token is saved, the reload at / after login shows the dashboard |
| LegacyApp.ReplyWithoutTokenOpensDashboard | frontend/src/Pages/Login.jsx:12-14 | a successful login reply without a token stores "undefined", and the reload at / still shows the dashboard |
| LegacyApp.RemovedTokenClosesDashboard | frontend/src/main.jsx:14 | once the token is removed, / redirects to /login |
| LegacyApp.PublicPagesIgnoreToken | frontend/src/main.jsx:15-16 | /login and /register render the same for every storage |
| LegacyRegister.Validate | frontend/src/Pages/Register.jsx:21-29 | the checks run in order (empty field, password shorter than 8, mismatch), and exactly one message results unless all pass |
| LegacyRegister.Submit | frontend/src/Pages/Register.jsx:15-44 | both messages are cleared first; a failed check sends nothing; success sets the success text and goes to /login; a failure shows the server's message or the default; exactly one message is left |
| LegacyRegister.PreviousMessagesCleared | frontend/src/Pages/Register.jsx:17-18 | both messages are cleared before any check, so the outcome does not depend on what was shown before |
| LegacyRegister.SendsOnlyValidForms | frontend/src/Pages/Register.jsx:21-37 | a request is sent exactly when all three checks pass, with repeat_password taken from the repeat field |
| LoginPage.FailureFollowsClass | src/pages/auth/login.jsx:44-49 | a failure is shown by its error class, a 401 like any other rejection with the server's message or 'Login error'; the login page never expels |
| LoginPage.Submit | src/pages/auth/login.jsx:14-54 | an empty field gives one toast and no request; a truthy token signs in and goes to /dashboard; a reply without a token gives 'Resposta inválida do servidor'; errors are classified three ways; loading is on while pending and off afterwards; the page never logs out |
| RegisterPage.SameRequestAsLegacy | src/pages/auth/register.jsx:22-27 | the page posts the very request the older registration page posts for the same inputs, which that page sends exactly when its checks pass |
| RegisterPage.Submit | src/pages/auth/register.jsx:18-41 | the payload has exactly name, email, password and repeat_password from the inputs; success shows the server's message and goes to /login; errors are classified three ways; the session is never touched |
| CapacityBar.Divide | src/pages/locales/LocaleDetails.jsx:177 | the exact quotient for a non-zero maximum; Infinity, -Infinity or NaN for a zero one |
| CapacityBar.BarWidth | src/pages/locales/LocaleDetails.jsx:184 | the width never exceeds 100, is 100 at or over capacity, and below capacity is exactly current * 100 / max |
| CapacityBar.ColourThresholds | src/pages/locales/LocaleDetails.jsx:177-181 | for a positive maximum: red exactly when 10*current >= 9*max, yellow exactly when 7*max <= 10*current < 9*max, purple exactly when 10*current < 7*max |
| CapacityBar.ColourMonotone | src/pages/locales/LocaleDetails.jsx:177-181 | for a fixed positive maximum, more people never give a milder colour |
| LocaleDetails.ViewOf | src/pages/locales/LocaleDetails.jsx:55-79 | the loading view while loading; the not-found view once loaded without a location; otherwise the location's details |
| LocaleDetails.LoadLocation | src/pages/locales/LocaleDetails.jsx:18-47 | a request exactly when there is a token; expelled exactly on a missing token or a 401; success stores the reply's record; another failure shows the server's message or 'Erro ao carregar local' and keeps the location |
| LocaleDetails.FailedLoadShowsNotFound | src/pages/locales/LocaleDetails.jsx:37-79 | a first load that does not succeed leaves the not-found view |
| LocaleDetails.LoadedLocationShowsDetails | src/pages/locales/LocaleDetails.jsx:35-79 | a loaded record is what the details view shows |
| LocaleEdit.PutBody | src/pages/locales/LocaleEdit.jsx:72-78 | the body has exactly five fields: name and address as typed; max_people is `parseInt` of the input; description and google_maps_url are undefined exactly when empty and sent as typed otherwise |
| LocaleEdit.Load | src/pages/locales/LocaleEdit.jsx:26-50 | only a missing token signs out, and then the effects are exactly sign-out and /login with no request; a record fills the form; any failure, 401 included, shows 'Erro ao carregar local' and goes to /location/{id} |
| LocaleEdit.Submit | src/pages/locales/LocaleEdit.jsx:61-89 | a missing token signs out and goes to /login with no request; otherwise a PUT of the form to /locations/{id}; success shows the message or the default and goes to /location/{id}; every failure, 401 included, shows one generic toast |
| LocaleEdit.Delete | src/pages/locales/LocaleEdit.jsx:91-110 | a missing token signs out and goes to /login with no request; otherwise success goes to /; every failure shows one generic toast; on every path the button is released and the modal closed |
| LocaleEdit.LoadThenDeleteRemovesRecord | src/pages/locales/LocaleEdit.jsx:26-110 | a delete from a loaded page targets the loaded record with the same path and bearer header, keeps the form, and leaves the page, for /, exactly on success |
| LocaleEdit.LoadThenSaveSendsRecord | src/pages/locales/LocaleEdit.jsx:37-77 | loading a record and saving it unchanged sends the same name, address and capacity (NaN for a zero capacity), and each optional text, or undefined when empty |
| LocaleCreate.PostBody | src/pages/locales/LocaleCreate.jsx:31-36 | the body has exactly name, address, max_people and description; max_people is `parseInt` of the input; description is undefined exactly when empty |
| LocaleCreate.Submit | src/pages/locales/LocaleCreate.jsx:17-60 | a POST to /locations exactly when there is a token; expelled exactly on a missing token or a 401; success shows the server's message and goes to /; failures are classified four ways; loading is off after every path |
| LocaleCreate.TypedCapacityIsSent | src/pages/locales/LocaleCreate.jsx:34 | a capacity typed as a decimal integer is sent as that number |
| LocaleCreate.EmptyCapacityIsNaN | src/pages/locales/LocaleCreate.jsx:34 | an empty capacity input is sent as NaN |
| GateCreate.Mount | src/pages/gates/GateCreate.jsx:17-25 | the form renders exactly when the navigation state carries a truthy location; otherwise a toast and a redirect to / |
| GateCreate.Submit | src/pages/gates/GateCreate.jsx:27-69 | the body is exactly tag, location_id and the chosen status; success goes to /location/{locationId}; failures are classified four ways, 401 first |
| GateCreate.DefaultStatusIsActive | src/pages/gates/GateCreate.jsx:13 | a gate submitted with the status untouched is sent as 'ativado' |
| GateEdit.FormOf | src/pages/gates/GateEdit.jsx:40-44 | the loaded tag and location are kept, and a missing status becomes 'ativado' |
| GateEdit.Load | src/pages/gates/GateEdit.jsx:22-56 | expelled exactly on a missing token or a 401; a record fills the form; any other failure, a reply without a record included, shows the message or the default and goes back one step |
| GateEdit.Submit | src/pages/gates/GateEdit.jsx:72-113 | one PUT to /gates/{id} with the bearer header; the body is exactly tag and status, never location_id; success goes to /gate/{id}; failures are classified four ways, 401 first |
| GateEdit.Delete | src/pages/gates/GateEdit.jsx:115-147 | success goes to /locale/gates/{location_id}; a 401 expels; another response shows its message; anything else shows 'Erro ao excluir catraca'; on every path the button is released and the modal closed |
| GateEdit.LoadThenSaveSendsGate | src/pages/gates/GateEdit.jsx:40-89 | loading a gate and saving it unchanged sends its tag and its status, or 'ativado' when it had none |
| GateEdit.DeleteReturnsToLocation | src/pages/gates/GateEdit.jsx:133 | after a load, a successful delete returns to the gate's own location; before any load it goes to /locale/gates/null |
| GateList.ResolveId | src/pages/gates/GateList.jsx:10-12 | the route parameter when it is truthy, otherwise the navigation state's location |
| GateList.LoadGates | src/pages/gates/GateList.jsx:20-60 | the token check comes before the id check; the location is fetched before the gates; a missing list reads as []; expelled exactly on a missing token or a 401 from either request; other failures show a toast and empty the list; loading is off afterwards |
| GateList.Mount | src/pages/gates/GateList.jsx:62-64 | as written, nothing happens without a truthy id, so the page stays in its loading state |
| GateList.MountCorrected | src/pages/gates/GateList.jsx:31-35 | when the load runs unconditionally, loading always ends, and a missing id is reported and left for / |
| GateList.ViewOf | src/pages/gates/GateList.jsx:66-147 | the loading view; the empty state exactly when there are no gates; otherwise one card per gate, with its tag and badge |
| GateList.MissingIdLoadsForever | src/pages/gates/GateList.jsx:18-64 | with neither a route parameter nor a navigation state the page never leaves the loading view and shows no toast |
| GateList.CorrectedMountSettles | src/pages/gates/GateList.jsx:31-35 | with the corrected mount, the loading view always ends, and a missing location with a token leads to / |
| GateList.FailureShowsEmptyState | src/pages/gates/GateList.jsx:49-56 | a failed load that does not expel shows the empty state |
| LocaleList.Normalise | src/pages/locales/List.jsx:29-33 | the list is the reply's list exactly when it is present and non-empty, and [] otherwise |
| LocaleList.Load | src/pages/locales/List.jsx:12-44 | expelled exactly on a missing token or a 401; success stores the normalised list; any other failure silently empties it; loading is off afterwards |
| LocaleList.ViewOf | src/pages/locales/List.jsx:50-117 | the loading view; 'Você não possui locais cadastrados' exactly when loaded with no locations; otherwise the list |
| LocaleList.ListedIffSent | src/pages/locales/List.jsx:29-60 | once loaded without expelling, the page lists locations exactly when the server sent a non-empty list, and otherwise shows the empty state |
| GateDetails.LogsToken | src/pages/gates/GateDetails.jsx:61 | the token handed over when it is truthy, otherwise the one stored now |
| GateDetails.LoadLogs | src/pages/gates/GateDetails.jsx:54-74 | as written: a success stores the reply's list as it is; any failure, a 401 included, shows a toast, empties the list and never logs out |
| GateDetails.LoadLogsCorrected | src/pages/gates/GateDetails.jsx:66 | a list is always stored; a reply without one reads as [] and otherwise behaves as written |
| GateDetails.LoadGate | src/pages/gates/GateDetails.jsx:20-52 | expelled exactly on a missing token or a gate 401, never for the history; the history is fetched exactly after the gate arrived, with the same token, and its list is stored as the reply carries it, `undefined` included; a gate failure shows a toast and keeps gate and logs |
| GateDetails.LoadGateCorrected | src/pages/gates/GateDetails.jsx:20-74 | with the corrected history load: the same requests, effects and gate as written, and the same history except that a reply without a list leaves [] instead of `undefined` |
| GateDetails.ViewOf | src/pages/gates/GateDetails.jsx:82-194 | the loading view, then not-found without a gate, then the details with the status badge and either the movement rows or 'Sem movimentações por aqui' exactly when there are none |
| GateDetails.HistoryWithoutListFailsRender | src/pages/gates/GateDetails.jsx:66-169 | as written, a history reply without a list makes the page fail to render although the gate loaded, both for `loadLogs` alone and for the whole `loadGate` |
| GateDetails.LoadedPageRenders | src/pages/gates/GateDetails.jsx:20-106 | with the corrected history load (`LoadGateCorrected`), a load always ends in the not-found view or the details |
| GateDetails.FailedGateShowsNotFound | src/pages/gates/GateDetails.jsx:42-106 | a gate that does not load leaves the not-found view |

## Left out

- Network. The HTTP client, the `services/api` module and the `login`/`register` wrappers of
  `src/services/authService.js:5-13` are left out. Each request's outcome is an input, and the
  model records only the request that was sent.
- The pages import their `getToken` and `logout` from `contexts/AuthContext`, which is not part
  of this model.
  - The token those pages read is an `Option<string>` input.
  - `logout()` and `login(token)` of that context are the effects `Logout` and `SignIn`.
- JSX markup and styling. Icons, layouts, modal rendering beyond its open flag, console output,
  and toast rendering are left out; a toast is an effect value.
- Form editing. `handleChange` and the inputs' own state are left out; form contents are
  handler inputs.
- Timing. Async interleaving, React effect scheduling and re-entrancy are left out.
  - Each handler is one sequential step.
  - The un-awaited `loadLogs`, the 1.5 s `setTimeout` before navigation in the older register
    page, and double submits are not modelled.
- Repeated renders. The gate creation guard runs on every render. `GateCreate.Mount` models a
  single render.
- Route matching. React Router matches paths case-insensitively and with optional trailing
  slashes; `Router.Route` and `LegacyApp.App` compare paths exactly.
- Identifiers are the text they interpolate to. The JSON type of an id is not modelled.
- Record fields. A field a record may leave out is the empty string. The pages read such fields
  through `|| ""` or a truthiness test, which treat the two alike.
- `Js.ParseInt`: results are unbounded integers. JavaScript numbers lose precision above 2^53,
  and `parseInt` returns a float for longer digit runs.
- `LegacyRegister.Validate`: the length check counts Unicode scalar values, not UTF-16 code
  units, so an astral character counts once here and twice in JavaScript.
- `CapacityBar.Divide`: the quotient is the exact rational, not the double JavaScript rounds it
  to, so it can differ from the page's value in the last place.
- `CapacityBar.BarWidth`: the width is the exact `current * 100 / max`. JavaScript multiplies the
  rounded ratio by 100 and rounds again, so the page can show 7.000000000000001 for 7 of 100, or
  56.99999999999999 for 57 of 100. The difference is in the last place and never crosses the
  100 cap, which both compute the same way.
- `CapacityBar.BarColour`: division is exact, not IEEE double. The two agree for
  occupancy counts far below 2^53:
  - a ratio equal to 0.9 or 0.7 rounds to the same double as the literal;
  - any other ratio differs from the thresholds by far more than one unit in the last place.
- Error bodies. A reply without a body is not modelled. Pages that read
  `error.response.data.message` without optional chaining would throw inside their `catch`
  block. The model takes the message as missing.
- `GateEdit.FormOf`: `None` stands for both a null and an absent `location_id`. The API is taken
  to send the field; were it absent, the delete would go to /locale/gates/undefined rather than
  /locale/gates/null, and the model does not tell the two apart.
- Out of scope: the older login page's form and error text (its storage effect is
  `AuthService.SaveValue`), the dashboard pages and the layout components. They hold
  no decision logic.

## Findings

| source | as written | input that shows it | evidently intended | confidence | as-written member | corrected member |
|---|---|---|---|---|---|---|
| src/pages/gates/GateList.jsx:62-64 | the mount effect calls `loadGates` only for a truthy id, so the missing-id branch at lines 31-35 never runs and `loading` stays true | the page reached with no route parameter and no `locationId` in the navigation state | report "Local não identificado" and go to / | medium, not executed | GateList.MissingIdLoadsForever | GateList.CorrectedMountSettles |
| src/pages/gates/GateDetails.jsx:66 | `setLogs(data.data)` stores `undefined` when a successful history reply carries no list, and the render then reads `logs.length` | a history reply `{}` after the gate has loaded | store `data.data \|\| []`, as the gate list does at GateList.jsx:48 | low, not executed | GateDetails.HistoryWithoutListFailsRender | GateDetails.LoadGateCorrected, GateDetails.LoadedPageRenders |
