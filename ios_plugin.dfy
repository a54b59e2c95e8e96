/** The iOS implementation of the plugin (`MsalPlugin` in Swift): a session held in six
    fields, changed step by step by `setOptions`, `login` and `logout`, and read by the
    query operations.

    Each MSAL SDK call the plugin makes is an input: the outcome of the current-account
    lookup, of a silent or interactive token request, of a sign-out, of building the client.
    Every operation returns what the bridge call was settled with (`CallOutcome`) and the SDK
    requests it made, in order. Completion blocks are taken to run to the end, one after
    the other. */
module IosPlugin {
  import opened Wrappers

  // ---- what the SDK hands back ----

  /** An `NSError` as the plugin reads it: domain, code, and the text `\(error)` prints. */
  datatype NativeError = NativeError(domain: string, code: int, description: string)

  const MsalErrorDomain := "MSALErrorDomain"

  /** `MSALError.interactionRequired.rawValue` in the MSAL iOS SDK. */
  const InteractionRequiredCode: int := -50002

  /** The one silent failure that sends `login` on to the interactive flow. */
  predicate NeedsInteraction(e: NativeError) {
    e.domain == MsalErrorDomain && e.code == InteractionRequiredCode
  }

  /** A value of a `[String: Any]` claims dictionary: a string array, or anything else. */
  datatype ClaimValue = StringArray(items: seq<string>) | OtherValue

  type Claims = map<string, ClaimValue>

  /** `MSALAccount`: `homeAccountId?.identifier` is folded into one optional string. */
  datatype MsalAccount = MsalAccount(
    homeAccountIdentifier: Option<string>,
    identifier: Option<string>,
    username: Option<string>,
    accountClaims: Option<Claims>)

  datatype TenantProfile = TenantProfile(identifier: string, tenantId: Option<string>, claims: Option<Claims>)

  /** `MSALResult`; `expiresOn` is held as the text the date formatter makes of it. */
  datatype MsalResult = MsalResult(
    authorityUrl: string,
    tenantProfile: TenantProfile,
    accessToken: string,
    idToken: Option<string>,
    expiresOn: string,
    account: MsalAccount,
    scopes: seq<string>)

  // ---- the dictionary a successful login resolves with ----

  datatype AccountProjection = AccountProjection(
    homeAccountId: string,
    tenantId: Option<string>,
    localAccountId: string,
    username: Option<string>,
    idTokenClaims: Option<Claims>)

  datatype ResultProjection = ResultProjection(
    authority: string,
    uniqueId: string,
    tenantId: string,
    accessToken: string,
    idToken: string,
    expiresOn: string,
    account: AccountProjection,
    idTokenClaims: seq<Option<Claims>>,
    scopes: seq<string>)

  /** `o ?? ""`. */
  function OrEmpty(o: Option<string>): (r: string)
    ensures o.Some? ==> r == o.value
    ensures o.None? ==> r == ""
  {
    if o.Some? then o.value else ""
  }

  /** The `results` dictionary built from an `MSALResult` (the same literal appears in
      `acquireAuthenticationResult`, `loginInteractive` and `loginSilently`): the top-level
      tenant id, the id token, the home account id and the local account id fall back to
      `""`; the account's tenant id, username and claims are passed on as they are. */
  function Project(r: MsalResult): (p: ResultProjection)
    ensures p.tenantId == OrEmpty(r.tenantProfile.tenantId) && p.idToken == OrEmpty(r.idToken)
    ensures p.account.homeAccountId == OrEmpty(r.account.homeAccountIdentifier)
    ensures p.account.localAccountId == OrEmpty(r.account.identifier)
    ensures p.account.tenantId == r.tenantProfile.tenantId && p.account.username == r.account.username
    ensures p.account.idTokenClaims == r.account.accountClaims
    ensures p.idTokenClaims == [r.tenantProfile.claims]
    ensures p.authority == r.authorityUrl && p.uniqueId == r.tenantProfile.identifier
    ensures p.accessToken == r.accessToken && p.expiresOn == r.expiresOn && p.scopes == r.scopes
  {
    ResultProjection(
      r.authorityUrl, r.tenantProfile.identifier, OrEmpty(r.tenantProfile.tenantId), r.accessToken,
      OrEmpty(r.idToken), r.expiresOn,
      AccountProjection(OrEmpty(r.account.homeAccountIdentifier), r.tenantProfile.tenantId,
        OrEmpty(r.account.identifier), r.account.username, r.account.accountClaims),
      [r.tenantProfile.claims], r.scopes)
  }

  /** The projection cannot tell an absent id token, home account id or local account id
      from an empty one. */
  lemma ProjectionConflatesAbsentAndEmpty(r: MsalResult)
    ensures Project(r.(idToken := None)) == Project(r.(idToken := Some("")))
    ensures Project(r.(account := r.account.(homeAccountIdentifier := None))) ==
            Project(r.(account := r.account.(homeAccountIdentifier := Some(""))))
    ensures Project(r.(account := r.account.(identifier := None))) ==
            Project(r.(account := r.account.(identifier := Some(""))))
  {
  }

  /** The tenant id is defaulted at the top level only; the account keeps it as it was, so an
      absent tenant id still shows through the account. */
  lemma TenantIdStillVisible(r: MsalResult)
    ensures Project(r.(tenantProfile := r.tenantProfile.(tenantId := None))).tenantId ==
            Project(r.(tenantProfile := r.tenantProfile.(tenantId := Some("")))).tenantId
    ensures Project(r.(tenantProfile := r.tenantProfile.(tenantId := None))) !=
            Project(r.(tenantProfile := r.tenantProfile.(tenantId := Some(""))))
  {
  }

  // ---- bridge calls and SDK requests ----

  /** What the bridge call resolves with. */
  datatype CallValue =
    | NoValue                          // `call.resolve()`
    | Flag(flag: bool)
    | AccessToken(token: string)
    | Roles(roles: Option<seq<string>>)
    | EmptyArray                       // `"results": []` of `acquireAuthenticationResult`
    | Result(result: ResultProjection)

  /** How a bridge call ends: never settled, resolved, rejected (by `call.reject` or
      `call.error`) with a message, or a runtime trap. */
  datatype CallOutcome = NoOutcome | Resolved(value: CallValue) | Rejected(message: string) | Trapped

  /** `MSALPromptType`. */
  datatype PromptType = SelectAccount | LoginPrompt | ConsentPrompt | PromptIfNecessary | DefaultPrompt

  /** The SDK requests the plugin makes. */
  datatype SdkRequest =
    | GetCurrentAccount
    | AcquireTokenSilent(silentScopes: seq<string>, account: Option<MsalAccount>, forceRefresh: bool)
    | AcquireToken(scopes: seq<string>, promptType: PromptType)
    | Signout(signoutAccount: MsalAccount, signoutFromBrowser: bool)

  /** How many interactive token requests a list of requests holds. */
  function InteractiveCount(rs: seq<SdkRequest>): (n: nat)
    ensures n <= |rs|
    ensures n == 0 <==> forall i :: 0 <= i < |rs| ==> !rs[i].AcquireToken?
  {
    if rs == [] then 0
    else (if rs[0].AcquireToken? then 1 else 0) + InteractiveCount(rs[1..])
  }

  lemma InteractiveCountAppend(a: seq<SdkRequest>, b: seq<SdkRequest>)
    ensures InteractiveCount(a + b) == InteractiveCount(a) + InteractiveCount(b)
  {
    if a == [] {
      assert a + b == b;
    } else {
      assert (a + b)[1..] == a[1..] + b;
      InteractiveCountAppend(a[1..], b);
    }
  }

  // ---- SDK outcomes, as inputs ----

  /** The arguments `setOptions` reads from the bridge call. */
  datatype SetOptionsCall = SetOptionsCall(
    authority: Option<string>,
    clientId: Option<string>,
    redirectUri: Option<string>,
    scopes: Option<seq<string>>)

  /** `MSALPublicClientApplication`, known by its configuration. */
  datatype Client = Client(clientId: string, redirectUri: string, authority: string)

  /** Whether building the authority and the client returned or threw. */
  datatype Construction = Built | ConstructionThrows(error: NativeError)

  /** The completion of `getCurrentAccount`. */
  datatype AccountLookup = CurrentAccount(current: MsalAccount) | NoCurrentAccount | LookupFails(error: NativeError)

  /** The completion of a silent or interactive token request. */
  datatype TokenCall = Token(result: MsalResult) | NoToken | TokenFails(error: NativeError)

  /** The completion of `signout`. */
  datatype SignoutCall = SignedOut | SignoutFails(error: NativeError)

  // ---- the session ----

  /** The fields `account`, `authResults`, `client`, `authenticated`, `popupScopes` and
      `hasOptions`. */
  datatype Session = Session(
    account: Option<MsalAccount>,
    authResults: Option<MsalResult>,
    client: Option<Client>,
    authenticated: bool,
    popupScopes: Option<seq<string>>,
    hasOptions: bool)

  /** A freshly loaded plugin: every optional `nil`, both flags `Bool()`, that is false. */
  const Initial := Session(None, None, None, false, None, false)

  /** The plugin has a client exactly when its options are set, and is authenticated only
      with a result in hand. */
  predicate ValidSession(s: Session) {
    (s.hasOptions <==> s.client.Some?) && (s.authenticated ==> s.authResults.Some?)
  }

  lemma InitialValid()
    ensures ValidSession(Initial)
  {
  }

  /** One operation: the session after it, the call's outcome, the SDK requests it made. */
  datatype Step = Step(session: Session, outcome: CallOutcome, requests: seq<SdkRequest>)

  /** The session after a token request succeeded. */
  function SignedIn(s: Session, r: MsalResult): (t: Session)
    ensures t.authResults == Some(r) && t.account == Some(r.account) && t.authenticated
    ensures t.client == s.client && t.hasOptions == s.hasOptions && t.popupScopes == s.popupScopes
  {
    s.(authResults := Some(r), account := Some(r.account), authenticated := true)
  }

  // The messages the plugin rejects with.
  const NoResultReturned := "Could not acquire token: No result returned"
  const TokenOptionsMissing := "AcquireAccessTokenForUser Error: MSAL Plugin Options have not been set yet. Please run 'setOptions'"
  const NoScopesProvided := "AcquireAccessToken Error: No Scopes were provided"
  const TokenNotAuthenticated := "AcquireAccessToken Error: User has not been Authenticated yet. Please Login first before calling this request"
  const RolesOptionsMissing := "AcquireUserRoles Error: MSAL Plugin Options have not been set yet. Please run 'setOptions'"
  const RolesNotAuthenticated := "Eiether Plugin Confgiuraitons have not been set or the user has not been authenticated"
  const IsAuthenticatedOptionsMissing := "isAuthenticated Error: MSAL Plugin Options have not been set yet. Please run 'setOptions'"
  const LoginOptionsMissing := "Login Error: MSAL Plugin Options have not been set yet. Please run 'setOptions'"
  const LogoutOptionsMissing := "Logout Error: MSAL Plugin Options have not been set yet. Please run 'setOptions'"
  const TokenFailed := "Unable to Acquire Access Token"
  const InteractiveFailed := "Unknown Error"
  const InteractiveOptionsMissing := "Options have not been set"
  const SignoutFailed := "Unable to signout"
  const InitializationFailed := "Initialization Error"
  const SilentFailedPrefix := "Could not acquire token silently: "

  /** `setOptions`: a missing authority, client id or redirect URI, or an authority that is no
      URL, ends the call with no outcome; a throwing construction rejects; otherwise the
      client is set, the scopes recorded, options marked set and the user signed out. */
  function SetOptionsStep(s: Session, call: SetOptionsCall, authorityIsUrl: bool, construction: Construction): (r: Step)
    ensures ValidSession(s) ==> ValidSession(r.session)
    ensures r.requests == []
    ensures call.authority.None? || call.clientId.None? || call.redirectUri.None? || !authorityIsUrl ==>
      r.session == s && r.outcome == NoOutcome
    ensures r.outcome.Rejected? ==> r.session == s && r.outcome.message == InitializationFailed
    ensures r.outcome.Resolved? <==>
      call.authority.Some? && call.clientId.Some? && call.redirectUri.Some? && authorityIsUrl && construction.Built?
    ensures r.outcome.Resolved? ==>
      r.session == s.(client := Some(Client(call.clientId.value, call.redirectUri.value, call.authority.value)),
                      popupScopes := call.scopes, hasOptions := true, authenticated := false)
  {
    if call.authority.None? || call.clientId.None? || call.redirectUri.None? || !authorityIsUrl then
      Step(s, NoOutcome, [])
    else
      match construction
      case ConstructionThrows(_) => Step(s, Rejected(InitializationFailed), [])
      case Built =>
        var client := Client(call.clientId.value, call.redirectUri.value, call.authority.value);
        Step(s.(client := Some(client), popupScopes := call.scopes, hasOptions := true, authenticated := false),
             Resolved(NoValue), [])
  }

  /** `acquireAccessTokenForUser`: when authenticated, refreshes `account` from the current
      account, then asks silently for a token with the given scopes, forcing a refresh. */
  function AcquireAccessTokenForUserStep(s: Session, scopes: Option<seq<string>>, lookup: AccountLookup, silent: TokenCall): (r: Step)
    ensures ValidSession(s) ==> ValidSession(r.session)
    ensures !s.hasOptions || !s.authenticated ==> r.session == s && r.outcome.Rejected? && r.requests == []
    ensures r.session == s || (lookup.CurrentAccount? && r.session == s.(account := Some(lookup.current)))
    ensures InteractiveCount(r.requests) == 0
    ensures r.outcome.Resolved? <==> s.hasOptions && s.authenticated && s.client.Some? && scopes.Some? && silent.Token?
    ensures r.outcome.Resolved? ==> r.outcome.value == AccessToken(silent.result.accessToken)
    ensures s.hasOptions && s.authenticated && s.client.Some? && scopes.Some? ==>
      r.requests == [GetCurrentAccount, AcquireTokenSilent(scopes.value, r.session.account, true)]
  {
    if !s.hasOptions then
      Step(s, Rejected(TokenOptionsMissing), [])
    else if s.authenticated then
      var s1 := if s.client.Some? && lookup.CurrentAccount? then s.(account := Some(lookup.current)) else s;
      var looked := if s.client.Some? then [GetCurrentAccount] else [];
      if scopes.None? then
        Step(s1, Rejected(NoScopesProvided), looked)
      else if s.client.None? then
        Step(s1, NoOutcome, looked)
      else
        var requests := looked + [AcquireTokenSilent(scopes.value, s1.account, true)];
        match silent
        case TokenFails(_) => Step(s1, Rejected(TokenFailed), requests)
        case NoToken => Step(s1, Rejected(NoResultReturned), requests)
        case Token(result) => Step(s1, Resolved(AccessToken(result.accessToken)), requests)
    else
      Step(s, Rejected(TokenNotAuthenticated), [])
  }

  /** `claims["roles"] as? [String]`. */
  function RolesClaim(claims: Claims): (r: Option<seq<string>>)
    ensures r.Some? <==> "roles" in claims && claims["roles"].StringArray?
    ensures r.Some? ==> r.value == claims["roles"].items
  {
    if "roles" in claims && claims["roles"].StringArray? then Some(claims["roles"].items) else None
  }

  /** `acquireUserRoles`: the `roles` claim of the account, `[]` without claims. */
  function UserRolesOutcome(s: Session): (r: CallOutcome)
    ensures !s.hasOptions || !s.authenticated ==> r.Rejected?
    ensures s.hasOptions && s.authenticated ==> r.Resolved? && r.value.Roles?
    ensures s.hasOptions && s.authenticated && (s.account.None? || s.account.value.accountClaims.None?) ==>
      r == Resolved(Roles(Some([])))
    ensures s.hasOptions && s.authenticated && s.account.Some? && s.account.value.accountClaims.Some? ==>
      r == Resolved(Roles(RolesClaim(s.account.value.accountClaims.value)))
  {
    if !s.hasOptions then
      Rejected(RolesOptionsMissing)
    else if s.authenticated then
      if s.account.None? || s.account.value.accountClaims.None? then Resolved(Roles(Some([])))
      else Resolved(Roles(RolesClaim(s.account.value.accountClaims.value)))
    else
      Rejected(RolesNotAuthenticated)
  }

  /** `acquireAuthenticationResult`: the projection of the held result, `[]` without one. The
      check on line 134 names a field `Options` that the class does not have; it is read here
      as `hasOptions`. */
  function AuthenticationResultOutcome(s: Session): (r: CallOutcome)
    ensures !s.hasOptions ==> r == Rejected("")
    ensures s.hasOptions && s.authResults.None? ==> r == Resolved(EmptyArray)
    ensures s.hasOptions && s.authResults.Some? ==> r == Resolved(Result(Project(s.authResults.value)))
  {
    if !s.hasOptions then Rejected("")
    else if s.authResults.None? then Resolved(EmptyArray)
    else Resolved(Result(Project(s.authResults.value)))
  }

  /** `isAuthenticated`. */
  function IsAuthenticatedOutcome(s: Session): (r: CallOutcome)
    ensures !s.hasOptions ==> r.Rejected?
    ensures s.hasOptions ==> r == Resolved(Flag(s.authenticated))
  {
    if !s.hasOptions then
      Rejected(IsAuthenticatedOptionsMissing)
    else Resolved(Flag(s.authenticated))
  }

  /** `loginInteractive`: one interactive request with the recorded scopes and the
      select-account prompt; without recorded scopes the forced unwrap `popupScopes!` traps. */
  function InteractiveLoginStep(s: Session, interactive: TokenCall): (r: Step)
    ensures ValidSession(s) ==> ValidSession(r.session)
    ensures InteractiveCount(r.requests) <= 1
    ensures s.hasOptions && s.popupScopes.Some? && s.client.Some? ==>
      r.requests == [AcquireToken(s.popupScopes.value, SelectAccount)]
    ensures s.hasOptions && s.popupScopes.None? ==> r == Step(s, Trapped, [])
    ensures r.outcome.Resolved? <==> s.hasOptions && s.popupScopes.Some? && s.client.Some? && interactive.Token?
    ensures r.outcome.Resolved? ==>
      r.session == SignedIn(s, interactive.result) && r.outcome.value == Result(Project(interactive.result))
    ensures !r.outcome.Resolved? ==> r.session == s
  {
    if s.hasOptions then
      if s.popupScopes.None? then Step(s, Trapped, [])
      else if s.client.None? then Step(s, NoOutcome, [])
      else
        var requests := [AcquireToken(s.popupScopes.value, SelectAccount)];
        match interactive
        case TokenFails(_) => Step(s, Rejected(InteractiveFailed), requests)
        case NoToken => Step(s, Rejected(NoResultReturned), requests)
        case Token(result) => Step(SignedIn(s, result), Resolved(Result(Project(result))), requests)
    else
      Step(s, Rejected(InteractiveOptionsMissing), [])
  }

  /** `loginSilently(account)`: one silent request with the recorded scopes (or none); an
      interaction-required failure goes on to `loginInteractive`, any other failure rejects. */
  function SilentLoginStep(s: Session, account: MsalAccount, silent: TokenCall, interactive: TokenCall): (r: Step)
    ensures ValidSession(s) ==> ValidSession(r.session)
    ensures InteractiveCount(r.requests) <= 1
    ensures s.client.None? ==> r == Step(s, NoOutcome, [])
    ensures s.client.Some? ==>
      |r.requests| >= 1 &&
      r.requests[0] == AcquireTokenSilent(if s.popupScopes.Some? then s.popupScopes.value else [], Some(account), false)
    ensures s.client.Some? && silent.TokenFails? && NeedsInteraction(silent.error) ==>
      var i := InteractiveLoginStep(s, interactive);
      r == Step(i.session, i.outcome, r.requests[..1] + i.requests)
    ensures s.client.Some? && silent.TokenFails? && !NeedsInteraction(silent.error) ==>
      r.session == s && r.outcome == Rejected(SilentFailedPrefix + silent.error.description) &&
      InteractiveCount(r.requests) == 0
    ensures !(silent.TokenFails? && NeedsInteraction(silent.error)) ==> InteractiveCount(r.requests) == 0
    ensures s.client.Some? && silent.Token? ==>
      r.session == SignedIn(s, silent.result) && r.outcome == Resolved(Result(Project(silent.result)))
  {
    if s.client.None? then Step(s, NoOutcome, [])
    else
      var request := AcquireTokenSilent(if s.popupScopes.Some? then s.popupScopes.value else [], Some(account), false);
      match silent
      case TokenFails(e) =>
        if NeedsInteraction(e) then
          var i := InteractiveLoginStep(s, interactive);
          InteractiveCountAppend([request], i.requests);
          Step(i.session, i.outcome, [request] + i.requests)
        else
          Step(s, Rejected(SilentFailedPrefix + e.description), [request])
      case NoToken => Step(s, Rejected(NoResultReturned), [request])
      case Token(result) => Step(SignedIn(s, result), Resolved(Result(Project(result))), [request])
  }

  /** `login`: looks up the current account; with one it goes silent first, without one it
      goes straight to the interactive flow; a failing lookup ends the call with no outcome. */
  function LoginStep(s: Session, lookup: AccountLookup, silent: TokenCall, interactive: TokenCall): (r: Step)
    ensures ValidSession(s) ==> ValidSession(r.session)
    ensures !s.hasOptions ==> r.session == s && r.outcome.Rejected? && r.requests == []
    ensures InteractiveCount(r.requests) <= 1
    ensures s.hasOptions && s.client.Some? ==> |r.requests| >= 1 && r.requests[0] == GetCurrentAccount
    ensures s.hasOptions && s.client.Some? && lookup.LookupFails? ==> r == Step(s, NoOutcome, [GetCurrentAccount])
    ensures s.hasOptions && s.client.Some? && lookup.CurrentAccount? ==>
      |r.requests| >= 2 && r.requests[1].AcquireTokenSilent? && r.requests[1].account == Some(lookup.current)
    ensures s.hasOptions && s.client.Some? && lookup.NoCurrentAccount? && s.popupScopes.Some? ==>
      r.requests == [GetCurrentAccount, AcquireToken(s.popupScopes.value, SelectAccount)]
    ensures InteractiveCount(r.requests) == 1 ==>
      lookup.NoCurrentAccount? || (silent.TokenFails? && NeedsInteraction(silent.error))
    ensures r.outcome.Resolved? ==>
      r.session.authenticated && r.session.authResults.Some? &&
      r.session.account == Some(r.session.authResults.value.account) &&
      r.outcome.value == Result(Project(r.session.authResults.value))
  {
    if !s.hasOptions then
      Step(s, Rejected(LoginOptionsMissing), [])
    else if s.client.None? then
      Step(s, NoOutcome, [])
    else
      match lookup
      case LookupFails(_) => Step(s, NoOutcome, [GetCurrentAccount])
      case CurrentAccount(a) =>
        var k := SilentLoginStep(s.(account := Some(a)), a, silent, interactive);
        InteractiveCountAppend([GetCurrentAccount], k.requests);
        Step(k.session, k.outcome, [GetCurrentAccount] + k.requests)
      case NoCurrentAccount =>
        var k := InteractiveLoginStep(s.(account := None), interactive);
        InteractiveCountAppend([GetCurrentAccount], k.requests);
        Step(k.session, k.outcome, [GetCurrentAccount] + k.requests)
  }

  /** `logout` and `logoutInteractive`: with no client or no account it resolves and changes
      nothing; a failed sign-out rejects and keeps the session; a successful one clears
      account, result and the authenticated flag. */
  function LogoutStep(s: Session, signout: SignoutCall): (r: Step)
    ensures ValidSession(s) ==> ValidSession(r.session)
    ensures !s.hasOptions ==> r.session == s && r.outcome.Rejected? && r.requests == []
    ensures s.hasOptions && (s.client.None? || s.account.None?) ==> r == Step(s, Resolved(NoValue), [])
    ensures s.hasOptions && s.client.Some? && s.account.Some? ==>
      r.requests == [Signout(s.account.value, true)] &&
      match signout
      case SignoutFails(_) => r.session == s && r.outcome == Rejected(SignoutFailed)
      case SignedOut =>
        r.session == s.(account := None, authResults := None, authenticated := false) &&
        r.outcome == Resolved(NoValue)
  {
    if !s.hasOptions then
      Step(s, Rejected(LogoutOptionsMissing), [])
    else if s.client.None? || s.account.None? then
      Step(s, Resolved(NoValue), [])
    else
      var requests := [Signout(s.account.value, true)];
      match signout
      case SignoutFails(_) => Step(s, Rejected(SignoutFailed), requests)
      case SignedOut => Step(s.(account := None, authResults := None, authenticated := false), Resolved(NoValue), requests)
  }

  // ---- across operations ----

  /** Every public operation rejects, and changes nothing, before `setOptions` has succeeded. */
  lemma UnconfiguredPluginRejects(s: Session, scopes: Option<seq<string>>, lookup: AccountLookup,
                                  silent: TokenCall, interactive: TokenCall, signout: SignoutCall)
    requires !s.hasOptions
    ensures AcquireAccessTokenForUserStep(s, scopes, lookup, silent).outcome.Rejected?
    ensures UserRolesOutcome(s).Rejected? && AuthenticationResultOutcome(s).Rejected?
    ensures IsAuthenticatedOutcome(s).Rejected?
    ensures LoginStep(s, lookup, silent, interactive).outcome.Rejected?
    ensures LogoutStep(s, signout).outcome.Rejected?
  {
  }

  /** A successful `setOptions` leaves the plugin configured and signed out. */
  lemma SetOptionsSignsOut(s: Session, call: SetOptionsCall, construction: Construction)
    requires SetOptionsStep(s, call, true, construction).outcome.Resolved?
    ensures IsAuthenticatedOutcome(SetOptionsStep(s, call, true, construction).session) == Resolved(Flag(false))
  {
  }

  /** After a successful login, `acquireAuthenticationResult` hands back the same projection
      the login resolved with, and `isAuthenticated` reports true. */
  lemma LoginThenResult(s: Session, lookup: AccountLookup, silent: TokenCall, interactive: TokenCall)
    requires LoginStep(s, lookup, silent, interactive).outcome.Resolved?
    ensures var t := LoginStep(s, lookup, silent, interactive);
      AuthenticationResultOutcome(t.session) == t.outcome &&
      IsAuthenticatedOutcome(t.session) == Resolved(Flag(true))
  {
    var t := LoginStep(s, lookup, silent, interactive);
    assert s.hasOptions;
    assert t.session.hasOptions;
  }

  /** After a successful sign-out the plugin reports itself signed out, has no result to hand
      back, and a further logout does nothing. */
  lemma LogoutClearsSession(s: Session, signout: SignoutCall, again: SignoutCall)
    requires s.hasOptions && s.client.Some? && s.account.Some?
    requires signout == SignedOut
    ensures var t := LogoutStep(s, signout).session;
      IsAuthenticatedOutcome(t) == Resolved(Flag(false)) &&
      AuthenticationResultOutcome(t) == Resolved(EmptyArray) &&
      LogoutStep(t, again) == Step(t, Resolved(NoValue), [])
  {
  }

  /** In a valid session the two queries agree: when `isAuthenticated` resolves true,
      `acquireAuthenticationResult` hands back the projection of a held result, never `[]`. */
  lemma AuthenticatedSessionHasResult(s: Session)
    requires ValidSession(s)
    requires IsAuthenticatedOutcome(s) == Resolved(Flag(true))
    ensures s.authResults.Some?
    ensures AuthenticationResultOutcome(s) == Resolved(Result(Project(s.authResults.value)))
    ensures AuthenticationResultOutcome(s) != Resolved(EmptyArray)
  {
  }

  // ---- the object ----

  class MsalPlugin {
    var account: Option<MsalAccount>
    var authResults: Option<MsalResult>
    var client: Option<Client>
    var authenticated: bool
    var popupScopes: Option<seq<string>>
    var hasOptions: bool

    function State(): Session
      reads this
    {
      Session(account, authResults, client, authenticated, popupScopes, hasOptions)
    }

    /** The session invariant, kept by every operation. */
    predicate Valid()
      reads this
    {
      ValidSession(State())
    }

    constructor()
      ensures State() == Initial && Valid()
    {
      account := None;
      authResults := None;
      client := None;
      authenticated := false;
      popupScopes := None;
      hasOptions := false;
    }

    method SetOptions(call: SetOptionsCall, authorityIsUrl: bool, construction: Construction) returns (outcome: CallOutcome)
      requires Valid()
      modifies this
      ensures Valid()
      ensures Step(State(), outcome, []) == SetOptionsStep(old(State()), call, authorityIsUrl, construction)
    {
      if call.authority.None? || call.clientId.None? || call.redirectUri.None? || !authorityIsUrl {
        return NoOutcome;
      }
      if construction.ConstructionThrows? {
        return Rejected(InitializationFailed);
      }
      client := Some(Client(call.clientId.value, call.redirectUri.value, call.authority.value));
      popupScopes := call.scopes;
      hasOptions := true;
      authenticated := false;
      outcome := Resolved(NoValue);
    }

    method AcquireAccessTokenForUser(scopes: Option<seq<string>>, lookup: AccountLookup, silent: TokenCall)
      returns (outcome: CallOutcome, requests: seq<SdkRequest>)
      requires Valid()
      modifies this
      ensures Valid()
      ensures Step(State(), outcome, requests) == AcquireAccessTokenForUserStep(old(State()), scopes, lookup, silent)
    {
      requests := [];
      if !hasOptions {
        return Rejected(TokenOptionsMissing), [];
      }
      if authenticated {
        if client.Some? {
          requests := requests + [GetCurrentAccount];
          if lookup.CurrentAccount? {
            account := Some(lookup.current);
          }
        }
        if scopes.None? {
          return Rejected(NoScopesProvided), requests;
        }
        if client.None? {
          return NoOutcome, requests;
        }
        requests := requests + [AcquireTokenSilent(scopes.value, account, true)];
        match silent
        case TokenFails(_) => outcome := Rejected(TokenFailed);
        case NoToken => outcome := Rejected(NoResultReturned);
        case Token(result) => outcome := Resolved(AccessToken(result.accessToken));
      } else {
        outcome := Rejected(TokenNotAuthenticated);
      }
    }

    method AcquireUserRoles() returns (outcome: CallOutcome)
      ensures outcome == UserRolesOutcome(State())
    {
      if !hasOptions {
        return Rejected(RolesOptionsMissing);
      }
      if authenticated {
        if account.None? || account.value.accountClaims.None? {
          return Resolved(Roles(Some([])));
        }
        var roles := RolesClaim(account.value.accountClaims.value);
        outcome := Resolved(Roles(roles));
      } else {
        outcome := Rejected(RolesNotAuthenticated);
      }
    }

    method AcquireAuthenticationResult() returns (outcome: CallOutcome)
      ensures outcome == AuthenticationResultOutcome(State())
    {
      if !hasOptions {
        return Rejected("");
      }
      if authResults.None? {
        return Resolved(EmptyArray);
      }
      outcome := Resolved(Result(Project(authResults.value)));
    }

    method IsAuthenticated() returns (outcome: CallOutcome)
      ensures outcome == IsAuthenticatedOutcome(State())
    {
      if !hasOptions {
        return Rejected(IsAuthenticatedOptionsMissing);
      }
      outcome := Resolved(Flag(authenticated));
    }

    method Login(lookup: AccountLookup, silent: TokenCall, interactive: TokenCall)
      returns (outcome: CallOutcome, requests: seq<SdkRequest>)
      requires Valid()
      modifies this
      ensures Valid()
      ensures Step(State(), outcome, requests) == LoginStep(old(State()), lookup, silent, interactive)
    {
      if !hasOptions {
        return Rejected(LoginOptionsMissing), [];
      }
      var completed;
      completed, requests := SetCurrentAccount(lookup);
      if !completed {
        return NoOutcome, requests;
      }
      var more;
      if account.None? {
        outcome, more := LoginInteractive(interactive);
      } else {
        outcome, more := LoginSilently(account.value, silent, interactive);
      }
      requests := requests + more;
    }

    /** `setCurrentAccount`: whether the completion block was called, and the requests made.
        The account is replaced by the current one, or cleared when there is none. */
    method SetCurrentAccount(lookup: AccountLookup) returns (completed: bool, requests: seq<SdkRequest>)
      requires Valid()
      modifies this
      ensures Valid()
      ensures client.None? ==> !completed && requests == [] && State() == old(State())
      ensures client.Some? ==> requests == [GetCurrentAccount]
      ensures client.Some? && lookup.LookupFails? ==> !completed && State() == old(State())
      ensures client.Some? && lookup.CurrentAccount? ==> completed && State() == old(State()).(account := Some(lookup.current))
      ensures client.Some? && lookup.NoCurrentAccount? ==> completed && State() == old(State()).(account := None)
    {
      if client.None? {
        return false, [];
      }
      requests := [GetCurrentAccount];
      match lookup
      case LookupFails(_) => completed := false;
      case CurrentAccount(a) =>
        account := Some(a);
        completed := true;
      case NoCurrentAccount =>
        account := None;
        completed := true;
    }

    method LoginInteractive(interactive: TokenCall) returns (outcome: CallOutcome, requests: seq<SdkRequest>)
      requires Valid()
      modifies this
      ensures Valid()
      ensures Step(State(), outcome, requests) == InteractiveLoginStep(old(State()), interactive)
    {
      requests := [];
      if hasOptions {
        if popupScopes.None? {
          return Trapped, [];
        }
        if client.None? {
          return NoOutcome, [];
        }
        requests := [AcquireToken(popupScopes.value, SelectAccount)];
        match interactive
        case TokenFails(_) => outcome := Rejected(InteractiveFailed);
        case NoToken => outcome := Rejected(NoResultReturned);
        case Token(result) =>
          authResults := Some(result);
          account := Some(result.account);
          authenticated := true;
          outcome := Resolved(Result(Project(result)));
      } else {
        outcome := Rejected(InteractiveOptionsMissing);
      }
    }

    method LoginSilently(current: MsalAccount, silent: TokenCall, interactive: TokenCall)
      returns (outcome: CallOutcome, requests: seq<SdkRequest>)
      requires Valid()
      modifies this
      ensures Valid()
      ensures Step(State(), outcome, requests) == SilentLoginStep(old(State()), current, silent, interactive)
    {
      if client.None? {
        return NoOutcome, [];
      }
      var scopes := if popupScopes.Some? then popupScopes.value else [];
      requests := [AcquireTokenSilent(scopes, Some(current), false)];
      match silent
      case TokenFails(e) =>
        if NeedsInteraction(e) {
          var more;
          outcome, more := LoginInteractive(interactive);
          requests := requests + more;
        } else {
          outcome := Rejected(SilentFailedPrefix + e.description);
        }
      case NoToken => outcome := Rejected(NoResultReturned);
      case Token(result) =>
        authResults := Some(result);
        account := Some(result.account);
        authenticated := true;
        outcome := Resolved(Result(Project(result)));
    }

    method Logout(signout: SignoutCall) returns (outcome: CallOutcome, requests: seq<SdkRequest>)
      requires Valid()
      modifies this
      ensures Valid()
      ensures Step(State(), outcome, requests) == LogoutStep(old(State()), signout)
    {
      if !hasOptions {
        return Rejected(LogoutOptionsMissing), [];
      }
      outcome, requests := LogoutInteractive(signout);
    }

    method LogoutInteractive(signout: SignoutCall) returns (outcome: CallOutcome, requests: seq<SdkRequest>)
      requires hasOptions
      requires Valid()
      modifies this
      ensures Valid()
      ensures Step(State(), outcome, requests) == LogoutStep(old(State()), signout)
    {
      if client.None? || account.None? {
        return Resolved(NoValue), [];
      }
      requests := [Signout(account.value, true)];
      match signout
      case SignoutFails(_) => outcome := Rejected(SignoutFailed);
      case SignedOut =>
        account := None;
        authResults := None;
        authenticated := false;
        outcome := Resolved(NoValue);
    }
  }
}
