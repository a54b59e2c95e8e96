/** The browser implementation of the plugin (`MsalPluginWeb`): a configuration gate in
    front of the browser SDK, and the normaliser that turns whatever the SDK throws into an
    `MsalError` by looking it up in the shared error table.

    Every SDK call is an input (`SdkCall`): what the awaited call returned, possibly
    `undefined`, or what it threw. A promise is a `Settlement`; as in JavaScript only its
    first settlement counts, and a method goes on running after rejecting. */
module WebPlugin {
  import opened Wrappers
  import opened MsalErrors
  import opened Definitions

  /** The value a catch block receives, as far as the normaliser reads it: its `errorCode`,
      `stack`, `message` and `name` properties, each possibly undefined. */
  datatype RawError = RawError(
    errorCode: Option<string>,
    stack: Option<string>,
    message: Option<string>,
    name: Option<string>)

  /** A value a promise is rejected with. */
  datatype Thrown =
    | MsalErr(error: MsalError)     // an object of the `MsalError` shape
    | TypeError(property: string)   // the TypeError of assigning `property` on undefined
    | AuthError(message: string)    // `new AuthError(message)` of the browser SDK
    | Undefined                     // `reject()`, or a missing table entry

  /** The state of a promise. */
  datatype Settlement<T> = Pending | Resolved(value: T) | Rejected(reason: Thrown)

  /** Resolving or rejecting a promise: only the first settlement takes effect. */
  function Settle<T>(p: Settlement<T>, q: Settlement<T>): (r: Settlement<T>)
    ensures p.Pending? ==> r == q
    ensures !p.Pending? ==> r == p
  {
    if p.Pending? then q else p
  }

  // ---- the normaliser ----

  /** `e` with `stack` and `errorDetails` overwritten by the raw error's `stack` and `message`
      where those are truthy. */
  function CopyFields(e: MsalError, error: RawError): MsalError {
    e.(stack := if Present(error.stack) then error.stack else e.stack,
       errorDetails := if Present(error.message) then error.message else e.errorDetails)
  }

  /** `getMsalError(error)` run against the shared table `table`: the table afterwards and the
      value returned. A known code hands back the table's own entry object, so the fields
      written into it stay in the table; an unknown code leaves `msalError` undefined, and
      writing `stack` or `errorDetails` on it throws a TypeError that the catch block returns. */
  function MsalErrorOf(table: map<string, MsalError>, error: RawError): (r: (map<string, MsalError>, Thrown))
    ensures r.1 != Undefined && !r.1.AuthError?
    ensures r.0.Keys == table.Keys
    ensures !Present(error.errorCode) ==>
      r.0 == table && r.1.MsalErr? &&
      r.1.error.errorCode == "" && r.1.error.errorMessage == Some("") && r.1.error.errorType.None? &&
      r.1.error.stack == (if Present(error.stack) then error.stack else None) &&
      r.1.error.errorDetails == (if Present(error.message) then error.message else None)
    ensures Present(error.errorCode) && error.errorCode.value in table ==>
      var entry := table[error.errorCode.value];
      r.1.MsalErr? && r.0 == table[error.errorCode.value := r.1.error] &&
      r.1.error.errorCode == entry.errorCode && r.1.error.errorType == entry.errorType &&
      r.1.error.errorMessage == entry.errorMessage &&
      r.1.error.stack == (if Present(error.stack) then error.stack else entry.stack) &&
      r.1.error.errorDetails == (if Present(error.message) then error.message else entry.errorDetails)
    ensures Present(error.errorCode) && error.errorCode.value !in table ==>
      r.0 == table &&
      (r.1.TypeError? <==> Present(error.stack) || Present(error.message)) &&
      (!r.1.TypeError? ==> r.1 == MsalErr(MsalError("unknown_error", error.name, error.message, None, error.stack)))
  {
    if !Present(error.errorCode) then
      (table, MsalErr(CopyFields(NewMsalError(), error)))
    else
      var code := error.errorCode.value;
      if code in table then
        var e := CopyFields(table[code], error);
        (table[code := e], MsalErr(e))
      else if Present(error.stack) then
        (table, TypeError("stack"))
      else if Present(error.message) then
        (table, TypeError("errorDetails"))
      else
        (table, MsalErr(MsalError("unknown_error", error.name, error.message, None, error.stack)))
  }

  /** Normalising the same error twice gives the same value and leaves the table as the first
      call left it. */
  lemma MsalErrorOfIdempotent(table: map<string, MsalError>, error: RawError)
    ensures MsalErrorOf(MsalErrorOf(table, error).0, error) == MsalErrorOf(table, error)
  {
    if Present(error.errorCode) && error.errorCode.value in table {
      var e := CopyFields(table[error.errorCode.value], error);
      assert CopyFields(e, error) == e;
      assert table[error.errorCode.value := e][error.errorCode.value := e] == table[error.errorCode.value := e];
    }
  }

  /** Because the entry is shared, a stack copied in by one call is still there when a later
      error with the same code and no stack of its own is normalised. */
  lemma StaleStackSurvives(table: map<string, MsalError>, first: RawError, second: RawError)
    requires first.errorCode == second.errorCode && Present(first.errorCode)
    requires first.errorCode.value in table
    requires Present(first.stack) && !Present(second.stack)
    ensures MsalErrorOf(MsalErrorOf(table, first).0, second).1 ==
      MsalErr(MsalErrorOf(MsalErrorOf(table, first).0, second).1.error.(stack := first.stack))
  {
  }

  /** Normalising an error with a code from the table never changes any other entry. */
  lemma MsalErrorOfTouchesOneEntry(table: map<string, MsalError>, error: RawError, other: string)
    requires other in table
    requires !Present(error.errorCode) || error.errorCode.value != other
    ensures other in MsalErrorOf(table, error).0 && MsalErrorOf(table, error).0[other] == table[other]
  {
  }

  /** `MsalErrorCollection['name']`: the entry object, or undefined. */
  function TableEntry(table: map<string, MsalError>, name: string): (r: Thrown)
    ensures r.MsalErr? <==> name in table
    ensures r.MsalErr? ==> r.error == table[name]
  {
    if name in table then MsalErr(table[name]) else Undefined
  }

  // ---- the plugin state and its operations ----

  /** The browser SDK's `PublicClientApplication`, known by the configuration it was built from. */
  datatype Client = PublicClientApplication(configuration: MsalConfigurations)

  /** Whether `new PublicClientApplication(...)` returned or threw. */
  datatype Construction = Constructed | ConstructionThrows(error: RawError)

  /** The browser SDK calls the plugin makes. */
  datatype SdkRequest =
    | AcquireTokenSilent(silentRequest: MsalSilentRequest)
    | AcquireTokenPopup(popupRequest: MsalInteractiveRequest)
    | GetAllAccounts
    | GetActiveAccount
    | GetAccountByUsername(username: string)
    | LoginPopup(loginRequest: MsalInteractiveRequest)
    | LogoutRedirect(endRequest: MsalEndSessionRequest)
    | LogoutPopup(endRequest: MsalEndSessionRequest)

  /** The outcome of one awaited SDK call: the value it returned (`None` for undefined or
      null) or the error it threw. */
  datatype SdkCall<T> = Returns(value: Option<T>) | Throws(error: RawError)

  /** The instance fields of the plugin together with the shared error table. */
  datatype WebState = WebState(client: Option<Client>, hasOptions: bool, table: map<string, MsalError>)

  /** The plugin has a client exactly when its options are set. */
  predicate ValidState(s: WebState) {
    s.hasOptions <==> s.client.Some?
  }

  /** One operation: the state after it, the settlement of its promise, and the SDK call it made. */
  datatype Step<T> = Step(state: WebState, settlement: Settlement<T>, request: Option<SdkRequest>)

  /** The error every operation rejects with before `initialize` has succeeded. */
  const OptionsMissingError: MsalError := MsalError(
    "options_missing", None,
    Some("Please ensure plugin has been initialized and options have been set before making any requests"),
    Some("Error was thrown due to missing options wihtin plugin"), None)

  /** The promise as left by the options check that opens every operation. */
  function Guard<T>(s: WebState): (p: Settlement<T>)
    ensures p.Pending? <==> s.hasOptions
    ensures !s.hasOptions ==> p == Rejected(MsalErr(OptionsMissingError))
  {
    if s.hasOptions then Pending else Rejected(MsalErr(OptionsMissingError))
  }

  /** What every guarded operation promises: without options it rejects with the
      `options_missing` error (and, with no client, calls nothing and changes nothing); it
      never touches `client`, `hasOptions` or the set of table keys. */
  predicate Guarded<T>(s: WebState, r: Step<T>) {
    && (!s.hasOptions ==> r.settlement == Rejected(MsalErr(OptionsMissingError)))
    && (ValidState(s) && !s.hasOptions ==> r.state == s && r.request.None?)
    && r.state.client == s.client && r.state.hasOptions == s.hasOptions
    && r.state.table.Keys == s.table.Keys
    && (s.client.None? ==> r.request.None?)
  }

  /** The catch block of an operation: the error normalised and the promise rejected with it. */
  function Caught<T>(s: WebState, p: Settlement<T>, request: SdkRequest, error: RawError): (r: Step<T>)
    ensures r.state == s.(table := MsalErrorOf(s.table, error).0)
    ensures r.settlement == Settle(p, Rejected(MsalErrorOf(s.table, error).1))
    ensures r.request == Some(request)
  {
    var (table, reason) := MsalErrorOf(s.table, error);
    Step(s.(table := table), Settle(p, Rejected(reason)), Some(request))
  }

  /** `initialize(options)`. */
  function InitializeStep(s: WebState, options: Option<MsalConfigurations>, construction: Construction): (r: Step<bool>)
    ensures ValidState(s) ==> ValidState(r.state)
    ensures r.request.None? && r.state.table.Keys == s.table.Keys
    ensures options.None? ==> r.state == s && r.settlement == Rejected(TableEntry(s.table, "invalid_options_set"))
    ensures options.Some? && options.value.guardForRerenders == Some(true) && s.hasOptions ==>
      r.state == s && r.settlement == Resolved(true)
    ensures options.Some? && !(options.value.guardForRerenders == Some(true) && s.hasOptions) ==>
      match construction
      case Constructed =>
        r.state == WebState(Some(PublicClientApplication(options.value)), true, s.table) &&
        r.settlement == Resolved(true)
      case ConstructionThrows(e) =>
        r.state == s.(table := MsalErrorOf(s.table, e).0) &&
        r.settlement == Rejected(MsalErrorOf(s.table, e).1)
  {
    match options
    case None => Step(s, Rejected(TableEntry(s.table, "invalid_options_set")), None)
    case Some(o) =>
      if o.guardForRerenders == Some(true) && s.hasOptions then Step(s, Resolved(true), None)
      else
        match construction
        case Constructed => Step(s.(client := Some(PublicClientApplication(o)), hasOptions := true), Resolved(true), None)
        case ConstructionThrows(e) =>
          var (table, reason) := MsalErrorOf(s.table, e);
          Step(s.(table := table), Rejected(reason), None)
  }

  /** With the re-render guard set, a second `initialize` after a successful one resolves
      true and changes nothing, whatever the client construction would do. */
  lemma GuardedInitializeIdempotent(s: WebState, o: MsalConfigurations, first: Construction, second: Construction)
    requires o.guardForRerenders == Some(true)
    requires InitializeStep(s, Some(o), first).settlement == Resolved(true)
    ensures var s1 := InitializeStep(s, Some(o), first).state;
      InitializeStep(s1, Some(o), second) == Step(s1, Resolved(true), None)
  {
  }

  /** Without the guard every successful `initialize` builds a new client from its options. */
  lemma UnguardedInitializeReplacesClient(s: WebState, o: MsalConfigurations)
    requires o.guardForRerenders != Some(true)
    ensures InitializeStep(s, Some(o), Constructed).state.client == Some(PublicClientApplication(o))
    ensures InitializeStep(s, Some(o), Constructed).state.hasOptions
  {
  }

  /** `acquireTokenSilently(request)`: a falsy response leaves the promise pending. */
  function AcquireTokenSilentlyStep(s: WebState, request: MsalSilentRequest, call: SdkCall<MsalAuthenticationResults>)
    : (r: Step<MsalAuthenticationResults>)
    ensures Guarded(s, r)
    ensures s.hasOptions && s.client.Some? ==>
      r.request == Some(AcquireTokenSilent(request)) &&
      match call
      case Returns(v) => r.state == s && r.settlement == (if v.Some? then Resolved(v.value) else Pending)
      case Throws(e) => r == Caught(s, Pending, AcquireTokenSilent(request), e)
  {
    var p := Guard(s);
    if s.client.None? then Step(s, p, None)
    else
      match call
      case Returns(v) => Step(s, if v.Some? then Settle(p, Resolved(v.value)) else p, Some(AcquireTokenSilent(request)))
      case Throws(e) => Caught(s, p, AcquireTokenSilent(request), e)
  }

  /** `acquireTokenInteractively(request)`: a falsy response rejects with undefined. */
  function AcquireTokenInteractivelyStep(s: WebState, request: MsalInteractiveRequest, call: SdkCall<MsalAuthenticationResults>)
    : (r: Step<MsalAuthenticationResults>)
    ensures Guarded(s, r)
    ensures s.hasOptions && s.client.Some? ==>
      r.request == Some(AcquireTokenPopup(request)) &&
      match call
      case Returns(v) => r.state == s && r.settlement == (if v.Some? then Resolved(v.value) else Rejected(Undefined))
      case Throws(e) => r == Caught(s, Pending, AcquireTokenPopup(request), e)
  {
    var p := Guard(s);
    if s.client.None? then Step(s, Settle(p, Rejected(Undefined)), None)
    else
      match call
      case Returns(v) =>
        Step(s, Settle(p, if v.Some? then Resolved(v.value) else Rejected(Undefined)), Some(AcquireTokenPopup(request)))
      case Throws(e) => Caught(s, p, AcquireTokenPopup(request), e)
  }

  /** `acquireAllAccounts()`: resolves with whatever the SDK returned, even undefined. */
  function AcquireAllAccountsStep(s: WebState, call: SdkCall<seq<MsalAccountInfo>>)
    : (r: Step<Option<seq<MsalAccountInfo>>>)
    ensures Guarded(s, r)
    ensures s.hasOptions && s.client.Some? ==>
      r.request == Some(GetAllAccounts) &&
      match call
      case Returns(v) => r.state == s && r.settlement == Resolved(v)
      case Throws(e) => r == Caught(s, Pending, GetAllAccounts, e)
  {
    var p := Guard(s);
    if s.client.None? then Step(s, Settle(p, Resolved(None)), None)
    else
      match call
      case Returns(v) => Step(s, Settle(p, Resolved(v)), Some(GetAllAccounts))
      case Throws(e) => Caught(s, p, GetAllAccounts, e)
  }

  /** `acquireCurrentAccount()`: resolves with the active account, possibly null. */
  function AcquireCurrentAccountStep(s: WebState, call: SdkCall<MsalAccountInfo>)
    : (r: Step<Option<MsalAccountInfo>>)
    ensures Guarded(s, r)
    ensures s.hasOptions && s.client.Some? ==>
      r.request == Some(GetActiveAccount) &&
      match call
      case Returns(v) => r.state == s && r.settlement == Resolved(v)
      case Throws(e) => r == Caught(s, Pending, GetActiveAccount, e)
  {
    var p := Guard(s);
    if s.client.None? then Step(s, Settle(p, Resolved(None)), None)
    else
      match call
      case Returns(v) => Step(s, Settle(p, Resolved(v)), Some(GetActiveAccount))
      case Throws(e) => Caught(s, p, GetActiveAccount, e)
  }

  /** `acquireAccountByUsername({username})`: no account found leaves the promise pending. */
  function AcquireAccountByUsernameStep(s: WebState, username: string, call: SdkCall<MsalAccountInfo>)
    : (r: Step<MsalAccountInfo>)
    ensures Guarded(s, r)
    ensures s.hasOptions && s.client.Some? ==>
      r.request == Some(GetAccountByUsername(username)) &&
      match call
      case Returns(v) => r.state == s && r.settlement == (if v.Some? then Resolved(v.value) else Pending)
      case Throws(e) => r == Caught(s, Pending, GetAccountByUsername(username), e)
  {
    var p := Guard(s);
    if s.client.None? then Step(s, p, None)
    else
      match call
      case Returns(v) => Step(s, if v.Some? then Settle(p, Resolved(v.value)) else p, Some(GetAccountByUsername(username)))
      case Throws(e) => Caught(s, p, GetAccountByUsername(username), e)
  }

  /** The message of the error `login` rejects with when the popup returns nothing. */
  const UnknownLoginError := "An unknown error has occured within Msal CAP Web Implementation"

  /** `login(request)`: a falsy response rejects with an `AuthError`. */
  function LoginStep(s: WebState, request: MsalInteractiveRequest, call: SdkCall<MsalAuthenticationResults>)
    : (r: Step<MsalAuthenticationResults>)
    ensures Guarded(s, r)
    ensures s.hasOptions && s.client.Some? ==>
      r.request == Some(LoginPopup(request)) &&
      match call
      case Returns(v) =>
        r.state == s && r.settlement == (if v.Some? then Resolved(v.value) else Rejected(AuthError(UnknownLoginError)))
      case Throws(e) => r == Caught(s, Pending, LoginPopup(request), e)
  {
    var p := Guard(s);
    if s.client.None? then Step(s, Settle(p, Rejected(AuthError(UnknownLoginError))), None)
    else
      match call
      case Returns(v) =>
        Step(s, Settle(p, if v.Some? then Resolved(v.value) else Rejected(AuthError(UnknownLoginError))), Some(LoginPopup(request)))
      case Throws(e) => Caught(s, p, LoginPopup(request), e)
  }

  /** The SDK call `logout` makes: a redirect when a post-logout redirect URI is given, a popup
      otherwise. */
  function LogoutRequest(request: MsalEndSessionRequest): (r: SdkRequest)
    ensures r.LogoutRedirect? || r.LogoutPopup?
    ensures r.LogoutRedirect? <==> Present(request.postLogoutRedirectUri)
    ensures r.endRequest == request
  {
    if Present(request.postLogoutRedirectUri) then LogoutRedirect(request) else LogoutPopup(request)
  }

  /** `logout(request)`: resolves true once the redirect or popup has returned. */
  function LogoutStep(s: WebState, request: MsalEndSessionRequest, call: SdkCall<()>): (r: Step<bool>)
    ensures Guarded(s, r)
    ensures s.hasOptions && s.client.Some? ==>
      r.request == Some(LogoutRequest(request)) &&
      match call
      case Returns(_) => r.state == s && r.settlement == Resolved(true)
      case Throws(e) => r == Caught(s, Pending, LogoutRequest(request), e)
  {
    var p := Guard(s);
    if s.client.None? then Step(s, Settle(p, Resolved(true)), None)
    else
      match call
      case Returns(_) => Step(s, Settle(p, Resolved(true)), Some(LogoutRequest(request)))
      case Throws(e) => Caught(s, p, LogoutRequest(request), e)
  }

  /** Before a successful `initialize`, every token, account, login and logout operation
      rejects with `options_missing` and leaves the plugin as it was. */
  lemma UnconfiguredPluginRejects(s: WebState, silent: MsalSilentRequest, popup: MsalInteractiveRequest,
                                  end: MsalEndSessionRequest, username: string,
                                  results: SdkCall<MsalAuthenticationResults>, accounts: SdkCall<seq<MsalAccountInfo>>,
                                  account: SdkCall<MsalAccountInfo>, done: SdkCall<()>)
    requires ValidState(s) && !s.hasOptions
    ensures AcquireTokenSilentlyStep(s, silent, results) == Step(s, Rejected(MsalErr(OptionsMissingError)), None)
    ensures AcquireTokenInteractivelyStep(s, popup, results) == Step(s, Rejected(MsalErr(OptionsMissingError)), None)
    ensures AcquireAllAccountsStep(s, accounts) == Step(s, Rejected(MsalErr(OptionsMissingError)), None)
    ensures AcquireCurrentAccountStep(s, account) == Step(s, Rejected(MsalErr(OptionsMissingError)), None)
    ensures AcquireAccountByUsernameStep(s, username, account) == Step(s, Rejected(MsalErr(OptionsMissingError)), None)
    ensures LoginStep(s, popup, results) == Step(s, Rejected(MsalErr(OptionsMissingError)), None)
    ensures LogoutStep(s, end, done) == Step(s, Rejected(MsalErr(OptionsMissingError)), None)
  {
  }

  // ---- the objects ----

  /** The module-level `MsalErrorCollection` object, whose entries the normaliser writes into. */
  class ErrorTable {
    var entries: map<string, MsalError>

    constructor()
      ensures entries == Collection()
    {
      entries := Collection();
    }
  }

  /** `MsalPluginWeb`. */
  class MsalPluginWeb {
    var client: Option<Client>
    var hasOptions: bool
    const optionsMissingError: MsalError
    const errors: ErrorTable

    function State(): WebState
      reads this, errors
    {
      WebState(client, hasOptions, errors.entries)
    }

    predicate Valid()
      reads this, errors
    {
      ValidState(State()) && optionsMissingError == OptionsMissingError
    }

    /** The constructor: no client, no options. */
    constructor(errors: ErrorTable)
      ensures Valid() && this.errors == errors
      ensures client.None? && !hasOptions
    {
      this.errors := errors;
      client := None;
      hasOptions := false;
      optionsMissingError := OptionsMissingError;
    }

    /** `getMsalError(error)`, writing `stack` and `errorDetails` into the entry it found. */
    method GetMsalError(error: RawError) returns (r: Thrown)
      modifies errors
      ensures (errors.entries, r) == MsalErrorOf(old(errors.entries), error)
    {
      var msalError: Option<MsalError> := Some(NewMsalError());
      var shared := false;
      if Present(error.errorCode) {
        if error.errorCode.value in errors.entries {
          msalError := Some(errors.entries[error.errorCode.value]);
          shared := true;
        } else {
          msalError := None;
        }
      }
      ghost var found := msalError;
      if Present(error.stack) {
        if msalError.None? {
          return TypeError("stack");
        }
        msalError := Some(msalError.value.(stack := error.stack));
        if shared {
          errors.entries := errors.entries[error.errorCode.value := msalError.value];
        }
      }
      if Present(error.message) {
        if msalError.None? {
          return TypeError("errorDetails");
        }
        msalError := Some(msalError.value.(errorDetails := error.message));
        if shared {
          errors.entries := errors.entries[error.errorCode.value := msalError.value];
        }
      }
      if msalError.Some? {
        assert msalError.value == CopyFields(found.value, error);
        assert shared ==> errors.entries == old(errors.entries)[error.errorCode.value := msalError.value];
        return MsalErr(msalError.value);
      }
      return MsalErr(MsalError("unknown_error", error.name, error.message, None, error.stack));
    }

    method Initialize(options: Option<MsalConfigurations>, construction: Construction) returns (settlement: Settlement<bool>)
      requires Valid()
      modifies this, errors
      ensures Valid()
      ensures Step(State(), settlement, None) == InitializeStep(old(State()), options, construction)
    {
      if options.Some? {
        if options.value.guardForRerenders == Some(true) && hasOptions {
          return Resolved(true);
        }
        if construction.ConstructionThrows? {
          var reason := GetMsalError(construction.error);
          return Rejected(reason);
        }
        client := Some(PublicClientApplication(options.value));
        hasOptions := true;
        settlement := Resolved(true);
      } else {
        settlement := Rejected(TableEntry(errors.entries, "invalid_options_set"));
      }
    }

    method IsBiometricsAvailable() returns (settlement: Settlement<bool>)
      ensures settlement == Resolved(false)
    {
      settlement := Resolved(false);
    }

    method CanEvaluateBiometricsPolicy() returns (settlement: Settlement<bool>)
      ensures settlement == Resolved(false)
    {
      settlement := Resolved(false);
    }

    method EvaluateBiometricsPolicy() returns (settlement: Settlement<bool>)
      ensures settlement == Resolved(false)
    {
      settlement := Resolved(false);
    }

    method AcquireTokenSilently(request: MsalSilentRequest, call: SdkCall<MsalAuthenticationResults>)
      returns (settlement: Settlement<MsalAuthenticationResults>, invoked: Option<SdkRequest>)
      requires Valid()
      modifies errors
      ensures Valid()
      ensures Step(State(), settlement, invoked) == AcquireTokenSilentlyStep(old(State()), request, call)
    {
      settlement := Pending;
      if !hasOptions {
        settlement := Settle(settlement, Rejected(MsalErr(optionsMissingError)));
      }
      invoked := None;
      if client.Some? {
        invoked := Some(AcquireTokenSilent(request));
        match call
        case Returns(v) =>
          if v.Some? {
            settlement := Settle(settlement, Resolved(v.value));
          }
        case Throws(e) =>
          var reason := GetMsalError(e);
          settlement := Settle(settlement, Rejected(reason));
      }
    }

    method AcquireTokenInteractively(request: MsalInteractiveRequest, call: SdkCall<MsalAuthenticationResults>)
      returns (settlement: Settlement<MsalAuthenticationResults>, invoked: Option<SdkRequest>)
      requires Valid()
      modifies errors
      ensures Valid()
      ensures Step(State(), settlement, invoked) == AcquireTokenInteractivelyStep(old(State()), request, call)
    {
      settlement := Pending;
      if !hasOptions {
        settlement := Settle(settlement, Rejected(MsalErr(optionsMissingError)));
      }
      invoked := None;
      var response: SdkCall<MsalAuthenticationResults> := Returns(None);
      if client.Some? {
        invoked := Some(AcquireTokenPopup(request));
        response := call;
      }
      match response
      case Returns(v) =>
        if v.Some? {
          settlement := Settle(settlement, Resolved(v.value));
        } else {
          settlement := Settle(settlement, Rejected(Undefined));
        }
      case Throws(e) =>
        var reason := GetMsalError(e);
        settlement := Settle(settlement, Rejected(reason));
    }

    method AcquireAllAccounts(call: SdkCall<seq<MsalAccountInfo>>)
      returns (settlement: Settlement<Option<seq<MsalAccountInfo>>>, invoked: Option<SdkRequest>)
      requires Valid()
      modifies errors
      ensures Valid()
      ensures Step(State(), settlement, invoked) == AcquireAllAccountsStep(old(State()), call)
    {
      settlement := Pending;
      if !hasOptions {
        settlement := Settle(settlement, Rejected(MsalErr(optionsMissingError)));
      }
      invoked := None;
      var response: SdkCall<seq<MsalAccountInfo>> := Returns(None);
      if client.Some? {
        invoked := Some(GetAllAccounts);
        response := call;
      }
      match response
      case Returns(v) =>
        settlement := Settle(settlement, Resolved(v));
      case Throws(e) =>
        var reason := GetMsalError(e);
        settlement := Settle(settlement, Rejected(reason));
    }

    method AcquireCurrentAccount(call: SdkCall<MsalAccountInfo>)
      returns (settlement: Settlement<Option<MsalAccountInfo>>, invoked: Option<SdkRequest>)
      requires Valid()
      modifies errors
      ensures Valid()
      ensures Step(State(), settlement, invoked) == AcquireCurrentAccountStep(old(State()), call)
    {
      settlement := Pending;
      if !hasOptions {
        settlement := Settle(settlement, Rejected(MsalErr(optionsMissingError)));
      }
      invoked := None;
      var response: SdkCall<MsalAccountInfo> := Returns(None);
      if client.Some? {
        invoked := Some(GetActiveAccount);
        response := call;
      }
      match response
      case Returns(v) =>
        settlement := Settle(settlement, Resolved(v));
      case Throws(e) =>
        var reason := GetMsalError(e);
        settlement := Settle(settlement, Rejected(reason));
    }

    method AcquireAccountByUsername(username: string, call: SdkCall<MsalAccountInfo>)
      returns (settlement: Settlement<MsalAccountInfo>, invoked: Option<SdkRequest>)
      requires Valid()
      modifies errors
      ensures Valid()
      ensures Step(State(), settlement, invoked) == AcquireAccountByUsernameStep(old(State()), username, call)
    {
      settlement := Pending;
      if !hasOptions {
        settlement := Settle(settlement, Rejected(MsalErr(optionsMissingError)));
      }
      invoked := None;
      if client.Some? {
        invoked := Some(GetAccountByUsername(username));
        match call
        case Returns(v) =>
          if v.Some? {
            settlement := Settle(settlement, Resolved(v.value));
          }
        case Throws(e) =>
          var reason := GetMsalError(e);
          settlement := Settle(settlement, Rejected(reason));
      }
    }

    method Login(request: MsalInteractiveRequest, call: SdkCall<MsalAuthenticationResults>)
      returns (settlement: Settlement<MsalAuthenticationResults>, invoked: Option<SdkRequest>)
      requires Valid()
      modifies errors
      ensures Valid()
      ensures Step(State(), settlement, invoked) == LoginStep(old(State()), request, call)
    {
      settlement := Pending;
      if !hasOptions {
        settlement := Settle(settlement, Rejected(MsalErr(optionsMissingError)));
      }
      invoked := None;
      var response: SdkCall<MsalAuthenticationResults> := Returns(None);
      if client.Some? {
        invoked := Some(LoginPopup(request));
        response := call;
      }
      match response
      case Returns(v) =>
        if v.Some? {
          settlement := Settle(settlement, Resolved(v.value));
        } else {
          settlement := Settle(settlement, Rejected(AuthError(UnknownLoginError)));
        }
      case Throws(e) =>
        var reason := GetMsalError(e);
        settlement := Settle(settlement, Rejected(reason));
    }

    method Logout(request: MsalEndSessionRequest, call: SdkCall<()>)
      returns (settlement: Settlement<bool>, invoked: Option<SdkRequest>)
      requires Valid()
      modifies errors
      ensures Valid()
      ensures Step(State(), settlement, invoked) == LogoutStep(old(State()), request, call)
    {
      settlement := Pending;
      if !hasOptions {
        settlement := Settle(settlement, Rejected(MsalErr(optionsMissingError)));
      }
      invoked := None;
      var response: SdkCall<()> := Returns(None);
      if client.Some? {
        invoked := Some(LogoutRequest(request));
        response := call;
      }
      match response
      case Returns(_) =>
        settlement := Settle(settlement, Resolved(true));
      case Throws(e) =>
        var reason := GetMsalError(e);
        settlement := Settle(settlement, Rejected(reason));
    }
  }
}
