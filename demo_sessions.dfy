/** The demo application's `startAuthenticatedSession` and `endAuthenticatedSession`: they read
    the store, call the plugin through the bridge, adjust the shared interactive request object
    and dispatch store updates.

    Every plugin call's reply is an input: the `results` it resolved with, or what it threw.
    The platform check `isPlatform('capacitor')` is a parameter. */
module DemoSessions {
  import opened Wrappers
  import opened Definitions
  import MsalErrors
  import opened DemoStore

  // ---- replies and plugin calls ----

  /** What a rejected plugin call or the demo itself throws: an `MsalError` object, a plain
      `Error` with a message, or anything else. */
  datatype Thrown = ThrownMsalError(error: MsalErrors.MsalError) | ThrownError(message: string) | ThrownOther

  /** How an awaited plugin call ends: its `results`, or a rejection. */
  datatype Reply<T> = Returns(results: T) | Throws(error: Thrown)

  /** The replies of the plugin calls of one `startAuthenticatedSession`. */
  datatype SessionReplies = SessionReplies(
    initialize: Reply<bool>,
    biometricsAvailable: Reply<bool>,
    canEvaluateBiometrics: Reply<bool>,
    accounts: Reply<Option<seq<MsalAccountInfo>>>,
    biometricsStatus: Reply<bool>,
    login: Reply<Option<MsalAuthenticationResults>>,
    interactive: Reply<Option<MsalAuthenticationResults>>)

  /** The plugin calls the demo makes, with what it passes. */
  datatype PluginCall =
    | Initialize(options: MsalConfigurations)
    | IsBiometricsAvailable
    | CanEvaluateBiometricsPolicy
    | AcquireAllAccounts
    | EvaluateBiometricsPolicy
    | LoginCall(request: MsalInteractiveRequest)
    | AcquireTokenInteractively(request: MsalInteractiveRequest)
    | LogoutCall(account: Value, postLogoutRedirectUri: string, removeAccountFromCache: bool)

  /** How a session function ends: it returns, or it throws. */
  datatype SessionOutcome = Completed | Raised(error: Thrown)

  /** How many `acquireTokenInteractively` calls a list of calls holds. */
  function InteractiveCalls(calls: seq<PluginCall>): (n: nat)
    ensures n <= |calls|
    ensures n == 0 <==> forall i :: 0 <= i < |calls| ==> !calls[i].AcquireTokenInteractively?
  {
    if calls == [] then 0
    else (if calls[0].AcquireTokenInteractively? then 1 else 0) + InteractiveCalls(calls[1..])
  }

  // ---- the module-level configuration ----

  /** `redirectUri()`. */
  function RedirectUri(isCapacitor: bool): (r: string)
    ensures r != ""
  {
    if isCapacitor then "msauth.{Your iOS return url}://auth" else "http://localhost:3000"
  }

  const Authority := "https://login.microsoftonline.com/{tenant id}"

  /** `initializationOptions`, with the fields the plugin records kept. */
  function InitializationOptions(isCapacitor: bool): (o: MsalConfigurations)
    ensures o.redirectUri == Some(RedirectUri(isCapacitor)) && o.authority == Some(Authority)
    ensures o.guardForRerenders == Some(true)
  {
    MsalConfigurations("Your Application Client ID", Some(Authority), Some(RedirectUri(isCapacitor)), None, Some(true))
  }

  /** The first value of `loginInteractiveRequest`: `promptIfNecessary` on a device, `none`
      in the browser, no account. */
  function InitialLoginRequest(isCapacitor: bool): (r: MsalInteractiveRequest)
    ensures r.prompt == Some(if isCapacitor then PromptIfNecessary else NoPrompt)
    ensures r.account.None? && r.promptView == Some(WkWebView)
  {
    MsalInteractiveRequest(["user.read"], None, Some(["usually scopes for downstream apis"]),
      Some(if isCapacitor then PromptIfNecessary else NoPrompt), Some(WkWebView))
  }

  // ---- the steps of startAuthenticatedSession ----

  /** Step 1: the cached accounts choose the request. More than one account asks the user
      to pick; a list of at most one pins its first entry as the account (`undefined` when the
      list is empty) and leaves the prompt alone; no list forces a fresh login. */
  function ChooseRequest(req: MsalInteractiveRequest, accounts: Option<seq<MsalAccountInfo>>): (r: MsalInteractiveRequest)
    ensures accounts.Some? && |accounts.value| > 1 ==> r == req.(prompt := Some(SelectAccount))
    ensures accounts.Some? && |accounts.value| == 1 ==> r == req.(account := Some(accounts.value[0]))
    ensures accounts.Some? && |accounts.value| == 0 ==> r == req.(account := None)
    ensures accounts.None? ==> r == req.(prompt := Some(Login))
    ensures r.scopes == req.scopes && r.extraScopesToConsent == req.extraScopesToConsent && r.promptView == req.promptView
  {
    if accounts.Some? && |accounts.value| > 1 then req.(prompt := Some(SelectAccount))
    else if accounts.Some? then req.(account := if |accounts.value| > 0 then Some(accounts.value[0]) else None)
    else req.(prompt := Some(Login))
  }

  /** `accounts?.length ?? 0`. */
  function AccountCount(accounts: Option<seq<MsalAccountInfo>>): (n: nat)
    ensures accounts.None? ==> n == 0
    ensures accounts.Some? ==> n == |accounts.value|
  {
    if accounts.Some? then |accounts.value| else 0
  }

  /** Step 2: on a device with exactly one cached account, a biometric check that could run
      but did not pass forces a fresh login. */
  function BiometricOverride(req: MsalInteractiveRequest, probed: bool, status: bool, isCapacitor: bool,
                             accounts: Option<seq<MsalAccountInfo>>): (r: MsalInteractiveRequest)
    ensures probed && !status && isCapacitor && AccountCount(accounts) == 1 ==> r == req.(prompt := Some(Login))
    ensures !(probed && !status && isCapacitor && AccountCount(accounts) == 1) ==> r == req
  {
    if probed && !status && isCapacitor && AccountCount(accounts) == 1 then req.(prompt := Some(Login)) else req
  }

  /** `(error as MsalError)?.errorCode === 'interaction_required'`. */
  predicate IsInteractionRequired(e: Thrown) {
    e.ThrownMsalError? && e.error.errorCode == "interaction_required"
  }

  /** The outcome of the login step: the results, or what was thrown; the calls made; the
      request object afterwards. */
  datatype LoginRun = LoginRun(
    results: Reply<Option<MsalAuthenticationResults>>,
    calls: seq<PluginCall>,
    request: MsalInteractiveRequest)

  /** Step 3: `login` with the request; an interaction-required failure switches the prompt to
      `login` and makes one `acquireTokenInteractively` call; any other failure is thrown on. */
  function LoginPhase(req: MsalInteractiveRequest, login: Reply<Option<MsalAuthenticationResults>>,
                      interactive: Reply<Option<MsalAuthenticationResults>>): (r: LoginRun)
    ensures |r.calls| >= 1 && r.calls[0] == LoginCall(req)
    ensures InteractiveCalls(r.calls) == (if login.Throws? && IsInteractionRequired(login.error) then 1 else 0)
    ensures login.Throws? && IsInteractionRequired(login.error) ==>
      r.request == req.(prompt := Some(Login)) &&
      r.calls == [LoginCall(req), AcquireTokenInteractively(req.(prompt := Some(Login)))] &&
      r.results == interactive
    ensures !(login.Throws? && IsInteractionRequired(login.error)) ==>
      r == LoginRun(login, [LoginCall(req)], req)
  {
    if login.Throws? && IsInteractionRequired(login.error) then
      var retry := req.(prompt := Some(Login));
      assert [LoginCall(req), AcquireTokenInteractively(retry)][1..] == [AcquireTokenInteractively(retry)];
      LoginRun(interactive, [LoginCall(req), AcquireTokenInteractively(retry)], retry)
    else
      LoginRun(login, [LoginCall(req)], req)
  }

  /** `Object.entries(claims).find(key => key[0] === name)?.[1]`: the value of the first entry
      with that name. */
  function FindClaim(claims: Claims, name: string): (r: Option<ClaimValue>)
    ensures r.None? <==> forall i :: 0 <= i < |claims| ==> claims[i].0 != name
    ensures r.Some? ==> exists i :: 0 <= i < |claims| && claims[i] == (name, r.value) &&
                                    forall j :: 0 <= j < i ==> claims[j].0 != name
  {
    if claims == [] then None
    else if claims[0].0 == name then Some(claims[0].1)
    else
      var rest := FindClaim(claims[1..], name);
      if rest.Some? then
        ghost var i :| 0 <= i < |claims[1..]| && claims[1..][i] == (name, rest.value) &&
                       forall j :: 0 <= j < i ==> claims[1..][j].0 != name;
        assert claims[i + 1] == (name, rest.value);
        assert forall j :: 0 <= j < i + 1 ==> claims[j].0 != name by {
          forall j | 0 <= j < i + 1 ensures claims[j].0 != name {
            if j > 0 { assert claims[j] == claims[1..][j - 1]; }
          }
        }
        rest
      else
        assert forall i :: 1 <= i < |claims| ==> claims[i] == claims[1..][i - 1];
        None
  }

  /** A claim value as the JavaScript value dispatched into the store. */
  function ClaimAsValue(c: Option<ClaimValue>): (v: Value)
    ensures c.None? <==> v == Undefined
    ensures c.Some? && c.value.ClaimList? ==> v == Strings(c.value.items)
  {
    match c
    case None => Undefined
    case Some(ClaimText(t)) => Text(t)
    case Some(ClaimList(items)) => Strings(items)
    case Some(ClaimOther) => OtherValue
  }

  /** `results && results.account && results.account.idTokenClaims`. */
  predicate SignInComplete(results: Option<MsalAuthenticationResults>) {
    results.Some? && results.value.account.Some? && results.value.account.value.idTokenClaims.Some?
  }

  /** Step 4: with a full sign-in result, dispatch its roles claim, its account, the result and
      status true; otherwise dispatch nothing. */
  function RecordSignIn(s: SecurityResultsValue, results: Option<MsalAuthenticationResults>): (r: SecurityResultsValue)
    ensures !SignInComplete(results) ==> r == s
    ensures SignInComplete(results) ==>
      var account := results.value.account.value;
      r == SecurityResultsValue(Bool(true), Results(results.value), Account(account),
                                ClaimAsValue(FindClaim(account.idTokenClaims.value, "roles")),
                                s.authenticationError)
  {
    if SignInComplete(results) then
      var account := results.value.account.value;
      var roles := ClaimAsValue(FindClaim(account.idTokenClaims.value, "roles"));
      Reduce(Reduce(Reduce(Reduce(s, SetAuthenticationRoles(roles)), SetAuthenticationAccount(account)),
                    SetAuthenticationResults(results.value)), SetAuthenticationStatus(true))
    else s
  }

  /** One run of a session function: its outcome, the plugin calls made, the store state and
      the shared request object afterwards. */
  datatype SessionRun = SessionRun(
    outcome: SessionOutcome,
    calls: seq<PluginCall>,
    store: SecurityResultsValue,
    request: MsalInteractiveRequest)

  /** The calls up to and including `acquireAllAccounts`. */
  function ProbeCalls(isCapacitor: bool): seq<PluginCall> {
    [Initialize(InitializationOptions(isCapacitor)), IsBiometricsAvailable, CanEvaluateBiometricsPolicy, AcquireAllAccounts]
  }

  /** The steps after the account list has arrived. */
  function AfterAccounts(s: SecurityResultsValue, req: MsalInteractiveRequest, isCapacitor: bool,
                         replies: SessionReplies, accounts: Option<seq<MsalAccountInfo>>): (r: SessionRun)
    requires replies.biometricsAvailable.Returns? && replies.canEvaluateBiometrics.Returns?
    ensures var probed := replies.biometricsAvailable.results && replies.canEvaluateBiometrics.results;
      (EvaluateBiometricsPolicy in r.calls <==> probed) &&
      (probed && replies.biometricsStatus.Throws? ==>
        r == SessionRun(Raised(replies.biometricsStatus.error), [EvaluateBiometricsPolicy], s, ChooseRequest(req, accounts)))
    ensures r.outcome.Raised? ==> r.store == s
    ensures r.outcome.Completed? ==> exists res :: r.store == RecordSignIn(s, res)
  {
    var chosen := ChooseRequest(req, accounts);
    var probed := replies.biometricsAvailable.results && replies.canEvaluateBiometrics.results;
    var evaluated := if probed then [EvaluateBiometricsPolicy] else [];
    if probed && replies.biometricsStatus.Throws? then
      SessionRun(Raised(replies.biometricsStatus.error), evaluated, s, chosen)
    else
      var status := probed && replies.biometricsStatus.results;
      var l := LoginPhase(BiometricOverride(chosen, probed, status, isCapacitor, accounts), replies.login, replies.interactive);
      assert forall i :: 0 <= i < |l.calls| ==> l.calls[i].LoginCall? || l.calls[i].AcquireTokenInteractively?;
      assert EvaluateBiometricsPolicy !in l.calls;
      match l.results
      case Throws(e) => SessionRun(Raised(e), evaluated + l.calls, s, l.request)
      case Returns(res) => SessionRun(Completed, evaluated + l.calls, RecordSignIn(s, res), l.request)
  }

  /** `startAuthenticatedSession`. A signed-in store ends it at once; a falsy `initialize`
      result ends it quietly; a rejected call throws out of it. */
  function StartSession(s: SecurityResultsValue, req: MsalInteractiveRequest, isCapacitor: bool, replies: SessionReplies): (r: SessionRun)
    ensures Truthy(s.isAuthenticated) ==> r == SessionRun(Completed, [], s, req)
    ensures !Truthy(s.isAuthenticated) ==> |r.calls| >= 1 && r.calls[0] == Initialize(InitializationOptions(isCapacitor))
    ensures r.outcome.Raised? ==> r.store == s
    ensures r.store != s ==> r.outcome.Completed? && exists res :: SignInComplete(res) && r.store == RecordSignIn(s, res)
  {
    if Truthy(s.isAuthenticated) then SessionRun(Completed, [], s, req)
    else
      var calls := ProbeCalls(isCapacitor);
      match replies.initialize
      case Throws(e) => SessionRun(Raised(e), calls[..1], s, req)
      case Returns(ok) =>
        if !ok then SessionRun(Completed, calls[..1], s, req)
        else if replies.biometricsAvailable.Throws? then SessionRun(Raised(replies.biometricsAvailable.error), calls[..2], s, req)
        else if replies.canEvaluateBiometrics.Throws? then SessionRun(Raised(replies.canEvaluateBiometrics.error), calls[..3], s, req)
        else if replies.accounts.Throws? then SessionRun(Raised(replies.accounts.error), calls, s, req)
        else
          var k := AfterAccounts(s, req, isCapacitor, replies, replies.accounts.results);
          SessionRun(k.outcome, calls + k.calls, k.store, k.request)
  }

  /** The end-session request arguments. */
  const MissingAccountMessage := "Account is missing from Redux Store. Please make sure the user is logged in."
  const LogoutFailedMessage := "Unable to logout"

  /** `endAuthenticatedSession`: without a (truthy) account in the store it throws before any
      call; a falsy logout result throws; a truthy one signs the store out. */
  function EndSession(s: SecurityResultsValue, req: MsalInteractiveRequest, isCapacitor: bool, logout: Reply<bool>): (r: SessionRun)
    ensures r.request == req
    ensures !Truthy(s.authenticationAccount) ==> r.calls == [] && r.store == s && r.outcome == Raised(ThrownError(MissingAccountMessage))
    ensures Truthy(s.authenticationAccount) ==> r.calls == [LogoutCall(s.authenticationAccount, RedirectUri(isCapacitor), true)]
    ensures Truthy(s.authenticationAccount) && logout == Returns(false) ==>
      r.store == s && r.outcome == Raised(ThrownError(LogoutFailedMessage))
    ensures Truthy(s.authenticationAccount) && logout == Returns(true) ==>
      r.outcome == Completed &&
      r.store == s.(isAuthenticated := Bool(false), authenticationRoles := Strings([]),
                    authenticationAccount := Undefined, authenticationResults := Undefined)
    ensures logout.Throws? ==> r.store == s && r.outcome.Raised?
  {
    if !Truthy(s.authenticationAccount) then SessionRun(Raised(ThrownError(MissingAccountMessage)), [], s, req)
    else
      var calls := [LogoutCall(s.authenticationAccount, RedirectUri(isCapacitor), true)];
      match logout
      case Throws(e) => SessionRun(Raised(e), calls, s, req)
      case Returns(ok) =>
        if !ok then SessionRun(Raised(ThrownError(LogoutFailedMessage)), calls, s, req)
        else
          var t := Reduce(Reduce(Reduce(Reduce(s, SetAuthenticationStatus(false)), SetAuthenticationRoles(Strings([]))),
                                 RemoveAuthenticationAccount()), RemoveAuthenticationResults());
          SessionRun(Completed, calls, t, req)
  }

  // ---- across runs ----

  /** A session run on a signed-in store makes no plugin call and changes nothing. */
  lemma SignedInSessionIsQuiet(s: SecurityResultsValue, req: MsalInteractiveRequest, isCapacitor: bool, replies: SessionReplies)
    requires Truthy(s.isAuthenticated)
    ensures StartSession(s, req, isCapacitor, replies).calls == []
    ensures StartSession(s, req, isCapacitor, replies).store == s
  {
  }

  /** A session that signs the store in leaves it where a second session makes no call. */
  lemma SignInMakesNextSessionQuiet(s: SecurityResultsValue, res: Option<MsalAuthenticationResults>,
                                    req: MsalInteractiveRequest, isCapacitor: bool, replies: SessionReplies)
    requires SignInComplete(res)
    ensures StartSession(RecordSignIn(s, res), req, isCapacitor, replies).calls == []
  {
  }

  /** Ending a signed-in session leaves a store in which a second end-session throws before
      calling the plugin, and a new start-session goes back to the plugin. */
  lemma EndThenEndThrows(s: SecurityResultsValue, isCapacitor: bool, again: Reply<bool>, req: MsalInteractiveRequest, replies: SessionReplies)
    requires Truthy(s.authenticationAccount)
    ensures var e := EndSession(s, req, isCapacitor, Returns(true));
      EndSession(e.store, e.request, isCapacitor, again).calls == [] &&
      EndSession(e.store, e.request, isCapacitor, again).outcome.Raised? &&
      StartSession(e.store, e.request, isCapacitor, replies).calls != []
  {
  }

  /** The request object is shared between runs: a run without cached accounts leaves the
      prompt at `login`, and the next run on a device with one cached account and no biometric
      override still logs in with that prompt instead of the original one. */
  lemma PromptPersistsAcrossSessions(s: SecurityResultsValue, first: SessionReplies, second: SessionReplies,
                                     acc: MsalAccountInfo)
    requires !Truthy(s.isAuthenticated)
    requires first.initialize == Returns(true) && first.biometricsAvailable.Returns? &&
             first.canEvaluateBiometrics.Returns? && first.accounts == Returns(None) &&
             (first.biometricsAvailable.results && first.canEvaluateBiometrics.results ==> first.biometricsStatus.Returns?)
    requires second.initialize == Returns(true) && second.biometricsAvailable == Returns(false) &&
             second.canEvaluateBiometrics.Returns? && second.accounts == Returns(Some([acc]))
    ensures var r1 := StartSession(s, InitialLoginRequest(true), true, first);
      r1.request.prompt == Some(Login) &&
      (!Truthy(r1.store.isAuthenticated) ==>
        LoginCall(r1.request.(account := Some(acc))) in StartSession(r1.store, r1.request, true, second).calls)
  {
    var r1 := StartSession(s, InitialLoginRequest(true), true, first);
    var k1 := AfterAccounts(s, InitialLoginRequest(true), true, first, None);
    assert r1.request == k1.request;
    if !Truthy(r1.store.isAuthenticated) {
      var k2 := AfterAccounts(r1.store, r1.request, true, second, Some([acc]));
      assert k2.calls[0] == LoginCall(r1.request.(account := Some(acc)));
      assert StartSession(r1.store, r1.request, true, second).calls == ProbeCalls(true) + k2.calls;
      assert StartSession(r1.store, r1.request, true, second).calls[4] == k2.calls[0];
    }
  }

  // ---- the objects ----

  /** The module-level `loginInteractiveRequest`, which every run aliases and changes. */
  class InteractiveRequest {
    var scopes: seq<string>
    var account: Option<MsalAccountInfo>
    var extraScopesToConsent: Option<seq<string>>
    var prompt: Option<Prompt>
    var promptView: Option<PromptView>

    function Value(): MsalInteractiveRequest
      reads this
    {
      MsalInteractiveRequest(scopes, account, extraScopesToConsent, prompt, promptView)
    }

    constructor LoginInteractiveRequest(isCapacitor: bool)
      ensures Value() == InitialLoginRequest(isCapacitor)
    {
      scopes := ["user.read"];
      account := None;
      extraScopesToConsent := Some(["usually scopes for downstream apis"]);
      prompt := Some(if isCapacitor then PromptIfNecessary else NoPrompt);
      promptView := Some(WkWebView);
    }
  }

  /** `Store.dispatch(action)` on the demo's single reducer. */
  method Dispatch(store: SecurityResults, action: Action)
    modifies store
    ensures store.Fields() == Reduce(old(store.Fields()), action)
  {
    var _ := SecurityInfoReducer(store, store, action);
  }

  method StartAuthenticatedSession(store: SecurityResults, interactiveRequest: InteractiveRequest,
                                   isCapacitor: bool, replies: SessionReplies)
    returns (outcome: SessionOutcome, calls: seq<PluginCall>)
    modifies store, interactiveRequest
    ensures SessionRun(outcome, calls, store.Fields(), interactiveRequest.Value()) ==
            StartSession(old(store.Fields()), old(interactiveRequest.Value()), isCapacitor, replies)
  {
    if Truthy(store.isAuthenticated) {
      return Completed, [];
    }
    calls := [Initialize(InitializationOptions(isCapacitor))];
    if replies.initialize.Throws? {
      return Raised(replies.initialize.error), calls;
    }
    if !replies.initialize.results {
      return Completed, calls;
    }
    calls := calls + [IsBiometricsAvailable];
    if replies.biometricsAvailable.Throws? {
      return Raised(replies.biometricsAvailable.error), calls;
    }
    calls := calls + [CanEvaluateBiometricsPolicy];
    if replies.canEvaluateBiometrics.Throws? {
      return Raised(replies.canEvaluateBiometrics.error), calls;
    }
    calls := calls + [AcquireAllAccounts];
    if replies.accounts.Throws? {
      return Raised(replies.accounts.error), calls;
    }
    var accounts := replies.accounts.results;
    assert calls == ProbeCalls(isCapacitor);
    var more;
    outcome, more := SignInWithAccounts(store, interactiveRequest, isCapacitor, replies, accounts);
    calls := calls + more;
  }

  /** The part of `startAuthenticatedSession` after the account list has arrived. */
  method SignInWithAccounts(store: SecurityResults, interactiveRequest: InteractiveRequest, isCapacitor: bool,
                            replies: SessionReplies, accounts: Option<seq<MsalAccountInfo>>)
    returns (outcome: SessionOutcome, calls: seq<PluginCall>)
    requires replies.biometricsAvailable.Returns? && replies.canEvaluateBiometrics.Returns?
    modifies store, interactiveRequest
    ensures SessionRun(outcome, calls, store.Fields(), interactiveRequest.Value()) ==
            AfterAccounts(old(store.Fields()), old(interactiveRequest.Value()), isCapacitor, replies, accounts)
  {
    var biometricsAvailable := replies.biometricsAvailable.results;
    var biometricsCanEvaluate := replies.canEvaluateBiometrics.results;
    var biometricsStatus := false;
    ChooseAccountOrPrompt(interactiveRequest, accounts);

    calls := [];
    if biometricsAvailable && biometricsCanEvaluate {
      calls := [EvaluateBiometricsPolicy];
      if replies.biometricsStatus.Throws? {
        return Raised(replies.biometricsStatus.error), calls;
      }
      biometricsStatus := replies.biometricsStatus.results;
    }

    if biometricsAvailable && biometricsCanEvaluate && !biometricsStatus && isCapacitor && AccountCount(accounts) == 1 {
      interactiveRequest.prompt := Some(Login);
    }

    var results, more := LoginWithRetry(interactiveRequest, replies.login, replies.interactive);
    calls := calls + more;
    if results.Throws? {
      return Raised(results.error), calls;
    }
    RecordSignInIn(store, results.results);
    outcome := Completed;
  }

  /** Step 1 on the shared request object. */
  method ChooseAccountOrPrompt(interactiveRequest: InteractiveRequest, accounts: Option<seq<MsalAccountInfo>>)
    modifies interactiveRequest
    ensures interactiveRequest.Value() == ChooseRequest(old(interactiveRequest.Value()), accounts)
  {
    if accounts.Some? && |accounts.value| > 1 {
      interactiveRequest.prompt := Some(SelectAccount);
    } else if accounts.Some? {
      interactiveRequest.account := if |accounts.value| > 0 then Some(accounts.value[0]) else None;
    } else {
      interactiveRequest.prompt := Some(Login);
    }
  }

  /** Step 3 on the shared request object: the results, or what was thrown. */
  method LoginWithRetry(interactiveRequest: InteractiveRequest, login: Reply<Option<MsalAuthenticationResults>>,
                        interactive: Reply<Option<MsalAuthenticationResults>>)
    returns (results: Reply<Option<MsalAuthenticationResults>>, calls: seq<PluginCall>)
    modifies interactiveRequest
    ensures LoginRun(results, calls, interactiveRequest.Value()) == LoginPhase(old(interactiveRequest.Value()), login, interactive)
  {
    var interactionNeeded := false;
    calls := [LoginCall(interactiveRequest.Value())];
    results := login;
    if login.Throws? {
      if IsInteractionRequired(login.error) {
        interactiveRequest.prompt := Some(Login);
        interactionNeeded := true;
      } else {
        return;
      }
    }
    if interactionNeeded {
      calls := calls + [AcquireTokenInteractively(interactiveRequest.Value())];
      results := interactive;
    }
  }

  /** Step 4 on the store. */
  method RecordSignInIn(store: SecurityResults, results: Option<MsalAuthenticationResults>)
    modifies store
    ensures store.Fields() == RecordSignIn(old(store.Fields()), results)
  {
    if SignInComplete(results) {
      var account := results.value.account.value;
      var roles := ClaimAsValue(FindClaim(account.idTokenClaims.value, "roles"));
      Dispatch(store, SetAuthenticationRoles(roles));
      Dispatch(store, SetAuthenticationAccount(account));
      Dispatch(store, SetAuthenticationResults(results.value));
      Dispatch(store, SetAuthenticationStatus(true));
    }
  }

  method EndAuthenticatedSession(store: SecurityResults, interactiveRequest: InteractiveRequest, isCapacitor: bool,
                                 logout: Reply<bool>)
    returns (outcome: SessionOutcome, calls: seq<PluginCall>)
    modifies store
    ensures SessionRun(outcome, calls, store.Fields(), interactiveRequest.Value()) ==
            EndSession(old(store.Fields()), old(interactiveRequest.Value()), isCapacitor, logout)
  {
    var account := store.authenticationAccount;
    if !Truthy(account) {
      return Raised(ThrownError(MissingAccountMessage)), [];
    }
    calls := [LogoutCall(account, RedirectUri(isCapacitor), true)];
    match logout
    case Throws(e) => outcome := Raised(e);
    case Returns(response) =>
      if !response {
        outcome := Raised(ThrownError(LogoutFailedMessage));
      } else {
        Dispatch(store, SetAuthenticationStatus(false));
        Dispatch(store, SetAuthenticationRoles(Strings([])));
        Dispatch(store, RemoveAuthenticationAccount());
        Dispatch(store, RemoveAuthenticationResults());
        outcome := Completed;
      }
  }
}
