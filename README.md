# MSAL Capacitor plugin — a Dafny model

This project models the core of the MSAL Capacitor plugin, which gives a Capacitor app one
interface for Microsoft identity sign-in on the web and on iOS. It also models the demo app
that drives the plugin. It has five parts:

- **Error table and normaliser** (`error_table.dfy`, `web_plugin.dfy`).
  - `MsalErrorCollection` is the table of 131 named error records.
  - The `MsalError` record and its constructor.
  - The web implementation's `getMsalError` turns whatever the browser SDK throws into an
    `MsalError`, looked up by code in the shared table.
- **Web configuration gate** (`web_plugin.dfy`). `MsalPluginWeb` holds a client and a
  `hasOptions` flag, and every operation first checks that `initialize` has succeeded.
  `initialize` has a re-render guard, and every operation catches errors into the normaliser.
- **iOS session state machine** (`ios_plugin.dfy`).
  - The Swift `MsalPlugin` keeps six session fields. `setOptions`, `login` and `logout`
    change them; `acquireAccessTokenForUser`, `acquireUserRoles`,
    `acquireAuthenticationResult` and `isAuthenticated` read them.
  - `login` looks up the current account and logs in silently when there is one. It
    escalates once to the interactive flow on an interaction-required error, and goes
    straight to the interactive flow when there is no account.
- **Demo store** (`demo_store.dfy`). The seven Redux action creators, the default state, and
  `SecurityInfoReducer`. The reducer assigns one field of the state object in place and
  returns that same object.
- **Demo session orchestration** (`demo_sessions.dfy`).
  - `startAuthenticatedSession` chooses the prompt from the cached accounts and the
    biometric checks, logs in, and retries once interactively on `interaction_required`.
    It records a full sign-in in the store.
  - `endAuthenticatedSession` logs out and clears the store.
  - Both share the module-level interactive request object, which they change in place.

`definitions.dfy` holds the records the plugin interface exchanges and the `prompt` values.
`wrappers.dfy` holds `Option` and JavaScript truthiness of optional strings.

How the model is built:

- Calls into the MSAL SDKs, the browser, the bridge and the platform are inputs.
  - Each operation takes the outcome of every SDK call it makes: the value returned, or the
    error thrown.
  - Each operation returns what its promise or bridge call settled with, and the SDK or
    plugin requests it made.
- Each stateful object is a `class` whose methods are proved equal to a pure step function
  of the old state. The properties are stated on those functions and in lemmas that relate
  several operations.
- Promises settle once: the first `resolve`/`reject` wins. A web method goes on running
  after rejecting for missing options, as the JavaScript does.

Behaviours of the code that a caller might not expect, which the model keeps:

- **Unknown error codes.** `getMsalError` with an unknown code and a truthy `stack` or
  `message` writes into `undefined`. It then returns the resulting `TypeError`, not an
  `unknown_error` record. Only with neither set does it reach the fallback record
  (web.ts:257-262): code `unknown_error`, and the error's `name`, `message` and `stack` copied
  as type, message and stack (`WebPlugin.MsalErrorOf`).
- **Web `initialize` validation.** It does not check authority, client id or redirect URI.
  Only a missing options object rejects with `invalid_options_set`. On iOS a missing field
  or a malformed authority ends `setOptions` without settling the call.
- **Logout without an account.** iOS `logout` with no account resolves; it does not fail.
  Only the demo's `endAuthenticatedSession` throws when the store has no account.
- **Result projection.** It cannot tell an absent id token, home account id or local
  account id from an empty one (`IosPlugin.ProjectionConflatesAbsentAndEmpty`).
- **iOS rejection messages.** iOS rejects with fixed strings, never with normalised errors.
  A silent failure's message is built from the native error's description.
- **`acquireUserRoles`.** When claims are present but hold no string-array `roles` claim,
  it resolves with `nil`, not `[]`.
- **Web calls that never settle.** `acquireTokenSilently` and `acquireAccountByUsername`
  leave the promise pending when the SDK returns nothing.
- **`acquireAuthenticationResult` on iOS.** It tests a field `self.Options` that the class
  does not declare (`Plugin.swift` line 134). The model reads it as `hasOptions`.

## Model

| member | source | states |
|---|---|---|
| MsalErrors.NewMsalError | src/msal-capacitor-plugin/src/definitions.ts:677-682 | a new error has empty code and message and no type, details or stack |
| MsalErrors.Code | src/msal-capacitor-plugin/src/definitions.ts:20-675 | every entry's code is non-empty and equals its property name exactly for all but the four renamed entries |
| MsalErrors.RenamedCodes | src/msal-capacitor-plugin/src/definitions.ts:309-368 | consent_required, login_required and interaction_required all carry code interaction_required; pkceNotGenerated and cryptoDoesNotExist carry pkce_not_created and crypto_nonexistent |
| MsalErrors.TypeOf | src/msal-capacitor-plugin/src/definitions.ts:20-675 | an entry has no errorType exactly when it is one of the two untyped entries; every type present is one of the five categories |
| MsalErrors.Message | src/msal-capacitor-plugin/src/definitions.ts:499-668 | every iosInternalError entry has the empty message |
| MsalErrors.Entry | src/msal-capacitor-plugin/src/definitions.ts:20-675 | each record: non-empty code, a message, no stack; code equals name except the four renamed entries; type absent exactly for untyped entries and in the five categories otherwise; iOS entries have empty messages; details are set only on no_options |
| MsalErrors.ObjectOf | src/msal-capacitor-plugin/src/definitions.ts:20-675 | an object literal binds every listed property name, and every binding comes from a listed property |
| MsalErrors.Properties | src/msal-capacitor-plugin/src/definitions.ts:20-675 | the literal's 131 properties in the order they are written, each key's name with its entry |
| MsalErrors.CollectionHasEveryKey | src/msal-capacitor-plugin/src/definitions.ts:20-675 | every key of the table is a property of MsalErrorCollection |
| MsalErrors.CollectionHoldsEntries | src/msal-capacitor-plugin/src/definitions.ts:20-675 | every property of MsalErrorCollection holds the entry of a key with that name |
| MsalErrors.KeyOfKeyName | src/msal-capacitor-plugin/src/definitions.ts:20-675 | looking up a key's property name finds that key |
| MsalErrors.KeyNameInjective | src/msal-capacitor-plugin/src/definitions.ts:20-675 | no two entries of the literal share a property name, so no property overwrites another |
| MsalErrors.CollectionLookup | src/msal-capacitor-plugin/src/definitions.ts:20-675 | MsalErrorCollection[name] is, for every key, exactly the entry written under that name |
| MsalErrors.CollectionIsKeyOf | src/msal-capacitor-plugin/src/definitions.ts:20-675 | every property of MsalErrorCollection is a name the lookup recognises and holds the entry of the key it finds |
| MsalErrors.InvalidOptionsNameUnique | src/msal-capacitor-plugin/src/definitions.ts:369-373 | no other key has the property name invalid_options_set |
| MsalErrors.InvalidOptionsEntry | src/msal-capacitor-plugin/src/definitions.ts:369-373 | MsalErrorCollection['invalid_options_set'] is that entry |
| MsalErrors.InvalidOptionsGate | src/msal-capacitor-plugin/src/definitions.ts:369-373 | the entry is named and coded invalid_options_set and typed internalError |
| MsalErrors.NoOptionsNameUnique | src/msal-capacitor-plugin/src/definitions.ts:669-674 | no other key has the property name no_options |
| MsalErrors.NoOptionsEntry | src/msal-capacitor-plugin/src/definitions.ts:669-674 | MsalErrorCollection['no_options'] is that entry |
| MsalErrors.NoOptionsGate | src/msal-capacitor-plugin/src/definitions.ts:669-674 | the entry is named and coded no_options and its details are the empty string |
| MsalErrors.StandardCodesNamed | src/msal-capacitor-plugin/src/definitions.ts:354-378 | the table names the OpenID Connect and OAuth 2.0 error codes, and the three OpenID Connect interaction codes share one errorCode |
| Definitions.PromptOf | src/msal-capacitor-plugin/src/definitions.ts:905 | a string read as a prompt is that prompt's written value |
| Definitions.PromptRoundTrip | src/msal-capacitor-plugin/src/definitions.ts:905 | every prompt value reads back as itself, so the five strings are distinct |
| Definitions.OnlyPromptIfNecessaryIsNonStandard | src/msal-capacitor-plugin/src/definitions.ts:900-905 | promptIfNecessary is the only prompt outside the OpenID Connect set |
| WebPlugin.Settle | src/msal-capacitor-plugin/src/web.ts:100-118 | a promise already settled keeps its first settlement; a pending one takes the new one |
| WebPlugin.MsalErrorOf | src/msal-capacitor-plugin/src/web.ts:236-268 | never returns undefined; no code: a fresh error with truthy stack and message copied; known code: the table entry with stack and details overwritten, written back into the table; unknown code: a TypeError exactly when stack or message is truthy, else the unknown_error record; the table's keys never change |
| WebPlugin.MsalErrorOfIdempotent | src/msal-capacitor-plugin/src/web.ts:242-252 | normalising the same error twice returns the same value and leaves the same table |
| WebPlugin.StaleStackSurvives | src/msal-capacitor-plugin/src/web.ts:242-248 | a stack written into a shared entry by one call shows up in a later error with the same code and no stack |
| WebPlugin.MsalErrorOfTouchesOneEntry | src/msal-capacitor-plugin/src/web.ts:242-252 | no entry other than the error's own code changes |
| WebPlugin.TableEntry | src/msal-capacitor-plugin/src/web.ts:66 | indexing the table gives the entry exactly when the name is a key, undefined otherwise |
| WebPlugin.Guard | src/msal-capacitor-plugin/src/web.ts:102-104 | the promise is still pending exactly when options are set, otherwise rejected with options_missing |
| WebPlugin.Caught | src/msal-capacitor-plugin/src/web.ts:114-116 | a catch block rejects, if still pending, with the normalised error, and keeps the table the normaliser left |
| WebPlugin.InitializeStep | src/msal-capacitor-plugin/src/web.ts:44-73 | validity kept; no options: rejects with the invalid_options_set entry, state unchanged; guard set and already configured: resolves true, unchanged; otherwise a built client is installed and resolves true, a throwing construction rejects with the normalised error |
| WebPlugin.GuardedInitializeIdempotent | src/msal-capacitor-plugin/src/web.ts:48-53 | with the guard set, a second initialize after a successful one resolves true and changes nothing |
| WebPlugin.UnguardedInitializeReplacesClient | src/msal-capacitor-plugin/src/web.ts:54-63 | without the guard a successful initialize installs a client built from the new options |
| WebPlugin.AcquireTokenSilentlyStep | src/msal-capacitor-plugin/src/web.ts:100-118 | guarded; with a client: calls acquireTokenSilent with the request, resolves with a result, stays pending on none, rejects with the normalised error on a throw |
| WebPlugin.AcquireTokenInteractivelyStep | src/msal-capacitor-plugin/src/web.ts:120-139 | guarded; calls acquireTokenPopup, resolves with a result, rejects with undefined on none, normalised error on a throw |
| WebPlugin.AcquireAllAccountsStep | src/msal-capacitor-plugin/src/web.ts:141-156 | guarded; calls getAllAccounts and resolves with what it returned, even undefined |
| WebPlugin.AcquireCurrentAccountStep | src/msal-capacitor-plugin/src/web.ts:158-173 | guarded; calls getActiveAccount and resolves with it, possibly null |
| WebPlugin.AcquireAccountByUsernameStep | src/msal-capacitor-plugin/src/web.ts:175-192 | guarded; calls getAccountByUsername, resolves with the account, stays pending when none is found |
| WebPlugin.LoginStep | src/msal-capacitor-plugin/src/web.ts:194-213 | guarded; calls loginPopup, resolves with the result, rejects with the AuthError "An unknown error has occured…" on none |
| WebPlugin.LogoutRequest | src/msal-capacitor-plugin/src/web.ts:221-225 | logout redirects exactly when a truthy post-logout redirect URI is given, else uses a popup, passing the request on |
| WebPlugin.LogoutStep | src/msal-capacitor-plugin/src/web.ts:215-234 | guarded; makes that call and resolves true, or rejects with the normalised error |
| WebPlugin.UnconfiguredPluginRejects | src/msal-capacitor-plugin/src/web.ts:100-234 | before initialize every token, account, login and logout operation rejects with options_missing, calls nothing and changes nothing |
| WebPlugin.ErrorTable.constructor | src/msal-capacitor-plugin/src/definitions.ts:20-675 | the shared table starts as MsalErrorCollection |
| WebPlugin.MsalPluginWeb.constructor | src/msal-capacitor-plugin/src/web.ts:28-41 | no client, no options, the options_missing error set |
| WebPlugin.MsalPluginWeb.GetMsalError | src/msal-capacitor-plugin/src/web.ts:236-268 | the returned value and the new table are those of MsalErrorOf |
| WebPlugin.MsalPluginWeb.Initialize | src/msal-capacitor-plugin/src/web.ts:44-73 | the new state and settlement are those of InitializeStep |
| WebPlugin.MsalPluginWeb.IsBiometricsAvailable | src/msal-capacitor-plugin/src/web.ts:76-82 | resolves false |
| WebPlugin.MsalPluginWeb.CanEvaluateBiometricsPolicy | src/msal-capacitor-plugin/src/web.ts:84-90 | resolves false |
| WebPlugin.MsalPluginWeb.EvaluateBiometricsPolicy | src/msal-capacitor-plugin/src/web.ts:92-98 | resolves false |
| WebPlugin.MsalPluginWeb.AcquireTokenSilently | src/msal-capacitor-plugin/src/web.ts:100-118 | state, settlement and SDK call are those of AcquireTokenSilentlyStep |
| WebPlugin.MsalPluginWeb.AcquireTokenInteractively | src/msal-capacitor-plugin/src/web.ts:120-139 | those of AcquireTokenInteractivelyStep |
| WebPlugin.MsalPluginWeb.AcquireAllAccounts | src/msal-capacitor-plugin/src/web.ts:141-156 | those of AcquireAllAccountsStep |
| WebPlugin.MsalPluginWeb.AcquireCurrentAccount | src/msal-capacitor-plugin/src/web.ts:158-173 | those of AcquireCurrentAccountStep |
| WebPlugin.MsalPluginWeb.AcquireAccountByUsername | src/msal-capacitor-plugin/src/web.ts:175-192 | those of AcquireAccountByUsernameStep |
| WebPlugin.MsalPluginWeb.Login | src/msal-capacitor-plugin/src/web.ts:194-213 | those of LoginStep |
| WebPlugin.MsalPluginWeb.Logout | src/msal-capacitor-plugin/src/web.ts:215-234 | those of LogoutStep |
| IosPlugin.Project | src/msal-capacitor-plugin/ios/Plugin/Plugin.swift:147-167 | the results dictionary: tenant id, id token, home and local account ids defaulted to "", the account's tenant id, username and claims passed on, the tenant claims wrapped in a one-element list, the other fields copied |
| IosPlugin.ProjectionConflatesAbsentAndEmpty | src/msal-capacitor-plugin/ios/Plugin/Plugin.swift:151-158 | an absent and an empty id token, home account id or local account id project identically |
| IosPlugin.TenantIdStillVisible | src/msal-capacitor-plugin/ios/Plugin/Plugin.swift:151-157 | the top-level tenant id conflates absent and empty, the account's copy does not |
| IosPlugin.InitialValid | src/msal-capacitor-plugin/ios/Plugin/Plugin.swift:10-15 | the fresh plugin satisfies the session invariant |
| IosPlugin.SignedIn | src/msal-capacitor-plugin/ios/Plugin/Plugin.swift:302-304 | success stores the result, its account and authenticated true, and keeps client, scopes and options |
| IosPlugin.SetOptionsStep | src/msal-capacitor-plugin/ios/Plugin/Plugin.swift:27-53 | invariant kept; a missing field or non-URL authority settles nothing and changes nothing; a throwing construction rejects with "Initialization Error"; it resolves exactly when all is given and built, installing the client and scopes, hasOptions true, authenticated false |
| IosPlugin.AcquireAccessTokenForUserStep | src/msal-capacitor-plugin/ios/Plugin/Plugin.swift:55-103 | invariant kept; rejects unchanged without options or authentication; only the account may change, to the current one; never interactive; resolves exactly with client, scopes and a token, with its access token; the requests are the lookup and a forced-refresh silent request for the account |
| IosPlugin.RolesClaim | src/msal-capacitor-plugin/ios/Plugin/Plugin.swift:121 | the roles claim when it is a string array, nil otherwise |
| IosPlugin.UserRolesOutcome | src/msal-capacitor-plugin/ios/Plugin/Plugin.swift:105-130 | rejects without options or authentication; otherwise resolves with [] when there are no claims, else with the roles claim |
| IosPlugin.AuthenticationResultOutcome | src/msal-capacitor-plugin/ios/Plugin/Plugin.swift:132-168 | rejects with "" without options; resolves [] with no result, else the projection of the held result |
| IosPlugin.IsAuthenticatedOutcome | src/msal-capacitor-plugin/ios/Plugin/Plugin.swift:170-180 | rejects without options, else resolves with the authenticated flag |
| IosPlugin.InteractiveLoginStep | src/msal-capacitor-plugin/ios/Plugin/Plugin.swift:279-331 | invariant kept; at most one interactive request, with the recorded scopes and prompt selectAccount; traps without scopes; resolves exactly on a token, signing in with it; otherwise the session is unchanged |
| IosPlugin.SilentLoginStep | src/msal-capacitor-plugin/ios/Plugin/Plugin.swift:333-382 | invariant kept; one silent request with the recorded scopes and the account first; an interaction-required failure continues exactly as the interactive flow; any other failure rejects with the session unchanged and no interactive request; a token signs in |
| IosPlugin.LoginStep | src/msal-capacitor-plugin/ios/Plugin/Plugin.swift:182-242 | invariant kept; rejects unchanged without options; looks up the current account first; a failed lookup settles nothing; an account leads to a silent request for it, none to one interactive request; an interactive request happens only then or after interaction-required; success leaves the session authenticated with the result it resolved with |
| IosPlugin.LogoutStep | src/msal-capacitor-plugin/ios/Plugin/Plugin.swift:201-275 | invariant kept; rejects unchanged without options; resolves unchanged without client or account; otherwise signs out that account from the browser; failure rejects with the session unchanged, success clears account, result and authenticated |
| IosPlugin.UnconfiguredPluginRejects | src/msal-capacitor-plugin/ios/Plugin/Plugin.swift:55-211 | every public operation rejects before setOptions has succeeded |
| IosPlugin.SetOptionsSignsOut | src/msal-capacitor-plugin/ios/Plugin/Plugin.swift:40-46 | after a successful setOptions isAuthenticated resolves false |
| IosPlugin.LoginThenResult | src/msal-capacitor-plugin/ios/Plugin/Plugin.swift:132-168 | after a successful login acquireAuthenticationResult resolves with the same projection and isAuthenticated with true |
| IosPlugin.AuthenticatedSessionHasResult | src/msal-capacitor-plugin/ios/Plugin/Plugin.swift:132-180 | in a session keeping the invariant, when isAuthenticated resolves true, acquireAuthenticationResult resolves the projection of the held result, never [] |
| IosPlugin.LogoutClearsSession | src/msal-capacitor-plugin/ios/Plugin/Plugin.swift:269-272 | after a successful sign-out isAuthenticated is false, the result is [], and another logout does nothing |
| IosPlugin.MsalPlugin.constructor | src/msal-capacitor-plugin/ios/Plugin/Plugin.swift:10-15 | the fields start empty and false, and the session invariant (a client exactly when options are set, authenticated only with a result) holds; every state-changing method keeps it |
| IosPlugin.MsalPlugin.SetOptions | src/msal-capacitor-plugin/ios/Plugin/Plugin.swift:27-53 | new session and outcome are those of SetOptionsStep |
| IosPlugin.MsalPlugin.AcquireAccessTokenForUser | src/msal-capacitor-plugin/ios/Plugin/Plugin.swift:55-103 | those of AcquireAccessTokenForUserStep |
| IosPlugin.MsalPlugin.AcquireUserRoles | src/msal-capacitor-plugin/ios/Plugin/Plugin.swift:105-130 | the outcome of UserRolesOutcome |
| IosPlugin.MsalPlugin.AcquireAuthenticationResult | src/msal-capacitor-plugin/ios/Plugin/Plugin.swift:132-168 | the outcome of AuthenticationResultOutcome |
| IosPlugin.MsalPlugin.IsAuthenticated | src/msal-capacitor-plugin/ios/Plugin/Plugin.swift:170-180 | the outcome of IsAuthenticatedOutcome |
| IosPlugin.MsalPlugin.Login | src/msal-capacitor-plugin/ios/Plugin/Plugin.swift:182-199 | those of LoginStep |
| IosPlugin.MsalPlugin.SetCurrentAccount | src/msal-capacitor-plugin/ios/Plugin/Plugin.swift:219-242 | without a client nothing happens; otherwise one lookup; a failure never completes; an account is stored, none clears it, and both complete |
| IosPlugin.MsalPlugin.LoginInteractive | src/msal-capacitor-plugin/ios/Plugin/Plugin.swift:279-331 | those of InteractiveLoginStep |
| IosPlugin.MsalPlugin.LoginSilently | src/msal-capacitor-plugin/ios/Plugin/Plugin.swift:333-382 | those of SilentLoginStep |
| IosPlugin.MsalPlugin.Logout | src/msal-capacitor-plugin/ios/Plugin/Plugin.swift:201-211 | those of LogoutStep |
| IosPlugin.MsalPlugin.LogoutInteractive | src/msal-capacitor-plugin/ios/Plugin/Plugin.swift:245-275 | those of LogoutStep once options are set |
| DemoStore.SetAuthenticationStatus | examples/react.js/msal-capacitor-plugin-demo/src/store.ts:22-25 | tag SET_AUTHENTICATION_STATUS with the flag as payload |
| DemoStore.SetAuthenticationResults | examples/react.js/msal-capacitor-plugin-demo/src/store.ts:27-30 | tag SET_AUTHENTICATION_RESULTS with the results |
| DemoStore.RemoveAuthenticationResults | examples/react.js/msal-capacitor-plugin-demo/src/store.ts:32-35 | tag REMOVE_AUTHENTICATION_RESULTS with payload undefined |
| DemoStore.SetAuthenticationError | examples/react.js/msal-capacitor-plugin-demo/src/store.ts:37-40 | tag SET_AUTHENTICATION_ERROR with the error |
| DemoStore.SetAuthenticationAccount | examples/react.js/msal-capacitor-plugin-demo/src/store.ts:42-45 | tag SET_AUTHENTICATION_ACCOUNT with the account |
| DemoStore.RemoveAuthenticationAccount | examples/react.js/msal-capacitor-plugin-demo/src/store.ts:47-50 | tag REMOVE_AUTHENTICATION_ACCOUNT with payload undefined |
| DemoStore.SetAuthenticationRoles | examples/react.js/msal-capacitor-plugin-demo/src/store.ts:52-55 | tag SET_AUTHENTICATION_ROLES with the payload |
| DemoStore.CreatorTagsHandled | examples/react.js/msal-capacitor-plugin-demo/src/store.ts:17-55 | every creator's tag is one of the seven the reducer handles |
| DemoStore.DefaultSecurityResults | examples/react.js/msal-capacitor-plugin-demo/src/store.ts:59-72 | not authenticated, no roles, undefined results and error, an account whose string fields are all "" |
| DemoStore.DefaultStateSignedOutWithTruthyAccount | examples/react.js/msal-capacitor-plugin-demo/src/store.ts:59-72 | the default state is falsy on isAuthenticated but its blank account is truthy |
| DemoStore.Reduce | examples/react.js/msal-capacitor-plugin-demo/src/store.ts:74-107 | each SET tag sets its one field to the payload, each REMOVE tag its one field to undefined, any other tag changes nothing |
| DemoStore.ReduceIdempotent | examples/react.js/msal-capacitor-plugin-demo/src/store.ts:74-107 | dispatching an action twice equals dispatching it once |
| DemoStore.StatusAndRolesCommute | examples/react.js/msal-capacitor-plugin-demo/src/store.ts:76-102 | actions on different fields commute |
| DemoStore.RemoveUndoesSet | examples/react.js/msal-capacitor-plugin-demo/src/store.ts:80-94 | removing after setting results or account leaves that field undefined and the rest as before |
| DemoStore.SecurityResults.Default | examples/react.js/msal-capacitor-plugin-demo/src/store.ts:59-72 | the object starts as the default state |
| DemoStore.SecurityInfoReducer | examples/react.js/msal-capacitor-plugin-demo/src/store.ts:74-107 | returns the object it was given (the default object when none), whose fields become Reduce of the old ones; another default object is untouched |
| DemoSessions.RedirectUri | examples/react.js/msal-capacitor-plugin-demo/src/auth/AuthenticationSessions.ts:18-24 | a non-empty URI, chosen by platform |
| DemoSessions.InitializationOptions | examples/react.js/msal-capacitor-plugin-demo/src/auth/AuthenticationSessions.ts:26-36 | the authority, the platform's redirect URI and the re-render guard set |
| DemoSessions.InitialLoginRequest | examples/react.js/msal-capacitor-plugin-demo/src/auth/AuthenticationSessions.ts:38-49 | prompt promptIfNecessary on a device and none in the browser, no account, the wkWebView view |
| DemoSessions.ChooseRequest | examples/react.js/msal-capacitor-plugin-demo/src/auth/AuthenticationSessions.ts:75-81 | more than one account sets select_account; one pins it as the account; an empty list clears the account; no list sets login; scopes and view kept |
| DemoSessions.AccountCount | examples/react.js/msal-capacitor-plugin-demo/src/auth/AuthenticationSessions.ts:88 | the length of the account list, 0 when there is none |
| DemoSessions.BiometricOverride | examples/react.js/msal-capacitor-plugin-demo/src/auth/AuthenticationSessions.ts:88-90 | prompt login exactly when the check ran, did not pass, on a device with one account (AccountCount); otherwise unchanged |
| DemoSessions.LoginPhase | examples/react.js/msal-capacitor-plugin-demo/src/auth/AuthenticationSessions.ts:92-107 | login first; exactly one interactive call, with prompt login, iff login threw interaction_required (IsInteractionRequired: an MsalError whose errorCode is interaction_required), and its reply is the result; otherwise the login reply, error rethrown |
| DemoSessions.FindClaim | examples/react.js/msal-capacitor-plugin-demo/src/auth/AuthenticationSessions.ts:110-112 | none iff no entry has the name; otherwise the value of the first entry with that name |
| DemoSessions.ClaimAsValue | examples/react.js/msal-capacitor-plugin-demo/src/auth/AuthenticationSessions.ts:110-114 | a missing claim is undefined; a list claim is the string list |
| DemoSessions.RecordSignIn | examples/react.js/msal-capacitor-plugin-demo/src/auth/AuthenticationSessions.ts:109-118 | without result, account or claims (SignInComplete) the store is unchanged; otherwise roles from the first roles claim, the account, the results and status true, error kept |
| DemoSessions.AfterAccounts | examples/react.js/msal-capacitor-plugin-demo/src/auth/AuthenticationSessions.ts:72-118 | the biometric policy is evaluated iff both checks are true; a failing evaluation throws with only the account choice applied; a throw leaves the store; completion records some sign-in |
| DemoSessions.StartSession | examples/react.js/msal-capacitor-plugin-demo/src/auth/AuthenticationSessions.ts:52-120 | an authenticated store: no calls, nothing changed; otherwise initialize first; a throw leaves the store; the store changes only by recording a full sign-in |
| DemoSessions.EndSession | examples/react.js/msal-capacitor-plugin-demo/src/auth/AuthenticationSessions.ts:122-145 | no account: throws before any call; otherwise one logout of that account with remove-from-cache; false throws "Unable to logout", unchanged; true clears status, roles, account and results; a rejection leaves the store; the shared request is left as it was |
| DemoSessions.SignedInSessionIsQuiet | examples/react.js/msal-capacitor-plugin-demo/src/auth/AuthenticationSessions.ts:56-60 | a signed-in store makes a session call nothing and change nothing |
| DemoSessions.SignInMakesNextSessionQuiet | examples/react.js/msal-capacitor-plugin-demo/src/auth/AuthenticationSessions.ts:109-118 | after a recorded sign-in the next session makes no call |
| DemoSessions.EndThenEndThrows | examples/react.js/msal-capacitor-plugin-demo/src/auth/AuthenticationSessions.ts:127-144 | after a successful end, a second end throws without calling, and a new start from the request the end left calls the plugin again |
| DemoSessions.PromptPersistsAcrossSessions | examples/react.js/msal-capacitor-plugin-demo/src/auth/AuthenticationSessions.ts:63-81 | the shared request keeps prompt login from a run with no accounts, and the next run logs in with it |
| DemoSessions.InteractiveRequest.LoginInteractiveRequest | examples/react.js/msal-capacitor-plugin-demo/src/auth/AuthenticationSessions.ts:38-49 | the shared object starts as InitialLoginRequest |
| DemoSessions.Dispatch | examples/react.js/msal-capacitor-plugin-demo/src/auth/AuthenticationSessions.ts:114-117 | the store's fields become Reduce of the old ones |
| DemoSessions.StartAuthenticatedSession | examples/react.js/msal-capacitor-plugin-demo/src/auth/AuthenticationSessions.ts:52-120 | outcome, calls, store and request object are those of StartSession |
| DemoSessions.SignInWithAccounts | examples/react.js/msal-capacitor-plugin-demo/src/auth/AuthenticationSessions.ts:72-118 | those of AfterAccounts |
| DemoSessions.ChooseAccountOrPrompt | examples/react.js/msal-capacitor-plugin-demo/src/auth/AuthenticationSessions.ts:75-81 | the request object becomes ChooseRequest of its old value |
| DemoSessions.LoginWithRetry | examples/react.js/msal-capacitor-plugin-demo/src/auth/AuthenticationSessions.ts:92-107 | reply, calls and request object are those of LoginPhase |
| DemoSessions.RecordSignInIn | examples/react.js/msal-capacitor-plugin-demo/src/auth/AuthenticationSessions.ts:109-118 | the store becomes RecordSignIn of its old fields |
| DemoSessions.EndAuthenticatedSession | examples/react.js/msal-capacitor-plugin-demo/src/auth/AuthenticationSessions.ts:122-145 | outcome, calls, store and request object are those of EndSession |

## Left out

- MSAL browser and iOS SDK behaviour: client construction, token requests, popups and
  redirects, sign-out, account lookup, `MSALAADAuthority`, `URL(string:)`. These are foreign
  calls; their outcomes are parameters.
- Scheduling: promises, `async`/`await` and `DispatchQueue.main.async`. Each operation runs
  as one atomic step and completion blocks run in order.
- `IosPlugin.AcquireAccessTokenForUserStep`: the current-account lookup is taken to finish
  before the silent request reads `account`. The race between the two completion blocks is
  not modelled.
- `updateLogging` and its thread check: logging only.
- `dateFormatter` formatting of `expiresOn`: library formatting. The field is held as the
  formatted text.
- Biometric hardware and policy evaluation: the demo takes their replies as inputs, and the
  web methods resolve false.
- The Android `IMsalPlugin.java` stub, the React/Ionic UI (`App.tsx`, `Home.tsx`,
  `AuthContext.tsx`) and the `types/index.ts` interface: no behaviour to model.
- The Redux `createStore`/`combineReducers` wiring (store.ts:109-117): library code.
  `Store.dispatch` is modelled as one reducer call on the shared state object.
- The `IMsalPlugin` interface declaration (definitions.ts:1158-1210): a type, not behaviour.
- Inherited JavaScript property names. `MsalErrorCollection[code]` would also find names
  such as `constructor` or `toString` on the object prototype; the model looks up own
  properties only.
- Aliasing of the entry object `getMsalError` returns: changes a caller later makes to that
  object are not tracked. The normaliser's own writes into the shared entry are modelled.
- Record fields no modelled operation reads or writes: cache and token-lifetime options,
  `errorInfo`, the request's `authority` and `redirectUri`, the extra data dictionaries
  passed to `call.error`.
- The demo reads `(await call).results`. Each reply is that `results` value; a plugin
  resolving with no object at all, which would make the read throw, is not modelled.
- `MsalErrors.Message`: only the empty iOS messages are stated. The other texts are copied
  from the table literal, and no property of them is proved.
- `DemoSessions.StartSession` and `DemoSessions.AfterAccounts`: they state that the store
  changes only by recording some full sign-in, without naming which. The exact values are
  stated by `LoginPhase` and `RecordSignIn`, and by the method contracts that equal these
  functions.
