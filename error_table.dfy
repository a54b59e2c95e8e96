/** The error table of the plugin (`MsalErrorCollection`) and the `MsalError` record it holds.
    The table literal is keyed by property names; here each key is a constructor of an
    enumeration per `errorType` category, `KeyName` gives back the property name and `KeyOf`
    finds the key stored under a name. */
module MsalErrors {
  import opened Wrappers

  /** One normalised error. `errorCode` and `errorMessage` are always set by the constructor;
      `errorMessage` is optional here because the fallback record built by the normaliser
      copies a message that may be undefined. */
  datatype MsalError = MsalError(
    errorCode: string,
    errorType: Option<string>,
    errorMessage: Option<string>,
    errorDetails: Option<string>,
    stack: Option<string>)

  /** `new MsalError()`: both required strings empty, no optional field set. */
  function NewMsalError(): (e: MsalError)
    ensures e.errorCode == "" && e.errorMessage == Some("")
    ensures e.errorType.None? && e.errorDetails.None? && e.stack.None?
  {
    MsalError("", None, Some(""), None, None)
  }

  /** The five `errorType` categories that occur in the table. */
  const ErrorTypes: set<string> := {"clientAuthErrorMessage", "clientConfigurationErrorMessage",
    "browserAuthErrorMessage", "internalError", "iosInternalError"}

  // ---- entries with errorType "clientAuthErrorMessage" ----

  datatype ClientAuthKey =
      ClientInfoDecodingError
    | ClientInfoEmptyError
    | TokenParsingError
    | NullOrEmptyToken
    | EndpointsResolutionError
    | NetworkError
    | OpenidConfigError
    | HashNotDeserialized
    | BlankGuidGenerated
    | InvalidState
    | StateMismatch
    | StateNotFound
    | NonceMismatch
    | NonceNotFound
    | NoTokensFound
    | MultipleMatchingTokens
    | MultipleMatchingAccounts
    | MultipleMatchingAppMetadata
    | RequestCannotBeMade
    | CannotAppendEmptyScope
    | CannotRemoveEmptyScope
    | CannotAppendScopeset
    | EmptyInputScopeset
    | DeviceCodePollingCancelled
    | DeviceCodeExpired
    | NoAccountInSilentRequest
    | InvalidCacheRecord
    | InvalidCacheEnvironment
    | NoAccountFound
    | NoCryptoObject
    | InvalidCacheType
    | UnexpectedAccountType
    | UnexpectedCredentialType
    | InvalidAssertion
    | InvalidClientCredential
    | TokenRefreshRequired
    | UserTimeoutReached
    | TokenClaimsCnfRequiredForSignedjwt
    | AuthorizationCodeMissingFromServerResponse
    | AccessTokenEntityNull

  const ClientAuthRun1: seq<ErrorKey> := [
    ClientAuth(ClientInfoDecodingError), ClientAuth(ClientInfoEmptyError), ClientAuth(TokenParsingError),
    ClientAuth(NullOrEmptyToken), ClientAuth(EndpointsResolutionError), ClientAuth(NetworkError),
    ClientAuth(OpenidConfigError), ClientAuth(HashNotDeserialized), ClientAuth(BlankGuidGenerated),
    ClientAuth(InvalidState), ClientAuth(StateMismatch), ClientAuth(StateNotFound),
    ClientAuth(NonceMismatch), ClientAuth(NonceNotFound), ClientAuth(NoTokensFound),
    ClientAuth(MultipleMatchingTokens), ClientAuth(MultipleMatchingAccounts), ClientAuth(MultipleMatchingAppMetadata),
    ClientAuth(RequestCannotBeMade), ClientAuth(CannotAppendEmptyScope), ClientAuth(CannotRemoveEmptyScope),
    ClientAuth(CannotAppendScopeset), ClientAuth(EmptyInputScopeset), ClientAuth(DeviceCodePollingCancelled),
    ClientAuth(DeviceCodeExpired), ClientAuth(NoAccountInSilentRequest), ClientAuth(InvalidCacheRecord),
    ClientAuth(InvalidCacheEnvironment), ClientAuth(NoAccountFound), ClientAuth(NoCryptoObject),
    ClientAuth(InvalidCacheType), ClientAuth(UnexpectedAccountType), ClientAuth(UnexpectedCredentialType),
    ClientAuth(InvalidAssertion), ClientAuth(InvalidClientCredential), ClientAuth(TokenRefreshRequired),
    ClientAuth(UserTimeoutReached), ClientAuth(TokenClaimsCnfRequiredForSignedjwt), ClientAuth(AuthorizationCodeMissingFromServerResponse),
    ClientAuth(AccessTokenEntityNull)
  ]

  const ClientAuthKeys: seq<ErrorKey> := ClientAuthRun1

  lemma ClientAuthKeysComplete(c: ClientAuthKey)
    ensures ClientAuth(c) in ClientAuthKeys
  {
  }

  function ClientAuthName(c: ClientAuthKey): (r: string)
    ensures |r| > 0
  {
    match c
    case ClientInfoDecodingError => "client_info_decoding_error"
    case ClientInfoEmptyError => "client_info_empty_error"
    case TokenParsingError => "token_parsing_error"
    case NullOrEmptyToken => "null_or_empty_token"
    case EndpointsResolutionError => "endpoints_resolution_error"
    case NetworkError => "network_error"
    case OpenidConfigError => "openid_config_error"
    case HashNotDeserialized => "hash_not_deserialized"
    case BlankGuidGenerated => "blank_guid_generated"
    case InvalidState => "invalid_state"
    case StateMismatch => "state_mismatch"
    case StateNotFound => "state_not_found"
    case NonceMismatch => "nonce_mismatch"
    case NonceNotFound => "nonce_not_found"
    case NoTokensFound => "no_tokens_found"
    case MultipleMatchingTokens => "multiple_matching_tokens"
    case MultipleMatchingAccounts => "multiple_matching_accounts"
    case MultipleMatchingAppMetadata => "multiple_matching_appMetadata"
    case RequestCannotBeMade => "request_cannot_be_made"
    case CannotAppendEmptyScope => "cannot_append_empty_scope"
    case CannotRemoveEmptyScope => "cannot_remove_empty_scope"
    case CannotAppendScopeset => "cannot_append_scopeset"
    case EmptyInputScopeset => "empty_input_scopeset"
    case DeviceCodePollingCancelled => "device_code_polling_cancelled"
    case DeviceCodeExpired => "device_code_expired"
    case NoAccountInSilentRequest => "no_account_in_silent_request"
    case InvalidCacheRecord => "invalid_cache_record"
    case InvalidCacheEnvironment => "invalid_cache_environment"
    case NoAccountFound => "no_account_found"
    case NoCryptoObject => "no_crypto_object"
    case InvalidCacheType => "invalid_cache_type"
    case UnexpectedAccountType => "unexpected_account_type"
    case UnexpectedCredentialType => "unexpected_credential_type"
    case InvalidAssertion => "invalid_assertion"
    case InvalidClientCredential => "invalid_client_credential"
    case TokenRefreshRequired => "token_refresh_required"
    case UserTimeoutReached => "user_timeout_reached"
    case TokenClaimsCnfRequiredForSignedjwt => "token_claims_cnf_required_for_signedjwt"
    case AuthorizationCodeMissingFromServerResponse => "authorization_code_missing_from_server_response"
    case AccessTokenEntityNull => "access_token_entity_null"
  }

  function ClientAuthMessage(c: ClientAuthKey): string {
    match c
    case ClientInfoDecodingError => "The client info could not be parsed/decoded correctly. Please review the trace to determine the root cause."
    case ClientInfoEmptyError => "The client info was empty. Please review the trace to determine the root cause."
    case TokenParsingError => "Token cannot be parsed. Please review stack trace to determine root cause."
    case NullOrEmptyToken => "The token is null or empty. Please review the trace to determine the root cause."
    case EndpointsResolutionError => "Error: could not resolve endpoints. Please check network and try again."
    case NetworkError => "Network request failed. Please check network trace to determine root cause."
    case OpenidConfigError => "Could not retrieve endpoints. Check your authority and verify the .well-known/openid-configuration endpoint returns the required endpoints."
    case HashNotDeserialized => "The hash parameters could not be deserialized. Please review the trace to determine the root cause."
    case BlankGuidGenerated => "The guid generated was blank. Please review the trace to determine the root cause."
    case InvalidState => "State was not the expected format. Please check the logs to determine whether the request was sent using ProtocolUtils.setRequestState()."
    case StateMismatch => "State mismatch error. Please check your network. Continued requests may cause cache overflow."
    case StateNotFound => "State not found"
    case NonceMismatch => "Nonce mismatch error. This may be caused by a race condition in concurrent requests."
    case NonceNotFound => "nonce not found"
    case NoTokensFound => "No tokens were found for the given scopes, and no authorization code was passed to acquireToken. You must retrieve an authorization code before making a call to acquireToken()."
    case MultipleMatchingTokens => "The cache contains multiple tokens satisfying the requirements. Call AcquireToken again providing more requirements such as authority or account."
    case MultipleMatchingAccounts => "The cache contains multiple accounts satisfying the given parameters. Please pass more info to obtain the correct account"
    case MultipleMatchingAppMetadata => "The cache contains multiple appMetadata satisfying the given parameters. Please pass more info to obtain the correct appMetadata"
    case RequestCannotBeMade => "Token request cannot be made without authorization code or refresh token."
    case CannotAppendEmptyScope => "Cannot append null or empty scope to ScopeSet. Please check the stack trace for more info."
    case CannotRemoveEmptyScope => "Cannot remove null or empty scope from ScopeSet. Please check the stack trace for more info."
    case CannotAppendScopeset => "Cannot append ScopeSet due to error."
    case EmptyInputScopeset => "Empty input ScopeSet cannot be processed."
    case DeviceCodePollingCancelled => "Caller has cancelled token endpoint polling during device code flow by setting DeviceCodeRequest.cancel = true."
    case DeviceCodeExpired => "Device code is expired."
    case NoAccountInSilentRequest => "Please pass an account object, silent flow is not supported without account information"
    case InvalidCacheRecord => "Cache record object was null or undefined."
    case InvalidCacheEnvironment => "Invalid environment when attempting to create cache entry"
    case NoAccountFound => "No account found in cache for given key."
    case NoCryptoObject => "No crypto object detected. This is required for the following operation: "
    case InvalidCacheType => "Invalid cache type"
    case UnexpectedAccountType => "Unexpected account type."
    case UnexpectedCredentialType => "Unexpected credential type."
    case InvalidAssertion => "Client assertion must meet requirements described in https://tools.ietf.org/html/rfc7515"
    case InvalidClientCredential => "Client credential (secret, certificate, or assertion) must not be empty when creating a confidential client. An application should at most have one credential"
    case TokenRefreshRequired => "Cannot return token from cache because it must be refreshed. This may be due to one of the following reasons: forceRefresh parameter is set to true, claims have been requested, there is no cached access token or it is expired."
    case UserTimeoutReached => "User defined timeout for device code polling reached"
    case TokenClaimsCnfRequiredForSignedjwt => "Cannot generate a POP jwt if the token_claims are not populated"
    case AuthorizationCodeMissingFromServerResponse => "Server response does not contain an authorization code to proceed"
    case AccessTokenEntityNull => "Access token entity is null, please check logs and cache to ensure a valid access token is present."
  }

  // ---- entries with errorType "clientConfigurationErrorMessage" ----

  datatype ClientConfigurationKey =
      RedirectUriEmpty
    | PostLogoutUriEmpty
    | ClaimsRequestParsingError
    | AuthorityUriInsecure
    | UrlParseError
    | EmptyUrlError
    | EmptyInputScopesError
    | NonarrayInputScopesError
    | ClientidInputScopesError
    | InvalidPromptValue
    | InvalidClaims
    | TokenRequestEmpty
    | LogoutRequestEmpty
    | InvalidCodeChallengeMethod
    | PkceParamsMissing
    | InvalidCloudDiscoveryMetadata
    | InvalidAuthorityMetadata
    | UntrustedAuthority

  const ClientConfigurationRun1: seq<ErrorKey> := [
    ClientConfiguration(RedirectUriEmpty), ClientConfiguration(PostLogoutUriEmpty), ClientConfiguration(ClaimsRequestParsingError),
    ClientConfiguration(AuthorityUriInsecure), ClientConfiguration(UrlParseError), ClientConfiguration(EmptyUrlError),
    ClientConfiguration(EmptyInputScopesError), ClientConfiguration(NonarrayInputScopesError), ClientConfiguration(ClientidInputScopesError),
    ClientConfiguration(InvalidPromptValue), ClientConfiguration(InvalidClaims), ClientConfiguration(TokenRequestEmpty),
    ClientConfiguration(LogoutRequestEmpty), ClientConfiguration(InvalidCodeChallengeMethod), ClientConfiguration(PkceParamsMissing),
    ClientConfiguration(InvalidCloudDiscoveryMetadata), ClientConfiguration(InvalidAuthorityMetadata), ClientConfiguration(UntrustedAuthority)
  ]

  const ClientConfigurationKeys: seq<ErrorKey> := ClientConfigurationRun1

  lemma ClientConfigurationKeysComplete(c: ClientConfigurationKey)
    ensures ClientConfiguration(c) in ClientConfigurationKeys
  {
  }

  function ClientConfigurationName(c: ClientConfigurationKey): (r: string)
    ensures |r| > 0
  {
    match c
    case RedirectUriEmpty => "redirect_uri_empty"
    case PostLogoutUriEmpty => "post_logout_uri_empty"
    case ClaimsRequestParsingError => "claims_request_parsing_error"
    case AuthorityUriInsecure => "authority_uri_insecure"
    case UrlParseError => "url_parse_error"
    case EmptyUrlError => "empty_url_error"
    case EmptyInputScopesError => "empty_input_scopes_error"
    case NonarrayInputScopesError => "nonarray_input_scopes_error"
    case ClientidInputScopesError => "clientid_input_scopes_error"
    case InvalidPromptValue => "invalid_prompt_value"
    case InvalidClaims => "invalid_claims"
    case TokenRequestEmpty => "token_request_empty"
    case LogoutRequestEmpty => "logout_request_empty"
    case InvalidCodeChallengeMethod => "invalid_code_challenge_method"
    case PkceParamsMissing => "pkce_params_missing"
    case InvalidCloudDiscoveryMetadata => "invalid_cloud_discovery_metadata"
    case InvalidAuthorityMetadata => "invalid_authority_metadata"
    case UntrustedAuthority => "untrusted_authority"
  }

  function ClientConfigurationMessage(c: ClientConfigurationKey): string {
    match c
    case RedirectUriEmpty => "A redirect URI is required for all calls, and none has been set."
    case PostLogoutUriEmpty => "A post logout redirect has not been set."
    case ClaimsRequestParsingError => "Could not parse the given claims request object."
    case AuthorityUriInsecure => "Authority URIs must use https.  Please see here for valid authority configuration options: https://docs.microsoft.com/en-us/azure/active-directory/develop/msal-js-initializing-client-applications#configuration-options"
    case UrlParseError => "URL could not be parsed into appropriate segments."
    case EmptyUrlError => "URL was empty or null."
    case EmptyInputScopesError => "Scopes cannot be passed as null, undefined or empty array because they are required to obtain an access token."
    case NonarrayInputScopesError => "Scopes cannot be passed as non-array."
    case ClientidInputScopesError => "Client ID can only be provided as a single scope."
    case InvalidPromptValue => "Supported prompt values are 'login', 'select_account', 'consent' and 'none'.  Please see here for valid configuration options: https://docs.microsoft.com/en-us/azure/active-directory/develop/msal-js-initializing-client-applications#configuration-options"
    case InvalidClaims => "Given claims parameter must be a stringified JSON object."
    case TokenRequestEmpty => "Token request was empty and not found in cache."
    case LogoutRequestEmpty => "The logout request was null or undefined."
    case InvalidCodeChallengeMethod => "code_challenge_method passed is invalid. Valid values are \"plain\" and \"S256\"."
    case PkceParamsMissing => "Both params: code_challenge and code_challenge_method are to be passed if to be sent in the request"
    case InvalidCloudDiscoveryMetadata => "Invalid cloudDiscoveryMetadata provided. Must be a JSON object containing tenant_discovery_endpoint and metadata fields"
    case InvalidAuthorityMetadata => "Invalid authorityMetadata provided. Must by a JSON object containing authorization_endpoint, token_endpoint, end_session_endpoint, issuer fields."
    case UntrustedAuthority => "The provided authority is not a trusted authority. Please include this authority in the knownAuthorities config parameter."
  }

  // ---- entries with errorType "browserAuthErrorMessage" ----

  datatype BrowserAuthKey =
      HttpMethodNotImplemented
    | EmptyNavigateUri
    | HashEmptyError
    | NoStateInHash
    | HashDoesNotContainKnownProperties
    | UnableToParseState
    | StateInteractionTypeMismatch
    | InteractionInProgress
    | PopupWindowError
    | EmptyWindowError
    | UserCancelled
    | MonitorWindowTimeout
    | RedirectInIframe
    | BlockIframeReload
    | BlockNestedPopups
    | IframeClosedPrematurely
    | SilentSsoError
    | NoAccountError
    | SilentPromptValueError
    | NoTokenRequestCacheError
    | UnableToParseTokenRequestCacheError
    | NoCachedAuthorityError
    | AuthRequestNotSetError
    | NonBrowserEnvironment
    | DatabaseNotOpen
    | NoNetworkConnectivity
    | PostRequestFailed
    | GetRequestFailed
    | FailedToParseResponse

  // The entries of this category appear in 2 separate runs of the table literal.
  const BrowserAuthRun1: seq<ErrorKey> := [
    BrowserAuth(HttpMethodNotImplemented), BrowserAuth(EmptyNavigateUri), BrowserAuth(HashEmptyError),
    BrowserAuth(NoStateInHash), BrowserAuth(HashDoesNotContainKnownProperties), BrowserAuth(UnableToParseState),
    BrowserAuth(StateInteractionTypeMismatch)
  ]

  const BrowserAuthRun2: seq<ErrorKey> := [
    BrowserAuth(InteractionInProgress), BrowserAuth(PopupWindowError), BrowserAuth(EmptyWindowError),
    BrowserAuth(UserCancelled), BrowserAuth(MonitorWindowTimeout), BrowserAuth(RedirectInIframe),
    BrowserAuth(BlockIframeReload), BrowserAuth(BlockNestedPopups), BrowserAuth(IframeClosedPrematurely),
    BrowserAuth(SilentSsoError), BrowserAuth(NoAccountError), BrowserAuth(SilentPromptValueError),
    BrowserAuth(NoTokenRequestCacheError), BrowserAuth(UnableToParseTokenRequestCacheError), BrowserAuth(NoCachedAuthorityError),
    BrowserAuth(AuthRequestNotSetError), BrowserAuth(NonBrowserEnvironment), BrowserAuth(DatabaseNotOpen),
    BrowserAuth(NoNetworkConnectivity), BrowserAuth(PostRequestFailed), BrowserAuth(GetRequestFailed),
    BrowserAuth(FailedToParseResponse)
  ]

  const BrowserAuthKeys: seq<ErrorKey> := BrowserAuthRun1 + BrowserAuthRun2

  lemma BrowserAuthKeysComplete(c: BrowserAuthKey)
    ensures BrowserAuth(c) in BrowserAuthKeys
  {
  }

  function BrowserAuthName(c: BrowserAuthKey): (r: string)
    ensures |r| > 0
  {
    match c
    case HttpMethodNotImplemented => "http_method_not_implemented"
    case EmptyNavigateUri => "empty_navigate_uri"
    case HashEmptyError => "hash_empty_error"
    case NoStateInHash => "no_state_in_hash"
    case HashDoesNotContainKnownProperties => "hash_does_not_contain_known_properties"
    case UnableToParseState => "unable_to_parse_state"
    case StateInteractionTypeMismatch => "state_interaction_type_mismatch"
    case InteractionInProgress => "interaction_in_progress"
    case PopupWindowError => "popup_window_error"
    case EmptyWindowError => "empty_window_error"
    case UserCancelled => "user_cancelled"
    case MonitorWindowTimeout => "monitor_window_timeout"
    case RedirectInIframe => "redirect_in_iframe"
    case BlockIframeReload => "block_iframe_reload"
    case BlockNestedPopups => "block_nested_popups"
    case IframeClosedPrematurely => "iframe_closed_prematurely"
    case SilentSsoError => "silent_sso_error"
    case NoAccountError => "no_account_error"
    case SilentPromptValueError => "silent_prompt_value_error"
    case NoTokenRequestCacheError => "no_token_request_cache_error"
    case UnableToParseTokenRequestCacheError => "unable_to_parse_token_request_cache_error"
    case NoCachedAuthorityError => "no_cached_authority_error"
    case AuthRequestNotSetError => "auth_request_not_set_error"
    case NonBrowserEnvironment => "non_browser_environment"
    case DatabaseNotOpen => "database_not_open"
    case NoNetworkConnectivity => "no_network_connectivity"
    case PostRequestFailed => "post_request_failed"
    case GetRequestFailed => "get_request_failed"
    case FailedToParseResponse => "failed_to_parse_response"
  }

  function BrowserAuthMessage(c: BrowserAuthKey): string {
    match c
    case HttpMethodNotImplemented => "The HTTP method given has not been implemented in this library."
    case EmptyNavigateUri => "Navigation URI is empty. Please check stack trace for more info."
    case HashEmptyError => "Hash value cannot be processed because it is empty. Please verify that your redirectUri is not clearing the hash."
    case NoStateInHash => "Hash does not contain state. Please verify that the request originated from msal."
    case HashDoesNotContainKnownProperties => "Hash does not contain known properites. Please verify that your redirectUri is not changing the hash."
    case UnableToParseState => "Unable to parse state. Please verify that the request originated from msal."
    case StateInteractionTypeMismatch => "Hash contains state but the interaction type does not match the caller."
    case InteractionInProgress => "Interaction is currently in progress. Please ensure that this interaction has been completed before calling an interactive API.  For more visit: aka.ms/msaljs/browser-errors."
    case PopupWindowError => "Error opening popup window. This can happen if you are using IE or if popups are blocked in the browser."
    case EmptyWindowError => "window.open returned null or undefined window object."
    case UserCancelled => "User cancelled the flow."
    case MonitorWindowTimeout => "Token acquisition in popup failed due to timeout."
    case RedirectInIframe => "Code flow is not supported inside an iframe. Please ensure you are using MSAL.js in a top frame of the window if using the redirect APIs, or use the popup APIs."
    case BlockIframeReload => "Request was blocked inside an iframe because MSAL detected an authentication response. For more visit: aka.ms/msaljs/browser-errors"
    case BlockNestedPopups => "Request was blocked inside a popup because MSAL detected it was running in a popup."
    case IframeClosedPrematurely => "The iframe being monitored was closed prematurely."
    case SilentSsoError => "Silent SSO could not be completed - insufficient information was provided. Please provide either a loginHint or sid."
    case NoAccountError => "No account object provided to acquireTokenSilent and no active account has been set. Please call setActiveAccount or provide an account on the request."
    case SilentPromptValueError => "The value given for the prompt value is not valid for silent requests - must be set to 'none'."
    case NoTokenRequestCacheError => "No token request in found in cache."
    case UnableToParseTokenRequestCacheError => "The cached token request could not be parsed."
    case NoCachedAuthorityError => "No cached authority found."
    case AuthRequestNotSetError => "Auth Request not set. Please ensure initiateAuthRequest was called from the InteractionHandler"
    case NonBrowserEnvironment => "Login and token requests are not supported in non-browser environments."
    case DatabaseNotOpen => "Database is not open!"
    case NoNetworkConnectivity => "No network connectivity. Check your internet connection."
    case PostRequestFailed => "Network request failed: If the browser threw a CORS error, check that the redirectUri is registered in the Azure App Portal as type 'SPA'"
    case GetRequestFailed => "Network request failed. Please check the network trace to determine root cause."
    case FailedToParseResponse => "Failed to parse network response. Check network trace."
  }

  // ---- entries with errorType "internalError" ----

  datatype InternalKey =
      ConsentRequired
    | LoginRequired
    | InteractionRequired
    | InvalidOptionsSet
    | UnsupportedGrantType
    | InvalidResource
    | TemporarilyUnavailable
    | InvalidClient
    | InvalidGrant
    | InvalidRequest
    | UnauthorizedClient
    | NoOptions

  // The entries of this category appear in 5 separate runs of the table literal.
  const InternalRun1: seq<ErrorKey> := [
    Internal(ConsentRequired), Internal(LoginRequired), Internal(InteractionRequired),
    Internal(InvalidOptionsSet), Internal(UnsupportedGrantType), Internal(InvalidResource),
    Internal(TemporarilyUnavailable)
  ]

  const InternalRun2: seq<ErrorKey> := [
    Internal(InvalidClient), Internal(InvalidGrant)
  ]

  const InternalRun3: seq<ErrorKey> := [
    Internal(InvalidRequest)
  ]

  const InternalRun4: seq<ErrorKey> := [
    Internal(UnauthorizedClient)
  ]

  const InternalRun5: seq<ErrorKey> := [
    Internal(NoOptions)
  ]

  const InternalKeys: seq<ErrorKey> := InternalRun1 + InternalRun2 + InternalRun3 + InternalRun4 + InternalRun5

  lemma InternalKeysComplete(c: InternalKey)
    ensures Internal(c) in InternalKeys
  {
  }

  function InternalName(c: InternalKey): (r: string)
    ensures |r| > 0
  {
    match c
    case ConsentRequired => "consent_required"
    case LoginRequired => "login_required"
    case InteractionRequired => "interaction_required"
    case InvalidOptionsSet => "invalid_options_set"
    case UnsupportedGrantType => "unsupported_grant_type"
    case InvalidResource => "invalid_resource"
    case TemporarilyUnavailable => "temporarily_unavailable"
    case InvalidClient => "invalid_client"
    case InvalidGrant => "invalid_grant"
    case InvalidRequest => "invalid_request"
    case UnauthorizedClient => "unauthorized_client"
    case NoOptions => "no_options"
  }

  function InternalMessage(c: InternalKey): string {
    match c
    case ConsentRequired => "The request requires user interaction. For example, an additional authentication step is required.\tRetry the request with the same resource, interactively, so that the user can complete any challenges required."
    case LoginRequired => "The request requires user interaction. For example, an additional authentication step is required.\tRetry the request with the same resource, interactively, so that the user can complete any challenges required."
    case InteractionRequired => "The request requires user interaction. For example, an additional authentication step is required.\tRetry the request with the same resource, interactively, so that the user can complete any challenges required."
    case InvalidOptionsSet => "Options were either not possed or have in correct format. Please insure options are being passed in correctly."
    case UnsupportedGrantType => "The authorization server does not support the authorization grant type.\tChange the grant type in the request. This type of error should occur only during development and be detected during initial testing."
    case InvalidResource => "The target resource is invalid because it does not exist, Azure AD can't find it, or it's not correctly configured.\tThis indicates the resource, if it exists, has not been configured in the tenant. The application can prompt the user with instruction for installing the application and adding it to Azure AD. During development, this usually indicates an incorrectly setup test tenant or a typo in the name of the scope being requested."
    case TemporarilyUnavailable => "The server is temporarily too busy to handle the request.\tRetry the request. The client application might explain to the user that its response is delayed because of a temporary condition."
    case InvalidClient => "Client authentication failed.\tThe client credentials aren't valid. To fix, the application administrator updates the credentials."
    case InvalidGrant => "Some of the authentication material (auth code, refresh token, access token, PKCE challenge) was invalid, unparseable, missing, or otherwise unusable\tTry a new request to the /authorize endpoint to get a new authorization code. Consider reviewing and validating that app's use of the protocols."
    case InvalidRequest => "Protocol error, such as a missing required parameter.\tFix and resubmit the request."
    case UnauthorizedClient => "The authenticated client isn't authorized to use this authorization grant type.\tThis usually occurs when the client application isn't registered in Azure AD or isn't added to the user's Azure AD tenant. The application can prompt the user with instruction for installing the application and adding it to Azure AD."
    case NoOptions => "Options has not been set."
  }

  // ---- entries with errorType "iosInternalError" ----

  datatype IosInternalKey =
      BrokerNotAvailable
    | AccountRequired
    | AmbiguousAccount
    | AttemptToOpenUrlFromExtension
    | AuthorizationFailed
    | BrokerApplicationTokenReadFailed
    | BrokerApplicationTokenWriteFailed
    | BrokerBadResumeStateFound
    | BrokerCorruptedResponse
    | BrokerKeyFailedToCreate
    | BrokerKeyNotFound
    | BrokerMismatchedResumeState
    | BrokerNoResumeStateFound
    | BrokerResponseDecryptionFailed
    | BrokerResponseHashMismatch
    | BrokerResponseHashMissing
    | BrokerResponseNotReceived
    | BrokerUnknown
    | FailedAuthorityValidation
    | InvalidParameter
    | InvalidResponse
    | InvalidScope
    | MismatchUser
    | NoViewController
    | NonHttpRedirect
    | RedirectSchemeNotRegistered
    | SessionCanceled
    | UiNotSupportedInExtension
    | Unexpected
    | UnhandledResponse

  // The entries of this category appear in 4 separate runs of the table literal.
  const IosInternalRun1: seq<ErrorKey> := [
    IosInternal(BrokerNotAvailable), IosInternal(AccountRequired), IosInternal(AmbiguousAccount),
    IosInternal(AttemptToOpenUrlFromExtension), IosInternal(AuthorizationFailed), IosInternal(BrokerApplicationTokenReadFailed),
    IosInternal(BrokerApplicationTokenWriteFailed), IosInternal(BrokerBadResumeStateFound), IosInternal(BrokerCorruptedResponse),
    IosInternal(BrokerKeyFailedToCreate), IosInternal(BrokerKeyNotFound), IosInternal(BrokerMismatchedResumeState),
    IosInternal(BrokerNoResumeStateFound), IosInternal(BrokerResponseDecryptionFailed), IosInternal(BrokerResponseHashMismatch),
    IosInternal(BrokerResponseHashMissing), IosInternal(BrokerResponseNotReceived), IosInternal(BrokerUnknown),
    IosInternal(FailedAuthorityValidation)
  ]

  const IosInternalRun2: seq<ErrorKey> := [
    IosInternal(InvalidParameter)
  ]

  const IosInternalRun3: seq<ErrorKey> := [
    IosInternal(InvalidResponse), IosInternal(InvalidScope), IosInternal(MismatchUser),
    IosInternal(NoViewController), IosInternal(NonHttpRedirect), IosInternal(RedirectSchemeNotRegistered),
    IosInternal(SessionCanceled), IosInternal(UiNotSupportedInExtension)
  ]

  const IosInternalRun4: seq<ErrorKey> := [
    IosInternal(Unexpected), IosInternal(UnhandledResponse)
  ]

  const IosInternalKeys: seq<ErrorKey> := IosInternalRun1 + IosInternalRun2 + IosInternalRun3 + IosInternalRun4

  lemma IosInternalKeysComplete(c: IosInternalKey)
    ensures IosInternal(c) in IosInternalKeys
  {
  }

  function IosInternalName(c: IosInternalKey): (r: string)
    ensures |r| > 0
  {
    match c
    case BrokerNotAvailable => "broker_not_available"
    case AccountRequired => "account_required"
    case AmbiguousAccount => "ambiguous_account"
    case AttemptToOpenUrlFromExtension => "attempt_to_open_url_from_extension"
    case AuthorizationFailed => "authorization_failed"
    case BrokerApplicationTokenReadFailed => "broker_application_token_read_failed"
    case BrokerApplicationTokenWriteFailed => "broker_application_token_write_failed"
    case BrokerBadResumeStateFound => "broker_bad_resume_state_found"
    case BrokerCorruptedResponse => "broker_corrupted_response"
    case BrokerKeyFailedToCreate => "broker_key_failed_to_create"
    case BrokerKeyNotFound => "broker_key_not_found"
    case BrokerMismatchedResumeState => "broker_mismatched_resume_state"
    case BrokerNoResumeStateFound => "broker_no_resume_state_found"
    case BrokerResponseDecryptionFailed => "broker_response_decryption_failed"
    case BrokerResponseHashMismatch => "broker_response_hash_mismatch"
    case BrokerResponseHashMissing => "broker_response_hash_missing"
    case BrokerResponseNotReceived => "broker_response_not_received"
    case BrokerUnknown => "broker_unknown"
    case FailedAuthorityValidation => "failed_authority_validation"
    case InvalidParameter => "invalid_parameter"
    case InvalidResponse => "invalid_response"
    case InvalidScope => "invalid_scope"
    case MismatchUser => "mismatch_user"
    case NoViewController => "no_view_controller"
    case NonHttpRedirect => "non_http_redirect"
    case RedirectSchemeNotRegistered => "redirect_scheme_not_registered"
    case SessionCanceled => "session_canceled"
    case UiNotSupportedInExtension => "ui_not_supported_in_extension"
    case Unexpected => "unexpected"
    case UnhandledResponse => "unhandled_response"
  }

  // ---- entries with errorType absent ----

  datatype UntypedKey =
      PkceNotGenerated
    | CryptoDoesNotExist

  const UntypedRun1: seq<ErrorKey> := [
    Untyped(PkceNotGenerated), Untyped(CryptoDoesNotExist)
  ]

  const UntypedKeys: seq<ErrorKey> := UntypedRun1

  lemma UntypedKeysComplete(c: UntypedKey)
    ensures Untyped(c) in UntypedKeys
  {
  }

  function UntypedName(c: UntypedKey): (r: string)
    ensures |r| > 0
  {
    match c
    case PkceNotGenerated => "pkceNotGenerated"
    case CryptoDoesNotExist => "cryptoDoesNotExist"
  }

  function UntypedMessage(c: UntypedKey): string {
    match c
    case PkceNotGenerated => "The PKCE code challenge and verifier could not be generated."
    case CryptoDoesNotExist => "The crypto object or function is not available."
  }

  // ---- the whole table ----

  /** A key of the table. */
  datatype ErrorKey =
      ClientAuth(clientAuthKey: ClientAuthKey)
    | ClientConfiguration(clientConfigurationKey: ClientConfigurationKey)
    | BrowserAuth(browserAuthKey: BrowserAuthKey)
    | Internal(internalKey: InternalKey)
    | IosInternal(iosInternalKey: IosInternalKey)
    | Untyped(untypedKey: UntypedKey)

  /** The property name under which each entry is stored. */
  function KeyName(k: ErrorKey): string {
    match k
    case ClientAuth(c) => ClientAuthName(c)
    case ClientConfiguration(c) => ClientConfigurationName(c)
    case BrowserAuth(c) => BrowserAuthName(c)
    case Internal(c) => InternalName(c)
    case IosInternal(c) => IosInternalName(c)
    case Untyped(c) => UntypedName(c)
  }

  /** The keys in the order their properties appear in the table literal: its runs of
      same-category entries, one after the other. */
  const TableKeys: seq<ErrorKey> :=
    ClientAuthRun1 + ClientConfigurationRun1 + UntypedRun1 + BrowserAuthRun1
    + InternalRun1 + BrowserAuthRun2 + IosInternalRun1 + InternalRun2
    + IosInternalRun2 + InternalRun3 + IosInternalRun3 + InternalRun4
    + IosInternalRun4 + InternalRun5

  /** Every key occurs in `TableKeys`. */
  lemma TableKeysComplete(k: ErrorKey)
    ensures k in TableKeys
  {
    match k
    case ClientAuth(c) => ClientAuthKeysComplete(c);
    case ClientConfiguration(c) => ClientConfigurationKeysComplete(c);
    case BrowserAuth(c) => BrowserAuthKeysComplete(c);
    case Internal(c) => InternalKeysComplete(c);
    case IosInternal(c) => IosInternalKeysComplete(c);
    case Untyped(c) => UntypedKeysComplete(c);
  }

  /** The key stored under a property name, if any: a decision on the name's length and then,
      in `KeyOfLength`, on characters that tell the names of that length apart. */
  function KeyOf(s: string): Option<ErrorKey>
  {
    match |s|
    case 10 => KeyOfLength10(s)
    case 13 => KeyOfLength13(s)
    case 14 => KeyOfLength14(s)
    case 15 => KeyOfLength15(s)
    case 16 => KeyOfLength16(s)
    case 17 => KeyOfLength17(s)
    case 18 => KeyOfLength18(s)
    case 19 => KeyOfLength19(s)
    case 20 => KeyOfLength20(s)
    case 21 => KeyOfLength21(s)
    case 22 => KeyOfLength22(s)
    case 23 => KeyOfLength23(s)
    case 24 => KeyOfLength24(s)
    case 25 => KeyOfLength25(s)
    case 26 => KeyOfLength26(s)
    case 27 => KeyOfLength27(s)
    case 28 => KeyOfLength28(s)
    case 29 => KeyOfLength29(s)
    case 30 => KeyOfLength30(s)
    case 31 => KeyOfLength31(s)
    case 32 => KeyOfLength32(s)
    case 33 => KeyOfLength33(s)
    case 34 => KeyOfLength34(s)
    case 36 => KeyOfLength36(s)
    case 37 => KeyOfLength37(s)
    case 38 => KeyOfLength38(s)
    case 39 => KeyOfLength39(s)
    case 41 => KeyOfLength41(s)
    case 47 => KeyOfLength47(s)
    case _ => None
  }

  function KeyOfLength10(s: string): Option<ErrorKey>
    requires |s| == 10
  {
    if s[9] == 'd' then
      if s == "unexpected" then Some(IosInternal(Unexpected)) else None
    else if s[9] == 's' then
      if s == "no_options" then Some(Internal(NoOptions)) else None
    else None
  }

  function KeyOfLength13(s: string): Option<ErrorKey>
    requires |s| == 13
  {
    if s[11] == 'e' then
      if s == "mismatch_user" then Some(IosInternal(MismatchUser)) else None
    else if s[11] == 'n' then
      if s == "invalid_grant" then Some(Internal(InvalidGrant)) else None
    else if s[11] == 'o' then
      if s == "network_error" then Some(ClientAuth(NetworkError)) else None
    else if s[11] == 'p' then
      if s == "invalid_scope" then Some(IosInternal(InvalidScope)) else None
    else if s[11] == 't' then
      if s == "invalid_state" then Some(ClientAuth(InvalidState)) else None
    else None
  }

  function KeyOfLength14(s: string): Option<ErrorKey>
    requires |s| == 14
  {
    if s[11] == 'e' then
      if s == "invalid_client" then Some(Internal(InvalidClient)) else None
    else if s[11] == 'i' then
      if s == "invalid_claims" then Some(ClientConfiguration(InvalidClaims)) else None
    else if s[11] == 'l' then
      if s == "user_cancelled" then Some(BrowserAuth(UserCancelled)) else None
    else if s[11] == 'o' then
      if s == "broker_unknown" then Some(IosInternal(BrokerUnknown)) else None
    else if s[11] == 'r' then
      if s == "login_required" then Some(Internal(LoginRequired)) else None
    else if s[11] == 't' then
      if s[3] == 'c' then
        if s == "nonce_mismatch" then Some(ClientAuth(NonceMismatch)) else None
      else if s[3] == 't' then
        if s == "state_mismatch" then Some(ClientAuth(StateMismatch)) else None
      else None
    else None
  }

  function KeyOfLength15(s: string): Option<ErrorKey>
    requires |s| == 15
  {
    if s[2] == '_' then
      if s == "no_tokens_found" then Some(ClientAuth(NoTokensFound)) else None
    else if s[2] == 'a' then
      if s == "state_not_found" then Some(ClientAuth(StateNotFound)) else None
    else if s[2] == 'l' then
      if s == "url_parse_error" then Some(ClientConfiguration(UrlParseError)) else None
    else if s[2] == 'n' then
      if s == "nonce_not_found" then Some(ClientAuth(NonceNotFound)) else None
    else if s[2] == 'p' then
      if s == "empty_url_error" then Some(ClientConfiguration(EmptyUrlError)) else None
    else if s[2] == 'v' then
      if s == "invalid_request" then Some(Internal(InvalidRequest)) else None
    else None
  }

  function KeyOfLength16(s: string): Option<ErrorKey>
    requires |s| == 16
  {
    if s[4] == 'N' then
      if s == "pkceNotGenerated" then Some(Untyped(PkceNotGenerated)) else None
    else if s[4] == '_' then
      if s == "hash_empty_error" then Some(BrowserAuth(HashEmptyError)) else None
    else if s[4] == 'c' then
      if s[15] == 'd' then
        if s == "no_account_found" then Some(ClientAuth(NoAccountFound)) else None
      else if s[15] == 'r' then
        if s == "no_account_error" then Some(BrowserAuth(NoAccountError)) else None
      else None
    else if s[4] == 'e' then
      if s == "consent_required" then Some(Internal(ConsentRequired)) else None
    else if s[4] == 'i' then
      if s == "session_canceled" then Some(IosInternal(SessionCanceled)) else None
    else if s[4] == 'l' then
      if s[14] == 'c' then
        if s == "invalid_resource" then Some(Internal(InvalidResource)) else None
      else if s[14] == 's' then
        if s == "invalid_response" then Some(IosInternal(InvalidResponse)) else None
      else None
    else if s[4] == 'n' then
      if s == "silent_sso_error" then Some(BrowserAuth(SilentSsoError)) else None
    else if s[4] == 'r' then
      if s == "no_crypto_object" then Some(ClientAuth(NoCryptoObject)) else None
    else if s[4] == 't' then
      if s == "no_state_in_hash" then Some(BrowserAuth(NoStateInHash)) else None
    else if s[4] == 'u' then
      if s == "account_required" then Some(IosInternal(AccountRequired)) else None
    else None
  }

  function KeyOfLength17(s: string): Option<ErrorKey>
    requires |s| == 17
  {
    if s[14] == 'e' then
      if s == "non_http_redirect" then Some(IosInternal(NonHttpRedirect)) else None
    else if s[14] == 'i' then
      if s == "invalid_assertion" then Some(ClientAuth(InvalidAssertion)) else None
    else if s[14] == 'p' then
      if s == "database_not_open" then Some(BrowserAuth(DatabaseNotOpen)) else None
    else if s[14] == 't' then
      if s == "invalid_parameter" then Some(IosInternal(InvalidParameter)) else None
    else if s[14] == 'u' then
      if s == "ambiguous_account" then Some(IosInternal(AmbiguousAccount)) else None
    else None
  }

  function KeyOfLength18(s: string): Option<ErrorKey>
    requires |s| == 18
  {
    if s[15] == 'a' then
      if s == "redirect_in_iframe" then Some(BrowserAuth(RedirectInIframe)) else None
    else if s[15] == 'i' then
      if s == "cryptoDoesNotExist" then Some(Untyped(CryptoDoesNotExist)) else None
    else if s[15] == 'l' then
      if s[17] == 'd' then
        if s == "get_request_failed" then Some(BrowserAuth(GetRequestFailed)) else None
      else if s[17] == 'r' then
        if s == "no_view_controller" then Some(IosInternal(NoViewController)) else None
      else None
    else if s[15] == 'n' then
      if s == "unhandled_response" then Some(IosInternal(UnhandledResponse)) else None
    else if s[15] == 'p' then
      if s == "redirect_uri_empty" then Some(ClientConfiguration(RedirectUriEmpty)) else None
    else if s[15] == 'r' then
      if s[4] == 'p' then
        if s == "popup_window_error" then Some(BrowserAuth(PopupWindowError)) else None
      else if s[4] == 'y' then
        if s == "empty_window_error" then Some(BrowserAuth(EmptyWindowError)) else None
      else None
    else if s[15] == 'u' then
      if s == "empty_navigate_uri" then Some(BrowserAuth(EmptyNavigateUri)) else None
    else if s[15] == 'y' then
      if s == "invalid_cache_type" then Some(ClientAuth(InvalidCacheType)) else None
    else None
  }

  function KeyOfLength19(s: string): Option<ErrorKey>
    requires |s| == 19
  {
    if s[9] == '_' then
      if s == "untrusted_authority" then Some(ClientConfiguration(UntrustedAuthority)) else None
    else if s[9] == 'a' then
      if s == "block_iframe_reload" then Some(BrowserAuth(BlockIframeReload)) else None
    else if s[9] == 'd' then
      if s == "device_code_expired" then Some(ClientAuth(DeviceCodeExpired)) else None
    else if s[9] == 'e' then
      if s == "post_request_failed" then Some(BrowserAuth(PostRequestFailed)) else None
    else if s[9] == 'm' then
      if s[18] == 'g' then
        if s == "pkce_params_missing" then Some(ClientConfiguration(PkceParamsMissing)) else None
      else if s[18] == 'n' then
        if s == "null_or_empty_token" then Some(ClientAuth(NullOrEmptyToken)) else None
      else None
    else if s[9] == 'n' then
      if s == "openid_config_error" then Some(ClientAuth(OpenidConfigError)) else None
    else if s[9] == 'p' then
      if s == "invalid_options_set" then Some(Internal(InvalidOptionsSet)) else None
    else if s[9] == 's' then
      if s == "token_parsing_error" then Some(ClientAuth(TokenParsingError)) else None
    else if s[9] == 't' then
      if s == "block_nested_popups" then Some(BrowserAuth(BlockNestedPopups)) else None
    else if s[9] == 'u' then
      if s == "token_request_empty" then Some(ClientConfiguration(TokenRequestEmpty)) else None
    else if s[9] == 'z' then
      if s == "unauthorized_client" then Some(Internal(UnauthorizedClient)) else None
    else None
  }

  function KeyOfLength20(s: string): Option<ErrorKey>
    requires |s| == 20
  {
    if s[17] == 'b' then
      if s == "broker_not_available" then Some(IosInternal(BrokerNotAvailable)) else None
    else if s[17] == 'h' then
      if s == "user_timeout_reached" then Some(ClientAuth(UserTimeoutReached)) else None
    else if s[17] == 'l' then
      if s[19] == 'd' then
        if s == "authorization_failed" then Some(IosInternal(AuthorizationFailed)) else None
      else if s[19] == 'e' then
        if s == "invalid_prompt_value" then Some(ClientConfiguration(InvalidPromptValue)) else None
      else None
    else if s[17] == 'o' then
      if s == "invalid_cache_record" then Some(ClientAuth(InvalidCacheRecord)) else None
    else if s[17] == 'p' then
      if s == "logout_request_empty" then Some(ClientConfiguration(LogoutRequestEmpty)) else None
    else if s[17] == 'r' then
      if s == "interaction_required" then Some(Internal(InteractionRequired)) else None
    else if s[17] == 's' then
      if s == "empty_input_scopeset" then Some(ClientAuth(EmptyInputScopeset)) else None
    else if s[17] == 't' then
      if s == "blank_guid_generated" then Some(ClientAuth(BlankGuidGenerated)) else None
    else if s[17] == 'u' then
      if s == "broker_key_not_found" then Some(IosInternal(BrokerKeyNotFound)) else None
    else None
  }

  function KeyOfLength21(s: string): Option<ErrorKey>
    requires |s| == 21
  {
    if s[20] == 'd' then
      if s == "hash_not_deserialized" then Some(ClientAuth(HashNotDeserialized)) else None
    else if s[20] == 'e' then
      if s == "unable_to_parse_state" then Some(BrowserAuth(UnableToParseState)) else None
    else if s[20] == 'y' then
      if s == "post_logout_uri_empty" then Some(ClientConfiguration(PostLogoutUriEmpty)) else None
    else None
  }

  function KeyOfLength22(s: string): Option<ErrorKey>
    requires |s| == 22
  {
    if s[19] == 'a' then
      if s == "request_cannot_be_made" then Some(ClientAuth(RequestCannotBeMade)) else None
    else if s[19] == 'o' then
      if s == "monitor_window_timeout" then Some(BrowserAuth(MonitorWindowTimeout)) else None
    else if s[19] == 'r' then
      if s == "token_refresh_required" then Some(ClientAuth(TokenRefreshRequired)) else None
    else if s[19] == 's' then
      if s == "cannot_append_scopeset" then Some(ClientAuth(CannotAppendScopeset)) else None
    else if s[19] == 'u' then
      if s == "authority_uri_insecure" then Some(ClientConfiguration(AuthorityUriInsecure)) else None
    else if s[19] == 'y' then
      if s == "unsupported_grant_type" then Some(Internal(UnsupportedGrantType)) else None
    else None
  }

  function KeyOfLength23(s: string): Option<ErrorKey>
    requires |s| == 23
  {
    if s[21] == 'l' then
      if s == "temporarily_unavailable" then Some(Internal(TemporarilyUnavailable)) else None
    else if s[21] == 'n' then
      if s == "non_browser_environment" then Some(BrowserAuth(NonBrowserEnvironment)) else None
    else if s[21] == 'o' then
      if s == "client_info_empty_error" then Some(ClientAuth(ClientInfoEmptyError)) else None
    else if s[21] == 'p' then
      if s == "unexpected_account_type" then Some(ClientAuth(UnexpectedAccountType)) else None
    else if s[21] == 's' then
      if s == "interaction_in_progress" then Some(BrowserAuth(InteractionInProgress)) else None
    else if s[21] == 't' then
      if s == "no_network_connectivity" then Some(BrowserAuth(NoNetworkConnectivity)) else None
    else None
  }

  function KeyOfLength24(s: string): Option<ErrorKey>
    requires |s| == 24
  {
    if s[23] == 'e' then
      if s == "failed_to_parse_response" then Some(BrowserAuth(FailedToParseResponse)) else None
    else if s[23] == 'l' then
      if s == "access_token_entity_null" then Some(ClientAuth(AccessTokenEntityNull)) else None
    else if s[23] == 'r' then
      if s == "empty_input_scopes_error" then Some(ClientConfiguration(EmptyInputScopesError)) else None
    else if s[23] == 's' then
      if s == "multiple_matching_tokens" then Some(ClientAuth(MultipleMatchingTokens)) else None
    else None
  }

  function KeyOfLength25(s: string): Option<ErrorKey>
    requires |s| == 25
  {
    if s[10] == 'a' then
      if s == "no_cached_authority_error" then Some(BrowserAuth(NoCachedAuthorityError)) else None
    else if s[10] == 'c' then
      if s == "invalid_cache_environment" then Some(ClientAuth(InvalidCacheEnvironment)) else None
    else if s[10] == 'e' then
      if s == "cannot_append_empty_scope" then Some(ClientAuth(CannotAppendEmptyScope)) else None
    else if s[10] == 'i' then
      if s == "invalid_client_credential" then Some(ClientAuth(InvalidClientCredential)) else None
    else if s[10] == 'm' then
      if s == "silent_prompt_value_error" then Some(BrowserAuth(SilentPromptValueError)) else None
    else if s[10] == 'o' then
      if s == "cannot_remove_empty_scope" then Some(ClientAuth(CannotRemoveEmptyScope)) else None
    else if s[10] == 'r' then
      if s == "broker_corrupted_response" then Some(IosInternal(BrokerCorruptedResponse)) else None
    else if s[10] == 's' then
      if s == "iframe_closed_prematurely" then Some(BrowserAuth(IframeClosedPrematurely)) else None
    else None
  }

  function KeyOfLength26(s: string): Option<ErrorKey>
    requires |s| == 26
  {
    if s[19] == 'a' then
      if s == "unexpected_credential_type" then Some(ClientAuth(UnexpectedCredentialType)) else None
    else if s[19] == 'c' then
      if s == "multiple_matching_accounts" then Some(ClientAuth(MultipleMatchingAccounts)) else None
    else if s[19] == 'e' then
      if s == "invalid_authority_metadata" then Some(ClientConfiguration(InvalidAuthorityMetadata)) else None
    else if s[19] == 'g' then
      if s == "client_info_decoding_error" then Some(ClientAuth(ClientInfoDecodingError)) else None
    else if s[19] == 'n' then
      if s == "endpoints_resolution_error" then Some(ClientAuth(EndpointsResolutionError)) else None
    else if s[19] == 't' then
      if s == "auth_request_not_set_error" then Some(BrowserAuth(AuthRequestNotSetError)) else None
    else None
  }

  function KeyOfLength27(s: string): Option<ErrorKey>
    requires |s| == 27
  {
    if s[7] == 'a' then
      if s == "failed_authority_validation" then Some(IosInternal(FailedAuthorityValidation)) else None
    else if s[7] == 'd' then
      if s == "clientid_input_scopes_error" then Some(ClientConfiguration(ClientidInputScopesError)) else None
    else if s[7] == 'k' then
      if s == "broker_key_failed_to_create" then Some(IosInternal(BrokerKeyFailedToCreate)) else None
    else if s[7] == 't' then
      if s == "http_method_not_implemented" then Some(BrowserAuth(HttpMethodNotImplemented)) else None
    else if s[7] == 'y' then
      if s == "nonarray_input_scopes_error" then Some(ClientConfiguration(NonarrayInputScopesError)) else None
    else None
  }

  function KeyOfLength28(s: string): Option<ErrorKey>
    requires |s| == 28
  {
    if s[19] == '_' then
      if s == "broker_response_not_received" then Some(IosInternal(BrokerResponseNotReceived)) else None
    else if s[19] == 'a' then
      if s == "broker_no_resume_state_found" then Some(IosInternal(BrokerNoResumeStateFound)) else None
    else if s[19] == 'c' then
      if s == "no_token_request_cache_error" then Some(BrowserAuth(NoTokenRequestCacheError)) else None
    else if s[19] == 'h' then
      if s == "broker_response_hash_missing" then Some(IosInternal(BrokerResponseHashMissing)) else None
    else if s[19] == 'i' then
      if s == "claims_request_parsing_error" then Some(ClientConfiguration(ClaimsRequestParsingError)) else None
    else if s[19] == 't' then
      if s == "no_account_in_silent_request" then Some(ClientAuth(NoAccountInSilentRequest)) else None
    else None
  }

  function KeyOfLength29(s: string): Option<ErrorKey>
    requires |s| == 29
  {
    if s[26] == 'a' then
      if s == "multiple_matching_appMetadata" then Some(ClientAuth(MultipleMatchingAppMetadata)) else None
    else if s[26] == 'h' then
      if s == "invalid_code_challenge_method" then Some(ClientConfiguration(InvalidCodeChallengeMethod)) else None
    else if s[26] == 'i' then
      if s == "ui_not_supported_in_extension" then Some(IosInternal(UiNotSupportedInExtension)) else None
    else if s[26] == 'l' then
      if s == "device_code_polling_cancelled" then Some(ClientAuth(DeviceCodePollingCancelled)) else None
    else if s[26] == 't' then
      if s == "broker_response_hash_mismatch" then Some(IosInternal(BrokerResponseHashMismatch)) else None
    else if s[26] == 'u' then
      if s == "broker_bad_resume_state_found" then Some(IosInternal(BrokerBadResumeStateFound)) else None
    else None
  }

  function KeyOfLength30(s: string): Option<ErrorKey>
    requires |s| == 30
  {
    if s[29] == 'd' then
      if s == "redirect_scheme_not_registered" then Some(IosInternal(RedirectSchemeNotRegistered)) else None
    else if s[29] == 'e' then
      if s == "broker_mismatched_resume_state" then Some(IosInternal(BrokerMismatchedResumeState)) else None
    else None
  }

  function KeyOfLength31(s: string): Option<ErrorKey>
    requires |s| == 31
  {
    if s == "state_interaction_type_mismatch" then Some(BrowserAuth(StateInteractionTypeMismatch)) else None
  }

  function KeyOfLength32(s: string): Option<ErrorKey>
    requires |s| == 32
  {
    if s == "invalid_cloud_discovery_metadata" then Some(ClientConfiguration(InvalidCloudDiscoveryMetadata)) else None
  }

  function KeyOfLength33(s: string): Option<ErrorKey>
    requires |s| == 33
  {
    if s == "broker_response_decryption_failed" then Some(IosInternal(BrokerResponseDecryptionFailed)) else None
  }

  function KeyOfLength34(s: string): Option<ErrorKey>
    requires |s| == 34
  {
    if s == "attempt_to_open_url_from_extension" then Some(IosInternal(AttemptToOpenUrlFromExtension)) else None
  }

  function KeyOfLength36(s: string): Option<ErrorKey>
    requires |s| == 36
  {
    if s == "broker_application_token_read_failed" then Some(IosInternal(BrokerApplicationTokenReadFailed)) else None
  }

  function KeyOfLength37(s: string): Option<ErrorKey>
    requires |s| == 37
  {
    if s == "broker_application_token_write_failed" then Some(IosInternal(BrokerApplicationTokenWriteFailed)) else None
  }

  function KeyOfLength38(s: string): Option<ErrorKey>
    requires |s| == 38
  {
    if s == "hash_does_not_contain_known_properties" then Some(BrowserAuth(HashDoesNotContainKnownProperties)) else None
  }

  function KeyOfLength39(s: string): Option<ErrorKey>
    requires |s| == 39
  {
    if s == "token_claims_cnf_required_for_signedjwt" then Some(ClientAuth(TokenClaimsCnfRequiredForSignedjwt)) else None
  }

  function KeyOfLength41(s: string): Option<ErrorKey>
    requires |s| == 41
  {
    if s == "unable_to_parse_token_request_cache_error" then Some(BrowserAuth(UnableToParseTokenRequestCacheError)) else None
  }

  function KeyOfLength47(s: string): Option<ErrorKey>
    requires |s| == 47
  {
    if s == "authorization_code_missing_from_server_response" then Some(ClientAuth(AuthorizationCodeMissingFromServerResponse)) else None
  }

  lemma ClientAuthKeyOfClientInfoDecodingError()
    ensures KeyOf(ClientAuthName(ClientInfoDecodingError)) == Some(ClientAuth(ClientInfoDecodingError))
  {
  }

  lemma ClientAuthKeyOfClientInfoEmptyError()
    ensures KeyOf(ClientAuthName(ClientInfoEmptyError)) == Some(ClientAuth(ClientInfoEmptyError))
  {
  }

  lemma ClientAuthKeyOfTokenParsingError()
    ensures KeyOf(ClientAuthName(TokenParsingError)) == Some(ClientAuth(TokenParsingError))
  {
  }

  lemma ClientAuthKeyOfNullOrEmptyToken()
    ensures KeyOf(ClientAuthName(NullOrEmptyToken)) == Some(ClientAuth(NullOrEmptyToken))
  {
  }

  lemma ClientAuthKeyOfEndpointsResolutionError()
    ensures KeyOf(ClientAuthName(EndpointsResolutionError)) == Some(ClientAuth(EndpointsResolutionError))
  {
  }

  lemma ClientAuthKeyOfNetworkError()
    ensures KeyOf(ClientAuthName(NetworkError)) == Some(ClientAuth(NetworkError))
  {
  }

  lemma ClientAuthKeyOfOpenidConfigError()
    ensures KeyOf(ClientAuthName(OpenidConfigError)) == Some(ClientAuth(OpenidConfigError))
  {
  }

  lemma ClientAuthKeyOfHashNotDeserialized()
    ensures KeyOf(ClientAuthName(HashNotDeserialized)) == Some(ClientAuth(HashNotDeserialized))
  {
  }

  lemma ClientAuthKeyOfBlankGuidGenerated()
    ensures KeyOf(ClientAuthName(BlankGuidGenerated)) == Some(ClientAuth(BlankGuidGenerated))
  {
  }

  lemma ClientAuthKeyOfInvalidState()
    ensures KeyOf(ClientAuthName(InvalidState)) == Some(ClientAuth(InvalidState))
  {
  }

  lemma ClientAuthKeyOfStateMismatch()
    ensures KeyOf(ClientAuthName(StateMismatch)) == Some(ClientAuth(StateMismatch))
  {
  }

  lemma ClientAuthKeyOfStateNotFound()
    ensures KeyOf(ClientAuthName(StateNotFound)) == Some(ClientAuth(StateNotFound))
  {
  }

  lemma ClientAuthKeyOfNonceMismatch()
    ensures KeyOf(ClientAuthName(NonceMismatch)) == Some(ClientAuth(NonceMismatch))
  {
  }

  lemma ClientAuthKeyOfNonceNotFound()
    ensures KeyOf(ClientAuthName(NonceNotFound)) == Some(ClientAuth(NonceNotFound))
  {
  }

  lemma ClientAuthKeyOfNoTokensFound()
    ensures KeyOf(ClientAuthName(NoTokensFound)) == Some(ClientAuth(NoTokensFound))
  {
  }

  lemma ClientAuthKeyOfMultipleMatchingTokens()
    ensures KeyOf(ClientAuthName(MultipleMatchingTokens)) == Some(ClientAuth(MultipleMatchingTokens))
  {
  }

  lemma ClientAuthKeyOfMultipleMatchingAccounts()
    ensures KeyOf(ClientAuthName(MultipleMatchingAccounts)) == Some(ClientAuth(MultipleMatchingAccounts))
  {
  }

  lemma ClientAuthKeyOfMultipleMatchingAppMetadata()
    ensures KeyOf(ClientAuthName(MultipleMatchingAppMetadata)) == Some(ClientAuth(MultipleMatchingAppMetadata))
  {
  }

  lemma ClientAuthKeyOfRequestCannotBeMade()
    ensures KeyOf(ClientAuthName(RequestCannotBeMade)) == Some(ClientAuth(RequestCannotBeMade))
  {
  }

  lemma ClientAuthKeyOfCannotAppendEmptyScope()
    ensures KeyOf(ClientAuthName(CannotAppendEmptyScope)) == Some(ClientAuth(CannotAppendEmptyScope))
  {
  }

  lemma ClientAuthKeyOfCannotRemoveEmptyScope()
    ensures KeyOf(ClientAuthName(CannotRemoveEmptyScope)) == Some(ClientAuth(CannotRemoveEmptyScope))
  {
  }

  lemma ClientAuthKeyOfCannotAppendScopeset()
    ensures KeyOf(ClientAuthName(CannotAppendScopeset)) == Some(ClientAuth(CannotAppendScopeset))
  {
  }

  lemma ClientAuthKeyOfEmptyInputScopeset()
    ensures KeyOf(ClientAuthName(EmptyInputScopeset)) == Some(ClientAuth(EmptyInputScopeset))
  {
  }

  lemma ClientAuthKeyOfDeviceCodePollingCancelled()
    ensures KeyOf(ClientAuthName(DeviceCodePollingCancelled)) == Some(ClientAuth(DeviceCodePollingCancelled))
  {
  }

  lemma ClientAuthKeyOfDeviceCodeExpired()
    ensures KeyOf(ClientAuthName(DeviceCodeExpired)) == Some(ClientAuth(DeviceCodeExpired))
  {
  }

  lemma ClientAuthKeyOfNoAccountInSilentRequest()
    ensures KeyOf(ClientAuthName(NoAccountInSilentRequest)) == Some(ClientAuth(NoAccountInSilentRequest))
  {
  }

  lemma ClientAuthKeyOfInvalidCacheRecord()
    ensures KeyOf(ClientAuthName(InvalidCacheRecord)) == Some(ClientAuth(InvalidCacheRecord))
  {
  }

  lemma ClientAuthKeyOfInvalidCacheEnvironment()
    ensures KeyOf(ClientAuthName(InvalidCacheEnvironment)) == Some(ClientAuth(InvalidCacheEnvironment))
  {
  }

  lemma ClientAuthKeyOfNoAccountFound()
    ensures KeyOf(ClientAuthName(NoAccountFound)) == Some(ClientAuth(NoAccountFound))
  {
  }

  lemma ClientAuthKeyOfNoCryptoObject()
    ensures KeyOf(ClientAuthName(NoCryptoObject)) == Some(ClientAuth(NoCryptoObject))
  {
  }

  lemma ClientAuthKeyOfInvalidCacheType()
    ensures KeyOf(ClientAuthName(InvalidCacheType)) == Some(ClientAuth(InvalidCacheType))
  {
  }

  lemma ClientAuthKeyOfUnexpectedAccountType()
    ensures KeyOf(ClientAuthName(UnexpectedAccountType)) == Some(ClientAuth(UnexpectedAccountType))
  {
  }

  lemma ClientAuthKeyOfUnexpectedCredentialType()
    ensures KeyOf(ClientAuthName(UnexpectedCredentialType)) == Some(ClientAuth(UnexpectedCredentialType))
  {
  }

  lemma ClientAuthKeyOfInvalidAssertion()
    ensures KeyOf(ClientAuthName(InvalidAssertion)) == Some(ClientAuth(InvalidAssertion))
  {
  }

  lemma ClientAuthKeyOfInvalidClientCredential()
    ensures KeyOf(ClientAuthName(InvalidClientCredential)) == Some(ClientAuth(InvalidClientCredential))
  {
  }

  lemma ClientAuthKeyOfTokenRefreshRequired()
    ensures KeyOf(ClientAuthName(TokenRefreshRequired)) == Some(ClientAuth(TokenRefreshRequired))
  {
  }

  lemma ClientAuthKeyOfUserTimeoutReached()
    ensures KeyOf(ClientAuthName(UserTimeoutReached)) == Some(ClientAuth(UserTimeoutReached))
  {
  }

  lemma ClientAuthKeyOfTokenClaimsCnfRequiredForSignedjwt()
    ensures KeyOf(ClientAuthName(TokenClaimsCnfRequiredForSignedjwt)) == Some(ClientAuth(TokenClaimsCnfRequiredForSignedjwt))
  {
  }

  lemma ClientAuthKeyOfAuthorizationCodeMissingFromServerResponse()
    ensures KeyOf(ClientAuthName(AuthorizationCodeMissingFromServerResponse)) == Some(ClientAuth(AuthorizationCodeMissingFromServerResponse))
  {
  }

  lemma ClientAuthKeyOfAccessTokenEntityNull()
    ensures KeyOf(ClientAuthName(AccessTokenEntityNull)) == Some(ClientAuth(AccessTokenEntityNull))
  {
  }

  lemma ClientAuthKeyOf(c: ClientAuthKey)
    ensures KeyOf(ClientAuthName(c)) == Some(ClientAuth(c))
  {
    match c
    case ClientInfoDecodingError => ClientAuthKeyOfClientInfoDecodingError();
    case ClientInfoEmptyError => ClientAuthKeyOfClientInfoEmptyError();
    case TokenParsingError => ClientAuthKeyOfTokenParsingError();
    case NullOrEmptyToken => ClientAuthKeyOfNullOrEmptyToken();
    case EndpointsResolutionError => ClientAuthKeyOfEndpointsResolutionError();
    case NetworkError => ClientAuthKeyOfNetworkError();
    case OpenidConfigError => ClientAuthKeyOfOpenidConfigError();
    case HashNotDeserialized => ClientAuthKeyOfHashNotDeserialized();
    case BlankGuidGenerated => ClientAuthKeyOfBlankGuidGenerated();
    case InvalidState => ClientAuthKeyOfInvalidState();
    case StateMismatch => ClientAuthKeyOfStateMismatch();
    case StateNotFound => ClientAuthKeyOfStateNotFound();
    case NonceMismatch => ClientAuthKeyOfNonceMismatch();
    case NonceNotFound => ClientAuthKeyOfNonceNotFound();
    case NoTokensFound => ClientAuthKeyOfNoTokensFound();
    case MultipleMatchingTokens => ClientAuthKeyOfMultipleMatchingTokens();
    case MultipleMatchingAccounts => ClientAuthKeyOfMultipleMatchingAccounts();
    case MultipleMatchingAppMetadata => ClientAuthKeyOfMultipleMatchingAppMetadata();
    case RequestCannotBeMade => ClientAuthKeyOfRequestCannotBeMade();
    case CannotAppendEmptyScope => ClientAuthKeyOfCannotAppendEmptyScope();
    case CannotRemoveEmptyScope => ClientAuthKeyOfCannotRemoveEmptyScope();
    case CannotAppendScopeset => ClientAuthKeyOfCannotAppendScopeset();
    case EmptyInputScopeset => ClientAuthKeyOfEmptyInputScopeset();
    case DeviceCodePollingCancelled => ClientAuthKeyOfDeviceCodePollingCancelled();
    case DeviceCodeExpired => ClientAuthKeyOfDeviceCodeExpired();
    case NoAccountInSilentRequest => ClientAuthKeyOfNoAccountInSilentRequest();
    case InvalidCacheRecord => ClientAuthKeyOfInvalidCacheRecord();
    case InvalidCacheEnvironment => ClientAuthKeyOfInvalidCacheEnvironment();
    case NoAccountFound => ClientAuthKeyOfNoAccountFound();
    case NoCryptoObject => ClientAuthKeyOfNoCryptoObject();
    case InvalidCacheType => ClientAuthKeyOfInvalidCacheType();
    case UnexpectedAccountType => ClientAuthKeyOfUnexpectedAccountType();
    case UnexpectedCredentialType => ClientAuthKeyOfUnexpectedCredentialType();
    case InvalidAssertion => ClientAuthKeyOfInvalidAssertion();
    case InvalidClientCredential => ClientAuthKeyOfInvalidClientCredential();
    case TokenRefreshRequired => ClientAuthKeyOfTokenRefreshRequired();
    case UserTimeoutReached => ClientAuthKeyOfUserTimeoutReached();
    case TokenClaimsCnfRequiredForSignedjwt => ClientAuthKeyOfTokenClaimsCnfRequiredForSignedjwt();
    case AuthorizationCodeMissingFromServerResponse => ClientAuthKeyOfAuthorizationCodeMissingFromServerResponse();
    case AccessTokenEntityNull => ClientAuthKeyOfAccessTokenEntityNull();
  }

  lemma ClientConfigurationKeyOfRedirectUriEmpty()
    ensures KeyOf(ClientConfigurationName(RedirectUriEmpty)) == Some(ClientConfiguration(RedirectUriEmpty))
  {
  }

  lemma ClientConfigurationKeyOfPostLogoutUriEmpty()
    ensures KeyOf(ClientConfigurationName(PostLogoutUriEmpty)) == Some(ClientConfiguration(PostLogoutUriEmpty))
  {
  }

  lemma ClientConfigurationKeyOfClaimsRequestParsingError()
    ensures KeyOf(ClientConfigurationName(ClaimsRequestParsingError)) == Some(ClientConfiguration(ClaimsRequestParsingError))
  {
  }

  lemma ClientConfigurationKeyOfAuthorityUriInsecure()
    ensures KeyOf(ClientConfigurationName(AuthorityUriInsecure)) == Some(ClientConfiguration(AuthorityUriInsecure))
  {
  }

  lemma ClientConfigurationKeyOfUrlParseError()
    ensures KeyOf(ClientConfigurationName(UrlParseError)) == Some(ClientConfiguration(UrlParseError))
  {
  }

  lemma ClientConfigurationKeyOfEmptyUrlError()
    ensures KeyOf(ClientConfigurationName(EmptyUrlError)) == Some(ClientConfiguration(EmptyUrlError))
  {
  }

  lemma ClientConfigurationKeyOfEmptyInputScopesError()
    ensures KeyOf(ClientConfigurationName(EmptyInputScopesError)) == Some(ClientConfiguration(EmptyInputScopesError))
  {
  }

  lemma ClientConfigurationKeyOfNonarrayInputScopesError()
    ensures KeyOf(ClientConfigurationName(NonarrayInputScopesError)) == Some(ClientConfiguration(NonarrayInputScopesError))
  {
  }

  lemma ClientConfigurationKeyOfClientidInputScopesError()
    ensures KeyOf(ClientConfigurationName(ClientidInputScopesError)) == Some(ClientConfiguration(ClientidInputScopesError))
  {
  }

  lemma ClientConfigurationKeyOfInvalidPromptValue()
    ensures KeyOf(ClientConfigurationName(InvalidPromptValue)) == Some(ClientConfiguration(InvalidPromptValue))
  {
  }

  lemma ClientConfigurationKeyOfInvalidClaims()
    ensures KeyOf(ClientConfigurationName(InvalidClaims)) == Some(ClientConfiguration(InvalidClaims))
  {
  }

  lemma ClientConfigurationKeyOfTokenRequestEmpty()
    ensures KeyOf(ClientConfigurationName(TokenRequestEmpty)) == Some(ClientConfiguration(TokenRequestEmpty))
  {
  }

  lemma ClientConfigurationKeyOfLogoutRequestEmpty()
    ensures KeyOf(ClientConfigurationName(LogoutRequestEmpty)) == Some(ClientConfiguration(LogoutRequestEmpty))
  {
  }

  lemma ClientConfigurationKeyOfInvalidCodeChallengeMethod()
    ensures KeyOf(ClientConfigurationName(InvalidCodeChallengeMethod)) == Some(ClientConfiguration(InvalidCodeChallengeMethod))
  {
  }

  lemma ClientConfigurationKeyOfPkceParamsMissing()
    ensures KeyOf(ClientConfigurationName(PkceParamsMissing)) == Some(ClientConfiguration(PkceParamsMissing))
  {
  }

  lemma ClientConfigurationKeyOfInvalidCloudDiscoveryMetadata()
    ensures KeyOf(ClientConfigurationName(InvalidCloudDiscoveryMetadata)) == Some(ClientConfiguration(InvalidCloudDiscoveryMetadata))
  {
  }

  lemma ClientConfigurationKeyOfInvalidAuthorityMetadata()
    ensures KeyOf(ClientConfigurationName(InvalidAuthorityMetadata)) == Some(ClientConfiguration(InvalidAuthorityMetadata))
  {
  }

  lemma ClientConfigurationKeyOfUntrustedAuthority()
    ensures KeyOf(ClientConfigurationName(UntrustedAuthority)) == Some(ClientConfiguration(UntrustedAuthority))
  {
  }

  lemma ClientConfigurationKeyOf(c: ClientConfigurationKey)
    ensures KeyOf(ClientConfigurationName(c)) == Some(ClientConfiguration(c))
  {
    match c
    case RedirectUriEmpty => ClientConfigurationKeyOfRedirectUriEmpty();
    case PostLogoutUriEmpty => ClientConfigurationKeyOfPostLogoutUriEmpty();
    case ClaimsRequestParsingError => ClientConfigurationKeyOfClaimsRequestParsingError();
    case AuthorityUriInsecure => ClientConfigurationKeyOfAuthorityUriInsecure();
    case UrlParseError => ClientConfigurationKeyOfUrlParseError();
    case EmptyUrlError => ClientConfigurationKeyOfEmptyUrlError();
    case EmptyInputScopesError => ClientConfigurationKeyOfEmptyInputScopesError();
    case NonarrayInputScopesError => ClientConfigurationKeyOfNonarrayInputScopesError();
    case ClientidInputScopesError => ClientConfigurationKeyOfClientidInputScopesError();
    case InvalidPromptValue => ClientConfigurationKeyOfInvalidPromptValue();
    case InvalidClaims => ClientConfigurationKeyOfInvalidClaims();
    case TokenRequestEmpty => ClientConfigurationKeyOfTokenRequestEmpty();
    case LogoutRequestEmpty => ClientConfigurationKeyOfLogoutRequestEmpty();
    case InvalidCodeChallengeMethod => ClientConfigurationKeyOfInvalidCodeChallengeMethod();
    case PkceParamsMissing => ClientConfigurationKeyOfPkceParamsMissing();
    case InvalidCloudDiscoveryMetadata => ClientConfigurationKeyOfInvalidCloudDiscoveryMetadata();
    case InvalidAuthorityMetadata => ClientConfigurationKeyOfInvalidAuthorityMetadata();
    case UntrustedAuthority => ClientConfigurationKeyOfUntrustedAuthority();
  }

  lemma BrowserAuthKeyOfHttpMethodNotImplemented()
    ensures KeyOf(BrowserAuthName(HttpMethodNotImplemented)) == Some(BrowserAuth(HttpMethodNotImplemented))
  {
  }

  lemma BrowserAuthKeyOfEmptyNavigateUri()
    ensures KeyOf(BrowserAuthName(EmptyNavigateUri)) == Some(BrowserAuth(EmptyNavigateUri))
  {
  }

  lemma BrowserAuthKeyOfHashEmptyError()
    ensures KeyOf(BrowserAuthName(HashEmptyError)) == Some(BrowserAuth(HashEmptyError))
  {
  }

  lemma BrowserAuthKeyOfNoStateInHash()
    ensures KeyOf(BrowserAuthName(NoStateInHash)) == Some(BrowserAuth(NoStateInHash))
  {
  }

  lemma BrowserAuthKeyOfHashDoesNotContainKnownProperties()
    ensures KeyOf(BrowserAuthName(HashDoesNotContainKnownProperties)) == Some(BrowserAuth(HashDoesNotContainKnownProperties))
  {
  }

  lemma BrowserAuthKeyOfUnableToParseState()
    ensures KeyOf(BrowserAuthName(UnableToParseState)) == Some(BrowserAuth(UnableToParseState))
  {
  }

  lemma BrowserAuthKeyOfStateInteractionTypeMismatch()
    ensures KeyOf(BrowserAuthName(StateInteractionTypeMismatch)) == Some(BrowserAuth(StateInteractionTypeMismatch))
  {
  }

  lemma BrowserAuthKeyOfInteractionInProgress()
    ensures KeyOf(BrowserAuthName(InteractionInProgress)) == Some(BrowserAuth(InteractionInProgress))
  {
  }

  lemma BrowserAuthKeyOfPopupWindowError()
    ensures KeyOf(BrowserAuthName(PopupWindowError)) == Some(BrowserAuth(PopupWindowError))
  {
  }

  lemma BrowserAuthKeyOfEmptyWindowError()
    ensures KeyOf(BrowserAuthName(EmptyWindowError)) == Some(BrowserAuth(EmptyWindowError))
  {
  }

  lemma BrowserAuthKeyOfUserCancelled()
    ensures KeyOf(BrowserAuthName(UserCancelled)) == Some(BrowserAuth(UserCancelled))
  {
  }

  lemma BrowserAuthKeyOfMonitorWindowTimeout()
    ensures KeyOf(BrowserAuthName(MonitorWindowTimeout)) == Some(BrowserAuth(MonitorWindowTimeout))
  {
  }

  lemma BrowserAuthKeyOfRedirectInIframe()
    ensures KeyOf(BrowserAuthName(RedirectInIframe)) == Some(BrowserAuth(RedirectInIframe))
  {
  }

  lemma BrowserAuthKeyOfBlockIframeReload()
    ensures KeyOf(BrowserAuthName(BlockIframeReload)) == Some(BrowserAuth(BlockIframeReload))
  {
  }

  lemma BrowserAuthKeyOfBlockNestedPopups()
    ensures KeyOf(BrowserAuthName(BlockNestedPopups)) == Some(BrowserAuth(BlockNestedPopups))
  {
  }

  lemma BrowserAuthKeyOfIframeClosedPrematurely()
    ensures KeyOf(BrowserAuthName(IframeClosedPrematurely)) == Some(BrowserAuth(IframeClosedPrematurely))
  {
  }

  lemma BrowserAuthKeyOfSilentSsoError()
    ensures KeyOf(BrowserAuthName(SilentSsoError)) == Some(BrowserAuth(SilentSsoError))
  {
  }

  lemma BrowserAuthKeyOfNoAccountError()
    ensures KeyOf(BrowserAuthName(NoAccountError)) == Some(BrowserAuth(NoAccountError))
  {
  }

  lemma BrowserAuthKeyOfSilentPromptValueError()
    ensures KeyOf(BrowserAuthName(SilentPromptValueError)) == Some(BrowserAuth(SilentPromptValueError))
  {
  }

  lemma BrowserAuthKeyOfNoTokenRequestCacheError()
    ensures KeyOf(BrowserAuthName(NoTokenRequestCacheError)) == Some(BrowserAuth(NoTokenRequestCacheError))
  {
  }

  lemma BrowserAuthKeyOfUnableToParseTokenRequestCacheError()
    ensures KeyOf(BrowserAuthName(UnableToParseTokenRequestCacheError)) == Some(BrowserAuth(UnableToParseTokenRequestCacheError))
  {
  }

  lemma BrowserAuthKeyOfNoCachedAuthorityError()
    ensures KeyOf(BrowserAuthName(NoCachedAuthorityError)) == Some(BrowserAuth(NoCachedAuthorityError))
  {
  }

  lemma BrowserAuthKeyOfAuthRequestNotSetError()
    ensures KeyOf(BrowserAuthName(AuthRequestNotSetError)) == Some(BrowserAuth(AuthRequestNotSetError))
  {
  }

  lemma BrowserAuthKeyOfNonBrowserEnvironment()
    ensures KeyOf(BrowserAuthName(NonBrowserEnvironment)) == Some(BrowserAuth(NonBrowserEnvironment))
  {
  }

  lemma BrowserAuthKeyOfDatabaseNotOpen()
    ensures KeyOf(BrowserAuthName(DatabaseNotOpen)) == Some(BrowserAuth(DatabaseNotOpen))
  {
  }

  lemma BrowserAuthKeyOfNoNetworkConnectivity()
    ensures KeyOf(BrowserAuthName(NoNetworkConnectivity)) == Some(BrowserAuth(NoNetworkConnectivity))
  {
  }

  lemma BrowserAuthKeyOfPostRequestFailed()
    ensures KeyOf(BrowserAuthName(PostRequestFailed)) == Some(BrowserAuth(PostRequestFailed))
  {
  }

  lemma BrowserAuthKeyOfGetRequestFailed()
    ensures KeyOf(BrowserAuthName(GetRequestFailed)) == Some(BrowserAuth(GetRequestFailed))
  {
  }

  lemma BrowserAuthKeyOfFailedToParseResponse()
    ensures KeyOf(BrowserAuthName(FailedToParseResponse)) == Some(BrowserAuth(FailedToParseResponse))
  {
  }

  lemma BrowserAuthKeyOf(c: BrowserAuthKey)
    ensures KeyOf(BrowserAuthName(c)) == Some(BrowserAuth(c))
  {
    match c
    case HttpMethodNotImplemented => BrowserAuthKeyOfHttpMethodNotImplemented();
    case EmptyNavigateUri => BrowserAuthKeyOfEmptyNavigateUri();
    case HashEmptyError => BrowserAuthKeyOfHashEmptyError();
    case NoStateInHash => BrowserAuthKeyOfNoStateInHash();
    case HashDoesNotContainKnownProperties => BrowserAuthKeyOfHashDoesNotContainKnownProperties();
    case UnableToParseState => BrowserAuthKeyOfUnableToParseState();
    case StateInteractionTypeMismatch => BrowserAuthKeyOfStateInteractionTypeMismatch();
    case InteractionInProgress => BrowserAuthKeyOfInteractionInProgress();
    case PopupWindowError => BrowserAuthKeyOfPopupWindowError();
    case EmptyWindowError => BrowserAuthKeyOfEmptyWindowError();
    case UserCancelled => BrowserAuthKeyOfUserCancelled();
    case MonitorWindowTimeout => BrowserAuthKeyOfMonitorWindowTimeout();
    case RedirectInIframe => BrowserAuthKeyOfRedirectInIframe();
    case BlockIframeReload => BrowserAuthKeyOfBlockIframeReload();
    case BlockNestedPopups => BrowserAuthKeyOfBlockNestedPopups();
    case IframeClosedPrematurely => BrowserAuthKeyOfIframeClosedPrematurely();
    case SilentSsoError => BrowserAuthKeyOfSilentSsoError();
    case NoAccountError => BrowserAuthKeyOfNoAccountError();
    case SilentPromptValueError => BrowserAuthKeyOfSilentPromptValueError();
    case NoTokenRequestCacheError => BrowserAuthKeyOfNoTokenRequestCacheError();
    case UnableToParseTokenRequestCacheError => BrowserAuthKeyOfUnableToParseTokenRequestCacheError();
    case NoCachedAuthorityError => BrowserAuthKeyOfNoCachedAuthorityError();
    case AuthRequestNotSetError => BrowserAuthKeyOfAuthRequestNotSetError();
    case NonBrowserEnvironment => BrowserAuthKeyOfNonBrowserEnvironment();
    case DatabaseNotOpen => BrowserAuthKeyOfDatabaseNotOpen();
    case NoNetworkConnectivity => BrowserAuthKeyOfNoNetworkConnectivity();
    case PostRequestFailed => BrowserAuthKeyOfPostRequestFailed();
    case GetRequestFailed => BrowserAuthKeyOfGetRequestFailed();
    case FailedToParseResponse => BrowserAuthKeyOfFailedToParseResponse();
  }

  lemma InternalKeyOfConsentRequired()
    ensures KeyOf(InternalName(ConsentRequired)) == Some(Internal(ConsentRequired))
  {
  }

  lemma InternalKeyOfLoginRequired()
    ensures KeyOf(InternalName(LoginRequired)) == Some(Internal(LoginRequired))
  {
  }

  lemma InternalKeyOfInteractionRequired()
    ensures KeyOf(InternalName(InteractionRequired)) == Some(Internal(InteractionRequired))
  {
  }

  lemma InternalKeyOfInvalidOptionsSet()
    ensures KeyOf(InternalName(InvalidOptionsSet)) == Some(Internal(InvalidOptionsSet))
  {
  }

  lemma InternalKeyOfUnsupportedGrantType()
    ensures KeyOf(InternalName(UnsupportedGrantType)) == Some(Internal(UnsupportedGrantType))
  {
  }

  lemma InternalKeyOfInvalidResource()
    ensures KeyOf(InternalName(InvalidResource)) == Some(Internal(InvalidResource))
  {
  }

  lemma InternalKeyOfTemporarilyUnavailable()
    ensures KeyOf(InternalName(TemporarilyUnavailable)) == Some(Internal(TemporarilyUnavailable))
  {
  }

  lemma InternalKeyOfInvalidClient()
    ensures KeyOf(InternalName(InvalidClient)) == Some(Internal(InvalidClient))
  {
  }

  lemma InternalKeyOfInvalidGrant()
    ensures KeyOf(InternalName(InvalidGrant)) == Some(Internal(InvalidGrant))
  {
  }

  lemma InternalKeyOfInvalidRequest()
    ensures KeyOf(InternalName(InvalidRequest)) == Some(Internal(InvalidRequest))
  {
  }

  lemma InternalKeyOfUnauthorizedClient()
    ensures KeyOf(InternalName(UnauthorizedClient)) == Some(Internal(UnauthorizedClient))
  {
  }

  lemma InternalKeyOfNoOptions()
    ensures KeyOf(InternalName(NoOptions)) == Some(Internal(NoOptions))
  {
  }

  lemma InternalKeyOf(c: InternalKey)
    ensures KeyOf(InternalName(c)) == Some(Internal(c))
  {
    match c
    case ConsentRequired => InternalKeyOfConsentRequired();
    case LoginRequired => InternalKeyOfLoginRequired();
    case InteractionRequired => InternalKeyOfInteractionRequired();
    case InvalidOptionsSet => InternalKeyOfInvalidOptionsSet();
    case UnsupportedGrantType => InternalKeyOfUnsupportedGrantType();
    case InvalidResource => InternalKeyOfInvalidResource();
    case TemporarilyUnavailable => InternalKeyOfTemporarilyUnavailable();
    case InvalidClient => InternalKeyOfInvalidClient();
    case InvalidGrant => InternalKeyOfInvalidGrant();
    case InvalidRequest => InternalKeyOfInvalidRequest();
    case UnauthorizedClient => InternalKeyOfUnauthorizedClient();
    case NoOptions => InternalKeyOfNoOptions();
  }

  lemma IosInternalKeyOfBrokerNotAvailable()
    ensures KeyOf(IosInternalName(BrokerNotAvailable)) == Some(IosInternal(BrokerNotAvailable))
  {
  }

  lemma IosInternalKeyOfAccountRequired()
    ensures KeyOf(IosInternalName(AccountRequired)) == Some(IosInternal(AccountRequired))
  {
  }

  lemma IosInternalKeyOfAmbiguousAccount()
    ensures KeyOf(IosInternalName(AmbiguousAccount)) == Some(IosInternal(AmbiguousAccount))
  {
  }

  lemma IosInternalKeyOfAttemptToOpenUrlFromExtension()
    ensures KeyOf(IosInternalName(AttemptToOpenUrlFromExtension)) == Some(IosInternal(AttemptToOpenUrlFromExtension))
  {
  }

  lemma IosInternalKeyOfAuthorizationFailed()
    ensures KeyOf(IosInternalName(AuthorizationFailed)) == Some(IosInternal(AuthorizationFailed))
  {
  }

  lemma IosInternalKeyOfBrokerApplicationTokenReadFailed()
    ensures KeyOf(IosInternalName(BrokerApplicationTokenReadFailed)) == Some(IosInternal(BrokerApplicationTokenReadFailed))
  {
  }

  lemma IosInternalKeyOfBrokerApplicationTokenWriteFailed()
    ensures KeyOf(IosInternalName(BrokerApplicationTokenWriteFailed)) == Some(IosInternal(BrokerApplicationTokenWriteFailed))
  {
  }

  lemma IosInternalKeyOfBrokerBadResumeStateFound()
    ensures KeyOf(IosInternalName(BrokerBadResumeStateFound)) == Some(IosInternal(BrokerBadResumeStateFound))
  {
  }

  lemma IosInternalKeyOfBrokerCorruptedResponse()
    ensures KeyOf(IosInternalName(BrokerCorruptedResponse)) == Some(IosInternal(BrokerCorruptedResponse))
  {
  }

  lemma IosInternalKeyOfBrokerKeyFailedToCreate()
    ensures KeyOf(IosInternalName(BrokerKeyFailedToCreate)) == Some(IosInternal(BrokerKeyFailedToCreate))
  {
  }

  lemma IosInternalKeyOfBrokerKeyNotFound()
    ensures KeyOf(IosInternalName(BrokerKeyNotFound)) == Some(IosInternal(BrokerKeyNotFound))
  {
  }

  lemma IosInternalKeyOfBrokerMismatchedResumeState()
    ensures KeyOf(IosInternalName(BrokerMismatchedResumeState)) == Some(IosInternal(BrokerMismatchedResumeState))
  {
  }

  lemma IosInternalKeyOfBrokerNoResumeStateFound()
    ensures KeyOf(IosInternalName(BrokerNoResumeStateFound)) == Some(IosInternal(BrokerNoResumeStateFound))
  {
  }

  lemma IosInternalKeyOfBrokerResponseDecryptionFailed()
    ensures KeyOf(IosInternalName(BrokerResponseDecryptionFailed)) == Some(IosInternal(BrokerResponseDecryptionFailed))
  {
  }

  lemma IosInternalKeyOfBrokerResponseHashMismatch()
    ensures KeyOf(IosInternalName(BrokerResponseHashMismatch)) == Some(IosInternal(BrokerResponseHashMismatch))
  {
  }

  lemma IosInternalKeyOfBrokerResponseHashMissing()
    ensures KeyOf(IosInternalName(BrokerResponseHashMissing)) == Some(IosInternal(BrokerResponseHashMissing))
  {
  }

  lemma IosInternalKeyOfBrokerResponseNotReceived()
    ensures KeyOf(IosInternalName(BrokerResponseNotReceived)) == Some(IosInternal(BrokerResponseNotReceived))
  {
  }

  lemma IosInternalKeyOfBrokerUnknown()
    ensures KeyOf(IosInternalName(BrokerUnknown)) == Some(IosInternal(BrokerUnknown))
  {
  }

  lemma IosInternalKeyOfFailedAuthorityValidation()
    ensures KeyOf(IosInternalName(FailedAuthorityValidation)) == Some(IosInternal(FailedAuthorityValidation))
  {
  }

  lemma IosInternalKeyOfInvalidParameter()
    ensures KeyOf(IosInternalName(InvalidParameter)) == Some(IosInternal(InvalidParameter))
  {
  }

  lemma IosInternalKeyOfInvalidResponse()
    ensures KeyOf(IosInternalName(InvalidResponse)) == Some(IosInternal(InvalidResponse))
  {
  }

  lemma IosInternalKeyOfInvalidScope()
    ensures KeyOf(IosInternalName(InvalidScope)) == Some(IosInternal(InvalidScope))
  {
  }

  lemma IosInternalKeyOfMismatchUser()
    ensures KeyOf(IosInternalName(MismatchUser)) == Some(IosInternal(MismatchUser))
  {
  }

  lemma IosInternalKeyOfNoViewController()
    ensures KeyOf(IosInternalName(NoViewController)) == Some(IosInternal(NoViewController))
  {
  }

  lemma IosInternalKeyOfNonHttpRedirect()
    ensures KeyOf(IosInternalName(NonHttpRedirect)) == Some(IosInternal(NonHttpRedirect))
  {
  }

  lemma IosInternalKeyOfRedirectSchemeNotRegistered()
    ensures KeyOf(IosInternalName(RedirectSchemeNotRegistered)) == Some(IosInternal(RedirectSchemeNotRegistered))
  {
  }

  lemma IosInternalKeyOfSessionCanceled()
    ensures KeyOf(IosInternalName(SessionCanceled)) == Some(IosInternal(SessionCanceled))
  {
  }

  lemma IosInternalKeyOfUiNotSupportedInExtension()
    ensures KeyOf(IosInternalName(UiNotSupportedInExtension)) == Some(IosInternal(UiNotSupportedInExtension))
  {
  }

  lemma IosInternalKeyOfUnexpected()
    ensures KeyOf(IosInternalName(Unexpected)) == Some(IosInternal(Unexpected))
  {
  }

  lemma IosInternalKeyOfUnhandledResponse()
    ensures KeyOf(IosInternalName(UnhandledResponse)) == Some(IosInternal(UnhandledResponse))
  {
  }

  lemma IosInternalKeyOf(c: IosInternalKey)
    ensures KeyOf(IosInternalName(c)) == Some(IosInternal(c))
  {
    match c
    case BrokerNotAvailable => IosInternalKeyOfBrokerNotAvailable();
    case AccountRequired => IosInternalKeyOfAccountRequired();
    case AmbiguousAccount => IosInternalKeyOfAmbiguousAccount();
    case AttemptToOpenUrlFromExtension => IosInternalKeyOfAttemptToOpenUrlFromExtension();
    case AuthorizationFailed => IosInternalKeyOfAuthorizationFailed();
    case BrokerApplicationTokenReadFailed => IosInternalKeyOfBrokerApplicationTokenReadFailed();
    case BrokerApplicationTokenWriteFailed => IosInternalKeyOfBrokerApplicationTokenWriteFailed();
    case BrokerBadResumeStateFound => IosInternalKeyOfBrokerBadResumeStateFound();
    case BrokerCorruptedResponse => IosInternalKeyOfBrokerCorruptedResponse();
    case BrokerKeyFailedToCreate => IosInternalKeyOfBrokerKeyFailedToCreate();
    case BrokerKeyNotFound => IosInternalKeyOfBrokerKeyNotFound();
    case BrokerMismatchedResumeState => IosInternalKeyOfBrokerMismatchedResumeState();
    case BrokerNoResumeStateFound => IosInternalKeyOfBrokerNoResumeStateFound();
    case BrokerResponseDecryptionFailed => IosInternalKeyOfBrokerResponseDecryptionFailed();
    case BrokerResponseHashMismatch => IosInternalKeyOfBrokerResponseHashMismatch();
    case BrokerResponseHashMissing => IosInternalKeyOfBrokerResponseHashMissing();
    case BrokerResponseNotReceived => IosInternalKeyOfBrokerResponseNotReceived();
    case BrokerUnknown => IosInternalKeyOfBrokerUnknown();
    case FailedAuthorityValidation => IosInternalKeyOfFailedAuthorityValidation();
    case InvalidParameter => IosInternalKeyOfInvalidParameter();
    case InvalidResponse => IosInternalKeyOfInvalidResponse();
    case InvalidScope => IosInternalKeyOfInvalidScope();
    case MismatchUser => IosInternalKeyOfMismatchUser();
    case NoViewController => IosInternalKeyOfNoViewController();
    case NonHttpRedirect => IosInternalKeyOfNonHttpRedirect();
    case RedirectSchemeNotRegistered => IosInternalKeyOfRedirectSchemeNotRegistered();
    case SessionCanceled => IosInternalKeyOfSessionCanceled();
    case UiNotSupportedInExtension => IosInternalKeyOfUiNotSupportedInExtension();
    case Unexpected => IosInternalKeyOfUnexpected();
    case UnhandledResponse => IosInternalKeyOfUnhandledResponse();
  }

  lemma UntypedKeyOfPkceNotGenerated()
    ensures KeyOf(UntypedName(PkceNotGenerated)) == Some(Untyped(PkceNotGenerated))
  {
  }

  lemma UntypedKeyOfCryptoDoesNotExist()
    ensures KeyOf(UntypedName(CryptoDoesNotExist)) == Some(Untyped(CryptoDoesNotExist))
  {
  }

  lemma UntypedKeyOf(c: UntypedKey)
    ensures KeyOf(UntypedName(c)) == Some(Untyped(c))
  {
    match c
    case PkceNotGenerated => UntypedKeyOfPkceNotGenerated();
    case CryptoDoesNotExist => UntypedKeyOfCryptoDoesNotExist();
  }

  /** `KeyOf` inverts `KeyName`. */
  lemma KeyOfKeyName(k: ErrorKey)
    ensures KeyOf(KeyName(k)) == Some(k)
  {
    match k
    case ClientAuth(c) => ClientAuthKeyOf(c);
    case ClientConfiguration(c) => ClientConfigurationKeyOf(c);
    case BrowserAuth(c) => BrowserAuthKeyOf(c);
    case Internal(c) => InternalKeyOf(c);
    case IosInternal(c) => IosInternalKeyOf(c);
    case Untyped(c) => UntypedKeyOf(c);
  }

  /** No two keys share a property name. */
  lemma KeyNameInjective(a: ErrorKey, b: ErrorKey)
    ensures KeyName(a) == KeyName(b) ==> a == b
  {
    KeyOfKeyName(a);
    KeyOfKeyName(b);
  }

  /** The `errorCode` of each entry: the property name itself, except for four entries. */
  function Code(k: ErrorKey): (r: string)
    ensures |r| > 0
    ensures r == KeyName(k) <==> k !in {Internal(ConsentRequired), Internal(LoginRequired), Untyped(PkceNotGenerated), Untyped(CryptoDoesNotExist)}
  {
    match k
    case Internal(ConsentRequired) => "interaction_required"
    case Internal(LoginRequired) => "interaction_required"
    case Untyped(PkceNotGenerated) => "pkce_not_created"
    case Untyped(CryptoDoesNotExist) => "crypto_nonexistent"
    case _ => KeyName(k)
  }

  /** The codes of the four renamed entries: two consent and login failures share the code
      of the interaction-required entry, whose type is `internalError`. */
  lemma RenamedCodes()
    ensures Code(Internal(ConsentRequired)) == "interaction_required"
    ensures Code(Internal(LoginRequired)) == "interaction_required"
    ensures Code(Internal(InteractionRequired)) == "interaction_required"
    ensures Code(Untyped(PkceNotGenerated)) == "pkce_not_created"
    ensures Code(Untyped(CryptoDoesNotExist)) == "crypto_nonexistent"
  {
  }

  /** The `errorType` of each entry: its category, absent for the two untyped entries. */
  function TypeOf(k: ErrorKey): (r: Option<string>)
    ensures r.None? <==> k.Untyped?
    ensures r.Some? ==> r.value in ErrorTypes
  {
    match k
    case ClientAuth(_) => Some("clientAuthErrorMessage")
    case ClientConfiguration(_) => Some("clientConfigurationErrorMessage")
    case BrowserAuth(_) => Some("browserAuthErrorMessage")
    case Internal(_) => Some("internalError")
    case IosInternal(_) => Some("iosInternalError")
    case Untyped(_) => None
  }

  /** The `errorMessage` of each entry; the iOS entries carry an empty message. */
  function Message(k: ErrorKey): (r: string)
    ensures k.IosInternal? ==> r == ""
  {
    match k
    case ClientAuth(c) => ClientAuthMessage(c)
    case ClientConfiguration(c) => ClientConfigurationMessage(c)
    case BrowserAuth(c) => BrowserAuthMessage(c)
    case Internal(c) => InternalMessage(c)
    case IosInternal(c) => ""
    case Untyped(c) => UntypedMessage(c)
  }

  /** The entry stored under each key, as written in the table literal. */
  function Entry(k: ErrorKey): (e: MsalError)
    ensures e.errorCode != "" && e.errorMessage.Some? && e.stack.None?
    ensures e.errorCode == KeyName(k) <==>
      k !in {Internal(ConsentRequired), Internal(LoginRequired), Untyped(PkceNotGenerated), Untyped(CryptoDoesNotExist)}
    ensures e.errorType.None? <==> k.Untyped?
    ensures e.errorType.Some? ==> e.errorType.value in ErrorTypes
    ensures e.errorType == Some("iosInternalError") ==> e.errorMessage == Some("")
    ensures e.errorDetails.Some? <==> k == Internal(NoOptions)
  {
    MsalError(Code(k), TypeOf(k), Some(Message(k)),
      if k == Internal(NoOptions) then Some("") else None, None)
  }

  /** The object built by a literal listing `props` in order: each property name bound to
      its value, a later property of the same name replacing an earlier one. */
  function ObjectOf(props: seq<(string, MsalError)>): (m: map<string, MsalError>)
    ensures forall i :: 0 <= i < |props| ==> props[i].0 in m
    ensures forall s :: s in m ==> exists i :: 0 <= i < |props| && props[i] == (s, m[s])
    decreases |props|
  {
    if props == [] then map[]
    else
      var n := |props| - 1;
      var rest := ObjectOf(props[..n]);
      assert forall i :: 0 <= i < n ==> props[..n][i] == props[i];
      rest[props[n].0 := props[n].1]
  }

  /** The property list of the table literal, in order. */
  function Properties(): (props: seq<(string, MsalError)>)
    ensures |props| == |TableKeys|
    ensures |props| == 131
    ensures forall i :: 0 <= i < |props| ==> props[i] == (KeyName(TableKeys[i]), Entry(TableKeys[i]))
  {
    seq(|TableKeys|, i requires 0 <= i < |TableKeys| => (KeyName(TableKeys[i]), Entry(TableKeys[i])))
  }

  /** `MsalErrorCollection`, the object built from the table literal. */
  function Collection(): map<string, MsalError> {
    ObjectOf(Properties())
  }

  /** Every key of the table is a property of the collection. */
  lemma CollectionHasEveryKey(k: ErrorKey)
    ensures KeyName(k) in Collection()
  {
    var props := Properties();
    TableKeysComplete(k);
    var i :| 0 <= i < |TableKeys| && TableKeys[i] == k;
    assert props[i].0 == KeyName(k);
  }

  /** Every property of the collection holds the entry of a key of that name. */
  lemma CollectionHoldsEntries(s: string)
    requires s in Collection()
    ensures exists k :: KeyName(k) == s && Collection()[s] == Entry(k)
  {
    var props := Properties();
    var i :| 0 <= i < |props| && props[i] == (s, Collection()[s]);
    assert KeyName(TableKeys[i]) == s && Collection()[s] == Entry(TableKeys[i]);
  }

  /** Each key's entry is found under its property name. */
  lemma CollectionLookup(k: ErrorKey)
    ensures KeyName(k) in Collection() && Collection()[KeyName(k)] == Entry(k)
  {
    CollectionHasEveryKey(k);
    CollectionHoldsEntries(KeyName(k));
    var k' :| KeyName(k') == KeyName(k) && Collection()[KeyName(k)] == Entry(k');
    KeyNameInjective(k, k');
  }

  /** Every property of the collection is a name `KeyOf` recognises, and holds the entry of
      the key it finds. */
  lemma CollectionIsKeyOf(s: string)
    requires s in Collection()
    ensures KeyOf(s).Some? && Collection()[s] == Entry(KeyOf(s).value)
  {
    CollectionHoldsEntries(s);
    var k :| KeyName(k) == s && Collection()[s] == Entry(k);
    KeyOfKeyName(k);
  }

  /** No other key is stored under the property name of `InvalidOptionsSet`. */
  lemma InvalidOptionsNameUnique(k: ErrorKey)
    ensures KeyName(k) == KeyName(Internal(InvalidOptionsSet)) ==> k == Internal(InvalidOptionsSet)
  {
  }

  /** The collection holds the `InvalidOptionsSet` entry under its property name. */
  lemma InvalidOptionsEntry()
    ensures KeyName(Internal(InvalidOptionsSet)) in Collection()
    ensures Collection()[KeyName(Internal(InvalidOptionsSet))] == Entry(Internal(InvalidOptionsSet))
  {
    var s := KeyName(Internal(InvalidOptionsSet));
    CollectionHasEveryKey(Internal(InvalidOptionsSet));
    CollectionHoldsEntries(s);
    var k :| KeyName(k) == s && Collection()[s] == Entry(k);
    InvalidOptionsNameUnique(k);
  }

  /** No other key is stored under the property name of `NoOptions`. */
  lemma NoOptionsNameUnique(k: ErrorKey)
    ensures KeyName(k) == KeyName(Internal(NoOptions)) ==> k == Internal(NoOptions)
  {
  }

  /** The collection holds the `NoOptions` entry under its property name. */
  lemma NoOptionsEntry()
    ensures KeyName(Internal(NoOptions)) in Collection()
    ensures Collection()[KeyName(Internal(NoOptions))] == Entry(Internal(NoOptions))
  {
    var s := KeyName(Internal(NoOptions));
    CollectionHasEveryKey(Internal(NoOptions));
    CollectionHoldsEntries(s);
    var k :| KeyName(k) == s && Collection()[s] == Entry(k);
    NoOptionsNameUnique(k);
  }

  /** The gate error raised by the web `initialize` without options: `invalid_options_set`, an
      `internalError`. */
  lemma InvalidOptionsGate()
    ensures KeyName(Internal(InvalidOptionsSet)) == "invalid_options_set"
    ensures Entry(Internal(InvalidOptionsSet)).errorCode == "invalid_options_set"
    ensures Entry(Internal(InvalidOptionsSet)).errorType == Some("internalError")
  {
  }

  /** The `no_options` entry, the one entry whose details are set (to the empty string). */
  lemma NoOptionsGate()
    ensures KeyName(Internal(NoOptions)) == "no_options"
    ensures Entry(Internal(NoOptions)).errorCode == "no_options"
    ensures Entry(Internal(NoOptions)).errorDetails == Some("")
  {
  }

  /** The table has entries named by the error codes of section 3.1.2.6 of OpenID Connect
      Core 1.0 and of section 5.2 of RFC 6749; the three OpenID Connect ones share one code. */
  lemma StandardCodesNamed()
    ensures KeyName(Internal(InteractionRequired)) == "interaction_required"
    ensures KeyName(Internal(LoginRequired)) == "login_required"
    ensures KeyName(Internal(ConsentRequired)) == "consent_required"
    ensures KeyName(Internal(InvalidRequest)) == "invalid_request"
    ensures KeyName(Internal(InvalidGrant)) == "invalid_grant"
    ensures KeyName(Internal(UnauthorizedClient)) == "unauthorized_client"
    ensures KeyName(Internal(UnsupportedGrantType)) == "unsupported_grant_type"
    ensures KeyName(IosInternal(InvalidScope)) == "invalid_scope"
    ensures Code(Internal(LoginRequired)) == Code(Internal(ConsentRequired)) == Code(Internal(InteractionRequired))
  {
    RenamedCodes();
  }
}
