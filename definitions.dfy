/** The records the plugin interface exchanges with its callers (`MsalConfigurations`,
    `MsalInteractiveRequest`, `MsalEndSessionRequest`, `MsalSilentRequest`, `MsalAccountInfo`,
    `MsalAuthenticationResults`) and the `prompt` values. Only the fields some modelled
    operation reads or writes are kept. */
module Definitions {
  import opened Wrappers

  /** A claim value inside an `idTokenClaims` object: a string, a list of strings, or
      anything else. */
  datatype ClaimValue = ClaimText(text: string) | ClaimList(items: seq<string>) | ClaimOther

  /** A claims object as its `Object.entries` list: property names in insertion order. */
  type Claims = seq<(string, ClaimValue)>

  datatype MsalAccountInfo = MsalAccountInfo(
    homeAccountId: string,
    environment: string,
    tenantId: string,
    username: string,
    localAccountId: string,
    name: Option<string>,
    idTokenClaims: Option<Claims>)

  datatype MsalAuthenticationResults = MsalAuthenticationResults(
    authority: string,
    uniqueId: string,
    tenantId: string,
    scopes: seq<string>,
    account: Option<MsalAccountInfo>,
    idToken: string,
    idTokenClaims: Claims,
    accessToken: string)

  datatype MsalConfigurations = MsalConfigurations(
    clientId: string,
    authority: Option<string>,
    redirectUri: Option<string>,
    postLogoutRedirectUri: Option<string>,
    guardForRerenders: Option<bool>)

  /** The values of `MsalInteractiveRequest.prompt`. */
  datatype Prompt = Consent | SelectAccount | Login | PromptIfNecessary | NoPrompt

  /** The string each prompt is written as. */
  function PromptValue(p: Prompt): string {
    match p
    case Consent => "consent"
    case SelectAccount => "select_account"
    case Login => "login"
    case PromptIfNecessary => "promptIfNecessary"
    case NoPrompt => "none"
  }

  /** Reads a prompt string back; anything outside the five values is not a prompt. */
  function PromptOf(s: string): (r: Option<Prompt>)
    ensures r.Some? ==> PromptValue(r.value) == s
  {
    match s
    case "consent" => Some(Consent)
    case "select_account" => Some(SelectAccount)
    case "login" => Some(Login)
    case "promptIfNecessary" => Some(PromptIfNecessary)
    case "none" => Some(NoPrompt)
    case _ => None
  }

  /** Every prompt value reads back as itself, so the five strings are distinct. */
  lemma PromptRoundTrip(p: Prompt)
    ensures PromptOf(PromptValue(p)) == Some(p)
  {
  }

  /** The prompts defined by section 3.1.2.1 of OpenID Connect Core 1.0 (`none`, `login`,
      `consent`, `select_account`); `promptIfNecessary` is an iOS-only addition. */
  predicate IsOpenIdPrompt(p: Prompt) {
    PromptValue(p) in {"none", "login", "consent", "select_account"}
  }

  lemma OnlyPromptIfNecessaryIsNonStandard(p: Prompt)
    ensures !IsOpenIdPrompt(p) <==> p == PromptIfNecessary
  {
  }

  /** The values of `promptView` (an iOS option). */
  datatype PromptView = WkWebView | AuthenticationSession | SafariViewController

  datatype MsalInteractiveRequest = MsalInteractiveRequest(
    scopes: seq<string>,
    account: Option<MsalAccountInfo>,
    extraScopesToConsent: Option<seq<string>>,
    prompt: Option<Prompt>,
    promptView: Option<PromptView>)

  datatype MsalEndSessionRequest = MsalEndSessionRequest(
    account: MsalAccountInfo,
    postLogoutRedirectUri: Option<string>,
    removeAccountFromCache: Option<bool>)

  datatype MsalSilentRequest = MsalSilentRequest(
    scopes: seq<string>,
    account: MsalAccountInfo,
    forceRefresh: Option<bool>)
}
