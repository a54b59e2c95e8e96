/** The demo application's Redux store slice: the `ISecurityResults` object, the seven action
    creators and `SecurityInfoReducer`, which assigns one field of the state object it is given
    and hands back that same object. */
module DemoStore {
  import opened Wrappers
  import MsalErrors
  import opened Definitions

  /** The JavaScript values the store's fields are given. Action payloads are `any`, so a
      field holds whatever was dispatched into it. */
  datatype Value =
    | Undefined
    | Bool(flag: bool)
    | Text(text: string)
    | Strings(items: seq<string>)
    | Account(account: MsalAccountInfo)
    | Results(results: MsalAuthenticationResults)
    | Error(error: MsalErrors.MsalError)
    | OtherValue

  /** JavaScript truthiness: `undefined`, `false` and `""` are falsy, every object is truthy. */
  predicate Truthy(v: Value) {
    match v
    case Undefined => false
    case Bool(b) => b
    case Text(t) => t != ""
    case _ => true
  }

  /** The five fields of the state object, as a value. */
  datatype SecurityResultsValue = SecurityResultsValue(
    isAuthenticated: Value,
    authenticationResults: Value,
    authenticationAccount: Value,
    authenticationRoles: Value,
    authenticationError: Value)

  // The action type tags.
  const SetStatusTag := "SET_AUTHENTICATION_STATUS"
  const SetResultsTag := "SET_AUTHENTICATION_RESULTS"
  const RemoveResultsTag := "REMOVE_AUTHENTICATION_RESULTS"
  const SetAccountTag := "SET_AUTHENTICATION_ACCOUNT"
  const RemoveAccountTag := "REMOVE_AUTHENTICATION_ACCOUNT"
  const SetErrorTag := "SET_AUTHENTICATION_ERROR"
  const SetRolesTag := "SET_AUTHENTICATION_ROLES"

  const ActionTags := {SetStatusTag, SetResultsTag, RemoveResultsTag, SetAccountTag,
                       RemoveAccountTag, SetErrorTag, SetRolesTag}

  /** An action: its `type` and its `payload`. The reducer accepts any action, so the tag is
      any string. */
  datatype Action = Action(actionType: string, payload: Value)

  // ---- action creators ----

  function SetAuthenticationStatus(payload: bool): (a: Action)
    ensures a.actionType == SetStatusTag && a.payload == Bool(payload)
  {
    Action(SetStatusTag, Bool(payload))
  }

  function SetAuthenticationResults(payload: MsalAuthenticationResults): (a: Action)
    ensures a.actionType == SetResultsTag && a.payload == Results(payload)
  {
    Action(SetResultsTag, Results(payload))
  }

  function RemoveAuthenticationResults(): (a: Action)
    ensures a.actionType == RemoveResultsTag && a.payload == Undefined
  {
    Action(RemoveResultsTag, Undefined)
  }

  function SetAuthenticationError(payload: MsalErrors.MsalError): (a: Action)
    ensures a.actionType == SetErrorTag && a.payload == Error(payload)
  {
    Action(SetErrorTag, Error(payload))
  }

  function SetAuthenticationAccount(payload: MsalAccountInfo): (a: Action)
    ensures a.actionType == SetAccountTag && a.payload == Account(payload)
  {
    Action(SetAccountTag, Account(payload))
  }

  function RemoveAuthenticationAccount(): (a: Action)
    ensures a.actionType == RemoveAccountTag && a.payload == Undefined
  {
    Action(RemoveAccountTag, Undefined)
  }

  /** Typed `Array<string>`, but the demo dispatches an untyped claim value through it, so the
      payload is any value. */
  function SetAuthenticationRoles(payload: Value): (a: Action)
    ensures a.actionType == SetRolesTag && a.payload == payload
  {
    Action(SetRolesTag, payload)
  }

  /** Every creator's tag is one the reducer handles. */
  lemma CreatorTagsHandled(b: bool, r: MsalAuthenticationResults, e: MsalErrors.MsalError, acc: MsalAccountInfo, roles: Value)
    ensures SetAuthenticationStatus(b).actionType in ActionTags
    ensures SetAuthenticationResults(r).actionType in ActionTags
    ensures RemoveAuthenticationResults().actionType in ActionTags
    ensures SetAuthenticationError(e).actionType in ActionTags
    ensures SetAuthenticationAccount(acc).actionType in ActionTags
    ensures RemoveAuthenticationAccount().actionType in ActionTags
    ensures SetAuthenticationRoles(roles).actionType in ActionTags
  {
  }

  // ---- the default state ----

  /** The account the store starts with: every string field `""`, no claims. */
  const BlankAccount := MsalAccountInfo("", "", "", "", "", Some(""), None)

  /** `securityResults`, the state the store starts from. */
  function DefaultSecurityResults(): (d: SecurityResultsValue)
    ensures d.isAuthenticated == Bool(false) && d.authenticationRoles == Strings([])
    ensures d.authenticationResults == Undefined && d.authenticationError == Undefined
    ensures d.authenticationAccount.Account?
    ensures var a := d.authenticationAccount.account;
      a.environment == "" && a.homeAccountId == "" && a.localAccountId == "" &&
      a.tenantId == "" && a.username == "" && a.name == Some("") && a.idTokenClaims.None?
  {
    SecurityResultsValue(Bool(false), Undefined, Account(BlankAccount), Strings([]), Undefined)
  }

  /** The default state reads as signed out, yet its blank account object is truthy. */
  lemma DefaultStateSignedOutWithTruthyAccount()
    ensures !Truthy(DefaultSecurityResults().isAuthenticated)
    ensures Truthy(DefaultSecurityResults().authenticationAccount)
  {
  }

  // ---- the reducer ----

  /** What `SecurityInfoReducer` does to the fields: each `SET_*` tag sets its one field to the
      payload, each `REMOVE_*` tag sets its one field to `undefined`, any other tag leaves the
      state as it was. */
  function Reduce(s: SecurityResultsValue, a: Action): (r: SecurityResultsValue)
    ensures a.actionType == SetStatusTag ==> r == s.(isAuthenticated := a.payload)
    ensures a.actionType == SetResultsTag ==> r == s.(authenticationResults := a.payload)
    ensures a.actionType == RemoveResultsTag ==> r == s.(authenticationResults := Undefined)
    ensures a.actionType == SetAccountTag ==> r == s.(authenticationAccount := a.payload)
    ensures a.actionType == RemoveAccountTag ==> r == s.(authenticationAccount := Undefined)
    ensures a.actionType == SetErrorTag ==> r == s.(authenticationError := a.payload)
    ensures a.actionType == SetRolesTag ==> r == s.(authenticationRoles := a.payload)
    ensures a.actionType !in ActionTags ==> r == s
  {
    if a.actionType == SetStatusTag then s.(isAuthenticated := a.payload)
    else if a.actionType == SetResultsTag then s.(authenticationResults := a.payload)
    else if a.actionType == RemoveResultsTag then s.(authenticationResults := Undefined)
    else if a.actionType == SetAccountTag then s.(authenticationAccount := a.payload)
    else if a.actionType == RemoveAccountTag then s.(authenticationAccount := Undefined)
    else if a.actionType == SetErrorTag then s.(authenticationError := a.payload)
    else if a.actionType == SetRolesTag then s.(authenticationRoles := a.payload)
    else s
  }

  /** Dispatching the same action twice is dispatching it once. */
  lemma ReduceIdempotent(s: SecurityResultsValue, a: Action)
    ensures Reduce(Reduce(s, a), a) == Reduce(s, a)
  {
  }

  /** Actions on different fields commute. */
  lemma StatusAndRolesCommute(s: SecurityResultsValue, b: bool, roles: Value)
    ensures Reduce(Reduce(s, SetAuthenticationStatus(b)), SetAuthenticationRoles(roles)) ==
            Reduce(Reduce(s, SetAuthenticationRoles(roles)), SetAuthenticationStatus(b))
  {
  }

  /** Removing undoes setting: results and account go back to `undefined` whatever was set. */
  lemma RemoveUndoesSet(s: SecurityResultsValue, r: MsalAuthenticationResults, acc: MsalAccountInfo)
    ensures Reduce(Reduce(s, SetAuthenticationResults(r)), RemoveAuthenticationResults()) ==
            s.(authenticationResults := Undefined)
    ensures Reduce(Reduce(s, SetAuthenticationAccount(acc)), RemoveAuthenticationAccount()) ==
            s.(authenticationAccount := Undefined)
  {
  }

  /** The state object the reducer assigns in place. */
  class SecurityResults {
    var isAuthenticated: Value
    var authenticationResults: Value
    var authenticationAccount: Value
    var authenticationRoles: Value
    var authenticationError: Value

    function Fields(): SecurityResultsValue
      reads this
    {
      SecurityResultsValue(isAuthenticated, authenticationResults, authenticationAccount,
                           authenticationRoles, authenticationError)
    }

    /** The module-level `securityResults` object. */
    constructor Default()
      ensures Fields() == DefaultSecurityResults()
    {
      isAuthenticated := Bool(false);
      authenticationResults := Undefined;
      authenticationAccount := Account(BlankAccount);
      authenticationRoles := Strings([]);
      authenticationError := Undefined;
    }
  }

  /** `SecurityInfoReducer(state = securityResults, action)`: with no state given it works on
      the default object; it assigns that object's field in place and returns the object. */
  method SecurityInfoReducer(state: SecurityResults?, securityResults: SecurityResults, action: Action)
    returns (r: SecurityResults)
    modifies state, securityResults
    ensures r == (if state == null then securityResults else state)
    ensures r.Fields() == Reduce(old(r.Fields()), action)
    ensures state != null && state != securityResults ==> securityResults.Fields() == old(securityResults.Fields())
  {
    r := if state == null then securityResults else state;
    if action.actionType == SetStatusTag {
      r.isAuthenticated := action.payload;
    } else if action.actionType == SetResultsTag {
      r.authenticationResults := action.payload;
    } else if action.actionType == RemoveResultsTag {
      r.authenticationResults := Undefined;
    } else if action.actionType == SetAccountTag {
      r.authenticationAccount := action.payload;
    } else if action.actionType == RemoveAccountTag {
      r.authenticationAccount := Undefined;
    } else if action.actionType == SetErrorTag {
      r.authenticationError := action.payload;
    } else if action.actionType == SetRolesTag {
      r.authenticationRoles := action.payload;
    }
  }
}
