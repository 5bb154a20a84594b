/**
 * The login form: the two input validators, the order in which `handleSubmit`
 * checks them, and how a login result is dispatched to the admin or the user
 * callback by looking at its properties.
 */
module Login {
  import opened Service
  import opened Text

  const MobileError := "Enter a valid Indian mobile number (starts with 6-9, 10 digits)"
  const PinError := "Enter a valid 6-digit PIN"
  const ServerError := "Server error"
  const ResultPrefix := "Login result: "

  /** `/^[6-9]\d{9}$/.test(num)` */
  function ValidateMobile(num: string): (ok: bool)
    ensures ok <==> |num| == 10 && IsMobileLead(num[0]) && forall i :: 0 <= i < |num| ==> IsDigit(num[i])
  {
    |num| == 10 && IsMobileLead(num[0]) && AllDigits(num[1..])
  }

  /** `/^\d{6}$/.test(pin)` */
  function ValidatePin(pin: string): (ok: bool)
    ensures ok <==> |pin| == 6 && forall i :: 0 <= i < |pin| ==> IsDigit(pin[i])
  {
    |pin| == 6 && AllDigits(pin)
  }

  /**
   * What the backend's login reply parses to, as far as the page looks at it: a falsy
   * value (null and the like), or an object with its `role` ("" when absent or not a
   * string), the names of its own properties, and its `mobile` ("" when absent).
   */
  datatype LoginResult = Falsy | Obj(role: string, ownKeys: set<string>, mobile: string)

  predicate Truthy(r: LoginResult) { r.Obj? }

  /** The reply of `loginUser`: the parsed result with its JSON text, or what it threw. */
  datatype LoginReply = Returned(result: LoginResult, json: string) | Threw(thrown: Thrown)

  datatype Dispatch = ToAdmin(admin: LoginResult) | ToUser(user: LoginResult)

  /** Outcome of the validation steps of `handleSubmit`. */
  datatype Check = Rejected(message: string) | Accepted

  /** The early returns of `handleSubmit`: the mobile is checked before the PIN. */
  function CheckCredentials(mobile: string, pin: string): (c: Check)
    ensures c == Accepted <==> ValidateMobile(mobile) && ValidatePin(pin)
    ensures !ValidateMobile(mobile) ==> c == Rejected(MobileError)
    ensures ValidateMobile(mobile) && !ValidatePin(pin) ==> c == Rejected(PinError)
  {
    if !ValidateMobile(mobile) then Rejected(MobileError)
    else if !ValidatePin(pin) then Rejected(PinError)
    else Accepted
  }

  /** `result && (result.role === "admin" || result.hasOwnProperty("adminName") || result.hasOwnProperty("isAdmin"))` */
  predicate LooksLikeAdmin(result: LoginResult): (r: bool)
    ensures r ==> Truthy(result)
    ensures r <==> result.Obj? && (result.role == "admin" || "adminName" in result.ownKeys
                                   || "isAdmin" in result.ownKeys)
  {
    match result
    case Falsy => false
    case Obj(role, keys, _) => role == "admin" || "adminName" in keys || "isAdmin" in keys
  }

  /**
   * Admin detection by property sniffing: the admin callback gets the result when it is
   * truthy, has role "admin" or an own `adminName` or `isAdmin` property, and the
   * callback was supplied; every other result goes to the user callback.
   */
  function Route(result: LoginResult, hasAdminHandler: bool): (d: Dispatch)
    ensures d.ToAdmin? <==> (hasAdminHandler && Truthy(result) && (result.role == "admin"
                               || "adminName" in result.ownKeys || "isAdmin" in result.ownKeys))
    ensures d.ToAdmin? ==> d.admin == result
    ensures d.ToUser? ==> d.user == result
  {
    if LooksLikeAdmin(result) && hasAdminHandler then ToAdmin(result)
    else ToUser(result)
  }

  /** A falsy result, or any result when no admin callback is supplied, goes to the user callback. */
  lemma UserCallbackIsTheDefault(result: LoginResult, hasAdminHandler: bool)
    requires !Truthy(result) || !hasAdminHandler
    ensures Route(result, hasAdminHandler) == ToUser(result)
  {
  }

  /** The state of the login form. */
  class LoginForm {
    var mobile: string
    var pin: string
    var message: string
    /** `typeof onAdminLogin === "function"` */
    const hasAdminHandler: bool

    constructor (hasAdminHandler: bool)
      ensures mobile == "" && pin == "" && message == ""
      ensures this.hasAdminHandler == hasAdminHandler
    {
      mobile, pin, message := "", "", "";
      this.hasAdminHandler := hasAdminHandler;
    }

    method EditMobile(value: string)
      modifies this`mobile
      ensures mobile == value
    {
      mobile := value;
    }

    method EditPin(value: string)
      modifies this`pin
      ensures pin == value
    {
      pin := value;
    }

    /**
     * `handleSubmit`. `called` says whether `loginUser(mobile, pin)` was called; `reply`
     * is what that call gives back and is looked at only then. `dispatched` is the
     * callback invocation, if any.
     */
    method HandleSubmit(reply: LoginReply) returns (called: bool, dispatched: Option<Dispatch>)
      modifies this`message
      ensures called <==> ValidateMobile(mobile) && ValidatePin(pin)
      ensures !called ==> dispatched == None && Rejected(message) == CheckCredentials(mobile, pin)
      ensures called && reply.Returned? ==>
        message == ResultPrefix + reply.json && dispatched == Some(Route(reply.result, hasAdminHandler))
      ensures called && reply.Threw? ==>
        message == ErrorText(reply.thrown, ServerError) && dispatched == None
    {
      var check := CheckCredentials(mobile, pin);
      if check.Rejected? {
        message := check.message;
        return false, None;
      }
      called := true;
      match reply
      case Returned(result, json) =>
        message := ResultPrefix + json;
        dispatched := Some(Route(result, hasAdminHandler));
      case Threw(thrown) =>
        message := ErrorText(thrown, ServerError);
        dispatched := None;
    }
  }
}
