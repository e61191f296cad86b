/**
 * The OAuth callback (app/auth/callback/route.ts): exchange the `code` query
 * parameter for a session, then redirect to the home page or to sign-in.
 */
module AuthCallback {
  import opened Wrappers

  const HomePath: string := "/home"
  const SignInPath: string := "/signin"

  /**
   * What `exchangeCodeForSession(code)` did, if it was called: it returned
   * (possibly with an `error` in its result, for instance for a code that was
   * already used) or it threw.
   */
  datatype ExchangeOutcome = ExchangeReturned(error: Option<string>) | ExchangeThrew

  /** The redirect target, and the code handed to the exchange (`None`: no exchange). */
  datatype CallbackResult = CallbackResult(redirect: string, exchanged: Option<string>)

  /** `if (code)`: the parameter is present and not the empty string. */
  predicate HasCode(code: Option<string>)
  {
    code.Some? && code.value != ""
  }

  function Callback(code: Option<string>, exchange: ExchangeOutcome): (r: CallbackResult)
    ensures r.redirect == HomePath || r.redirect == SignInPath
    ensures r.redirect == HomePath <==> HasCode(code) && exchange.ExchangeReturned?
    ensures r.exchanged.Some? <==> HasCode(code)
    ensures r.exchanged.Some? ==> r.exchanged == code
  {
    if HasCode(code) then
      match exchange
      case ExchangeReturned(_) => CallbackResult(HomePath, code)
      case ExchangeThrew => CallbackResult(SignInPath, code)
    else CallbackResult(SignInPath, None)
  }

  /** The result of an exchange that returns is never inspected: a reported error still lands on home. */
  lemma ExchangeErrorIgnored(code: string, e1: Option<string>, e2: Option<string>)
    requires code != ""
    ensures Callback(Some(code), ExchangeReturned(e1)) == Callback(Some(code), ExchangeReturned(e2))
    ensures Callback(Some(code), ExchangeReturned(e1)).redirect == HomePath
  {
  }

  /** Without a code the exchange's behaviour plays no part. */
  lemma NoCodeNoExchange(code: Option<string>, a: ExchangeOutcome, b: ExchangeOutcome)
    requires !HasCode(code)
    ensures Callback(code, a) == Callback(code, b) == CallbackResult(SignInPath, None)
  {
  }
}
