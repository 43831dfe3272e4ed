/** `getCoinsHandler`, the POST `/claim` route of the two-chain service:
    the address must be exactly `ADDR_LENGTH` characters and the captcha
    must pass before the disbursement runs. */
module Claim {
  import opened Options
  import opened Balance
  import opened Disburse

  const AddrLength: int := 44

  /** What the captcha provider said: an error, or whether the response
      token passed. */
  datatype Captcha = ProviderError(reason: string) | Confirmed(passed: bool)

  /** The handler panics (the request is aborted without a response), or
      answers. */
  datatype Outcome = Panicked(reason: string) | Answered(handled: Handled)

  const InvalidAddressText: string := "Invalid address"
  const InvalidCaptchaText: string := "Invalid captcha"

  /** The handler behind POST `/claim`. Only the two-chain service registers
      that route, so the configuration it runs with is a `DualChain` one; the
      function is stated for any configuration because its gates do not look
      at the chains. */
  function GetCoins(cfg: Config, address: string, captcha: Captcha, query: Oracle, parse: Parser): (o: Outcome)
    // a wrong-length address aborts before the captcha is looked at
    ensures |address| != AddrLength ==> o == Panicked(InvalidAddressText)
    // an answer needs a right-length address and a reachable provider
    ensures o.Answered? <==> |address| == AddrLength && captcha.Confirmed?
    ensures |address| == AddrLength && captcha.ProviderError? ==> o == Panicked(captcha.reason)
    // a rejected captcha is a 400 that issues no command
    ensures |address| == AddrLength && captcha == Confirmed(false) ==>
              o == Answered(Handled(Response(400, false, Some(InvalidCaptchaText), Failure(None)), []))
    // a passed captcha hands over to the disbursement
    ensures |address| == AddrLength && captcha == Confirmed(true) ==>
              o == Answered(CheckAndExecute(cfg, address, query, parse))
  {
    if |address| != AddrLength then Panicked(InvalidAddressText)
    else
      match captcha
      case ProviderError(reason) => Panicked(reason)
      case Confirmed(passed) =>
        if !passed then Answered(Handled(Response(400, false, Some(InvalidCaptchaText), Failure(None)), []))
        else Answered(CheckAndExecute(cfg, address, query, parse))
  }

  /** A ten-character address is refused whatever the captcha says, and so
      is `cosmos1abcdefghijklmnopqrstuvwxyz0123456789ab`, which has 45
      characters, not 44. */
  lemma AddressLengthExamples(cfg: Config, captcha: Captcha, query: Oracle, parse: Parser)
    ensures GetCoins(cfg, "cosmos1abc", captcha, query, parse) == Panicked(InvalidAddressText)
    ensures GetCoins(cfg, "cosmos1abcdefghijklmnopqrstuvwxyz0123456789ab", captcha, query, parse)
            == Panicked(InvalidAddressText)
    ensures GetCoins(cfg, "cosmos1abcdefghijklmnopqrstuvwxyz0123456789a", Confirmed(true), query, parse)
            == Answered(CheckAndExecute(cfg, "cosmos1abcdefghijklmnopqrstuvwxyz0123456789a", query, parse))
  {
  }

}
