/** The decision `CheckAccountBalance` takes once the client's balance
    query has come back: does this address already hold enough tokens? */
module Balance {
  import opened Options

  /** One `{denom, amount}` entry of the query's `balances` list. */
  datatype Coin = Coin(denom: string, amount: string)

  /** What running the query gave: the command failed, or it succeeded and
      its output either did not unmarshal or decoded to a balance list. */
  datatype Query = CommandFailed | Undecodable(reason: string) | Decoded(balances: seq<Coin>)

  /** The non-nil errors the check can return. */
  datatype CheckError = UnmarshalError(reason: string) | EnoughTokens

  const EnoughTokensText: string := "You have enough tokens in your account"

  /** `err.Error()`. */
  function ErrorText(e: CheckError): string
  {
    match e
    case UnmarshalError(reason) => reason
    case EnoughTokens => EnoughTokensText
  }

  /** `strconv.ParseFloat(amount, 64)`: a number, or None on a parse error. */
  type Parser = string -> Option<real>

  /** The refusal condition: a decoded list whose first entry parses to an
      amount of at least `maxTokens`. */
  ghost predicate AlreadyFunded(q: Query, maxTokens: real, parse: Parser)
  {
    && q.Decoded?
    && |q.balances| > 0
    && parse(q.balances[0].amount).Some?
    && parse(q.balances[0].amount).value >= maxTokens
  }

  /** `CheckAccountBalance`, from the query's outcome on: None is a nil
      error, which lets the transfer go ahead. */
  function Check(q: Query, maxTokens: real, parse: Parser): (err: Option<CheckError>)
    // an unmarshal error is returned exactly when the output did not decode
    ensures q.Undecodable? <==> err.Some? && err.value.UnmarshalError?
    ensures q.Undecodable? ==> err == Some(UnmarshalError(q.reason))
    // fail-open: a failed command never blocks the request
    ensures q.CommandFailed? ==> err == None
    // the only other refusal is an already funded account
    ensures err == Some(EnoughTokens) <==> AlreadyFunded(q, maxTokens, parse)
    ensures q.Decoded? ==> (err == None <==> !AlreadyFunded(q, maxTokens, parse))
  {
    if q.Undecodable? then Some(UnmarshalError(q.reason))
    else
      // a failed command leaves the list as declared: empty
      var balances := if q.Decoded? then q.balances else [];
      if |balances| == 0 then None
      else
        match parse(balances[0].amount)
        case None => None
        case Some(balance) =>
          if balance < maxTokens || q.CommandFailed? then None
          else Some(EnoughTokens)
  }

  /** Only the first balance entry is ever consulted: lists that agree on
      their first entry get the same verdict, whatever follows. */
  lemma OnlyFirstEntryCounts(first: Coin, rest1: seq<Coin>, rest2: seq<Coin>, maxTokens: real, parse: Parser)
    ensures Check(Decoded([first] + rest1), maxTokens, parse)
            == Check(Decoded([first] + rest2), maxTokens, parse)
  {
  }

  /** The three ways a decoded list lets the request through: it is empty,
      its first amount does not parse, or that amount is below the cap. */
  lemma PassingDecodedLists(balances: seq<Coin>, maxTokens: real, parse: Parser)
    ensures Check(Decoded(balances), maxTokens, parse) == None <==>
              || |balances| == 0
              || parse(balances[0].amount).None?
              || parse(balances[0].amount).value < maxTokens
  {
  }

}
