# Faucet core, modelled in Dafny

A model of the request-handling core of a small Go token faucet. The
service takes a recipient address and checks, through a command-line
blockchain client, that the address does not already hold too many tokens.
If it does not, the service sends it a fixed amount on one chain or on two.
The repository holds two near-identical services:

- `backend/faucet.go` serves two chains and also has a captcha-protected
  POST route.
- `faucet.go` serves one chain.

The model writes the shared logic once. A `Deployment` is either
`SingleChain(c)` (`faucet.go`) or `DualChain(c1, c2)` (`backend/faucet.go`),
and every lemma below is stated for the variant it concerns.

Modules, following the program's parts:

- `Text` (`text.dfy`): `strings.Split` with a one-character separator and
  `strings.Join`, proved inverse to each other.
- `Commands` (`commands.dfy`): the balance-query and transfer command lines,
  and `getCmd`, which splits a command line into a program and its arguments.
- `Visitors` (`visitors.dfy`): the per-IP registry of rate limiters.
  `getVisitor` is one atomic step, and so is one locked sweep of
  `cleanupVisitors`. Time is an integer count of nanoseconds.
- `Balance` (`balance.dfy`): the fail-open decision of `CheckAccountBalance`
  once the query's outcome is known.
- `Disburse` (`disburse.dfy`): `checkAndExecuteTxsHandler` as a left fold over
  the active chains. It accumulates the message, the error flag, the latest
  error and the trace of issued commands, then picks the response.
- `Gate` (`gate.dfy`): the `limit` middleware and the GET route it guards.
- `Claim` (`claim.dfy`): `getCoinsHandler`'s address-length and captcha gates.

Four things are oracles, passed in as parameters:

- the command-line client's answer to a balance query (`Oracle`:
  command failed, output undecodable, or a decoded balance list);
- `strconv.ParseFloat` (`Parser`);
- `limiter.Allow()` (`Allowance`);
- the captcha provider (`Captcha`).

`net.SplitHostPort`'s result is passed in as the host, or None when it failed.
A transfer is recorded as an event appended to a trace. A limiter is an opaque
handle that records the parameters it was created with (burst 20, one token
per 15 s). The handle's number stands for the identity of the Go pointer.

## Model

| member | source | states |
|---|---|---|
| Text.Split | backend/faucet.go:136 | splitting on a separator yields at least one piece, and no piece contains the separator |
| Text.JoinSplit | backend/faucet.go:134-145 | re-joining the pieces of a split with the same separator gives back the original string |
| Text.SplitJoin | faucet.go:114-125 | splitting a join of separator-free parts gives back exactly those parts |
| Text.JoinSnoc | backend/faucet.go:248-257 | appending ", " and one more segment to an accumulated message equals joining the longer list of segments |
| Commands.GetCmd | backend/faucet.go:134-145 | the program and the arguments are space-free; re-joining them with single spaces reproduces the command; a command without spaces becomes a program with no arguments |
| Commands.GetCmdOfJoin | faucet.go:114-125 | a space-free program and space-free arguments joined with spaces come back unchanged from `getCmd` |
| Commands.TransferReachesClientIntact | backend/faucet.go:232-237 | when no field contains a space, the send command starts the client with exactly the arguments `tx bank send <key> <address> <amount> --from <key> --node .. --chain-id .. --fees .. --keyring-backend test -y` |
| Commands.SpacedAddressIsSplit | backend/faucet.go:232-237 | an address containing a space never reaches the client as one argument, because the argument list differs from the intended one |
| Visitors.GetVisitor | backend/faucet.go:293-312 | the IP ends up registered with lastSeen = now, and the key set grows by that IP only; other entries are unchanged; a known IP keeps its limiter; an unknown IP gets a new limiter with burst 20 and a 15 s interval |
| Visitors.GetVisitorPreservesValid | faucet.go:219-238 | limiter handles stay below the counter and distinct per IP, and a newly seen IP never receives a limiter another IP holds |
| Visitors.Sweep | backend/faucet.go:321-325 | an entry survives if and only if it was present and idle for at most 3 minutes; survivors are unchanged and no key is added |
| Visitors.CleanupVisitors | faucet.go:246-252 | the delete-while-iterating loop leaves exactly the sweep's result and keeps the handle counter |
| Visitors.ReplayPreservesValid | backend/faucet.go:290-327 | in any order in which locked `getVisitor` calls and sweeps take the mutex, every stored limiter handle stays below the handle counter, no two IPs hold the same limiter at once, and the counter never decreases (an evicted IP may later get a new limiter; see `Visitors.EvictionResetsLimiter`) |
| Visitors.SweepIdempotent | backend/faucet.go:321-325 | a second sweep at the same instant removes nothing more |
| Visitors.SweepPreservesValid | faucet.go:247-251 | a sweep keeps handles distinct and below the counter |
| Visitors.RecentVisitorSurvives | backend/faucet.go:310-325 | an IP seen at time t survives every sweep up to t + 3 minutes, with its limiter |
| Visitors.EvictionResetsLimiter | backend/faucet.go:297-325 | after an IP has been evicted, its next request gets a new limiter (burst 20, 15 s) that differs from its old one |
| Balance.Check | backend/faucet.go:155-177 | an unmarshal error comes back exactly when the command succeeded and its output did not decode; a failed command always passes (fail-open); "enough tokens" comes back exactly when the first balance parses to at least maxTokens |
| Balance.OnlyFirstEntryCounts | faucet.go:144-157 | two balance lists with the same first entry get the same verdict, whatever follows it |
| Balance.PassingDecodedLists | backend/faucet.go:164-175 | a decoded list passes if and only if it is empty, its first amount does not parse, or that amount is below maxTokens |
| Disburse.ActiveChains | backend/faucet.go:241-242 | chain 1 always runs; the second chain runs if and only if its node is non-empty; the single-chain service runs its one chain |
| Disburse.ProcessErrors | backend/faucet.go:221-260 | the error flag is the OR of the chains' check failures (raised if and only if some check failed); the error kept is the one from the chain processed last |
| Disburse.ProjectEvents | backend/faucet.go:225-239 | each chain issues exactly one balance query, plus one transfer exactly when its check returned nil |
| Disburse.ProcessMessage | backend/faucet.go:227-257 | the accumulated message is the per-chain segments ("<chain>: <err>" or "<chain>: Successfully sent tokens to  <address>") joined by ", ", in chain order |
| Disburse.ProcessQueried | backend/faucet.go:225-244 | every active chain is queried exactly once, in chain order |
| Disburse.ProcessPaid | backend/faucet.go:225-260 | exactly the chains whose check returned nil are paid, in chain order |
| Disburse.ProcessTransfers | faucet.go:176-183 | every transfer carries the send command of its own chain: key, address, amountFaucet, that chain's node, id and fees |
| Disburse.CheckAndExecute | backend/faucet.go:221-280 | 400 exactly when some check failed, 200 otherwise; a 400 carries the joined message and the last check's error; a 200 carries the address (two chains, no message) or the amount and the message (one chain); transfers go to exactly the passing chains |
| Disburse.SingleChainOutcome | faucet.go:167-206 | one chain: on failure one query and a 400 with "<chain>: <err>" and the error; on success one query, one transfer, and a 200 with the success text and amountFaucet |
| Disburse.DualChainOrder | backend/faucet.go:225-260 | chain 1's query and transfer all come before any chain-2 command; chain 2 issues nothing when its node is empty |
| Disburse.FirstRefusedSecondPaid | backend/faucet.go:241-270 | chain 1 refused and chain 2 paid gives a 400 whose message names both outcomes and whose error is nil; only chain 2 is paid |
| Gate.Limit | faucet.go:256-273 | a host/port failure gives 500 and leaves the registry untouched; otherwise the registry changes by exactly one `getVisitor` call, which marks the IP as seen now, and the request is forwarded exactly when Allow on its limiter is true, else it gets 429 |
| Gate.ServeFaucet | backend/faucet.go:330-347 | the registry change and the decision are exactly those of `limit`; the disbursement handler runs exactly once when the gate forwards and not at all otherwise; rejections are 500 or 429 |
| Gate.AllowedClientIsServed | faucet.go:265-271 | a client whose limiter allows the request is marked as seen, is forwarded, and its request is handled exactly once by the disbursement handler |
| Gate.RefusedClientIssuesNothing | faucet.go:265-269 | a refused client gets 429, and no balance query or transfer is issued, but the client is still marked as seen |
| Claim.GetCoins | backend/faucet.go:180-212 | an address that is not exactly 44 characters aborts before the captcha is checked; a provider error aborts; a failed captcha is a 400 "Invalid captcha" with no command issued; a passed captcha hands over to the disbursement |
| Claim.AddressLengthExamples | backend/faucet.go:57 | a 10-character address and the 45-character `cosmos1abcdefghijklmnopqrstuvwxyz0123456789ab` are both refused; a 44-character address with a passed captcha reaches the disbursement |

Notes on the code as written:

- In `CheckAccountBalance`, the `|| accErr != nil` test cannot matter.
  A failed command leaves the balance list empty, so the function has
  already returned nil before that test. `Balance.Check` keeps the test
  anyway, to follow the code.
- The example address `cosmos1abcdefghijklmnopqrstuvwxyz0123456789ab`,
  sometimes given as a 44-character address, has 45 characters. The code's
  length check rejects it (`Claim.AddressLengthExamples`).
- The GET route has no length check. An address with a space in it splits
  into several arguments of the transfer command (`Commands.SpacedAddressIsSplit`).

## Left out

- HTTP serving, routing and JSON encoding (`main`, `mux`, `ListenAndServe`,
  `json.NewEncoder`): a response is a `Response` value. `http.Error` also
  appends a newline to its text; the model keeps only the text.
- Environment and `.env` loading, and the fatal exit on a bad
  `MAX_TOKENS_ALLOWED`: the configuration is an immutable `Config`.
  `amountSteak` is read but never used.
- Running external processes (`exec.Command("bash", "-c", …)`, `executeCmd`,
  `goExecute`, the one-second sleep, the stdin writes): a balance query is an
  oracle answer, and a send is a trace event. The transfer's exit status is
  never read by the code, so it is not modelled.
- The oracle is a function of the chain, so two chains with identical
  settings get the same answer within one request.
- Token-bucket arithmetic of `golang.org/x/time/rate`: that library is not
  part of this model, and `Allow()` is an oracle.
- The goroutine, the mutex and the endless once-a-minute loop: each locked
  block is one atomic step, and any sequence of such steps is covered by
  `Visitors.Replay`. The period between sweeps is not modelled.
- Visitors.Sweep: Go calls `time.Since` once per entry inside the locked
  loop, so the clock moves a little during one sweep; the model compares
  every entry against one instant `now`.
- The console output (`log.Println`, `fmt.Println`, `fmt.Printf`) is not
  modelled.
- `strconv.ParseFloat` and `float64` comparison: amounts go through a `Parser`
  oracle into `real`. A Go amount of "NaN" parses and then compares false
  against the maximum, so it is refused. A `real` cannot express that case.
- reCAPTCHA verification and `realip`: the provider's answer is the
  `Captcha` parameter.
- `net.SplitHostPort` parsing: its outcome is the `host` parameter.
- Claim.GetCoins: Go's `len(address)` counts bytes and the model counts
  characters. The two agree on ASCII addresses.
- The `error` field of a 400 response holds the Go error value, and the
  model keeps that value rather than its JSON form. `encoding/json` prints
  the "enough tokens" error as `{}` and a nil error as `null`. An unmarshal
  error is a `*json.SyntaxError` or `*json.UnmarshalTypeError`, whose
  exported fields are printed, for example `{"Offset":N}`. The model keeps
  only the error's text.
