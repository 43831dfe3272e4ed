/** `checkAndExecuteTxsHandler`: for each active chain, run the balance
    check and, if it passes, the transfer; fold the outcomes into one
    message, one error flag and one response. The two service variants are
    one orchestrator over one chain (`SingleChain`) or two (`DualChain`). */
module Disburse {
  import opened Options
  import opened Text
  import opened Commands
  import opened Balance

  /** One configured network: chain id, node endpoint and transfer fees. */
  datatype Chain = Chain(id: string, node: string, fees: string)

  /** The single-chain service, or the two-chain one whose second chain runs
      only when its node is set. */
  datatype Deployment = SingleChain(chain: Chain) | DualChain(first: Chain, second: Chain)

  /** The process-wide settings, read once at start-up. */
  datatype Config = Config(
    cliName: string,
    key: string,
    amountFaucet: string,
    maxTokens: real,
    deployment: Deployment)

  /** An external command the handler issues, in issue order, with the
      fields of its command line (the line itself is `CommandLine(fields)`). */
  datatype Event = BalanceQuery(chain: Chain, fields: seq<string>) | Transfer(chain: Chain, fields: seq<string>)

  /** The response body's `error` or `data` field. */
  datatype Payload = Failure(error: Option<CheckError>) | Data(value: string)

  /** HTTP status code, the envelope's `status` flag, its `message` (None when
      the envelope has no such field) and its payload. */
  datatype Response = Response(code: int, status: bool, message: Option<string>, payload: Payload)

  datatype Handled = Handled(response: Response, trace: seq<Event>)

  /** The handler's running state: `errMsg`, `isError`, the latest `err`,
      and the commands issued so far. */
  datatype Run = Run(message: string, isError: bool, err: Option<CheckError>, trace: seq<Event>)

  /** The balance client's answer for a chain, for the address at hand. */
  type Oracle = Chain -> Query

  const SentText: string := "Successfully sent tokens to  "

  /** The chains the handler walks, in order. */
  function ActiveChains(d: Deployment): (cs: seq<Chain>)
    ensures 1 <= |cs| <= 2
    ensures d.SingleChain? ==> cs == [d.chain]
    ensures d.DualChain? ==> cs[0] == d.first
    ensures d.DualChain? ==> (|cs| == 2 <==> d.second.node != "")
    ensures |cs| == 2 ==> cs[1] == d.second
  {
    match d
    case SingleChain(c) => [c]
    case DualChain(c1, c2) => if c2.node != "" then [c1, c2] else [c1]
  }

  /** `CheckAccountBalance(address, key, c.node, c.id)`. */
  function Verdict(cfg: Config, query: Oracle, parse: Parser, c: Chain): Option<CheckError>
  {
    Check(query(c), cfg.maxTokens, parse)
  }

  /** The check's verdict for each chain, nil (None) meaning "send". */
  type Verdicts = Chain -> Option<CheckError>

  function VerdictOf(cfg: Config, query: Oracle, parse: Parser): Verdicts
  {
    c => Verdict(cfg, query, parse, c)
  }

  /** The text one chain contributes to the message. */
  function Segment(chainId: string, err: Option<CheckError>, address: string): string
  {
    match err
    case Some(e) => chainId + ": " + ErrorText(e)
    case None => chainId + ": " + SentText + address
  }

  /** The commands one chain issues: its balance query, then the transfer
      when the check passed. */
  function Events(cfg: Config, address: string, c: Chain, err: Option<CheckError>): seq<Event>
  {
    [BalanceQuery(c, QueryFields(cfg.cliName, address, c.node, c.id))]
    + (if err.None? then [Transfer(c, TransferFields(cfg.cliName, cfg.key, address, cfg.amountFaucet, c.node, c.id, c.fees))]
       else [])
  }

  /** The handler's walk over `chains`, one chain after the other. */
  function Process(cfg: Config, address: string, chains: seq<Chain>, verdict: Verdicts): Run
    decreases |chains|
  {
    if |chains| == 0 then Run("", false, None, [])
    else
      var init := chains[..|chains| - 1];
      var prev := Process(cfg, address, init, verdict);
      var c := chains[|chains| - 1];
      var err := verdict(c);
      var segment := Segment(c.id, err, address);
      Run(if |chains| == 1 then segment else prev.message + ", " + segment,
          prev.isError || err.Some?,
          err,
          prev.trace + Events(cfg, address, c, err))
  }

  /** The error flag is raised exactly when some chain's check failed, and
      the error kept is the one of the chain processed last. */
  lemma {:induction false} ProcessErrors(cfg: Config, address: string, chains: seq<Chain>, verdict: Verdicts)
    ensures var r := Process(cfg, address, chains, verdict);
            && (r.isError <==> exists i :: 0 <= i < |chains| && verdict(chains[i]).Some?)
            && r.err == if |chains| == 0 then None else verdict(chains[|chains| - 1])
  {
    var n := |chains|;
    if n > 0 {
      var init := chains[..n - 1];
      ProcessErrors(cfg, address, init, verdict);
      var prev := Process(cfg, address, init, verdict);
      var last := verdict(chains[n - 1]);
      if prev.isError {
        var i :| 0 <= i < |init| && verdict(init[i]).Some?;
        assert init[i] == chains[i];
      } else if last.None? {
        forall i | 0 <= i < n
          ensures verdict(chains[i]).None?
        {
          if i < n - 1 {
            assert init[i] == chains[i];
          }
        }
      }
    }
  }

  /** Every chain's segment, in chain order. */
  function Segments(cfg: Config, address: string, chains: seq<Chain>, verdict: Verdicts): (segs: seq<string>)
    ensures |segs| == |chains|
  {
    seq(|chains|, i requires 0 <= i < |chains| => Segment(chains[i].id, verdict(chains[i]), address))
  }

  /** The chains whose check passed, in order: those that get a transfer. */
  function Eligible(chains: seq<Chain>, verdict: Verdicts): seq<Chain>
  {
    if |chains| == 0 then []
    else
      var last := chains[|chains| - 1];
      Eligible(chains[..|chains| - 1], verdict) + (if verdict(last).None? then [last] else [])
  }

  /** The chains queried, in the order the queries were issued. */
  function Queried(trace: seq<Event>): seq<Chain>
  {
    if |trace| == 0 then []
    else
      var last := trace[|trace| - 1];
      Queried(trace[..|trace| - 1]) + (if last.BalanceQuery? then [last.chain] else [])
  }

  /** The chains paid out to, in the order the transfers were issued. */
  function Paid(trace: seq<Event>): seq<Chain>
  {
    if |trace| == 0 then []
    else
      var last := trace[|trace| - 1];
      Paid(trace[..|trace| - 1]) + (if last.Transfer? then [last.chain] else [])
  }

  /** Every transfer carries the send command for its own chain. */
  ghost predicate TransfersWellFormed(cfg: Config, address: string, trace: seq<Event>)
  {
    forall i :: 0 <= i < |trace| && trace[i].Transfer? ==>
      trace[i].fields == TransferFields(cfg.cliName, cfg.key, address, cfg.amountFaucet,
                                          trace[i].chain.node, trace[i].chain.id, trace[i].chain.fees)
  }

  /** Appending one chain's commands to a trace adds that chain to the
      queried ones, and to the paid ones exactly when its check passed. */
  lemma ProjectEvents(prev: seq<Event>, cfg: Config, address: string, c: Chain, err: Option<CheckError>)
    ensures Queried(prev + Events(cfg, address, c, err)) == Queried(prev) + [c]
    ensures Paid(prev + Events(cfg, address, c, err)) == Paid(prev) + (if err.None? then [c] else [])
  {
    var q := BalanceQuery(c, QueryFields(cfg.cliName, address, c.node, c.id));
    assert (prev + [q])[..|prev|] == prev;
    if err.None? {
      var t := Transfer(c, TransferFields(cfg.cliName, cfg.key, address, cfg.amountFaucet, c.node, c.id, c.fees));
      assert prev + Events(cfg, address, c, err) == (prev + [q]) + [t];
      assert ((prev + [q]) + [t])[..|prev| + 1] == prev + [q];
    } else {
      assert prev + Events(cfg, address, c, err) == prev + [q];
    }
  }

  /** The accumulated message is the chains' segments joined by ", ". */
  lemma {:induction false} ProcessMessage(cfg: Config, address: string, chains: seq<Chain>, verdict: Verdicts)
    ensures Process(cfg, address, chains, verdict).message
            == Join(", ", Segments(cfg, address, chains, verdict))
  {
    var n := |chains|;
    if n == 0 {
    } else if n == 1 {
    } else {
      var init := chains[..n - 1];
      ProcessMessage(cfg, address, init, verdict);
      var segs := Segments(cfg, address, chains, verdict);
      assert segs == Segments(cfg, address, init, verdict) + [segs[n - 1]];
      JoinSnoc(", ", Segments(cfg, address, init, verdict), segs[n - 1]);
    }
  }

  /** The last chain's commands come after everything the earlier chains
      issued. */
  lemma ProcessTraceStep(cfg: Config, address: string, chains: seq<Chain>, verdict: Verdicts)
    requires |chains| > 0
    ensures var c := chains[|chains| - 1];
            Process(cfg, address, chains, verdict).trace
            == Process(cfg, address, chains[..|chains| - 1], verdict).trace
               + Events(cfg, address, c, verdict(c))
  {
  }

  /** Every chain is queried, once and in order. */
  lemma {:induction false} ProcessQueried(cfg: Config, address: string, chains: seq<Chain>, verdict: Verdicts)
    ensures Queried(Process(cfg, address, chains, verdict).trace) == chains
  {
    var n := |chains|;
    if n > 0 {
      var init := chains[..n - 1];
      var c := chains[n - 1];
      var prev := Process(cfg, address, init, verdict).trace;
      ProcessTraceStep(cfg, address, chains, verdict);
      ProcessQueried(cfg, address, init, verdict);
      ProjectEvents(prev, cfg, address, c, verdict(c));
      calc {
        Queried(Process(cfg, address, chains, verdict).trace);
        Queried(prev + Events(cfg, address, c, verdict(c)));
        Queried(prev) + [c];
        init + [c];
        chains;
      }
    }
  }

  /** Exactly the chains whose check passed are paid, in order. */
  lemma {:induction false} ProcessPaid(cfg: Config, address: string, chains: seq<Chain>, verdict: Verdicts)
    ensures Paid(Process(cfg, address, chains, verdict).trace) == Eligible(chains, verdict)
  {
    var n := |chains|;
    if n > 0 {
      var init := chains[..n - 1];
      var c := chains[n - 1];
      var prev := Process(cfg, address, init, verdict).trace;
      ProcessTraceStep(cfg, address, chains, verdict);
      ProcessPaid(cfg, address, init, verdict);
      ProjectEvents(prev, cfg, address, c, verdict(c));
      calc {
        Paid(Process(cfg, address, chains, verdict).trace);
        Paid(prev + Events(cfg, address, c, verdict(c)));
        Paid(prev) + (if verdict(c).None? then [c] else []);
        Eligible(init, verdict) + (if verdict(c).None? then [c] else []);
        Eligible(chains, verdict);
      }
    }
  }

  /** Each transfer carries the send command of its own chain. */
  lemma {:induction false} ProcessTransfers(cfg: Config, address: string, chains: seq<Chain>, verdict: Verdicts)
    ensures TransfersWellFormed(cfg, address, Process(cfg, address, chains, verdict).trace)
  {
    var n := |chains|;
    if n > 0 {
      var init := chains[..n - 1];
      var c := chains[n - 1];
      var prev := Process(cfg, address, init, verdict).trace;
      var events := Events(cfg, address, c, verdict(c));
      ProcessTraceStep(cfg, address, chains, verdict);
      ProcessTransfers(cfg, address, init, verdict);
      var trace := prev + events;
      forall i | 0 <= i < |trace| && trace[i].Transfer?
        ensures trace[i].fields == TransferFields(cfg.cliName, cfg.key, address, cfg.amountFaucet,
                                                    trace[i].chain.node, trace[i].chain.id, trace[i].chain.fees)
      {
        if i < |prev| {
          assert trace[i] == prev[i];
        } else {
          assert trace[i] == events[i - |prev|];
        }
      }
    }
  }

  /** The response `checkAndExecuteTxsHandler` writes once the walk is done. */
  function Respond(cfg: Config, address: string, run: Run): Response
  {
    if run.isError then Response(400, false, Some(run.message), Failure(run.err))
    else
      match cfg.deployment
      case DualChain(_, _) => Response(200, true, None, Data(address))
      case SingleChain(_) => Response(200, true, Some(run.message), Data(cfg.amountFaucet))
  }

  /** `checkAndExecuteTxsHandler(address)`. */
  function CheckAndExecute(cfg: Config, address: string, query: Oracle, parse: Parser): (h: Handled)
    ensures var cs := ActiveChains(cfg.deployment);
            var last := Verdict(cfg, query, parse, cs[|cs| - 1]);
            var message := Join(", ", Segments(cfg, address, cs, VerdictOf(cfg, query, parse)));
            // 400 exactly when some chain's check failed, 200 otherwise
            && (h.response.code == 400 <==> exists i :: 0 <= i < |cs| && Verdict(cfg, query, parse, cs[i]).Some?)
            && (h.response.code == 200 || h.response.code == 400)
            && h.response.status == (h.response.code == 200)
            // a failure carries the whole message and the last chain's error
            && (h.response.code == 400 ==>
                  h.response.message == Some(message) && h.response.payload == Failure(last))
            // a success carries the address (two chains) or the amount (one chain)
            && (h.response.code == 200 && cfg.deployment.DualChain? ==>
                  h.response.message == None && h.response.payload == Data(address))
            && (h.response.code == 200 && cfg.deployment.SingleChain? ==>
                  h.response.message == Some(message) && h.response.payload == Data(cfg.amountFaucet))
            // every active chain is queried, and exactly the passing ones are paid
            && Queried(h.trace) == cs
            && Paid(h.trace) == Eligible(cs, VerdictOf(cfg, query, parse))
            && TransfersWellFormed(cfg, address, h.trace)
  {
    var cs := ActiveChains(cfg.deployment);
    var verdict := VerdictOf(cfg, query, parse);
    var run := Process(cfg, address, cs, verdict);
    ProcessErrors(cfg, address, cs, verdict);
    ProcessMessage(cfg, address, cs, verdict);
    ProcessQueried(cfg, address, cs, verdict);
    ProcessPaid(cfg, address, cs, verdict);
    ProcessTransfers(cfg, address, cs, verdict);
    assert forall i :: 0 <= i < |cs| ==> verdict(cs[i]) == Verdict(cfg, query, parse, cs[i]);
    Handled(Respond(cfg, address, run), run.trace)
  }

  /** The single-chain service: one query; on failure 400 with
      "<chain>: <error>" and the error, no transfer; on success one transfer
      and 200 with "<chain>: Successfully sent tokens to  <address>" and the
      amount. */
  lemma SingleChainOutcome(cfg: Config, address: string, query: Oracle, parse: Parser)
    requires cfg.deployment.SingleChain?
    ensures var c := cfg.deployment.chain;
            var err := Verdict(cfg, query, parse, c);
            var h := CheckAndExecute(cfg, address, query, parse);
            var q := BalanceQuery(c, QueryFields(cfg.cliName, address, c.node, c.id));
            var t := Transfer(c, TransferFields(cfg.cliName, cfg.key, address, cfg.amountFaucet, c.node, c.id, c.fees));
            && (err.Some? ==>
                  h == Handled(Response(400, false, Some(c.id + ": " + ErrorText(err.value)), Failure(err)), [q]))
            && (err.None? ==>
                  h == Handled(Response(200, true, Some(c.id + ": " + SentText + address), Data(cfg.amountFaucet)), [q, t]))
  {
    var c := cfg.deployment.chain;
    var err := Verdict(cfg, query, parse, c);
    assert [c][..0] == [];
    assert Process(cfg, address, [], VerdictOf(cfg, query, parse)) == Run("", false, None, []);
    var run := Process(cfg, address, [c], VerdictOf(cfg, query, parse));
    assert run.trace == [] + Events(cfg, address, c, err);
    assert run.message == Segment(c.id, err, address);
  }

  /** The two-chain service handles chain 1 completely before chain 2, and
      touches chain 2 only when its node is set. */
  lemma DualChainOrder(cfg: Config, address: string, query: Oracle, parse: Parser)
    requires cfg.deployment.DualChain?
    ensures var c1 := cfg.deployment.first;
            var c2 := cfg.deployment.second;
            CheckAndExecute(cfg, address, query, parse).trace
            == Events(cfg, address, c1, Verdict(cfg, query, parse, c1))
               + (if c2.node != "" then Events(cfg, address, c2, Verdict(cfg, query, parse, c2)) else [])
  {
    var c1 := cfg.deployment.first;
    var c2 := cfg.deployment.second;
    assert [c1][..0] == [];
    assert Process(cfg, address, [], VerdictOf(cfg, query, parse)) == Run("", false, None, []);
    var run1 := Process(cfg, address, [c1], VerdictOf(cfg, query, parse));
    assert run1.trace == [] + Events(cfg, address, c1, Verdict(cfg, query, parse, c1));
    if c2.node != "" {
      assert [c1, c2][..1] == [c1];
    }
  }

  /** Chain 1 refused, chain 2 paid: the response is a 400 naming both
      outcomes, and its error field is nil because chain 2's check was the
      last one run. */
  lemma FirstRefusedSecondPaid(cfg: Config, address: string, query: Oracle, parse: Parser)
    requires cfg.deployment.DualChain? && cfg.deployment.second.node != ""
    requires Verdict(cfg, query, parse, cfg.deployment.first).Some?
    requires Verdict(cfg, query, parse, cfg.deployment.second).None?
    ensures var c1 := cfg.deployment.first;
            var c2 := cfg.deployment.second;
            var h := CheckAndExecute(cfg, address, query, parse);
            && h.response.code == 400
            && h.response.payload == Failure(None)
            && h.response.message
               == Some(c1.id + ": " + ErrorText(Verdict(cfg, query, parse, c1).value)
                       + ", " + c2.id + ": " + SentText + address)
            && Paid(h.trace) == [c2]
  {
    var c1 := cfg.deployment.first;
    var c2 := cfg.deployment.second;
    assert [c1][..0] == [];
    assert Process(cfg, address, [], VerdictOf(cfg, query, parse)) == Run("", false, None, []);
    assert [c1, c2][..1] == [c1];
    var run1 := Process(cfg, address, [c1], VerdictOf(cfg, query, parse));
    assert run1.message == Segment(c1.id, Verdict(cfg, query, parse, c1), address);
    var run := Process(cfg, address, [c1, c2], VerdictOf(cfg, query, parse));
    assert run.message == run1.message + ", " + Segment(c2.id, None, address);
    assert Eligible([c1], VerdictOf(cfg, query, parse)) == Eligible([], VerdictOf(cfg, query, parse)) + [];
    assert Eligible([c1, c2], VerdictOf(cfg, query, parse)) == Eligible([c1], VerdictOf(cfg, query, parse)) + [c2];
    var h := CheckAndExecute(cfg, address, query, parse);
    assert ActiveChains(cfg.deployment) == [c1, c2];
    assert h.response.code == 400;
    assert h.response.payload == Failure(None);
    assert h.response.message == Some(run.message);
    assert Paid(h.trace) == [c2];
    var e1 := Verdict(cfg, query, parse, c1).value;
    assert Segment(c1.id, Verdict(cfg, query, parse, c1), address) == c1.id + ": " + ErrorText(e1);
    assert Segment(c2.id, None, address) == c2.id + ": " + SentText + address;
    assert run.message == c1.id + ": " + ErrorText(e1) + ", " + c2.id + ": " + SentText + address;
  }

}
