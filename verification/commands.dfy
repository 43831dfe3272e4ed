/** The command lines the faucet hands to its command-line client, and
    `getCmd`, which turns a command line into a program and its arguments. */
module Commands {
  import opened Text

  /** What `exec.Command` receives: the program and its argument list. */
  datatype Cmd = Cmd(program: string, args: seq<string>)

  /** `getCmd`: split the command line on single spaces; the first piece is
      the program and the remaining pieces, in order, are its arguments. */
  function GetCmd(command: string): (c: Cmd)
    ensures Join(" ", [c.program] + c.args) == command
    ensures ' ' !in c.program
    ensures forall i :: 0 <= i < |c.args| ==> ' ' !in c.args[i]
    ensures ' ' !in command ==> c == Cmd(command, [])
  {
    var split := Split(command, ' ');
    JoinSplit(command, ' ');
    assert [split[0]] + split[1..] == split;
    assert ' ' !in command ==> split == [command] by {
      if ' ' !in command {
        SplitJoin([command], ' ');
      }
    }
    if |split| == 1 then
      Cmd(split[0], [])
    else
      Cmd(split[0], split[1..])
  }

  /** A program and arguments free of spaces survive the trip through a
      single-space command line unchanged. */
  lemma GetCmdOfJoin(program: string, args: seq<string>)
    requires ' ' !in program
    requires forall i :: 0 <= i < |args| ==> ' ' !in args[i]
    ensures GetCmd(Join(" ", [program] + args)) == Cmd(program, args)
  {
    var parts := [program] + args;
    assert forall i :: 0 <= i < |parts| ==> ' ' !in parts[i];
    SplitJoin(parts, ' ');
    JoinSplit(Join(" ", parts), ' ');
    assert parts[1..] == args;
  }

  /** The fields of the balance query run through `bash -c`: `<cli> query
      bank balances <address> --node <node> --chain-id <chain> -o json`. */
  function QueryFields(cli: string, address: string, node: string, chainId: string): seq<string>
  {
    [cli, "query", "bank", "balances", address, "--node", node, "--chain-id", chainId, "-o", "json"]
  }

  /** The arguments of the transfer: `tx bank send <key> <address> <amount>
      --from <key> --node <node> --chain-id <chain> --fees <fees>
      --keyring-backend test -y`. */
  function TransferArgs(key: string, address: string, amount: string, node: string, chainId: string, fees: string): seq<string>
  {
    ["tx", "bank", "send", key, address, amount, "--from", key, "--node", node,
     "--chain-id", chainId, "--fees", fees, "--keyring-backend", "test", "-y"]
  }

  /** The fields of the transfer command, program first. */
  function TransferFields(cli: string, key: string, address: string, amount: string, node: string, chainId: string, fees: string): seq<string>
  {
    [cli] + TransferArgs(key, address, amount, node, chainId, fees)
  }

  /** A command line is its fields separated by single spaces, which is
      what the `Sprintf` templates produce. */
  function CommandLine(fields: seq<string>): string
  {
    Join(" ", fields)
  }

  /** When no configured field and not the address contains a space, the
      client is started with exactly the intended arguments. */
  lemma TransferReachesClientIntact(cli: string, key: string, address: string, amount: string, node: string, chainId: string, fees: string)
    requires ' ' !in cli && ' ' !in key && ' ' !in address && ' ' !in amount
    requires ' ' !in node && ' ' !in chainId && ' ' !in fees
    ensures GetCmd(CommandLine(TransferFields(cli, key, address, amount, node, chainId, fees)))
            == Cmd(cli, TransferArgs(key, address, amount, node, chainId, fees))
  {
    var args := TransferArgs(key, address, amount, node, chainId, fees);
    assert forall i :: 0 <= i < |args| ==> ' ' !in args[i];
    GetCmdOfJoin(cli, args);
  }

  /** An address holding a space never reaches the client as the single
      recipient argument: the split breaks it apart, so the argument list
      differs from the intended one. */
  lemma SpacedAddressIsSplit(cli: string, key: string, address: string, amount: string, node: string, chainId: string, fees: string)
    requires ' ' in address
    ensures GetCmd(CommandLine(TransferFields(cli, key, address, amount, node, chainId, fees))).args
            != TransferArgs(key, address, amount, node, chainId, fees)
  {
    var c := GetCmd(CommandLine(TransferFields(cli, key, address, amount, node, chainId, fees)));
    var intended := TransferArgs(key, address, amount, node, chainId, fees);
    assert ' ' in intended[4];
    assert |c.args| > 4 ==> ' ' !in c.args[4];
  }

}
