/** The command arms of `main` that are not the monitor loop: supply and
    withdraw, which parse the amount, accept only V3 markets and resolve the
    signing key before any transaction, and the balance command, which checks
    one address or the whole address list. */
module Cli {
  import opened Common
  import opened Config
  import opened Transactions
  import opened Balance

  const INVALID_AMOUNT: string := "Invalid amount"
  const V3_ONLY: string :=
    "Supply/withdraw is only supported for Compound V3. Set 'compound_version': 'v3' in config.json"
  const NO_KEY: string :=
    "Private key not provided. Use --private-key or add 'private_key' to config.json"

  /** The two write commands. */
  datatype TxCommand = SupplyCommand | WithdrawCommand

  /** The signing key: the one given on the command line, else the one in the
      configuration; with neither the command fails. */
  function ResolveKey(cliKey: Option<string>, configKey: Option<string>): (r: Result<string>)
    ensures cliKey.Some? ==> r == Ok(cliKey.value)
    ensures cliKey.None? && configKey.Some? ==> r == Ok(configKey.value)
    ensures r.Err? <==> cliKey.None? && configKey.None?
    ensures r.Err? ==> r.error == NO_KEY
  {
    match cliKey
    case Some(k) => Ok(k)
    case None =>
      match configKey
      case Some(k) => Ok(k)
      case None => Err(NO_KEY)
  }

  /** A supply or withdraw command. `amount` is what the decimal parser makes
      of the amount text (None when it is not a 256-bit decimal number). */
  function RunTransactionCommand(command: TxCommand, amount: Option<U256>, cliKey: Option<string>,
                                 config: Config, env: TxEnv): (x: Execution)
    ensures x.sent != [] ==> amount.Some? && config.compoundVersion == V3
    ensures amount.None? ==> x.result == Err(INVALID_AMOUNT)
  {
    if amount.None? then Execution([], Err(INVALID_AMOUNT))
    else if config.compoundVersion != V3 then Execution([], Err(V3_ONLY))
    else
      match ResolveKey(cliKey, config.privateKey)
      case Err(e) => Execution([], Err(e))
      case Ok(key) =>
        match command
        case SupplyCommand => SupplyV3(config, amount.value, key, env)
        case WithdrawCommand => WithdrawV3(config, amount.value, key, env)
  }

  /** The amount is parsed first, then the version is checked: an unparsable
      amount fails with its own message whatever the market, and a market
      that is not V3 fails with the version message; in both cases no
      transaction is sent. */
  lemma AmountThenVersion(command: TxCommand, amount: Option<U256>, cliKey: Option<string>,
                          config: Config, env: TxEnv)
    ensures amount.None? ==>
      RunTransactionCommand(command, amount, cliKey, config, env) == Execution([], Err(INVALID_AMOUNT))
    ensures amount.Some? && config.compoundVersion != V3 ==>
      RunTransactionCommand(command, amount, cliKey, config, env) == Execution([], Err(V3_ONLY))
  {
  }

  /** A transaction is sent only for a parsed amount, a V3 market and a
      resolved key; the command then runs its path with exactly that amount and
      the command-line key when there is one, else the configured one. */
  lemma TransactionsNeedGateAndKey(command: TxCommand, amount: Option<U256>, cliKey: Option<string>,
                                   config: Config, env: TxEnv)
    ensures RunTransactionCommand(command, amount, cliKey, config, env).sent != [] ==>
      amount.Some? && config.compoundVersion == V3 && (cliKey.Some? || config.privateKey.Some?)
    ensures amount.Some? && config.compoundVersion == V3 && cliKey.None? && config.privateKey.None? ==>
      RunTransactionCommand(command, amount, cliKey, config, env) == Execution([], Err(NO_KEY))
    ensures amount.Some? && config.compoundVersion == V3 && (cliKey.Some? || config.privateKey.Some?) ==>
      var key := if cliKey.Some? then cliKey.value else config.privateKey.value;
      RunTransactionCommand(command, amount, cliKey, config, env) ==
        if command == SupplyCommand then SupplyV3(config, amount.value, key, env)
        else WithdrawV3(config, amount.value, key, env)
  {
  }

  /** The balance command: with an address on the command line, one check of
      it (`single` being the chain's answers, including what the address parser
      makes of the text), whose failure is the command's; without one, the batch
      over the address list. */
  method RunBalanceCommand(config: Config, address: Option<string>, single: BalanceReads,
                           loaded: Result<seq<MonitorAddress>>, answers: nat -> BalanceReads)
    returns (outcome: Result<()>, checks: seq<Result<BalanceReport>>)
    requires address.Some? ==> RenderableDecimals(config, single)
    requires address.None? ==> AllRenderable(config, answers)
    ensures address.Some? ==> checks == [CheckBalance(config, None, single)]
    ensures address.Some? ==> (outcome.Ok? <==> checks[0].Ok?)
    ensures address.Some? && checks[0].Err? ==> outcome == Err(checks[0].error)
    ensures address.None? && loaded.Err? ==> outcome == Err(loaded.error) && checks == []
    ensures address.None? && loaded.Ok? ==> outcome == Ok(()) && |checks| == |loaded.value|
    ensures address.None? && loaded.Ok? ==> forall i :: 0 <= i < |checks| ==>
      checks[i] == CheckBalance(config, Some(loaded.value[i].name), answers(i))
  {
    if address.Some? {
      var result := CheckBalance(config, None, single);
      checks := [result];
      outcome := if result.Ok? then Ok(()) else Err(result.error);
    } else {
      outcome, checks := CheckBalanceBatch(config, loaded, answers);
    }
  }
}
