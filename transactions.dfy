/** The two write paths of the monitor, `supply_v3` and `withdraw_v3`: set up a
    signing client, look up the market's base token and send the transactions.
    Signing, sending and confirmation are library calls; their answers are
    inputs, so each path is a function of the configuration, the key and those
    answers, and it reports which transactions it sent and how it ended. */
module Transactions {
  import opened Common
  import opened Config

  /** The contract call a transaction carries. */
  datatype Call =
    | Approve(token: Address, spender: Address, amount: U256)
    | Supply(market: Address, asset: Address, amount: U256)
    | Withdraw(market: Address, asset: Address, amount: U256)

  /** A transaction signed by `sender`. */
  datatype Tx = Tx(sender: Address, call: Call)

  /** What becomes of a transaction handed to the client: the send is refused,
      waiting for it fails, it is dropped without a receipt, or it is mined. */
  datatype TxFate = SendRejected(error: string) | ConfirmError(error: string) | Dropped | Mined

  /** The answers of the libraries and the chain that the write paths use.
      `keys` maps each text that parses as a private key to its account; the
      other fields answer the base-token and allowance calls and say what
      becomes of the approval and of the supply or withdraw transaction. */
  datatype TxEnv = TxEnv(
    keys: map<string, Address>,
    baseToken: Result<Address>,
    allowance: Result<U256>,
    approveFate: TxFate,
    callFate: TxFate)

  /** The transactions a path handed to the client, in order, and its result. */
  datatype Execution = Execution(sent: seq<Tx>, result: Result<()>)

  /** The signing client of a path: the account, the market and its base token. */
  datatype Session = Session(sender: Address, market: Address, baseToken: Address)

  /** The steps both paths share, in the source's order: parse the key, build
      the provider, parse the market address, read the base token. */
  function Connect(config: Config, key: string, env: TxEnv): (r: Result<Session>)
    ensures r.Ok? <==> key in env.keys && config.rpcEndpoint.Ok? && config.parsedMarket.Ok? && env.baseToken.Ok?
    ensures r.Ok? ==> r.value == Session(env.keys[key], config.parsedMarket.value, env.baseToken.value)
    ensures key !in env.keys ==> r == Err("Invalid private key")
  {
    if key !in env.keys then Err("Invalid private key")
    else if config.rpcEndpoint.Err? then Err(config.rpcEndpoint.error)
    else if config.parsedMarket.Err? then Err(config.parsedMarket.error)
    else if env.baseToken.Err? then Err(env.baseToken.error)
    else Ok(Session(env.keys[key], config.parsedMarket.value, env.baseToken.value))
  }

  /** Waiting for a sent transaction: only a mined one is a success; a missing
      receipt fails with `dropped`, the path's own message. */
  function Confirm(fate: TxFate, dropped: string): (r: Result<()>)
    ensures r.Ok? <==> fate == Mined
    ensures fate == Dropped ==> r == Err(dropped)
  {
    match fate
    case SendRejected(e) => Err(e)
    case ConfirmError(e) => Err(e)
    case Dropped => Err(dropped)
    case Mined => Ok(())
  }

  /** `supply_v3`: after connecting, read the allowance the market has over the
      account's base tokens; when it is below `amount`, approve the market for
      the largest amount and wait for it; then send the supply and wait. */
  function SupplyV3(config: Config, amount: U256, key: string, env: TxEnv): (x: Execution)
    ensures |x.sent| <= 2
    ensures x.sent != [] ==> Connect(config, key, env).Ok? && env.allowance.Ok?
    ensures x.result.Ok? ==> env.callFate == Mined && x.sent != [] && x.sent[|x.sent| - 1].call.Supply?
    ensures forall i :: 0 <= i < |x.sent| ==> x.sent[i].call.Approve? || x.sent[i].call.Supply?
  {
    match Connect(config, key, env)
    case Err(e) => Execution([], Err(e))
    case Ok(s) =>
      if env.allowance.Err? then Execution([], Err(env.allowance.error))
      else
        var approval := Tx(s.sender, Approve(s.baseToken, s.market, U256_MAX));
        var supply := Tx(s.sender, Supply(s.market, s.baseToken, amount));
        var supplied := Confirm(env.callFate, "Supply transaction failed");
        if env.allowance.value < amount then
          match Confirm(env.approveFate, "Approve transaction failed")
          case Err(e) => Execution([approval], Err(e))
          case Ok(_) => Execution([approval, supply], supplied)
        else
          Execution([supply], supplied)
  }

  /** `withdraw_v3`: after connecting, send the withdrawal and wait. */
  function WithdrawV3(config: Config, amount: U256, key: string, env: TxEnv): (x: Execution)
    ensures |x.sent| <= 1
    ensures x.sent != [] ==> Connect(config, key, env).Ok?
    ensures x.sent != [] ==> x.sent[0].call == Withdraw(config.parsedMarket.value, env.baseToken.value, amount)
    ensures x.result.Ok? <==> Connect(config, key, env).Ok? && env.callFate == Mined
  {
    match Connect(config, key, env)
    case Err(e) => Execution([], Err(e))
    case Ok(s) =>
      Execution([Tx(s.sender, Withdraw(s.market, s.baseToken, amount))],
                Confirm(env.callFate, "Withdraw transaction failed"))
  }

  /** Everything the supply path reads before it decides on an approval succeeds. */
  predicate SupplyReady(config: Config, key: string, env: TxEnv) {
    Connect(config, key, env).Ok? && env.allowance.Ok?
  }

  /** An approval is sent exactly when the reads succeed and the allowance is
      strictly below the amount; it is then the first transaction, it is signed
      by the key's account and grants the market the largest amount of the base
      token. */
  lemma SupplyApproval(config: Config, amount: U256, key: string, env: TxEnv)
    ensures var x := SupplyV3(config, amount, key, env);
      (exists i :: 0 <= i < |x.sent| && x.sent[i].call.Approve?) <==>
        SupplyReady(config, key, env) && env.allowance.value < amount
    ensures var x := SupplyV3(config, amount, key, env);
      SupplyReady(config, key, env) && env.allowance.value < amount ==>
        x.sent[0] == Tx(env.keys[key], Approve(env.baseToken.value, config.parsedMarket.value, U256_MAX))
  {
  }

  /** The supply is sent at most once, as the last transaction, and only after
      every read succeeded and, when an approval was needed, after it was mined.
      It moves `amount` of the base token into the configured market. */
  lemma SupplyAfterApproval(config: Config, amount: U256, key: string, env: TxEnv)
    ensures var x := SupplyV3(config, amount, key, env);
      forall i :: 0 <= i < |x.sent| && x.sent[i].call.Supply? ==>
        && i == |x.sent| - 1
        && SupplyReady(config, key, env)
        && (env.allowance.value < amount ==> env.approveFate == Mined)
        && x.sent[i] == Tx(env.keys[key], Supply(config.parsedMarket.value, env.baseToken.value, amount))
    ensures |SupplyV3(config, amount, key, env).sent| <= 2
  {
  }

  /** The supply is handed to the client exactly when the reads succeed and
      any needed approval is mined, whatever then becomes of it; an approval
      that is not mined ends the path after that one transaction, so at most
      one approval is ever sent. A supply that is dropped fails with the
      path's own message. */
  lemma SupplySent(config: Config, amount: U256, key: string, env: TxEnv)
    ensures var x := SupplyV3(config, amount, key, env);
      (exists i :: 0 <= i < |x.sent| && x.sent[i].call.Supply?) <==>
        SupplyReady(config, key, env) && (env.allowance.value < amount ==> env.approveFate == Mined)
    ensures SupplyReady(config, key, env) && env.allowance.value < amount && env.approveFate != Mined ==>
      |SupplyV3(config, amount, key, env).sent| == 1
    ensures var x := SupplyV3(config, amount, key, env);
      |x.sent| == 2 ==> x.sent[0].call.Approve? && x.sent[1].call.Supply?
    ensures SupplyReady(config, key, env) && (env.allowance.value < amount ==> env.approveFate == Mined) ==>
      (env.callFate == Dropped ==> SupplyV3(config, amount, key, env).result == Err("Supply transaction failed"))
  {
    var x := SupplyV3(config, amount, key, env);
    if SupplyReady(config, key, env) && (env.allowance.value < amount ==> env.approveFate == Mined) {
      assert x.sent[|x.sent| - 1].call.Supply?;
    }
  }

  /** The supply path succeeds exactly when the reads succeed, any needed
      approval is mined and the supply is mined. */
  lemma SupplyOutcome(config: Config, amount: U256, key: string, env: TxEnv)
    ensures SupplyV3(config, amount, key, env).result.Ok? <==>
      SupplyReady(config, key, env) &&
      (env.allowance.value < amount ==> env.approveFate == Mined) &&
      env.callFate == Mined
    ensures var x := SupplyV3(config, amount, key, env);
      x.result.Ok? ==> x.sent[|x.sent| - 1].call.Supply?
  {
  }

  /** The withdraw path never approves and never consults the allowance: it
      sends only withdrawals, and its behaviour is the same whatever the
      allowance and the approval would have been. */
  lemma WithdrawIgnoresAllowance(config: Config, amount: U256, key: string, env: TxEnv,
                                 allowance: Result<U256>, approveFate: TxFate)
    ensures var x := WithdrawV3(config, amount, key, env);
      forall i :: 0 <= i < |x.sent| ==> x.sent[i].call.Withdraw?
    ensures WithdrawV3(config, amount, key, env) ==
      WithdrawV3(config, amount, key, env.(allowance := allowance, approveFate := approveFate))
  {
  }

  /** The withdraw path sends one withdrawal of `amount` of the base token from
      the configured market exactly when it connects, and succeeds exactly when
      that withdrawal is mined. */
  lemma WithdrawOutcome(config: Config, amount: U256, key: string, env: TxEnv)
    ensures var x := WithdrawV3(config, amount, key, env);
      x.sent != [] <==> Connect(config, key, env).Ok?
    ensures var x := WithdrawV3(config, amount, key, env);
      x.sent != [] ==> x.sent == [Tx(env.keys[key], Withdraw(config.parsedMarket.value, env.baseToken.value, amount))]
    ensures WithdrawV3(config, amount, key, env).result.Ok? <==>
      Connect(config, key, env).Ok? && env.callFate == Mined
  {
  }
}
