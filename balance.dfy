/** The balance report: `check_balance` reads an account's base-token balance
    in its wallet and in the Compound market and renders both with the
    formatter; `check_balance_batch` does this for every entry of the address
    list. Chain answers are inputs. */
module Balance {
  import opened Common
  import opened Config
  import opened Decimal
  import opened Formatter

  /** The largest decimals count whose divisor 10^decimals fits the unsigned
      128-bit integer the divisor is computed in. */
  const MAX_DECIMALS: nat := 38

  /** An entry of the address list: a display name and an address text. */
  datatype MonitorAddress = MonitorAddress(name: string, address: string)

  /** The answers one balance check receives: what the address parser makes of
      the entry's address text (None when it is not an address), then the
      market's base token, the token's symbol and decimals, and the two
      balances, each an error carrying the library's message when the call fails. */
  datatype BalanceReads = BalanceReads(
    account: Option<Address>,
    baseToken: Result<Address>,
    symbol: Result<string>,
    decimals: Result<U8>,
    walletBalance: Result<U256>,
    compoundBalance: Result<U256>)

  /** What a successful check reports. */
  datatype BalanceReport = BalanceReport(
    name: Option<string>,
    account: Address,
    symbol: string,
    baseToken: Address,
    decimals: U8,
    walletBalance: U256,
    compoundBalance: U256,
    walletFormatted: string,
    compoundFormatted: string)

  /** Every step of a check before the divisor succeeds. */
  predicate ReadsSucceed(config: Config, lookup: BalanceReads) {
    && lookup.account.Some? && config.parsedMarket.Ok? && lookup.baseToken.Ok? && lookup.symbol.Ok?
    && lookup.decimals.Ok? && lookup.walletBalance.Ok? && lookup.compoundBalance.Ok?
  }

  /** The check can render its balances: when it gets as far as the divisor,
      the decimals' divisor fits 128 bits. */
  predicate RenderableDecimals(config: Config, lookup: BalanceReads) {
    ReadsSucceed(config, lookup) ==> lookup.decimals.value <= MAX_DECIMALS
  }

  /** `check_balance`: the reads in the source's order, the first failure
      ending the check, then both balances rendered with divisor 10^decimals. */
  function CheckBalance(config: Config, name: Option<string>, lookup: BalanceReads): (r: Result<BalanceReport>)
    requires RenderableDecimals(config, lookup)
    ensures r.Ok? <==> ReadsSucceed(config, lookup)
    ensures lookup.account.None? ==> r == Err("Invalid address")
    ensures r.Ok? ==>
      && r.value.name == name
      && r.value.account == lookup.account.value
      && r.value.walletBalance == lookup.walletBalance.value
      && r.value.compoundBalance == lookup.compoundBalance.value
      && r.value.decimals == lookup.decimals.value
  {
    if lookup.account.None? then Err("Invalid address")
    else if config.parsedMarket.Err? then Err(config.parsedMarket.error)
    else if lookup.baseToken.Err? then Err(lookup.baseToken.error)
    else if lookup.symbol.Err? then Err(lookup.symbol.error)
    else if lookup.decimals.Err? then Err(lookup.decimals.error)
    else if lookup.walletBalance.Err? then Err(lookup.walletBalance.error)
    else if lookup.compoundBalance.Err? then Err(lookup.compoundBalance.error)
    else
      var decimals := lookup.decimals.value;
      Pow10Fits(decimals);
      var divisor: U256 := Pow10(decimals);
      Ok(BalanceReport(name, lookup.account.value, lookup.symbol.value, lookup.baseToken.value, decimals,
                       lookup.walletBalance.value, lookup.compoundBalance.value,
                       FormatBalance(lookup.walletBalance.value, divisor),
                       FormatBalance(lookup.compoundBalance.value, divisor)))
  }

  /** 10^decimals fits 128 bits for every renderable decimals count. */
  lemma Pow10Fits(k: nat)
    requires k <= MAX_DECIMALS
    ensures Pow10(k) < TWO_128
  {
    Pow10Monotone(k, MAX_DECIMALS);
    Pow10OfMaxDecimals();
  }

  lemma Pow10OfMaxDecimals()
    ensures Pow10(38) == 100_000_000_000_000_000_000_000_000_000_000_000_000
  {
    assert Pow10(12) == 1_000_000_000_000;
    assert Pow10(24) == 1_000_000_000_000_000_000_000_000;
    assert Pow10(36) == 1_000_000_000_000_000_000_000_000_000_000_000_000;
  }

  lemma {:induction false} Pow10Monotone(j: nat, k: nat)
    requires j <= k
    ensures Pow10(j) <= Pow10(k)
    decreases k
  {
    if j < k {
      Pow10Monotone(j, k - 1);
    }
  }

  /** The two rendered balances read back, at the token's decimals, as exactly
      the raw balances: the report loses no digit and rounds nothing. */
  lemma ReportIsExact(config: Config, name: Option<string>, lookup: BalanceReads)
    requires RenderableDecimals(config, lookup)
    ensures var r := CheckBalance(config, name, lookup);
      r.Ok? ==>
        ParseAmount(r.value.walletFormatted, r.value.decimals) == Some(r.value.walletBalance) &&
        ParseAmount(r.value.compoundFormatted, r.value.decimals) == Some(r.value.compoundBalance)
  {
    var r := CheckBalance(config, name, lookup);
    if r.Ok? {
      Pow10Fits(r.value.decimals);
      FormatRoundTrip(r.value.walletBalance, r.value.decimals);
      FormatRoundTrip(r.value.compoundBalance, r.value.decimals);
    }
  }

  /** Every check of a batch can render its decimals. */
  ghost predicate AllRenderable(config: Config, answers: nat -> BalanceReads) {
    forall i: nat :: RenderableDecimals(config, answers(i))
  }

  lemma RenderableAt(config: Config, answers: nat -> BalanceReads, i: nat)
    requires AllRenderable(config, answers)
    ensures RenderableDecimals(config, answers(i))
  {
  }

  /** `check_balance_batch`: load the list; an error loading it is the result.
      Otherwise check every entry in list order, `answers(i)` being what the
      chain answers to the i-th check; a failed check is logged and the rest go
      on, and the batch ends with success. Returns the result and the checks
      made. */
  method CheckBalanceBatch(config: Config, loaded: Result<seq<MonitorAddress>>, answers: nat -> BalanceReads)
    returns (outcome: Result<()>, checks: seq<Result<BalanceReport>>)
    requires AllRenderable(config, answers)
    ensures loaded.Err? ==> outcome == Err(loaded.error) && checks == []
    ensures loaded.Ok? ==> outcome == Ok(()) && |checks| == |loaded.value|
    ensures loaded.Ok? ==> forall i :: 0 <= i < |checks| ==>
      checks[i] == CheckBalance(config, Some(loaded.value[i].name), answers(i))
  {
    checks := [];
    if loaded.Err? {
      return Err(loaded.error), checks;
    }
    var entries := loaded.value;
    if |entries| == 0 {
      return Ok(()), checks;
    }
    for i := 0 to |entries|
      invariant |checks| == i
      invariant forall j :: 0 <= j < i ==> checks[j] == CheckBalance(config, Some(entries[j].name), answers(j))
    {
      RenderableAt(config, answers, i);
      var result := CheckBalance(config, Some(entries[i].name), answers(i));
      checks := checks + [result];
    }
    outcome := Ok(());
  }
}
