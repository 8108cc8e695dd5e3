/** The market snapshot reader: `check_liquidity` and its two version-specific
    read sequences. Each contract call is an input (None when the call fails),
    so the reader is a function of the configuration and the chain's answers. */
module Snapshot {
  import opened Common
  import opened Config

  /** The display name of a V3 market that the configuration leaves unnamed. */
  const DEFAULT_V3_SYMBOL: string := "cUSDCv3"

  /** The tuple `check_liquidity` returns: available liquidity, total borrows,
      total reserves and the market symbol. */
  datatype LiquiditySnapshot = LiquiditySnapshot(
    availableLiquidity: U256,
    totalBorrows: U256,
    totalReserves: U256,
    symbol: string)

  /** What one read of the market produces: a snapshot, an error carrying the
      context of the first failed step, or a panic that ends the process. */
  datatype ReadOutcome =
    | Fetched(snapshot: LiquiditySnapshot)
    | Failed(error: string)
    | Panicked(reason: string)

  /** The answers of a V2 cToken to `getCash`, `totalBorrows`,
      `totalReserves` and `symbol`. */
  datatype CTokenReads = CTokenReads(
    cash: Option<U256>,
    totalBorrows: Option<U256>,
    totalReserves: Option<U256>,
    symbol: Option<string>)

  /** The answers of a V3 Comet market and of its base token. `tokenBalances`
      maps (token, holder) to what that token's `balanceOf(holder)` returns; a
      pair that is absent is a failed call. */
  datatype CometReads = CometReads(
    baseToken: Option<Address>,
    tokenBalances: map<(Address, Address), U256>,
    totalSupply: Option<U256>,
    totalBorrow: Option<U256>,
    reserves: Option<I256>,
    utilization: Option<U256>,
    supplyRate: Option<U64>,
    borrowRate: Option<U64>)

  /** Everything the chain answers during one read, for either interface. */
  datatype ChainReads = ChainReads(cToken: CTokenReads, comet: CometReads)

  /** `I256::as_u128`: the value when it fits in 128 unsigned bits; otherwise
      the conversion panics (None). */
  function AsU128(value: I256): Option<nat> {
    if 0 <= value < TWO_128 then Some(value) else None
  }

  /** The reserve conversion of the V3 reader: a negative reserve becomes zero;
      a non-negative one goes through `as_u128`. */
  function ReservesToUnsigned(raw: I256): (r: Option<U256>)
    ensures raw < 0 ==> r == Some(0)
    ensures 0 <= raw < TWO_128 ==> r == Some(raw)
    ensures r.None? <==> raw >= TWO_128
  {
    if raw >= 0 then
      match AsU128(raw)
      case Some(v) => Some(v)
      case None => None
    else
      Some(0)
  }

  /** The symbol a V3 snapshot carries: the configured name, else the default. */
  function V3Symbol(config: Config): string {
    config.marketName.GetOr(DEFAULT_V3_SYMBOL)
  }

  /** `check_liquidity_v2`: four reads in order, the first failure ends the read. */
  function ReadV2(answers: CTokenReads): (r: ReadOutcome)
    ensures r.Fetched? <==>
      answers.cash.Some? && answers.totalBorrows.Some? && answers.totalReserves.Some? && answers.symbol.Some?
    ensures r.Fetched? ==> r.snapshot.availableLiquidity == answers.cash.value && r.snapshot.symbol == answers.symbol.value
    ensures !r.Panicked?
    ensures answers.cash.None? ==> r == Failed("Failed to get cash (V2)")
  {
    if answers.cash.None? then Failed("Failed to get cash (V2)")
    else if answers.totalBorrows.None? then Failed("Failed to get total borrows (V2)")
    else if answers.totalReserves.None? then Failed("Failed to get total reserves (V2)")
    else if answers.symbol.None? then Failed("Failed to get symbol (V2)")
    else Fetched(LiquiditySnapshot(answers.cash.value, answers.totalBorrows.value,
                                   answers.totalReserves.value, answers.symbol.value))
  }

  /** `check_liquidity_v3`: base token, the base token's balance held by the
      market, total supply, total borrow, reserves (converted at once), then
      utilization and the two rates, which are read only for logging; the
      utilization is then narrowed to 128 bits for the log line, which panics
      on a larger value. */
  function ReadV3(config: Config, market: Address, answers: CometReads): (r: ReadOutcome)
    ensures r.Panicked? ==>
      (answers.reserves.Some? && answers.reserves.value >= TWO_128) ||
      (answers.utilization.Some? && answers.utilization.value >= TWO_128)
    ensures r.Fetched? ==>
      && answers.baseToken.Some? && (answers.baseToken.value, market) in answers.tokenBalances
      && r.snapshot.availableLiquidity == answers.tokenBalances[(answers.baseToken.value, market)]
      && answers.reserves.Some? && r.snapshot.totalReserves == (if answers.reserves.value < 0 then 0 else answers.reserves.value)
      && r.snapshot.symbol == V3Symbol(config)
  {
    if answers.baseToken.None? then Failed("Failed to get base token address (V3)")
    else if (answers.baseToken.value, market) !in answers.tokenBalances then Failed("Failed to get contract balance (V3)")
    else if answers.totalSupply.None? then Failed("Failed to get total supply (V3)")
    else if answers.totalBorrow.None? then Failed("Failed to get total borrow (V3)")
    else if answers.reserves.None? then Failed("Failed to get reserves (V3)")
    else
      match ReservesToUnsigned(answers.reserves.value)
      case None => Panicked("reserves do not fit in u128")
      case Some(reserves) =>
        if answers.utilization.None? then Failed("Failed to get utilization (V3)")
        else if answers.supplyRate.None? then Failed("Failed to get supply rate (V3)")
        else if answers.borrowRate.None? then Failed("Failed to get borrow rate (V3)")
        else if answers.utilization.value >= TWO_128 then Panicked("utilization does not fit in u128")
        else
          var availableLiquidity := answers.tokenBalances[(answers.baseToken.value, market)];
          Fetched(LiquiditySnapshot(availableLiquidity, answers.totalBorrow.value, reserves, V3Symbol(config)))
  }

  /** `check_liquidity`: parse the configured market address, then read it
      with the configured version's sequence. */
  function CheckLiquidity(config: Config, answers: ChainReads): (r: ReadOutcome)
    ensures config.parsedMarket.Err? ==> r == Failed("Invalid market address")
    ensures r.Panicked? ==> config.compoundVersion == V3
  {
    match config.parsedMarket
    case Err(_) => Failed("Invalid market address")
    case Ok(market) =>
      match config.compoundVersion
      case V2 => ReadV2(answers.cToken)
      case V3 => ReadV3(config, market, answers.comet)
  }

  /** A V3 read succeeds exactly when every call succeeds and the reserves fit
      the conversion; it then reports the base token's balance held by the
      market as liquidity, the total borrow, the clamped reserves and the
      configured or default symbol. */
  lemma V3Snapshot(config: Config, answers: ChainReads)
    requires config.compoundVersion == V3 && config.parsedMarket.Ok?
    ensures var c := answers.comet;
      var market := config.parsedMarket.value;
      CheckLiquidity(config, answers).Fetched? <==>
        c.baseToken.Some? && (c.baseToken.value, market) in c.tokenBalances &&
        c.totalSupply.Some? && c.totalBorrow.Some? &&
        c.reserves.Some? && c.reserves.value < TWO_128 &&
        c.utilization.Some? && c.supplyRate.Some? && c.borrowRate.Some? && c.utilization.value < TWO_128
    ensures var c := answers.comet;
      var market := config.parsedMarket.value;
      CheckLiquidity(config, answers).Fetched? ==>
        var s := CheckLiquidity(config, answers).snapshot;
        && s.availableLiquidity == c.tokenBalances[(c.baseToken.value, market)]
        && s.totalBorrows == c.totalBorrow.value
        && s.totalReserves == (if c.reserves.value < 0 then 0 else c.reserves.value)
        && s.symbol == (if config.marketName.Some? then config.marketName.value else "cUSDCv3")
  {
  }

  /** The V3 liquidity figure is the held balance, not the protocol's own
      accounting: changing the reported total supply or total borrow changes
      neither whether the read succeeds nor the liquidity it reports. */
  lemma V3LiquidityIgnoresAccounting(config: Config, answers: ChainReads, supply: U256, borrow: U256)
    requires config.compoundVersion == V3
    requires answers.comet.totalSupply.Some? && answers.comet.totalBorrow.Some?
    ensures var other := answers.(comet := answers.comet.(totalSupply := Some(supply), totalBorrow := Some(borrow)));
      var before, after := CheckLiquidity(config, answers), CheckLiquidity(config, other);
      before.Fetched? == after.Fetched? &&
      (before.Fetched? ==> before.snapshot.availableLiquidity == after.snapshot.availableLiquidity)
  {
  }

  /** A negative reserve of -100 surfaces as zero, not as a negative or
      wrapped-around value. */
  lemma NegativeReservesAreZero(config: Config, answers: ChainReads)
    requires config.compoundVersion == V3 && config.parsedMarket.Ok?
    requires answers.comet.reserves == Some(-100)
    requires CheckLiquidity(config, answers).Fetched?
    ensures CheckLiquidity(config, answers).snapshot.totalReserves == 0
  {
  }

  /** A V2 read succeeds exactly when all four calls do and passes their
      answers through unchanged. */
  lemma V2Snapshot(config: Config, answers: ChainReads)
    requires config.compoundVersion == V2 && config.parsedMarket.Ok?
    ensures var c := answers.cToken;
      CheckLiquidity(config, answers).Fetched? <==>
        c.cash.Some? && c.totalBorrows.Some? && c.totalReserves.Some? && c.symbol.Some?
    ensures var c := answers.cToken;
      CheckLiquidity(config, answers).Fetched? ==>
        CheckLiquidity(config, answers).snapshot ==
          LiquiditySnapshot(c.cash.value, c.totalBorrows.value, c.totalReserves.value, c.symbol.value)
    ensures !CheckLiquidity(config, answers).Panicked?
  {
  }

  /** Only the two 128-bit narrowings of the V3 reader can panic, on reserves
      or a utilization of 2^128 or more; an unparsable market address is an
      error before any call. */
  lemma PanicOnlyOnWideValues(config: Config, answers: ChainReads)
    ensures CheckLiquidity(config, answers).Panicked? ==>
      config.compoundVersion == V3 &&
      ((answers.comet.reserves.Some? && answers.comet.reserves.value >= TWO_128) ||
       (answers.comet.utilization.Some? && answers.comet.utilization.value >= TWO_128))
    ensures config.parsedMarket.Err? ==> CheckLiquidity(config, answers) == Failed("Invalid market address")
  {
  }
}
