/** The monitor loop of `CompoundMonitor::run`: on every tick read the market,
    compare the available liquidity with the threshold and, when it is below,
    build an alert and send it if notifications are enabled. The unbounded loop
    is modelled over a finite sequence of ticks; the clock, the chain and the
    webhook's answers are part of each tick. */
module Monitor {
  import opened Common
  import opened Config
  import opened Decimal
  import opened Snapshot

  /** The JSON payload posted to the webhook. */
  datatype LiquidityAlert = LiquidityAlert(
    marketAddress: string,
    marketSymbol: string,
    availableLiquidity: string,
    totalBorrows: string,
    totalReserves: string,
    threshold: string,
    timestamp: int,
    message: string)

  /** How the webhook answers a POST: with some HTTP status, or not at all
      (connection failure or timeout). */
  datatype Delivery = Responded(status: nat) | Unreachable

  /** One tick of the interval timer: the wall-clock time in Unix seconds, the
      chain's answers to the reads, and the webhook's answer if it is called. */
  datatype TickInput = TickInput(now: int, chain: ChainReads, delivery: Delivery)

  /** What the loop does on one tick. */
  datatype TickAction =
    | ReadError(error: string)
    | AboveThreshold
    | AlertSkipped(alert: LiquidityAlert)
    | AlertSent(alert: LiquidityAlert, outcome: Result<()>)
    | Aborted(reason: string)

  /** The alert built for a snapshot below the threshold. Every numeric field is
      the exact decimal text of its value. */
  function BuildAlert(config: Config, threshold: U256, snapshot: LiquiditySnapshot, now: int): (alert: LiquidityAlert)
    ensures AllDigits(alert.availableLiquidity) && DigitsValue(alert.availableLiquidity) == snapshot.availableLiquidity
    ensures AllDigits(alert.totalBorrows) && DigitsValue(alert.totalBorrows) == snapshot.totalBorrows
    ensures AllDigits(alert.totalReserves) && DigitsValue(alert.totalReserves) == snapshot.totalReserves
    ensures AllDigits(alert.threshold) && DigitsValue(alert.threshold) == threshold
    ensures alert.marketAddress == config.marketAddress && alert.marketSymbol == snapshot.symbol
    ensures alert.timestamp == now
  {
    NatToStringValue(snapshot.availableLiquidity);
    NatToStringValue(snapshot.totalBorrows);
    NatToStringValue(snapshot.totalReserves);
    NatToStringValue(threshold);
    LiquidityAlert(
      config.marketAddress,
      snapshot.symbol,
      NatToString(snapshot.availableLiquidity),
      NatToString(snapshot.totalBorrows),
      NatToString(snapshot.totalReserves),
      NatToString(threshold),
      now,
      "Available liquidity (" + NatToString(snapshot.availableLiquidity) + ") is below threshold ("
        + NatToString(threshold) + ")")
  }

  /** `send_alert`: only a transport failure is an error; any HTTP status,
      success or not, counts as sent. */
  function SendAlert(delivery: Delivery): (r: Result<()>)
    ensures r.Err? <==> delivery == Unreachable
  {
    match delivery
    case Unreachable => Err("Failed to send webhook request")
    case Responded(_) => Ok(())
  }

  /** The body of the loop for one tick. */
  function Tick(config: Config, threshold: U256, input: TickInput): (action: TickAction)
    ensures action.Aborted? <==> CheckLiquidity(config, input.chain).Panicked?
    ensures action.AlertSent? ==> NotificationsEnabled(config)
    ensures action.AlertSkipped? ==> !NotificationsEnabled(config)
    ensures (action.AlertSent? || action.AlertSkipped?) ==>
      && AllDigits(action.alert.availableLiquidity) && DigitsValue(action.alert.availableLiquidity) < threshold
      && action.alert.timestamp == input.now
  {
    match CheckLiquidity(config, input.chain)
    case Failed(e) => ReadError(e)
    case Panicked(reason) => Aborted(reason)
    case Fetched(snapshot) =>
      if snapshot.availableLiquidity < threshold then
        var alert := BuildAlert(config, threshold, snapshot, input.now);
        if NotificationsEnabled(config) then AlertSent(alert, SendAlert(input.delivery))
        else AlertSkipped(alert)
      else
        AboveThreshold
  }

  /** The alert a tick dispatches, if any: one whose POST was attempted,
      whether or not the webhook was reached. */
  function Dispatched(action: TickAction): seq<LiquidityAlert> {
    if action.AlertSent? then [action.alert] else []
  }

  /** The alerts dispatched over a run of ticks, in order. A panic ends the run. */
  function Dispatches(config: Config, threshold: U256, ticks: seq<TickInput>): seq<LiquidityAlert> {
    if ticks == [] then []
    else
      var action := Tick(config, threshold, ticks[0]);
      if action.Aborted? then [] else Dispatched(action) + Dispatches(config, threshold, ticks[1..])
  }

  /** A tick that reads a snapshot below the threshold. */
  predicate Breach(config: Config, threshold: U256, input: TickInput) {
    var outcome := CheckLiquidity(config, input.chain);
    outcome.Fetched? && outcome.snapshot.availableLiquidity < threshold
  }

  /** The number of breaching ticks before the run ends. */
  function Breaches(config: Config, threshold: U256, ticks: seq<TickInput>): nat {
    if ticks == [] then 0
    else if CheckLiquidity(config, ticks[0].chain).Panicked? then 0
    else (if Breach(config, threshold, ticks[0]) then 1 else 0) + Breaches(config, threshold, ticks[1..])
  }

  /** The decision of one tick: an alert is built exactly on a breach, with
      strict comparison; it is sent exactly when notifications are also
      enabled; a failed read builds nothing and the loop goes on. */
  lemma TickDecision(config: Config, threshold: U256, input: TickInput)
    ensures var action := Tick(config, threshold, input);
      (action.AlertSent? || action.AlertSkipped?) <==> Breach(config, threshold, input)
    ensures Tick(config, threshold, input).AlertSent? <==>
      Breach(config, threshold, input) && config.notificationEnabled != Some(false)
    ensures CheckLiquidity(config, input.chain).Failed? ==> Tick(config, threshold, input).ReadError?
    ensures Tick(config, threshold, input).Aborted? <==> CheckLiquidity(config, input.chain).Panicked?
  {
    NotificationsDefaultOn(config);
  }

  /** One alert is dispatched per breaching tick while notifications are enabled,
      and none at all while they are disabled. */
  lemma {:induction false} DispatchCount(config: Config, threshold: U256, ticks: seq<TickInput>)
    ensures |Dispatches(config, threshold, ticks)| ==
      if NotificationsEnabled(config) then Breaches(config, threshold, ticks) else 0
  {
    if ticks != [] {
      DispatchCount(config, threshold, ticks[1..]);
    }
  }

  /** A tick dispatches at most one alert. */
  lemma OneAlertPerTick(config: Config, threshold: U256, input: TickInput)
    ensures |Dispatched(Tick(config, threshold, input))| <= 1
  {
  }

  /** No more alerts are dispatched over a run than there are ticks. */
  lemma {:induction false} NoMoreAlertsThanTicks(config: Config, threshold: U256, ticks: seq<TickInput>)
    ensures |Dispatches(config, threshold, ticks)| <= |ticks|
  {
    if ticks != [] {
      OneAlertPerTick(config, threshold, ticks[0]);
      NoMoreAlertsThanTicks(config, threshold, ticks[1..]);
    }
  }

  /** Every dispatched alert reports a liquidity strictly below the threshold. */
  lemma {:induction false} DispatchedAreBelowThreshold(config: Config, threshold: U256, ticks: seq<TickInput>)
    ensures forall alert <- Dispatches(config, threshold, ticks) ::
      AllDigits(alert.availableLiquidity) && DigitsValue(alert.availableLiquidity) < threshold &&
      AllDigits(alert.threshold) && DigitsValue(alert.threshold) == threshold
  {
    if ticks != [] {
      DispatchedAreBelowThreshold(config, threshold, ticks[1..]);
    }
  }

  /** The loop over a finite run of ticks. Read errors and failed posts are
      logged and the loop goes on; only a panic ends it early. Returns the
      alerts dispatched and the number of ticks completed. */
  method Run(config: Config, threshold: U256, ticks: seq<TickInput>) returns (sent: seq<LiquidityAlert>, completed: nat)
    ensures sent == Dispatches(config, threshold, ticks)
    ensures completed <= |ticks|
    ensures forall j :: 0 <= j < completed ==> !Tick(config, threshold, ticks[j]).Aborted?
    ensures completed < |ticks| ==> Tick(config, threshold, ticks[completed]).Aborted?
  {
    sent, completed := [], 0;
    while completed < |ticks|
      invariant completed <= |ticks|
      invariant forall j :: 0 <= j < completed ==> !Tick(config, threshold, ticks[j]).Aborted?
      invariant sent + Dispatches(config, threshold, ticks[completed..]) == Dispatches(config, threshold, ticks)
    {
      var action := Tick(config, threshold, ticks[completed]);
      DispatchesFrom(config, threshold, ticks, completed);
      if action.Aborted? {
        return;
      }
      sent := sent + Dispatched(action);
      completed := completed + 1;
    }
  }

  /** Unfolds the run from tick `i` by one tick. */
  lemma DispatchesFrom(config: Config, threshold: U256, ticks: seq<TickInput>, i: nat)
    requires i < |ticks|
    ensures var action := Tick(config, threshold, ticks[i]);
      Dispatches(config, threshold, ticks[i..]) ==
        if action.Aborted? then [] else Dispatched(action) + Dispatches(config, threshold, ticks[i + 1..])
  {
    assert ticks[i..][0] == ticks[i] && ticks[i..][1..] == ticks[i + 1..];
  }
}
