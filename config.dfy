/** The settings the monitor reads from its configuration file, after
    deserialisation. Only the fields the modelled logic consults are kept. */
module Config {
  import opened Common

  /** Which Compound market interface the configured address speaks. */
  datatype CompoundVersion = V2 | V3

  /** The configuration record. `parsedMarket` is what the address parser makes
      of `marketAddress`, and `rpcEndpoint` whether the HTTP provider accepts
      `rpc_url` (each an error carrying the library's message otherwise); both
      parsers are library routines and are taken as given. */
  datatype Config = Config(
    compoundVersion: CompoundVersion,
    marketAddress: string,
    parsedMarket: Result<Address>,
    rpcEndpoint: Result<()>,
    marketName: Option<string>,
    notificationEnabled: Option<bool>,
    privateKey: Option<string>)

  /** Notifications are on unless the configuration switches them off. */
  predicate NotificationsEnabled(config: Config) {
    config.notificationEnabled.GetOr(true)
  }

  lemma NotificationsDefaultOn(config: Config)
    ensures NotificationsEnabled(config) <==> config.notificationEnabled != Some(false)
  {
  }
}
