/** The persisted configuration of cli.js and its built-in defaults. */
module Config {
  import opened Outcomes
  import opened Currencies

  /**
   * One object written to config.json. `provider` is None where the writer
   * leaves the property out.
   */
  datatype ConfigRecord = ConfigRecord(
    defaultCurrency: Currency,
    quantity: real,
    autorefresh: real,
    apiKey: string,
    provider: Option<string>)

  /** `defaultConfiguration`. */
  const DefaultConfiguration: ConfigRecord :=
    ConfigRecord(Currency("United States Dollar", "USD", "$"), 1.0, 15.0, "", Some("coingecko"))

  /** `supportedProviders`. */
  const SupportedProviders: seq<string> := ["cmc", "coingecko"]

  /**
   * Startup load: the file's contents, or the defaults when `require` of the
   * file throws (None: missing or unreadable).
   */
  function Load(file: Option<ConfigRecord>): (config: ConfigRecord)
    ensures file.None? ==> config == DefaultConfiguration
    ensures file.Some? ==> config == file.value
  {
    file.GetOr(DefaultConfiguration)
  }
}
