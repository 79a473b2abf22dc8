/**
 * The decisions of cli.js as functions of plain data: one pass of
 * `checkAllFlags` over the session globals, the timer-driven repetition of
 * passes, and the one-shot actions that run before the first pass.
 */
module Controller {
  import opened Outcomes
  import opened Currencies
  import opened Listing
  import opened Config
  import opened Invocation

  /** The module-level globals `defaultCurrency`, `quantity`, `autorefresh`, `apiKey`. */
  datatype State = State(defaultCurrency: Currency, quantity: real, autorefresh: real, apiKey: string)

  function Initial(config: ConfigRecord): State {
    State(config.defaultCurrency, config.quantity, config.autorefresh, config.apiKey)
  }

  /**
   * The object a save writes: the session globals, and `provider` only when
   * the writer includes it.
   */
  function Record(s: State, provider: Option<string>): ConfigRecord {
    ConfigRecord(s.defaultCurrency, s.quantity, s.autorefresh, s.apiKey, provider)
  }

  datatype Window = Hour | Day | Week

  /** A call into the price library. */
  datatype Request =
    | PercentageChange(window: Window)
    | Price(currencyCode: string, isDecimal: bool, quantity: real)

  /**
   * What the model does not see: the library's currency list, whether a
   * write of config.json succeeds, and the formatted result of a network
   * call (None: the call rejected).
   */
  datatype Environment = Environment(
    currencies: seq<Currency>,
    writeOk: ConfigRecord -> bool,
    fetch: Request -> Option<string>)

  /** Why the process ends with status 1. */
  datatype Failure =
    | InvalidCurrency | SaveFailed | InvalidPercentage | NetworkError | InvalidProvider | MissingApiKey

  /** The line printed by a pass. */
  datatype Line = PercentageLine(text: string, negative: bool) | PriceLine(symbol: string, value: string)

  /**
   * How a pass ends: an exit with status 1, or a printed line and, when
   * autorefresh is on, the delay in seconds before the next pass.
   */
  datatype Outcome = Failed(failure: Failure) | Shown(line: Line, next: Option<real>)

  datatype PassResult = PassResult(
    state: State,                 // the globals afterwards
    saves: seq<ConfigRecord>,     // config objects written, in order
    call: Option<Request>,        // the network call issued, if any
    outcome: Outcome)

  predicate Rescheduled(r: PassResult) {
    r.outcome.Shown? && r.outcome.next.Some?
  }

  // ---------------------------------------------------------------------
  // Percentage display

  /** The `--percentage` token for each window; `d` is also the default. */
  function Token(w: Window): string {
    match w
    case Hour => "h"
    case Day => "d"
    case Week => "w"
  }

  function PercentageWindow(token: string): Option<Window> {
    if token == "h" then Some(Hour)
    else if token == "d" || token == "" then Some(Day)
    else if token == "w" then Some(Week)
    else None
  }

  /** Exactly h, d, w and the empty token are accepted, each for its own window. */
  lemma WindowTokens(token: string, w: Window)
    ensures PercentageWindow(Token(w)) == Some(w)
    ensures PercentageWindow(token) == Some(w) <==> token == Token(w) || (w == Day && token == "")
    ensures PercentageWindow(token).None? <==> token !in ["h", "d", "", "w"]
  {
  }

  predicate StartsWith(s: string, prefix: string) {
    |prefix| <= |s| && s[..|prefix|] == prefix
  }

  /** `printPercentage` applied to the formatted change followed by `%`. */
  function ShowPercentage(percentage: string): (l: Line)
    ensures l.PercentageLine? && l.text == percentage + "%"
    ensures l.negative <==> |percentage| > 0 && percentage[0] == '-'
  {
    var text := percentage + "%";
    assert StartsWith(text, "-") <==> text[0] == '-' by {
      if text[0] == '-' { assert text[..1] == "-"; }
    }
    assert text[0] == if |percentage| > 0 then percentage[0] else '%';
    PercentageLine(text, StartsWith(text, "-"))
  }

  // ---------------------------------------------------------------------
  // One pass of checkAllFlags

  /** Progress through a pass: carry on, or stop with a failure. */
  datatype Step =
    | Continue(state: State, saves: seq<ConfigRecord>)
    | Halt(state: State, saves: seq<ConfigRecord>, failure: Failure)

  /** The `s` step: look the code up, make it the default and write the config. */
  function SaveDefault(flags: Flags, s: State, env: Environment): Step {
    if flags.save.None? then Continue(s, [])
    else match Lookup(env.currencies, flags.save.value)
      case None => Halt(s, [], InvalidCurrency)
      case Some(c) =>
        var s1 := s.(defaultCurrency := c);
        var rec := Record(s1, None);
        if env.writeOk(rec) then Continue(s1, [rec]) else Halt(s1, [], SaveFailed)
  }

  /** The `q` step: a truthy number different from the held quantity is adopted and written. */
  function SetQuantity(q: QuantityArg, s: State, env: Environment): Step {
    if q.QuantityNumber? && q.value != 0.0 && q.value != s.quantity then
      var s1 := s.(quantity := q.value);
      var rec := Record(s1, None);
      if env.writeOk(rec) then Continue(s1, [rec]) else Halt(s1, [], SaveFailed)
    else Continue(s, [])
  }

  /** `multiplier`: the held quantity when `q` is truthy, 1 otherwise. */
  function Multiplier(q: QuantityArg, quantity: real): real {
    if QuantityTruthy(q) then quantity else 1.0
  }

  datatype Display = Display(call: Option<Request>, line: Result<Line, Failure>)

  /** Percentage change, else price in the `c` currency, else price in the default currency. */
  function Show(flags: Flags, s: State, multiplier: real, env: Environment): Display {
    if flags.percentage.Some? then
      match PercentageWindow(flags.percentage.value)
      case None => Display(None, Err(InvalidPercentage))
      case Some(w) =>
        var req := PercentageChange(w);
        match env.fetch(req)
        case None => Display(Some(req), Err(NetworkError))
        case Some(p) => Display(Some(req), Ok(ShowPercentage(p)))
    else if Truthy(flags.currency) then
      match Lookup(env.currencies, flags.currency.value)
      case None => Display(None, Err(InvalidCurrency))
      case Some(c) =>
        var req := Price(flags.currency.value, flags.decimal, multiplier);
        match env.fetch(req)
        case None => Display(Some(req), Err(NetworkError))
        case Some(v) => Display(Some(req), Ok(PriceLine(c.symbol, v)))
    else
      var req := Price(s.defaultCurrency.code, flags.decimal, multiplier);
      match env.fetch(req)
      case None => Display(Some(req), Err(NetworkError))
      case Some(v) => Display(Some(req), Ok(PriceLine(s.defaultCurrency.symbol, v)))
  }

  /** The `a` step: adopt a given interval (held in memory only). */
  function Refresh(a: RefreshArg, s: State): State {
    if a.RefreshEvery? then s.(autorefresh := a.seconds) else s
  }

  /** One run of `checkAllFlags` from the globals `s`. */
  function Pass(flags: Flags, s: State, env: Environment): PassResult {
    match SaveDefault(flags, s, env)
    case Halt(s1, _, f) => PassResult(s1, [], None, Failed(f))
    case Continue(s1, saves1) =>
      match SetQuantity(flags.quantity, s1, env)
      case Halt(s2, _, f) => PassResult(s2, saves1, None, Failed(f))
      case Continue(s2, saves2) =>
        var shown := Show(flags, s2, Multiplier(flags.quantity, s2.quantity), env);
        match shown.line
        case Err(f) => PassResult(s2, saves1 + saves2, shown.call, Failed(f))
        case Ok(line) =>
          var s3 := Refresh(flags.autorefresh, s2);
          var next := if flags.autorefresh.NoRefresh? then None else Some(s3.autorefresh);
          PassResult(s3, saves1 + saves2, shown.call, Shown(line, next))
  }

  // ---------------------------------------------------------------------
  // Repeated passes

  datatype Run = Run(state: State, saves: seq<ConfigRecord>, outcomes: seq<Outcome>)

  /**
   * At most `|envs|` passes with the same flags, each starting from the
   * globals the previous one left and continuing while a pass reschedules
   * itself. Pass `i` meets the world as `envs[i]` finds it: every pass calls
   * the price library and writes config.json afresh.
   */
  function Passes(flags: Flags, s: State, envs: seq<Environment>): Run
    decreases |envs|
  {
    if envs == [] then Run(s, [], [])
    else
      var r := Pass(flags, s, envs[0]);
      if Rescheduled(r) then
        var rest := Passes(flags, r.state, envs[1..]);
        Run(rest.state, r.saves + rest.saves, [r.outcome] + rest.outcomes)
      else Run(r.state, r.saves, [r.outcome])
  }

  /**
   * The chain after its first pass: if that pass reschedules, what follows
   * is the whole chain again, started from the globals the first pass left
   * and run over the remaining environments; otherwise nothing follows.
   */
  lemma PassesUnfold(flags: Flags, s: State, envs: seq<Environment>)
    requires envs != []
    ensures var r := Pass(flags, s, envs[0]);
      var run := Passes(flags, s, envs);
      if Rescheduled(r) then
        var rest := Passes(flags, r.state, envs[1..]);
        run.outcomes == [r.outcome] + rest.outcomes && run.saves == r.saves + rest.saves &&
        run.state == rest.state
      else
        run.outcomes == [r.outcome] && run.saves == r.saves && run.state == r.state
  {
  }

  // ---------------------------------------------------------------------
  // Before the first pass: list, provider, reset, key, CMC guard

  /**
   * How startup ends: the currency list printed (exit 0), a one-shot save
   * done (exit 0), an exit with status 1, or on to the passes, with the key
   * handed to the library when the provider is CMC.
   */
  datatype Verdict =
    | Listed(text: string)
    | Configured(record: ConfigRecord)
    | Refused(failure: Failure)
    | Proceed(installedKey: Option<string>)

  datatype Dispatched = Dispatched(state: State, verdict: Verdict)

  function Persist(s: State, rec: ConfigRecord, env: Environment): Dispatched {
    if env.writeOk(rec) then Dispatched(s, Configured(rec)) else Dispatched(s, Refused(SaveFailed))
  }

  /** The module-level `--list` test, then the body of the async block up to `checkAllFlags`. */
  function Dispatch(flags: Flags, config: ConfigRecord, s: State, env: Environment): Dispatched {
    if flags.list then Dispatched(s, Listed(ListText(env.currencies)))
    else if Truthy(flags.provider) then
      if flags.provider.value !in SupportedProviders then Dispatched(s, Refused(InvalidProvider))
      else Persist(s, Record(s, flags.provider), env)
    else if flags.reset then Persist(s, DefaultConfiguration, env)
    else if Truthy(flags.key) then
      var s1 := s.(apiKey := flags.key.value);
      Persist(s1, Record(s1, None), env)
    else if config.provider == Some("cmc") then
      if s.apiKey == "" then Dispatched(s, Refused(MissingApiKey))
      else Dispatched(s, Proceed(Some(s.apiKey)))
    else Dispatched(s, Proceed(None))
  }

  function ExitCode(v: Verdict): Option<int> {
    match v
    case Listed(_) => Some(0)
    case Configured(_) => Some(0)
    case Refused(_) => Some(1)
    case Proceed(_) => None
  }
}
