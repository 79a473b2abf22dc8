/**
 * cli.js as a program over its module-level globals: the session lives in a
 * `Cli` object that every timer pass updates in place; config.json writes
 * are recorded in the ghost log `saved`.
 */
module Session {
  import opened Outcomes
  import opened Currencies
  import opened Listing
  import opened Config
  import opened Invocation
  import opened Controller

  class Cli {
    /** `config`, loaded once at startup. */
    const config: ConfigRecord
    var defaultCurrency: Currency
    var quantity: real
    var autorefresh: real
    var apiKey: string
    /** Every config object written to disk, in order. */
    ghost var saved: seq<ConfigRecord>

    function Snapshot(): State
      reads this
    {
      State(defaultCurrency, quantity, autorefresh, apiKey)
    }

    /** Startup: load the file or fall back to the defaults, and copy it into the globals. */
    constructor (file: Option<ConfigRecord>)
      ensures config == Load(file) && Snapshot() == Initial(config) && saved == []
    {
      config := Load(file);
      defaultCurrency := Load(file).defaultCurrency;
      quantity := Load(file).quantity;
      autorefresh := Load(file).autorefresh;
      apiKey := Load(file).apiKey;
      saved := [];
    }

    /** `saveConfig`: the write either succeeds and is logged, or fails. */
    method Save(rec: ConfigRecord, env: Environment) returns (ok: bool)
      modifies this`saved
      ensures ok == env.writeOk(rec)
      ensures saved == old(saved) + (if ok then [rec] else [])
    {
      ok := env.writeOk(rec);
      if ok {
        saved := saved + [rec];
      }
    }

    /** The `s` step of `checkAllFlags`. */
    method SaveDefaultStep(flags: Flags, env: Environment) returns (failure: Option<Failure>)
      modifies this`defaultCurrency, this`saved
      ensures var st := SaveDefault(flags, old(Snapshot()), env);
        Snapshot() == st.state && saved == old(saved) + st.saves &&
        failure == if st.Halt? then Some(st.failure) else None
    {
      failure := None;
      if flags.save.Some? {
        var found := IsValidCurrencyCode(env.currencies, flags.save.value);
        if found.None? {
          return Some(InvalidCurrency);
        }
        defaultCurrency := found.value;
        var ok := Save(Record(Snapshot(), None), env);
        if !ok {
          failure := Some(SaveFailed);
        }
      }
    }

    /** The `q` step of `checkAllFlags`, ending with the multiplier. */
    method QuantityStep(flags: Flags, env: Environment) returns (failure: Option<Failure>, multiplier: real)
      modifies this`quantity, this`saved
      ensures var st := SetQuantity(flags.quantity, old(Snapshot()), env);
        Snapshot() == st.state && saved == old(saved) + st.saves &&
        failure == (if st.Halt? then Some(st.failure) else None) &&
        (st.Continue? ==> multiplier == Multiplier(flags.quantity, quantity))
    {
      failure := None;
      multiplier := 1.0;
      if QuantityTruthy(flags.quantity) {
        if flags.quantity.QuantityNumber? {
          if quantity != flags.quantity.value {
            quantity := flags.quantity.value;
            var ok := Save(Record(Snapshot(), None), env);
            if !ok {
              return Some(SaveFailed), multiplier;
            }
          }
        }
        multiplier := quantity;
      }
    }

    /** The output step of `checkAllFlags`: choose the mode, make the call, build the line. */
    method Present(flags: Flags, env: Environment, multiplier: real) returns (call: Option<Request>, line: Result<Line, Failure>)
      ensures Display(call, line) == Show(flags, Snapshot(), multiplier, env)
    {
      if flags.percentage.Some? {
        var window := PercentageWindow(flags.percentage.value);
        if window.None? {
          return None, Err(InvalidPercentage);
        }
        call := Some(PercentageChange(window.value));
        var percentage := env.fetch(call.value);
        if percentage.None? {
          return call, Err(NetworkError);
        }
        line := Ok(ShowPercentage(percentage.value));
      } else if Truthy(flags.currency) {
        var currency := IsValidCurrencyCode(env.currencies, flags.currency.value);
        if currency.None? {
          return None, Err(InvalidCurrency);
        }
        call := Some(Price(flags.currency.value, flags.decimal, multiplier));
        var value := env.fetch(call.value);
        if value.None? {
          return call, Err(NetworkError);
        }
        line := Ok(PriceLine(currency.value.symbol, value.value));
      } else {
        call := Some(Price(defaultCurrency.code, flags.decimal, multiplier));
        var value := env.fetch(call.value);
        if value.None? {
          return call, Err(NetworkError);
        }
        line := Ok(PriceLine(defaultCurrency.symbol, value.value));
      }
    }

    /** One run of `checkAllFlags`; `call` is the network call it made. */
    method CheckAllFlags(flags: Flags, env: Environment) returns (call: Option<Request>, outcome: Outcome)
      modifies this`defaultCurrency, this`quantity, this`autorefresh, this`saved
      ensures var r := Pass(flags, old(Snapshot()), env);
        Snapshot() == r.state && saved == old(saved) + r.saves && call == r.call && outcome == r.outcome
    {
      var failure := SaveDefaultStep(flags, env);
      if failure.Some? {
        return None, Failed(failure.value);
      }
      ghost var saved1 := saved;
      var multiplier;
      failure, multiplier := QuantityStep(flags, env);
      if failure.Some? {
        return None, Failed(failure.value);
      }
      var line;
      call, line := Present(flags, env, multiplier);
      if line.Err? {
        return call, Failed(line.error);
      }
      if flags.autorefresh.NoRefresh? {
        outcome := Shown(line.value, None);
      } else {
        if flags.autorefresh.RefreshEvery? {
          autorefresh := flags.autorefresh.seconds;
        }
        outcome := Shown(line.value, Some(autorefresh));
      }
    }

    /**
     * The `setTimeout` chain, bounded to `|envs|` passes: a pass that prints
     * with autorefresh on schedules the next one, which reuses the flags,
     * starts from the globals the previous pass left and meets the world as
     * the next environment finds it.
     */
    method RunPasses(flags: Flags, envs: seq<Environment>) returns (outcomes: seq<Outcome>)
      modifies this`defaultCurrency, this`quantity, this`autorefresh, this`saved
      ensures var run := Passes(flags, old(Snapshot()), envs);
        outcomes == run.outcomes && Snapshot() == run.state && saved == old(saved) + run.saves
      decreases |envs|
    {
      if envs == [] {
        return [];
      }
      ghost var r := Pass(flags, Snapshot(), envs[0]);
      ghost var saved0 := saved;
      var call, outcome := CheckAllFlags(flags, envs[0]);
      assert outcome == r.outcome && Snapshot() == r.state && saved == saved0 + r.saves;
      if outcome.Shown? && outcome.next.Some? {
        var rest := RunPasses(flags, envs[1..]);
        outcomes := [outcome] + rest;
        ghost var run := Passes(flags, r.state, envs[1..]);
        PassesUnfold(flags, old(Snapshot()), envs);
        AppendAssoc(saved0, r.saves, run.saves);
      } else {
        outcomes := [outcome];
        PassesUnfold(flags, old(Snapshot()), envs);
      }
    }

    /**
     * The program after argument parsing: `--list`, then the async block
     * (provider, reset, key, the CMC guard) and, if it gets that far, the
     * first pass, in the world `env` describes, and at most `|later|` timer
     * passes after it, pass `i` in the world `later[i]` describes.
     */
    method Launch(flags: Flags, env: Environment, later: seq<Environment>) returns (verdict: Verdict, outcomes: seq<Outcome>)
      modifies this`defaultCurrency, this`quantity, this`autorefresh, this`apiKey, this`saved
      ensures var d := Dispatch(flags, config, old(Snapshot()), env);
        verdict == d.verdict &&
        if verdict.Proceed? then
          var run := Passes(flags, d.state, [env] + later);
          outcomes == run.outcomes && Snapshot() == run.state && saved == old(saved) + run.saves
        else
          outcomes == [] && Snapshot() == d.state &&
          saved == old(saved) + (if verdict.Configured? then [verdict.record] else [])
    {
      outcomes := [];
      if flags.list {
        var text := RenderList(env.currencies);
        return Listed(text), [];
      }
      if Truthy(flags.provider) {
        if flags.provider.value !in SupportedProviders {
          return Refused(InvalidProvider), [];
        }
        var rec := Record(Snapshot(), flags.provider);
        var ok := Save(rec, env);
        verdict := if ok then Configured(rec) else Refused(SaveFailed);
        return;
      }
      if flags.reset {
        var ok := Save(DefaultConfiguration, env);
        verdict := if ok then Configured(DefaultConfiguration) else Refused(SaveFailed);
        return;
      }
      if Truthy(flags.key) {
        apiKey := flags.key.value;
        var rec := Record(Snapshot(), None);
        var ok := Save(rec, env);
        verdict := if ok then Configured(rec) else Refused(SaveFailed);
        return;
      }
      var installed: Option<string> := None;
      if config.provider == Some("cmc") {
        if apiKey == "" {
          return Refused(MissingApiKey), [];
        }
        installed := Some(apiKey);
      }
      verdict := Proceed(installed);
      outcomes := RunPasses(flags, [env] + later);
    }
  }

  lemma AppendAssoc<T>(a: seq<T>, b: seq<T>, c: seq<T>)
    ensures a + b + c == a + (b + c)
  {
  }
}
