/** What cli.js promises about one pass, repeated passes and startup. */
module CliProperties {
  import opened Outcomes
  import opened Currencies
  import opened Listing
  import opened Config
  import opened Invocation
  import opened Controller

  /**
   * The saves of a pass never carry a `provider` property, are at most two
   * (default currency, then quantity), and hold the interval the pass began
   * with: an interval given with `a` is not written on this path.
   */
  lemma PassSaves(flags: Flags, s: State, env: Environment)
    ensures var r := Pass(flags, s, env);
      |r.saves| <= 2 &&
      forall rec :: rec in r.saves ==> rec.provider.None? && rec.autorefresh == s.autorefresh && env.writeOk(rec)
  {
  }

  /** The `s` step: an unknown code ends the pass before anything else happens. */
  lemma SaveDefaultRule(flags: Flags, s: State, env: Environment, code: string)
    requires flags.save == Some(code)
    ensures var r := Pass(flags, s, env);
      match Lookup(env.currencies, code)
      case None => r == PassResult(s, [], None, Failed(InvalidCurrency))
      case Some(c) =>
        r.state.defaultCurrency == c &&
        if env.writeOk(Record(s.(defaultCurrency := c), None))
        then |r.saves| >= 1 && r.saves[0] == Record(s.(defaultCurrency := c), None)
        else r.saves == [] && r.call.None? && r.outcome == Failed(SaveFailed)
  {
  }

  /**
   * The `q` step, after the `s` step: a new truthy number is adopted and
   * written once, after the `s` write and holding the default that step left;
   * the held value, 0, or a non-number writes nothing more and keeps the
   * quantity. When the `s` step ends the pass, the `q` step never runs.
   */
  lemma QuantityRule(flags: Flags, s: State, env: Environment)
    ensures var r := Pass(flags, s, env);
      match SaveDefault(flags, s, env)
      case Halt(_, _, _) => r.saves == [] && r.state.quantity == s.quantity && r.call.None?
      case Continue(s1, saves1) =>
        match flags.quantity
        case QuantityNumber(v) =>
          if v != 0.0 && v != s1.quantity then
            r.state.quantity == v &&
            var rec := Record(s1.(quantity := v), None);
            if env.writeOk(rec)
            then r.saves == saves1 + [rec]
            else r.saves == saves1 && r.call.None? && r.outcome == Failed(SaveFailed)
          else r.saves == saves1 && r.state.quantity == s.quantity
        case _ => r.saves == saves1 && r.state.quantity == s.quantity
  {
  }

  /** The price is fetched for the held quantity when `q` is truthy and for 1 otherwise. */
  lemma MultiplierRule(flags: Flags, s: State, env: Environment)
    ensures var r := Pass(flags, s, env);
      r.call.Some? && r.call.value.Price? ==>
        r.call.value.quantity == (if QuantityTruthy(flags.quantity) then r.state.quantity else 1.0) &&
        r.call.value.isDecimal == flags.decimal
  {
  }

  /**
   * Output mode: `p` wins over `c`, which wins over the default currency. A
   * pass that gets past the saves makes exactly the call its mode selects;
   * an unknown percentage token or currency ends the pass without a network
   * call, and `c` is not looked at when `p` is given. A call that returns
   * always prints.
   */
  lemma ModePrecedence(flags: Flags, s: State, env: Environment)
    ensures var r := Pass(flags, s, env);
      var st := SaveDefault(flags, s, env);
      if st.Halt? || SetQuantity(flags.quantity, st.state, env).Halt? then
        r.call.None? && r.outcome.Failed?
      else
        var m := Multiplier(flags.quantity, r.state.quantity);
        if flags.percentage.Some? then
          match PercentageWindow(flags.percentage.value)
          case None => r.call.None? && r.outcome == Failed(InvalidPercentage)
          case Some(w) => r.call == Some(PercentageChange(w))
        else if Truthy(flags.currency) then
          match Lookup(env.currencies, flags.currency.value)
          case None => r.call.None? && r.outcome == Failed(InvalidCurrency)
          case Some(_) => r.call == Some(Price(flags.currency.value, flags.decimal, m))
        else r.call == Some(Price(r.state.defaultCurrency.code, flags.decimal, m))
    ensures var r := Pass(flags, s, env);
      r.call.Some? && env.fetch(r.call.value).Some? ==> r.outcome.Shown?
  {
  }

  /**
   * What is printed is what was fetched, with the symbol of the currency
   * priced; the pass fails on the network exactly when the call it made
   * did not return.
   */
  lemma ShowsFetchedValue(flags: Flags, s: State, env: Environment)
    ensures var r := Pass(flags, s, env);
      (r.outcome == Failed(NetworkError) <==> r.call.Some? && env.fetch(r.call.value).None?) &&
      (r.outcome.Shown? ==>
        r.call.Some? && env.fetch(r.call.value).Some? &&
        match r.call.value
        case PercentageChange(_) => r.outcome.line == ShowPercentage(env.fetch(r.call.value).value)
        case Price(code, _, _) =>
          var symbol := if flags.percentage.None? && Truthy(flags.currency)
                        then Lookup(env.currencies, code).value.symbol
                        else r.state.defaultCurrency.symbol;
          r.outcome.line == PriceLine(symbol, env.fetch(r.call.value).value))
  {
  }

  /**
   * A pass that prints reschedules itself exactly when `a` is present, after
   * the interval `a` gives, or after the held one when `a` is bare.
   */
  lemma AutorefreshRule(flags: Flags, s: State, env: Environment)
    ensures var r := Pass(flags, s, env);
      r.outcome.Shown? ==>
        (r.outcome.next.Some? <==> !flags.autorefresh.NoRefresh?) &&
        (flags.autorefresh.RefreshEvery? ==>
           r.state.autorefresh == flags.autorefresh.seconds && r.outcome.next == Some(flags.autorefresh.seconds)) &&
        (flags.autorefresh.RefreshBare? ==> r.outcome.next == Some(s.autorefresh))
  {
  }

  /** A pass that fails never reschedules, and a pass without `a` never does. */
  lemma NoRefreshStopsAfterOnePass(flags: Flags, s: State, envs: seq<Environment>)
    requires |envs| > 0
    ensures flags.autorefresh.NoRefresh? || Pass(flags, s, envs[0]).outcome.Failed? ==>
      |Passes(flags, s, envs).outcomes| == 1
  {
  }

  /**
   * Every timer pass calls the library again: with a bare `a` and no other
   * flag, a pass that printed a price can be followed by one that fails on
   * the network, each decided by the world its own pass meets.
   */
  lemma EachPassFetchesAgain(flags: Flags, s: State, first: Environment, second: Environment, value: string)
    requires flags == Flags(None, false, None, None, false, NoQuantity, RefreshBare, None, false, None)
    requires first.fetch(Price(s.defaultCurrency.code, false, 1.0)) == Some(value)
    requires second.fetch(Price(s.defaultCurrency.code, false, 1.0)).None?
    ensures Passes(flags, s, [first, second]).outcomes ==
      [Shown(PriceLine(s.defaultCurrency.symbol, value), Some(s.autorefresh)), Failed(NetworkError)]
  {
    assert [first, second][1..] == [second];
  }

  /**
   * Every timer pass calls the library again, for every flag combination:
   * once the first pass reschedules, the second outcome is a fresh pass in
   * the second environment, from the globals the first pass left.
   */
  lemma SecondPassRunsAfresh(flags: Flags, s: State, envs: seq<Environment>)
    requires |envs| >= 2
    ensures var r := Pass(flags, s, envs[0]);
      var outcomes := Passes(flags, s, envs).outcomes;
      |outcomes| >= 1 && outcomes[0] == r.outcome &&
      (Rescheduled(r) ==> |outcomes| >= 2 && outcomes[1] == Pass(flags, r.state, envs[1]).outcome)
  {
    var r := Pass(flags, s, envs[0]);
    PassesUnfold(flags, s, envs);
    if Rescheduled(r) {
      PassesUnfold(flags, r.state, envs[1..]);
      assert envs[1..][0] == envs[1];
    }
  }

  /**
   * Once a pass has adopted quantity `v`, later passes with the same flags
   * write nothing (without `s`).
   */
  lemma {:induction false} QuantityHeldWritesNothing(flags: Flags, s: State, envs: seq<Environment>)
    requires flags.save.None? && flags.quantity == QuantityNumber(s.quantity)
    ensures Passes(flags, s, envs).saves == []
    decreases |envs|
  {
    if envs != [] {
      var r := Pass(flags, s, envs[0]);
      if Rescheduled(r) {
        QuantityHeldWritesNothing(flags, r.state, envs[1..]);
      }
    }
  }

  /**
   * However many times autorefresh repeats the pass, a quantity given with
   * `q` (and no `s`) is written at most once.
   */
  lemma {:induction false} QuantityWrittenAtMostOnce(flags: Flags, s: State, envs: seq<Environment>)
    requires flags.save.None? && flags.quantity.QuantityNumber?
    ensures |Passes(flags, s, envs).saves| <= 1
    decreases |envs|
  {
    if envs != [] {
      var r := Pass(flags, s, envs[0]);
      if Rescheduled(r) {
        var v := flags.quantity.value;
        if v != 0.0 {
          assert r.state.quantity == v;
          QuantityHeldWritesNothing(flags, r.state, envs[1..]);
        } else {
          QuantityWrittenAtMostOnce(flags, r.state, envs[1..]);
        }
      }
    }
  }

  /**
   * Startup order: `--list`, then provider, reset and key, each of which ends
   * the process; the passes run only when none of them applies and the CMC
   * guard lets them.
   */
  lemma DispatchOrder(flags: Flags, config: ConfigRecord, s: State, env: Environment)
    ensures var d := Dispatch(flags, config, s, env);
      (flags.list ==> d.verdict == Listed(ListText(env.currencies))) &&
      (d.verdict.Proceed? <==>
         !flags.list && !Truthy(flags.provider) && !flags.reset && !Truthy(flags.key) &&
         !(config.provider == Some("cmc") && s.apiKey == "")) &&
      (d.verdict.Proceed? <==> ExitCode(d.verdict).None?)
  {
  }

  /**
   * `--provider`: only cmc and coingecko are accepted, and the object then
   * written is the session with that provider.
   */
  lemma ProviderRule(flags: Flags, config: ConfigRecord, s: State, env: Environment)
    requires !flags.list && Truthy(flags.provider)
    ensures var d := Dispatch(flags, config, s, env);
      var rec := Record(s, flags.provider);
      d.verdict ==
        if flags.provider.value !in ["cmc", "coingecko"] then Refused(InvalidProvider)
        else if env.writeOk(rec) then Configured(rec)
        else Refused(SaveFailed)
  {
  }

  /**
   * Reset writes exactly the built-in defaults; a key is written with the
   * session and no `provider` property.
   */
  lemma ResetAndKeyRule(flags: Flags, config: ConfigRecord, s: State, env: Environment)
    requires !flags.list && !Truthy(flags.provider)
    ensures var d := Dispatch(flags, config, s, env);
      (flags.reset ==>
        d.verdict == (if env.writeOk(DefaultConfiguration) then Configured(DefaultConfiguration) else Refused(SaveFailed))) &&
      (!flags.reset && Truthy(flags.key) ==>
        var rec := Record(s.(apiKey := flags.key.value), None);
        d.state == s.(apiKey := flags.key.value) &&
        d.verdict == (if env.writeOk(rec) then Configured(rec) else Refused(SaveFailed)))
  {
  }

  /** Of all writes, only `--provider` and reset write a `provider` property. */
  lemma ProviderWrittenOnlyByProviderOrReset(flags: Flags, config: ConfigRecord, s: State, env: Environment)
    ensures var d := Dispatch(flags, config, s, env);
      d.verdict.Configured? && d.verdict.record.provider.Some? ==>
        (Truthy(flags.provider) && d.verdict.record.provider == flags.provider) ||
        d.verdict.record == DefaultConfiguration
  {
  }

  /** With provider cmc and no key the process ends with status 1 before any pass. */
  lemma CmcNeedsKey(flags: Flags, config: ConfigRecord, s: State, env: Environment)
    requires !flags.list && !Truthy(flags.provider) && !flags.reset && !Truthy(flags.key)
    requires config.provider == Some("cmc")
    ensures Dispatch(flags, config, s, env).verdict ==
              if s.apiKey == "" then Refused(MissingApiKey) else Proceed(Some(s.apiKey))
  {
  }

  /**
   * A consequence of the key path writing no `provider`: after choosing cmc
   * and then setting a key, the next run no longer sees provider cmc, so the
   * key is never handed to the price library.
   */
  lemma KeySaveForgetsProvider(flags: Flags, config: ConfigRecord, env: Environment, next: Flags)
    requires config.provider == Some("cmc")
    requires !flags.list && !Truthy(flags.provider) && !flags.reset && Truthy(flags.key)
    requires env.writeOk(Record(Initial(config).(apiKey := flags.key.value), None))
    requires !next.list && !Truthy(next.provider) && !next.reset && !Truthy(next.key)
    ensures var d := Dispatch(flags, config, Initial(config), env);
      d.verdict.Configured? &&
      var reloaded := Load(Some(d.verdict.record));
      reloaded.apiKey == flags.key.value &&
      Dispatch(next, reloaded, Initial(reloaded), env).verdict == Proceed(None)
  {
  }
}
