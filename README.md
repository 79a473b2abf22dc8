# btc-value CLI: a Dafny model of its decision layer

`cli.js` of btc-value-cli prints the Bitcoin price, optionally in another
currency, for a quantity, or the percentage change over an hour, day or week.
It keeps a small configuration (default currency, quantity, refresh
interval, API key, provider) in `config.json`. This project models what the
script decides. The price library, the file system and the terminal are
replaced by `Environment` values, one for startup and the first pass and one
for each later timer pass. The proofs are about the following:

- **Currency lookup** (`isValidCurrencyCode`). The input is upper-cased and
  compared verbatim with the codes of the library's list; the first match
  wins, and no match ends the process with status 1.
- **The `--list` text**: a header, the codes in list order with `", "`
  between them, and a line break plus indent before codes 0, 9, 18, ….
  The text is read back by a reference splitter, `Listing.Tokens`; its
  lemmas (`TokensAppend`, `RunLengthPrefix`, …) are steps of that proof.
- **One pass of `checkAllFlags`** over the module-level globals
  `defaultCurrency`, `quantity`, `autorefresh` and `apiKey`. A pass saves
  the default currency (`-s`), adopts and saves a new quantity (`-q`), then
  prints one of three things: the percentage change (`-p`), the price in the
  `-c` currency, or the price in the default currency. Finally it takes a
  new interval (`-a`) and schedules the next pass.
- **Startup before the first pass**: `--list`, then `--provider`, `--reset`
  and `--key`, each of which ends the process. After them comes the guard
  that refuses provider `cmc` without an API key.

Modules, one per concern: `Outcomes` (Option/Result), `Currencies`,
`Listing`, `Config` (the record written to disk, `defaultConfiguration`,
startup load), `Invocation` (the parsed flags and JavaScript truthiness),
`Controller` (the pure specification: `Pass`, `Passes`, `Dispatch`),
`CliProperties` (lemmas about that specification) and `Session`. `Session`
holds class `Cli`, whose fields are the script's globals and whose methods
run the steps in place. Each of its methods is proved equal to the
specification function. Writes to `config.json` go to a ghost log, `saved`,
and only successful writes are logged. A `process.exit(1)` is a `Failed`
outcome of a pass or a `Refused` verdict at startup. The network call a pass
makes is returned as a `Request`, so "no network call" is a checkable fact.

Behaviours of the code that the model keeps as written:
- The `-s`, `-q` and `-k` writes contain four properties and no `provider`.
  Only `--provider` and `--reset` write one. After `--provider cmc` followed
  by `-k`, the next run therefore no longer sees provider `cmc` and never
  hands the key to the library (`KeySaveForgetsProvider`).
- The `-c` price call gets the flag string as typed. It is not upper-cased
  and it is not the looked-up code.
- An interval given with `-a` is kept in memory only. The interval a pass
  writes is the one it began with. A later pass's `-s` save writes the new
  one.
- Any number other than 0 is accepted as a quantity. `-q 0` is falsy, so
  nothing is saved and the multiplier stays 1.

## Model

| member | source | states |
|---|---|---|
| `Currencies.FirstMatch` | cli.js:128-133 | the index found holds the code and no earlier entry does; None exactly when no entry holds it |
| `Currencies.Lookup` | cli.js:123-143 | a found currency is an element of the list, its code equals the upper-cased input and no earlier entry has that code; None (exit 1) exactly when no code equals the upper-cased input |
| `Currencies.IsValidCurrencyCode` | cli.js:123-143 | the `for`/`break` loop returns exactly `Lookup` of the list and the input |
| `Currencies.FirstMatchIsFirst` | cli.js:128-133 | the first position holding the code is the one the search stops at |
| `Currencies.LookupIgnoresCase` | cli.js:125-129 | two inputs that differ only in letter case give the same result |
| `Currencies.NokSpellings` | cli.js:125-129 | "nok", "NOK" and "Nok" give the same result on every list |
| `Currencies.LookupNeverSelectsLowerCase` | cli.js:125-129 | a selected currency's code has no lower-case letter, because only the input is upper-cased |
| `Currencies.LookupFindsListedCode` | cli.js:123-143 | a listed upper-case code, first of its kind, is found however the user types its case |
| `Listing.RenderList` | cli.js:309-324 | the loop builds exactly `ListText`: header, then per code an indent before every ninth, the code, and ", " unless it is the last |
| `Listing.BodyTokens` | cli.js:312-322 | for non-empty codes holding no ',', ' ' or line break: split at separators, the text after k iterations gives back the first k codes, in order, each once |
| `Listing.ListTokens` | cli.js:310-322 | for non-empty codes holding no ',', ' ' or line break, the part of the listing after the header splits back into exactly the list's codes, in order |
| `Listing.BodyCounts` | cli.js:312-322 | for codes holding no line break or comma, the text after k iterations holds ceil(k/9) line breaks, and a comma after every code but the list's last (occurrences counted by `Count`) |
| `Listing.ListLayout` | cli.js:310-322 | for codes holding no line break or comma, n codes are printed on ceil(n/9) lines with n-1 commas (0 for an empty list) |
| `Config.Load` | cli.js:17-37 | a missing or unreadable file yields `defaultConfiguration`; otherwise the file's object |
| `Controller.ShowPercentage` | cli.js:152-158 | the printed text is the change followed by "%", shown as negative exactly when the change starts with '-' |
| `Controller.WindowTokens` | cli.js:244-271 | h, d, w select hour, day and week, "" selects day, and every other token is rejected |
| `CliProperties.PassSaves` | cli.js:182-241 | a pass writes at most two objects, none with a provider, each holding the interval the pass began with |
| `CliProperties.SaveDefaultRule` | cli.js:184-204 | an unknown `-s` code ends the pass unchanged with no write or call; a known one becomes the default and is written first |
| `CliProperties.QuantityRule` | cli.js:184-241 | after the `-s` step, a new non-zero number becomes the quantity and is written once, after the `-s` write and with the default that step left; the held value, 0 or a non-number writes nothing more and keeps it; a pass that the `-s` step ends never reaches `-q` |
| `CliProperties.MultiplierRule` | cli.js:206-241 | a price call asks for the held quantity when `q` is truthy and for 1 otherwise, with the `-d` setting |
| `CliProperties.ModePrecedence` | cli.js:243-294 | a pass past its saves makes exactly the call its mode selects: `-p` wins (and `-c` is not looked at), a valid token asks for that window, a known `-c` code for its price, otherwise the default currency, each with the multiplier and `-d`; a bad token or unknown `-c` code fails with no call; a call that returns always prints |
| `CliProperties.ShowsFetchedValue` | cli.js:243-294 | the line shows the fetched value with the priced currency's symbol; a network failure happens exactly when the call made did not return |
| `CliProperties.AutorefreshRule` | cli.js:296-305 | a printing pass reschedules exactly when `-a` is present, after the given interval (now held) or the held one for a bare `-a` |
| `CliProperties.NoRefreshStopsAfterOnePass` | cli.js:296-305 | without `-a`, or when the first pass fails, exactly one pass runs |
| `Controller.PassesUnfold` | cli.js:296-305 | after a first pass that reschedules, the run is its outcome and writes followed by the whole chain again from the globals it left, over the remaining environments; after any other first pass, the run ends |
| `CliProperties.SecondPassRunsAfresh` | cli.js:182-305 | for every flag combination, once the first pass reschedules, the second outcome is a new pass in the second environment from the globals the first left |
| `CliProperties.EachPassFetchesAgain` | cli.js:282-305 | an instance with a bare `-a`: a pass that printed a price can be followed by one that fails on the network |
| `CliProperties.QuantityHeldWritesNothing` | cli.js:209-234 | without `-s`, once the held quantity equals `-q`, any number of later passes write nothing |
| `CliProperties.QuantityWrittenAtMostOnce` | cli.js:209-234 | without `-s`, however often autorefresh repeats the pass, a `-q` number is written at most once |
| `CliProperties.DispatchOrder` | cli.js:308-406 | `--list` prints the list; the passes run exactly when list, provider, reset and key are absent and the CMC guard passes; every other verdict has an exit code |
| `CliProperties.ProviderRule` | cli.js:328-356 | without `--list`, an unsupported provider is refused; a supported one writes the session with that provider and ends with `Configured` exactly when the write succeeds, `Refused(SaveFailed)` otherwise |
| `CliProperties.ResetAndKeyRule` | cli.js:358-395 | without `--list` or `--provider`: reset writes exactly `defaultConfiguration`; without `-r`, `-k` sets the key and writes the session without a provider; each ends `Configured` exactly when its write succeeds, `Refused(SaveFailed)` otherwise |
| `CliProperties.ProviderWrittenOnlyByProviderOrReset` | cli.js:336-385 | a startup write carries a provider only on the `--provider` path or as the reset defaults |
| `CliProperties.CmcNeedsKey` | cli.js:397-404 | when no `--list`, `--provider`, `-r` or `-k` is given, provider cmc with an empty key ends with status 1 before any pass; with a key, the key is handed to the library |
| `CliProperties.KeySaveForgetsProvider` | cli.js:372-404 | after `-k` (without `--list`, `--provider` or `-r`) under provider cmc whose write succeeds, the reloaded config has the key, and a next run with no `--list`, `--provider`, `-r` or `-k` proceeds without installing it |
| `Session.Cli.constructor` | cli.js:28-40 | the globals start as the loaded (or default) configuration, with nothing written |
| `Session.Cli.Save` | cli.js:167-179 | a write either succeeds and is appended to the log or fails and logs nothing |
| `Session.Cli.SaveDefaultStep` | cli.js:183-204 | the `-s` step changes the globals and the log as `SaveDefault` says |
| `Session.Cli.QuantityStep` | cli.js:206-241 | the `-q` step changes the globals and the log as `SetQuantity` says, and yields the multiplier |
| `Session.Cli.Present` | cli.js:243-294 | the mode choice, call and line are those of `Show` on the current globals |
| `Session.Cli.CheckAllFlags` | cli.js:182-306 | the pass leaves globals, writes, call and outcome exactly as `Pass` of the old globals |
| `Session.Cli.RunPasses` | cli.js:296-305 | repeated passes with the same flags carry the globals forward as `Passes` says, pass i meeting the world of the i-th environment |
| `Session.Cli.Launch` | cli.js:308-407 | startup decides as `Dispatch`; when it proceeds, the passes run from the globals it left, the first in the startup environment |

## Left out

- Argument parsing and help text (the `meow` call): the parsed flags are the `Flags` record. A flag's alias and its long name are one field.
- `JSON.stringify` with its indentation, and the path of `config.json`. A write is the record written plus whether it succeeded (`writeOk`). A write that fails half-way is not modelled.
- A config file holding something other than the five typed fields. The model only covers a missing file (the defaults) or a complete one, possibly without `provider`.
- The price library: its price and percentage calls are the `fetch` field of `Environment`, returning the formatted value or failing. `setApiKey` is the `installedKey` of a `Proceed` verdict and cannot fail. The returned strings are taken as given; how the library converts currencies and formats numbers is not part of this model.
- Terminal output: chalk colours, the ora spinner, log-symbols and the wording of the messages. The "Value of … BTC" and confirmation lines are not modelled. The colour of a percentage is modelled as the `negative` flag.
- `console.log(e)` of a network error before the exit.
- Currencies.ToUpper: upper-cases the ASCII letters only. JavaScript's `toUpperCase` also maps other letters; for example 'ß' becomes "SS" and 'ı' becomes 'I'.
- Numbers are reals. NaN (what the parser makes of `-q abc` or `-a abc`), infinities and -0 are not modelled. A bare `-q` or any other value that is not a number is `QuantityOther`, and a bare `-a` is `RefreshBare`.
- `setTimeout` timing: `Session.Cli.RunPasses` runs at most one pass per environment it is given. The source schedules passes until the process is killed.
- test.js: it only starts the program with `--version` and holds no logic.
