# minikube configuration settings pipeline

A Dafny model of the settings pipeline behind `minikube config set`, from
`cmd/minikube/cmd/config/util.go`. It has three parts:

- **Setting lookup**: `findSetting` scans the catalog of known settings in
  order and returns the first one whose name matches exactly. If none does,
  it fails with "property not found".
- **Typed setters**: `SetString`, `SetInt` and `SetBool` turn the raw text
  into a string, integer or boolean and write it into the configuration map
  (`config.MinikubeConfig`) under one key. `SetInt` uses Go's `strconv.Atoi`
  and `SetBool` uses `strconv.ParseBool`. The model includes both token
  grammars.
- **Validation aggregator**: `run` calls every setter of a setting in order.
  It does not stop at a failure, and it keeps one error per failing setter
  in order. It fails exactly when it kept at least one error.

Files:

- `wrappers.dfy`: `Option` (a Go `error` that may be nil) and `Result`.
- `strconv.dfy` (module `Strconv`): `Atoi`, written as Go's
  `ParseInt(s, 10, 0)` with its `ParseUint` digit loop and a 64-bit `int`.
  Also `ParseBool`, and the format functions that undo them (`Itoa`,
  `FormatBool`). Each parser is proved against a direct description of its
  grammar.
- `setters.dfy` (module `Setters`): the map's value type
  `Value = Str | Int | Bool`, and one tag per setter (`SString | SInt | SBool`).
  It also defines, as plain functions, what a setter stores or returns
  and the store and errors after a list of setters. The aggregator lemmas
  live here.
- `config_util.dfy` (module `ConfigUtil`): `FindSetting`, a loop over the
  catalog, which is passed in as a parameter. Also the class `ConfigStore`.
  It holds the configuration map as a field, and its methods `SetString`,
  `SetInt`, `SetBool`, `Apply` (one `fn(name, value)` call) and `Run` update
  that field in place. A ghost field `calls` records every setter call, so
  `Run` can state that each setter runs exactly once, in list order.

`strconv.ParseBool` is not case-insensitive. It accepts exactly
`1 t T TRUE true True` and `0 f F FALSE false False`, and mixed case such as
`tRUE` is rejected (`Strconv.ParseBoolMixedCase`).

## Model

| member | source | states |
|---|---|---|
| ConfigUtil.FindSetting | cmd/minikube/cmd/config/util.go:48-55 | Succeeds iff some catalog entry has exactly that name. It returns the first such entry, so no earlier entry has the name and a later duplicate is never returned. Otherwise it returns `PropertyNotFound(name)`. |
| ConfigUtil.ConfigStore.SetString | cmd/minikube/cmd/config/util.go:59-62 | Always returns nil. The map afterwards is the old map with `name` set to `Str(val)` and every other key unchanged. |
| ConfigUtil.ConfigStore.SetInt | cmd/minikube/cmd/config/util.go:64-71 | Returns nil iff `val` is an optional sign plus one or more digits whose value is in the 64-bit range. Then it stores exactly that integer at `name` and nothing else. Otherwise it returns Atoi's error (naming Atoi and the input) and the map is unchanged. |
| ConfigUtil.ConfigStore.SetBool | cmd/minikube/cmd/config/util.go:73-80 | Returns nil iff `val` is one of the twelve ParseBool tokens. Then it stores `Bool(val is a true token)` at `name` and nothing else. Otherwise it returns ParseBool's syntax error and the map is unchanged. |
| ConfigUtil.ConfigStore.Apply | cmd/minikube/cmd/config/util.go:37 | One setter call `fn(name, value)`: returns that setter's error, leaves the store that setter produces, and appends exactly one call record. |
| ConfigUtil.ConfigStore.Run | cmd/minikube/cmd/config/util.go:34-46 | Returns nil iff no setter in `fns` returns an error. Otherwise it returns a non-empty aggregated error holding the collected errors. The map afterwards is every setter's write applied in order. The call log grows by exactly one call per setter, in list order, all with the same name and value, including calls after a failure. |
| Setters.SetterErrorSpec | cmd/minikube/cmd/config/util.go:59-80 | SetString never fails. SetInt fails exactly off Atoi's grammar-and-range, and SetBool exactly off the twelve tokens. Every error carries the rejected text. |
| Setters.RunErrorsEmptyIff | cmd/minikube/cmd/config/util.go:42-45 | The collected errors are empty iff every setter accepts the value, in both directions. |
| Setters.RunErrorsOnePerFailure | cmd/minikube/cmd/config/util.go:36-41 | There is one collected error per rejecting setter. The j-th error is the error of the j-th rejecting setter. Those positions strictly increase, and a position is listed iff its setter rejects the value. |
| Setters.RunStoreOtherKeys | cmd/minikube/cmd/config/util.go:36-41 | Running any list of setters for a setting leaves every key other than the setting's name present or absent and valued exactly as before. |
| Setters.RunStoreAllFail | cmd/minikube/cmd/config/util.go:36-41 | When every setter rejects the value, the map after `run` equals the map before: there is no partial write. |
| Setters.RunStoreLastSuccess | cmd/minikube/cmd/config/util.go:36-41 | Say setter i accepts the value and every later setter rejects it. Then the map holds setter i's value at the name, on top of whatever the earlier setters left. Later failures undo nothing. |
| Setters.RunStoreAppend | cmd/minikube/cmd/config/util.go:36-41 | Running `a ++ b` equals running `a`, then running `b` on the store `a` left behind. The final map is the composition of the setters' writes in order. |
| Strconv.Atoi | cmd/minikube/cmd/config/util.go:65 | The `strconv.Atoi` call: Go's `ParseInt(s, 10, 0)` on a 64-bit `int`, with the empty-input check, sign stripping and the int64 cutoff. Its contract is proved in `AtoiSpec` and `AtoiErrorKind`. |
| Strconv.ParseUint | cmd/minikube/cmd/config/util.go:65 | Go's `ParseUint(s, 10, 64)` as `Atoi` uses it: the empty string is a syntax error, otherwise the digit loop runs. Its contract is proved in `ParseUintSpec`. |
| Strconv.ScanUint | cmd/minikube/cmd/config/util.go:65 | `ParseUint`'s digit loop: it stops at the first non-digit with a syntax error, or at the first digit that takes the value past 2^64-1 with a range error. Its contract is proved in `ScanUintSpec`. |
| Strconv.AtoiSpec | cmd/minikube/cmd/config/util.go:65 | Atoi succeeds iff the text is an optional `+`/`-` then one or more decimal digits, with the value in [-2^63, 2^63-1]. It then returns that value. Every error names Atoi and carries the whole input. |
| Strconv.AtoiErrorKind | cmd/minikube/cmd/config/util.go:65-67 | A rejection is a range error iff the text is a well-formed literal (so it is out of range) or its leading digits already exceed 2^64-1. Otherwise it is a syntax error. |
| Strconv.ParseUintSpec | cmd/minikube/cmd/config/util.go:65 | The unsigned digit loop succeeds iff its input is a non-empty digit string within 64 unsigned bits, and then yields its value. It stops with a range error iff the leading digits exceed 2^64-1. |
| Strconv.ScanUintSpec | cmd/minikube/cmd/config/util.go:65 | From any position of the digit loop, the result is a range error, a syntax error or the value, depending only on the leading digit run of the whole input. |
| Strconv.AtoiItoa | cmd/minikube/cmd/config/util.go:65 | For every 64-bit integer n, Atoi applied to n's decimal formatting returns n. |
| Strconv.ParseBool | cmd/minikube/cmd/config/util.go:74 | Succeeds iff the text is in the six-element true set or the six-element false set. The result is true iff the text is in the true set. Otherwise it is the ParseBool syntax error on that text. |
| Strconv.ParseBoolFormatBool | cmd/minikube/cmd/config/util.go:74 | ParseBool undoes FormatBool for both booleans. |

## Left out

- `EnableOrDisableAddon` (util.go:82-106): it creates a libmachine client and calls `cluster.EnsureMinikubeRunningOrExit`, which can end the process, then loads the host. This is I/O over libraries that are not part of this model. Its quirks are not modelled either: the discarded wrapped parse error at line 85, and the ignored `CheckIfApiExistsAndLoad` error at line 95.
- `transferAddonViaDriver` and `deleteAddonViaDriver` (util.go:108-128): thin wrappers over SSH client creation and `sshutil` file transfer or deletion.
- The global `settings` catalog and the `assets.Addons` table are not part of this model. `FindSetting` takes the catalog as a parameter.
- Error text: the message built by `fmt.Errorf("%v", errors)` and the "Property name %s not found" message. Errors are tagged values: `Aggregated(errors)`, `PropertyNotFound(name)`, and `NumError(function, input, reason)`, which mirrors `strconv.NumError`.
- Setters are the three typed setters only, chosen by a tag. Validation callbacks that other files register as setter functions are not part of this model.
- `Strconv.Atoi`: Go's 64-bit fast path for inputs shorter than 19 bytes is not written out separately. It returns the same value or error kind as the general `ParseInt` path that is modelled, because so few digits cannot overflow. A 32-bit `int` is not modelled.
- Go strings are byte strings, and the model uses `seq<char>`. The grammars look only at ASCII signs, digits and letters, so whether a non-ASCII character is one byte or several has no effect on the results.
- A nil `config.MinikubeConfig`: in Go, the assignment `m[name] = …` at util.go:60, 69 and 78 panics on a nil map. `ConfigStore` always holds a map, so the model has no such path.
