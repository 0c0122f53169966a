# sedge `cli` command: flag normalisation and run planning in Dafny

This project models the part of sedge's `cli` command (`cli/cli.go`) that can be stated as pure behaviour. sedge is a tool that sets up an Ethereum node with execution, consensus and validator clients. The model covers:

- **The pre-run step** (`preRunCliCmd`). It runs before anything is generated. It applies the `--yes` shortcut and validates and expands `--run-clients`. It drops `validator` when `--no-validator` is set. It checks the network and the fee recipient. It then splits each `--execution`/`--consensus`/`--validator` argument of the form `<client>[:<image>]` into a client name and an image override, and finally checks the logging flag. The first failing check decides the one error returned. The model is one function, `CliPreRun.PreRun`, from a `Flags` record to `Result<Flags, CliError>`.
- **What `runCliCmd` derives from the accepted flags.** This covers the warnings it prints and the `GenerationData` handed to script generation, including `Validator.Omited := noValidator` and `Mev := !noMev && !noValidator`. It also covers the ordered plan of container steps after generation (`CliRun.RunPlan`). The plan ends immediately when the service list is empty. Otherwise it starts or offers the selected services and then, when the validator is neither excluded nor already selected, tracks sync and starts or offers the validator alone. The plan is the one taken when the operator chooses to run at each offer; choosing the instructions ends the command at that offer.
- **The JWT-secret decision** (`JwtSecret`). It is modelled both as written and as its comment intends; see "## Findings".

Modules:

- `Results`: `Option` and `Result`.
- `StringUtil`: Go's `strings.Split` and `strings.Join` with a one-character separator, plus their round trips.
- `Lists`: `utils.ContainsOnly` and `utils.Filter`; `utils.Contains` is Dafny's `in`.
- `CliPreRun`: the pre-run step.
- `CliRun`: warnings, generation options and the run plan.
- `JwtSecret`: the JWT-secret decision.

Some collaborators have code that is not part of this model. They appear as values in a `Collaborators` record rather than as reimplementations:

- `utils.SupportedNetworks()`: a `Result` holding the network list or the lookup error.
- `utils.IsAddress`: a predicate.
- `configs.ValidateLoggingFlag`: a function returning `None` or an error message.
- `configs.GetLoggingDriver`: a function parameter of `GenerationDataOf`.

The following are parameters, because they come from code that is not part of this model:

- the client selection produced by `clients.ClientInfo.Clients` and `validateClients`;
- the consensus client's name;
- the network's `RequireJWT` setting;
- the working directory;
- the path of a generated JWT secret.

The error messages' format strings live in `configs` and are not part of this model. `CliError` carries the values each message is formatted with. The bodies of `utils.Contains`, `utils.ContainsOnly` and `utils.Filter` are not part of this model either. They are modelled by their evident meaning: membership, "every element is allowed" (true of the empty list), and order-preserving filtering.

Three facts about `cli.go` shape what the model can say:

- `cli.go` leaves client-compatibility checks to `validateClients` and template composition to `generate.GenerateScripts`.
- `cli.go:227` does not make a relative `--jwt-secret-path` absolute (see Findings).
- The fee recipient is checked only by `utils.IsAddress`, and only when it is non-empty.

## Model

| member | source | states |
|---|---|---|
| `StringUtil.FirstIndex` | cli/cli.go:151 | The separator search under `strings.Split`. The result is absent exactly when the character does not occur. Otherwise it is a position holding the character with no earlier occurrence. |
| `StringUtil.Split` | cli/cli.go:151 | `strings.Split` always yields at least one piece, and no piece contains the separator. |
| `StringUtil.Join` | cli/cli.go:153 | `strings.Join` with a one-character separator. No pieces join to the empty string. Beyond that, its meaning is pinned down by `StringUtil.JoinSplit` and `StringUtil.SplitJoin`, which make it the exact inverse of `Split` on separator-free pieces. |
| `StringUtil.JoinSplit` | cli/cli.go:151-153 | Joining the pieces of a split with the same separator gives back the original string. |
| `StringUtil.SplitJoin` | cli/cli.go:151-153 | Splitting a join of at least one separator-free piece gives back exactly those pieces. |
| `StringUtil.HeadAndRest` | cli/cli.go:151-153 | `parts[0]` is the text before the first separator. `Join(parts[1:])` is everything after it, with later separators preserved. With no separator they are the whole string and the empty string. |
| `Lists.ContainsOnly` | cli/cli.go:125 | `utils.ContainsOnly`: every element of the list is one of the allowed values. It is true of the empty list, and a non-empty list qualifies exactly when its head is allowed and its tail qualifies. |
| `Lists.Filter` | cli/cli.go:130-132 | The result keeps exactly the accepted elements of the input: every element it holds is an accepted input element, every accepted input element appears, and it is no longer than the input. |
| `Lists.FilterAppend` | cli/cli.go:130-132 | Filtering a concatenation is the concatenation of the filtered halves, so relative order is preserved. |
| `Lists.FilterCount` | cli/cli.go:130-132 | Filtering keeps every copy of an accepted value and no copy of a rejected one. |
| `Lists.FilterKeepsAll` | cli/cli.go:129-133 | A list whose elements are all accepted is returned unchanged. This is why the `Contains(validator)` guard before filtering makes no difference. |
| `CliPreRun.NormaliseRunClients` | cli/cli.go:108-127 | `--run-clients` is accepted exactly when it is `[all]`, `[none]` or drawn from the three roles (duplicates allowed). `[all]` becomes `[execution, consensus, validator]`, `[none]` becomes `[]`, and a roles-only list passes unchanged. `all`/`none` alongside anything else gives the ambiguity error, `[all, all]` and `[all, none]` included. Any other rejection gives the run-clients error with the requested and allowed lists joined by commas. |
| `CliPreRun.ExcludeValidator` | cli/cli.go:128-133 | Without `--no-validator` the list is untouched. With it, the result is the order-preserving filter that drops `validator`, so `validator` never remains. |
| `CliPreRun.SplitClientArg` | cli/cli.go:149-164 | An empty argument leaves the name empty and the image unchanged. Otherwise the name is the text before the first `:` and never contains `:`. The image is everything after that `:`, with later colons kept, or empty when there is no colon. |
| `CliPreRun.SplitsIntoUnique` | cli/cli.go:150-164 | Any name and image with no `:` in the name, and with `name + ":" + image` equal to the argument (or the whole colon-free argument as the name), are exactly what the split returns. |
| `CliPreRun.ClientArgRoundTrip` | cli/cli.go:150-164 | A colon-free client name written with an image in the `<client>:<image>` flag syntax splits back into that name and image. Written with no image, it splits into the name and an empty image. |
| `CliPreRun.PreRun` | cli/cli.go:102-171 | The checks run in a fixed order: run-clients, then the network (a failed network-list lookup and an unknown network are distinct errors), then the fee recipient (an empty one never fails), then the logging flag. The first failing check is the single error returned, and the step succeeds exactly when all four pass. On success, `install`/`run` are forced true by `--yes` and otherwise keep their values. The services are the expanded request with `validator` dropped under `--no-validator`, so they contain only roles. Each client argument is split as `SplitsInto` describes. Every other flag is unchanged. |
| `CliPreRun.ExcludeValidatorRemovesOnlyValidator` | cli/cli.go:128-133 | The `--no-validator` exclusion removes every `validator` entry, keeps the count of every other value, and distributes over concatenation, so the survivors keep their order. |
| `CliPreRun.AllWithoutValidator` | cli/cli.go:109-133 | `--run-clients=all` with `--no-validator` yields exactly `[execution, consensus]`. |
| `CliRun.Warnings` | cli/cli.go:174-187 | The custom-images warning appears exactly when some image override is non-empty. The published-ports warning appears exactly with `--map-all`. The checkpoint warning appears exactly when a checkpoint URL is given, and it names that URL. No warning appears twice, and they come in the order custom images, published ports, checkpoint. |
| `CliRun.GenerationDataOf` | cli/cli.go:240-264 | The validator is marked omitted exactly when `--no-validator` is set. MEV-boost is on exactly when neither `--no-mev-boost` nor `--no-validator` is set, so an omitted validator always has MEV-boost off. Client names come from the resolved selection and images from the flags. The generation path, network, checkpoint URL, fee recipient, graffiti, fallback execution URLs, the three extra-flag lists, `--map-all` and the MEV image are passed through from the flags unchanged. |
| `CliRun.RunPlan` | cli/cli.go:283-334 | An empty service list gives an empty plan, so the run ends before any container step. Sync tracking, given a five-minute `wait` argument, is in the plan exactly when services are selected, the validator is not excluded and it is not among them. With `--no-validator`, the validator is never offered and only the selected list is started. The Teku data-directory step appears exactly when services are selected and the consensus client is `teku`. |
| `CliRun.StartedAppend` | cli/cli.go:296-331 | The services a sequence of steps starts are the services of its parts, in order. |
| `CliRun.RunPlanStarts` | cli/cli.go:296-331 | Without `--run` nothing is started unasked. With it and a non-empty service list, the selected services are started in order, and then `validator` alone exactly when it is neither excluded nor already selected. |
| `CliRun.ImageGivenIffSuffix` | cli/cli.go:150-164 | A client argument yields a non-empty image exactly when some `:` in it is followed by at least one character. |
| `CliRun.CustomImagesWarnedIffImageGiven` | cli/cli.go:174-178 | After the pre-run step, the custom-images warning is printed exactly when one of the three client flags carried a non-empty image after a colon. |
| `CliRun.NoValidatorExcludesValidatorEverywhere` | cli/cli.go:128-307 | With `--no-validator`, several things hold. The accepted services lack `validator`. Generation marks the validator omitted with MEV-boost off, whatever `--no-mev-boost` says. The plan never starts `validator`, never tracks sync and never offers the validator. |
| `CliRun.RunClientsNoneRunsNothing` | cli/cli.go:283-287 | `--run-clients=none` leads to an empty run plan. |
| `CliRun.QuickRunWithDefaults` | cli/cli.go:296-331 | With `--yes`, the default `--run-clients=execution,consensus` and a non-Teku consensus client, the plan has three steps in order: start execution and consensus, track sync with a five-minute `wait` argument, then start the validator. |
| `CliRun.GivenJwtPathReachesGenerationAbsolute` | cli/cli.go:222-231 | With the corrected JWT step, a non-empty `--jwt-secret-path` reaches generation as an absolute path. |
| `JwtSecret.IsAbs` | cli/cli.go:227 | Definition: `filepath.IsAbs` on POSIX, which is Go's `strings.HasPrefix(path, "/")`. |
| `JwtSecret.AbsPath` | cli/cli.go:228 | `filepath.Abs` always gives an absolute path. An absolute path comes back cleaned. A relative path is joined to the working directory and then cleaned. |
| `JwtSecret.AbsPathIdempotent` | cli/cli.go:228 | Resolving an already resolved path changes nothing, given that cleaning is idempotent. |
| `JwtSecret.JwtStepAsWritten` | cli/cli.go:222-231 | A secret is generated exactly when no path is given and the network requires JWT. Otherwise the path handed on is absolute exactly when the given one was, and a relative path is handed on unchanged. |
| `JwtSecret.JwtStepAsWrittenKeepsRelativePath` | cli/cli.go:227 | The concrete relative path `jwtsecret` passes through the step as written unchanged and is not absolute. |
| `JwtSecret.JwtStep` | cli/cli.go:222-231 | The corrected step generates a secret under the same condition. It passes every given path through `filepath.Abs`: an absolute path comes back cleaned, and a relative one is joined to the working directory and cleaned, so every given path ends up absolute. An empty path stays empty. |
| `JwtSecret.JwtStepDiffersOnlyOnRelativePaths` | cli/cli.go:227 | The corrected and as-written steps disagree exactly on non-empty relative paths. Both clean absolute paths the same way. |
| `JwtSecret.JwtSecretPath` | cli/cli.go:222-231 | With the corrected step, generation receives the generated secret's path when one was generated. It receives an absolute path whenever a path was given. |

## Left out

- Dependency detection and installation, with its prompts (cli/cli.go:202-220): shell and package-manager I/O and interactive UI.
- The fee-recipient prompt (cli/cli.go:233-238): interactive UI. `GenerationDataOf` takes the flags after it has filled in `feeRecipient`.
- Generating the JWT secret (`handleJWTSecret`) and the error from `filepath.Abs` (only possible when the working directory cannot be read): filesystem dependent.
- JwtSecret.IsAbs: only POSIX paths and the `/` separator are modelled. On Windows `filepath.IsAbs` also accepts volume paths such as `C:\x`, and `filepath.Join` uses `\`; neither is covered.
- JwtSecret.AbsPath: `filepath.Clean` is a parameter, not reimplemented. The model assumes only that it keeps absolute paths absolute (and, for `AbsPathIdempotent`, that it is idempotent). So the contract gives the cleaned text only as `clean(...)` of the joined path, and says nothing about the cleaned text itself.
- JwtSecret.JwtStep: the same `clean` parameter stands for `filepath.Clean`, so the contract states a given path's result as `clean(...)`, not as literal text.
- JwtSecret.JwtStepDiffersOnlyOnRelativePaths: it compares both steps under the same `clean` parameter. That matches Go, where both call the same `filepath.Abs`.
- `clients.ClientInfo.Clients`, `validateClients`, `generate.GenerateScripts`, `generate.CleanGenerated` and `ui.PrintFileContent`: their source is not part of this model. The client selection is a parameter, and generation and clean-up are not modelled.
- `runAndShowContainers`, `runScriptOrExit`, `RunValidatorOrExit` and `preRunTeku`: container runtime invocation. `RunPlan` records which of them are invoked, on what and in which order, assuming each succeeds. An error from any of them ends the Go command at that step.
- The operator's choice at `runScriptOrExit` and `RunValidatorOrExit` (cli/cli.go:301-302, 327-328): interactive UI. The plan lists the steps taken when the operator chooses to run at each offer. Choosing the instructions ends the command at that step without an error, so the later steps, sync tracking and the validator step included, are never reached.
- `trackSync` and the posmoni monitor set-up (cli/cli.go:317, 387-408): network polling through an external library with time-based retries. Only the five-minute `wait` argument it is given is modelled; whether that is a deadline or a polling interval is decided inside `trackSync`.
- Cobra flag registration, logging and `os.Exit` (cli/cli.go:72-100, 339-386): framework plumbing. Flag defaults (`--run-clients=execution,consensus`, `--network=mainnet`, `--logging=json`) are not imposed on `Flags`; the scenario lemma `CliRun.QuickRunWithDefaults` uses the run-clients default.
- The Go step mutates package-level variables before a later check can fail. The model returns no flags on failure, because a failure ends the process (`log.Fatal`).
- The `all` check is made before the `none` check, but both report the same ambiguity error. The precedence is therefore not observable and not stated separately.

## Findings

| source | as written | input that shows it | evidently intended | confidence | as-written member | corrected member |
|---|---|---|---|---|---|---|
| cli/cli.go:227 | `else if filepath.IsAbs(jwtPath)` resolves the path only when it is already absolute, despite the comment "Ensure jwtPath is absolute" | `--jwt-secret-path jwtsecret` (relative) on any network: the path reaches generation still relative | pass every non-empty path through `filepath.Abs` (`jwtPath != ""` in place of `filepath.IsAbs(jwtPath)`) | medium; not executed | `JwtSecret.JwtStepAsWritten`, `JwtSecret.JwtStepAsWrittenKeepsRelativePath` | `JwtSecret.JwtStep`, `JwtSecret.JwtSecretPath` |
