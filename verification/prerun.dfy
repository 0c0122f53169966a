/**
  The flag normalisation and validation that `sedge cli` performs before it
  generates anything: the `--yes` shortcut, the `--run-clients` list, the
  `--no-validator` exclusion, the network, fee-recipient and logging checks,
  and the `<client>[:<image>]` split of the three client arguments.

  The step is one pure function from the raw flag values to either the
  normalised flags or the single error of the first check that fails.
 */
module CliPreRun {
  import opened Results
  import opened StringUtil
  import opened Lists

  const Execution: string := "execution"
  const Consensus: string := "consensus"
  const Validator: string := "validator"

  /** The three client roles, in the order `--run-clients=all` expands to. */
  const Roles: seq<string> := [Execution, Consensus, Validator]

  /** The values of the command's flags, as parsed from the command line. */
  datatype Flags = Flags(
    executionName: string,
    executionImage: string,
    consensusName: string,
    consensusImage: string,
    validatorName: string,
    validatorImage: string,
    generationPath: string,
    checkpointSyncUrl: string,
    network: string,
    feeRecipient: string,
    jwtPath: string,
    graffiti: string,
    mevImage: string,
    install: bool,
    run: bool,
    yes: bool,
    services: seq<string>,
    fallbackEL: seq<string>,
    elExtraFlags: seq<string>,
    clExtraFlags: seq<string>,
    vlExtraFlags: seq<string>,
    mapAllPorts: bool,
    noMev: bool,
    noValidator: bool,
    loggingFlag: string)

  /** The errors the pre-run step reports, each carrying the values its message is formatted with. */
  datatype CliError =
    | RunClientsAmbiguous(services: seq<string>)
    | RunClientsInvalid(requested: string, allowed: string)
    | NetworkValidationFailed(cause: string)
    | UnknownNetwork(network: string)
    | InvalidFeeRecipient
    | InvalidLoggingFlag(cause: string)

  /**
    The collaborators the step consults and whose code is not part of this
    model: the list of supported networks (whose lookup can itself fail), the
    address-format predicate, and the logging-flag validator (`None` when the
    flag is accepted, otherwise its error message).
   */
  datatype Collaborators = Collaborators(
    supportedNetworks: Result<seq<string>, string>,
    isAddress: string -> bool,
    loggingFlagError: string -> Option<string>)

  /** `all` or `none` is given together with something else. */
  predicate Ambiguous(services: seq<string>)
  {
    ("all" in services || "none" in services) && |services| != 1
  }

  /** The `--run-clients` values that are accepted: `all` alone, `none` alone, or roles only. */
  predicate RunClientsAccepted(services: seq<string>)
  {
    services == ["all"] || services == ["none"] || ContainsOnly(services, Roles)
  }

  /** The clients an accepted `--run-clients` value asks for. */
  function RequestedClients(services: seq<string>): seq<string>
  {
    if services == ["all"] then Roles
    else if services == ["none"] then []
    else services
  }

  /** The filter predicate of the `--no-validator` exclusion. */
  predicate NotValidator(s: string)
  {
    s != Validator
  }

  /** The network is in the supported list, and that list could be obtained. */
  predicate NetworkSupported(network: string, env: Collaborators)
  {
    env.supportedNetworks.Ok? && network in env.supportedNetworks.value
  }

  /** A fee recipient is rejected only when it is given and is not an address. */
  predicate FeeRecipientRejected(feeRecipient: string, env: Collaborators)
  {
    feeRecipient != "" && !env.isAddress(feeRecipient)
  }

  /**
    How a `<client>[:<image>]` argument determines the client name and the
    image override: an empty argument changes neither; otherwise the name has
    no colon, and either the argument is exactly `name:image` or, without a
    colon, it is the name and the image is empty.
   */
  predicate SplitsInto(arg: string, oldImage: string, name: string, image: string)
  {
    if arg == "" then name == "" && image == oldImage
    else if ':' in arg then ':' !in name && name + ":" + image == arg
    else name == arg && image == ""
  }

  /** `g` agrees with `f` on every flag the pre-run step does not rewrite. */
  predicate SameUntouchedFlags(f: Flags, g: Flags)
  {
    g.(install := f.install, run := f.run, services := f.services,
       executionName := f.executionName, executionImage := f.executionImage,
       consensusName := f.consensusName, consensusImage := f.consensusImage,
       validatorName := f.validatorName, validatorImage := f.validatorImage) == f
  }

  /** Validation and expansion of the `--run-clients` list. */
  function NormaliseRunClients(services: seq<string>): (r: Result<seq<string>, CliError>)
    ensures r.Ok? <==> RunClientsAccepted(services)
    ensures r.Ok? ==> r.value == RequestedClients(services) && ContainsOnly(r.value, Roles)
    ensures r.Err? && Ambiguous(services) ==> r.error == RunClientsAmbiguous(services)
    ensures r.Err? && !Ambiguous(services) ==>
      r.error == RunClientsInvalid(Join(services, ','), Join(Roles, ','))
  {
    if "all" in services then
      if |services| == 1 then Ok(Roles)
      else Err(RunClientsAmbiguous(services))
    else if "none" in services then
      if |services| == 1 then Ok([])
      else Err(RunClientsAmbiguous(services))
    else if !ContainsOnly(services, Roles) then
      Err(RunClientsInvalid(Join(services, ','), Join(Roles, ',')))
    else
      Ok(services)
  }

  /** The `--no-validator` exclusion: with the flag set, every `validator` entry is dropped. */
  function ExcludeValidator(services: seq<string>, noValidator: bool): (r: seq<string>)
    ensures !noValidator ==> r == services
    ensures noValidator ==> r == Filter(services, NotValidator)
    ensures noValidator ==> Validator !in r
  {
    if noValidator && Validator in services then
      Filter(services, NotValidator)
    else
      assert noValidator ==> Filter(services, NotValidator) == services by {
        if noValidator {
          FilterKeepsAll(services, NotValidator);
        }
      }
      services
  }

  /** One client argument split into the client name and the image override. */
  function SplitClientArg(arg: string, image: string): (r: (string, string))
    ensures SplitsInto(arg, image, r.0, r.1)
    ensures FirstIndex(arg, ':').Some? ==>
      var i := FirstIndex(arg, ':').value;
      r.0 == arg[..i] && r.1 == arg[i + 1..]
  {
    if arg != "" then
      var parts := Split(arg, ':');
      HeadAndRest(arg, ':');
      (parts[0], Join(parts[1..], ':'))
    else
      (arg, image)
  }

  /** The pre-run step of the `cli` command. */
  function PreRun(f: Flags, env: Collaborators): (r: Result<Flags, CliError>)
    // the checks run in a fixed order and the first one that fails decides the error
    ensures Ambiguous(f.services) ==> r == Err(RunClientsAmbiguous(f.services))
    ensures !Ambiguous(f.services) && !RunClientsAccepted(f.services) ==>
      r == Err(RunClientsInvalid(Join(f.services, ','), Join(Roles, ',')))
    ensures RunClientsAccepted(f.services) && env.supportedNetworks.Err? ==>
      r == Err(NetworkValidationFailed(env.supportedNetworks.error))
    ensures (RunClientsAccepted(f.services) && env.supportedNetworks.Ok?
             && f.network !in env.supportedNetworks.value) ==>
      r == Err(UnknownNetwork(f.network))
    ensures (RunClientsAccepted(f.services) && NetworkSupported(f.network, env)
             && FeeRecipientRejected(f.feeRecipient, env)) ==>
      r == Err(InvalidFeeRecipient)
    ensures (RunClientsAccepted(f.services) && NetworkSupported(f.network, env)
             && !FeeRecipientRejected(f.feeRecipient, env)
             && env.loggingFlagError(f.loggingFlag).Some?) ==>
      r == Err(InvalidLoggingFlag(env.loggingFlagError(f.loggingFlag).value))
    ensures r.Ok? <==>
      && RunClientsAccepted(f.services)
      && NetworkSupported(f.network, env)
      && !FeeRecipientRejected(f.feeRecipient, env)
      && env.loggingFlagError(f.loggingFlag).None?
    // what the normalised flags hold
    ensures r.Ok? ==> r.value.install == (f.install || f.yes) && r.value.run == (f.run || f.yes)
    ensures r.Ok? ==> ContainsOnly(r.value.services, Roles)
    ensures r.Ok? && f.noValidator ==> Validator !in r.value.services
    ensures r.Ok? ==>
      r.value.services == (if f.noValidator then Filter(RequestedClients(f.services), NotValidator)
                           else RequestedClients(f.services))
    ensures r.Ok? ==>
      && SplitsInto(f.executionName, f.executionImage, r.value.executionName, r.value.executionImage)
      && SplitsInto(f.consensusName, f.consensusImage, r.value.consensusName, r.value.consensusImage)
      && SplitsInto(f.validatorName, f.validatorImage, r.value.validatorName, r.value.validatorImage)
    ensures r.Ok? ==> SameUntouchedFlags(f, r.value)
  {
    // quick run
    var f := if f.yes then f.(install := true, run := true) else f;
    match NormaliseRunClients(f.services)
    case Err(e) => Err(e)
    case Ok(requested) =>
      var services := ExcludeValidator(requested, f.noValidator);
      match env.supportedNetworks
      case Err(cause) => Err(NetworkValidationFailed(cause))
      case Ok(networks) =>
        if f.network !in networks then
          Err(UnknownNetwork(f.network))
        else if f.feeRecipient != "" && !env.isAddress(f.feeRecipient) then
          Err(InvalidFeeRecipient)
        else
          var (executionName, executionImage) := SplitClientArg(f.executionName, f.executionImage);
          var (consensusName, consensusImage) := SplitClientArg(f.consensusName, f.consensusImage);
          var (validatorName, validatorImage) := SplitClientArg(f.validatorName, f.validatorImage);
          match env.loggingFlagError(f.loggingFlag)
          case Some(cause) => Err(InvalidLoggingFlag(cause))
          case None =>
            Ok(f.(services := services,
                  executionName := executionName, executionImage := executionImage,
                  consensusName := consensusName, consensusImage := consensusImage,
                  validatorName := validatorName, validatorImage := validatorImage))
  }

  /** The `<client>:<image>` form of a client flag, as an operator writes it. */
  function ClientArg(name: string, image: string): string
  {
    if image == "" then name else name + ":" + image
  }

  /** `SplitsInto` leaves no freedom: whatever satisfies it is what `SplitClientArg` returns. */
  lemma SplitsIntoUnique(arg: string, oldImage: string, name: string, image: string)
    requires SplitsInto(arg, oldImage, name, image)
    ensures SplitClientArg(arg, oldImage) == (name, image)
  {
    if arg != "" && ':' in arg {
      assert name + ":" + image == name + [':'] + image;
      FirstIndexOfJoined(name, ':', image);
      assert arg[..|name|] == name;
      assert arg[|name| + 1..] == image;
    }
  }

  /** Writing a name and an image in the flag syntax and splitting it again gives both back. */
  lemma ClientArgRoundTrip(name: string, image: string, oldImage: string)
    requires ':' !in name
    requires name != "" || image != ""
    ensures SplitClientArg(ClientArg(name, image), oldImage) == (name, image)
  {
    var arg := ClientArg(name, image);
    if image != "" {
      assert arg[|name|] == ':';
    }
    SplitsIntoUnique(arg, oldImage, name, image);
  }

  /**
    The `--no-validator` exclusion removes every `validator` entry and nothing
    else, and keeps the order of what remains.
   */
  lemma {:induction false} ExcludeValidatorRemovesOnlyValidator(a: seq<string>, b: seq<string>, s: string)
    ensures multiset(ExcludeValidator(a, true))[s] == if s == Validator then 0 else multiset(a)[s]
    ensures ExcludeValidator(a + b, true) == ExcludeValidator(a, true) + ExcludeValidator(b, true)
  {
    FilterCount(a, NotValidator, s);
    FilterAppend(a, b, NotValidator);
  }

  /** `--run-clients=all` together with `--no-validator` runs exactly execution and consensus. */
  lemma AllWithoutValidator(f: Flags, env: Collaborators)
    requires f.services == ["all"] && f.noValidator
    ensures PreRun(f, env).Ok? ==> PreRun(f, env).value.services == [Execution, Consensus]
  {
    assert Roles == [Execution, Consensus] + [Validator];
    FilterAppend([Execution, Consensus], [Validator], NotValidator);
    FilterKeepsAll([Execution, Consensus], NotValidator);
  }
}
