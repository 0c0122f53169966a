/**
  What the `cli` command derives from the normalised flags once they are
  accepted: the warnings it prints, the options it hands to script
  generation, and the ordered plan of container steps it takes afterwards.
  Generation itself, the container runtime and the sync monitor are not part
  of this model; the plan records which of their operations are invoked, on
  what, and in which order.
 */
module CliRun {
  import opened Results
  import opened Lists
  import opened StringUtil
  import opened CliPreRun
  import opened JwtSecret

  /** A client as handed to generation: its name, its image override and whether it is left out. */
  datatype Client = Client(name: string, image: string, omitted: bool)

  /** The three clients chosen by the client-combination resolution, which is not part of this model. */
  datatype ClientSelection = ClientSelection(execution: Client, consensus: Client, validator: Client)

  /** The options script generation receives. */
  datatype GenerationData = GenerationData(
    executionClient: Client,
    consensusClient: Client,
    validatorClient: Client,
    generationPath: string,
    network: string,
    checkpointSyncUrl: string,
    feeRecipient: string,
    jwtSecretPath: string,
    graffiti: string,
    fallbackELUrls: seq<string>,
    elExtraFlags: seq<string>,
    clExtraFlags: seq<string>,
    vlExtraFlags: seq<string>,
    mapAllPorts: bool,
    mev: bool,
    mevImage: string,
    loggingDriver: string)

  /** The warnings printed before any work starts. */
  datatype Warning = CustomImages | MapAllPorts | CheckpointUrlUsed(url: string)

  /**
    The steps taken after the scripts are generated, assuming each one
    succeeds and the operator chooses to run at each offer; choosing the
    instructions at an offer ends the command at that step.
   */
  datatype Step =
    | PrepareTekuDataDir            // give the Teku data directory open permissions
    | RunContainers(services: seq<string>)
    | OfferToRunScripts             // show instructions and exit, or run and go on, at the operator's choice
    | TrackSync(minutes: nat)       // sync tracking for execution and consensus, given a `wait` argument in minutes
    | OfferToRunValidator           // show instructions and exit, or run the validator, at the operator's choice

  /** The `wait` argument, in minutes, the command gives sync tracking. */
  const SyncWaitMinutes: nat := 5

  /** Some client argument carries a non-empty image after its first colon. */
  predicate HasImageSuffix(arg: string)
  {
    exists i :: 0 <= i < |arg| - 1 && arg[i] == ':'
  }

  /** The services a plan starts without asking the operator, in order. */
  function Started(plan: seq<Step>): seq<string>
  {
    if |plan| == 0 then []
    else (if plan[0].RunContainers? then plan[0].services else []) + Started(plan[1..])
  }

  /** The warnings for custom images, published ports and a checkpoint-sync URL, in that order. */
  function Warnings(f: Flags): (w: seq<Warning>)
    ensures CustomImages in w <==> (f.executionImage != "" || f.consensusImage != "" || f.validatorImage != "")
    ensures MapAllPorts in w <==> f.mapAllPorts
    ensures CheckpointUrlUsed(f.checkpointSyncUrl) in w <==> f.checkpointSyncUrl != ""
    ensures forall u :: CheckpointUrlUsed(u) in w ==> u == f.checkpointSyncUrl
    ensures forall i, j :: 0 <= i < j < |w| ==> w[i] != w[j]
    ensures CustomImages in w ==> w[0] == CustomImages
    ensures forall u :: CheckpointUrlUsed(u) in w ==> w[|w| - 1] == CheckpointUrlUsed(u)
  {
    (if f.executionImage != "" || f.consensusImage != "" || f.validatorImage != "" then [CustomImages] else [])
    + (if f.mapAllPorts then [MapAllPorts] else [])
    + (if f.checkpointSyncUrl != "" then [CheckpointUrlUsed(f.checkpointSyncUrl)] else [])
  }

  /**
    The generation options built from the accepted flags (after the
    fee-recipient prompt, which is not part of this model, has filled in
    `feeRecipient`), the resolved clients and the JWT secret path the JWT
    step decides on: `JwtSecret.JwtStepAsWritten` as the command does it, or
    `JwtSecret.JwtSecretPath` with the corrected step.
   */
  function GenerationDataOf(f: Flags, selected: ClientSelection, jwtSecretPath: string,
                            loggingDriverOf: string -> string): (gd: GenerationData)
    ensures gd.validatorClient.omitted == f.noValidator
    ensures gd.mev <==> !f.noMev && !f.noValidator
    ensures gd.validatorClient.omitted ==> !gd.mev
    ensures gd.executionClient == selected.execution.(image := f.executionImage)
    ensures gd.consensusClient == selected.consensus.(image := f.consensusImage)
    ensures gd.validatorClient == selected.validator.(image := f.validatorImage, omitted := f.noValidator)
    ensures gd.loggingDriver == loggingDriverOf(f.loggingFlag)
    ensures gd.jwtSecretPath == jwtSecretPath
    ensures gd.generationPath == f.generationPath && gd.network == f.network
      && gd.checkpointSyncUrl == f.checkpointSyncUrl && gd.feeRecipient == f.feeRecipient
      && gd.graffiti == f.graffiti && gd.fallbackELUrls == f.fallbackEL
      && gd.elExtraFlags == f.elExtraFlags && gd.clExtraFlags == f.clExtraFlags
      && gd.vlExtraFlags == f.vlExtraFlags && gd.mapAllPorts == f.mapAllPorts
      && gd.mevImage == f.mevImage
  {
    var execution := selected.execution.(image := f.executionImage);
    var consensus := selected.consensus.(image := f.consensusImage);
    var validator := selected.validator.(image := f.validatorImage, omitted := f.noValidator);
    GenerationData(
      executionClient := execution,
      consensusClient := consensus,
      validatorClient := validator,
      generationPath := f.generationPath,
      network := f.network,
      checkpointSyncUrl := f.checkpointSyncUrl,
      feeRecipient := f.feeRecipient,
      jwtSecretPath := jwtSecretPath,
      graffiti := f.graffiti,
      fallbackELUrls := f.fallbackEL,
      elExtraFlags := f.elExtraFlags,
      clExtraFlags := f.clExtraFlags,
      vlExtraFlags := f.vlExtraFlags,
      mapAllPorts := f.mapAllPorts,
      mev := !f.noMev && !f.noValidator,
      mevImage := f.mevImage,
      loggingDriver := loggingDriverOf(f.loggingFlag))
  }

  /**
    The container steps after generation. An empty service list ends the run
    at once. Otherwise the selected services are started (or offered); then,
    unless the validator is excluded or was already among them, the command
    tracks sync and starts (or offers) the validator on its own. The plan is
    the one taken when the operator chooses to run at each offer.
   */
  function RunPlan(f: Flags, consensusName: string): (plan: seq<Step>)
    ensures |f.services| == 0 <==> plan == []
    ensures TrackSync(SyncWaitMinutes) in plan <==>
      |f.services| > 0 && !f.noValidator && Validator !in f.services
    ensures f.noValidator ==> OfferToRunValidator !in plan
    ensures f.noValidator ==> forall k :: 0 <= k < |plan| && plan[k].RunContainers? ==> plan[k].services == f.services
    ensures PrepareTekuDataDir in plan <==> |f.services| > 0 && consensusName == "teku"
  {
    if |f.services| == 0 then []
    else
      (if consensusName == "teku" then [PrepareTekuDataDir] else [])
      + (if f.run then [RunContainers(f.services)] else [OfferToRunScripts])
      + (if !f.noValidator && Validator !in f.services then
           [TrackSync(SyncWaitMinutes), if f.run then RunContainers([Validator]) else OfferToRunValidator]
         else [])
  }

  /** `Started` distributes over concatenation of plans. */
  lemma {:induction false} StartedAppend(a: seq<Step>, b: seq<Step>)
    ensures Started(a + b) == Started(a) + Started(b)
    decreases |a|
  {
    if |a| == 0 {
      assert a + b == b;
    } else {
      assert (a + b)[0] == a[0];
      assert (a + b)[1..] == a[1..] + b;
      StartedAppend(a[1..], b);
    }
  }

  /** The services a plan starts are its `RunContainers` lists, in plan order. */
  lemma StartedSteps(plan: seq<Step>)
    ensures |plan| == 1 ==> Started(plan) == if plan[0].RunContainers? then plan[0].services else []
    ensures |plan| == 2 ==>
      Started(plan) == (if plan[0].RunContainers? then plan[0].services else [])
                       + (if plan[1].RunContainers? then plan[1].services else [])
  {
  }

  /**
    Without `--run` nothing is started unasked; with it, the selected services
    are started first, and then the validator alone exactly when it is neither
    excluded nor already selected.
   */
  lemma {:induction false} RunPlanStarts(f: Flags, consensusName: string)
    ensures !f.run ==> Started(RunPlan(f, consensusName)) == []
    ensures f.run && |f.services| > 0 ==>
      Started(RunPlan(f, consensusName)) ==
        f.services + (if !f.noValidator && Validator !in f.services then [Validator] else [])
  {
    var plan := RunPlan(f, consensusName);
    if |f.services| > 0 {
      var teku: seq<Step> := if consensusName == "teku" then [PrepareTekuDataDir] else [];
      var first: seq<Step> := if f.run then [RunContainers(f.services)] else [OfferToRunScripts];
      var deferred: seq<Step> :=
        if !f.noValidator && Validator !in f.services then
          [TrackSync(SyncWaitMinutes), if f.run then RunContainers([Validator]) else OfferToRunValidator]
        else [];
      assert plan == teku + first + deferred;
      StartedAppend(teku + first, deferred);
      StartedAppend(teku, first);
      StartedSteps(teku);
      StartedSteps(first);
      StartedSteps(deferred);
    }
  }

  /** A client argument yields a non-empty image exactly when some colon in it is followed by text. */
  lemma ImageGivenIffSuffix(arg: string)
    ensures SplitClientArg(arg, "").1 != "" <==> HasImageSuffix(arg)
  {
  }

  /**
    The custom-images warning is printed exactly when one of the client flags
    was given in the `<client>:<image>` form with a non-empty image (the image
    variables have no flag of their own and start empty).
   */
  lemma CustomImagesWarnedIffImageGiven(f: Flags, env: Collaborators)
    requires f.executionImage == "" && f.consensusImage == "" && f.validatorImage == ""
    ensures PreRun(f, env).Ok? ==>
      (CustomImages in Warnings(PreRun(f, env).value) <==>
       HasImageSuffix(f.executionName) || HasImageSuffix(f.consensusName) || HasImageSuffix(f.validatorName))
  {
    if PreRun(f, env).Err? {
      return;
    }
    var g := PreRun(f, env).value;
    SplitsIntoUnique(f.executionName, "", g.executionName, g.executionImage);
    SplitsIntoUnique(f.consensusName, "", g.consensusName, g.consensusImage);
    SplitsIntoUnique(f.validatorName, "", g.validatorName, g.validatorImage);
    ImageGivenIffSuffix(f.executionName);
    ImageGivenIffSuffix(f.consensusName);
    ImageGivenIffSuffix(f.validatorName);
  }

  /**
    `--no-validator` reaches everything downstream: the validator is not among
    the services, generation marks it omitted with MEV-boost off whatever
    `--no-mev-boost` says, and the run never starts or offers it, nor tracks sync for it.
   */
  lemma NoValidatorExcludesValidatorEverywhere(
    f: Flags, env: Collaborators, selected: ClientSelection, jwtSecretPath: string,
    loggingDriverOf: string -> string)
    requires f.noValidator
    ensures PreRun(f, env).Ok? ==>
      var g := PreRun(f, env).value;
      var gd := GenerationDataOf(g, selected, jwtSecretPath, loggingDriverOf);
      var plan := RunPlan(g, selected.consensus.name);
      && Validator !in g.services
      && gd.validatorClient.omitted
      && !gd.mev
      && Validator !in Started(plan)
      && TrackSync(SyncWaitMinutes) !in plan
      && OfferToRunValidator !in plan
  {
    if PreRun(f, env).Err? {
      return;
    }
    var g := PreRun(f, env).value;
    RunPlanStarts(g, selected.consensus.name);
  }

  /** `--run-clients=none` generates the scripts and then ends the run without any container step. */
  lemma RunClientsNoneRunsNothing(f: Flags, env: Collaborators, consensusName: string)
    requires f.services == ["none"]
    requires PreRun(f, env).Ok?
    ensures RunPlan(PreRun(f, env).value, consensusName) == []
  {
  }

  /**
    With `--yes` and the default `--run-clients=execution,consensus`, the
    command starts both clients, tracks sync, then starts the validator.
   */
  lemma QuickRunWithDefaults(f: Flags, env: Collaborators, consensusName: string)
    requires f.yes && !f.noValidator && f.services == [Execution, Consensus]
    requires consensusName != "teku"
    requires PreRun(f, env).Ok?
    ensures RunPlan(PreRun(f, env).value, consensusName) ==
      [RunContainers([Execution, Consensus]), TrackSync(SyncWaitMinutes), RunContainers([Validator])]
  {
  }

  /**
    With the corrected JWT step, a JWT secret path given on the command line
    reaches generation as an absolute path.
   */
  lemma GivenJwtPathReachesGenerationAbsolute(
    f: Flags, selected: ClientSelection, requireJwt: bool, cwd: string, clean: string -> string,
    generatedPath: string, loggingDriverOf: string -> string)
    requires IsAbs(cwd) && KeepsAbsolute(clean)
    requires f.jwtPath != ""
    ensures IsAbs(GenerationDataOf(f, selected, JwtSecretPath(f.jwtPath, requireJwt, cwd, clean, generatedPath),
                                   loggingDriverOf).jwtSecretPath)
  {
  }
}
