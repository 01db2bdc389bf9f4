/**
  Executable plans: internal/planner/execution.go and reconcile.go.

  A plan is a list of step inputs that differ only in sequence number and action.  Its digest and its
  idempotency key are injective images of the plan, so the plan itself stands for both.
 */
module Planner {
  import opened Prelude
  import opened Text
  import Datasets

  datatype Operation = Apply | Delete | Reconcile

  datatype Action =
    | EnsureServices | EnsureImage | EnsureStorage | EnsureSeed | EnsureDefinition | EnsureConfig
    | EnsureReservation | EnsureRules | EnsurePower | ObserveAll
    | EnsureStopped | ReservationAbsent | RulesAbsent | VmAbsent | SeedAbsent | StorageAbsent | ObserveAbsent

  /** What the SSH key file of a manifest holds, white space trimmed. */
  datatype SshKey = NotGiven | Unreadable | Given(key: string)

  /**
    A normalised manifest.  `sshKey` is what the key file holds, and `seedSource` the cloud-init text that is made of
    name, owner, profile and key; as the key file does not change, the other fields determine both.
   */
  datatype Spec = Spec(image: string, pool: string, running: bool, cpus: int, memoryMb: int, diskGb: int,
                       owner: string, profile: string, sshKeyFile: string, sshKey: SshKey, seedSource: string)

  datatype Allocation = Allocation(pool: string, ip: Ip, mac: Mac, dataset: string, zvol: string, subnet: int,
                                   image: string, generation: nat)

  /** The pinned archive of an image; the cache holds its decompression. */
  datatype Image = Image(name: string, pinned: Digest, loader: string)

  datatype Pool = Pool(name: string, first: Ip, last: Ip, subnet: int)

  datatype Site = Site(controlPlane: string, bridge: string, vmSwitch: string, vmDataset: string,
                       manageAnchor: bool, manageServices: bool, services: seq<string>,
                       images: map<string, Image>, pools: map<string, Pool>)

  datatype StepInput = StepInput(operation: Operation, sequence: nat, action: Action, resource: Name,
                                 generation: nat, spec: Spec, allocation: Allocation, image: Image,
                                 bridge: string, vmSwitch: string, manageAnchor: bool, manageServices: bool,
                                 services: seq<string>, destroyStorage: bool)

  /** Images are found by their names. */
  predicate SiteOk(site: Site) {
    forall n <- site.images :: site.images[n].name == n
  }

  /** The step works with the image that the site pins under its name. */
  predicate FromSite(site: Site, input: StepInput) {
    input.image.name in site.images && site.images[input.image.name] == input.image
  }

  datatype Plan = Plan(operation: Operation, resource: Name, generation: nat, spec: Spec, steps: seq<StepInput>)

  /** The raw image a step works with: the decompression of the pinned archive. */
  function RawImage(input: StepInput): Bytes {
    Unxz(input.image.pinned.of)
  }

  /** VMManifest.Validate */
  predicate ManifestOk(name: Name, spec: Spec) {
    && Datasets.IsLabel(name)
    && !IsBlank(spec.owner) && !IsBlank(spec.image) && !IsBlank(spec.profile) && !IsBlank(spec.pool)
    && 1 <= spec.cpus <= 64 && spec.memoryMb >= 128 && spec.diskGb >= 1
    && (spec.sshKeyFile != "" ==> spec.sshKeyFile[0] == '/')
  }

  datatype ManifestProblem = BadName | NoOwner | NoImage | NoProfile | NoPool | BadCpus | BadMemory | BadDisk | BadKeyFile

  /** One check of a list of checks. */
  method Note<T(==)>(problems: seq<T>, wrong: bool, problem: T) returns (more: seq<T>)
    ensures more == [] <==> problems == [] && !wrong
    ensures forall other :: other in more <==> other in problems || (wrong && other == problem)
  {
    more := problems;
    if wrong {
      more := more + [problem];
    }
  }

  method CheckNumbers(cpus: int, memoryMb: int, diskGb: int, keyFile: string) returns (problems: seq<ManifestProblem>)
    ensures problems == [] <==>
              1 <= cpus <= 64 && memoryMb >= 128 && diskGb >= 1 && (keyFile != "" ==> keyFile[0] == '/')
    ensures forall p :: p in problems <==>
              (p == BadCpus && !(1 <= cpus <= 64)) || (p == BadMemory && memoryMb < 128) || (p == BadDisk && diskGb < 1)
              || (p == BadKeyFile && keyFile != "" && keyFile[0] != '/')
  {
    problems := Note([], cpus < 1 || cpus > 64, BadCpus);
    problems := Note(problems, memoryMb < 128, BadMemory);
    problems := Note(problems, diskGb < 1, BadDisk);
    problems := Note(problems, keyFile != "" && keyFile[0] != '/', BadKeyFile);
  }

  method CheckTexts(owner: string, image: string, profile: string, pool: string) returns (problems: seq<ManifestProblem>)
    ensures problems == [] <==> !IsBlank(owner) && !IsBlank(image) && !IsBlank(profile) && !IsBlank(pool)
    ensures forall p :: p in problems <==>
              (p == NoOwner && IsBlank(owner)) || (p == NoImage && IsBlank(image))
              || (p == NoProfile && IsBlank(profile)) || (p == NoPool && IsBlank(pool))
  {
    problems := Note([], IsBlank(owner), NoOwner);
    problems := Note(problems, IsBlank(image), NoImage);
    problems := Note(problems, IsBlank(profile), NoProfile);
    problems := Note(problems, IsBlank(pool), NoPool);
  }

  /** VMManifest.Validate: every problem is reported, and a manifest without problems is a good one. */
  method Validate(name: Name, spec: Spec) returns (problems: seq<ManifestProblem>)
    ensures problems == [] <==>
              && Datasets.IsLabel(name)
              && !IsBlank(spec.owner) && !IsBlank(spec.image) && !IsBlank(spec.profile) && !IsBlank(spec.pool)
              && 1 <= spec.cpus <= 64 && spec.memoryMb >= 128 && spec.diskGb >= 1
              && (spec.sshKeyFile == "" || spec.sshKeyFile[0] == '/')
    ensures problems == [] <==> ManifestOk(name, spec)
    ensures BadName in problems <==> !Datasets.IsLabel(name)
  {
    problems := Note([], !Datasets.IsLabel(name), BadName);
    var found := CheckTexts(spec.owner, spec.image, spec.profile, spec.pool);
    problems := problems + found;
    found := CheckNumbers(spec.cpus, spec.memoryMb, spec.diskGb, spec.sshKeyFile);
    problems := problems + found;
  }

  const APPLY_ACTIONS: seq<Action> :=
    [EnsureImage, EnsureStorage, EnsureSeed, EnsureDefinition, EnsureConfig, EnsureReservation, EnsureRules,
     EnsurePower, ObserveAll]

  const DELETE_ACTIONS: seq<Action> :=
    [EnsureStopped, ReservationAbsent, RulesAbsent, VmAbsent, SeedAbsent, StorageAbsent, ObserveAbsent]

  function Actions(operation: Operation, manageServices: bool): seq<Action> {
    match operation
    case Apply => if manageServices then [EnsureServices] + APPLY_ACTIONS else APPLY_ACTIONS
    case Delete => DELETE_ACTIONS
    case Reconcile => [ObserveAll]
  }

  /** The input shared by all steps of one operation, before sequence and action are filled in. */
  function BaseInput(site: Site, image: Image, operation: Operation, name: Name, generation: nat, spec: Spec,
                     allocation: Allocation): StepInput
  {
    StepInput(operation, 0, EnsureServices, name, generation, spec, allocation, image, site.bridge,
              if site.vmSwitch == "" then site.bridge else site.vmSwitch,
              site.manageAnchor, site.manageServices, site.services, operation == Delete)
  }

  function StepsOf(base: StepInput, actions: seq<Action>): (steps: seq<StepInput>)
    ensures |steps| == |actions|
  {
    seq(|actions|, i requires 0 <= i < |actions| => base.(sequence := i + 1, action := actions[i]))
  }

  function PlanOf(site: Site, image: Image, operation: Operation, name: Name, generation: nat, spec: Spec,
                  allocation: Allocation): Plan
  {
    Plan(operation, name, generation, spec,
         StepsOf(BaseInput(site, image, operation, name, generation, spec, allocation),
                 Actions(operation, site.manageServices)))
  }

  /** Every plan the planner can produce. */
  ghost predicate WellPlanned(plan: Plan) {
    exists base: StepInput ::
      && base.operation == plan.operation && base.resource == plan.resource
      && base.generation == plan.generation && base.spec == plan.spec
      && base.destroyStorage == (plan.operation == Delete)
      && plan.steps == StepsOf(base, Actions(plan.operation, base.manageServices))
  }

  lemma PlanOfIsWellPlanned(site: Site, image: Image, operation: Operation, name: Name, generation: nat, spec: Spec,
                            allocation: Allocation)
    ensures WellPlanned(PlanOf(site, image, operation, name, generation, spec, allocation))
  {
    var base := BaseInput(site, image, operation, name, generation, spec, allocation);
    var plan := PlanOf(site, image, operation, name, generation, spec, allocation);
    assert plan.steps == StepsOf(base, Actions(plan.operation, base.manageServices));
  }

  // ----- what a plan says, field by field

  predicate HasActions(steps: seq<StepInput>, actions: seq<Action>) {
    |steps| == |actions| && forall i :: 0 <= i < |steps| ==> steps[i].action == actions[i]
  }

  /**
    A step input carries the declaration, the allocation and the site's settings: the image that the declaration
    names, the bridge, the switch of the machines or else the bridge, and what the site manages itself.
   */
  predicate MadeFor(input: StepInput, site: Site, operation: Operation, name: Name, generation: nat, spec: Spec,
                    allocation: Allocation)
  {
    && input.operation == operation && input.resource == name && input.generation == generation
    && input.spec == spec && input.allocation == allocation
    && spec.image in site.images && input.image == site.images[spec.image]
    && input.bridge == site.bridge
    && (site.vmSwitch != "" ==> input.vmSwitch == site.vmSwitch)
    && (site.vmSwitch == "" ==> input.vmSwitch == site.bridge)
    && input.manageAnchor == site.manageAnchor
    && input.manageServices == site.manageServices && input.services == site.services
    && (input.destroyStorage <==> operation == Delete)
  }

  /** A plan whose steps are numbered from one and all made for the same. */
  predicate PlansFor(plan: Plan, site: Site, operation: Operation, name: Name, generation: nat, spec: Spec,
                     allocation: Allocation)
  {
    && plan.operation == operation && plan.resource == name && plan.generation == generation && plan.spec == spec
    && forall k :: 0 <= k < |plan.steps| ==>
         plan.steps[k].sequence == k + 1
         && MadeFor(plan.steps[k], site, operation, name, generation, spec, allocation)
  }

  /** The loop of buildExecutable: number the actions from one and stamp them into copies of the base input. */
  method BuildSteps(base: StepInput, actions: seq<Action>) returns (steps: seq<StepInput>)
    ensures |steps| == |actions|
    ensures forall i :: 0 <= i < |steps| ==> steps[i].sequence == i + 1 && steps[i].action == actions[i]
    ensures forall i :: 0 <= i < |steps| ==> steps[i].(sequence := base.sequence, action := base.action) == base
    ensures steps == StepsOf(base, actions)
  {
    steps := [];
    for index := 0 to |actions|
      invariant |steps| == index
      invariant forall i :: 0 <= i < index ==> steps[i] == base.(sequence := i + 1, action := actions[i])
    {
      var input := base.(sequence := index + 1, action := actions[index]);
      steps := steps + [input];
    }
  }

  datatype BuildError = GenerationNotPositive | InvalidManifest | UnknownPool | UnknownImage | StorageNotAuthorised
  datatype Built = Built(plan: Plan) | BuildFailed(error: BuildError)

  /** buildExecutable */
  method BuildExecutable(site: Site, operation: Operation, name: Name, generation: nat, spec: Spec,
                         allocation: Allocation, destroyStorage: bool, actions: seq<Action>)
    returns (result: Built)
    requires destroyStorage == (operation == Delete) && actions == Actions(operation, site.manageServices)
    ensures result.Built? <==>
              generation > 0 && ManifestOk(name, spec) && spec.pool in site.pools && spec.image in site.images
    ensures result == BuildFailed(GenerationNotPositive) <==> generation == 0
    ensures result == BuildFailed(InvalidManifest) <==> generation > 0 && !ManifestOk(name, spec)
    ensures result == BuildFailed(UnknownPool) <==> generation > 0 && ManifestOk(name, spec) && spec.pool !in site.pools
    ensures result == BuildFailed(UnknownImage) <==>
              generation > 0 && ManifestOk(name, spec) && spec.pool in site.pools && spec.image !in site.images
    ensures result.BuildFailed? ==> result.error != StorageNotAuthorised
    ensures result.Built? ==>
              PlansFor(result.plan, site, operation, name, generation, spec, allocation) && HasActions(result.plan.steps, actions)
    ensures result.Built? ==>
              result.plan == PlanOf(site, site.images[spec.image], operation, name, generation, spec, allocation)
  {
    if generation == 0 {
      return BuildFailed(GenerationNotPositive);
    }
    var problems := Validate(name, spec);
    if problems != [] {
      return BuildFailed(InvalidManifest);
    }
    if spec.pool !in site.pools {
      return BuildFailed(UnknownPool);
    }
    if spec.image !in site.images {
      return BuildFailed(UnknownImage);
    }
    var vmSwitch := site.vmSwitch;
    if vmSwitch == "" {
      vmSwitch := site.bridge;
    }
    var image := Image(site.images[spec.image].name, site.images[spec.image].pinned, site.images[spec.image].loader);
    var base := StepInput(operation, 0, EnsureServices, name, generation, spec, allocation, image,
                          site.bridge, vmSwitch, site.manageAnchor, site.manageServices, site.services, destroyStorage);
    var steps := BuildSteps(base, actions);
    result := Built(Plan(operation, name, generation, spec, steps));
  }

  method BuildExecutableApply(site: Site, name: Name, generation: nat, spec: Spec, allocation: Allocation)
    returns (result: Built)
    ensures result.Built? <==>
              generation > 0 && ManifestOk(name, spec) && spec.pool in site.pools && spec.image in site.images
    ensures result == BuildFailed(GenerationNotPositive) <==> generation == 0
    ensures result == BuildFailed(InvalidManifest) <==> generation > 0 && !ManifestOk(name, spec)
    ensures result == BuildFailed(UnknownPool) <==> generation > 0 && ManifestOk(name, spec) && spec.pool !in site.pools
    ensures result == BuildFailed(UnknownImage) <==>
              generation > 0 && ManifestOk(name, spec) && spec.pool in site.pools && spec.image !in site.images
    ensures result.BuildFailed? ==> result.error != StorageNotAuthorised
    ensures result.Built? ==>
              PlansFor(result.plan, site, Apply, name, generation, spec, allocation)
              && HasActions(result.plan.steps,
                            if site.manageServices
                            then [EnsureServices, EnsureImage, EnsureStorage, EnsureSeed, EnsureDefinition, EnsureConfig,
                                  EnsureReservation, EnsureRules, EnsurePower, ObserveAll]
                            else [EnsureImage, EnsureStorage, EnsureSeed, EnsureDefinition, EnsureConfig,
                                  EnsureReservation, EnsureRules, EnsurePower, ObserveAll])
    ensures result.Built? ==>
              result.plan == PlanOf(site, site.images[spec.image], Apply, name, generation, spec, allocation)
  {
    var actions :=
      [EnsureImage, EnsureStorage, EnsureSeed, EnsureDefinition, EnsureConfig, EnsureReservation, EnsureRules,
       EnsurePower, ObserveAll];
    if site.manageServices {
      actions := [EnsureServices] + actions;
      assert actions == [EnsureServices, EnsureImage, EnsureStorage, EnsureSeed, EnsureDefinition, EnsureConfig,
                         EnsureReservation, EnsureRules, EnsurePower, ObserveAll];
    }
    result := BuildExecutable(site, Apply, name, generation, spec, allocation, false, actions);
  }

  method BuildExecutableDelete(site: Site, name: Name, generation: nat, spec: Spec, allocation: Allocation,
                               destroyStorage: bool)
    returns (result: Built)
    ensures result.Built? <==>
              && destroyStorage && generation > 0 && ManifestOk(name, spec)
              && spec.pool in site.pools && spec.image in site.images
    ensures result == BuildFailed(StorageNotAuthorised) <==> !destroyStorage
    ensures result == BuildFailed(GenerationNotPositive) <==> destroyStorage && generation == 0
    ensures result == BuildFailed(InvalidManifest) <==> destroyStorage && generation > 0 && !ManifestOk(name, spec)
    ensures result == BuildFailed(UnknownPool) <==>
              destroyStorage && generation > 0 && ManifestOk(name, spec) && spec.pool !in site.pools
    ensures result == BuildFailed(UnknownImage) <==>
              && destroyStorage && generation > 0 && ManifestOk(name, spec)
              && spec.pool in site.pools && spec.image !in site.images
    ensures result.Built? ==>
              PlansFor(result.plan, site, Delete, name, generation, spec, allocation)
              && HasActions(result.plan.steps, [EnsureStopped, ReservationAbsent, RulesAbsent, VmAbsent, SeedAbsent,
                                                StorageAbsent, ObserveAbsent])
    ensures result.Built? ==>
              result.plan == PlanOf(site, site.images[spec.image], Delete, name, generation, spec, allocation)
  {
    if !destroyStorage {
      return BuildFailed(StorageNotAuthorised);
    }
    result := BuildExecutable(site, Delete, name, generation, spec, allocation, true,
                              [EnsureStopped, ReservationAbsent, RulesAbsent, VmAbsent, SeedAbsent, StorageAbsent,
                               ObserveAbsent]);
  }

  method BuildExecutableReconcile(site: Site, name: Name, generation: nat, spec: Spec, allocation: Allocation)
    returns (result: Built)
    ensures result.Built? <==>
              generation > 0 && ManifestOk(name, spec) && spec.pool in site.pools && spec.image in site.images
    ensures result == BuildFailed(GenerationNotPositive) <==> generation == 0
    ensures result == BuildFailed(InvalidManifest) <==> generation > 0 && !ManifestOk(name, spec)
    ensures result == BuildFailed(UnknownPool) <==> generation > 0 && ManifestOk(name, spec) && spec.pool !in site.pools
    ensures result == BuildFailed(UnknownImage) <==>
              generation > 0 && ManifestOk(name, spec) && spec.pool in site.pools && spec.image !in site.images
    ensures result.BuildFailed? ==> result.error != StorageNotAuthorised
    ensures result.Built? ==>
              PlansFor(result.plan, site, Reconcile, name, generation, spec, allocation)
              && HasActions(result.plan.steps, [ObserveAll])
    ensures result.Built? ==>
              result.plan == PlanOf(site, site.images[spec.image], Reconcile, name, generation, spec, allocation)
  {
    result := BuildExecutable(site, Reconcile, name, generation, spec, allocation, false, [ObserveAll]);
  }

  /** Creation and removal never mix, an observation comes last and nowhere else, and images precede storage. */
  predicate WellOrdered(actions: seq<Action>, operation: Operation) {
    && |actions| >= 1
    && actions[|actions| - 1] == (if operation == Delete then ObserveAbsent else ObserveAll)
    && (forall i :: 0 <= i < |actions| ==> BelongsTo(actions[i], operation))
    && (forall i :: 0 <= i < |actions| - 1 ==> actions[i] != ObserveAll && actions[i] != ObserveAbsent)
    && (forall i :: 0 <= i < |actions| && actions[i] == EnsureStorage ==> i > 0 && actions[i - 1] == EnsureImage)
  }

  lemma ServicesFirst(actions: seq<Action>)
    requires WellOrdered(actions, Apply)
    ensures WellOrdered([EnsureServices] + actions, Apply)
  {
    var more := [EnsureServices] + actions;
    forall i | 0 < i < |more| ensures more[i] == actions[i - 1] {}
  }

  lemma ApplyOrder()
    ensures WellOrdered(APPLY_ACTIONS, Apply)
  {
  }

  lemma DeleteOrder()
    ensures WellOrdered(DELETE_ACTIONS, Delete)
  {
  }

  lemma ActionOrder(operation: Operation, manageServices: bool)
    ensures WellOrdered(Actions(operation, manageServices), operation)
  {
    match operation
    case Delete => DeleteOrder();
    case Reconcile =>
    case Apply =>
      ApplyOrder();
      ServicesFirst(APPLY_ACTIONS);
  }

  /** Which operation an action may occur in. */
  predicate BelongsTo(action: Action, operation: Operation) {
    match operation
    case Apply => !IsRemoval(action)
    case Delete => IsRemoval(action)
    case Reconcile => action == ObserveAll
  }

  predicate IsRemoval(action: Action) {
    match action
    case EnsureStopped | ReservationAbsent | RulesAbsent | VmAbsent | SeedAbsent | StorageAbsent | ObserveAbsent => true
    case _ => false
  }

  /**
    What every plan guarantees the executor: steps are numbered from one, agree on everything but sequence and
    action, never mix removal with creation, verify the image before filling storage from it, and end with the
    observation that the operation stands for.
   */
  predicate PlanOrdered(operation: Operation, steps: seq<StepInput>) {
    && |steps| >= 1
    && (forall i :: 0 <= i < |steps| ==>
          && steps[i].sequence == i + 1
          && steps[i].destroyStorage == (operation == Delete)
          && BelongsTo(steps[i].action, operation))
    && (forall i, j :: 0 <= i < |steps| && 0 <= j < |steps| ==> SameTarget(steps[i], steps[j]))
    && steps[|steps| - 1].action == (if operation == Delete then ObserveAbsent else ObserveAll)
    && (forall i :: 0 <= i < |steps| - 1 ==> !(steps[i].action in {ObserveAll, ObserveAbsent}))
    && (forall i :: 0 <= i < |steps| && steps[i].action == EnsureStorage ==> i > 0 && steps[i - 1].action == EnsureImage)
  }

  lemma PlanOrder(plan: Plan)
    requires WellPlanned(plan)
    ensures PlanOrdered(plan.operation, plan.steps)
  {
    var base: StepInput :| base.operation == plan.operation && base.destroyStorage == (plan.operation == Delete)
      && plan.steps == StepsOf(base, Actions(plan.operation, base.manageServices));
    ActionOrder(plan.operation, base.manageServices);
    StampedOrder(base, Actions(plan.operation, base.manageServices), plan.operation);
  }

  lemma StampedOrder(base: StepInput, actions: seq<Action>, operation: Operation)
    requires WellOrdered(actions, operation) && base.destroyStorage == (operation == Delete)
    ensures PlanOrdered(operation, StepsOf(base, actions))
  {
  }

  /** Two step inputs that differ at most in sequence number and action. */
  predicate SameTarget(a: StepInput, b: StepInput) {
    a.(sequence := b.sequence, action := b.action) == b
  }
}
