/**
  The part of the host that belongs to one virtual machine, and what each driver action may do to it:
  internal/execution/system.go.

  `Touch` is everything an action may have done to a guest when it stops early, for whatever reason;
  `Satisfied` is the postcondition it has established when it reports success; `Effect` is the world one
  uninterrupted successful call of an apply action produces.  Module Drivers proves that the drivers keep
  within `Touch` and establish `Satisfied`.
 */
module Guests {
  import opened Prelude
  import opened Text
  import opened Planner

  datatype Content = Blank | Torn | Filled(image: Bytes)
  datatype Zvol = Zvol(size: int, content: Content, imageProperty: Option<Digest>)
  datatype SeedMarker = SeedMarker(source: Digest, iso: Digest)
  datatype VmConfig = VmConfig(loader: string, cpus: int, memoryMb: int, switch: string, mac: Mac, zvol: string)
  datatype Reservation = Reservation(subnet: int, mac: Mac, ip: Ip, hostname: string)
  datatype Rules = Rules(bridge: string, ip: Ip)

  datatype Guest = Guest(
    dataset: bool, zvol: Option<Zvol>,
    guestDir: bool, seed: Option<Bytes>, seedMarker: Option<SeedMarker>,
    conf: Option<VmConfig>, running: bool,
    reservations: map<(int, Mac), Reservation>,
    rules: Option<Rules>)

  /** The source text of the seed is hashed as a file content. */
  function SeedSource(input: StepInput): Bytes { Blob(input.spec.seedSource) }

  function SeedImage(input: StepInput): Bytes { Cd9660(input.spec.seedSource) }

  function DesiredMarker(input: StepInput): SeedMarker {
    SeedMarker(Sha256(SeedSource(input)), Sha256(SeedImage(input)))
  }

  function DesiredConfig(input: StepInput): VmConfig {
    VmConfig(input.image.loader, input.spec.cpus, input.spec.memoryMb, input.vmSwitch,
             input.allocation.mac, input.allocation.zvol)
  }

  function ReservationKey(input: StepInput): (int, Mac) {
    (input.allocation.subnet, input.allocation.mac)
  }

  function DesiredReservation(input: StepInput): Reservation {
    Reservation(input.allocation.subnet, input.allocation.mac, input.allocation.ip, input.resource)
  }

  function DesiredRules(input: StepInput): Rules { Rules(input.bridge, input.allocation.ip) }

  function VolumeSize(input: StepInput): int { input.spec.diskGb * 1024 * 1024 * 1024 }

  function DesiredZvol(input: StepInput): Zvol {
    Zvol(VolumeSize(input), Filled(RawImage(input)), Some(Sha256(RawImage(input))))
  }

  /** A seed is made without a key, or with an Ed25519 key; any other key is refused. */
  predicate IsEd25519(key: string) {
    HasPrefix(key, "ssh-ed25519 ") || HasPrefix(key, "sk-ssh-ed25519@openssh.com ")
  }

  predicate KeyUsable(spec: Spec) {
    spec.sshKey.NotGiven? || (spec.sshKey.Given? && IsEd25519(spec.sshKey.key))
  }

  /** ^[A-Za-z0-9_.-]+$ */
  predicate IsServiceName(name: string) {
    |name| > 0
    && forall c <- name :: 'A' <= c <= 'Z' || 'a' <= c <= 'z' || '0' <= c <= '9' || c == '_' || c == '.' || c == '-'
  }

  /** Managed services are named, every one of them properly. */
  predicate ServiceListOk(manage: bool, services: seq<string>) {
    manage ==> |services| > 0 && forall name <- services :: IsServiceName(name)
  }

  predicate ServicesUsable(input: StepInput) {
    ServiceListOk(input.manageServices, input.services)
  }

  // ----- what the tools print about a guest

  function RulesBefore(bridge: string): string { "pass in quick on " + bridge + " from" }

  function RulesBetween(bridge: string): string { "to any keep state\npass out quick on " + bridge + " to" }

  function RulesText(bridge: string, ip: string): string {
    RulesBefore(bridge) + " " + ip + " " + RulesBetween(bridge) + " " + ip + " " + "keep state\n"
  }

  function Listing(rules: Rules): string {
    RulesText(rules.bridge, IpText(rules.ip))
  }

  /** The rules are compared by looking for the address and the bridge in what pfctl lists. */
  predicate Mentioned(input: StepInput, rules: Rules) {
    Contains(Listing(rules), IpText(input.allocation.ip)) && Contains(Listing(rules), input.bridge)
  }

  /** The power state is read by looking for "running" in the line of `vm list`, which starts with the name. */
  predicate Misread(name: Name) {
    Contains(name, "running")
  }

  predicate ReadsRunning(name: Name, g: Guest) {
    g.running || Misread(name)
  }

  /** The seed is reused when its marker names the current source and the digest of the file beside it. */
  predicate SeedValid(input: StepInput, g: Guest) {
    && g.seedMarker.Some? && g.seedMarker.value.source == Sha256(SeedSource(input))
    && g.seed.Some? && Sha256(g.seed.value) == g.seedMarker.value.iso
  }

  predicate VolumeMatches(input: StepInput, zvol: Zvol) {
    zvol.size == VolumeSize(input) && zvol.imageProperty == Some(Sha256(RawImage(input)))
  }

  predicate ReservationMatches(input: StepInput, g: Guest) {
    ReservationKey(input) in g.reservations && g.reservations[ReservationKey(input)] == DesiredReservation(input)
  }

  /** A seed marker was written for what makefs makes of the source that it names. */
  predicate MarkerTruthful(marker: SeedMarker) {
    marker.source.of.Blob? && marker.iso == Sha256(Cd9660(marker.source.of.text))
  }

  /**
    Children have parents, a zvol its dataset, the seed and the configuration their directory; and the seed
    marker is truthful.
   */
  predicate GuestOk(g: Guest) {
    && (g.zvol.Some? ==> g.dataset)
    && (g.seed.Some? || g.conf.Some? ==> g.guestDir)
    && (g.seedMarker.Some? ==> MarkerTruthful(g.seedMarker.value))
  }

  /** A property that is set names the image the volume was filled with. */
  predicate IdentityTruthful(g: Guest) {
    g.zvol.Some? && g.zvol.value.imageProperty.Some? ==>
      g.zvol.value.content.Filled? && g.zvol.value.imageProperty.value == Sha256(g.zvol.value.content.image)
  }

  predicate AllAbsent(input: StepInput, g: Guest) {
    && g.conf.None? && g.zvol.None? && ReservationKey(input) !in g.reservations && g.seed.None?
    && (input.manageAnchor ==> g.rules.None?)
  }

  predicate AllPresent(input: StepInput, verified: set<string>, g: Guest) {
    && g.conf.Some? && g.zvol.Some? && ReservationKey(input) in g.reservations && g.seed.Some?
    && input.image.name in verified
    && (input.manageAnchor ==> g.rules.Some? && Mentioned(input, g.rules.value))
    && ReadsRunning(input.resource, g) == input.spec.running
  }

  // ----- what a call may leave behind

  /** A volume that exists is left alone; a new one is blank until it is filled, and marked only after that. */
  predicate VolumeTouch(input: StepInput, before: Option<Zvol>, after: Option<Zvol>) {
    if before.Some? then after == before
    else after.Some? ==>
      && after.value.size == VolumeSize(input)
      && after.value.content in {Blank, Torn, Filled(RawImage(input))}
      && (after.value.imageProperty.Some? ==> after.value == DesiredZvol(input))
  }

  /** New keys never appear, and the entry under `key` may change to `desired` or vanish. */
  ghost predicate ReservationTouch(input: StepInput, before: Guest, after: Guest) {
    var key := ReservationKey(input);
    && (forall k :: k != key ==>
          ((k in after.reservations <==> k in before.reservations)
           && (k in before.reservations ==> after.reservations[k] == before.reservations[k])))
    && (key in after.reservations ==>
          after.reservations[key] == DesiredReservation(input)
          || (key in before.reservations && after.reservations[key] == before.reservations[key]))
    && (ReservationMatches(input, before) ==> ReservationMatches(input, after))
  }

  /** The marker is written after the file that it vouches for. */
  predicate SeedTouch(input: StepInput, before: Guest, after: Guest) {
    && (after.seed == before.seed || after.seed == Some(SeedImage(input)))
    && (after.seedMarker == before.seedMarker
        || (after.seedMarker == Some(DesiredMarker(input)) && after.seed == Some(SeedImage(input))))
  }

  predicate Kept<T(==)>(before: Option<T>, after: Option<T>) {
    after == before || after.None?
  }

  predicate StorageTouch(input: StepInput, g: Guest, h: Guest) {
    && h == g.(dataset := h.dataset, zvol := h.zvol)
    && (g.dataset ==> h.dataset) && (GuestOk(g) ==> GuestOk(h))
    && VolumeTouch(input, g.zvol, h.zvol)
  }

  predicate SeedStepTouch(input: StepInput, g: Guest, h: Guest) {
    && h == g.(guestDir := h.guestDir, seed := h.seed, seedMarker := h.seedMarker)
    && (g.guestDir ==> h.guestDir) && (GuestOk(g) ==> GuestOk(h))
    && SeedTouch(input, g, h)
  }

  predicate ConfigTouch(input: StepInput, g: Guest, h: Guest) {
    && h == g.(guestDir := h.guestDir, conf := h.conf)
    && (g.guestDir ==> h.guestDir) && (GuestOk(g) ==> GuestOk(h))
    && (h.conf == g.conf || h.conf == Some(DesiredConfig(input)))
  }

  /** Destroying a machine may remove any part of its directory, but stops it first. */
  predicate VmRemovalTouch(g: Guest, h: Guest) {
    && h == g.(guestDir := h.guestDir, seed := h.seed, seedMarker := h.seedMarker, conf := h.conf, running := h.running)
    && Kept(g.seed, h.seed) && Kept(g.seedMarker, h.seedMarker) && Kept(g.conf, h.conf)
    && (h.running ==> g.running) && (h.guestDir ==> g.guestDir) && (GuestOk(g) ==> GuestOk(h))
  }

  predicate SeedRemovalTouch(g: Guest, h: Guest) {
    && h == g.(seed := h.seed, seedMarker := h.seedMarker)
    && Kept(g.seed, h.seed) && Kept(g.seedMarker, h.seedMarker)
  }

  predicate StorageRemovalTouch(g: Guest, h: Guest) {
    && h == g.(dataset := h.dataset, zvol := h.zvol)
    && Kept(g.zvol, h.zvol) && (h.dataset ==> g.dataset) && (GuestOk(g) ==> GuestOk(h))
  }

  ghost predicate Touch(input: StepInput, g: Guest, h: Guest) {
    match input.action
    case EnsureServices | EnsureImage | ObserveAll | ObserveAbsent => h == g
    case EnsureStorage => StorageTouch(input, g, h)
    case EnsureSeed => SeedStepTouch(input, g, h)
    case EnsureDefinition => h == g.(guestDir := h.guestDir) && (g.guestDir ==> h.guestDir)
    case EnsureConfig => ConfigTouch(input, g, h)
    case EnsureReservation => h == g.(reservations := h.reservations) && ReservationTouch(input, g, h)
    case EnsureRules => h == g || (input.manageAnchor && h == g.(rules := Some(DesiredRules(input))))
    case EnsurePower =>
      h == g || (g.conf.Some? && h == g.(running := input.spec.running) && (input.spec.running ==> !Misread(input.resource)))
    case EnsureStopped => h == g || (g.conf.Some? && h == g.(running := false))
    case ReservationAbsent => h == g || h == g.(reservations := g.reservations - {ReservationKey(input)})
    case RulesAbsent => h == g || (input.manageAnchor && h == g.(rules := None))
    case VmAbsent => VmRemovalTouch(g, h)
    case SeedAbsent => SeedRemovalTouch(g, h)
    case StorageAbsent => StorageRemovalTouch(g, h)
  }

  /** What holds of the guest, and of the set of verified images, after a successful call. */
  predicate Satisfied(input: StepInput, verified: set<string>, g: Guest) {
    match input.action
    case EnsureServices => ServicesUsable(input)
    case EnsureImage => input.image.name in verified
    case EnsureStorage => g.dataset && g.zvol.Some? && VolumeMatches(input, g.zvol.value)
    case EnsureSeed => g.guestDir && SeedValid(input, g) && KeyUsable(input.spec)
    case EnsureDefinition => g.guestDir
    case EnsureConfig => g.guestDir && g.conf == Some(DesiredConfig(input))
    case EnsureReservation => ReservationMatches(input, g)
    case EnsureRules => input.manageAnchor ==> g.rules == Some(DesiredRules(input))
    case EnsurePower => g.conf.Some? && if input.spec.running then ReadsRunning(input.resource, g) else !g.running
    case ObserveAll => AllPresent(input, verified, g)
    case EnsureStopped => !g.running
    case ReservationAbsent => ReservationKey(input) !in g.reservations
    case RulesAbsent => input.manageAnchor ==> g.rules.None?
    case VmAbsent => g.conf.None?
    case SeedAbsent => g.seed.None? && g.seedMarker.None?
    case StorageAbsent => !g.dataset && g.zvol.None? && input.destroyStorage
    case ObserveAbsent => AllAbsent(input, g)
  }

  /** The world one uninterrupted, successful call of an apply or reconcile action produces. */
  function Effect(input: StepInput, g: Guest): Guest
    requires !IsRemoval(input.action)
  {
    match input.action
    case EnsureServices | EnsureImage | ObserveAll => g
    case EnsureStorage =>
      g.(dataset := true, zvol := if g.zvol.Some? then g.zvol else Some(DesiredZvol(input)))
    case EnsureSeed =>
      g.(guestDir := true, seed := Some(SeedImage(input)), seedMarker := Some(DesiredMarker(input)))
    case EnsureDefinition => g.(guestDir := true)
    case EnsureConfig => g.(guestDir := true, conf := Some(DesiredConfig(input)))
    case EnsureReservation => g.(reservations := g.reservations[ReservationKey(input) := DesiredReservation(input)])
    case EnsureRules => if input.manageAnchor then g.(rules := Some(DesiredRules(input))) else g
    case EnsurePower => if input.spec.running && Misread(input.resource) then g else g.(running := input.spec.running)
  }

  // ----- what a call reports

  datatype Presence = Unknown | Unavailable | NotPresent | Present
  datatype PowerState = PowerUnavailable | PowerAbsent | PowerRunning | PowerStopped

  /** `plan` is the plan digest that the executor adds; `failed` says that an error code is recorded. */
  datatype Observation = Observation(vm: Presence, storage: Presence, kea: Presence, seed: Presence,
                                     image: Presence, pf: Presence, power: PowerState, failed: bool,
                                     plan: Option<Plan>)

  /** The value and the error of Driver.Ensure; `blocked` says that the error wraps ErrBlocked. */
  datatype Result = Result(ok: bool, blocked: bool, skipped: bool, evidence: string,
                           observation: Option<Observation>)

  predicate Reports(presence: Presence, there: bool) {
    presence == if there then Present else NotPresent
  }

  /** An observation without an error code says exactly what is there. */
  predicate Truthful(input: StepInput, verified: set<string>, g: Guest, o: Observation) {
    !o.failed ==>
      && Reports(o.vm, g.conf.Some?) && Reports(o.storage, g.zvol.Some?)
      && Reports(o.kea, ReservationKey(input) in g.reservations) && Reports(o.seed, g.seed.Some?)
      && (o.image == Present ==> input.image.name in verified)
      && (if input.manageAnchor then Reports(o.pf, g.rules.Some?) else o.pf == Unknown)
      && o.power == (if g.conf.None? then PowerAbsent
                     else if ReadsRunning(input.resource, g) then PowerRunning else PowerStopped)
  }

  predicate IsObservation(action: Action) {
    action == ObserveAll || action == ObserveAbsent
  }

  /** What the site leaves to others is skipped: a call that is skipped has succeeded without doing anything. */
  predicate Unmanaged(input: StepInput) {
    match input.action
    case EnsureServices => !input.manageServices
    case EnsureRules | RulesAbsent => !input.manageAnchor
    case _ => false
  }

  /** What Driver.Ensure promises about the world it leaves and the result it returns. */
  predicate Contract(input: StepInput, verified: set<string>, g: Guest, result: Result) {
    && (result.ok ==> Satisfied(input, verified, g))
    && (result.skipped <==> Unmanaged(input)) && (result.skipped ==> result.ok)
    && (result.ok && (input.action == EnsurePower || input.action == EnsureStopped) ==> g.conf.Some?)
    && (result.observation.Some? ==>
          IsObservation(input.action) && Truthful(input, verified, g, result.observation.value))
    && (result.ok && IsObservation(input.action) ==>
          result.observation.Some? && !result.observation.value.failed)
  }

  /** The evidence that must be on record before an allocation is released. */
  predicate ReportsAbsence(input: StepInput, o: Observation) {
    && !o.failed && o.vm == NotPresent && o.storage == NotPresent && o.kea == NotPresent && o.seed == NotPresent
    && (input.manageAnchor ==> o.pf == NotPresent)
  }

  predicate ReportsPresence(input: StepInput, o: Observation) {
    && !o.failed && o.vm == Present && o.storage == Present && o.kea == Present && o.seed == Present
    && (input.manageAnchor ==> o.pf == Present)
    && o.power == if input.spec.running then PowerRunning else PowerStopped
  }

  lemma SuccessfulObservation(input: StepInput, verified: set<string>, g: Guest, result: Result)
    requires Contract(input, verified, g, result) && result.ok && IsObservation(input.action)
    ensures if input.action == ObserveAbsent then ReportsAbsence(input, result.observation.value)
            else ReportsPresence(input, result.observation.value)
  {
  }

  // ----- the laws that make resuming sound

  lemma TouchReflexive(input: StepInput, g: Guest)
    ensures Touch(input, g, g)
  {
  }

  /** Any number of interrupted calls of one action has done no more than one interrupted call may do. */
  lemma TouchTransitive(input: StepInput, g: Guest, h: Guest, k: Guest)
    requires Touch(input, g, h) && Touch(input, h, k)
    ensures Touch(input, g, k)
  {
    if input.action in {EnsureStorage, EnsureSeed, EnsureConfig, EnsureReservation} {
      FileTouchTransitive(input, g, h, k);
    } else if IsRemoval(input.action) {
      RemovalTouchTransitive(input, g, h, k);
    }
  }

  lemma FileTouchTransitive(input: StepInput, g: Guest, h: Guest, k: Guest)
    requires input.action in {EnsureStorage, EnsureSeed, EnsureConfig, EnsureReservation}
    requires Touch(input, g, h) && Touch(input, h, k)
    ensures Touch(input, g, k)
  {
    match input.action
    case EnsureStorage => StorageTouchTransitive(input, g, h, k);
    case EnsureSeed => SeedTouchTransitive(input, g, h, k);
    case EnsureConfig => ConfigTouchTransitive(input, g, h, k);
    case EnsureReservation => ReservationTouchTransitive(input, g, h, k);
  }

  lemma RemovalTouchTransitive(input: StepInput, g: Guest, h: Guest, k: Guest)
    requires IsRemoval(input.action)
    requires Touch(input, g, h) && Touch(input, h, k)
    ensures Touch(input, g, k)
  {
    match input.action
    case EnsureStopped =>
    case ReservationAbsent =>
      var key := ReservationKey(input);
      assert g.reservations - {key} - {key} == g.reservations - {key};
    case RulesAbsent =>
    case VmAbsent => VmRemovalTransitive(g, h, k);
    case SeedAbsent => SeedRemovalTransitive(g, h, k);
    case StorageAbsent => StorageRemovalTransitive(g, h, k);
    case ObserveAbsent =>
  }

  lemma StorageTouchTransitive(input: StepInput, g: Guest, h: Guest, k: Guest)
    requires StorageTouch(input, g, h) && StorageTouch(input, h, k)
    ensures StorageTouch(input, g, k)
  {
  }

  lemma SeedTouchTransitive(input: StepInput, g: Guest, h: Guest, k: Guest)
    requires SeedStepTouch(input, g, h) && SeedStepTouch(input, h, k)
    ensures SeedStepTouch(input, g, k)
  {
  }

  lemma ConfigTouchTransitive(input: StepInput, g: Guest, h: Guest, k: Guest)
    requires ConfigTouch(input, g, h) && ConfigTouch(input, h, k)
    ensures ConfigTouch(input, g, k)
  {
  }

  lemma ReservationTouchTransitive(input: StepInput, g: Guest, h: Guest, k: Guest)
    requires ReservationTouch(input, g, h) && ReservationTouch(input, h, k)
    ensures ReservationTouch(input, g, k)
  {
  }

  lemma VmRemovalTransitive(g: Guest, h: Guest, k: Guest)
    requires VmRemovalTouch(g, h) && VmRemovalTouch(h, k)
    ensures VmRemovalTouch(g, k)
  {
  }

  lemma SeedRemovalTransitive(g: Guest, h: Guest, k: Guest)
    requires SeedRemovalTouch(g, h) && SeedRemovalTouch(h, k)
    ensures SeedRemovalTouch(g, k)
  {
  }

  lemma StorageRemovalTransitive(g: Guest, h: Guest, k: Guest)
    requires StorageRemovalTouch(g, h) && StorageRemovalTouch(h, k)
    ensures StorageRemovalTouch(g, k)
  {
  }

  /** However often an apply action was interrupted before, its success leaves the world of a single call. */
  lemma SuccessAbsorbsInterruptions(input: StepInput, verified: set<string>, g: Guest, h: Guest)
    requires !IsRemoval(input.action)
    requires Touch(input, g, h) && Satisfied(input, verified, h) && GuestOk(h)
    ensures h == Effect(input, g)
  {
    if input.action == EnsureReservation {
      assert h.reservations == g.reservations[ReservationKey(input) := DesiredReservation(input)];
    }
  }

  lemma CreationKeeps(next: StepInput, g: Guest, h: Guest)
    requires !IsRemoval(next.action) && Touch(next, g, h) && GuestOk(g)
    ensures g.dataset ==> h.dataset
    ensures g.zvol.Some? ==> h.zvol == g.zvol
    ensures g.guestDir ==> h.guestDir
    ensures SeedValid(next, g) ==> SeedValid(next, h)
    ensures h.conf == g.conf || h.conf == Some(DesiredConfig(next))
    ensures h.running == g.running || h.running == next.spec.running
    ensures h.rules == g.rules || h.rules == Some(DesiredRules(next))
    ensures ReservationMatches(next, g) ==> ReservationMatches(next, h)
  {
  }

  lemma RemovalKeeps(next: StepInput, g: Guest, h: Guest)
    requires IsRemoval(next.action) && Touch(next, g, h)
    ensures h.dataset ==> g.dataset
    ensures Kept(g.zvol, h.zvol) && Kept(g.seed, h.seed) && Kept(g.seedMarker, h.seedMarker)
    ensures Kept(g.conf, h.conf) && Kept(g.rules, h.rules)
    ensures h.running ==> g.running
    ensures ReservationKey(next) !in g.reservations ==> ReservationKey(next) !in h.reservations
  {
  }

  /** No call of an operation undoes what an earlier or equal step of the same operation established. */
  lemma SatisfiedIsStable(done: StepInput, next: StepInput, verified: set<string>, g: Guest, h: Guest)
    requires SameTarget(done, next)
    requires IsRemoval(done.action) == IsRemoval(next.action)
    requires Satisfied(done, verified, g) && Touch(next, g, h) && GuestOk(g)
    requires done.action !in {ObserveAll, ObserveAbsent} || next.action == done.action
    ensures Satisfied(done, verified, h)
  {
    if IsRemoval(next.action) {
      RemovalKeeps(next, g, h);
    } else {
      CreatedIsStable(done, next, verified, g, h);
    }
  }

  lemma CreatedIsStable(done: StepInput, next: StepInput, verified: set<string>, g: Guest, h: Guest)
    requires SameTarget(done, next) && !IsRemoval(done.action) && !IsRemoval(next.action)
    requires Satisfied(done, verified, g) && Touch(next, g, h) && GuestOk(g)
    requires done.action == ObserveAll ==> next.action == ObserveAll
    ensures Satisfied(done, verified, h)
  {
    CreationKeeps(next, g, h);
    if done.action == ObserveAll {
      assert h == g;
    } else {
      assert SeedValid(done, h) == SeedValid(next, h) && SeedValid(done, g) == SeedValid(next, g);
      assert ReservationMatches(done, h) == ReservationMatches(next, h);
      assert ReservationMatches(done, g) == ReservationMatches(next, g);
      assert DesiredConfig(done) == DesiredConfig(next) && DesiredRules(done) == DesiredRules(next);
    }
  }

  lemma MoreImagesKeepSatisfied(input: StepInput, verified: set<string>, more: set<string>, g: Guest)
    requires verified <= more && Satisfied(input, verified, g)
    ensures Satisfied(input, more, g)
  {
  }

  lemma TouchKeepsGuestOk(input: StepInput, g: Guest, h: Guest)
    requires GuestOk(g) && Touch(input, g, h)
    ensures GuestOk(h)
  {
  }

  lemma TouchKeepsIdentityTruthful(input: StepInput, g: Guest, h: Guest)
    requires IdentityTruthful(g) && Touch(input, g, h)
    ensures IdentityTruthful(h)
  {
  }

  // ----- any number of calls

  /** Worlds that calls lead through, each interrupted or not. */
  ghost predicate CallsLead(inputs: seq<StepInput>, worlds: seq<Guest>) {
    |worlds| == |inputs| + 1 && forall k :: 0 <= k < |inputs| ==> Touch(inputs[k], worlds[k], worlds[k + 1])
  }

  /**
    Storage identity.  However many calls are made and wherever each is cut off, an image property that is set names
    the image that the volume was filled with; and until a removal, a volume that is there is never written again.
   */
  lemma StorageIdentity(inputs: seq<StepInput>, worlds: seq<Guest>, i: nat)
    requires CallsLead(inputs, worlds) && i < |worlds| && IdentityTruthful(worlds[0])
    ensures IdentityTruthful(worlds[i])
    ensures (forall k :: 0 <= k < i ==> !IsRemoval(inputs[k].action)) && worlds[0].zvol.Some? ==>
              worlds[i].zvol == worlds[0].zvol
  {
    if i > 0 {
      StorageIdentity(inputs, worlds, i - 1);
      var g, h := worlds[i - 1], worlds[i - 1 + 1];
      assert Touch(inputs[i - 1], g, h);
      TouchKeepsIdentityTruthful(inputs[i - 1], g, h);
      if !IsRemoval(inputs[i - 1].action) { CreationKeepsVolume(inputs[i - 1], g, h); }
    }
  }

  lemma CreationKeepsVolume(input: StepInput, g: Guest, h: Guest)
    requires !IsRemoval(input.action) && Touch(input, g, h)
    ensures g.zvol.Some? ==> h.zvol == g.zvol
  {
  }

  /**
    Nothing repairs a volume that was created but not marked: no call of any apply makes the storage step succeed
    until a delete has removed it.
   */
  lemma UnmarkedVolumeBlocks(inputs: seq<StepInput>, worlds: seq<Guest>, i: nat, input: StepInput, verified: set<string>)
    requires CallsLead(inputs, worlds) && i < |worlds| && input.action == EnsureStorage
    requires IdentityTruthful(worlds[0]) && worlds[0].zvol.Some? && worlds[0].zvol.value.imageProperty.None?
    requires forall k :: 0 <= k < i ==> !IsRemoval(inputs[k].action)
    ensures !Satisfied(input, verified, worlds[i])
  {
    StorageIdentity(inputs, worlds, i);
  }

  // ----- what the textual comparisons do not tell

  /**
    A successful power step means that the machine has the declared power state, unless it is to run and its own
    name contains "running": such a machine always reads as running and is never started.
   */
  lemma PowerIsTruthful(input: StepInput, verified: set<string>)
    requires input.action == EnsurePower
    ensures (forall g :: Satisfied(input, verified, g) ==> g.running == input.spec.running)
            <==> !(input.spec.running && Misread(input.resource))
  {
    if input.spec.running && Misread(input.resource) {
      var g := Guest(false, None, true, None, None, Some(DesiredConfig(input)), false, map[], None);
      assert Satisfied(input, verified, g) && !g.running;
    }
  }

  lemma RulesHaveDotsInAddresses(bridge: string)
    requires Lacks(bridge, '.')
    ensures Lacks(RulesBefore(bridge), '.') && Lacks(RulesBetween(bridge), '.') && Lacks("keep state\n", '.')
  {
    LacksBoth("pass in quick on ", bridge, '.');
    LacksBoth("pass in quick on " + bridge, " from", '.');
    LacksBoth("to any keep state\npass out quick on ", bridge, '.');
    LacksBoth("to any keep state\npass out quick on " + bridge, " to", '.');
  }

  /** What pfctl lists for a bridge without a dot mentions an address exactly when it is part of the address listed. */
  lemma ListedAddress(bridge: string, listed: Ip, ip: Ip)
    requires Lacks(bridge, '.')
    ensures Contains(Listing(Rules(bridge, listed)), IpText(ip)) <==> Contains(IpText(listed), IpText(ip))
  {
    RulesHaveDotsInAddresses(bridge);
    IpTextShape(ip);
    OccursInWords(RulesBefore(bridge), IpText(listed), RulesBetween(bridge), "keep state\n", IpText(ip));
  }

  /**
    The comparison accepts the rules of an address on the machine's bridge exactly when the text of that address
    contains the text of the machine's own.
   */
  lemma RulesAreMatchedByText(input: StepInput, listed: Ip)
    requires Lacks(input.bridge, '.')
    ensures Mentioned(input, Rules(input.bridge, listed)) <==> Contains(IpText(listed), IpText(input.allocation.ip))
  {
    ListedAddress(input.bridge, listed, input.allocation.ip);
    RulesMention(input.bridge, IpText(listed));
  }

  /** So it singles out the declared rules exactly when no other address in use contains this one's text. */
  lemma RulesAreSingledOut(input: StepInput, used: set<Ip>)
    requires Lacks(input.bridge, '.')
    ensures (forall ip <- used :: Mentioned(input, Rules(input.bridge, ip)) ==> Rules(input.bridge, ip) == DesiredRules(input))
            <==> forall ip <- used :: Contains(IpText(ip), IpText(input.allocation.ip)) ==> ip == input.allocation.ip
  {
    forall ip | ip in used
      ensures Mentioned(input, Rules(input.bridge, ip)) <==> Contains(IpText(ip), IpText(input.allocation.ip))
    {
      RulesAreMatchedByText(input, ip);
    }
  }

  /** The rules of 10.0.0.10 pass for those of 10.0.0.1. */
  lemma RulesOfAnotherAddressPass(input: StepInput)
    requires Lacks(input.bridge, '.') && input.allocation.ip == 0x0A00_0001
    ensures Mentioned(input, Rules(input.bridge, 0x0A00_000A)) && Rules(input.bridge, 0x0A00_000A) != DesiredRules(input)
  {
    RulesAreMatchedByText(input, 0x0A00_000A);
    NestedAddresses();
  }

  lemma Octets(ip: Ip, last: nat)
    requires last < 256 && ip == 0x0A00_0000 + last
    ensures ip / 0x100_0000 == 10 && ip / 0x1_0000 % 0x100 == 0 && ip / 0x100 % 0x100 == 0 && ip % 0x100 == last
  {
  }

  lemma TextOfTens(last: nat)
    requires last < 256
    ensures IpText(0x0A00_0000 + last) == Decimal(10) + "." + Decimal(0) + "." + Decimal(0) + "." + Decimal(last)
  {
    Octets(0x0A00_0000 + last, last);
  }

  lemma NestedAddresses()
    ensures Contains(IpText(0x0A00_000A), IpText(0x0A00_0001))
  {
    var front := Decimal(10) + "." + Decimal(0) + "." + Decimal(0) + ".";
    TextOfTens(1);
    TextOfTens(10);
    assert Decimal(10) == Decimal(1) + "0";
    assert front + Decimal(10) == [] + (front + Decimal(1)) + "0";
    MiddleIsContained([], front + Decimal(1), "0");
  }

  lemma RulesMention(bridge: string, ip: string)
    ensures Contains(RulesText(bridge, ip), ip) && Contains(RulesText(bridge, ip), bridge)
  {
    assert OccursAt(ip, ip, 0);
    PiecesAreContained(RulesBefore(bridge), ip, RulesBetween(bridge), "keep state\n", ip);
    MiddleIsContained("pass in quick on ", bridge, " from");
    PiecesAreContained(RulesBefore(bridge), ip, RulesBetween(bridge), "keep state\n", bridge);
  }
}
