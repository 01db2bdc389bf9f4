/**
  What a driver call needs to find in order to succeed, and what it brings about when nothing fails on the way.
 */
module Calls {
  import opened Prelude
  import opened Text
  import opened Planner
  import opened Guests

  /** The guest after a successful call that does everything its action is for. */
  function Achieved(input: StepInput, g: Guest): Guest {
    match input.action
    case EnsureStopped => g.(running := false)
    case ReservationAbsent => g.(reservations := g.reservations - {ReservationKey(input)})
    case RulesAbsent => if input.manageAnchor then g.(rules := None) else g
    case VmAbsent =>
      if g.conf.None? then g
      else g.(guestDir := false, seed := None, seedMarker := None, conf := None, running := false)
    case SeedAbsent => g.(seed := None, seedMarker := None)
    case StorageAbsent => g.(dataset := false, zvol := None)
    case ObserveAbsent => g
    case _ => Effect(input, g)
  }

  function ReportOf(there: bool): Presence {
    if there then Present else NotPresent
  }

  function ObservationOf(input: StepInput, verified: set<string>, g: Guest): Observation {
    Observation(ReportOf(g.conf.Some?), ReportOf(g.zvol.Some?), ReportOf(ReservationKey(input) in g.reservations),
                ReportOf(g.seed.Some?), ReportOf(input.image.name in verified),
                if input.manageAnchor then ReportOf(g.rules.Some?) else Unknown,
                if g.conf.None? then PowerAbsent else if ReadsRunning(input.resource, g) then PowerRunning else PowerStopped,
                false, None)
  }

  function SuccessOf(input: StepInput, verified: set<string>, g: Guest): Result {
    Result(true, false, Unmanaged(input), "",
           if IsObservation(input.action) then Some(ObservationOf(input, verified, g)) else None)
  }

  /** What a call needs to find in order to succeed; the call that fetches an image needs nothing. */
  predicate Feasible(input: StepInput, verified: set<string>, g: Guest) {
    match input.action
    case EnsureServices => ServicesUsable(input)
    case EnsureStorage => g.zvol.Some? ==> VolumeMatches(input, g.zvol.value)
    case EnsureSeed => KeyUsable(input.spec)
    case EnsurePower => g.conf.Some?
    case EnsureStopped => g.conf.Some?
    case StorageAbsent => input.destroyStorage
    case ObserveAll => AllPresent(input, verified, g)
    case ObserveAbsent => AllAbsent(input, g)
    case _ => true
  }

  /** What makes a driver refuse and not merely fail: the operator has to act before a repetition can help. */
  predicate IsBlocked(input: StepInput, g: Guest) {
    match input.action
    case EnsureServices => !ServicesUsable(input)
    case EnsureStorage => g.zvol.Some? && !VolumeMatches(input, g.zvol.value)
    case EnsureSeed => input.spec.sshKey.Given? && !IsEd25519(input.spec.sshKey.key)
    case EnsurePower | EnsureStopped => g.conf.None?
    case StorageAbsent => !input.destroyStorage
    case _ => false
  }

  /** The images that verify once a call has done its work: only one action fetches an image. */
  function Fetched(input: StepInput, verified: set<string>): set<string> {
    if input.action == EnsureImage then verified + {input.image.name} else verified
  }

  lemma AchievedRemovalTouches(input: StepInput, verified: set<string>, g: Guest)
    requires GuestOk(g) && Feasible(input, verified, g) && IsRemoval(input.action)
    ensures Touch(input, g, Achieved(input, g))
  {
  }

  lemma AchievedCreationTouches(input: StepInput, verified: set<string>, g: Guest)
    requires GuestOk(g) && Feasible(input, verified, g) && !IsRemoval(input.action)
    ensures Touch(input, g, Achieved(input, g))
  {
    match input.action
    case EnsureReservation => ReservationAdded(input, g);
    case EnsureStorage => StorageAdded(input, g);
    case EnsureSeed | EnsureConfig | EnsureDefinition =>
    case _ =>
  }

  lemma StorageAdded(input: StepInput, g: Guest)
    requires GuestOk(g) && input.action == EnsureStorage
    ensures StorageTouch(input, g, Achieved(input, g))
  {
  }

  lemma AchievedRemovalSatisfies(input: StepInput, verified: set<string>, g: Guest)
    requires GuestOk(g) && Feasible(input, verified, g) && IsRemoval(input.action)
    ensures Satisfied(input, verified, Achieved(input, g))
    ensures input.action == EnsureStopped ==> Achieved(input, g).conf.Some?
  {
  }

  lemma AchievedCreationSatisfies(input: StepInput, verified: set<string>, g: Guest)
    requires GuestOk(g) && Feasible(input, verified, g) && !IsRemoval(input.action)
    requires input.action == EnsureImage ==> input.image.name in verified
    ensures Satisfied(input, verified, Achieved(input, g))
    ensures input.action == EnsurePower ==> Achieved(input, g).conf.Some?
  {
  }

  lemma ObservationIsTruthful(input: StepInput, verified: set<string>, g: Guest)
    ensures Truthful(input, verified, g, ObservationOf(input, verified, g))
  {
  }

  lemma FeasibleCallSucceeds(input: StepInput, verified: set<string>, g: Guest)
    requires GuestOk(g) && Feasible(input, verified, g)
    ensures Touch(input, g, Achieved(input, g))
    ensures Contract(input, Fetched(input, verified), Achieved(input, g),
                     SuccessOf(input, Fetched(input, verified), Achieved(input, g)))
  {
    if IsRemoval(input.action) {
      AchievedRemovalTouches(input, verified, g);
      AchievedRemovalSatisfies(input, verified, g);
    } else {
      AchievedCreationTouches(input, verified, g);
      AchievedCreationSatisfies(input, Fetched(input, verified), g);
    }
    ObservationIsTruthful(input, Fetched(input, verified), Achieved(input, g));
  }

  lemma ReservationAdded(input: StepInput, g: Guest)
    ensures ReservationTouch(input, g, g.(reservations := g.reservations[ReservationKey(input) := DesiredReservation(input)]))
  {
  }

  /** A call can succeed, now or after cut-off attempts, if and only if it finds what it needs. */
  lemma CallCanSucceed(input: StepInput, verified: set<string>, g: Guest)
    requires GuestOk(g)
    ensures (exists h, result :: Touch(input, g, h) && Contract(input, Fetched(input, verified), h, result) && result.ok)
            <==> Feasible(input, verified, g)
  {
    var after := Fetched(input, verified);
    if Feasible(input, verified, g) {
      FeasibleCallSucceeds(input, verified, g);
      assert SuccessOf(input, after, Achieved(input, g)).ok;
    }
    forall h, result | Touch(input, g, h) && Contract(input, after, h, result) && result.ok
      ensures Feasible(input, verified, g)
    {
      SuccessNeedsFeasible(input, verified, g, h, result);
    }
  }

  lemma SuccessNeedsFeasible(input: StepInput, verified: set<string>, g: Guest, h: Guest, result: Result)
    requires GuestOk(g) && Touch(input, g, h) && Contract(input, Fetched(input, verified), h, result) && result.ok
    ensures Feasible(input, verified, g)
  {
  }
}
