/**
  Whether an operation can still be completed: by one process that is left alone, while the drivers do what they can.
 */
module Progress {
  import opened Prelude
  import opened Text
  import opened Planner
  import opened Guests
  import opened Journal
  import opened Protocol
  import opened Invariant
  import opened Calls
  import Runs

  // ----- what an operation needs

  /** The input of the first step stands for the target of all. */
  function Target(row: OpRow): StepInput
    requires |row.plan.steps| > 0
  {
    row.plan.steps[0]
  }

  /**
    An apply needs that there is no volume or the right one, that a machine that is to be stopped is not named so that
    it always reads as running, an SSH key that is accepted, and a proper list of services where they are managed; a
    delete needs to find the machine defined, until its first step is done; a reconcile, which fetches nothing, needs
    to find everything, the verified image included, until it is done.
   */
  predicate CanComplete(row: OpRow, verified: set<string>, g: Guest)
    requires |row.plan.steps| > 0 && |row.steps| == |row.plan.steps|
  {
    var input := Target(row);
    match row.plan.operation
    case Apply =>
      && (g.zvol.Some? ==> VolumeMatches(input, g.zvol.value))
      && (input.spec.running || !Misread(input.resource))
      && KeyUsable(input.spec) && ServicesUsable(input)
    case Delete => Finished(row.steps[0]) || g.conf.Some?
    case Reconcile => Finished(row.steps[0]) || AllPresent(input, verified, g)
  }

  /** Where the actions of an apply stand, behind the managed services if there are any. */
  predicate ApplyPositions(steps: seq<StepInput>, shift: nat) {
    && |steps| == shift + 9 && (forall k :: 0 <= k < shift ==> steps[k].action == EnsureServices)
    && steps[shift].action == EnsureImage && steps[shift + 1].action == EnsureStorage
    && steps[shift + 2].action == EnsureSeed && steps[shift + 3].action == EnsureDefinition
    && steps[shift + 4].action == EnsureConfig && steps[shift + 5].action == EnsureReservation
    && steps[shift + 6].action == EnsureRules && steps[shift + 7].action == EnsurePower
    && steps[shift + 8].action == ObserveAll
  }

  lemma StepsHaveActions(base: StepInput, actions: seq<Action>)
    ensures HasActions(StepsOf(base, actions), actions)
  {
  }

  lemma PositionsWithoutServices(steps: seq<StepInput>)
    requires HasActions(steps, APPLY_ACTIONS)
    ensures ApplyPositions(steps, 0)
  {
  }

  lemma PositionsWithServices(steps: seq<StepInput>)
    requires HasActions(steps, [EnsureServices] + APPLY_ACTIONS)
    ensures ApplyPositions(steps, 1)
  {
    var actions := [EnsureServices] + APPLY_ACTIONS;
    assert actions == [EnsureServices, EnsureImage, EnsureStorage, EnsureSeed, EnsureDefinition, EnsureConfig,
                       EnsureReservation, EnsureRules, EnsurePower, ObserveAll];
  }

  lemma PlanHasActions(plan: Plan) returns (managed: bool)
    requires WellPlanned(plan)
    ensures HasActions(plan.steps, Actions(plan.operation, managed))
    ensures forall k :: 0 <= k < |plan.steps| ==> plan.steps[k].manageServices == managed
  {
    var base: StepInput :| plan.steps == StepsOf(base, Actions(plan.operation, base.manageServices));
    managed := base.manageServices;
    StepsHaveActions(base, Actions(plan.operation, managed));
  }

  lemma ApplyHasPositions(plan: Plan) returns (shift: nat)
    requires WellPlanned(plan) && plan.operation == Apply
    ensures ApplyPositions(plan.steps, shift) && (plan.steps[0].manageServices ==> shift > 0)
  {
    var managed := PlanHasActions(plan);
    if managed {
      PositionsWithServices(plan.steps);
      shift := 1;
    } else {
      PositionsWithoutServices(plan.steps);
      shift := 0;
    }
  }

  lemma DeletePositions(plan: Plan)
    requires WellPlanned(plan) && plan.operation == Delete
    ensures |plan.steps| == 7 && forall k :: 0 <= k < 7 ==> plan.steps[k].action == DELETE_ACTIONS[k]
  {
  }

  lemma ReconcilePositions(plan: Plan)
    requires WellPlanned(plan) && plan.operation == Reconcile
    ensures |plan.steps| == 1 && plan.steps[0].action == ObserveAll
  {
  }

  /** The postcondition of a finished step, said of the target of another. */
  lemma Earlier(row: OpRow, verified: set<string>, g: Guest, j: nat, i: nat)
    requires RowOk(row) && DoneHolds(row, verified, g) && j < |row.steps| && Finished(row.steps[j]) && i < |row.steps|
    ensures Satisfied(row.plan.steps[i].(action := row.plan.steps[j].action), verified, g)
  {
    PlanOrder(row.plan);
    SequenceDoesNotMatter(row.plan.steps[j], row.plan.steps[i].sequence, verified, g);
  }

  lemma SequenceDoesNotMatter(input: StepInput, sequence: nat, verified: set<string>, g: Guest)
    requires Satisfied(input, verified, g)
    ensures Satisfied(input.(sequence := sequence), verified, g)
  {
  }

  lemma SameTargets(row: OpRow, i: nat)
    requires RowOk(row) && i < |row.plan.steps|
    ensures |row.plan.steps| > 0 && SameTarget(Target(row), row.plan.steps[i])
  {
    PlanOrder(row.plan);
  }

  predicate AtStep(row: OpRow, i: nat) {
    i < |row.steps| && !Finished(row.steps[i]) && forall j :: 0 <= j < i ==> Finished(row.steps[j])
  }

  /** What the steps of an apply bring about is what its observation looks for. */
  lemma PartsArePresent(input: StepInput, verified: set<string>, g: Guest)
    requires Satisfied(input.(action := EnsureImage), verified, g)
    requires Satisfied(input.(action := EnsureStorage), verified, g) && Satisfied(input.(action := EnsureSeed), verified, g)
    requires Satisfied(input.(action := EnsureConfig), verified, g)
    requires Satisfied(input.(action := EnsureReservation), verified, g)
    requires Satisfied(input.(action := EnsureRules), verified, g) && Satisfied(input.(action := EnsurePower), verified, g)
    requires input.spec.running || !Misread(input.resource)
    ensures AllPresent(input, verified, g)
  {
    if input.manageAnchor {
      RulesMention(input.bridge, IpText(input.allocation.ip));
    }
  }

  lemma PartsAreAbsent(input: StepInput, verified: set<string>, g: Guest)
    requires Satisfied(input.(action := ReservationAbsent), verified, g)
    requires Satisfied(input.(action := RulesAbsent), verified, g) && Satisfied(input.(action := VmAbsent), verified, g)
    requires Satisfied(input.(action := SeedAbsent), verified, g) && Satisfied(input.(action := StorageAbsent), verified, g)
    ensures AllAbsent(input, g)
  {
  }

  lemma ApplyObserves(row: OpRow, shift: nat, verified: set<string>, g: Guest)
    requires RowOk(row) && ApplyPositions(row.plan.steps, shift) && DoneHolds(row, verified, g)
    requires forall j :: 0 <= j < shift + 8 ==> Finished(row.steps[j])
    requires row.plan.steps[shift + 8].spec.running || !Misread(row.plan.steps[shift + 8].resource)
    ensures Feasible(row.plan.steps[shift + 8], verified, g)
  {
    var i := shift + 8;
    Earlier(row, verified, g, shift, i);
    Earlier(row, verified, g, shift + 1, i);
    Earlier(row, verified, g, shift + 2, i);
    Earlier(row, verified, g, shift + 4, i);
    Earlier(row, verified, g, shift + 5, i);
    Earlier(row, verified, g, shift + 6, i);
    Earlier(row, verified, g, shift + 7, i);
    PartsArePresent(row.plan.steps[i], verified, g);
  }

  lemma ApplyPowers(row: OpRow, shift: nat, verified: set<string>, g: Guest)
    requires RowOk(row) && ApplyPositions(row.plan.steps, shift) && DoneHolds(row, verified, g)
    requires Finished(row.steps[shift + 4])
    ensures Feasible(row.plan.steps[shift + 7], verified, g)
  {
    Earlier(row, verified, g, shift + 4, shift + 7);
  }

  lemma ApplyStepFeasible(row: OpRow, i: nat, verified: set<string>, g: Guest)
    requires RowOk(row) && row.plan.operation == Apply && AtStep(row, i) && DoneHolds(row, verified, g)
    requires |row.plan.steps| > 0 && CanComplete(row, verified, g)
    ensures Feasible(row.plan.steps[i], verified, g)
  {
    var shift := ApplyHasPositions(row.plan);
    SameTargets(row, i);
    if i == shift + 7 {
      ApplyPowers(row, shift, verified, g);
    } else if i == shift + 8 {
      ApplyObserves(row, shift, verified, g);
    } else {
      OtherAction(row.plan.steps, shift, i);
      NeedsLittle(row.plan.steps[i], Target(row), verified, g);
    }
  }

  lemma OtherAction(steps: seq<StepInput>, shift: nat, i: nat)
    requires ApplyPositions(steps, shift) && i < |steps| && i != shift + 7 && i != shift + 8
    ensures steps[i].action !in {EnsurePower, EnsureStopped, StorageAbsent, ObserveAll, ObserveAbsent}
  {
    if i >= shift {
      var k := i - shift;
      assert k in {0, 1, 2, 3, 4, 5, 6};
    }
  }

  lemma NeedsLittle(input: StepInput, target: StepInput, verified: set<string>, g: Guest)
    requires SameTarget(target, input) && (g.zvol.Some? ==> VolumeMatches(target, g.zvol.value))
    requires KeyUsable(target.spec) && ServicesUsable(target)
    ensures input.action !in {EnsurePower, EnsureStopped, StorageAbsent, ObserveAll, ObserveAbsent} ==>
              Feasible(input, verified, g)
  {
  }

  lemma DestroyingIsAuthorised(plan: Plan, i: nat)
    requires WellPlanned(plan) && plan.operation == Delete && i < |plan.steps|
    ensures plan.steps[i].destroyStorage
  {
    PlanOrder(plan);
  }

  lemma DeleteStepFeasible(row: OpRow, i: nat, verified: set<string>, g: Guest)
    requires RowOk(row) && row.plan.operation == Delete && AtStep(row, i) && DoneHolds(row, verified, g)
    requires |row.plan.steps| > 0 && CanComplete(row, verified, g)
    ensures Feasible(row.plan.steps[i], verified, g)
  {
    DeletePositions(row.plan);
    DestroyingIsAuthorised(row.plan, i);
    assert row.plan.steps[i].action == DELETE_ACTIONS[i];
    if i == 6 {
      assert row.plan.steps[1].action == ReservationAbsent && row.plan.steps[2].action == RulesAbsent;
      Earlier(row, verified, g, 1, 6);
      Earlier(row, verified, g, 2, 6);
      assert row.plan.steps[3].action == VmAbsent && row.plan.steps[4].action == SeedAbsent;
      Earlier(row, verified, g, 3, 6);
      Earlier(row, verified, g, 4, 6);
      assert row.plan.steps[5].action == StorageAbsent;
      Earlier(row, verified, g, 5, 6);
      PartsAreAbsent(row.plan.steps[6], verified, g);
    }
  }

  /** While the operation can be completed, its next call can succeed. */
  lemma NextStepFeasible(row: OpRow, i: nat, verified: set<string>, g: Guest)
    requires RowOk(row) && AtStep(row, i) && DoneHolds(row, verified, g) && |row.plan.steps| > 0 && CanComplete(row, verified, g)
    ensures Feasible(row.plan.steps[i], verified, g)
  {
    match row.plan.operation
    case Apply => ApplyStepFeasible(row, i, verified, g);
    case Delete => DeleteStepFeasible(row, i, verified, g);
    case Reconcile => ReconcilePositions(row.plan);
  }

  lemma CreationKeepsCompletable(row: OpRow, i: nat, verified: set<string>, g: Guest)
    requires RowOk(row) && i < |row.steps| && row.plan.operation == Apply && |row.plan.steps| > 0
    requires Feasible(row.plan.steps[i], verified, g) && (g.zvol.Some? ==> VolumeMatches(Target(row), g.zvol.value))
    ensures var h := Achieved(row.plan.steps[i], g);
            h.zvol.Some? ==> VolumeMatches(Target(row), h.zvol.value)
  {
    PlanOrder(row.plan);
    SameTargets(row, i);
    assert BelongsTo(row.plan.steps[i].action, Apply);
  }

  /** ... and that keeps the operation completable. */
  lemma AchievedStaysCompletable(row: OpRow, next: OpRow, i: nat, verified: set<string>, g: Guest)
    requires RowOk(row) && AtStep(row, i) && |row.plan.steps| > 0 && CanComplete(row, verified, g)
    requires Feasible(row.plan.steps[i], verified, g)
    requires next.plan == row.plan && |next.steps| == |row.steps| && Finished(next.steps[i])
    requires forall j :: 0 <= j < i ==> Finished(next.steps[j])
    ensures CanComplete(next, Fetched(row.plan.steps[i], verified), Achieved(row.plan.steps[i], g))
  {
    SameTargets(row, i);
    match row.plan.operation
    case Apply => CreationKeepsCompletable(row, i, verified, g);
    case Delete =>
    case Reconcile => ReconcilePositions(row.plan);
  }
}
