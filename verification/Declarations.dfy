/**
  What the rows of every reachable state say about declarations, allocations and failures, field by field, and what a
  machine looks like when its operation has succeeded.  Nothing here is said in terms of the functions that compute
  plans, rows or desired worlds.
 */
module Declarations {
  import opened Prelude
  import opened Text
  import opened Planner
  import opened Guests
  import opened Journal
  import opened Protocol
  import opened Invariant
  import opened Runs
  import opened Changes
  import Preservation

  // ----- plans

  /** The actions of an operation in their order. */
  predicate ActionsOfOperation(operation: Operation, manageServices: bool, steps: seq<StepInput>) {
    match operation
    case Apply =>
      HasActions(steps,
                 if manageServices
                 then [EnsureServices, EnsureImage, EnsureStorage, EnsureSeed, EnsureDefinition, EnsureConfig,
                       EnsureReservation, EnsureRules, EnsurePower, ObserveAll]
                 else [EnsureImage, EnsureStorage, EnsureSeed, EnsureDefinition, EnsureConfig,
                       EnsureReservation, EnsureRules, EnsurePower, ObserveAll])
    case Delete =>
      HasActions(steps, [EnsureStopped, ReservationAbsent, RulesAbsent, VmAbsent, SeedAbsent, StorageAbsent, ObserveAbsent])
    case Reconcile => HasActions(steps, [ObserveAll])
  }

  /** The allocation that a plan works with is that of its first step: all its steps agree. */
  function AllocationOf(plan: Plan): Option<Allocation> {
    if |plan.steps| == 0 then None else Some(plan.steps[0].allocation)
  }

  /** A plan is for a declared generation and for a manifest in order, and all its steps hold the site's settings. */
  predicate PlanLawful(site: Site, name: Name, specs: map<nat, Spec>, plan: Plan) {
    && plan.generation in specs && specs[plan.generation] == plan.spec
    && ManifestOk(name, plan.spec) && plan.spec.pool in site.pools && plan.spec.image in site.images
    && |plan.steps| > 0
    && PlansFor(plan, site, plan.operation, name, plan.generation, plan.spec, plan.steps[0].allocation)
    && ActionsOfOperation(plan.operation, site.manageServices, plan.steps)
  }

  ghost predicate PlansLawful(c: Core) {
    forall o <- c.db.operations :: PlanLawful(c.site, c.name, c.db.specs, c.db.operations[o].plan)
  }

  lemma ApplyActions(base: StepInput, manageServices: bool)
    ensures ActionsOfOperation(Apply, manageServices, StepsOf(base, Actions(Apply, manageServices)))
  {
    if manageServices {
      assert [EnsureServices] + APPLY_ACTIONS
             == [EnsureServices, EnsureImage, EnsureStorage, EnsureSeed, EnsureDefinition, EnsureConfig,
                 EnsureReservation, EnsureRules, EnsurePower, ObserveAll];
    }
  }

  lemma PlansAreMadeFor(site: Site, operation: Operation, name: Name, generation: nat, spec: Spec, allocation: Allocation)
    requires spec.image in site.images
    ensures var plan := PlanOf(site, site.images[spec.image], operation, name, generation, spec, allocation);
            && |plan.steps| > 0 && plan.steps[0].allocation == allocation
            && PlansFor(plan, site, operation, name, generation, spec, allocation)
            && ActionsOfOperation(operation, site.manageServices, plan.steps)
  {
    ApplyActions(BaseInput(site, site.images[spec.image], Apply, name, generation, spec, allocation), site.manageServices);
  }

  /** The plan of a preparation, in terms of the rows before and after it. */
  lemma PreparedPlan(c: Core, preparation: Preparation, stamp: int)
    requires CanPrepare(c, preparation)
    ensures var d := PrepareCore(c, preparation, stamp).db;
            && d.effective.Some? && d.resource.Some? && d.allocation.Some?
            && PlanLawful(c.site, c.name, d.specs, d.effective.value.plan)
            && d.effective.value.plan.generation == d.resource.value.generation
            && AllocationOf(d.effective.value.plan) == Some(d.allocation.value.allocation)
            && d.effective.value.plan.operation
               == (match preparation case PrepareApplication(_, _, _) => Apply case PrepareDeletion(_) => Delete
                                     case PrepareReconciliation(_) => Reconcile)
  {
    match preparation
    case PrepareApplication(spec, found, op) =>
      PlansAreMadeFor(c.site, Apply, c.name, DeclaredGeneration(c.db, spec), spec, AllocationFor(c.db, found));
    case PrepareDeletion(op) =>
      var spec := c.db.specs[c.db.resource.value.generation];
      PlansAreMadeFor(c.site, Delete, c.name, c.db.resource.value.generation, spec, c.db.allocation.value.allocation);
    case PrepareReconciliation(op) =>
      var spec := c.db.specs[c.db.resource.value.generation];
      PlansAreMadeFor(c.site, Reconcile, c.name, c.db.resource.value.generation, spec, c.db.allocation.value.allocation);
  }

  /** Declarations are never taken back or changed. */
  predicate SpecsGrow(specs: map<nat, Spec>, more: map<nat, Spec>) {
    forall g <- specs :: g in more && more[g] == specs[g]
  }

  /** A preparation adds at most the operation of its plan, and no other row gets another plan. */
  lemma PreparedOperations(c: Core, preparation: Preparation, stamp: int)
    requires CanPrepare(c, preparation)
    ensures var d := PrepareCore(c, preparation, stamp).db;
            && SpecsGrow(c.db.specs, d.specs) && d.effective.Some?
            && preparation.op in d.operations && d.operations.Keys == c.db.operations.Keys + {preparation.op}
            && d.operations[preparation.op].plan == d.effective.value.plan
            && (forall o <- c.db.operations ::
                  d.operations[o].plan == c.db.operations[o].plan && d.operations[o].createdAt == c.db.operations[o].createdAt)
  {
  }

  lemma PreparationKeepsPlans(c: Core, preparation: Preparation, stamp: int)
    requires PlansLawful(c) && CanPrepare(c, preparation)
    ensures PlansLawful(PrepareCore(c, preparation, stamp))
  {
    PreparedPlan(c, preparation, stamp);
    PreparedOperations(c, preparation, stamp);
    var d := PrepareCore(c, preparation, stamp);
    forall o | o in d.db.operations ensures PlanLawful(d.site, d.name, d.db.specs, d.db.operations[o].plan) {
      if o in c.db.operations {
        assert PlanLawful(c.site, c.name, c.db.specs, c.db.operations[o].plan);
      }
    }
  }

  lemma ActKeepsDeclarations(c: Core, pc: Pc, act: Act)
    requires CanAct(c, pc, act)
    ensures var d := ActCore(c, pc, act);
            && d.site == c.site && d.name == c.name && d.db.specs == c.db.specs
            && d.db.operations.Keys == c.db.operations.Keys
  {
  }

  lemma ActKeepsPlans(c: Core, pc: Pc, act: Act)
    requires PlansLawful(c) && CanAct(c, pc, act)
    ensures PlansLawful(ActCore(c, pc, act))
  {
    ActKeepsDeclarations(c, pc, act);
    ActKeepsOperations(c, pc, act);
    var d := ActCore(c, pc, act);
    forall o | o in d.db.operations ensures PlanLawful(d.site, d.name, d.db.specs, d.db.operations[o].plan) {
      assert PlanLawful(c.site, c.name, c.db.specs, c.db.operations[o].plan);
    }
  }

  // ----- the plan in force

  /**
    The plan in force is for the current generation and the allocation row; the effective state names its operation
    until a verdict replaces it, and a verdict leaves the plan alone.
   */
  predicate InForce(db: Db) {
    db.effective.Some? ==>
      && db.resource.Some? && db.allocation.Some?
      && db.effective.value.plan.generation == db.resource.value.generation
      && AllocationOf(db.effective.value.plan) == Some(db.allocation.value.allocation)
      && (db.effective.value.state == EffectivePending ==> db.effective.value.plan.operation == Apply)
      && (db.effective.value.state == Deleting ==> db.effective.value.plan.operation == Delete)
      && (db.effective.value.state == Applying ==> db.effective.value.plan.operation == Reconcile)
  }

  lemma ActKeepsInForce(c: Core, pc: Pc, act: Act)
    requires InForce(c.db) && CanAct(c, pc, act)
    ensures InForce(ActCore(c, pc, act).db)
  {
  }

  /** A kept verdict is `converged`; any other state that a preparation leaves names its operation. */
  lemma PreparedState(c: Core, preparation: Preparation, stamp: int)
    requires CanPrepare(c, preparation)
    ensures var e := PrepareCore(c, preparation, stamp).db.effective;
            e.Some? && match preparation
                       case PrepareApplication(_, _, _) =>
                         e.value.state == (if c.db.effective == Some(EffectiveRow(Converged, e.value.plan)) then Converged
                                           else EffectivePending)
                       case PrepareDeletion(_) => e.value.state == Deleting
                       case PrepareReconciliation(_) => e.value.state == Applying
  {
  }

  lemma PreparationKeepsInForce(c: Core, preparation: Preparation, stamp: int)
    requires CanPrepare(c, preparation)
    ensures InForce(PrepareCore(c, preparation, stamp).db)
  {
    PreparedPlan(c, preparation, stamp);
    PreparedState(c, preparation, stamp);
  }

  // ----- the allocation that the current operation works with

  predicate UsesRow(db: Db, o: OpId)
    requires o in db.operations
  {
    db.allocation.Some? && AllocationOf(db.operations[o].plan) == Some(db.allocation.value.allocation)
  }

  predicate Deleted(row: OpRow) {
    row.plan.operation == Delete && row.status == Succeeded
  }

  predicate CurrentInUse(c: Core, o: OpId) {
    o in c.db.operations && (Visible(c.db) ==> !Deleted(c.db.operations[o])) ==> UsesRow(c.db, o)
  }

  /**
    The latest operation works with the allocation row, unless it is a delete that has succeeded; so does the current
    one, and a delete that has succeeded as long as its resource is archived.
   */
  ghost predicate RowInUse(c: Core) {
    && (forall o :: IsLatest(c.db.operations, o) && !Deleted(c.db.operations[o]) ==> UsesRow(c.db, o))
    && (LastStarted(c.history).Some? ==> CurrentInUse(c, LastStarted(c.history).value))
  }

  lemma LatestWasLatest(ops: map<OpId, OpRow>, more: map<OpId, OpRow>, o: OpId)
    requires IsLatest(more, o) && o in ops
    requires forall other <- ops :: other in more && more[other].createdAt == ops[other].createdAt
    ensures IsLatest(ops, o)
  {
    forall other | other in ops ensures NotAfter(ops, other, o) {
      assert NotAfter(more, other, o);
    }
  }

  /** An archived resource was left by a delete, which is the latest operation and the current one. */
  lemma ArchivedByDelete(c: Core)
    requires CoreOk(c) && c.db.resource.Some? && !Visible(c.db)
    ensures LastStarted(c.history).Some? && IsLatest(c.db.operations, LastStarted(c.history).value)
    ensures Deleted(c.db.operations[LastStarted(c.history).value])
  {
  }

  lemma PreparationKeepsCurrent(c: Core, preparation: Preparation, stamp: int)
    requires CanPrepare(c, preparation)
    ensures LastStarted(PrepareCore(c, preparation, stamp).history) == LastStarted(c.history)
    ensures Visible(PrepareCore(c, preparation, stamp).db)
    ensures Visible(c.db) && Active(c.db) ==> PrepareCore(c, preparation, stamp).db.allocation == c.db.allocation
    ensures !preparation.PrepareApplication? ==>
              Visible(c.db) && PrepareCore(c, preparation, stamp).db.allocation == c.db.allocation
    ensures forall o <- c.db.operations ::
              o in PrepareCore(c, preparation, stamp).db.operations
              && (Deleted(PrepareCore(c, preparation, stamp).db.operations[o]) <==> Deleted(c.db.operations[o]))
  {
  }

  lemma VisibleIsActive(db: Db)
    requires Life(db) && Visible(db)
    ensures Active(db)
  {
  }

  /** What a preparation finds: nothing, an archived resource, or one whose allocation it keeps. */
  lemma LatestStaysInUse(c: Core, preparation: Preparation, stamp: int, o: OpId)
    requires CoreOk(c) && RowInUse(c) && CanPrepare(c, preparation)
    requires IsLatest(PrepareCore(c, preparation, stamp).db.operations, o)
    requires !Deleted(PrepareCore(c, preparation, stamp).db.operations[o])
    ensures UsesRow(PrepareCore(c, preparation, stamp).db, o)
  {
    var d := PrepareCore(c, preparation, stamp);
    PreparedPlan(c, preparation, stamp);
    PreparedOperations(c, preparation, stamp);
    PreparationKeepsCurrent(c, preparation, stamp);
    if o != preparation.op {
      LatestWasLatest(c.db.operations, d.db.operations, o);
      if Visible(c.db) {
        VisibleIsActive(c.db);
      } else {
        ArchivedByDelete(c);
        LatestIsUnique(c.db.operations, o, LastStarted(c.history).value);
      }
    }
  }

  lemma CurrentStaysInUse(c: Core, preparation: Preparation, stamp: int)
    requires CoreOk(c) && RowInUse(c) && CanPrepare(c, preparation)
    ensures var d := PrepareCore(c, preparation, stamp);
            var current := LastStarted(d.history);
            current.Some? && current.value in d.db.operations && !Deleted(d.db.operations[current.value]) ==>
              UsesRow(d.db, current.value)
  {
    PreparedOperations(c, preparation, stamp);
    PreparationKeepsCurrent(c, preparation, stamp);
    var current := LastStarted(c.history);
    if current.Some? {
      assert current.value in c.db.operations;
      if Visible(c.db) {
        VisibleIsActive(c.db);
      } else {
        ArchivedByDelete(c);
      }
    }
  }

  lemma PreparationKeepsRowInUse(c: Core, preparation: Preparation, stamp: int)
    requires CoreOk(c) && RowInUse(c) && CanPrepare(c, preparation)
    ensures RowInUse(PrepareCore(c, preparation, stamp))
  {
    var d := PrepareCore(c, preparation, stamp);
    forall o | IsLatest(d.db.operations, o) && !Deleted(d.db.operations[o]) ensures UsesRow(d.db, o) {
      LatestStaysInUse(c, preparation, stamp, o);
    }
    CurrentStaysInUse(c, preparation, stamp);
    PreparationKeepsCurrent(c, preparation, stamp);
  }

  lemma DeletedStays(c: Core, pc: Pc, act: Act, o: OpId)
    requires PcOk(c, pc) && CanAct(c, pc, act) && o in c.db.operations && Deleted(c.db.operations[o])
    ensures o in ActCore(c, pc, act).db.operations && ActCore(c, pc, act).db.operations[o] == c.db.operations[o]
  {
    if WorksOn(pc, o) { WorkIsUnfinished(c, pc, o); }
    ActWritesOneRow(c, pc, act, o);
  }

  lemma ActKeepsUse(c: Core, pc: Pc, act: Act, o: OpId)
    requires CanAct(c, pc, act) && o in c.db.operations && UsesRow(c.db, o)
    ensures o in ActCore(c, pc, act).db.operations && UsesRow(ActCore(c, pc, act).db, o)
  {
    ActKeepsAllocation(c, pc, act);
    ActKeepsOperations(c, pc, act);
  }

  lemma ActKeepsLatestInUse(c: Core, pc: Pc, act: Act, o: OpId)
    requires PcOk(c, pc) && RowInUse(c) && CanAct(c, pc, act)
    requires IsLatest(ActCore(c, pc, act).db.operations, o) && !Deleted(ActCore(c, pc, act).db.operations[o])
    ensures UsesRow(ActCore(c, pc, act).db, o)
  {
    ActKeepsDeclarations(c, pc, act);
    ActKeepsOperations(c, pc, act);
    LatestWasLatest(c.db.operations, ActCore(c, pc, act).db.operations, o);
    if Deleted(c.db.operations[o]) { DeletedStays(c, pc, act, o); }
    ActKeepsUse(c, pc, act, o);
  }

  /** Which step changes the current operation, and which one hides a resource. */
  lemma ActCurrent(c: Core, pc: Pc, act: Act)
    requires CanAct(c, pc, act)
    ensures LastStarted(ActCore(c, pc, act).history) == if act.Start? then Some(pc.op) else LastStarted(c.history)
    ensures !act.Conclude? ==> (Visible(ActCore(c, pc, act).db) <==> Visible(c.db))
  {
  }

  lemma StartedIsLatest(c: Core, pc: Pc)
    requires PcOk(c, pc) && CanAct(c, pc, Start)
    ensures IsLatest(c.db.operations, pc.op) && !Deleted(c.db.operations[pc.op])
    ensures c.db.operations[pc.op].status != Succeeded
  {
  }

  lemma ConcludedIsCurrent(c: Core, pc: Pc)
    requires PcOk(c, pc) && CanAct(c, pc, Conclude)
    ensures LastStarted(c.history) == Some(pc.op) && !Deleted(c.db.operations[pc.op])
  {
  }

  lemma ActKeepsCurrentInUse(c: Core, pc: Pc, act: Act, o: OpId)
    requires PcOk(c, pc) && RowInUse(c) && CanAct(c, pc, act) && LastStarted(ActCore(c, pc, act).history) == Some(o)
    ensures CurrentInUse(ActCore(c, pc, act), o)
  {
    ActCurrent(c, pc, act);
    ActKeepsDeclarations(c, pc, act);
    if act.Start? {
      StartedIsLatest(c, pc);
      ActKeepsUse(c, pc, act, o);
    } else if act.Conclude? {
      ConcludedIsCurrent(c, pc);
      assert CurrentInUse(c, o);
      ActKeepsUse(c, pc, act, o);
    } else if o in c.db.operations {
      assert CurrentInUse(c, o);
      if UsesRow(c.db, o) {
        ActKeepsUse(c, pc, act, o);
      } else {
        DeletedStays(c, pc, act, o);
      }
    }
  }

  lemma ActKeepsRowInUse(c: Core, pc: Pc, act: Act)
    requires PcOk(c, pc) && RowInUse(c) && CanAct(c, pc, act)
    ensures RowInUse(ActCore(c, pc, act))
  {
    var d := ActCore(c, pc, act);
    forall o | IsLatest(d.db.operations, o) && !Deleted(d.db.operations[o]) ensures UsesRow(d.db, o) {
      ActKeepsLatestInUse(c, pc, act, o);
    }
    if LastStarted(d.history).Some? {
      ActKeepsCurrentInUse(c, pc, act, LastStarted(d.history).value);
    }
  }

  // ----- what a row tells about failures, and what it was spared

  /** The step that stopped the operation carries its error; the operator has to act where it is blocked. */
  predicate StoppedAt(row: OpRow, k: nat) {
    && k < |row.steps| && row.steps[k].status == StepFailed && row.error.Some? && row.steps[k].error == row.error
    && (row.status == Blocked <==> row.error.value in {InputMismatch, DriverBlocked})
  }

  predicate StepTells(step: StepRow) {
    && (step.error.Some? <==> step.status == StepFailed)
    && (step.status == StepSkipped ==> Unmanaged(step.input))
    && (step.status == StepSucceeded ==> !Unmanaged(step.input))
  }

  predicate RowTells(row: OpRow) {
    && (row.error.Some? <==> row.status in {Failed, Blocked})
    && (row.status in {Failed, Blocked} ==> StoppedAt(row, ResumeStep(row)))
    && (row.status == Pending ==> forall k :: 0 <= k < |row.steps| ==> row.steps[k].status == StepPending)
    && forall k :: 0 <= k < |row.steps| ==> StepTells(row.steps[k])
  }

  ghost predicate RowsTell(ops: map<OpId, OpRow>) {
    forall o <- ops :: RowTells(ops[o])
  }

  lemma FreshTells(plan: Plan, stamp: int)
    ensures RowTells(FreshOperation(plan, stamp))
  {
  }

  lemma ResetTells(row: OpRow)
    requires RowTells(row)
    ensures RowTells(ResetOperation(row))
  {
  }

  lemma StartTells(db: Db, o: OpId)
    requires o in db.operations && RowTells(db.operations[o])
    ensures RowTells(StartOperation(db, o).operations[o])
  {
  }

  lemma ClaimTells(db: Db, o: OpId, k: nat)
    requires HasStep(db, o, k) && RowTells(db.operations[o]) && db.operations[o].status == Running
    ensures RowTells(ClaimStep(db, o, k).operations[o])
  {
  }

  lemma CompleteTells(db: Db, o: OpId, k: nat, evidence: string, skipped: bool)
    requires HasStep(db, o, k) && RowTells(db.operations[o]) && db.operations[o].status == Running
    requires skipped <==> Unmanaged(db.operations[o].steps[k].input)
    ensures RowTells(CompleteStep(db, o, k, evidence, skipped).operations[o])
  {
  }

  lemma FailTells(db: Db, o: OpId, k: nat, code: ErrorCode, blocked: bool)
    requires HasStep(db, o, k) && RowTells(db.operations[o])
    requires forall j :: 0 <= j < k ==> Finished(db.operations[o].steps[j])
    requires blocked <==> code in {InputMismatch, DriverBlocked}
    ensures RowTells(FailStep(db, o, k, code, blocked).operations[o])
  {
    var row := FailStep(db, o, k, code, blocked).operations[o];
    assert row.steps == db.operations[o].steps[k := row.steps[k]];
    Preservation.ResumeIs(row, k);
  }

  lemma ConcludeTells(c: Core, o: OpId)
    requires o in c.db.operations && RowTells(c.db.operations[o])
    requires c.db.resource.Some? && c.db.effective.Some? && c.db.allocation.Some?
    ensures RowTells(ConcludeCore(c, o).db.operations[o])
  {
  }

  /** Where a step fails, all before it are finished. */
  lemma FailsAtFrontier(c: Core, pc: Pc)
    requires PcOk(c, pc) && (pc.Checking? || pc.Reporting? || pc.Settling?)
    ensures HasStep(c.db, pc.op, pc.i) && forall j :: 0 <= j < pc.i ==> Finished(c.db.operations[pc.op].steps[j])
    ensures c.db.operations[pc.op].status == Running
  {
  }

  lemma FailingActTells(c: Core, pc: Pc, act: Act)
    requires PcOk(c, pc) && CanAct(c, pc, act) && (act.RejectInput? || act.RecordFails? || act.ReportFailure?)
    requires pc.op in c.db.operations && RowTells(c.db.operations[pc.op])
    ensures RowTells(ActCore(c, pc, act).db.operations[pc.op])
  {
    FailsAtFrontier(c, pc);
    match act
    case RejectInput => FailTells(c.db, pc.op, pc.i, InputMismatch, true);
    case RecordFails => FailTells(c.db, pc.op, pc.i, ObservationNotPersisted, false);
    case ReportFailure =>
      FailTells(c.db, pc.op, pc.i, if pc.result.blocked then DriverBlocked else DriverFailed, pc.result.blocked);
  }

  lemma CompletingActTells(c: Core, pc: Pc)
    requires PcOk(c, pc) && CanAct(c, pc, Complete) && RowTells(c.db.operations[pc.op])
    ensures RowTells(ActCore(c, pc, Complete).db.operations[pc.op])
  {
    CompleteTells(c.db, pc.op, pc.i, pc.result.evidence, pc.result.skipped);
  }

  lemma ClaimingActTells(c: Core, pc: Pc)
    requires PcOk(c, pc) && CanAct(c, pc, Claim) && RowTells(c.db.operations[pc.op])
    ensures RowTells(ActCore(c, pc, Claim).db.operations[pc.op])
  {
    ClaimTells(c.db, pc.op, pc.i);
  }

  lemma WritingActTells(c: Core, pc: Pc, act: Act)
    requires PcOk(c, pc) && CanAct(c, pc, act) && (act.Start? || act.Claim? || act.Complete? || act.Conclude?)
    requires pc.op in c.db.operations && RowTells(c.db.operations[pc.op])
    ensures RowTells(ActCore(c, pc, act).db.operations[pc.op])
  {
    match act
    case Start => StartTells(c.db, pc.op);
    case Claim => ClaimingActTells(c, pc);
    case Complete => CompletingActTells(c, pc);
    case Conclude => ConcludeTells(c, pc.op);
  }

  predicate WritesRows(act: Act) {
    act.Start? || act.Claim? || act.Complete? || act.Conclude? || act.RejectInput? || act.RecordFails? || act.ReportFailure?
  }

  lemma OtherActsKeepRows(c: Core, pc: Pc, act: Act)
    requires CanAct(c, pc, act) && !WritesRows(act)
    ensures ActCore(c, pc, act).db.operations == c.db.operations
  {
  }

  lemma WritesItsRow(c: Core, pc: Pc, act: Act)
    requires CanAct(c, pc, act) && WritesRows(act)
    ensures WorksOn(pc, pc.op) && pc.op in c.db.operations
    ensures forall o :: WorksOn(pc, o) ==> o == pc.op
  {
  }

  lemma ActRowTells(c: Core, pc: Pc, act: Act)
    requires PcOk(c, pc) && CanAct(c, pc, act) && WritesRows(act)
    requires pc.op in c.db.operations && RowTells(c.db.operations[pc.op])
    ensures RowTells(ActCore(c, pc, act).db.operations[pc.op])
  {
    if act.RejectInput? || act.RecordFails? || act.ReportFailure? {
      FailingActTells(c, pc, act);
    } else {
      WritingActTells(c, pc, act);
    }
  }

  lemma ActKeepsTelling(c: Core, pc: Pc, act: Act)
    requires PcOk(c, pc) && CanAct(c, pc, act) && RowsTell(c.db.operations)
    ensures RowsTell(ActCore(c, pc, act).db.operations)
  {
    if WritesRows(act) {
      WritesItsRow(c, pc, act);
      ActKeepsDeclarations(c, pc, act);
      assert RowTells(c.db.operations[pc.op]);
      ActRowTells(c, pc, act);
      var next := ActCore(c, pc, act).db.operations;
      forall o | o in next ensures RowTells(next[o]) {
        assert RowTells(c.db.operations[o]);
        if o != pc.op { ActWritesOneRow(c, pc, act, o); }
      }
    } else {
      OtherActsKeepRows(c, pc, act);
    }
  }

  lemma PreparationKeepsTelling(c: Core, preparation: Preparation, stamp: int)
    requires CanPrepare(c, preparation) && RowsTell(c.db.operations)
    ensures RowsTell(PrepareCore(c, preparation, stamp).db.operations)
  {
    var next := PrepareCore(c, preparation, stamp).db.operations;
    PreparedOperations(c, preparation, stamp);
    forall o | o in next ensures RowTells(next[o]) {
      if o in c.db.operations {
        assert RowTells(c.db.operations[o]);
        PreparationsKeepRows(c, preparation, stamp, o);
        ResetTells(c.db.operations[o]);
      } else {
        InsertedIsFresh(c, preparation, stamp);
        FreshTells(next[o].plan, stamp);
      }
    }
  }

  lemma InsertedIsFresh(c: Core, preparation: Preparation, stamp: int)
    requires CanPrepare(c, preparation) && preparation.op !in c.db.operations
    ensures var d := PrepareCore(c, preparation, stamp).db;
            d.effective.Some? && preparation.op in d.operations
            && d.operations[preparation.op] == FreshOperation(d.effective.value.plan, stamp)
  {
  }

  // ----- attempts

  function Starts(h: History, o: OpId): nat {
    match h
    case Nil => 0
    case Snoc(past, last) => Starts(past, o) + if last == Started(o) then 1 else 0
  }

  ghost predicate StartsCounted(c: Core) {
    forall o <- c.db.operations :: c.db.operations[o].attempts == Starts(c.history, o)
  }

  lemma UnknownNeverStarted(ops: map<OpId, OpRow>, h: History, o: OpId)
    requires OneAtATime(ops, h) && o !in ops
    ensures Starts(h, o) == 0
  {
  }

  lemma ActCountsStarts(c: Core, pc: Pc, act: Act, o: OpId)
    requires PcOk(c, pc) && CanAct(c, pc, act) && o in c.db.operations
    requires c.db.operations[o].attempts == Starts(c.history, o)
    ensures var d := ActCore(c, pc, act);
            o in d.db.operations && d.db.operations[o].attempts == Starts(d.history, o)
  {
    if act.Start? {
      StartCounts(c, pc.op, o);
      StartedIsLatest(c, pc);
    } else {
      OthersCountNothing(c, pc, act, o);
    }
  }

  lemma StartCounts(c: Core, op: OpId, o: OpId)
    requires op in c.db.operations && o in c.db.operations && c.db.operations[op].status != Succeeded
    ensures var d := StartCore(c, op);
            && o in d.db.operations
            && d.db.operations[o].attempts == c.db.operations[o].attempts + (if o == op then 1 else 0)
            && Starts(d.history, o) == Starts(c.history, o) + (if o == op then 1 else 0)
  {
  }

  lemma OthersCountNothing(c: Core, pc: Pc, act: Act, o: OpId)
    requires CanAct(c, pc, act) && !act.Start? && o in c.db.operations
    ensures var d := ActCore(c, pc, act);
            && o in d.db.operations && d.db.operations[o].attempts == c.db.operations[o].attempts
            && Starts(d.history, o) == Starts(c.history, o)
  {
  }

  lemma ActKeepsCount(c: Core, pc: Pc, act: Act)
    requires PcOk(c, pc) && CanAct(c, pc, act) && StartsCounted(c)
    ensures StartsCounted(ActCore(c, pc, act))
  {
    ActKeepsDeclarations(c, pc, act);
    forall o | o in c.db.operations
      ensures o in ActCore(c, pc, act).db.operations
      ensures ActCore(c, pc, act).db.operations[o].attempts == Starts(ActCore(c, pc, act).history, o)
    {
      ActCountsStarts(c, pc, act, o);
    }
  }

  lemma PreparationKeepsStarts(c: Core, preparation: Preparation, stamp: int, o: OpId)
    requires CanPrepare(c, preparation)
    ensures Starts(PrepareCore(c, preparation, stamp).history, o) == Starts(c.history, o)
  {
  }

  lemma PreparationKeepsCount(c: Core, preparation: Preparation, stamp: int)
    requires CanPrepare(c, preparation) && StartsCounted(c) && OneAtATime(c.db.operations, c.history)
    ensures StartsCounted(PrepareCore(c, preparation, stamp))
  {
    var d := PrepareCore(c, preparation, stamp);
    PreparedOperations(c, preparation, stamp);
    forall o | o in d.db.operations ensures d.db.operations[o].attempts == Starts(d.history, o) {
      PreparationKeepsStarts(c, preparation, stamp, o);
      if o in c.db.operations {
        PreparationsKeepRows(c, preparation, stamp, o);
      } else {
        InsertedIsFresh(c, preparation, stamp);
        UnknownNeverStarted(c.db.operations, c.history, o);
      }
    }
  }

  // ----- all states of all runs

  ghost predicate Laws(c: Core) {
    PlansLawful(c) && InForce(c.db) && RowInUse(c) && RowsTell(c.db.operations) && StartsCounted(c)
  }

  lemma ActKeepsLaws(c: Core, pc: Pc, act: Act)
    requires PcOk(c, pc) && CanAct(c, pc, act) && Laws(c)
    ensures Laws(ActCore(c, pc, act))
  {
    ActKeepsPlans(c, pc, act);
    ActKeepsInForce(c, pc, act);
    ActKeepsRowInUse(c, pc, act);
    ActKeepsTelling(c, pc, act);
    ActKeepsCount(c, pc, act);
  }

  lemma PreparationKeepsLaws(c: Core, preparation: Preparation, stamp: int)
    requires CoreOk(c) && CanPrepare(c, preparation) && Laws(c)
    ensures Laws(PrepareCore(c, preparation, stamp))
  {
    PreparationKeepsPlans(c, preparation, stamp);
    PreparationKeepsInForce(c, preparation, stamp);
    PreparationKeepsRowInUse(c, preparation, stamp);
    PreparationKeepsTelling(c, preparation, stamp);
    PreparationKeepsCount(c, preparation, stamp);
  }

  lemma VerifiedKeepsLaws(c: Core, image: string)
    requires Laws(c)
    ensures Laws(c.(verified := c.verified + {image}))
  {
    var d := c.(verified := c.verified + {image});
    assert d.db == c.db && d.history == c.history && d.site == c.site && d.name == c.name;
    if LastStarted(c.history).Some? { assert CurrentInUse(c, LastStarted(c.history).value); }
  }

  lemma StepKeepsLaws(s: State, p: Pid, l: Label)
    requires Inv(s) && Laws(s.core) && Enabled(s, p, l)
    ensures Laws(After(s, p, l).core)
  {
    match l
    case Advance(act) =>
      ActorHolds(s, p, act);
      ActKeepsLaws(s.core, s.procs[p], act);
    case Commit(preparation) => PreparationKeepsLaws(s.core, preparation, s.procs[p].stamp);
    case ImageVerified(image) => VerifiedKeepsLaws(s.core, image);
    case _ =>
  }

  lemma RunKeepsLaws(states: seq<State>, i: nat)
    requires IsRun(states) && i < |states|
    ensures Laws(states[i].core)
  {
    if i > 0 {
      RunKeepsLaws(states, i - 1);
      RunKeepsInv(states, i - 1);
      assert Follows(states, i - 1);
      var p, l :| Enabled(states[i - 1], p, l) && states[i] == After(states[i - 1], p, l);
      StepKeepsLaws(states[i - 1], p, l);
    }
  }

  // ----- what an operator can rely on

  /**
    Every step of every operation ever prepared holds the declaration of its generation, the image that the site pins
    for it and the site's settings; they are numbered from one, agree on the allocation, and are the actions of the
    operation in their order.
   */
  lemma StepsHoldSettings(states: seq<State>, i: nat, o: OpId, k: nat)
    requires IsRun(states) && i < |states| && o in states[i].core.db.operations
    requires k < |states[i].core.db.operations[o].plan.steps|
    ensures var c, plan := states[i].core, states[i].core.db.operations[o].plan;
            var input := plan.steps[k];
            && ActionsOfOperation(plan.operation, c.site.manageServices, plan.steps)
            && input.sequence == k + 1 && input.operation == plan.operation && input.resource == c.name
            && input.generation == plan.generation && plan.generation in c.db.specs
            && input.spec == c.db.specs[plan.generation]
            && input.spec.image in c.site.images && input.image == c.site.images[input.spec.image]
            && input.spec.pool in c.site.pools && input.allocation == plan.steps[0].allocation
            && input.bridge == c.site.bridge
            && input.vmSwitch == (if c.site.vmSwitch == "" then c.site.bridge else c.site.vmSwitch)
            && input.manageAnchor == c.site.manageAnchor
            && input.manageServices == c.site.manageServices && input.services == c.site.services
            && (input.destroyStorage <==> plan.operation == Delete)
  {
    RunKeepsLaws(states, i);
    assert PlanLawful(states[i].core.site, states[i].core.name, states[i].core.db.specs, states[i].core.db.operations[o].plan);
  }

  /**
    The plan in force is for the current declaration and the allocation row, and the effective state is the one of its
    operation, pending, deleting or applying, unless a verdict has replaced it.
   */
  lemma PlanInForce(states: seq<State>, i: nat)
    requires IsRun(states) && i < |states| && states[i].core.db.effective.Some?
    ensures var db := states[i].core.db;
            var effective := db.effective.value;
            && db.resource.Some? && db.allocation.Some? && |effective.plan.steps| > 0
            && effective.plan.generation == db.resource.value.generation
            && effective.plan.generation in db.specs && effective.plan.spec == db.specs[effective.plan.generation]
            && (forall k :: 0 <= k < |effective.plan.steps| ==>
                  effective.plan.steps[k].allocation == db.allocation.value.allocation)
            && (effective.state in {Converged, Absent}
                || effective.state == (match effective.plan.operation
                                       case Apply => EffectivePending case Delete => Deleting case Reconcile => Applying))
  {
    RunKeepsLaws(states, i);
    RunKeepsInv(states, i);
    var c := states[i].core;
    var o :| o in c.db.operations && c.db.operations[o].plan == c.db.effective.value.plan;
    assert PlanLawful(c.site, c.name, c.db.specs, c.db.operations[o].plan);
  }

  /**
    The effective state is deleting or absent exactly when the plan in force is a delete, if and only if no verdict
    stands that an operation of the other kind has earned: the latest operation is then a delete and the plan in force
    is not, or the other way round.  Scenarios.VerdictOfAnotherPlan is a run that ends so.
   */
  lemma DeletingMeansDelete(states: seq<State>, i: nat)
    requires IsRun(states) && i < |states| && states[i].core.db.effective.Some?
    ensures var db := states[i].core.db;
            var effective := db.effective.value;
            (effective.state in {Deleting, Absent} <==> effective.plan.operation == Delete)
            <==> (effective.state in {Converged, Absent} ==>
                    exists o :: IsLatest(db.operations, o) && db.operations[o].status == Succeeded
                                && (db.operations[o].plan.operation == Delete <==> effective.plan.operation == Delete))
  {
    RunKeepsInv(states, i);
    RunKeepsLaws(states, i);
    var c := states[i].core;
    if c.db.effective.value.state in {Converged, Absent} {
      var current := LastStarted(c.history).value;
      VerdictIsOfLatest(c);
      forall o | IsLatest(c.db.operations, o) ensures o == current {
        LatestIsUnique(c.db.operations, o, current);
      }
    }
  }

  lemma VerdictIsOfLatest(c: Core)
    requires Verdicts(c) && Verdict(c.db.effective)
    ensures var current := LastStarted(c.history);
            && current.Some? && IsLatest(c.db.operations, current.value)
            && c.db.operations[current.value].status == Succeeded
            && (c.db.effective.value.state == Absent <==> c.db.operations[current.value].plan.operation == Delete)
  {
  }

  predicate FailureShown(row: OpRow) {
    var k := ResumeStep(row);
    && (row.error.Some? <==> row.status == Failed || row.status == Blocked)
    && (row.error.Some? ==> k < |row.steps| && row.steps[k].status == StepFailed && row.steps[k].error == row.error)
    && (row.error.Some? ==> (row.status == Blocked <==> row.error.value in {InputMismatch, DriverBlocked}))
    && (row.status == Pending ==> forall j :: 0 <= j < |row.steps| ==> row.steps[j].status == StepPending)
    && forall j :: 0 <= j < |row.steps| ==>
         && (row.steps[j].error.Some? <==> row.steps[j].status == StepFailed)
         && (Finished(row.steps[j]) ==>
               (row.steps[j].status == StepSkipped <==>
                  (row.steps[j].input.action == EnsureServices && !row.steps[j].input.manageServices)
                  || (row.steps[j].input.action in {EnsureRules, RulesAbsent} && !row.steps[j].input.manageAnchor)))
  }

  lemma TellingShows(row: OpRow)
    requires RowTells(row)
    ensures FailureShown(row)
  {
    forall j | 0 <= j < |row.steps| ensures StepTells(row.steps[j]) {}
  }

  /**
    An operation is failed or blocked exactly when it has an error; then its resume step is the one that failed, with
    the same error, and it is blocked exactly when the operator has to act.  Skipped are the steps that the site leaves
    to others, and attempts count the starts.
   */
  lemma FailuresAreOnRecord(states: seq<State>, i: nat, o: OpId)
    requires IsRun(states) && i < |states| && o in states[i].core.db.operations
    ensures var row := states[i].core.db.operations[o];
            row.attempts == Starts(states[i].core.history, o) && FailureShown(row)
  {
    RunKeepsLaws(states, i);
    assert RowTells(states[i].core.db.operations[o]);
    TellingShows(states[i].core.db.operations[o]);
  }

  /** What a machine is like when it is as declared. */
  predicate AsDeclared(site: Site, name: Name, spec: Spec, allocation: Allocation, verified: set<string>, g: Guest)
    requires spec.image in site.images
  {
    var image, key := site.images[spec.image], (allocation.subnet, allocation.mac);
    && spec.image in verified
    && g.dataset && g.zvol.Some? && g.zvol.value.size == spec.diskGb * 0x4000_0000
    && g.zvol.value.imageProperty == Some(Sha256(Unxz(image.pinned.of)))
    && g.guestDir && g.seed == Some(Cd9660(spec.seedSource))
    && g.seedMarker == Some(SeedMarker(Sha256(Blob(spec.seedSource)), Sha256(Cd9660(spec.seedSource))))
    && g.conf.Some? && g.conf.value.cpus == spec.cpus && g.conf.value.memoryMb == spec.memoryMb
    && g.conf.value.loader == image.loader && g.conf.value.mac == allocation.mac && g.conf.value.zvol == allocation.zvol
    && g.conf.value.switch == (if site.vmSwitch == "" then site.bridge else site.vmSwitch)
    && key in g.reservations && g.reservations[key].ip == allocation.ip && g.reservations[key].hostname == name
    && g.reservations[key].subnet == allocation.subnet && g.reservations[key].mac == allocation.mac
    && (site.manageAnchor ==> g.rules == Some(Rules(site.bridge, allocation.ip)))
    && (spec.running ==> g.running || Contains(name, "running")) && (!spec.running ==> !g.running)
  }

  lemma AppliedStep(site: Site, name: Name, plan: Plan, allocation: Allocation, k: nat, action: Action, verified: set<string>,
                    g: Guest)
    requires plan.spec.image in site.images && k < |plan.steps| && plan.steps[k].action == action
    requires MadeFor(plan.steps[k], site, Apply, name, plan.generation, plan.spec, allocation)
    requires Satisfied(plan.steps[k], verified, g) && GuestOk(g)
    ensures action == EnsureStorage ==>
              g.dataset && g.zvol.Some? && g.zvol.value.size == plan.spec.diskGb * 0x4000_0000
              && g.zvol.value.imageProperty == Some(Sha256(Unxz(site.images[plan.spec.image].pinned.of)))
    ensures action == EnsureSeed ==>
              g.guestDir && g.seed == Some(Cd9660(plan.spec.seedSource))
              && g.seedMarker == Some(SeedMarker(Sha256(Blob(plan.spec.seedSource)), Sha256(Cd9660(plan.spec.seedSource))))
    ensures action == EnsureConfig ==>
              g.conf.Some? && g.conf.value.cpus == plan.spec.cpus && g.conf.value.memoryMb == plan.spec.memoryMb
              && g.conf.value.loader == site.images[plan.spec.image].loader && g.conf.value.mac == allocation.mac
              && g.conf.value.zvol == allocation.zvol
              && g.conf.value.switch == (if site.vmSwitch == "" then site.bridge else site.vmSwitch)
    ensures action == EnsureReservation ==>
              (allocation.subnet, allocation.mac) in g.reservations
              && g.reservations[(allocation.subnet, allocation.mac)]
                 == Reservation(allocation.subnet, allocation.mac, allocation.ip, name)
    ensures action == EnsureRules && site.manageAnchor ==> g.rules == Some(Rules(site.bridge, allocation.ip))
    ensures action == EnsurePower ==>
              (plan.spec.running ==> g.running || Contains(name, "running")) && (!plan.spec.running ==> !g.running)
    ensures action == EnsureImage && SiteOk(site) ==> plan.spec.image in verified
  {
  }

  lemma AppliedMachine(site: Site, name: Name, specs: map<nat, Spec>, plan: Plan, allocation: Allocation,
                       verified: set<string>, g: Guest, shift: nat)
    requires SiteOk(site) && PlanLawful(site, name, specs, plan) && plan.operation == Apply && GuestOk(g)
    requires AllocationOf(plan) == Some(allocation) && |plan.steps| == shift + 9
    requires plan.steps[shift].action == EnsureImage && plan.steps[shift + 1].action == EnsureStorage
    requires plan.steps[shift + 2].action == EnsureSeed && plan.steps[shift + 4].action == EnsureConfig
    requires plan.steps[shift + 5].action == EnsureReservation && plan.steps[shift + 6].action == EnsureRules
    requires plan.steps[shift + 7].action == EnsurePower
    requires forall k :: 0 <= k < |plan.steps| ==> Satisfied(plan.steps[k], verified, g)
    ensures AsDeclared(site, name, plan.spec, allocation, verified, g)
  {
    AppliedStep(site, name, plan, allocation, shift, EnsureImage, verified, g);
    AppliedStep(site, name, plan, allocation, shift + 1, EnsureStorage, verified, g);
    AppliedStep(site, name, plan, allocation, shift + 2, EnsureSeed, verified, g);
    AppliedStep(site, name, plan, allocation, shift + 4, EnsureConfig, verified, g);
    AppliedStep(site, name, plan, allocation, shift + 5, EnsureReservation, verified, g);
    AppliedStep(site, name, plan, allocation, shift + 6, EnsureRules, verified, g);
    AppliedStep(site, name, plan, allocation, shift + 7, EnsurePower, verified, g);
  }

  lemma SucceededSatisfies(c: Core, o: OpId)
    requires CoreOk(c) && o in c.db.operations && LastStarted(c.history) == Some(o) && c.db.operations[o].status == Succeeded
    ensures forall k :: 0 <= k < |c.db.operations[o].plan.steps| ==>
              Satisfied(c.db.operations[o].plan.steps[k], c.verified, c.guest)
    ensures GuestOk(c.guest) && SiteOk(c.site)
  {
    var row := c.db.operations[o];
    assert RowOk(row) && AllFinished(row);
    forall k | 0 <= k < |row.plan.steps| ensures Satisfied(row.plan.steps[k], c.verified, c.guest) {
      assert Finished(row.steps[k]);
    }
  }

  /**
    When the current apply has succeeded, the machine is as the declaration of its generation and the active row of its
    allocation say.
   */
  lemma AppliedIsDeclared(states: seq<State>, i: nat, o: OpId)
    requires IsRun(states) && i < |states| && o in states[i].core.db.operations
    requires LastStarted(states[i].core.history) == Some(o) && states[i].core.db.operations[o].status == Succeeded
    requires states[i].core.db.operations[o].plan.operation == Apply
    ensures var c, generation := states[i].core, states[i].core.db.operations[o].plan.generation;
            && generation in c.db.specs && c.db.specs[generation].image in c.site.images && c.db.allocation.Some?
            && AsDeclared(c.site, c.name, c.db.specs[generation], c.db.allocation.value.allocation, c.verified, c.guest)
  {
    RunKeepsInv(states, i);
    RunKeepsLaws(states, i);
    var c := states[i].core;
    var plan := c.db.operations[o].plan;
    CurrentIsLawful(c, o);
    SucceededSatisfies(c, o);
    AppliedCore(c.site, c.name, c.db.specs, plan, c.db.allocation.value.allocation, c.verified, c.guest);
  }

  lemma CurrentIsLawful(c: Core, o: OpId)
    requires PlansLawful(c) && RowInUse(c) && LastStarted(c.history) == Some(o) && o in c.db.operations
    requires Visible(c.db) ==> !Deleted(c.db.operations[o])
    ensures PlanLawful(c.site, c.name, c.db.specs, c.db.operations[o].plan) && UsesRow(c.db, o)
  {
    assert CurrentInUse(c, o);
  }

  lemma AppliedCore(site: Site, name: Name, specs: map<nat, Spec>, plan: Plan, allocation: Allocation,
                    verified: set<string>, g: Guest)
    requires SiteOk(site) && PlanLawful(site, name, specs, plan) && plan.operation == Apply && GuestOk(g)
    requires AllocationOf(plan) == Some(allocation)
    requires forall k :: 0 <= k < |plan.steps| ==> Satisfied(plan.steps[k], verified, g)
    ensures AsDeclared(site, name, plan.spec, allocation, verified, g)
  {
    var shift := ApplyPositions(site.manageServices, plan.steps);
    AppliedMachine(site, name, specs, plan, allocation, verified, g, shift);
  }

  lemma ApplyPositions(manageServices: bool, steps: seq<StepInput>) returns (shift: nat)
    requires ActionsOfOperation(Apply, manageServices, steps)
    ensures |steps| == shift + 9
    ensures steps[shift].action == EnsureImage && steps[shift + 1].action == EnsureStorage
    ensures steps[shift + 2].action == EnsureSeed && steps[shift + 4].action == EnsureConfig
    ensures steps[shift + 5].action == EnsureReservation && steps[shift + 6].action == EnsureRules
    ensures steps[shift + 7].action == EnsurePower
  {
    shift := if manageServices then 1 else 0;
  }

  /** What is left of a machine, its allocation and its rules when it is gone. */
  predicate IsGone(site: Site, allocation: Allocation, g: Guest) {
    && !g.dataset && g.zvol.None? && g.seed.None? && g.seedMarker.None? && g.conf.None?
    && (allocation.subnet, allocation.mac) !in g.reservations && (site.manageAnchor ==> g.rules.None?)
  }

  lemma DeletedMachine(site: Site, name: Name, specs: map<nat, Spec>, plan: Plan, allocation: Allocation,
                       verified: set<string>, g: Guest)
    requires PlanLawful(site, name, specs, plan) && plan.operation == Delete && AllocationOf(plan) == Some(allocation)
    requires forall k :: 0 <= k < |plan.steps| ==> Satisfied(plan.steps[k], verified, g)
    ensures IsGone(site, allocation, g)
  {
    assert plan.steps[4].action == SeedAbsent && plan.steps[5].action == StorageAbsent;
    assert plan.steps[6].action == ObserveAbsent;
  }

  /** While a resource is absent, nothing is left of the machine that its allocation row, released by now, describes. */
  lemma AbsentIsGone(states: seq<State>, i: nat)
    requires IsRun(states) && i < |states| && states[i].core.db.resource.Some?
    requires states[i].core.db.effective.Some? && states[i].core.db.effective.value.state == Absent
    ensures var c := states[i].core;
            c.db.allocation.Some? && c.db.allocation.value.released
            && IsGone(c.site, c.db.allocation.value.allocation, c.guest)
  {
    RunKeepsInv(states, i);
    RunKeepsLaws(states, i);
    var c := states[i].core;
    ArchivedByDelete(c);
    var o := LastStarted(c.history).value;
    CurrentIsLawful(c, o);
    SucceededSatisfies(c, o);
    DeletedMachine(c.site, c.name, c.db.specs, c.db.operations[o].plan, c.db.allocation.value.allocation, c.verified, c.guest);
  }
}
