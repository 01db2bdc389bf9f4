/**
  The rows that the database holds about one resource, and what each statement of the repository does to
  them: internal/state/postgres (execution.go, reconcile.go, repository.go, execution_steps.go) over the
  tables of migrations/0001_v2_state.sql and 0002_v2_execution.sql.

  Operation identifiers are random UUIDs and creation stamps are transaction start times, so neither follows
  the order in which operations are committed; nothing here assumes that they do.
 */
module Journal {
  import opened Prelude
  import opened Planner
  import opened Guests

  type OpId = nat

  datatype StepStatus = StepPending | StepRunning | StepSucceeded | StepSkipped | StepFailed
  datatype OpStatus = Pending | Running | Succeeded | Failed | Blocked
  datatype ErrorCode = InputMismatch | ObservationNotPersisted | DriverFailed | DriverBlocked
  datatype EffectiveState = EffectivePending | Applying | Converged | Deleting | Absent

  datatype InputDigest = ShaInput(of: StepInput)
  datatype StepRow = StepRow(input: StepInput, inputDigest: InputDigest, status: StepStatus, attempts: nat,
                             evidence: Option<string>, error: Option<ErrorCode>)
  datatype OpRow = OpRow(plan: Plan, createdAt: int, status: OpStatus, attempts: nat, error: Option<ErrorCode>,
                         steps: seq<StepRow>)

  /** Generation zero stands for NULL. */
  datatype ResourceRow = ResourceRow(archived: bool, generation: nat)
  datatype AllocationRow = AllocationRow(allocation: Allocation, released: bool)
  datatype EffectiveRow = EffectiveRow(state: EffectiveState, plan: Plan)

  datatype Db = Db(resource: Option<ResourceRow>, specs: map<nat, Spec>, allocation: Option<AllocationRow>,
                   operations: map<OpId, OpRow>, effective: Option<EffectiveRow>, observations: seq<Observation>)

  const EMPTY_DB := Db(None, map[], None, map[], None, [])

  // ----- reading

  predicate Finished(row: StepRow) {
    row.status == StepSucceeded || row.status == StepSkipped
  }

  predicate Visible(db: Db) {
    db.resource.Some? && !db.resource.value.archived
  }

  /** ORDER BY created_at, uuid. */
  predicate NotAfter(ops: map<OpId, OpRow>, a: OpId, b: OpId)
    requires a in ops && b in ops
  {
    ops[a].createdAt < ops[b].createdAt || (ops[a].createdAt == ops[b].createdAt && a <= b)
  }

  predicate IsLatest(ops: map<OpId, OpRow>, o: OpId) {
    o in ops && forall other <- ops :: NotAfter(ops, other, o)
  }

  /** The first unfinished step at or after `from`: the resume step that InspectResource reports. */
  function ResumeFrom(steps: seq<StepRow>, from: nat): (k: nat)
    requires from <= |steps|
    ensures from <= k <= |steps|
    ensures forall i :: from <= i < k ==> Finished(steps[i])
    ensures k < |steps| ==> !Finished(steps[k])
    decreases |steps| - from
  {
    if from == |steps| || !Finished(steps[from]) then from else ResumeFrom(steps, from + 1)
  }

  function ResumeStep(row: OpRow): nat {
    ResumeFrom(row.steps, 0)
  }

  lemma LatestExists(ops: map<OpId, OpRow>)
    requires ops != map[]
    ensures exists o :: IsLatest(ops, o)
    decreases |ops|
  {
    var o :| o in ops;
    var rest := ops - {o};
    assert ops.Keys == rest.Keys + {o};
    if rest == map[] {
      assert IsLatest(ops, o);
    } else {
      LatestExists(rest);
      var best :| IsLatest(rest, best);
      if NotAfter(ops, best, o) {
        forall other | other in ops ensures NotAfter(ops, other, o) {
          if other != o { assert NotAfter(rest, other, best); }
        }
        assert IsLatest(ops, o);
      } else {
        forall other | other in ops ensures NotAfter(ops, other, best) {
          if other != o { assert NotAfter(rest, other, best); }
        }
        assert IsLatest(ops, best);
      }
    }
  }

  lemma LatestIsUnique(ops: map<OpId, OpRow>, a: OpId, b: OpId)
    requires IsLatest(ops, a) && IsLatest(ops, b)
    ensures a == b
  {
    assert NotAfter(ops, a, b) && NotAfter(ops, b, a);
  }

  // ----- the executor's statements

  function WithOp(db: Db, o: OpId, row: OpRow): Db {
    db.(operations := db.operations[o := row])
  }

  function WithStep(db: Db, o: OpId, k: nat, step: StepRow): Db
    requires o in db.operations && k < |db.operations[o].steps|
  {
    var row := db.operations[o];
    WithOp(db, o, row.(steps := row.steps[k := step]))
  }

  predicate HasStep(db: Db, o: OpId, k: nat) {
    o in db.operations && k < |db.operations[o].steps|
  }

  function StartOperation(db: Db, o: OpId): Db
    requires o in db.operations
  {
    var row := db.operations[o];
    if row.status == Succeeded then db
    else WithOp(db, o, row.(status := Running, attempts := row.attempts + 1, error := None))
  }

  predicate Claimable(row: StepRow) {
    row.status in {StepPending, StepFailed, StepRunning}
  }

  function ClaimStep(db: Db, o: OpId, k: nat): Db
    requires HasStep(db, o, k)
  {
    var step := db.operations[o].steps[k];
    WithStep(db, o, k, step.(status := StepRunning, attempts := step.attempts + 1, error := None))
  }

  function CompleteStep(db: Db, o: OpId, k: nat, evidence: string, skipped: bool): Db
    requires HasStep(db, o, k)
  {
    var step := db.operations[o].steps[k];
    WithStep(db, o, k, step.(status := if skipped then StepSkipped else StepSucceeded,
                             evidence := Some(evidence), error := None))
  }

  function FailStep(db: Db, o: OpId, k: nat, code: ErrorCode, blocked: bool): Db
    requires HasStep(db, o, k)
  {
    var row := db.operations[o];
    var step := row.steps[k];
    WithOp(db, o, row.(status := if blocked then Blocked else Failed, error := Some(code),
                       steps := row.steps[k := step.(status := StepFailed, error := Some(code))]))
  }

  function RecordObservation(db: Db, observation: Observation): Db {
    db.(observations := db.observations + [observation])
  }

  /** One transaction; `absent` also releases the allocation and archives the resource. */
  function CompleteOperation(db: Db, o: OpId, absent: bool): Db
    requires o in db.operations && db.resource.Some? && db.effective.Some? && db.allocation.Some?
  {
    var done := WithOp(db, o, db.operations[o].(status := Succeeded, error := None))
                .(effective := Some(db.effective.value.(state := if absent then Absent else Converged)));
    if absent then
      done.(allocation := Some(db.allocation.value.(released := true)),
            resource := Some(db.resource.value.(archived := true)))
    else done
  }

  // ----- preparation

  function FreshStep(input: StepInput): StepRow {
    StepRow(input, ShaInput(input), StepPending, 0, None, None)
  }

  function FreshOperation(plan: Plan, stamp: int): OpRow {
    OpRow(plan, stamp, Pending, 0, None,
          seq(|plan.steps|, i requires 0 <= i < |plan.steps| => FreshStep(plan.steps[i])))
  }

  /** The idempotency key is unique: `o` is the operation that has it, or a new one when none has. */
  predicate Resolves(ops: map<OpId, OpRow>, plan: Plan, o: OpId) {
    if o in ops then ops[o].plan == plan
    else forall other <- ops :: ops[other].plan != plan
  }

  /** Insert or reuse; a reused operation keeps its stamp, its status and all its steps. */
  function PersistOperation(db: Db, plan: Plan, o: OpId, stamp: int): Db {
    if o in db.operations then db else WithOp(db, o, FreshOperation(plan, stamp))
  }

  predicate SameDeclaration(db: Db, spec: Spec) {
    && db.resource.Some? && db.resource.value.generation > 0
    && db.resource.value.generation in db.specs && db.specs[db.resource.value.generation] == spec
  }

  /** prepareDeclaration: the generation that the declaration has afterwards. */
  function DeclaredGeneration(db: Db, spec: Spec): nat {
    if db.resource.None? || db.resource.value.generation == 0 then 1
    else if SameDeclaration(db, spec) then db.resource.value.generation
    else db.resource.value.generation + 1
  }

  /** The current declaration can be read, and a new one does not hit the primary key. */
  predicate CanDeclare(db: Db, spec: Spec) {
    && (db.resource.Some? && db.resource.value.generation > 0 ==> db.resource.value.generation in db.specs)
    && (SameDeclaration(db, spec) || DeclaredGeneration(db, spec) !in db.specs)
  }

  function Declare(db: Db, spec: Spec): Db {
    var generation := DeclaredGeneration(db, spec);
    db.(resource := Some(ResourceRow(false, generation)), specs := db.specs[generation := spec])
  }

  predicate Active(db: Db) {
    db.allocation.Some? && !db.allocation.value.released
  }

  /** An active allocation is kept, and must be of the pool and image that the declaration names. */
  predicate AllocationAllowed(db: Db, spec: Spec) {
    Active(db) ==> db.allocation.value.allocation.pool == spec.pool && db.allocation.value.allocation.image == spec.image
  }

  /** The allocation after preparation; `found` is what the search found, used only when nothing is active. */
  function AllocationFor(db: Db, found: Allocation): Allocation {
    if Active(db) then db.allocation.value.allocation else found
  }

  function ApplyPlan(db: Db, site: Site, name: Name, spec: Spec, found: Allocation): Plan
    requires spec.image in site.images
  {
    PlanOf(site, site.images[spec.image], Apply, name, DeclaredGeneration(db, spec), spec, AllocationFor(db, found))
  }

  predicate CanPrepareApply(db: Db, site: Site, name: Name, spec: Spec, found: Allocation, o: OpId) {
    && ManifestOk(name, spec) && spec.image in site.images && spec.pool in site.pools
    && CanDeclare(db, spec) && AllocationAllowed(db, spec)
    && (!Active(db) ==> found.pool == spec.pool && found.image == spec.image
                        && found.generation == DeclaredGeneration(db, spec))
    && Resolves(db.operations, ApplyPlan(db, site, name, spec, found), o)
  }

  function PrepareApply(db: Db, site: Site, name: Name, spec: Spec, found: Allocation, o: OpId, stamp: int): Db
    requires CanPrepareApply(db, site, name, spec, found, o)
  {
    var plan := ApplyPlan(db, site, name, spec, found);
    var keep := db.effective.Some? && db.effective.value == EffectiveRow(Converged, plan);
    PersistOperation(Declare(db, spec), plan, o, stamp)
      .(allocation := Some(AllocationRow(AllocationFor(db, found), false)),
        effective := Some(EffectiveRow(if keep then Converged else EffectivePending, plan)))
  }

  /** Delete and reconcile work on the current declaration and whatever allocation row there is. */
  predicate HasDeclaration(db: Db) {
    Visible(db) && db.resource.value.generation in db.specs && db.allocation.Some?
  }

  function CurrentPlan(db: Db, site: Site, name: Name, operation: Operation): Plan
    requires HasDeclaration(db)
    requires db.specs[db.resource.value.generation].image in site.images
  {
    var spec := db.specs[db.resource.value.generation];
    PlanOf(site, site.images[spec.image], operation, name, db.resource.value.generation, spec,
           db.allocation.value.allocation)
  }

  predicate CanPrepareCurrent(db: Db, site: Site, name: Name, operation: Operation, o: OpId) {
    && HasDeclaration(db) && ManifestOk(name, db.specs[db.resource.value.generation])
    && db.specs[db.resource.value.generation].image in site.images
    && db.specs[db.resource.value.generation].pool in site.pools
    && Resolves(db.operations, CurrentPlan(db, site, name, operation), o)
  }

  function PrepareDelete(db: Db, site: Site, name: Name, o: OpId, stamp: int): Db
    requires CanPrepareCurrent(db, site, name, Delete, o)
  {
    var plan := CurrentPlan(db, site, name, Delete);
    PersistOperation(db, plan, o, stamp).(effective := Some(EffectiveRow(Deleting, plan)))
  }

  function ResetStep(step: StepRow): StepRow {
    step.(status := StepPending, evidence := None, error := None)
  }

  function ResetOperation(row: OpRow): OpRow {
    row.(status := if row.status == Running then Running else Pending,
         error := if row.status == Running then row.error else None,
         steps := seq(|row.steps|, i requires 0 <= i < |row.steps| => ResetStep(row.steps[i])))
  }

  function PrepareReconcile(db: Db, site: Site, name: Name, o: OpId, stamp: int): Db
    requires CanPrepareCurrent(db, site, name, Reconcile, o)
  {
    var plan := CurrentPlan(db, site, name, Reconcile);
    var persisted := if o in db.operations then WithOp(db, o, ResetOperation(db.operations[o]))
                     else PersistOperation(db, plan, o, stamp);
    persisted.(effective := Some(EffectiveRow(Applying, plan)))
  }
}
