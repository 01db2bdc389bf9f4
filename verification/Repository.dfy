/**
  The tables of one resource and the statements that the program runs on them: internal/state/postgres.

  A method is one statement or one transaction.  A statement that reports an error may have taken effect all the same,
  because the answer can get lost; a transaction that reports an error before its commit has left nothing behind, and
  one that gets no answer to its commit may have been committed.  `case !faultless` stands for such errors; a faultless
  connection has none, and an execution without errors is one of such a connection.
 */
module Repositories {
  import opened Prelude
  import opened Planner
  import opened Guests
  import opened Journal
  import opened Protocol
  import opened Invariant
  import opened Addresses
  import Datasets

  /** What InspectResource finds out; `resume` is the first step that is not finished. */
  datatype Inspection = Inspection(generation: nat, declared: Option<Spec>, allocation: Option<AllocationRow>,
                                   effective: Option<EffectiveRow>, observation: Option<Observation>,
                                   latest: Option<OpId>, status: OpStatus, operation: Operation, steps: seq<StepRow>,
                                   resume: Option<nat>)

  datatype PrepareError = UnknownReference | DeclarationUnreadable | PoolOrImageChanged | BadRange | Exhausted
                        | NotUnique | NotFound | DatabaseFailed | KeyTaken | CommitUnanswered
                        | BadManifest | Unplannable(error: BuildError)
  /** What a preparation tells its caller; `status` is that of the operation inserted or found. */
  datatype Prepared = Prepared(op: OpId, created: bool, status: OpStatus) | NotPrepared(error: PrepareError)

  /** The rows of other resources, as the queries of an allocation see them: active ones, and all. */
  datatype OtherRows = OtherRows(activeIps: set<Ip>, activeMacs: set<Mac>, ips: set<Ip>, macs: set<Mac>)

  function StatusOf(ops: map<OpId, OpRow>, o: OpId): OpStatus {
    if o in ops then ops[o].status else Pending
  }

  /** The transaction was committed, whether or not its caller was told; a rollback is an error of another kind. */
  predicate Happened(result: Prepared) {
    result.Prepared? || result.error == CommitUnanswered
  }

  /** The rows with the verdict that an apply preparation leaves. */
  function WithVerdict(db: Db, plan: Plan): Db {
    db.(effective := Some(EffectiveRow(if db.effective == Some(EffectiveRow(Converged, plan)) then Converged
                                       else EffectivePending, plan)))
  }

  lemma MadeForAll(site: Site, operation: Operation, name: Name, generation: nat, spec: Spec, allocation: Allocation)
    requires spec.image in site.images
    ensures PlansFor(PlanOf(site, site.images[spec.image], operation, name, generation, spec, allocation), site, operation,
                     name, generation, spec, allocation)
  {
  }

  /** Declared, allocated, persisted and judged: the rows of an apply preparation. */
  lemma ApplyRows(db: Db, middle: Db, site: Site, name: Name, spec: Spec, found: Allocation, o: OpId, stamp: int)
    requires ManifestOk(name, spec) && spec.image in site.images && spec.pool in site.pools
    requires CanDeclare(db, spec) && AllocationAllowed(db, spec) && found == AllocationFor(db, found)
    requires !Active(db) ==> found.pool == spec.pool && found.image == spec.image
                             && found.generation == DeclaredGeneration(db, spec)
    requires middle == Declare(db, spec).(allocation := Some(AllocationRow(found, false)))
    requires Resolves(db.operations, ApplyPlan(db, site, name, spec, found), o)
    ensures CanPrepareApply(db, site, name, spec, found, o)
    ensures var plan := ApplyPlan(db, site, name, spec, found);
            WithVerdict(Journal.PersistOperation(middle, plan, o, stamp), plan)
            == PrepareApply(db, site, name, spec, found, o, stamp)
  {
  }

  /** A new operation is pending, and so are all its steps: none was tried, none has evidence or an error. */
  predicate Inserted(before: map<OpId, OpRow>, after: map<OpId, OpRow>, plan: Plan, o: OpId, stamp: int) {
    && o !in before && (forall other <- before :: before[other].plan != plan)
    && o in after && after == before[o := after[o]]
    && after[o].plan == plan && after[o].createdAt == stamp && after[o].status == Pending && after[o].attempts == 0
    && after[o].error.None? && |after[o].steps| == |plan.steps|
    && forall k :: 0 <= k < |plan.steps| ==>
         after[o].steps[k] == StepRow(plan.steps[k], ShaInput(plan.steps[k]), StepPending, 0, None, None)
  }

  /** Every step is pending again, without evidence or error but with its attempts; a running operation stays so. */
  predicate ResetAs(before: OpRow, after: OpRow) {
    && after.plan == before.plan && after.createdAt == before.createdAt && after.attempts == before.attempts
    && after.status == (if before.status == Running then Running else Pending)
    && after.error == (if before.status == Running then before.error else None)
    && |after.steps| == |before.steps|
    && forall k :: 0 <= k < |before.steps| ==>
         after.steps[k] == StepRow(before.steps[k].input, before.steps[k].inputDigest, StepPending,
                                   before.steps[k].attempts, None, None)
  }

  /** The operation is there with the plan; a new one is untouched, and no other row has changed. */
  predicate InsertedOrFound(before: map<OpId, OpRow>, after: map<OpId, OpRow>, plan: Plan, o: OpId, stamp: int) {
    if o in before then before[o].plan == plan && after == before else Inserted(before, after, plan, o, stamp)
  }

  /**
    After an apply preparation the resource is there, the declaration is that of its generation, the allocation is
    active and kept if it was, the plan in force is an apply for both, and the verdict is pending unless it was given
    for this very plan.
   */
  predicate ApplyWritten(db: Db, next: Db, site: Site, name: Name, spec: Spec, found: Allocation, o: OpId, stamp: int) {
    && next.resource.Some? && !next.resource.value.archived && next.effective.Some?
    && next.resource.value.generation == (if db.resource.None? || db.resource.value.generation == 0 then 1
                                          else if db.resource.value.generation in db.specs
                                                  && db.specs[db.resource.value.generation] == spec
                                          then db.resource.value.generation
                                          else db.resource.value.generation + 1)
    && next.specs == db.specs[next.resource.value.generation := spec]
    && (forall g <- db.specs :: next.specs[g] == db.specs[g])
    && found.pool == spec.pool && found.image == spec.image
    && next.allocation == Some(AllocationRow(found, false))
    && (db.allocation.Some? && !db.allocation.value.released ==> found == db.allocation.value.allocation)
    && PlansFor(next.effective.value.plan, site, Apply, name, next.resource.value.generation, spec, found)
    && next.effective.value.state == (if db.effective == Some(EffectiveRow(Converged, next.effective.value.plan))
                                      then Converged else EffectivePending)
    && InsertedOrFound(db.operations, next.operations, next.effective.value.plan, o, stamp)
    && next.observations == db.observations
  }

  /** A plan for the current declaration and the allocation row is in force; declaration and allocation stay. */
  predicate CurrentWritten(db: Db, next: Db, site: Site, name: Name, operation: Operation) {
    && db.resource.Some? && !db.resource.value.archived && db.resource.value.generation in db.specs && db.allocation.Some?
    && next.effective.Some?
    && next == db.(operations := next.operations, effective := next.effective)
    && PlansFor(next.effective.value.plan, site, operation, name, db.resource.value.generation,
                db.specs[db.resource.value.generation], db.allocation.value.allocation)
  }

  predicate DeleteWritten(db: Db, next: Db, site: Site, name: Name, o: OpId, stamp: int) {
    && CurrentWritten(db, next, site, name, Delete) && next.effective.value.state == Deleting
    && InsertedOrFound(db.operations, next.operations, next.effective.value.plan, o, stamp)
  }

  predicate ReconcileWritten(db: Db, next: Db, site: Site, name: Name, o: OpId, stamp: int) {
    && CurrentWritten(db, next, site, name, Reconcile) && next.effective.value.state == Applying
    && if o in db.operations
       then db.operations[o].plan == next.effective.value.plan && o in next.operations
            && next.operations == db.operations[o := next.operations[o]] && ResetAs(db.operations[o], next.operations[o])
       else Inserted(db.operations, next.operations, next.effective.value.plan, o, stamp)
  }

  /** Why a delete or reconcile preparation that meets no failure is refused. */
  predicate CurrentRefused(db: Db, site: Site, name: Name, operation: Operation, destroyStorage: bool, uuid: OpId,
                           error: PrepareError)
  {
    match error
    case NotFound => !HasDeclaration(db)
    case Unplannable(StorageNotAuthorised) => operation == Delete && !destroyStorage
    case Unplannable(InvalidManifest) => HasDeclaration(db) && !ManifestOk(name, db.specs[db.resource.value.generation])
    case Unplannable(UnknownPool) => HasDeclaration(db) && db.specs[db.resource.value.generation].pool !in site.pools
    case Unplannable(UnknownImage) => HasDeclaration(db) && db.specs[db.resource.value.generation].image !in site.images
    case Unplannable(GenerationNotPositive) => db.resource.Some? && db.resource.value.generation == 0
    case DatabaseFailed => uuid in db.operations
    case _ => false
  }

  lemma ApplyWrites(db: Db, site: Site, name: Name, spec: Spec, found: Allocation, o: OpId, stamp: int)
    requires CanPrepareApply(db, site, name, spec, found, o) && found == AllocationFor(db, found)
    ensures ApplyWritten(db, PrepareApply(db, site, name, spec, found, o, stamp), site, name, spec, found, o, stamp)
  {
    MadeForAll(site, Apply, name, DeclaredGeneration(db, spec), spec, found);
  }

  lemma DeleteWrites(db: Db, site: Site, name: Name, o: OpId, stamp: int)
    requires CanPrepareCurrent(db, site, name, Delete, o)
    ensures DeleteWritten(db, PrepareDelete(db, site, name, o, stamp), site, name, o, stamp)
  {
    var generation := db.resource.value.generation;
    MadeForAll(site, Delete, name, generation, db.specs[generation], db.allocation.value.allocation);
  }

  lemma ReconcileWrites(db: Db, site: Site, name: Name, o: OpId, stamp: int)
    requires CanPrepareCurrent(db, site, name, Reconcile, o)
    ensures ReconcileWritten(db, PrepareReconcile(db, site, name, o, stamp), site, name, o, stamp)
  {
    var generation := db.resource.value.generation;
    MadeForAll(site, Reconcile, name, generation, db.specs[generation], db.allocation.value.allocation);
  }

  class Repository {
    const site: Site
    const name: Name
    const candidates: seq<Mac>
    /** No statement of this connection fails, and every answer arrives. */
    const faultless: bool

    var resource: Option<ResourceRow>
    var specs: map<nat, Spec>
    var allocation: Option<AllocationRow>
    var operations: map<OpId, OpRow>
    var effective: Option<EffectiveRow>
    var observations: seq<Observation>
    var holder: Option<Pid>

    /** The processes at work and the record of the past; nothing that runs depends on them. */
    ghost var procs: map<Pid, Pc>
    ghost var origin: Guest
    ghost var history: History

    constructor (site: Site, name: Name, candidates: seq<Mac>, faultless: bool, guest: Guest)
      requires |candidates| == MAC_CANDIDATES
      ensures this.site == site && this.name == name && this.candidates == candidates && this.faultless == faultless
      ensures Rows() == EMPTY_DB && holder.None? && procs == map[] && history == Nil && origin == guest
    {
      this.site, this.name, this.candidates, this.faultless := site, name, candidates, faultless;
      resource, specs, allocation, operations, effective, observations := None, map[], None, map[], None, [];
      holder, procs, origin, history := None, map[], guest, Nil;
    }

    ghost function Rows(): Db
      reads this
    {
      Db(resource, specs, allocation, operations, effective, observations)
    }

    // ----- reading

    /** SELECT ... ORDER BY created_at DESC, uuid DESC LIMIT 1 */
    method LatestOperation() returns (latest: Option<OpId>)
      ensures latest.None? <==> operations == map[]
      ensures latest.Some? ==> IsLatest(operations, latest.value)
    {
      latest := None;
      var rest := operations.Keys;
      while rest != {}
        invariant rest <= operations.Keys
        invariant latest.None? ==> rest == operations.Keys
        invariant latest.Some? ==>
                    latest.value in operations
                    && forall o <- operations :: o !in rest ==> NotAfter(operations, o, latest.value)
        decreases |rest|
      {
        var o :| o in rest;
        rest := rest - {o};
        if latest.None? || NotAfter(operations, latest.value, o) {
          latest := Some(o);
        }
      }
      assert latest.None? ==> operations.Keys == {};
    }

    /** The steps of an operation in order, row by row. */
    method ExecutionSteps(o: OpId) returns (steps: Option<seq<StepRow>>)
      ensures steps.Some? ==> steps.value == if o in operations then operations[o].steps else []
      ensures faultless ==> steps.Some?
    {
      if { case !faultless => return None; case true => }
      var result: seq<StepRow> := [];
      if o !in operations {
        return Some(result);
      }
      for i := 0 to |operations[o].steps|
        invariant result == operations[o].steps[..i]
      {
        result := result + [operations[o].steps[i]];
      }
      steps := Some(result);
    }

    method InspectResource() returns (inspection: Option<Inspection>)
      ensures faultless ==>
                (inspection.Some? <==>
                   && resource.Some? && !resource.value.archived
                   && (resource.value.generation > 0 ==> resource.value.generation in specs))
      ensures inspection.Some? ==>
                && Visible(Rows()) && inspection.value.generation == resource.value.generation
                && (if resource.value.generation == 0 then inspection.value.declared.None?
                    else resource.value.generation in specs
                         && inspection.value.declared == Some(specs[resource.value.generation]))
                && inspection.value.allocation == allocation && inspection.value.effective == effective
                && inspection.value.observation
                   == (if |observations| == 0 then None else Some(observations[|observations| - 1]))
                && (inspection.value.latest.None? <==> operations == map[])
                && (inspection.value.latest.Some? ==>
                      && IsLatest(operations, inspection.value.latest.value)
                      && var row := operations[inspection.value.latest.value];
                         inspection.value.status == row.status && inspection.value.operation == row.plan.operation
                         && inspection.value.steps == row.steps
                         && inspection.value.resume == (if AllFinished(row) then None else Some(ResumeStep(row))))
    {
      if resource.None? || resource.value.archived {
        return None;
      }
      if { case !faultless => return None; case true => }
      var declared: Option<Spec> := None;
      if resource.value.generation > 0 {
        if resource.value.generation !in specs {
          return None;
        }
        declared := Some(specs[resource.value.generation]);
      }
      var observation: Option<Observation> := None;
      if |observations| > 0 {
        observation := Some(observations[|observations| - 1]);
      }
      var found := Inspection(resource.value.generation, declared, allocation, effective, observation,
                              None, Pending, Apply, [], None);
      var latest := LatestOperation();
      if latest.None? {
        return Some(found);
      }
      var steps := ExecutionSteps(latest.value);
      if steps.None? {
        return None;
      }
      var resume: Option<nat> := None;
      for i := 0 to |steps.value|
        invariant resume.None? && forall j :: 0 <= j < i ==> Finished(steps.value[j])
      {
        if steps.value[i].status != StepSucceeded && steps.value[i].status != StepSkipped {
          resume := Some(i);
          assert ResumeStep(operations[latest.value]) == i;
          break;
        }
      }
      var row := operations[latest.value];
      inspection := Some(found.(latest := latest, status := row.status, operation := row.plan.operation,
                                steps := steps.value, resume := resume));
    }

    // ----- the execution key

    /** pg_try_advisory_lock, on a connection of its own. */
    method LockExecution(p: Pid) returns (locked: bool)
      modifies this`holder
      ensures locked ==> old(holder).None? && holder == Some(p)
      ensures faultless ==> (locked <==> old(holder).None?)
      ensures !locked ==> holder == old(holder)
    {
      if { case !faultless => return false; case true => }
      if holder.Some? {
        return false;
      }
      holder := Some(p);
      locked := true;
    }

    /** The unlock closure, or the end of the connection or transaction that holds the key. */
    method Unlock(p: Pid)
      modifies this`holder
      ensures holder == if old(holder) == Some(p) then None else old(holder)
    {
      if holder == Some(p) {
        holder := None;
      }
    }

    // ----- the statements of an executor

    method StartOperation(o: OpId) returns (ok: bool)
      modifies this`operations
      ensures Rows() == old(Rows()) || (o in old(operations) && Rows() == Journal.StartOperation(old(Rows()), o))
      ensures ok ==> o in old(operations) && Rows() == Journal.StartOperation(old(Rows()), o)
      ensures operations == old(operations)
              || (o in old(operations) && old(operations)[o].status != Succeeded && o in operations
                  && operations == old(operations)[o := operations[o]]
                  && operations[o] == old(operations)[o].(status := Running, attempts := old(operations)[o].attempts + 1,
                                                          error := None))
      ensures ok && old(operations)[o].status != Succeeded ==> operations[o].status == Running
      ensures ok && old(operations)[o].status == Succeeded ==> operations == old(operations)
      ensures faultless ==> (ok <==> o in old(operations))
    {
      if { case !faultless => return false; case true => }
      if o in operations && operations[o].status in {Pending, Failed, Blocked, Running} {
        var row := operations[o];
        operations := operations[o := row.(status := Running, attempts := row.attempts + 1, error := None)];
      } else {
        if o !in operations {
          return false;
        }
        if operations[o].status != Succeeded {
          return false;
        }
      }
      ok :| faultless ==> ok;
    }

    method ClaimStep(o: OpId, k: nat) returns (claimed: Option<StepRow>)
      modifies this`operations
      ensures Rows() == old(Rows())
              || (HasStep(old(Rows()), o, k) && Claimable(old(operations)[o].steps[k])
                  && Rows() == Journal.ClaimStep(old(Rows()), o, k))
      ensures claimed.Some? ==>
                HasStep(old(Rows()), o, k) && Claimable(old(operations)[o].steps[k])
                && Rows() == Journal.ClaimStep(old(Rows()), o, k) && claimed.value == operations[o].steps[k]
      ensures claimed.Some? ==>
                && HasStep(old(Rows()), o, k) && old(operations)[o].steps[k].status in {StepPending, StepFailed, StepRunning}
                && claimed.value == old(operations)[o].steps[k].(status := StepRunning,
                                                                 attempts := old(operations)[o].steps[k].attempts + 1,
                                                                 error := None)
                && operations == old(operations)[o := old(operations)[o].(steps := old(operations)[o].steps[k := claimed.value])]
      ensures faultless ==>
                (claimed.Some? <==>
                   o in old(operations) && k < |old(operations)[o].steps|
                   && old(operations)[o].steps[k].status in {StepPending, StepFailed, StepRunning})
    {
      if { case !faultless => return None; case true => }
      if o !in operations || k >= |operations[o].steps|
         || operations[o].steps[k].status !in {StepPending, StepFailed, StepRunning}
      {
        return None;
      }
      var row := operations[o];
      var step := row.steps[k].(status := StepRunning, attempts := row.steps[k].attempts + 1, error := None);
      operations := operations[o := row.(steps := row.steps[k := step])];
      if { case !faultless => return None; case true => }
      claimed := Some(step);
    }

    method CompleteStep(o: OpId, k: nat, evidence: string, skipped: bool) returns (ok: bool)
      modifies this`operations
      ensures Rows() == old(Rows())
              || (HasStep(old(Rows()), o, k) && Rows() == Journal.CompleteStep(old(Rows()), o, k, evidence, skipped))
      ensures ok && HasStep(old(Rows()), o, k) ==> Rows() == Journal.CompleteStep(old(Rows()), o, k, evidence, skipped)
      ensures ok && HasStep(old(Rows()), o, k) ==>
                var step := old(operations)[o].steps[k].(status := if skipped then StepSkipped else StepSucceeded,
                                                         evidence := Some(evidence), error := None);
                operations == old(operations)[o := old(operations)[o].(steps := old(operations)[o].steps[k := step])]
      ensures faultless ==> ok
    {
      if { case !faultless => return false; case true => }
      if o in operations && k < |operations[o].steps| {
        var row := operations[o];
        var status := StepSucceeded;
        if skipped {
          status := StepSkipped;
        }
        var step := row.steps[k].(status := status, evidence := Some(evidence), error := None);
        operations := operations[o := row.(steps := row.steps[k := step])];
      }
      ok :| faultless ==> ok;
    }

    /** One transaction over the step and its operation. */
    method FailStep(o: OpId, k: nat, code: ErrorCode, blocked: bool) returns (ok: bool)
      modifies this`operations
      ensures operations == old(operations)
              || (o in old(operations) && o in operations && operations == old(operations)[o := operations[o]]
                  && operations[o] == old(operations)[o].(status := if blocked then Blocked else Failed, error := Some(code),
                                                          steps := operations[o].steps)
                  && operations[o].steps
                     == if k < |old(operations)[o].steps|
                        then old(operations)[o].steps[k := old(operations)[o].steps[k].(status := StepFailed,
                                                                                        error := Some(code))]
                        else old(operations)[o].steps)
      ensures HasStep(old(Rows()), o, k) ==>
                Rows() == old(Rows()) || Rows() == Journal.FailStep(old(Rows()), o, k, code, blocked)
      ensures ok && HasStep(old(Rows()), o, k) ==> Rows() == Journal.FailStep(old(Rows()), o, k, code, blocked)
      ensures faultless ==> ok
    {
      var operationStatus := Failed;
      if blocked {
        operationStatus := Blocked;
      }
      if { case !faultless => return false; case true => }
      if o in operations {
        var row := operations[o];
        if k < |row.steps| {
          row := row.(steps := row.steps[k := row.steps[k].(status := StepFailed, error := Some(code))]);
        }
        operations := operations[o := row.(status := operationStatus, error := Some(code))];
      }
      ok :| faultless ==> ok;
    }

    /** One transaction; a delete also releases the allocation and archives the resource. */
    method CompleteOperation(o: OpId, absent: bool) returns (ok: bool)
      requires o in operations && resource.Some? && effective.Some? && allocation.Some?
      modifies this`operations, this`effective, this`allocation, this`resource
      ensures Rows() == old(Rows()) || Rows() == Journal.CompleteOperation(old(Rows()), o, absent)
      ensures ok ==> Rows() == Journal.CompleteOperation(old(Rows()), o, absent)
      ensures ok ==>
                && operations == old(operations)[o := old(operations)[o].(status := Succeeded, error := None)]
                && effective == Some(EffectiveRow(if absent then Absent else Converged, old(effective).value.plan))
                && allocation == Some(AllocationRow(old(allocation).value.allocation, absent || old(allocation).value.released))
                && resource == Some(ResourceRow(absent || old(resource).value.archived, old(resource).value.generation))
      ensures faultless ==> ok
    {
      if { case !faultless => return false; case true => }
      operations := operations[o := operations[o].(status := Succeeded, error := None)];
      effective := Some(effective.value.(state := if absent then Absent else Converged));
      if absent {
        allocation := Some(allocation.value.(released := true));
        resource := Some(resource.value.(archived := true));
      }
      ok :| faultless ==> ok;
    }

    method RecordObservation(observation: Observation) returns (ok: bool)
      modifies this`observations
      ensures observations in {old(observations), old(observations) + [observation]}
      ensures ok ==> observations == old(observations) + [observation]
      ensures faultless ==> ok
    {
      if { case !faultless => return false; case true => }
      observations := observations + [observation];
      ok :| faultless ==> ok;
    }

    // ----- the parts of a preparation; a preparation that fails is rolled back by its caller

    /** prepareDeclaration */
    method PrepareDeclaration(spec: Spec) returns (generation: Option<nat>)
      modifies this`resource, this`specs
      ensures generation.Some? ==>
                CanDeclare(old(Rows()), spec) && generation.value == DeclaredGeneration(old(Rows()), spec)
                && Rows() == Declare(old(Rows()), spec)
      ensures generation.Some? ==>
                && resource == Some(ResourceRow(false, generation.value)) && specs == old(specs)[generation.value := spec]
                && (generation.value in old(specs) ==> old(specs)[generation.value] == spec)
                && generation.value == (if old(resource).None? || old(resource).value.generation == 0 then 1
                                        else if old(specs)[old(resource).value.generation] == spec
                                        then old(resource).value.generation
                                        else old(resource).value.generation + 1)
      ensures generation.Some? <==> CanDeclare(old(Rows()), spec)
    {
      var current := if resource.Some? then resource.value.generation else 0;
      ghost var before := Rows();
      resource := Some(ResourceRow(false, current));
      var next := 1;
      var changed := true;
      if current != 0 {
        next := current;
        if current !in specs {
          return None;
        }
        if specs[current] == spec {
          changed := false;
        } else {
          next := next + 1;
        }
      }
      if changed {
        if next in specs {
          return None;
        }
        specs := specs[next := spec];
        resource := Some(ResourceRow(false, next));
      }
      assert specs == Declare(before, spec).specs;
      generation := Some(next);
    }

    /** What the searches choose: the first address and the first candidate that no active row of another holds. */
    ghost predicate Chooses(pool: Pool, others: OtherRows, ip: Ip, mac: Mac) {
      && IsFirstFree(pool.first, pool.last, others.activeIps, ip)
      && mac !in others.activeMacs
      && exists i :: 0 <= i < |candidates| && candidates[i] == mac
                     && forall j :: 0 <= j < i ==> candidates[j] in others.activeMacs
    }

    /** A new allocation: what the searches choose, on no row of another resource, with names of its own. */
    ghost predicate Searched(spec: Spec, generation: nat, others: OtherRows, found: Allocation) {
      && spec.pool in site.pools && Chooses(site.pools[spec.pool], others, found.ip, found.mac)
      && found.ip !in others.ips && found.mac !in others.macs
      && found == Allocation(spec.pool, found.ip, found.mac, Datasets.Dataset(site.vmDataset, name),
                             Datasets.Zvol(site.vmDataset, name), site.pools[spec.pool].subnet, spec.image, generation)
    }

    /** A new allocation, field by field: of the declared pool and image, least of the free, and named after the machine. */
    ghost predicate NewAllocation(spec: Spec, generation: nat, others: OtherRows, a: Allocation) {
      && spec.pool in site.pools
      && a.pool == spec.pool && a.image == spec.image && a.generation == generation
      && a.subnet == site.pools[spec.pool].subnet
      && site.pools[spec.pool].first <= a.ip <= site.pools[spec.pool].last && a.ip !in others.activeIps
      && (forall ip :: site.pools[spec.pool].first <= ip < a.ip ==> ip in others.activeIps)
      && a.mac !in others.activeMacs
      && (exists i :: 0 <= i < |candidates| && candidates[i] == a.mac
                      && forall j :: 0 <= j < i ==> candidates[j] in others.activeMacs)
      && a.ip !in others.ips && a.mac !in others.macs
      && a.dataset == (if site.vmDataset != "" && site.vmDataset[|site.vmDataset| - 1] == '/' then site.vmDataset + name
                       else site.vmDataset + "/" + name)
      && a.zvol == a.dataset + "/disk0"
    }

    lemma SearchedInWords(spec: Spec, generation: nat, others: OtherRows, a: Allocation)
      requires Searched(spec, generation, others, a)
      ensures NewAllocation(spec, generation, others, a)
    {
      var root := site.vmDataset;
      if root != "" && root[|root| - 1] == '/' {
        assert root[..|root| - 1] + "/" == root;
      }
    }

    predicate RangeUsable(pool: Pool) {
      pool.first <= pool.last && pool.last - pool.first + 1 <= 0x10_0000 + 1
    }

    /** ensureAllocation: keep an active allocation of the same pool and image, or search for a new one. */
    method EnsureAllocation(spec: Spec, generation: nat, others: OtherRows) returns (error: Option<PrepareError>)
      requires spec.pool in site.pools && IsAddr(Addr4(site.pools[spec.pool].first)) && IsAddr(Addr4(site.pools[spec.pool].last))
      requires |candidates| == MAC_CANDIDATES
      modifies this`allocation
      ensures error.None? ==>
                && AllocationAllowed(old(Rows()), spec) && allocation.Some? && !allocation.value.released
                && if Active(old(Rows())) then allocation == old(allocation)
                   else Searched(spec, generation, others, allocation.value.allocation)
      ensures error.None? && !Active(old(Rows())) ==> NewAllocation(spec, generation, others, allocation.value.allocation)
      ensures error.None? && Active(old(Rows())) ==>
                allocation.value.allocation.pool == spec.pool && allocation.value.allocation.image == spec.image
      ensures error.Some? ==>
                allocation == old(allocation) && error.value in {PoolOrImageChanged, BadRange, Exhausted, NotUnique}
      ensures error == Some(PoolOrImageChanged) <==> !AllocationAllowed(old(Rows()), spec)
      ensures error == Some(BadRange) <==> !Active(old(Rows())) && !RangeUsable(site.pools[spec.pool])
      ensures error == Some(Exhausted) <==>
                !Active(old(Rows())) && RangeUsable(site.pools[spec.pool])
                && (AllHeld(site.pools[spec.pool].first, site.pools[spec.pool].last, others.activeIps)
                    || forall i :: 0 <= i < |candidates| ==> candidates[i] in others.activeMacs)
      ensures error == Some(NotUnique) ==>
                !Active(old(Rows()))
                && exists ip, mac :: Chooses(site.pools[spec.pool], others, ip, mac) && (ip in others.ips || mac in others.macs)
    {
      if allocation.Some? && !allocation.value.released {
        if allocation.value.allocation.pool != spec.pool || allocation.value.allocation.image != spec.image {
          return Some(PoolOrImageChanged);
        }
        return None;
      }
      var pool := site.pools[spec.pool];
      var range, ip := FindAddress(Some(Addr4(pool.first)), Some(Addr4(pool.last)), others.activeIps);
      if !range.Range? {
        return Some(BadRange);
      }
      if ip.None? {
        return Some(Exhausted);
      }
      var mac := FirstFreeMac(candidates, others.activeMacs);
      if mac.None? {
        return Some(Exhausted);
      }
      assert Chooses(pool, others, ip.value, mac.value);
      if ip.value in others.ips || mac.value in others.macs {
        return Some(NotUnique);
      }
      allocation := Some(AllocationRow(Allocation(spec.pool, ip.value, mac.value,
                                                  Datasets.Dataset(site.vmDataset, name), Datasets.Zvol(site.vmDataset, name),
                                                  pool.subnet, spec.image, generation), false));
      SearchedInWords(spec, generation, others, allocation.value.allocation);
      error := None;
    }

    /** Look the plan up by its idempotency key. */
    method FindOperation(plan: Plan) returns (found: Option<OpId>)
      ensures found.Some? ==> found.value in operations && operations[found.value].plan == plan
      ensures found.None? ==> forall o <- operations :: operations[o].plan != plan
    {
      found := None;
      var rest := operations.Keys;
      while rest != {}
        invariant rest <= operations.Keys
        invariant forall o <- operations :: o !in rest ==> operations[o].plan != plan
        decreases |rest|
      {
        var o :| o in rest;
        rest := rest - {o};
        if operations[o].plan == plan {
          return Some(o);
        }
      }
    }

    /**
      persistExecutableOperation: insert the operation under the new identifier, or take the one that has the key; then
      insert its steps one by one, where a step that is there keeps everything but an input of the same digest.
     */
    method PersistOperation(plan: Plan, uuid: OpId, stamp: int) returns (result: Option<(OpId, bool)>)
      requires RowsOk(site, name, operations)
      modifies this`operations
      ensures result.None? ==> operations == old(operations)
      ensures result.Some? ==>
                && Resolves(old(operations), plan, result.value.0) && (result.value.1 <==> result.value.0 !in old(operations))
                && Rows() == Journal.PersistOperation(old(Rows()), plan, result.value.0, stamp)
      ensures result.Some? && !result.value.1 ==>
                result.value.0 in old(operations) && old(operations)[result.value.0].plan == plan && operations == old(operations)
      ensures result.Some? && result.value.1 ==> Inserted(old(operations), operations, plan, result.value.0, stamp)
      ensures result.Some? && result.value.1 ==> result.value.0 == uuid
      ensures faultless && result.None? ==>
                uuid in old(operations) && forall o <- old(operations) :: old(operations)[o].plan != plan
    {
      if { case !faultless => return None; case true => }
      var found := FindOperation(plan);
      if found.Some? {
        var o := found.value;
        ghost var before := operations;
        assert RowOk(operations[o]);
        for i := 0 to |plan.steps|
          invariant operations == before
        {
          if operations[o].steps[i].inputDigest == ShaInput(plan.steps[i]) {
            var row := operations[o];
            operations := operations[o := row.(steps := row.steps[i := row.steps[i].(input := plan.steps[i])])];
            assert operations[o].steps == before[o].steps;
          }
        }
        return Some((o, false));
      }
      if uuid in operations {
        return None;
      }
      var steps: seq<StepRow> := [];
      for i := 0 to |plan.steps|
        invariant steps == FreshOperation(plan, stamp).steps[..i]
      {
        steps := steps + [StepRow(plan.steps[i], ShaInput(plan.steps[i]), StepPending, 0, None, None)];
      }
      assert steps == FreshOperation(plan, stamp).steps;
      operations := operations[uuid := OpRow(plan, stamp, Pending, 0, None, steps)];
      result := Some((uuid, true));
    }

    // ----- the preparations, each one transaction that has its locks

    /** Why a declaration or its allocation is refused. */
    ghost predicate CannotAllocate(db: Db, spec: Spec, others: OtherRows, error: PrepareError)
      requires spec.pool in site.pools
    {
      var pool := site.pools[spec.pool];
      match error
      case DeclarationUnreadable => !CanDeclare(db, spec)
      case PoolOrImageChanged =>
        db.allocation.Some? && !db.allocation.value.released
        && (db.allocation.value.allocation.pool != spec.pool || db.allocation.value.allocation.image != spec.image)
      case BadRange => !Active(db) && !(pool.first <= pool.last && pool.last - pool.first + 1 <= 0x10_0001)
      case Exhausted =>
        !Active(db) && (AllHeld(pool.first, pool.last, others.activeIps)
                        || forall i :: 0 <= i < |candidates| ==> candidates[i] in others.activeMacs)
      case NotUnique =>
        !Active(db) && exists ip, mac :: Chooses(pool, others, ip, mac) && (ip in others.ips || mac in others.macs)
      case _ => false
    }

    /** The first half of an apply preparation. */
    method DeclareAndAllocate(spec: Spec, others: OtherRows)
      returns (error: Option<PrepareError>, generation: nat, found: Allocation)
      requires spec.pool in site.pools && IsAddr(Addr4(site.pools[spec.pool].first)) && IsAddr(Addr4(site.pools[spec.pool].last))
      requires |candidates| == MAC_CANDIDATES
      modifies this`resource, this`specs, this`allocation
      ensures var db := old(Rows());
              if error.None? then
                && CanDeclare(db, spec) && AllocationAllowed(db, spec) && generation == DeclaredGeneration(db, spec)
                && found == AllocationFor(db, found) && (!Active(db) ==> Searched(spec, generation, others, found))
                && Rows() == Declare(db, spec).(allocation := Some(AllocationRow(found, false)))
              else
                && Rows() == db && (error.value == PoolOrImageChanged ==> !AllocationAllowed(db, spec))
                && error.value in {DeclarationUnreadable, PoolOrImageChanged, BadRange, Exhausted, NotUnique}
      ensures error.Some? ==> CannotAllocate(old(Rows()), spec, others, error.value)
    {
      var resource0, specs0 := resource, specs;
      generation := 0;
      found := Allocation("", 0, 0, "", "", 0, "", 0);
      var declared := PrepareDeclaration(spec);
      if declared.None? {
        resource, specs := resource0, specs0;
        return Some(DeclarationUnreadable), generation, found;
      }
      generation := declared.value;
      error := EnsureAllocation(spec, generation, others);
      if error.Some? {
        resource, specs := resource0, specs0;
        return;
      }
      found := allocation.value.allocation;
    }

    /** The verdict is kept for a plan that it was given for; for any other plan it is pending. */
    method SetEffective(plan: Plan)
      modifies this`effective
      ensures effective == Some(EffectiveRow(if old(effective) == Some(EffectiveRow(Converged, plan)) then Converged
                                             else EffectivePending, plan))
    {
      var keep := effective.Some? && effective.value.state == Converged && effective.value.plan == plan;
      effective := Some(EffectiveRow(if keep then Converged else EffectivePending, plan));
    }

    /** The second half of an apply preparation: plan, persist and judge. */
    method PlanAndPersist(spec: Spec, generation: nat, found: Allocation, uuid: OpId, stamp: int)
      returns (result: Prepared, ghost plan: Plan)
      requires RowsOk(site, name, operations) && spec.pool in site.pools && spec.image in site.images && generation > 0
      modifies this`operations, this`effective
      ensures plan == PlanOf(site, site.images[spec.image], Apply, name, generation, spec, found)
      ensures PlansFor(plan, site, Apply, name, generation, spec, found)
      ensures result.NotPrepared? ==>
                Rows() == old(Rows()) && result.error in {DatabaseFailed, Unplannable(InvalidManifest)}
      ensures result == NotPrepared(Unplannable(InvalidManifest)) <==> !ManifestOk(name, spec)
      ensures result.Prepared? ==>
                && Resolves(old(operations), plan, result.op) && (result.created <==> result.op !in old(operations))
                && result.op in operations && result.status == StatusOf(old(operations), result.op)
                && Rows() == WithVerdict(Journal.PersistOperation(old(Rows()), plan, result.op, stamp), plan)
      ensures result.Prepared? ==>
                if result.created then Inserted(old(operations), operations, plan, uuid, stamp) && result.op == uuid
                else operations == old(operations) && old(operations)[result.op].plan == plan
      ensures result.Prepared? ==>
                effective == Some(EffectiveRow(if old(effective) == Some(EffectiveRow(Converged, plan)) then Converged
                                               else EffectivePending, plan))
      ensures faultless && result == NotPrepared(DatabaseFailed) ==> uuid in old(operations)
    {
      plan := PlanOf(site, site.images[spec.image], Apply, name, generation, spec, found);
      MadeForAll(site, Apply, name, generation, spec, found);
      var built := BuildExecutableApply(site, name, generation, spec, found);
      if built.BuildFailed? {
        return NotPrepared(Unplannable(built.error)), plan;
      }
      var persisted := PersistOperation(built.plan, uuid, stamp);
      if persisted.None? {
        return NotPrepared(DatabaseFailed), plan;
      }
      SetEffective(built.plan);
      result := Prepared(persisted.value.0, persisted.value.1, operations[persisted.value.0].status);
    }

    /** What a preparation checks before its transaction begins. */
    method CheckManifest(spec: Spec) returns (error: Option<PrepareError>)
      ensures error.None? <==> ManifestOk(name, spec) && spec.pool in site.pools && spec.image in site.images
      ensures error == Some(BadManifest) <==> !ManifestOk(name, spec)
      ensures error == Some(UnknownReference) <==>
                ManifestOk(name, spec) && (spec.pool !in site.pools || spec.image !in site.images)
    {
      var problems := Validate(name, spec);
      if problems != [] {
        return Some(BadManifest);
      }
      if spec.pool !in site.pools || spec.image !in site.images {
        return Some(UnknownReference);
      }
      error := None;
    }

    /** Why an apply preparation that meets no failure is refused. */
    ghost predicate ApplyRefused(db: Db, spec: Spec, others: OtherRows, uuid: OpId, error: PrepareError) {
      match error
      case BadManifest => !ManifestOk(name, spec)
      case UnknownReference => spec.pool !in site.pools || spec.image !in site.images
      case DatabaseFailed => uuid in db.operations
      case _ => spec.pool in site.pools && CannotAllocate(db, spec, others, error)
    }

    /** The transaction ends without effect on the declaration and the allocation. */
    method RollBack(resource0: Option<ResourceRow>, specs0: map<nat, Spec>, allocation0: Option<AllocationRow>)
      modifies this`resource, this`specs, this`allocation
      ensures Rows() == old(Rows()).(resource := resource0, specs := specs0, allocation := allocation0)
    {
      resource, specs, allocation := resource0, specs0, allocation0;
    }

    /** The transaction of an apply preparation.  `written` is what may have been committed although no answer came. */
    method ApplyTransaction(spec: Spec, uuid: OpId, stamp: int, others: OtherRows)
      returns (result: Prepared, found: Allocation, ghost written: OpId)
      requires RowsOk(site, name, operations) && |candidates| == MAC_CANDIDATES
      requires forall n <- site.pools :: IsAddr(Addr4(site.pools[n].first)) && IsAddr(Addr4(site.pools[n].last))
      requires spec.pool in site.pools && spec.image in site.images
      modifies this`resource, this`specs, this`allocation, this`operations, this`effective
      ensures result.Prepared? ==>
                && written == result.op && result.status == StatusOf(old(operations), result.op)
                && (result.created <==> result.op !in old(operations))
                && (!Active(old(Rows())) ==> Searched(spec, DeclaredGeneration(old(Rows()), spec), others, found))
      ensures Happened(result) ==>
                && CanPrepareApply(old(Rows()), site, name, spec, found, written) && found == AllocationFor(old(Rows()), found)
                && Rows() == PrepareApply(old(Rows()), site, name, spec, found, written, stamp)
      ensures !Happened(result) ==> Rows() == old(Rows())
      ensures result.NotPrepared? ==>
                result.error in {DeclarationUnreadable, PoolOrImageChanged, BadRange, Exhausted, NotUnique, DatabaseFailed,
                                 CommitUnanswered, Unplannable(InvalidManifest)}
      ensures result == NotPrepared(PoolOrImageChanged) ==> !AllocationAllowed(old(Rows()), spec)
      ensures result == NotPrepared(Unplannable(InvalidManifest)) ==> !ManifestOk(name, spec)
      ensures faultless && result == NotPrepared(DatabaseFailed) ==> uuid in old(operations)
      ensures result.NotPrepared? && result.error in {DeclarationUnreadable, PoolOrImageChanged, BadRange, Exhausted, NotUnique}
              ==> CannotAllocate(old(Rows()), spec, others, result.error)
      ensures faultless ==> result != NotPrepared(CommitUnanswered)
    {
      written := uuid;
      var resource0, specs0, allocation0 := resource, specs, allocation;
      var error, generation;
      error, generation, found := DeclareAndAllocate(spec, others);
      if error.Some? {
        return NotPrepared(error.value), found, written;
      }
      ghost var middle := Rows();
      ghost var plan;
      result, plan := PlanAndPersist(spec, generation, found, uuid, stamp);
      if result.NotPrepared? {
        RollBack(resource0, specs0, allocation0);
        return;
      }
      written := result.op;
      ApplyRows(old(Rows()), middle, site, name, spec, found, written, stamp);
      if { case !faultless => return NotPrepared(CommitUnanswered), found, written; case true => }
    }

    /** PrepareExecutableApply: check the manifest, and then the transaction. */
    method PrepareExecutableApply(spec: Spec, uuid: OpId, stamp: int, others: OtherRows)
      returns (result: Prepared, found: Allocation, ghost written: OpId)
      requires RowsOk(site, name, operations) && |candidates| == MAC_CANDIDATES
      requires forall n <- site.pools :: IsAddr(Addr4(site.pools[n].first)) && IsAddr(Addr4(site.pools[n].last))
      modifies this`resource, this`specs, this`allocation, this`operations, this`effective
      ensures result.Prepared? ==>
                && written == result.op && result.status == StatusOf(old(operations), result.op)
                && (result.created <==> result.op !in old(operations))
                && (!Active(old(Rows())) ==> Searched(spec, DeclaredGeneration(old(Rows()), spec), others, found))
      ensures Happened(result) ==>
                && CanPrepareApply(old(Rows()), site, name, spec, found, written) && found == AllocationFor(old(Rows()), found)
                && Rows() == PrepareApply(old(Rows()), site, name, spec, found, written, stamp)
      ensures Happened(result) ==> ApplyWritten(old(Rows()), Rows(), site, name, spec, found, written, stamp)
      ensures !Happened(result) ==> Rows() == old(Rows())
      ensures result == NotPrepared(PoolOrImageChanged) ==> !AllocationAllowed(old(Rows()), spec)
      ensures result == NotPrepared(BadManifest) <==> !ManifestOk(name, spec)
      ensures result == NotPrepared(UnknownReference) <==>
                ManifestOk(name, spec) && (spec.pool !in site.pools || spec.image !in site.images)
      ensures faultless && result.NotPrepared? ==> ApplyRefused(old(Rows()), spec, others, uuid, result.error)
    {
      found := Allocation("", 0, 0, "", "", 0, "", 0);
      written := uuid;
      var error := CheckManifest(spec);
      if error.Some? {
        return NotPrepared(error.value), found, written;
      }
      result, found, written := ApplyTransaction(spec, uuid, stamp, others);
      if Happened(result) {
        ApplyWrites(old(Rows()), site, name, spec, found, written, stamp);
      }
    }

    /** What delete and reconcile load before they plan. */
    method LoadDeclaration() returns (spec: Option<Spec>)
      ensures spec.Some? ==> HasDeclaration(Rows()) && spec.value == specs[resource.value.generation]
      ensures spec.Some? <==>
                resource.Some? && !resource.value.archived && resource.value.generation in specs && allocation.Some?
    {
      if resource.None? || resource.value.archived || resource.value.generation !in specs || allocation.None? {
        return None;
      }
      spec := Some(specs[resource.value.generation]);
    }

    /** What a delete preparation plans, or why it does not. */
    method PlanDelete(destroyStorage: bool) returns (error: Option<PrepareError>, plan: Option<Plan>)
      ensures error.None? <==>
                && destroyStorage && HasDeclaration(Rows()) && resource.value.generation > 0
                && ManifestOk(name, specs[resource.value.generation])
                && specs[resource.value.generation].pool in site.pools
                && specs[resource.value.generation].image in site.images
      ensures error.None? ==> plan == Some(CurrentPlan(Rows(), site, name, Delete))
      ensures error.Some? ==>
                error.value != CommitUnanswered && error.value != KeyTaken
                && forall uuid :: CurrentRefused(Rows(), site, name, Delete, destroyStorage, uuid, error.value)
      ensures error == Some(NotFound) <==> !HasDeclaration(Rows())
      ensures error == Some(Unplannable(StorageNotAuthorised)) <==> HasDeclaration(Rows()) && !destroyStorage
    {
      plan := None;
      var spec := LoadDeclaration();
      if spec.None? {
        return Some(NotFound), plan;
      }
      var built := BuildExecutableDelete(site, name, resource.value.generation, spec.value,
                                         allocation.value.allocation, destroyStorage);
      if built.BuildFailed? {
        return Some(Unplannable(built.error)), plan;
      }
      error, plan := None, Some(built.plan);
    }

    method PrepareExecutableDelete(destroyStorage: bool, uuid: OpId, stamp: int)
      returns (result: Prepared, ghost written: OpId)
      requires RowsOk(site, name, operations)
      modifies this`operations, this`effective
      ensures result.Prepared? ==>
                && written == result.op && result.status == StatusOf(old(operations), result.op)
                && (result.created <==> result.op !in old(operations))
      ensures Happened(result) ==>
                && destroyStorage && CanPrepareCurrent(old(Rows()), site, name, Delete, written)
                && Rows() == PrepareDelete(old(Rows()), site, name, written, stamp)
      ensures Happened(result) ==> DeleteWritten(old(Rows()), Rows(), site, name, written, stamp)
      ensures !Happened(result) ==> Rows() == old(Rows())
      ensures !destroyStorage || !HasDeclaration(old(Rows())) ==> result.NotPrepared?
      ensures result == NotPrepared(NotFound) ==> !HasDeclaration(old(Rows()))
      ensures result == NotPrepared(Unplannable(StorageNotAuthorised)) ==> !destroyStorage
      ensures faultless && uuid !in old(operations) ==>
                (result.Prepared? <==>
                   && destroyStorage && HasDeclaration(old(Rows())) && resource.value.generation > 0
                   && ManifestOk(name, specs[resource.value.generation])
                   && specs[resource.value.generation].pool in site.pools
                   && specs[resource.value.generation].image in site.images)
      ensures faultless && HasDeclaration(old(Rows())) && !destroyStorage ==>
                result == NotPrepared(Unplannable(StorageNotAuthorised))
      ensures faultless && !HasDeclaration(old(Rows())) ==> result == NotPrepared(NotFound)
      ensures faultless && result.NotPrepared? ==>
                CurrentRefused(old(Rows()), site, name, Delete, destroyStorage, uuid, result.error)
    {
      written := uuid;
      if { case !faultless => return NotPrepared(DatabaseFailed), written; case true => }
      var error, plan := PlanDelete(destroyStorage);
      if error.Some? {
        return NotPrepared(error.value), written;
      }
      var persisted := PersistOperation(plan.value, uuid, stamp);
      if persisted.None? {
        return NotPrepared(DatabaseFailed), written;
      }
      written := persisted.value.0;
      effective := Some(EffectiveRow(Deleting, plan.value));
      DeleteWrites(old(Rows()), site, name, written, stamp);
      if { case !faultless => return NotPrepared(CommitUnanswered), written; case true => }
      result := Prepared(persisted.value.0, persisted.value.1, operations[persisted.value.0].status);
    }

    /** The two UPDATEs that put an operation and all its steps back to the beginning. */
    method ResetSteps(o: OpId)
      requires o in operations
      modifies this`operations
      ensures operations == old(operations)[o := ResetOperation(old(operations)[o])]
      ensures ResetAs(old(operations)[o], operations[o])
    {
      var row := operations[o];
      if row.status != Running {
        row := row.(status := Pending, error := None);
      }
      var steps := row.steps;
      for k := 0 to |steps|
        invariant |steps| == |row.steps|
        invariant forall j :: 0 <= j < k ==> steps[j] == ResetStep(row.steps[j])
        invariant forall j :: k <= j < |steps| ==> steps[j] == row.steps[j]
      {
        steps := steps[k := steps[k].(status := StepPending, evidence := None, error := None)];
      }
      assert steps == ResetOperation(operations[o]).steps;
      operations := operations[o := row.(steps := steps)];
    }

    /** Insert the operation, or put the one that has the key back to the beginning. */
    method PersistReconcile(plan: Plan, uuid: OpId, stamp: int) returns (result: Option<(OpId, bool)>)
      requires RowsOk(site, name, operations)
      modifies this`operations
      ensures result.None? ==> Rows() == old(Rows())
      ensures result.Some? ==> Resolves(old(operations), plan, result.value.0)
      ensures result.Some? ==>
                && (result.value.1 <==> result.value.0 !in old(operations))
                && operations == (if result.value.0 in old(operations)
                                  then old(operations)[result.value.0 := ResetOperation(old(operations)[result.value.0])]
                                  else old(operations)[result.value.0 := FreshOperation(plan, stamp)])
      ensures faultless && result.None? ==> uuid in old(operations)
    {
      result := PersistOperation(plan, uuid, stamp);
      if result.None? {
        return;
      }
      var operations0 := operations;
      if !result.value.1 {
        ResetSteps(result.value.0);
        if {
          case !faultless =>
            operations := operations0;
            return None;
          case true =>
        }
      }
    }

    /** What a reconcile preparation plans, or why it does not. */
    method PlanReconcile() returns (error: Option<PrepareError>, plan: Option<Plan>)
      ensures error.None? <==>
                && HasDeclaration(Rows()) && resource.value.generation > 0
                && ManifestOk(name, specs[resource.value.generation])
                && specs[resource.value.generation].pool in site.pools
                && specs[resource.value.generation].image in site.images
      ensures error.None? ==> plan == Some(CurrentPlan(Rows(), site, name, Reconcile))
      ensures error.Some? ==>
                error.value != CommitUnanswered && error.value != KeyTaken
                && forall uuid :: CurrentRefused(Rows(), site, name, Reconcile, true, uuid, error.value)
      ensures error == Some(NotFound) <==> !HasDeclaration(Rows())
    {
      plan := None;
      var spec := LoadDeclaration();
      if spec.None? {
        return Some(NotFound), plan;
      }
      var built := BuildExecutableReconcile(site, name, resource.value.generation, spec.value, allocation.value.allocation);
      if built.BuildFailed? {
        return Some(Unplannable(built.error)), plan;
      }
      error, plan := None, Some(built.plan);
    }

    method PrepareExecutableReconcile(uuid: OpId, stamp: int) returns (result: Prepared, ghost written: OpId)
      requires RowsOk(site, name, operations)
      modifies this`operations, this`effective
      ensures result.Prepared? ==>
                && written == result.op && result.status == Pending && (result.created <==> result.op !in old(operations))
      ensures Happened(result) ==>
                && CanPrepareCurrent(old(Rows()), site, name, Reconcile, written)
                && Rows() == PrepareReconcile(old(Rows()), site, name, written, stamp)
      ensures Happened(result) ==> ReconcileWritten(old(Rows()), Rows(), site, name, written, stamp)
      ensures !Happened(result) ==> Rows() == old(Rows())
      ensures result == NotPrepared(NotFound) ==> !HasDeclaration(old(Rows()))
      ensures faultless && uuid !in old(operations) ==>
                (result.Prepared? <==>
                   && HasDeclaration(old(Rows())) && resource.value.generation > 0
                   && ManifestOk(name, specs[resource.value.generation])
                   && specs[resource.value.generation].pool in site.pools
                   && specs[resource.value.generation].image in site.images)
      ensures faultless && !HasDeclaration(old(Rows())) ==> result == NotPrepared(NotFound)
      ensures faultless && result.NotPrepared? ==>
                CurrentRefused(old(Rows()), site, name, Reconcile, true, uuid, result.error)
    {
      written := uuid;
      if { case !faultless => return NotPrepared(DatabaseFailed), written; case true => }
      var error, plan := PlanReconcile();
      if error.Some? {
        return NotPrepared(error.value), written;
      }
      var persisted := PersistReconcile(plan.value, uuid, stamp);
      if persisted.None? {
        return NotPrepared(DatabaseFailed), written;
      }
      written := persisted.value.0;
      effective := Some(EffectiveRow(Applying, plan.value));
      ReconcileWrites(old(Rows()), site, name, written, stamp);
      if { case !faultless => return NotPrepared(CommitUnanswered), written; case true => }
      result := Prepared(persisted.value.0, persisted.value.1, Pending);
    }
  }
}
