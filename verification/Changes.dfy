/** What can and cannot change from one state of a run to the next, and from any state to any later one. */
module Changes {
  import opened Prelude
  import opened Planner
  import opened Guests
  import opened Journal
  import opened Protocol
  import opened Invariant
  import opened Runs

  // ----- operations

  /** Operations are never removed, and keep plan and stamp. */
  ghost predicate Keeps(ops: map<OpId, OpRow>, more: map<OpId, OpRow>) {
    forall o <- ops :: o in more && more[o].plan == ops[o].plan && more[o].createdAt == ops[o].createdAt
  }

  lemma ActKeepsOperations(c: Core, pc: Pc, act: Act)
    requires CanAct(c, pc, act)
    ensures Keeps(c.db.operations, ActCore(c, pc, act).db.operations)
  {
  }

  lemma PreparationKeepsOperations(c: Core, preparation: Preparation, stamp: int)
    requires CanPrepare(c, preparation)
    ensures Keeps(c.db.operations, PrepareCore(c, preparation, stamp).db.operations)
  {
  }

  lemma StepKeepsOperations(s: State, p: Pid, l: Label)
    requires Enabled(s, p, l)
    ensures Keeps(s.core.db.operations, After(s, p, l).core.db.operations)
  {
    match l
    case Advance(act) => ActKeepsOperations(s.core, s.procs[p], act);
    case Commit(preparation) => PreparationKeepsOperations(s.core, preparation, s.procs[p].stamp);
    case _ =>
  }

  lemma RunKeepsOperations(states: seq<State>, i: nat, j: nat)
    requires IsRun(states) && i <= j < |states|
    ensures Keeps(states[i].core.db.operations, states[j].core.db.operations)
  {
    if i < j {
      RunKeepsOperations(states, i, j - 1);
      assert Follows(states, j - 1);
      var p, l :| Enabled(states[j - 1], p, l) && states[j] == After(states[j - 1], p, l);
      StepKeepsOperations(states[j - 1], p, l);
    }
  }

  /** The operation a Run is working on once it has inspected it. */
  predicate WorksOn(pc: Pc, o: OpId) {
    match pc
    case Starting(op, _) => op == o
    case Walking(op, _, _) => op == o
    case Checking(op, _, _, _) => op == o
    case Calling(op, _, _, _, _) => op == o
    case Reporting(op, _, _, _) => op == o
    case Settling(op, _, _, _) => op == o
    case Concluding(op) => op == o
    case _ => false
  }

  lemma ActWritesOneRow(c: Core, pc: Pc, act: Act, o: OpId)
    requires CanAct(c, pc, act) && o in c.db.operations && !WorksOn(pc, o)
    ensures o in ActCore(c, pc, act).db.operations && ActCore(c, pc, act).db.operations[o] == c.db.operations[o]
  {
  }

  lemma WorkIsUnfinished(c: Core, pc: Pc, o: OpId)
    requires PcOk(c, pc) && WorksOn(pc, o)
    ensures o in c.db.operations && c.db.operations[o].status != Succeeded
  {
  }

  lemma PreparationsKeepRows(c: Core, preparation: Preparation, stamp: int, o: OpId)
    requires CanPrepare(c, preparation) && o in c.db.operations
    ensures o in PrepareCore(c, preparation, stamp).db.operations
    ensures PrepareCore(c, preparation, stamp).db.operations[o]
            == if preparation == PrepareReconciliation(o) then ResetOperation(c.db.operations[o]) else c.db.operations[o]
    ensures preparation == PrepareReconciliation(o) ==> c.db.operations[o].plan.operation == Reconcile
  {
  }

  lemma SucceededStepIsTerminal(s: State, p: Pid, l: Label, o: OpId)
    requires Inv(s) && Enabled(s, p, l)
    requires o in s.core.db.operations && s.core.db.operations[o].status == Succeeded
    requires s.core.db.operations[o].plan.operation != Reconcile
    ensures o in After(s, p, l).core.db.operations
    ensures After(s, p, l).core.db.operations[o] == s.core.db.operations[o]
  {
    match l
    case Advance(act) =>
      ActorHolds(s, p, act);
      if WorksOn(s.procs[p], o) { WorkIsUnfinished(s.core, s.procs[p], o); }
      ActWritesOneRow(s.core, s.procs[p], act, o);
    case Commit(preparation) => PreparationsKeepRows(s.core, preparation, s.procs[p].stamp, o);
    case _ =>
  }

  /** An apply or delete that has succeeded never changes again: not its steps, not its attempts, not its evidence. */
  lemma SucceededIsTerminal(states: seq<State>, i: nat, j: nat, o: OpId)
    requires IsRun(states) && i <= j < |states|
    requires o in states[i].core.db.operations && states[i].core.db.operations[o].status == Succeeded
    requires states[i].core.db.operations[o].plan.operation != Reconcile
    ensures o in states[j].core.db.operations && states[j].core.db.operations[o] == states[i].core.db.operations[o]
  {
    if i < j {
      SucceededIsTerminal(states, i, j - 1, o);
      RunKeepsInv(states, j - 1);
      assert Follows(states, j - 1);
      var p, l :| Enabled(states[j - 1], p, l) && states[j] == After(states[j - 1], p, l);
      SucceededStepIsTerminal(states[j - 1], p, l, o);
      StepKeepsOperations(states[j - 1], p, l);
    }
  }

  /**
    Which operation a Run executes.  A preparation that inserts an operation is followed by a Run of that operation
    if and only if its stamp and identifier come after those of all others; the order of commits plays no part.
   */
  lemma InsertedBecomesLatest(db: Db, plan: Plan, o: OpId, stamp: int)
    requires o !in db.operations
    ensures IsLatest(PersistOperation(db, plan, o, stamp).operations, o)
            <==> forall other :: other in db.operations ==>
                   db.operations[other].createdAt < stamp || (db.operations[other].createdAt == stamp && other < o)
  {
    var ops := PersistOperation(db, plan, o, stamp).operations;
    if IsLatest(ops, o) {
      forall other | other in db.operations
        ensures db.operations[other].createdAt < stamp || (db.operations[other].createdAt == stamp && other < o)
      {
        assert NotAfter(ops, other, o);
      }
    }
    if forall other :: other in db.operations ==>
         db.operations[other].createdAt < stamp || (db.operations[other].createdAt == stamp && other < o)
    {
      forall other | other in ops ensures NotAfter(ops, other, o) {
        if other != o { assert other in db.operations; }
      }
    }
  }

  lemma FreshIsPending(db: Db, site: Site, name: Name, spec: Spec, found: Allocation, o: OpId, stamp: int)
    requires CanPrepareApply(db, site, name, spec, found, o)
    ensures var next := PrepareApply(db, site, name, spec, found, o, stamp);
            && (o in db.operations ==> next.operations == db.operations)
            && (o !in db.operations ==>
                  && next.operations.Keys == db.operations.Keys + {o} && next.operations[o].status == Pending
                  && forall other <- db.operations :: next.operations[other] == db.operations[other])
  {
  }

  lemma LatestWithout(ops: map<OpId, OpRow>, more: map<OpId, OpRow>, o: OpId, latest: OpId)
    requires more.Keys == ops.Keys + {o} && o !in ops && IsLatest(ops, latest)
    requires forall other <- ops :: more[other] == ops[other]
    ensures IsLatest(more, o) || IsLatest(more, latest)
  {
    if NotAfter(more, latest, o) {
      forall other | other in more ensures NotAfter(more, other, o) {
        if other != o { assert NotAfter(ops, other, latest); }
      }
    } else {
      forall other | other in more ensures NotAfter(more, other, latest) {
        if other != o { assert NotAfter(ops, other, latest); }
      }
    }
  }

  /**
    Recreating a deleted machine.  An apply prepared for it is carried out by the next Run exactly when it was
    inserted as the latest operation.  Otherwise, above all when the same declaration gets the same allocation and
    the operation of the first life is reused, Run finds the delete, which has succeeded, and does nothing.
   */
  lemma RecreationMayRunNothing(c: Core, spec: Spec, found: Allocation, o: OpId, stamp: int)
    requires CoreOk(c) && c.db.effective.Some? && c.db.effective.value.state == Absent
    requires CanPrepareApply(c.db, c.site, c.name, spec, found, o)
    ensures var ops := PrepareApply(c.db, c.site, c.name, spec, found, o, stamp).operations;
            (exists latest :: IsLatest(ops, latest) && ops[latest].status == Succeeded)
            <==> o in c.db.operations || !IsLatest(ops, o)
  {
    var ops := PrepareApply(c.db, c.site, c.name, spec, found, o, stamp).operations;
    var latest := LastStarted(c.history).value;
    FreshIsPending(c.db, c.site, c.name, spec, found, o, stamp);
    assert IsLatest(c.db.operations, latest) && c.db.operations[latest].status == Succeeded;
    if o !in c.db.operations {
      LatestWithout(c.db.operations, ops, o, latest);
      if IsLatest(ops, o) {
        forall other | IsLatest(ops, other) ensures other == o {
          LatestIsUnique(ops, other, o);
        }
      }
    }
  }

  // ----- allocations

  /** Only the end of a delete releases; nothing else so much as touches an active allocation. */
  predicate Releases(s: State, p: Pid, l: Label) {
    && l == Advance(Conclude) && p in s.procs && s.procs[p].Concluding? && s.procs[p].op in s.core.db.operations
    && s.core.db.operations[s.procs[p].op].plan.operation == Delete
  }

  lemma ActKeepsAllocation(c: Core, pc: Pc, act: Act)
    requires CanAct(c, pc, act)
    ensures ActCore(c, pc, act).db.allocation
            == if act.Conclude? && c.db.operations[pc.op].plan.operation == Delete
               then Some(c.db.allocation.value.(released := true)) else c.db.allocation
  {
  }

  lemma PreparationKeepsAllocation(c: Core, preparation: Preparation, stamp: int)
    requires CanPrepare(c, preparation) && Active(c.db)
    ensures PrepareCore(c, preparation, stamp).db.allocation == c.db.allocation
  {
  }

  lemma StepKeepsAllocation(s: State, p: Pid, l: Label)
    requires Enabled(s, p, l) && Active(s.core.db)
    ensures After(s, p, l).core.db.allocation
            == if Releases(s, p, l) then Some(s.core.db.allocation.value.(released := true)) else s.core.db.allocation
  {
    match l
    case Advance(act) => ActKeepsAllocation(s.core, s.procs[p], act);
    case Commit(preparation) => PreparationKeepsAllocation(s.core, preparation, s.procs[p].stamp);
    case _ =>
  }

  lemma NextKeepsAllocation(s: State, t: State)
    requires Next(s, t) && Active(s.core.db)
    ensures t.core.db.allocation == s.core.db.allocation
            || t.core.db.allocation == Some(s.core.db.allocation.value.(released := true))
  {
    var p, l :| Enabled(s, p, l) && t == After(s, p, l);
    StepKeepsAllocation(s, p, l);
  }

  /** An allocation that stays active from `i` up to `j` is the same throughout. */
  lemma AllocationIsDurable(states: seq<State>, i: nat, j: nat)
    requires IsRun(states) && i <= j < |states|
    requires forall k :: i <= k <= j ==> Active(states[k].core.db)
    ensures states[j].core.db.allocation == states[i].core.db.allocation
  {
    if i < j {
      AllocationIsDurable(states, i, j - 1);
      assert Active(states[j - 1].core.db) && Active(states[j].core.db);
      assert Follows(states, j - 1);
      NextKeepsAllocation(states[j - 1], states[j]);
    }
  }

  // ----- declarations

  /** Declared generations are exactly one to the current one, and neighbours differ. */
  lemma GenerationsAreExact(states: seq<State>, i: nat, g: nat)
    requires IsRun(states) && i < |states| && states[i].core.db.resource.Some?
    ensures var db := states[i].core.db;
            && (g in db.specs <==> 1 <= g <= db.resource.value.generation)
            && (1 <= g < db.resource.value.generation ==> g + 1 in db.specs && db.specs[g] != db.specs[g + 1])
  {
    RunKeepsInv(states, i);
    var db := states[i].core.db;
    if 1 <= g < db.resource.value.generation {
      assert Advances(db.specs, g);
    }
  }

  /** A preparation advances the generation, by one, exactly when the declaration differs from the current one. */
  lemma GenerationAdvancesOnChange(db: Db, site: Site, name: Name, spec: Spec, found: Allocation, o: OpId, stamp: int)
    requires Generations(db) && db.resource.Some? && CanPrepareApply(db, site, name, spec, found, o)
    ensures var next := PrepareApply(db, site, name, spec, found, o, stamp);
            && next.resource.Some? && next.resource.value.generation in next.specs
            && next.specs[next.resource.value.generation] == spec
            && next.resource.value.generation
               == db.resource.value.generation + (if db.specs[db.resource.value.generation] == spec then 0 else 1)
            && (forall g :: g in db.specs ==> g in next.specs && next.specs[g] == db.specs[g])
  {
  }

  lemma PlanIsRemembered(db: Db, site: Site, name: Name, spec: Spec, found: Allocation, o: OpId, stamp: int)
    requires CanPrepareApply(db, site, name, spec, found, o)
    ensures var next := PrepareApply(db, site, name, spec, found, o, stamp);
            && o in next.operations && Active(next) && SameDeclaration(next, spec) && next.resource.value.generation > 0
            && next.operations[o].plan == PlanOf(site, site.images[spec.image], Apply, name,
                                                 next.resource.value.generation, spec, next.allocation.value.allocation)
  {
  }

  /**
    Preparation idempotence.  An apply prepared once and prepared again later, with the same declaration still
    current and the same allocation still active, returns the same operation and leaves every operation, every step,
    the declaration and the allocation as they are.
   */
  lemma RepreparingChangesNothing(db: Db, later: Db, site: Site, name: Name, spec: Spec, found: Allocation, o: OpId,
                                  stamp: int, found': Allocation, o': OpId, stamp': int)
    requires CanPrepareApply(db, site, name, spec, found, o)
    requires RowsOk(site, name, later.operations)
    requires var first := PrepareApply(db, site, name, spec, found, o, stamp);
             && Keeps(first.operations, later.operations)
             && SameDeclaration(later, spec) && later.resource.value.generation == first.resource.value.generation
             && Active(later) && later.allocation == first.allocation
    requires CanPrepareApply(later, site, name, spec, found', o')
    ensures o' == o
    ensures var next := PrepareApply(later, site, name, spec, found', o', stamp');
            && next == later.(resource := next.resource, effective := next.effective)
            && next.resource == Some(ResourceRow(false, later.resource.value.generation))
  {
    PlanIsRemembered(db, site, name, spec, found, o, stamp);
    var plan := later.operations[o].plan;
    SamePlanAgain(later, site, name, spec, found');
    assert o' in later.operations && later.operations[o'].plan == plan;
  }

  lemma SamePlanAgain(db: Db, site: Site, name: Name, spec: Spec, found: Allocation)
    requires SameDeclaration(db, spec) && db.resource.value.generation > 0 && Active(db) && spec.image in site.images
    ensures ApplyPlan(db, site, name, spec, found)
            == PlanOf(site, site.images[spec.image], Apply, name, db.resource.value.generation, spec,
                      db.allocation.value.allocation)
    ensures Declare(db, spec).specs == db.specs
  {
  }
}
