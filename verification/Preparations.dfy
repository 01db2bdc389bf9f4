/** Every preparation keeps the invariant. */
module Preparations {
  import opened Prelude
  import opened Planner
  import opened Guests
  import opened Journal
  import opened Protocol
  import opened Invariant
  import opened Preservation

  // ----- inserting an operation

  lemma FreshRowOk(plan: Plan, stamp: int)
    requires WellPlanned(plan)
    ensures RowOk(FreshOperation(plan, stamp)) && Untouched(FreshOperation(plan, stamp))
  {
  }

  lemma InsertKeepsRows(site: Site, name: Name, ops: map<OpId, OpRow>, plan: Plan, o: OpId, stamp: int)
    requires RowsOk(site, name, ops) && Resolves(ops, plan, o) && o !in ops && WellPlanned(plan) && plan.resource == name
    requires PlanFromSite(site, plan)
    ensures RowsOk(site, name, ops[o := FreshOperation(plan, stamp)])
  {
    FreshRowOk(plan, stamp);
  }

  lemma StartedIsKnown(ops: map<OpId, OpRow>, h: History)
    requires OneAtATime(ops, h) && LastStarted(h).Some?
    ensures LastStarted(h).value in ops
  {
  }

  /** Nothing has happened to an operation that is not in the table. */
  lemma UnknownHasNoPast(ops: map<OpId, OpRow>, h: History, o: OpId, k: nat)
    requires OneAtATime(ops, h) && o !in ops
    ensures !FinishedIn(h, o, k) && Claims(h, o, k) == 0
  {
    match h
    case Nil =>
    case Snoc(past, last) =>
      UnknownHasNoPast(ops, past, o, k);
      if LastStarted(past).Some? { StartedIsKnown(ops, past); }
  }

  lemma InsertKeepsPast(ops: map<OpId, OpRow>, h: History, o: OpId, row: OpRow)
    requires PastOk(ops, h) && o !in ops && Untouched(row)
    ensures PastOk(ops[o := row], h)
  {
    var next := ops[o := row];
    OneAtATimeIsStable(ops, next, h);
    forall other | other in next && Ahead(next, h, other) ensures Untouched(next[other]) {
      if other != o { assert Ahead(ops, h, other); }
    }
    forall k: nat | k < |row.steps| ensures Finished(row.steps[k]) == FinishedIn(h, o, k) && row.steps[k].attempts == Claims(h, o, k) {
      UnknownHasNoPast(ops, h, o, k);
    }
  }

  // ----- declarations

  lemma DeclareKeepsGenerations(db: Db, spec: Spec)
    requires Generations(db) && CanDeclare(db, spec)
    ensures Generations(Declare(db, spec))
  {
    var next := Declare(db, spec);
    if db.resource.Some? && !SameDeclaration(db, spec) {
      var current := db.resource.value.generation;
      forall g: nat | 1 <= g < current + 1 ensures Advances(next.specs, g) {
        if g < current { assert Advances(db.specs, g); }
      }
    } else if db.resource.Some? {
      assert next.specs == db.specs;
    }
  }

  // ----- the three preparations

  lemma ApplyPlanShape(db: Db, site: Site, name: Name, spec: Spec, found: Allocation)
    requires spec.image in site.images
    ensures var plan := ApplyPlan(db, site, name, spec, found);
            WellPlanned(plan) && plan.resource == name && plan.operation == Apply && (SiteOk(site) ==> PlanFromSite(site, plan))
  {
    PlanOfIsWellPlanned(site, site.images[spec.image], Apply, name, DeclaredGeneration(db, spec), spec, AllocationFor(db, found));
  }

  lemma CurrentPlanShape(db: Db, site: Site, name: Name, operation: Operation)
    requires HasDeclaration(db) && db.specs[db.resource.value.generation].image in site.images
    ensures var plan := CurrentPlan(db, site, name, operation);
            WellPlanned(plan) && plan.resource == name && plan.operation == operation
            && (SiteOk(site) ==> PlanFromSite(site, plan))
  {
    var spec := db.specs[db.resource.value.generation];
    PlanOfIsWellPlanned(site, site.images[spec.image], operation, name, db.resource.value.generation, spec,
                        db.allocation.value.allocation);
  }

  /** The operations table after inserting or reusing. */
  function Persisted(ops: map<OpId, OpRow>, plan: Plan, o: OpId, stamp: int): map<OpId, OpRow> {
    if o in ops then ops else ops[o := FreshOperation(plan, stamp)]
  }

  lemma PersistKeeps(c: Core, plan: Plan, o: OpId, stamp: int)
    requires Rows(c) && Past(c) && Evidence(c) && Worlds(c)
    requires Resolves(c.db.operations, plan, o) && WellPlanned(plan) && plan.resource == c.name
    requires PlanFromSite(c.site, plan)
    ensures var ops := Persisted(c.db.operations, plan, o, stamp);
            && RowsOk(c.site, c.name, ops) && PastOk(ops, c.history)
            && EvidenceOk(ops, c.db.observations, c.history)
            && WorldsOk(ops, c.history, c.verified, c.guest, c.origin)
            && o in ops && ops[o].plan == plan
  {
    if o !in c.db.operations {
      FreshRowOk(plan, stamp);
      InsertKeepsRows(c.site, c.name, c.db.operations, plan, o, stamp);
      InsertKeepsPast(c.db.operations, c.history, o, FreshOperation(plan, stamp));
    }
  }

  /** A verdict survives an apply preparation only when its plan is the one already in force. */
  lemma KeptVerdict(c: Core, plan: Plan, o: OpId, stamp: int)
    requires Life(c.db) && Verdicts(c) && Resolves(c.db.operations, plan, o)
    requires c.db.effective == Some(EffectiveRow(Converged, plan))
    ensures Persisted(c.db.operations, plan, o, stamp) == c.db.operations
  {
    var planned :| planned in c.db.operations && c.db.operations[planned].plan == c.db.effective.value.plan;
  }

  lemma ApplyKeepsLife(c: Core, spec: Spec, found: Allocation, o: OpId, stamp: int)
    requires Life(c.db) && CanPrepareApply(c.db, c.site, c.name, spec, found, o)
    ensures Life(PrepareApply(c.db, c.site, c.name, spec, found, o, stamp))
  {
    var next := PrepareApply(c.db, c.site, c.name, spec, found, o, stamp);
    DeclareKeepsGenerations(c.db, spec);
    assert next.specs == Declare(c.db, spec).specs && next.resource == Declare(c.db, spec).resource;
    assert Generations(next);
    assert next.operations[o].plan == next.effective.value.plan;
  }

  lemma ApplyShape(c: Core, spec: Spec, found: Allocation, o: OpId, stamp: int)
    requires CanPrepareApply(c.db, c.site, c.name, spec, found, o)
    ensures var next, plan := PrepareApply(c.db, c.site, c.name, spec, found, o, stamp),
                              ApplyPlan(c.db, c.site, c.name, spec, found);
            && next.operations == Persisted(c.db.operations, plan, o, stamp) && next.observations == c.db.observations
            && (Verdict(next.effective) ==> c.db.effective == Some(EffectiveRow(Converged, plan))
                                            && next.effective == c.db.effective)
  {
  }

  lemma ApplyKeepsCore(c: Core, spec: Spec, found: Allocation, o: OpId, stamp: int)
    requires CoreOk(c) && CanPrepareApply(c.db, c.site, c.name, spec, found, o)
    ensures CoreOk(c.(db := PrepareApply(c.db, c.site, c.name, spec, found, o, stamp)))
  {
    var plan := ApplyPlan(c.db, c.site, c.name, spec, found);
    ApplyPlanShape(c.db, c.site, c.name, spec, found);
    PersistKeeps(c, plan, o, stamp);
    ApplyKeepsLife(c, spec, found, o, stamp);
    if c.db.effective == Some(EffectiveRow(Converged, plan)) {
      KeptVerdict(c, plan, o, stamp);
    }
    ApplyShape(c, spec, found, o, stamp);
  }

  lemma CurrentKeepsLife(c: Core, operation: Operation, o: OpId, ops: map<OpId, OpRow>, state: EffectiveState)
    requires Life(c.db) && CanPrepareCurrent(c.db, c.site, c.name, operation, o)
    requires state != Absent && o in ops && ops[o].plan == CurrentPlan(c.db, c.site, c.name, operation)
    ensures Life(c.db.(operations := ops, effective := Some(EffectiveRow(state, CurrentPlan(c.db, c.site, c.name, operation)))))
  {
    var next := c.db.(operations := ops, effective := Some(EffectiveRow(state, CurrentPlan(c.db, c.site, c.name, operation))));
    assert next.operations[o].plan == next.effective.value.plan;
  }

  lemma DeleteKeepsCore(c: Core, o: OpId, stamp: int)
    requires CoreOk(c) && CanPrepareCurrent(c.db, c.site, c.name, Delete, o)
    ensures CoreOk(c.(db := PrepareDelete(c.db, c.site, c.name, o, stamp)))
  {
    var plan := CurrentPlan(c.db, c.site, c.name, Delete);
    CurrentPlanShape(c.db, c.site, c.name, Delete);
    PersistKeeps(c, plan, o, stamp);
    CurrentKeepsLife(c, Delete, o, Persisted(c.db.operations, plan, o, stamp), Deleting);
  }

  // ----- resetting a reconcile operation

  lemma ResetRowOk(was: OpRow)
    requires RowOk(was)
    ensures RowOk(ResetOperation(was)) && SamePlace(was, ResetOperation(was))
    ensures forall k :: 0 <= k < |was.steps| ==>
              !Finished(ResetOperation(was).steps[k]) && ResetOperation(was).steps[k].attempts == was.steps[k].attempts
    ensures Untouched(was) ==> Untouched(ResetOperation(was))
  {
  }

  lemma ResetKeepsPast(ops: map<OpId, OpRow>, h: History, o: OpId)
    requires PastOk(ops, h) && o in ops && RowOk(ops[o]) && ops[o].plan.operation == Reconcile
    ensures PastOk(ops[o := ResetOperation(ops[o])], Snoc(h, Rewound(o)))
  {
    var row := ResetOperation(ops[o]);
    var next, now := ops[o := row], Snoc(h, Rewound(o));
    ResetRowOk(ops[o]);
    PutKeepsOrder(ops, o, row);
    OneAtATimeIsStable(ops, next, h);
    forall other | other in next && Ahead(next, now, other) ensures Untouched(next[other]) {
      assert Ahead(ops, h, other);
    }
    forall other | other in next ensures RowTellsPast(next[other], other, now) {
      assert RowTellsPast(ops[other], other, h);
    }
    assert OneAtATime(next, now) && CallsInOrder(now) && Paired(now);
    assert forall a, k: nat :: Calls(now, a, k) <= Claims(now, a, k);
  }

  /** Observing changes nothing, so a reconcile operation always stands where it began. */
  lemma ReconcileStandsStill(steps: seq<StepInput>, k: nat, origin: Guest)
    requires k <= |steps| && forall i :: 0 <= i < |steps| ==> steps[i].action == ObserveAll
    ensures MadeBy(steps, k, origin) == origin
  {
  }

  lemma ResetRefines(was: OpRow, origin: Guest, guest: Guest)
    requires RowOk(was) && was.plan.operation == Reconcile && Refines(was, origin, guest)
    ensures Refines(ResetOperation(was), origin, guest) && !AllFinished(ResetOperation(was))
  {
    PlanOrder(was.plan);
    ResetRowOk(was);
    forall i | 0 <= i < |was.plan.steps| ensures was.plan.steps[i].action == ObserveAll {
      assert BelongsTo(was.plan.steps[i].action, was.plan.operation);
    }
    ReconcileStandsStill(was.plan.steps, ResumeStep(was), origin);
    assert guest == origin;
    ResumeIs(ResetOperation(was), 0);
  }

  lemma ResetKeepsEvidence(ops: map<OpId, OpRow>, observations: seq<Observation>, h: History, o: OpId)
    requires o in ops && RowOk(ops[o]) && EvidenceOk(ops, observations, h)
    ensures EvidenceOk(ops[o := ResetOperation(ops[o])], observations, Snoc(h, Rewound(o)))
  {
    ResetRowOk(ops[o]);
    PlanOrder(ops[o].plan);
    assert !Finished(ResetOperation(ops[o]).steps[0]);
    assert LastStarted(Snoc(h, Rewound(o))) == LastStarted(h) && LastDriver(Snoc(h, Rewound(o))) == LastDriver(h);
  }

  lemma ResetDone(was: OpRow, verified: set<string>, guest: Guest)
    ensures DoneHolds(ResetOperation(was), verified, guest)
  {
  }

  lemma ResetKeepsWorlds(ops: map<OpId, OpRow>, h: History, verified: set<string>, guest: Guest, origin: Guest, o: OpId)
    requires o in ops && RowOk(ops[o]) && ops[o].plan.operation == Reconcile
    requires WorldsOk(ops, h, verified, guest, origin)
    ensures WorldsOk(ops[o := ResetOperation(ops[o])], Snoc(h, Rewound(o)), verified, guest, origin)
  {
    ResetDone(ops[o], verified, guest);
    assert LastStarted(Snoc(h, Rewound(o))) == LastStarted(h);
    if LastStarted(h) == Some(o) {
      ResetRefines(ops[o], origin, guest);
    }
  }

  lemma ReconcileShape(c: Core, o: OpId, stamp: int)
    requires CanPrepareCurrent(c.db, c.site, c.name, Reconcile, o)
    ensures var d := PrepareReconcile(c.db, c.site, c.name, o, stamp);
            && d == c.db.(operations := d.operations,
                          effective := Some(EffectiveRow(Applying, CurrentPlan(c.db, c.site, c.name, Reconcile))))
            && d.operations == (if o in c.db.operations then c.db.operations[o := ResetOperation(c.db.operations[o])]
                                else Persisted(c.db.operations, CurrentPlan(c.db, c.site, c.name, Reconcile), o, stamp))
            && PrepareCore(c, PrepareReconciliation(o), stamp)
               == c.(db := d, history := if o in c.db.operations then Snoc(c.history, Rewound(o)) else c.history)
  {
  }

  /** The rows, past, world and evidence after a reset. */
  lemma ResetKeepsRows(c: Core, o: OpId)
    requires Rows(c) && Past(c) && Worlds(c) && Evidence(c)
    requires o in c.db.operations && c.db.operations[o].plan.operation == Reconcile
    ensures var next, now := c.db.operations[o := ResetOperation(c.db.operations[o])], Snoc(c.history, Rewound(o));
            && RowsOk(c.site, c.name, next) && PastOk(next, now)
            && WorldsOk(next, now, c.verified, c.guest, c.origin) && EvidenceOk(next, c.db.observations, now)
  {
    var ops := c.db.operations;
    assert RowOk(ops[o]);
    ResetRowOk(ops[o]);
    PutKeepsRows(c.site, c.name, ops, o, ResetOperation(ops[o]));
    ResetKeepsPast(ops, c.history, o);
    ResetKeepsWorlds(ops, c.history, c.verified, c.guest, c.origin, o);
    ResetKeepsEvidence(ops, c.db.observations, c.history, o);
  }

  lemma RereconcileKeepsCore(c: Core, o: OpId, stamp: int)
    requires CoreOk(c) && CanPrepareCurrent(c.db, c.site, c.name, Reconcile, o) && o in c.db.operations
    ensures CoreOk(PrepareCore(c, PrepareReconciliation(o), stamp))
  {
    CurrentPlanShape(c.db, c.site, c.name, Reconcile);
    ResetKeepsRows(c, o);
    CurrentKeepsLife(c, Reconcile, o, c.db.operations[o := ResetOperation(c.db.operations[o])], Applying);
    ReconcileShape(c, o, stamp);
  }

  lemma ReconcileKeepsCore(c: Core, o: OpId, stamp: int)
    requires CoreOk(c) && CanPrepareCurrent(c.db, c.site, c.name, Reconcile, o)
    ensures CoreOk(PrepareCore(c, PrepareReconciliation(o), stamp))
  {
    if o in c.db.operations {
      RereconcileKeepsCore(c, o, stamp);
    } else {
      var plan := CurrentPlan(c.db, c.site, c.name, Reconcile);
      CurrentPlanShape(c.db, c.site, c.name, Reconcile);
      PersistKeeps(c, plan, o, stamp);
      CurrentKeepsLife(c, Reconcile, o, Persisted(c.db.operations, plan, o, stamp), Applying);
      ReconcileShape(c, o, stamp);
    }
  }
}
