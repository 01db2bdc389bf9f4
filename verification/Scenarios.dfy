/**
  Runs from the beginning, built step by step: that what goes wrong in the other modules can happen.  Each holds for
  every declaration that can be carried out at all.
 */
module Scenarios {
  import opened Prelude
  import opened Text
  import opened Planner
  import opened Guests
  import opened Journal
  import opened Protocol
  import opened Invariant
  import opened Preservation
  import opened Progress
  import opened Calls
  import opened Paths
  import opened Completion
  import opened Commands
  import Changes
  import Runs

  // ----- beginnings

  /** A reachable state with no process in it. */
  ghost predicate Rests(s: State) {
    Reachable(s) && s.procs == map[] && s.holder.None?
  }

  /** A declaration that can be carried out on this site, with an allocation for its first generation. */
  predicate Possible(site: Site, name: Name, spec: Spec, found: Allocation) {
    && ManifestOk(name, spec) && spec.image in site.images && spec.pool in site.pools
    && found.pool == spec.pool && found.image == spec.image && found.generation == 1
    && KeyUsable(spec) && ServiceListOk(site.manageServices, site.services)
    && (spec.running || !Misread(name))
  }

  function PlanOfApply(site: Site, name: Name, spec: Spec, found: Allocation): Plan
    requires spec.image in site.images
  {
    PlanOf(site, site.images[spec.image], Apply, name, 1, spec, found)
  }

  lemma InitialRests(s: State)
    requires Initial(s)
    ensures Rests(s)
  {
    assert IsRun([s]) && [s][0] == s;
  }

  /** The process ends, and its key is free. */
  lemma Silence(p: Pid, s: State, t: State) returns (u: State)
    requires Reachable(s) && s.procs == map[] && s.holder.None? && Alone(p, s, t) && Reachable(t) && p in t.procs
    ensures Rests(u) && u.core == t.core && Alone(p, s, u)
  {
    AloneLeavesRest(p, s, t);
    u := After(t, p, Exit);
    StepIsReachable(t, p, Exit);
    StepAlone(p, s, t, Exit);
    assert u.procs == map[];
  }

  // ----- an apply, prepared on a new site

  /** The rows of a resource whose first declaration has just been prepared or worked on. */
  predicate Declared(c: Core, spec: Spec, found: Allocation, a: OpId) {
    && c.db.resource == Some(ResourceRow(false, 1)) && c.db.specs == map[1 := spec]
    && c.db.allocation == Some(AllocationRow(found, false))
    && c.db.effective.Some? && c.db.effective.value.state == EffectivePending
    && spec.image in c.site.images
    && c.db.operations.Keys == {a} && c.db.operations[a].plan == PlanOfApply(c.site, c.name, spec, found)
  }

  lemma FirstRows(c: Core, spec: Spec, found: Allocation, a: OpId, stamp: int)
    requires c.db == EMPTY_DB && Possible(c.site, c.name, spec, found)
    ensures CanPrepare(c, PrepareApplication(spec, found, a))
    ensures var d := PrepareCore(c, PrepareApplication(spec, found, a), stamp);
            && Declared(d, spec, found, a) && d.db.operations[a].createdAt == stamp && d.db.operations[a].status == Pending
            && |d.db.operations[a].steps| == |d.db.operations[a].plan.steps|
            && (forall k :: 0 <= k < |d.db.operations[a].steps| ==> !Finished(d.db.operations[a].steps[k]))
            && d == c.(db := d.db)
  {
  }

  lemma FirstApply(p: Pid, s: State, spec: Spec, found: Allocation, a: OpId, stamp: int) returns (t: State)
    requires Rests(s) && s.core.db == EMPTY_DB && Possible(s.core.site, s.core.name, spec, found)
    requires s.core.guest.zvol.None?
    ensures CanPrepare(s.core, PrepareApplication(spec, found, a))
    ensures t == s.(core := PrepareCore(s.core, PrepareApplication(spec, found, a), stamp))
    ensures Rests(t) && t.core == s.core.(db := t.core.db) && Declared(t.core, spec, found, a)
    ensures t.core.db.operations[a].createdAt == stamp && t.core.db.operations[a].status == Pending
    ensures IsLatest(t.core.db.operations, a) && Completable(t.core, a)
    ensures forall k :: 0 <= k < |t.core.db.operations[a].steps| ==> !Finished(t.core.db.operations[a].steps[k])
  {
    FirstRows(s.core, spec, found, a, stamp);
    PreparationReaches(p, s, PrepareApplication(spec, found, a), stamp);
    t := s.(core := PrepareCore(s.core, PrepareApplication(spec, found, a), stamp));
    PossibleIsCompletable(t.core, spec, found, a);
  }

  lemma PossibleIsCompletable(c: Core, spec: Spec, found: Allocation, a: OpId)
    requires Declared(c, spec, found, a) && Possible(c.site, c.name, spec, found) && c.guest.zvol.None?
    requires |c.db.operations[a].steps| == |c.db.operations[a].plan.steps|
    ensures IsLatest(c.db.operations, a) && Completable(c, a)
  {
  }

  // ----- an apply that was cut off just before its end

  lemma FinishedApplyIsConfigured(row: OpRow, verified: set<string>, g: Guest)
    requires RowOk(row) && AllFinished(row) && DoneHolds(row, verified, g) && row.plan.operation == Apply
    ensures g.conf.Some?
  {
    PlanOrder(row.plan);
    assert Satisfied(row.steps[|row.steps| - 1].input, verified, g);
  }

  lemma ConfiguredAtTheEnd(c: Core, op: OpId)
    requires Rows(c) && Worlds(c) && Owned(c, op) && AllFinished(c.db.operations[op])
    requires c.db.operations[op].plan.operation == Apply
    ensures c.db.operations[op].status == Running && c.guest.conf.Some?
  {
    assert RowOk(c.db.operations[op]);
    FinishedApplyIsConfigured(c.db.operations[op], c.verified, c.guest);
  }

  lemma CutOffApply(p: Pid, s: State, spec: Spec, found: Allocation, a: OpId) returns (t: State)
    requires Rests(s) && Declared(s.core, spec, found, a) && Completable(s.core, a)
    requires IsLatest(s.core.db.operations, a) && s.core.db.operations[a].status != Succeeded
    ensures Rests(t) && Alone(p, s, t) && Declared(t.core, spec, found, a) && t.core.guest.conf.Some?
    ensures t.core.site == s.core.site && t.core.name == s.core.name
    ensures t.core.db.operations[a].status == Running
    ensures t.core.db.operations[a].createdAt == s.core.db.operations[a].createdAt
  {
    var u := RunsToConclusion(p, s, a);
    HolderPc(p, s, u, Concluding(a));
    AloneLeavesRest(p, s, u);
    ConfiguredAtTheEnd(u.core, a);
    t := Silence(p, s, u);
  }

  // ----- a delete after it

  function WithDelete(c: Core, d: OpId, stamp: int): Core
    requires CanPrepare(c, PrepareDeletion(d))
  {
    PrepareCore(c, PrepareDeletion(d), stamp)
  }

  lemma DeleteRows(c: Core, spec: Spec, found: Allocation, a: OpId, d: OpId, stamp: int)
    requires Declared(c, spec, found, a) && ManifestOk(c.name, spec) && spec.pool in c.site.pools
    requires d != a && c.db.operations[a].createdAt < stamp && c.guest.conf.Some?
    ensures CanPrepare(c, PrepareDeletion(d))
    ensures var more := WithDelete(c, d, stamp);
            && more.db.operations.Keys == {a, d} && more.db.operations[a] == c.db.operations[a]
            && more.db.operations[d].plan.operation == Delete && more.db.operations[d].status == Pending
            && IsLatest(more.db.operations, d) && Completable(more, d) && Visible(more.db)
            && more == c.(db := c.db.(operations := more.db.operations, effective := more.db.effective))
            && more.db.effective.Some?
  {
    var plan := CurrentPlan(c.db, c.site, c.name, Delete);
    assert plan.operation == Delete;
    FreshLatest(c.db.operations, plan, d, stamp);
    var more := WithDelete(c, d, stamp);
    assert more.db.operations == c.db.operations[d := FreshOperation(plan, stamp)];
  }

  /** The resource is gone: what a completed delete leaves of the rows of an apply that never succeeded. */
  predicate DeletedBehind(c: Core, spec: Spec, found: Allocation, a: OpId, d: OpId) {
    && c.db.resource == Some(ResourceRow(true, 1)) && c.db.specs == map[1 := spec]
    && c.db.allocation == Some(AllocationRow(found, true))
    && c.db.effective.Some? && c.db.effective.value.state == Absent
    && spec.image in c.site.images
    && c.db.operations.Keys == {a, d} && c.db.operations[a].plan == PlanOfApply(c.site, c.name, spec, found)
    && c.db.operations[a].status != Succeeded
    && IsLatest(c.db.operations, d) && c.db.operations[d].status == Succeeded
  }

  lemma ActKeepsOther(c: Core, pc: Pc, act: Act, latest: OpId, o: OpId)
    requires PcOk(c, pc) && CanAct(c, pc, act) && IsLatest(c.db.operations, latest) && o in c.db.operations && o != latest
    ensures o in ActCore(c, pc, act).db.operations && ActCore(c, pc, act).db.operations[o] == c.db.operations[o]
  {
    if Changes.WorksOn(pc, o) {
      LatestIsUnique(c.db.operations, o, latest);
    }
    Changes.ActWritesOneRow(c, pc, act, o);
  }

  lemma {:induction false} PathKeepsOther(p: Pid, path: seq<State>, i: nat, latest: OpId, o: OpId)
    requires IsOwnPath(p, path) && i < |path| && Reachable(path[0]) && o in path[0].core.db.operations && o != latest
    requires IsLatest(path[0].core.db.operations, latest)
    ensures Reachable(path[i]) && IsLatest(path[i].core.db.operations, latest)
    ensures o in path[i].core.db.operations && path[i].core.db.operations[o] == path[0].core.db.operations[o]
  {
    if i > 0 {
      PathKeepsOther(p, path, i - 1, latest, o);
      assert OwnFollows(p, path, i - 1);
      var l :| IsExecution(path[i - 1], p, l) && Enabled(path[i - 1], p, l) && path[i] == After(path[i - 1], p, l);
      StepIsReachable(path[i - 1], p, l);
      StepKeepsOther(p, path[i - 1], l, latest, o);
    }
  }

  lemma StepKeepsOther(p: Pid, s: State, l: Label, latest: OpId, o: OpId)
    requires Reachable(s) && IsExecution(s, p, l) && Enabled(s, p, l) && o in s.core.db.operations && o != latest
    requires IsLatest(s.core.db.operations, latest)
    ensures var t := After(s, p, l);
            && IsLatest(t.core.db.operations, latest)
            && o in t.core.db.operations && t.core.db.operations[o] == s.core.db.operations[o]
  {
    if l.Advance? {
      ActingPc(p, s, l.act);
      ActKeepsLatest(s.core, s.procs[p], l.act, latest);
      ActKeepsOther(s.core, s.procs[p], l.act, latest, o);
    }
  }

  lemma AloneKeepsOther(p: Pid, s: State, t: State, latest: OpId, o: OpId)
    requires Reachable(s) && Alone(p, s, t) && o in s.core.db.operations && o != latest
    requires IsLatest(s.core.db.operations, latest)
    ensures IsLatest(t.core.db.operations, latest)
    ensures o in t.core.db.operations && t.core.db.operations[o] == s.core.db.operations[o]
  {
    var path: seq<State> :| IsOwnPath(p, path) && path[0] == s && path[|path| - 1] == t;
    PathKeepsOther(p, path, |path| - 1, latest, o);
  }

  lemma ConcludedRows(c: Core, op: OpId)
    requires CanAct(c, Concluding(op), Conclude) && c.db.operations[op].plan.operation == Delete
    ensures var d := ActCore(c, Concluding(op), Conclude);
            && d.site == c.site && d.name == c.name && d.db.specs == c.db.specs
            && d.db.resource == Some(c.db.resource.value.(archived := true))
            && d.db.allocation == Some(c.db.allocation.value.(released := true))
            && d.db.effective.Some? && d.db.effective.value.state == Absent
            && d.db.operations == c.db.operations[op := ConcludedRow(c.db.operations[op])]
  {
  }

  /** Prepare a delete of what was cut off, and run it. */
  lemma DeleteIt(p: Pid, s: State, spec: Spec, found: Allocation, a: OpId, d: OpId, stamp: int) returns (t: State)
    requires Rests(s) && Declared(s.core, spec, found, a) && Possible(s.core.site, s.core.name, spec, found)
    requires d != a && s.core.db.operations[a].createdAt < stamp && s.core.guest.conf.Some?
    requires s.core.db.operations[a].status != Succeeded
    ensures Rests(t) && DeletedBehind(t.core, spec, found, a, d)
    ensures t.core.site == s.core.site && t.core.name == s.core.name
  {
    DeleteRows(s.core, spec, found, a, d, stamp);
    t := RunDelete(p, s, s.(core := WithDelete(s.core, d, stamp)), spec, found, a, d, stamp);
  }

  lemma RunDelete(p: Pid, s: State, u: State, spec: Spec, found: Allocation, a: OpId, d: OpId, stamp: int)
    returns (t: State)
    requires Rests(s) && Declared(s.core, spec, found, a) && Possible(s.core.site, s.core.name, spec, found)
    requires d != a && s.core.db.operations[a].createdAt < stamp && s.core.guest.conf.Some?
    requires s.core.db.operations[a].status != Succeeded
    requires CanPrepare(s.core, PrepareDeletion(d)) && u == s.(core := WithDelete(s.core, d, stamp))
    ensures Rests(t) && Alone(p, u, t) && DeletedBehind(t.core, spec, found, a, d)
    ensures t.core.site == s.core.site && t.core.name == s.core.name
  {
    DeleteRows(s.core, spec, found, a, d, stamp);
    PreparationReaches(p, s, PrepareDeletion(d), stamp);
    var v := RunsToConclusion(p, u, d);
    AloneLeavesRest(p, u, v);
    AloneKeepsOther(p, u, v, d, a);
    t := Deleted(p, s, u, v, spec, found, a, d);
  }

  lemma Deleted(p: Pid, s: State, u: State, v: State, spec: Spec, found: Allocation, a: OpId, d: OpId) returns (t: State)
    requires Rests(s) && Rests(u) && Declared(s.core, spec, found, a)
    requires u.core.site == s.core.site && u.core.name == s.core.name
    requires SameDeclarations(s.core.(db := s.core.db.(effective := u.core.db.effective)), u.core)
    requires a != d && u.core.db.operations.Keys == {a, d} && u.core.db.operations[a] == s.core.db.operations[a]
    requires u.core.db.operations[d].plan.operation == Delete && s.core.db.operations[a].status != Succeeded
    requires Here(p, u, v, Concluding(d)) && CanAct(v.core, Concluding(d), Conclude)
    requires SameOperations(u.core.db.operations, v.core.db.operations) && IsLatest(v.core.db.operations, d)
    requires v.core.db.operations[a] == u.core.db.operations[a]
    ensures Rests(t) && Alone(p, u, t) && DeletedBehind(t.core, spec, found, a, d)
    ensures t.core.site == s.core.site && t.core.name == s.core.name
  {
    var w := After(v, p, Advance(Conclude));
    StepIsReachable(v, p, Advance(Conclude));
    StepAlone(p, u, v, Advance(Conclude));
    ConcludedRows(v.core, d);
    PutKeepsOrder(v.core.db.operations, d, ConcludedRow(v.core.db.operations[d]));
    t := Silence(p, u, w);
  }

  // ----- the same apply again

  /** The command that declares once more what was deleted, with the allocation that it had. */
  function SameAgain(spec: Spec, found: Allocation, a: OpId, stamp: int): Command {
    Command(spec, found, a, stamp, 0, 0)
  }

  lemma SameAgainGoesAstray(c: Core, spec: Spec, found: Allocation, a: OpId, d: OpId, stamp: int)
    requires DeletedBehind(c, spec, found, a, d) && Possible(c.site, c.name, spec, found) && a != d
    ensures var again := SameAgain(spec, found, a, stamp);
            && CanCommand(c, again) && !Repeats(c, again) && GoesAstray(c, again)
            && CommandedCore(c, again).db.effective.value.state == EffectivePending
            && IsLatest(CommandedCore(c, again).db.operations, d)
            && CommandedCore(c, again).db.operations[d].status == Succeeded && Visible(CommandedCore(c, again).db)
  {
    assert ApplyPlan(c.db, c.site, c.name, spec, found) == c.db.operations[a].plan;
  }

  /** A machine that was deleted after an apply that was cut off, on any site and for any declaration that is possible. */
  lemma DeletedMachine(p: Pid, s: State, spec: Spec, found: Allocation, a: OpId, d: OpId, stamp: int, later: int)
    returns (t: State)
    requires Initial(s) && Possible(s.core.site, s.core.name, spec, found) && s.core.guest.zvol.None?
    requires a != d && stamp < later
    ensures Rests(t) && DeletedBehind(t.core, spec, found, a, d)
    ensures t.core.site == s.core.site && t.core.name == s.core.name
  {
    InitialRests(s);
    var u := FirstApply(p, s, spec, found, a, stamp);
    var v := CutOffApply(p, u, spec, found, a);
    t := DeleteIt(p, v, spec, found, a, d, later);
  }

  /**
    "apply returns success only when effective state is converged" fails in some run for every declaration that is
    possible: apply it, and let the process die before it concludes; delete it; apply it again.  The command reuses
    the operation of the first life, Run finds the delete, which has succeeded, and the command reports success while
    the effective state is `pending`.
   */
  lemma ApplySucceedsPending(p: Pid, s: State, spec: Spec, found: Allocation, a: OpId, d: OpId, stamp: int, later: int)
    returns (before: seq<State>, t: State)
    requires Initial(s) && Possible(s.core.site, s.core.name, spec, found) && s.core.guest.zvol.None?
    requires a != d && stamp < later
    ensures IsRun(before)
    ensures var c, again := before[|before| - 1].core, SameAgain(spec, found, a, later);
            && CanCommand(c, again) && GoesAstray(c, again)
            && RunSucceeds(p, before[|before| - 1].(core := CommandedCore(c, again)), t)
            && t.core.db.effective.Some? && t.core.db.effective.value.state == EffectivePending
  {
    var u := DeletedMachine(p, s, spec, found, a, d, stamp, later);
    before :| IsRun(before) && before[|before| - 1] == u;
    SameAgainGoesAstray(u.core, spec, found, a, d, later);
    var again := SameAgain(spec, found, a, later);
    CommandReaches(p, u, again);
    t := SomeIdleSuccess(p, u.(core := CommandedCore(u.core, again)), d);
  }

  /** The state from which recreating a machine makes Run do nothing is one that runs end in. */
  lemma RecreationHappens(p: Pid, s: State, spec: Spec, found: Allocation, a: OpId, d: OpId, stamp: int, later: int)
    returns (states: seq<State>)
    requires Initial(s) && Possible(s.core.site, s.core.name, spec, found) && s.core.guest.zvol.None?
    requires a != d && stamp < later
    ensures IsRun(states)
    ensures var c := states[|states| - 1].core;
            && c.db.effective.Some? && c.db.effective.value.state == Absent
            && CanPrepareApply(c.db, c.site, c.name, spec, found, a) && a in c.db.operations
            && var ops := PrepareApply(c.db, c.site, c.name, spec, found, a, later).operations;
               exists latest :: IsLatest(ops, latest) && ops[latest].status == Succeeded
  {
    var u := DeletedMachine(p, s, spec, found, a, d, stamp, later);
    states :| IsRun(states) && states[|states| - 1] == u;
    SameAgainGoesAstray(u.core, spec, found, a, d, later);
    ReachableKeepsInv(u);
    Changes.RecreationMayRunNothing(u.core, spec, found, a, later);
  }

  // ----- a machine with an unlucky name

  /** Every step is of a machine that is to run and always reads as running. */
  predicate SeemsRunning(plan: Plan) {
    forall k :: 0 <= k < |plan.steps| ==>
      plan.steps[k].spec.running && Misread(plan.steps[k].resource) && !IsRemoval(plan.steps[k].action)
  }

  lemma AchievedStaysOff(input: StepInput, g: Guest)
    requires input.spec.running && Misread(input.resource) && !IsRemoval(input.action) && !g.running
    ensures !Achieved(input, g).running
  {
  }

  lemma {:induction false} WalkOff(p: Pid, r: State, s: State, op: OpId, steps: seq<StepRow>, i: nat) returns (t: State)
    requires Here(p, r, s, Walking(op, steps, i)) && i <= |steps| && Completable(s.core, op)
    requires SeemsRunning(s.core.db.operations[op].plan) && !s.core.guest.running
    ensures Here(p, r, t, Walking(op, steps, |steps|)) && !t.core.guest.running
    ensures op in t.core.db.operations && t.core.db.operations[op].plan == s.core.db.operations[op].plan
    decreases |steps| - i
  {
    if i == |steps| {
      t := s;
    } else {
      var u := DoStep(p, r, s, op, steps, i);
      StepStaysOff(s.core, u.core, op, i);
      t := WalkOff(p, r, u, op, steps, i + 1);
    }
  }

  lemma StepStaysOff(c: Core, d: Core, op: OpId, i: nat)
    requires Advanced(c, d, op, i) && SeemsRunning(c.db.operations[op].plan) && !c.guest.running
    ensures !d.guest.running && SeemsRunning(d.db.operations[op].plan)
  {
    if d.guest != c.guest {
      AchievedStaysOff(c.db.operations[op].plan.steps[i], c.guest);
    }
  }

  /**
    For every declaration that is possible, of a machine that is to run and has "running" in its name, some run ends
    with the resource converged while the machine was never started.
   */
  lemma NeverStarted(p: Pid, s: State, spec: Spec, found: Allocation, a: OpId, stamp: int) returns (states: seq<State>)
    requires Initial(s) && Possible(s.core.site, s.core.name, spec, found) && s.core.guest.zvol.None?
    requires spec.running && Misread(s.core.name) && !s.core.guest.running
    ensures IsRun(states)
    ensures var c := states[|states| - 1].core;
            IsConverged(c) && !c.guest.running && a in c.db.operations && c.db.operations[a].status == Succeeded
  {
    InitialRests(s);
    var t := FirstApply(p, s, spec, found, a, stamp);
    AppliesSeemRunning(t.core, spec, found, a);
    var u, steps := BeginRun(p, t, a);
    var v := WalkOff(p, t, u, a, steps, 0);
    var w := ReachConclusion(p, t, v, a, steps);
    var x := ConvergeOff(p, t, w, a);
    states :| IsRun(states) && states[|states| - 1] == x;
  }

  lemma AppliesSeemRunning(c: Core, spec: Spec, found: Allocation, a: OpId)
    requires Declared(c, spec, found, a) && spec.running && Misread(c.name)
    ensures SeemsRunning(c.db.operations[a].plan)
  {
    var plan := c.db.operations[a].plan;
    PlanOfIsWellPlanned(c.site, c.site.images[spec.image], Apply, c.name, 1, spec, found);
    PlanOrder(plan);
    forall k | 0 <= k < |plan.steps|
      ensures plan.steps[k].spec.running && Misread(plan.steps[k].resource) && !IsRemoval(plan.steps[k].action)
    {
      assert BelongsTo(plan.steps[k].action, plan.operation);
    }
  }

  lemma ConvergeOff(p: Pid, r: State, s: State, op: OpId) returns (t: State)
    requires Here(p, r, s, Concluding(op)) && CanAct(s.core, Concluding(op), Conclude) && !s.core.guest.running
    requires op in s.core.db.operations && s.core.db.operations[op].plan.operation == Apply
    ensures Reachable(t) && IsConverged(t.core) && !t.core.guest.running
    ensures op in t.core.db.operations && t.core.db.operations[op].status == Succeeded
  {
    t := After(s, p, Advance(Conclude));
    StepIsReachable(s, p, Advance(Conclude));
  }

  // ----- a volume that was never marked

  predicate LeavesGuest(action: Action) {
    action == EnsureServices || action == EnsureImage
  }

  /** The first steps leave the guest as it is. */
  predicate Harmless(plan: Plan, n: nat) {
    n <= |plan.steps| && forall k :: 0 <= k < n ==> LeavesGuest(plan.steps[k].action)
  }

  lemma HarmlessStep(p: Pid, r: State, s: State, op: OpId, steps: seq<StepRow>, i: nat) returns (t: State)
    requires Here(p, r, s, Walking(op, steps, i)) && i < |steps| && Completable(s.core, op)
    requires i < |s.core.db.operations[op].plan.steps| && LeavesGuest(s.core.db.operations[op].plan.steps[i].action)
    ensures Here(p, r, t, Walking(op, steps, i + 1)) && Completable(t.core, op) && t.core.guest == s.core.guest
    ensures t.core.db.operations[op].plan == s.core.db.operations[op].plan
  {
    t := DoStep(p, r, s, op, steps, i);
  }

  lemma {:induction false} HarmlessSteps(p: Pid, r: State, s: State, op: OpId, steps: seq<StepRow>, i: nat, n: nat)
    returns (t: State)
    requires Here(p, r, s, Walking(op, steps, i)) && i <= n < |steps| && Completable(s.core, op)
    requires Harmless(s.core.db.operations[op].plan, n)
    ensures Here(p, r, t, Walking(op, steps, n)) && Completable(t.core, op) && t.core.guest == s.core.guest
    ensures t.core.db.operations[op].plan == s.core.db.operations[op].plan
    decreases n - i
  {
    if i == n {
      t := s;
    } else {
      HarmlessAt(s.core.db.operations[op].plan, n, i);
      var u := HarmlessStep(p, r, s, op, steps, i);
      t := HarmlessSteps(p, r, u, op, steps, i + 1, n);
    }
  }

  lemma HarmlessAt(plan: Plan, n: nat, i: nat)
    requires Harmless(plan, n) && i < n
    ensures i < |plan.steps| && LeavesGuest(plan.steps[i].action)
  {
  }

  lemma HarmlessBeforeStorage(plan: Plan, shift: nat)
    requires ApplyPositions(plan.steps, shift)
    ensures Harmless(plan, shift + 1)
  {
  }

  /** The call of the storage step has created the volume when the process dies. */
  lemma DieWhileFilling(p: Pid, s: State, u: State, op: OpId, steps: seq<StepRow>, i: nat) returns (t: State)
    requires Rests(s) && Here(p, s, u, Walking(op, steps, i)) && i < |steps| && !Finished(steps[i])
    requires Completable(u.core, op) && u.core.guest.zvol.None? && IsLatest(u.core.db.operations, op)
    requires i < |u.core.db.operations[op].plan.steps| && u.core.db.operations[op].plan.steps[i].action == EnsureStorage
    requires u.core.db.operations[op].plan.operation == Apply
    ensures Rests(t) && Visible(t.core.db) && IsLatest(t.core.db.operations, op)
    ensures t.core.db.operations[op].status != Succeeded && !Completable(t.core, op)
  {
    var input := u.core.db.operations[op].plan.steps[i];
    var v := ClaimAndCall(p, s, u, op, steps, i);
    var pc := Calling(op, steps, i, input, v.core.guest);
    var half := v.core.guest.(dataset := true, zvol := Some(Zvol(VolumeSize(input), Blank, None)));
    HolderPc(p, s, v, pc);
    HalfFilled(input, v.core.guest, half);
    var w := TakeAct(p, s, v, pc, Work(half));
    HolderPc(p, s, w, pc);
    t := Silence(p, s, w);
    UnmarkedIsHopeless(t.core, op);
  }

  lemma HalfFilled(input: StepInput, g: Guest, h: Guest)
    requires input.action == EnsureStorage && g.zvol.None?
    requires h == g.(dataset := true, zvol := Some(Zvol(VolumeSize(input), Blank, None)))
    ensures Touch(input, g, h)
  {
  }

  lemma UnmarkedIsHopeless(c: Core, op: OpId)
    requires op in c.db.operations && c.db.operations[op].plan.operation == Apply
    requires c.guest.zvol.Some? && c.guest.zvol.value.imageProperty.None?
    ensures !Completable(c, op)
  {
  }

  /**
    For every declaration that is possible, one crash can strand it: some run ends with an apply, the latest operation
    and not finished, that no number of Runs will ever bring to an end.
   */
  lemma CrashStrandsApply(p: Pid, s: State, spec: Spec, found: Allocation, a: OpId, stamp: int)
    returns (states: seq<State>)
    requires Initial(s) && Possible(s.core.site, s.core.name, spec, found) && s.core.guest.zvol.None?
    ensures IsRun(states)
    ensures var t := states[|states| - 1];
            && t.procs == map[] && IsLatest(t.core.db.operations, a) && t.core.db.operations[a].status != Succeeded
            && forall u :: !Finishes(p, t, a, u)
  {
    InitialRests(s);
    var t := FirstApply(p, s, spec, found, a, stamp);
    var plan := t.core.db.operations[a].plan;
    PlanOfIsWellPlanned(s.core.site, s.core.site.images[spec.image], Apply, s.core.name, 1, spec, found);
    var shift := ApplyHasPositions(plan);
    var u, steps := BeginRun(p, t, a);
    HarmlessBeforeStorage(plan, shift);
    var v := HarmlessSteps(p, t, u, a, steps, 0, shift + 1);
    AloneLeavesRest(p, t, v);
    SameOperationsSameLatest(t.core.db.operations, v.core.db.operations, a);
    var w := DieWhileFilling(p, t, v, a, steps, shift + 1);
    FinishesIffCompletable(p, w, a);
    states :| IsRun(states) && states[|states| - 1] == w;
  }

  // ----- a verdict beside the plan of another operation

  /** A delete whose transaction began before that of the apply comes before it, although it is committed later. */
  lemma EarlierDeleteRows(c: Core, spec: Spec, found: Allocation, a: OpId, d: OpId, earlier: int)
    requires Declared(c, spec, found, a) && ManifestOk(c.name, spec) && spec.pool in c.site.pools
    requires d != a && earlier < c.db.operations[a].createdAt && Completable(c, a)
    ensures CanPrepare(c, PrepareDeletion(d))
    ensures var more := WithDelete(c, d, earlier);
            && more.db.operations.Keys == {a, d} && more.db.operations[a] == c.db.operations[a]
            && more.db.operations[d].status == Pending
            && IsLatest(more.db.operations, a) && Completable(more, a) && Visible(more.db)
            && more.db.effective.Some? && more.db.effective.value.state == Deleting
            && more.db.effective.value.plan == more.db.operations[d].plan
            && more.db.operations[d].plan.operation == Delete
  {
    var plan := CurrentPlan(c.db, c.site, c.name, Delete);
    assert plan.operation == Delete;
    var more := WithDelete(c, d, earlier);
    assert more.db.operations == c.db.operations[d := FreshOperation(plan, earlier)];
  }

  lemma ConvergedRows(c: Core, op: OpId)
    requires CanAct(c, Concluding(op), Conclude) && c.db.operations[op].plan.operation != Delete
    ensures var d := ActCore(c, Concluding(op), Conclude);
            && d.db.effective == Some(EffectiveRow(Converged, c.db.effective.value.plan))
            && d.db.operations == c.db.operations[op := ConcludedRow(c.db.operations[op])]
  {
  }

  lemma ConvergeBeside(p: Pid, u: State, a: OpId, d: OpId) returns (t: State)
    requires Rests(u) && Visible(u.core.db) && IsLatest(u.core.db.operations, a) && Completable(u.core, a)
    requires u.core.db.operations[a].status != Succeeded && u.core.db.operations[a].plan.operation == Apply
    requires d in u.core.db.operations && d != a && u.core.db.effective.Some?
    ensures Rests(t) && a in t.core.db.operations && t.core.db.operations[a].status == Succeeded
    ensures d in t.core.db.operations && t.core.db.operations[d] == u.core.db.operations[d]
    ensures t.core.db.effective == Some(EffectiveRow(Converged, u.core.db.effective.value.plan))
    ensures IsLatest(t.core.db.operations, a)
  {
    var v := RunsToConclusion(p, u, a);
    AloneLeavesRest(p, u, v);
    AloneKeepsOther(p, u, v, a, d);
    var w := After(v, p, Advance(Conclude));
    StepIsReachable(v, p, Advance(Conclude));
    StepAlone(p, u, v, Advance(Conclude));
    ConvergedRows(v.core, a);
    PutKeepsOrder(v.core.db.operations, a, ConcludedRow(v.core.db.operations[a]));
    t := Silence(p, u, w);
  }

  /**
    A verdict says nothing about the plan in force.  For every declaration that is possible, some run ends converged
    while the plan in force is that of a delete, which was prepared last, is still pending, and is not the operation
    that the next Run looks at: its transaction began before that of the apply.
   */
  lemma VerdictOfAnotherPlan(p: Pid, s: State, spec: Spec, found: Allocation, a: OpId, d: OpId, stamp: int, earlier: int)
    returns (states: seq<State>)
    requires Initial(s) && Possible(s.core.site, s.core.name, spec, found) && s.core.guest.zvol.None?
    requires a != d && earlier < stamp
    ensures IsRun(states)
    ensures var c := states[|states| - 1].core;
            && c.db.effective.Some? && c.db.effective.value.state == Converged
            && d in c.db.operations && c.db.operations[d].status == Pending
            && c.db.effective.value.plan == c.db.operations[d].plan && c.db.operations[d].plan.operation == Delete
            && IsLatest(c.db.operations, a) && c.db.operations[a].status == Succeeded
  {
    InitialRests(s);
    var t := FirstApply(p, s, spec, found, a, stamp);
    EarlierDeleteRows(t.core, spec, found, a, d, earlier);
    PreparationReaches(p, t, PrepareDeletion(d), earlier);
    var u := t.(core := WithDelete(t.core, d, earlier));
    var v := ConvergeBeside(p, u, a, d);
    states :| IsRun(states) && states[|states| - 1] == v;
  }
}
