/**
  The apply command: internal/cli/execution.go (runApply).  It prepares the apply; when the operation it gets back has
  succeeded before, it prepares a reconcile as well; and then it runs the latest operation of the resource.

  The command is taken alone: nobody else has the key or prepares anything meanwhile, but it may be cut off and Run
  repeated any number of times.
 */
module Commands {
  import opened Prelude
  import opened Planner
  import opened Guests
  import opened Journal
  import opened Protocol
  import opened Invariant
  import opened Preservation
  import opened Progress
  import opened Calls
  import opened Paths
  import opened Completion
  import Changes
  import Runs

  // ----- what the command does to the rows

  /** The input of one apply command, and the identifiers and stamps that the database gives. */
  datatype Command = Command(spec: Spec, found: Allocation, op: OpId, stamp: int, reconcile: OpId, reconcileStamp: int)

  function FirstPreparation(a: Command): Preparation {
    PrepareApplication(a.spec, a.found, a.op)
  }

  /** The operation that the apply preparation gets back has succeeded before. */
  predicate Repeats(c: Core, a: Command) {
    a.op in c.db.operations && c.db.operations[a.op].status == Succeeded
  }

  predicate CanCommand(c: Core, a: Command) {
    && CanPrepare(c, FirstPreparation(a))
    && (Repeats(c, a) ==> CanPrepare(PrepareCore(c, FirstPreparation(a), a.stamp), PrepareReconciliation(a.reconcile)))
  }

  /** Everything that the command writes before it runs. */
  function CommandedCore(c: Core, a: Command): Core
    requires CanCommand(c, a)
  {
    var applied := PrepareCore(c, FirstPreparation(a), a.stamp);
    if Repeats(c, a) then PrepareCore(applied, PrepareReconciliation(a.reconcile), a.reconcileStamp) else applied
  }

  lemma BeginWriting(p: Pid, s: State, stamp: int) returns (t: State)
    requires Reachable(s) && p !in s.procs && s.holder.None?
    ensures Reachable(t) && t == State(s.core, Some(p), s.procs[p := Writing(stamp)])
  {
    var u := After(s, p, BeginPreparation(stamp));
    StepIsReachable(s, p, BeginPreparation(stamp));
    t := After(u, p, TakeKey);
    StepIsReachable(u, p, TakeKey);
  }

  lemma PreparationReaches(p: Pid, s: State, preparation: Preparation, stamp: int)
    requires Reachable(s) && p !in s.procs && s.holder.None? && CanPrepare(s.core, preparation)
    ensures Reachable(s.(core := PrepareCore(s.core, preparation, stamp)))
  {
    var t := BeginWriting(p, s, stamp);
    StepIsReachable(t, p, Commit(preparation));
    assert s.procs[p := Writing(stamp)] - {p} == s.procs;
  }

  lemma CommandReaches(p: Pid, s: State, a: Command)
    requires Reachable(s) && p !in s.procs && s.holder.None? && CanCommand(s.core, a)
    ensures Reachable(s.(core := CommandedCore(s.core, a)))
  {
    PreparationReaches(p, s, FirstPreparation(a), a.stamp);
    if Repeats(s.core, a) {
      var t := s.(core := PrepareCore(s.core, FirstPreparation(a), a.stamp));
      PreparationReaches(p, t, PrepareReconciliation(a.reconcile), a.reconcileStamp);
    }
  }

  // ----- which operation the command runs

  /** What a preparation inserts now will be the latest. */
  predicate Newest(ops: map<OpId, OpRow>, o: OpId, stamp: int) {
    forall other <- ops :: ops[other].createdAt < stamp || (ops[other].createdAt == stamp && other < o)
  }

  /** The operation that the last preparation of the command inserts, reuses or resets. */
  function LastPrepared(c: Core, a: Command): (OpId, int) {
    if Repeats(c, a) then (a.reconcile, a.reconcileStamp) else (a.op, a.stamp)
  }

  /** The command runs what it has just inserted or reset. */
  predicate RunsItsOwn(c: Core, a: Command) {
    var (o, stamp) := LastPrepared(c, a);
    if o in c.db.operations then Repeats(c, a) && IsLatest(c.db.operations, o) else Newest(c.db.operations, o, stamp)
  }

  /**
    What goes wrong: the command neither inserts nor resets the latest operation, and that operation either has
    succeeded, so that Run does nothing, while the verdict is not that of the very plan that was prepared; or it is an
    unfinished delete that can be completed.
   */
  predicate GoesAstray(c: Core, a: Command)
    requires CanCommand(c, a)
  {
    !RunsItsOwn(c, a)
    && exists latest <- c.db.operations :: IsLatest(c.db.operations, latest)
         && var row := c.db.operations[latest];
            if row.status == Succeeded then
              Repeats(c, a)
              || c.db.effective != Some(EffectiveRow(Converged, ApplyPlan(c.db, c.site, c.name, a.spec, a.found)))
            else row.plan.operation == Delete && Completable(c, latest)
  }

  lemma FreshLatest(ops: map<OpId, OpRow>, plan: Plan, o: OpId, stamp: int)
    requires o !in ops
    ensures var more := ops[o := FreshOperation(plan, stamp)];
            if Newest(ops, o, stamp) then IsLatest(more, o)
            else forall latest <- ops :: IsLatest(ops, latest) ==> IsLatest(more, latest)
  {
    var more := ops[o := FreshOperation(plan, stamp)];
    if Newest(ops, o, stamp) {
      forall other | other in more ensures NotAfter(more, other, o) {
        if other != o { assert other in ops; }
      }
    } else {
      var other :| other in ops && !(ops[other].createdAt < stamp || (ops[other].createdAt == stamp && other < o));
      forall latest | latest in ops && IsLatest(ops, latest) ensures IsLatest(more, latest) {
        assert NotAfter(ops, other, latest);
        forall third | third in more ensures NotAfter(more, third, latest) {
          if third != o { assert NotAfter(ops, third, latest); }
        }
      }
    }
  }

  predicate SameButFor(ops: map<OpId, OpRow>, more: map<OpId, OpRow>, o: OpId) {
    more.Keys == ops.Keys + {o} && forall other <- ops :: other != o ==> more[other] == ops[other]
  }

  /** One operation is inserted, reused or reset; what is the latest afterwards follows from what was before. */
  lemma PersistedLatest(ops: map<OpId, OpRow>, plan: Plan, o: OpId, stamp: int, latest: OpId)
    requires IsLatest(ops, latest) && Resolves(ops, plan, o)
    ensures var more := if o in ops then ops else ops[o := FreshOperation(plan, stamp)];
            SameButFor(ops, more, o)
            && (if o !in ops && Newest(ops, o, stamp) then IsLatest(more, o) && more[o].status == Pending
                else IsLatest(more, latest) && more[latest] == ops[latest])
  {
    if o !in ops {
      FreshLatest(ops, plan, o, stamp);
    }
  }

  lemma ResetLatest(ops: map<OpId, OpRow>, o: OpId, latest: OpId)
    requires IsLatest(ops, latest) && o in ops
    ensures var more := ops[o := ResetOperation(ops[o])];
            && IsLatest(more, latest) && more[o].status != Succeeded && more[o].plan == ops[o].plan
            && (latest != o ==> more[latest] == ops[latest])
  {
    PutKeepsOrder(ops, o, ResetOperation(ops[o]));
  }

  /** The operations and the verdict after a first preparation that is also the last. */
  lemma AppliedRows(c: Core, a: Command)
    requires CanCommand(c, a) && !Repeats(c, a)
    ensures var d, plan := CommandedCore(c, a), ApplyPlan(c.db, c.site, c.name, a.spec, a.found);
            && Resolves(c.db.operations, plan, a.op) && plan.operation == Apply
            && d.db.operations == (if a.op in c.db.operations then c.db.operations
                                   else c.db.operations[a.op := FreshOperation(plan, a.stamp)])
            && d.db.effective == Some(EffectiveRow(if c.db.effective == Some(EffectiveRow(Converged, plan)) then Converged
                                                   else EffectivePending, plan))
  {
  }

  lemma ReconciledRows(c: Core, a: Command)
    requires CanCommand(c, a) && Repeats(c, a)
    ensures var d, ops := CommandedCore(c, a), c.db.operations;
            exists plan: Plan :: plan.operation == Reconcile && Resolves(ops, plan, a.reconcile)
              && d.db.operations == (if a.reconcile in ops then ops[a.reconcile := ResetOperation(ops[a.reconcile])]
                                     else ops[a.reconcile := FreshOperation(plan, a.reconcileStamp)])
              && d.db.effective == Some(EffectiveRow(Applying, plan))
  {
    var applied := PrepareCore(c, FirstPreparation(a), a.stamp);
    assert applied.db.operations == c.db.operations;
    var plan := CurrentPlan(applied.db, applied.site, applied.name, Reconcile);
    assert plan.operation == Reconcile && Resolves(c.db.operations, plan, a.reconcile);
  }

  lemma CommandKeepsTheRest(c: Core, a: Command)
    requires CanCommand(c, a)
    ensures var d := CommandedCore(c, a);
            d.guest == c.guest && d.verified == c.verified && Visible(d.db) && d.site == c.site && d.name == c.name
  {
  }

  /** What Run finds after the preparations. */
  predicate FoundBy(c: Core, d: Core, own: bool, l: OpId) {
    && IsLatest(d.db.operations, l)
    && if own then d.db.operations[l].status != Succeeded && d.db.operations[l].plan.operation != Delete
       else IsLatest(c.db.operations, l) && d.db.operations[l] == c.db.operations[l]
  }

  lemma FoundAfterApply(c: Core, a: Command) returns (l: OpId)
    requires CanCommand(c, a) && !Repeats(c, a)
    ensures FoundBy(c, CommandedCore(c, a), RunsItsOwn(c, a), l)
  {
    var ops, plan := c.db.operations, ApplyPlan(c.db, c.site, c.name, a.spec, a.found);
    AppliedRows(c, a);
    if ops == map[] {
      FreshLatest(ops, plan, a.op, a.stamp);
      l := a.op;
    } else {
      LatestExists(ops);
      var latest :| IsLatest(ops, latest);
      PersistedLatest(ops, plan, a.op, a.stamp, latest);
      l := if RunsItsOwn(c, a) then a.op else latest;
    }
  }

  lemma FoundAfterReconcile(c: Core, a: Command) returns (l: OpId)
    requires CanCommand(c, a) && Repeats(c, a)
    ensures FoundBy(c, CommandedCore(c, a), RunsItsOwn(c, a), l)
  {
    var ops, d := c.db.operations, CommandedCore(c, a);
    ReconciledRows(c, a);
    var plan: Plan :| plan.operation == Reconcile && Resolves(ops, plan, a.reconcile)
              && d.db.operations == (if a.reconcile in ops then ops[a.reconcile := ResetOperation(ops[a.reconcile])]
                                     else ops[a.reconcile := FreshOperation(plan, a.reconcileStamp)]);
    LatestExists(ops);
    var latest :| IsLatest(ops, latest);
    if a.reconcile in ops {
      ResetLatest(ops, a.reconcile, latest);
      if IsLatest(ops, a.reconcile) {
        LatestIsUnique(ops, a.reconcile, latest);
      }
      l := latest;
    } else {
      PersistedLatest(ops, plan, a.reconcile, a.reconcileStamp, latest);
      l := if RunsItsOwn(c, a) then a.reconcile else latest;
    }
  }

  // ----- how a Run ends

  /** Run returns at once, because the latest operation has succeeded. */
  ghost predicate FindsNothingToDo(p: Pid, u: State, o: OpId, t: State) {
    && p in u.procs && u.procs[p] == Inspecting && CanAct(u.core, Inspecting, Inspect(o))
    && u.core.db.operations[o].status == Succeeded && t == After(u, p, Advance(Inspect(o)))
  }

  /** Run has walked through all steps and concludes the operation. */
  ghost predicate ConcludesRun(p: Pid, u: State, t: State) {
    p in u.procs && u.procs[p].Concluding? && CanAct(u.core, u.procs[p], Conclude) && t == After(u, p, Advance(Conclude))
  }

  /** A Run of the process, now or when it is repeated, ends without an error. */
  ghost predicate RunSucceeds(p: Pid, s: State, t: State) {
    exists u :: Alone(p, s, u) && (ConcludesRun(p, u, t) || exists o :: FindsNothingToDo(p, u, o, t))
  }

  predicate IsConverged(c: Core) {
    c.db.effective.Some? && c.db.effective.value.state == Converged
  }

  // ----- when the latest operation has succeeded, nothing happens

  predicate Idle(p: Pid, s: State, c: Core) {
    s.core == c && (p in s.procs ==> s.procs[p] in {Locking, Inspecting, Leaving})
  }

  lemma StepKeepsIdle(p: Pid, s: State, l: Label, c: Core, latest: OpId)
    requires Idle(p, s, c) && IsExecution(s, p, l) && Enabled(s, p, l)
    requires IsLatest(c.db.operations, latest) && c.db.operations[latest].status == Succeeded
    ensures Idle(p, After(s, p, l), c)
  {
    if l.Advance? && l.act.Inspect? {
      LatestIsUnique(c.db.operations, latest, l.act.op);
    }
  }

  lemma {:induction false} PathStaysIdle(p: Pid, path: seq<State>, i: nat, c: Core, latest: OpId)
    requires IsOwnPath(p, path) && i < |path| && Idle(p, path[0], c)
    requires IsLatest(c.db.operations, latest) && c.db.operations[latest].status == Succeeded
    ensures Idle(p, path[i], c)
  {
    if i > 0 {
      PathStaysIdle(p, path, i - 1, c, latest);
      assert OwnFollows(p, path, i - 1);
      var l :| IsExecution(path[i - 1], p, l) && Enabled(path[i - 1], p, l) && path[i] == After(path[i - 1], p, l);
      StepKeepsIdle(p, path[i - 1], l, c, latest);
    }
  }

  lemma IdleSuccess(p: Pid, s: State, t: State, latest: OpId)
    requires p !in s.procs && RunSucceeds(p, s, t)
    requires IsLatest(s.core.db.operations, latest) && s.core.db.operations[latest].status == Succeeded
    ensures t.core == s.core
  {
    var u :| Alone(p, s, u) && (ConcludesRun(p, u, t) || exists o :: FindsNothingToDo(p, u, o, t));
    var path: seq<State> :| IsOwnPath(p, path) && path[0] == s && path[|path| - 1] == u;
    PathStaysIdle(p, path, |path| - 1, s.core, latest);
    var o :| FindsNothingToDo(p, u, o, t);
  }

  lemma SomeIdleSuccess(p: Pid, s: State, latest: OpId) returns (t: State)
    requires Reachable(s) && p !in s.procs && s.holder.None? && Visible(s.core.db)
    requires IsLatest(s.core.db.operations, latest) && s.core.db.operations[latest].status == Succeeded
    ensures RunSucceeds(p, s, t) && t.core == s.core
  {
    var u := EnterRun(p, s);
    t := After(u, p, Advance(Inspect(latest)));
    assert FindsNothingToDo(p, u, latest, t);
  }

  // ----- when it has not, success is its own

  lemma ActKeepsStatus(c: Core, pc: Pc, act: Act, o: OpId)
    requires CanAct(c, pc, act) && !act.Conclude? && o in c.db.operations
    ensures var d := ActCore(c, pc, act);
            && o in d.db.operations && d.db.effective == c.db.effective
            && (d.db.operations[o].status == Succeeded ==> c.db.operations[o].status == Succeeded)
  {
  }

  lemma ActKeepsLatest(c: Core, pc: Pc, act: Act, latest: OpId)
    requires CanAct(c, pc, act) && IsLatest(c.db.operations, latest)
    ensures var d := ActCore(c, pc, act);
            IsLatest(d.db.operations, latest) && d.db.operations[latest].plan == c.db.operations[latest].plan
  {
    ActKeepsOperations(c, pc, act);
    SameOperationsSameLatest(c.db.operations, ActCore(c, pc, act).db.operations, latest);
  }

  /** The latest operation is no delete, and once it has succeeded the resource is converged. */
  predicate Earned(c: Core, latest: OpId) {
    && IsLatest(c.db.operations, latest) && c.db.operations[latest].plan.operation != Delete
    && (c.db.operations[latest].status == Succeeded ==> IsConverged(c))
  }

  lemma ConcludingConverges(c: Core, pc: Pc, latest: OpId)
    requires PcOk(c, pc) && CanAct(c, pc, Conclude) && Earned(c, latest)
    ensures IsConverged(ActCore(c, pc, Conclude))
  {
    LatestIsUnique(c.db.operations, pc.op, latest);
  }

  lemma ActKeepsEarned(c: Core, pc: Pc, act: Act, latest: OpId)
    requires PcOk(c, pc) && CanAct(c, pc, act) && Earned(c, latest)
    ensures Earned(ActCore(c, pc, act), latest)
  {
    ActKeepsLatest(c, pc, act, latest);
    if act.Conclude? {
      ConcludingConverges(c, pc, latest);
    } else {
      ActKeepsStatus(c, pc, act, latest);
    }
  }

  lemma StepKeepsEarned(p: Pid, s: State, l: Label, latest: OpId)
    requires Reachable(s) && IsExecution(s, p, l) && Enabled(s, p, l) && Earned(s.core, latest)
    ensures Earned(After(s, p, l).core, latest)
  {
    match l
    case Advance(act) =>
      ActingPc(p, s, act);
      ActKeepsEarned(s.core, s.procs[p], act, latest);
    case ImageVerified(_) =>
    case Enter | TakeKey | Exit =>
  }

  lemma {:induction false} PathKeepsEarned(p: Pid, path: seq<State>, i: nat, latest: OpId)
    requires IsOwnPath(p, path) && i < |path| && Reachable(path[0]) && Earned(path[0].core, latest)
    ensures Reachable(path[i]) && Earned(path[i].core, latest)
  {
    if i > 0 {
      PathKeepsEarned(p, path, i - 1, latest);
      assert OwnFollows(p, path, i - 1);
      var l :| IsExecution(path[i - 1], p, l) && Enabled(path[i - 1], p, l) && path[i] == After(path[i - 1], p, l);
      StepKeepsEarned(p, path[i - 1], l, latest);
      StepIsReachable(path[i - 1], p, l);
    }
  }

  lemma EarnedSuccess(p: Pid, s: State, t: State, latest: OpId)
    requires Reachable(s) && RunSucceeds(p, s, t) && Earned(s.core, latest)
    ensures IsConverged(t.core)
  {
    var u :| Alone(p, s, u) && (ConcludesRun(p, u, t) || exists o :: FindsNothingToDo(p, u, o, t));
    var path: seq<State> :| IsOwnPath(p, path) && path[0] == s && path[|path| - 1] == u;
    PathKeepsEarned(p, path, |path| - 1, latest);
    if ConcludesRun(p, u, t) {
      EarnedByConcluding(p, u, t, latest);
    } else {
      var o :| FindsNothingToDo(p, u, o, t);
      EarnedBefore(p, u, o, t, latest);
    }
  }

  lemma EarnedByConcluding(p: Pid, u: State, t: State, latest: OpId)
    requires Reachable(u) && ConcludesRun(p, u, t) && Earned(u.core, latest)
    ensures IsConverged(t.core)
  {
    ActingPc(p, u, Conclude);
    ConcludingConverges(u.core, u.procs[p], latest);
  }

  lemma EarnedBefore(p: Pid, u: State, o: OpId, t: State, latest: OpId)
    requires Reachable(u) && FindsNothingToDo(p, u, o, t) && Earned(u.core, latest)
    ensures IsConverged(t.core)
  {
    LatestIsUnique(u.core.db.operations, o, latest);
  }

  // ----- an unfinished delete

  lemma HopelessRunFails(p: Pid, s: State, t: State, latest: OpId)
    requires Reachable(s) && p !in s.procs && RunSucceeds(p, s, t)
    requires IsLatest(s.core.db.operations, latest) && s.core.db.operations[latest].status != Succeeded
    ensures Completable(s.core, latest)
  {
    if !Completable(s.core, latest) {
      ReachableKeepsInv(s);
      IncompletableIsHopeless(s.core, latest);
      var u :| Alone(p, s, u) && (ConcludesRun(p, u, t) || exists o :: FindsNothingToDo(p, u, o, t));
      NeverSucceeds(p, s, latest, u);
      SuccessIsOfLatest(p, s, u, t, latest);
    }
  }

  lemma ConclusionIsOfLatest(p: Pid, u: State, t: State, latest: OpId)
    requires Reachable(u) && ConcludesRun(p, u, t) && IsLatest(u.core.db.operations, latest)
    ensures latest in t.core.db.operations && t.core.db.operations[latest].status == Succeeded
  {
    ActingPc(p, u, Conclude);
    LatestIsUnique(u.core.db.operations, u.procs[p].op, latest);
  }

  lemma SuccessIsOfLatest(p: Pid, s: State, u: State, t: State, latest: OpId)
    requires Reachable(s) && Alone(p, s, u) && p !in s.procs && IsLatest(u.core.db.operations, latest)
    requires HopelessCore(s.core, latest, Beginning(s.core.verified, s.core.guest))
    ensures !ConcludesRun(p, u, t) && !exists o :: FindsNothingToDo(p, u, o, t)
  {
    NeverSucceeds(p, s, latest, u);
    if ConcludesRun(p, u, t) {
      StepAlone(p, s, u, Advance(Conclude));
      NeverSucceeds(p, s, latest, t);
      AloneIsReachable(p, s, u);
      ConclusionIsOfLatest(p, u, t, latest);
    }
    if o :| FindsNothingToDo(p, u, o, t) {
      LatestIsUnique(u.core.db.operations, o, latest);
    }
  }

  lemma {:induction false} PathIsReachable(p: Pid, path: seq<State>, i: nat)
    requires IsOwnPath(p, path) && i < |path| && Reachable(path[0])
    ensures Reachable(path[i])
  {
    if i > 0 {
      PathIsReachable(p, path, i - 1);
      assert OwnFollows(p, path, i - 1);
      var l :| IsExecution(path[i - 1], p, l) && Enabled(path[i - 1], p, l) && path[i] == After(path[i - 1], p, l);
      StepIsReachable(path[i - 1], p, l);
    }
  }

  lemma AloneIsReachable(p: Pid, s: State, t: State)
    requires Reachable(s) && Alone(p, s, t)
    ensures Reachable(t)
  {
    var path: seq<State> :| IsOwnPath(p, path) && path[0] == s && path[|path| - 1] == t;
    PathIsReachable(p, path, |path| - 1);
  }

  lemma ConcludedDelete(c: Core, op: OpId)
    requires CanAct(c, Concluding(op), Conclude) && c.db.operations[op].plan.operation == Delete
    ensures !IsConverged(ActCore(c, Concluding(op), Conclude))
  {
  }

  lemma SomeDeleteSucceeds(p: Pid, s: State, latest: OpId) returns (t: State)
    requires Reachable(s) && p !in s.procs && s.holder.None? && Visible(s.core.db)
    requires IsLatest(s.core.db.operations, latest) && s.core.db.operations[latest].status != Succeeded
    requires s.core.db.operations[latest].plan.operation == Delete && Completable(s.core, latest)
    ensures RunSucceeds(p, s, t) && !IsConverged(t.core)
  {
    var u := RunsToConclusion(p, s, latest);
    AloneLeavesRest(p, s, u);
    t := After(u, p, Advance(Conclude));
    ConcludedDelete(u.core, latest);
    assert ConcludesRun(p, u, t);
  }

  // ----- the command

  /** What a Run can end in follows from the latest operation that it finds. */
  lemma WhatSuccessMeans(p: Pid, s: State, latest: OpId)
    requires Reachable(s) && p !in s.procs && s.holder.None? && Visible(s.core.db) && IsLatest(s.core.db.operations, latest)
    ensures (forall t :: RunSucceeds(p, s, t) ==> IsConverged(t.core))
            <==> var row := s.core.db.operations[latest];
                 if row.status == Succeeded then IsConverged(s.core)
                 else !(row.plan.operation == Delete && Completable(s.core, latest))
  {
    var row := s.core.db.operations[latest];
    if row.status == Succeeded {
      var t := SomeIdleSuccess(p, s, latest);
      forall u | RunSucceeds(p, s, u) ensures u.core == s.core {
        IdleSuccess(p, s, u, latest);
      }
    } else if row.plan.operation != Delete {
      forall t | RunSucceeds(p, s, t) ensures IsConverged(t.core) {
        EarnedSuccess(p, s, t, latest);
      }
    } else if Completable(s.core, latest) {
      var t := SomeDeleteSucceeds(p, s, latest);
    } else {
      forall t | RunSucceeds(p, s, t) ensures false {
        HopelessRunFails(p, s, t, latest);
      }
    }
  }

  lemma FoundByRun(c: Core, a: Command) returns (l: OpId)
    requires CanCommand(c, a)
    ensures FoundBy(c, CommandedCore(c, a), RunsItsOwn(c, a), l)
  {
    if Repeats(c, a) {
      l := FoundAfterReconcile(c, a);
    } else {
      l := FoundAfterApply(c, a);
    }
  }

  lemma VerdictAfterCommand(c: Core, a: Command)
    requires CanCommand(c, a)
    ensures IsConverged(CommandedCore(c, a)) <==>
              !Repeats(c, a)
              && c.db.effective == Some(EffectiveRow(Converged, ApplyPlan(c.db, c.site, c.name, a.spec, a.found)))
  {
    if Repeats(c, a) {
      ReconciledRows(c, a);
    } else {
      AppliedRows(c, a);
    }
  }

  /** The command can end in success without convergence exactly when it goes astray, as the rows before it say. */
  lemma AstrayIsSeenBefore(c: Core, a: Command, l: OpId)
    requires CanCommand(c, a) && FoundBy(c, CommandedCore(c, a), RunsItsOwn(c, a), l)
    ensures var d := CommandedCore(c, a);
            GoesAstray(c, a)
            <==> !(var row := d.db.operations[l];
                   if row.status == Succeeded then IsConverged(d)
                   else !(row.plan.operation == Delete && Completable(d, l)))
  {
    VerdictAfterCommand(c, a);
    CommandKeepsTheRest(c, a);
    if !RunsItsOwn(c, a) {
      forall latest | IsLatest(c.db.operations, latest) ensures latest == l {
        LatestIsUnique(c.db.operations, latest, l);
      }
    }
  }

  /**
    "apply returns success only when effective state is converged".  For every reachable state in which nobody has the
    key: every success of the command, now or after crashes and repeated Runs, leaves the resource converged if and
    only if the command does not go astray, which the rows before it tell.
   */
  lemma ApplyMeansConverged(p: Pid, s: State, a: Command)
    requires Reachable(s) && p !in s.procs && s.holder.None? && CanCommand(s.core, a)
    ensures Reachable(s.(core := CommandedCore(s.core, a)))
    ensures (forall t :: RunSucceeds(p, s.(core := CommandedCore(s.core, a)), t) ==> IsConverged(t.core))
            <==> !GoesAstray(s.core, a)
  {
    CommandReaches(p, s, a);
    CommandKeepsTheRest(s.core, a);
    var l := FoundByRun(s.core, a);
    AstrayIsSeenBefore(s.core, a, l);
    WhatSuccessMeans(p, s.(core := CommandedCore(s.core, a)), l);
  }
}
