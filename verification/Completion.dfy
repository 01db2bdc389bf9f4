/**
  An operation that can be completed is completed by one Run that is left alone; and one that cannot is not completed
  by any number of them.
 */
module Completion {
  import opened Prelude
  import opened Planner
  import opened Guests
  import opened Journal
  import opened Protocol
  import opened Invariant
  import opened Preservation
  import opened Progress
  import opened Calls
  import opened Paths
  import Runs

  // ----- one process, left alone

  /** The steps of executors, not of preparations; only the call that fetches an image makes it verify. */
  predicate IsExecution(s: State, p: Pid, l: Label) {
    match l
    case Commit(_) => false
    case BeginPreparation(_) => false
    case ImageVerified(image) => p in s.procs && Fetches(s.procs[p], image)
    case _ => true
  }

  predicate Fetches(pc: Pc, image: string) {
    pc.Calling? && pc.input.action == EnsureImage && pc.input.image.name == image
  }

  ghost predicate OwnStep(p: Pid, s: State, t: State) {
    exists l :: IsExecution(s, p, l) && Enabled(s, p, l) && t == After(s, p, l)
  }

  ghost predicate OwnFollows(p: Pid, path: seq<State>, i: nat)
    requires i + 1 < |path|
  {
    OwnStep(p, path[i], path[i + 1])
  }

  ghost predicate IsOwnPath(p: Pid, path: seq<State>) {
    |path| > 0 && forall i :: 0 <= i < |path| - 1 ==> OwnFollows(p, path, i)
  }

  /** One process, running and crashing as often as it likes, leads from one state to the other. */
  ghost predicate Alone(p: Pid, s: State, t: State) {
    exists path: seq<State> :: IsOwnPath(p, path) && path[0] == s && path[|path| - 1] == t
  }

  lemma AloneItself(p: Pid, s: State)
    ensures Alone(p, s, s)
  {
    assert IsOwnPath(p, [s]) && [s][0] == s;
  }

  lemma AloneOn(p: Pid, r: State, s: State, t: State)
    requires Alone(p, r, s) && OwnStep(p, s, t)
    ensures Alone(p, r, t)
  {
    var a: seq<State> :| IsOwnPath(p, a) && a[0] == r && a[|a| - 1] == s;
    var b := a + [t];
    forall i | 0 <= i < |b| - 1 ensures OwnFollows(p, b, i) {
      if i < |a| - 1 { assert OwnFollows(p, a, i); }
    }
    assert IsOwnPath(p, b) && b[0] == r && b[|b| - 1] == t;
  }

  lemma StepAlone(p: Pid, r: State, s: State, l: Label)
    requires Alone(p, r, s) && IsExecution(s, p, l) && Enabled(s, p, l)
    ensures Alone(p, r, After(s, p, l))
  {
    assert OwnStep(p, s, After(s, p, l));
    AloneOn(p, r, s, After(s, p, l));
  }

  lemma StepIsReachable(s: State, p: Pid, l: Label)
    requires Reachable(s) && Enabled(s, p, l)
    ensures Reachable(After(s, p, l))
  {
    ReachedItself(s);
    StepReaches(s, s, p, l);
  }

  /** A Run writes no tables but those of operations and observations before it concludes. */
  predicate SameDeclarations(b: Core, c: Core) {
    && c.site == b.site && c.name == b.name
    && c.db == b.db.(operations := c.db.operations, observations := c.db.observations)
  }

  /** Where a process is in a reachable state, and that nobody else led here and nothing has been concluded. */
  ghost predicate Here(p: Pid, r: State, s: State, pc: Pc) {
    Reachable(s) && Alone(p, r, s) && p in s.procs && s.procs[p] == pc && SameDeclarations(r.core, s.core)
  }

  lemma ActKeepsDeclarations(c: Core, pc: Pc, act: Act)
    requires CanAct(c, pc, act) && !act.Conclude?
    ensures SameDeclarations(c, ActCore(c, pc, act))
  {
  }

  lemma DeclarationsStay(a: Core, b: Core, c: Core)
    requires SameDeclarations(a, b) && SameDeclarations(b, c)
    ensures SameDeclarations(a, c)
  {
  }

  lemma TakeAct(p: Pid, r: State, s: State, pc: Pc, act: Act) returns (t: State)
    requires Here(p, r, s, pc) && CanAct(s.core, pc, act) && !act.Conclude?
    ensures Here(p, r, t, ActPc(s.core, pc, act)) && t.core == ActCore(s.core, pc, act)
  {
    t := After(s, p, Advance(act));
    StepIsReachable(s, p, Advance(act));
    StepAlone(p, r, s, Advance(act));
    ActKeepsDeclarations(s.core, pc, act);
    DeclarationsStay(r.core, s.core, t.core);
  }

  /** The call of the one action that fetches an image makes it verify; other calls do not. */
  lemma FetchImage(p: Pid, r: State, s: State, pc: Pc) returns (t: State)
    requires Here(p, r, s, pc) && pc.Calling?
    ensures Here(p, r, t, pc) && t.core == s.core.(verified := Fetched(pc.input, s.core.verified))
  {
    if pc.input.action == EnsureImage {
      var l := ImageVerified(pc.input.image.name);
      t := After(s, p, l);
      StepIsReachable(s, p, l);
      StepAlone(p, r, s, l);
    } else {
      t := s;
    }
  }

  lemma EnterRun(p: Pid, s: State) returns (t: State)
    requires Reachable(s) && p !in s.procs && s.holder.None? && Visible(s.core.db)
    ensures Here(p, s, t, Inspecting) && t.core == s.core
  {
    var u := After(s, p, Enter);
    AloneItself(p, s);
    StepIsReachable(s, p, Enter);
    StepAlone(p, s, s, Enter);
    t := After(u, p, TakeKey);
    StepIsReachable(u, p, TakeKey);
    StepAlone(p, s, u, TakeKey);
  }

  // ----- one step of the operation

  /** The rows of the operation say that it can be completed from the present guest. */
  predicate Completable(c: Core, op: OpId) {
    op in c.db.operations
    && var row := c.db.operations[op];
       |row.plan.steps| > 0 && |row.steps| == |row.plan.steps| && CanComplete(row, c.verified, c.guest)
  }

  lemma HolderPc(p: Pid, r: State, s: State, pc: Pc)
    requires Here(p, r, s, pc) && Holds(pc)
    ensures PcOk(s.core, pc) && CoreOk(s.core)
  {
    ReachableKeepsInv(s);
    assert s.holder == Some(p);
  }

  lemma WalkingRow(c: Core, op: OpId, steps: seq<StepRow>, i: nat)
    requires CoreOk(c) && PcOk(c, Walking(op, steps, i)) && i < |steps| && !Finished(steps[i])
    ensures HasStep(c.db, op, i) && RowOk(c.db.operations[op]) && AtStep(c.db.operations[op], i)
    ensures Claimable(c.db.operations[op].steps[i]) && c.db.operations[op].status == Running
    ensures GuestOk(c.guest) && DoneHolds(c.db.operations[op], c.verified, c.guest)
  {
    assert RowOk(c.db.operations[op]);
  }

  /** Claim the step and call the driver. */
  lemma ClaimFrom(p: Pid, r: State, s: State, op: OpId, steps: seq<StepRow>, i: nat) returns (t: State)
    requires Here(p, r, s, Walking(op, steps, i)) && i < |steps| && !Finished(steps[i])
    requires HasStep(s.core.db, op, i) && RowOk(s.core.db.operations[op])
    requires Claimable(s.core.db.operations[op].steps[i])
    ensures Here(p, r, t, Calling(op, steps, i, s.core.db.operations[op].plan.steps[i], s.core.guest))
    ensures t.core.db == ClaimStep(s.core.db, op, i) && t.core.guest == s.core.guest && t.core.verified == s.core.verified
  {
    var u := TakeAct(p, r, s, Walking(op, steps, i), Claim);
    t := TakeAct(p, r, u, u.procs[p], Call);
  }

  /** The driver does all it can, and what it has seen is recorded. */
  lemma AnswerCall(p: Pid, r: State, s: State, op: OpId, steps: seq<StepRow>, i: nat, input: StepInput)
    returns (t: State, result: Result)
    requires Here(p, r, s, Calling(op, steps, i, input, s.core.guest))
    requires GuestOk(s.core.guest) && Feasible(input, s.core.verified, s.core.guest) && HasStep(s.core.db, op, i)
    ensures result.ok && Here(p, r, t, Settling(op, steps, i, result))
    ensures t.core.db.operations == s.core.db.operations && t.core.guest == Achieved(input, s.core.guest)
    ensures t.core.verified == Fetched(input, s.core.verified)
  {
    var g := s.core.guest;
    var pc := Calling(op, steps, i, input, g);
    var u := FetchImage(p, r, s, pc);
    FeasibleCallSucceeds(input, s.core.verified, g);
    result := SuccessOf(input, u.core.verified, Achieved(input, g));
    var v := TakeAct(p, r, u, pc, Work(Achieved(input, g)));
    var w := TakeAct(p, r, v, pc, Return(result));
    t := TakeAct(p, r, w, Reporting(op, steps, i, result), if result.observation.Some? then Record else RecordNothing);
  }

  lemma CompleteFrom(p: Pid, r: State, s: State, op: OpId, steps: seq<StepRow>, i: nat, result: Result) returns (t: State)
    requires Here(p, r, s, Settling(op, steps, i, result)) && result.ok && HasStep(s.core.db, op, i)
    ensures Here(p, r, t, Walking(op, steps, i + 1)) && t.core.guest == s.core.guest && t.core.verified == s.core.verified
    ensures t.core.db.operations == s.core.db.operations[op := CompletedRow(s.core.db.operations[op], i, result)]
  {
    t := TakeAct(p, r, s, Settling(op, steps, i, result), Complete);
    CompleteShape(s.core, op, i, result);
  }

  /** The operation has the same plan, and at most one step of it has been done. */
  predicate Advanced(c: Core, d: Core, op: OpId, i: nat) {
    && op in c.db.operations && op in d.db.operations && d.db.operations[op].plan == c.db.operations[op].plan
    && i < |c.db.operations[op].plan.steps|
    && (d.guest == c.guest || d.guest == Achieved(c.db.operations[op].plan.steps[i], c.guest))
  }

  lemma StepIsPlanned(p: Pid, r: State, s: State, op: OpId, steps: seq<StepRow>, i: nat)
    requires Here(p, r, s, Walking(op, steps, i)) && i < |steps| && Completable(s.core, op)
    ensures i < |s.core.db.operations[op].plan.steps|
  {
    HolderPc(p, r, s, Walking(op, steps, i));
  }

  lemma DoStep(p: Pid, r: State, s: State, op: OpId, steps: seq<StepRow>, i: nat) returns (t: State)
    requires Here(p, r, s, Walking(op, steps, i)) && i < |steps| && Completable(s.core, op)
    ensures Here(p, r, t, Walking(op, steps, i + 1)) && Completable(t.core, op) && Advanced(s.core, t.core, op, i)
  {
    if Finished(steps[i]) {
      StepIsPlanned(p, r, s, op, steps, i);
      t := TakeAct(p, r, s, Walking(op, steps, i), Skip);
    } else {
      t := ExecuteStep(p, r, s, op, steps, i);
    }
  }

  lemma ClaimAndCall(p: Pid, r: State, s: State, op: OpId, steps: seq<StepRow>, i: nat) returns (t: State)
    requires Here(p, r, s, Walking(op, steps, i)) && i < |steps| && !Finished(steps[i]) && Completable(s.core, op)
    ensures HasStep(s.core.db, op, i) && RowOk(s.core.db.operations[op]) && AtStep(s.core.db.operations[op], i)
    ensures GuestOk(s.core.guest) && Feasible(s.core.db.operations[op].plan.steps[i], s.core.verified, s.core.guest)
    ensures Here(p, r, t, Calling(op, steps, i, s.core.db.operations[op].plan.steps[i], s.core.guest))
    ensures t.core.guest == s.core.guest && t.core.verified == s.core.verified
    ensures t.core.db.operations == s.core.db.operations[op := ClaimedRow(s.core.db.operations[op], i)]
  {
    HolderPc(p, r, s, Walking(op, steps, i));
    WalkingRow(s.core, op, steps, i);
    NextStepFeasible(s.core.db.operations[op], i, s.core.verified, s.core.guest);
    t := ClaimFrom(p, r, s, op, steps, i);
  }

  lemma ExecuteStep(p: Pid, r: State, s: State, op: OpId, steps: seq<StepRow>, i: nat) returns (t: State)
    requires Here(p, r, s, Walking(op, steps, i)) && i < |steps| && !Finished(steps[i]) && Completable(s.core, op)
    ensures Here(p, r, t, Walking(op, steps, i + 1)) && Completable(t.core, op) && Advanced(s.core, t.core, op, i)
  {
    var u := ClaimAndCall(p, r, s, op, steps, i);
    var row := s.core.db.operations[op];
    var result: Result;
    t, result := CallAndComplete(p, r, u, op, steps, i, row.plan.steps[i]);
    CompletedStaysCompletable(row, i, result, s.core.verified, s.core.guest);
  }

  lemma CompletedStaysCompletable(row: OpRow, i: nat, result: Result, verified: set<string>, g: Guest)
    requires RowOk(row) && AtStep(row, i) && |row.plan.steps| > 0 && CanComplete(row, verified, g)
    requires Feasible(row.plan.steps[i], verified, g)
    ensures var next := CompletedRow(ClaimedRow(row, i), i, result);
            && next.plan == row.plan && |next.steps| == |row.steps|
            && CanComplete(next, Fetched(row.plan.steps[i], verified), Achieved(row.plan.steps[i], g))
  {
    AchievedStaysCompletable(row, CompletedRow(ClaimedRow(row, i), i, result), i, verified, g);
  }

  lemma CallAndComplete(p: Pid, r: State, s: State, op: OpId, steps: seq<StepRow>, i: nat, input: StepInput)
    returns (t: State, result: Result)
    requires Here(p, r, s, Calling(op, steps, i, input, s.core.guest))
    requires GuestOk(s.core.guest) && Feasible(input, s.core.verified, s.core.guest) && HasStep(s.core.db, op, i)
    ensures Here(p, r, t, Walking(op, steps, i + 1)) && t.core.guest == Achieved(input, s.core.guest)
    ensures t.core.verified == Fetched(input, s.core.verified)
    ensures t.core.db.operations == s.core.db.operations[op := CompletedRow(s.core.db.operations[op], i, result)]
  {
    var v: State;
    v, result := AnswerCall(p, r, s, op, steps, i, input);
    t := CompleteFrom(p, r, v, op, steps, i, result);
  }

  lemma {:induction false} WalkThrough(p: Pid, r: State, s: State, op: OpId, steps: seq<StepRow>, i: nat) returns (t: State)
    requires Here(p, r, s, Walking(op, steps, i)) && i <= |steps| && Completable(s.core, op)
    ensures Here(p, r, t, Walking(op, steps, |steps|))
    decreases |steps| - i
  {
    if i == |steps| {
      t := s;
    } else {
      var u := DoStep(p, r, s, op, steps, i);
      t := WalkThrough(p, r, u, op, steps, i + 1);
    }
  }

  lemma ReachConclusion(p: Pid, r: State, s: State, op: OpId, steps: seq<StepRow>) returns (t: State)
    requires Here(p, r, s, Walking(op, steps, |steps|))
    ensures Here(p, r, t, Concluding(op)) && CanAct(t.core, Concluding(op), Conclude) && t.core == s.core
  {
    t := TakeAct(p, r, s, Walking(op, steps, |steps|), Last);
    HolderPc(p, r, t, Concluding(op));
  }

  lemma BeginRun(p: Pid, s: State, op: OpId) returns (t: State, steps: seq<StepRow>)
    requires Reachable(s) && p !in s.procs && s.holder.None? && Visible(s.core.db)
    requires IsLatest(s.core.db.operations, op) && s.core.db.operations[op].status != Succeeded && Completable(s.core, op)
    ensures Here(p, s, t, Walking(op, steps, 0)) && Completable(t.core, op) && t.core.guest == s.core.guest
    ensures t.core.db.operations[op].plan == s.core.db.operations[op].plan && steps == s.core.db.operations[op].steps
  {
    var u := EnterRun(p, s);
    var v := TakeAct(p, s, u, Inspecting, Inspect(op));
    var w := TakeAct(p, s, v, Loading(op), Load);
    steps := w.core.db.operations[op].steps;
    t := TakeAct(p, s, w, Starting(op, steps), Start);
    StartShape(w.core, op);
  }

  lemma RunsToConclusion(p: Pid, s: State, op: OpId) returns (t: State)
    requires Reachable(s) && p !in s.procs && s.holder.None? && Visible(s.core.db)
    requires IsLatest(s.core.db.operations, op) && s.core.db.operations[op].status != Succeeded && Completable(s.core, op)
    ensures Here(p, s, t, Concluding(op)) && CanAct(t.core, Concluding(op), Conclude)
  {
    var u, steps := BeginRun(p, s, op);
    var v := WalkThrough(p, s, u, op, steps, 0);
    t := ReachConclusion(p, s, v, op, steps);
  }

  /** While nobody else holds the key, a process left alone completes what can be completed. */
  lemma RunsThrough(p: Pid, s: State, op: OpId) returns (t: State)
    requires Reachable(s) && p !in s.procs && s.holder.None? && Visible(s.core.db)
    requires IsLatest(s.core.db.operations, op) && s.core.db.operations[op].status != Succeeded && Completable(s.core, op)
    ensures Alone(p, s, t) && op in t.core.db.operations && t.core.db.operations[op].status == Succeeded
  {
    var u := RunsToConclusion(p, s, op);
    t := After(u, p, Advance(Conclude));
    StepAlone(p, s, u, Advance(Conclude));
  }

  // ----- what cannot be completed stays so

  /** What calls of an operation leave of the guest that it found. */
  predicate Remains(operation: Operation, found: Guest, g: Guest) {
    match operation
    case Apply => found.zvol.Some? ==> g.zvol == found.zvol
    case Delete => found.conf.None? ==> g.conf.None?
    case Reconcile => g == found
  }

  /** What an operation finds at the beginning. */
  datatype Beginning = Beginning(verified: set<string>, guest: Guest)

  predicate HopelessRow(row: OpRow, found: Beginning) {
    && row.status != Succeeded && |row.plan.steps| > 0 && |row.steps| == |row.plan.steps|
    && !CanComplete(row, found.verified, found.guest)
  }

  predicate HopelessCore(c: Core, op: OpId, found: Beginning) {
    && IsLatest(c.db.operations, op) && HopelessRow(c.db.operations[op], found)
    && Remains(c.db.operations[op].plan.operation, found.guest, c.guest)
    && (c.db.operations[op].plan.operation == Reconcile ==> c.verified == found.verified)
  }

  /** A call is on a guest of which enough remains, and the first step of a delete or reconcile has not succeeded. */
  predicate HopelessPc(operation: Operation, pc: Pc, found: Beginning) {
    match pc
    case Calling(_, _, _, _, entry) => Remains(operation, found.guest, entry)
    case Reporting(_, _, i, result) => operation != Apply && i == 0 ==> !result.ok
    case Settling(_, _, i, result) => operation != Apply && i == 0 ==> !result.ok
    case _ => true
  }

  lemma TouchRemains(row: OpRow, i: nat, found: Beginning, entry: Guest, g: Guest)
    requires RowOk(row) && i < |row.plan.steps| && Remains(row.plan.operation, found.guest, entry)
    requires Touch(row.plan.steps[i], entry, g) && GuestOk(entry)
    ensures Remains(row.plan.operation, found.guest, g)
  {
    PlanOrder(row.plan);
    assert BelongsTo(row.plan.steps[i].action, row.plan.operation);
    if row.plan.operation == Delete {
      RemovalKeeps(row.plan.steps[i], entry, g);
    } else if row.plan.operation == Apply {
      CreationKeepsVolume(row.plan.steps[i], entry, g);
    } else {
      ReconcilePositions(row.plan);
    }
  }

  lemma FirstCallFails(row: OpRow, verified: set<string>, found: Beginning, g: Guest, result: Result)
    requires RowOk(row) && HopelessRow(row, found) && Remains(row.plan.operation, found.guest, g) && row.plan.operation != Apply
    requires Contract(row.plan.steps[0], verified, g, result)
    requires row.plan.operation == Reconcile ==> verified == found.verified
    ensures !result.ok
  {
    if row.plan.operation == Delete {
      DeletePositions(row.plan);
      assert row.plan.steps[0].action == DELETE_ACTIONS[0];
    } else {
      ReconcilePositions(row.plan);
    }
  }

  lemma FinishedApplyFilled(row: OpRow, shift: nat, verified: set<string>, g: Guest)
    requires RowOk(row) && AllFinished(row) && DoneHolds(row, verified, g) && ApplyPositions(row.plan.steps, shift)
    ensures g.zvol.Some? && VolumeMatches(row.plan.steps[0], g.zvol.value)
  {
    Earlier(row, verified, g, shift + 1, 0);
  }

  lemma FinishedApplyReadsRight(row: OpRow, shift: nat, verified: set<string>, g: Guest)
    requires RowOk(row) && AllFinished(row) && DoneHolds(row, verified, g) && ApplyPositions(row.plan.steps, shift)
    ensures row.plan.steps[0].spec.running || !Misread(row.plan.steps[0].resource)
  {
    Earlier(row, verified, g, shift + 8, 0);
  }

  lemma FinishedApplyWasAccepted(row: OpRow, shift: nat, verified: set<string>, g: Guest)
    requires RowOk(row) && AllFinished(row) && DoneHolds(row, verified, g) && ApplyPositions(row.plan.steps, shift)
    requires row.plan.steps[0].manageServices ==> shift > 0
    ensures KeyUsable(row.plan.steps[0].spec) && ServicesUsable(row.plan.steps[0])
  {
    Earlier(row, verified, g, shift + 2, 0);
    if shift > 0 {
      Earlier(row, verified, g, 0, 0);
    }
  }

  /** A row whose steps are all finished was not hopeless. */
  lemma FinishedWasNotHopeless(row: OpRow, verified: set<string>, found: Beginning, g: Guest)
    requires RowOk(row) && AllFinished(row) && DoneHolds(row, verified, g) && Remains(row.plan.operation, found.guest, g)
    requires |row.plan.steps| > 0
    ensures CanComplete(row, found.verified, found.guest)
  {
    if row.plan.operation == Apply {
      var shift := ApplyHasPositions(row.plan);
      FinishedApplyFilled(row, shift, verified, g);
      FinishedApplyReadsRight(row, shift, verified, g);
      FinishedApplyWasAccepted(row, shift, verified, g);
    }
  }

  // ----- one act at a time

  lemma WriteKeepsHopeless(c: Core, op: OpId, row: OpRow, found: Beginning)
    requires HopelessCore(c, op, found) && SamePlace(c.db.operations[op], row) && row.status != Succeeded
    requires row.plan.operation != Apply ==> Finished(row.steps[0]) == Finished(c.db.operations[op].steps[0])
    ensures HopelessCore(c.(db := WithOp(c.db, op, row)), op, found)
  {
    PutKeepsOrder(c.db.operations, op, row);
  }

  /** The operation that an executor works on is the latest. */
  lemma WorksOnLatest(c: Core, pc: Pc, op: OpId)
    requires IsLatest(c.db.operations, op) && PcOk(c, pc)
    requires !pc.Locking? && !pc.Inspecting? && !pc.Leaving? && !pc.Preparing? && !pc.Writing?
    ensures pc.op == op
  {
    LatestIsUnique(c.db.operations, pc.op, op);
  }

  lemma ReadingKeepsHopeless(c: Core, pc: Pc, act: Act, op: OpId, found: Beginning)
    requires CanAct(c, pc, act) && Runs.IsReading(act) && HopelessCore(c, op, found)
    requires HopelessPc(c.db.operations[op].plan.operation, pc, found)
    ensures HopelessPc(c.db.operations[op].plan.operation, ActPc(c, pc, act), found)
    ensures ActCore(c, pc, act) == c
  {
  }

  lemma StartKeepsHopeless(c: Core, op: OpId, found: Beginning)
    requires HopelessCore(c, op, found)
    ensures HopelessCore(StartCore(c, op), op, found)
  {
    WriteKeepsHopeless(c, op, StartedRow(c.db.operations[op]), found);
    StartShape(c, op);
  }

  lemma ClaimKeepsHopeless(c: Core, op: OpId, i: nat, found: Beginning)
    requires HopelessCore(c, op, found) && HasStep(c.db, op, i) && !Finished(c.db.operations[op].steps[i])
    ensures HopelessCore(ClaimCore(c, op, i), op, found)
  {
    WriteKeepsHopeless(c, op, ClaimedRow(c.db.operations[op], i), found);
    ClaimShape(c, op, i);
  }

  lemma FailKeepsHopeless(c: Core, op: OpId, i: nat, code: ErrorCode, blocked: bool, found: Beginning)
    requires HopelessCore(c, op, found) && HasStep(c.db, op, i) && !Finished(c.db.operations[op].steps[i])
    ensures HopelessCore(FailCore(c, op, i, code, blocked), op, found)
  {
    WriteKeepsHopeless(c, op, FailedRow(c.db.operations[op], i, code, blocked), found);
    FailShape(c, op, i, code, blocked);
  }

  lemma CompleteKeepsHopeless(c: Core, op: OpId, i: nat, result: Result, found: Beginning)
    requires HopelessCore(c, op, found) && HasStep(c.db, op, i) && c.db.operations[op].plan.operation == Apply
    ensures HopelessCore(CompleteCore(c, op, i, result), op, found)
  {
    WriteKeepsHopeless(c, op, CompletedRow(c.db.operations[op], i, result), found);
    CompleteShape(c, op, i, result);
  }

  /** The step at hand is the first that is not finished. */
  predicate AtHand(c: Core, op: OpId, i: nat) {
    HasStep(c.db, op, i) && AtStep(c.db.operations[op], i)
  }

  lemma CallIsAtHand(c: Core, pc: Pc)
    requires PcOk(c, pc) && (pc.Checking? || pc.Calling? || pc.Reporting? || pc.Settling?)
    ensures AtHand(c, pc.op, pc.i)
    ensures pc.Calling? ==> pc.input == c.db.operations[pc.op].steps[pc.i].input && GuestOk(pc.entry)
  {
  }

  lemma WalkIsAtHand(c: Core, pc: Pc)
    requires PcOk(c, pc) && pc.Walking? && pc.i < |pc.steps| && !Finished(pc.steps[pc.i])
    ensures AtHand(c, pc.op, pc.i)
  {
  }

  lemma StartingKeepsHopeless(c: Core, pc: Pc, act: Act, op: OpId, found: Beginning)
    requires PcOk(c, pc) && CanAct(c, pc, act) && (act.Start? || act.Claim?) && HopelessCore(c, op, found)
    ensures HopelessCore(ActCore(c, pc, act), op, found)
    ensures !ActPc(c, pc, act).Calling? && !ActPc(c, pc, act).Reporting? && !ActPc(c, pc, act).Settling?
  {
    WorksOnLatest(c, pc, op);
    if act.Start? {
      StartKeepsHopeless(c, op, found);
    } else {
      WalkIsAtHand(c, pc);
      ClaimKeepsHopeless(c, op, pc.i, found);
    }
  }

  lemma FailingKeepsHopeless(c: Core, pc: Pc, act: Act, op: OpId, found: Beginning)
    requires PcOk(c, pc) && CanAct(c, pc, act) && HopelessCore(c, op, found)
    requires act.RejectInput? || act.RecordFails? || act.ReportFailure?
    ensures HopelessCore(ActCore(c, pc, act), op, found) && ActPc(c, pc, act).Leaving?
  {
    WorksOnLatest(c, pc, op);
    CallIsAtHand(c, pc);
    match act
    case RejectInput => FailKeepsHopeless(c, op, pc.i, InputMismatch, true, found);
    case RecordFails => FailKeepsHopeless(c, op, pc.i, ObservationNotPersisted, false, found);
    case ReportFailure =>
      FailKeepsHopeless(c, op, pc.i, if pc.result.blocked then DriverBlocked else DriverFailed, pc.result.blocked, found);
  }

  lemma WorkKeepsHopeless(c: Core, pc: Pc, g: Guest, op: OpId, found: Beginning)
    requires Rows(c) && pc.Calling? && PcOk(c, pc) && CanAct(c, pc, Work(g)) && HopelessCore(c, op, found)
    requires Remains(c.db.operations[op].plan.operation, found.guest, pc.entry)
    ensures HopelessCore(c.(guest := g), op, found)
  {
    WorksOnLatest(c, pc, op);
    CallIsAtHand(c, pc);
    assert RowOk(c.db.operations[op]);
    TouchRemains(c.db.operations[op], pc.i, found, pc.entry, g);
  }

  lemma ReturnKeepsHopeless(row: OpRow, steps: seq<StepRow>, op: OpId, i: nat, verified: set<string>, found: Beginning,
                            g: Guest, result: Result)
    requires RowOk(row) && HopelessRow(row, found) && Remains(row.plan.operation, found.guest, g) && i < |row.steps|
    requires Contract(row.steps[i].input, verified, g, result)
    requires row.plan.operation == Reconcile ==> verified == found.verified
    ensures HopelessPc(row.plan.operation, Reporting(op, steps, i, result), found)
  {
    if row.plan.operation != Apply && i == 0 {
      FirstCallFails(row, verified, found, g, result);
    }
  }

  lemma CallIsOfLatest(c: Core, pc: Pc, op: OpId)
    requires Rows(c) && pc.Calling? && PcOk(c, pc) && IsLatest(c.db.operations, op)
    ensures var row := c.db.operations[op];
            pc.op == op && RowOk(row) && pc.i < |row.steps| && pc.input == row.steps[pc.i].input
  {
    WorksOnLatest(c, pc, op);
    CallIsAtHand(c, pc);
  }

  lemma ReturningKeepsHopeless(c: Core, pc: Pc, result: Result, op: OpId, found: Beginning)
    requires Rows(c) && pc.Calling? && PcOk(c, pc) && Contract(pc.input, c.verified, c.guest, result)
    requires HopelessCore(c, op, found)
    ensures HopelessPc(c.db.operations[op].plan.operation, Reporting(pc.op, pc.steps, pc.i, result), found)
  {
    CallIsOfLatest(c, pc, op);
    ReturnKeepsHopeless(c.db.operations[op], pc.steps, op, pc.i, c.verified, found, c.guest, result);
  }

  lemma LoggingKeepsHopeless(c: Core, pc: Pc, act: Act, op: OpId, found: Beginning)
    requires CanAct(c, pc, act) && HopelessCore(c, op, found) && (act.Call? || act.Record?)
    requires HopelessPc(c.db.operations[op].plan.operation, pc, found)
    ensures HopelessCore(ActCore(c, pc, act), op, found)
    ensures HopelessPc(c.db.operations[op].plan.operation, ActPc(c, pc, act), found)
  {
  }

  lemma LaterStepMeansApply(row: OpRow, i: nat, found: Beginning)
    requires HopelessRow(row, found) && AtStep(row, i) && i != 0
    ensures row.plan.operation == Apply
  {
  }

  lemma CompletingKeepsHopeless(c: Core, pc: Pc, op: OpId, found: Beginning)
    requires PcOk(c, pc) && CanAct(c, pc, Complete) && HopelessCore(c, op, found)
    requires HopelessPc(c.db.operations[op].plan.operation, pc, found)
    ensures HopelessCore(ActCore(c, pc, Complete), op, found) && ActPc(c, pc, Complete).Walking?
  {
    WorksOnLatest(c, pc, op);
    CallIsAtHand(c, pc);
    if pc.i != 0 {
      LaterStepMeansApply(c.db.operations[op], pc.i, found);
    }
    CompleteKeepsHopeless(c, op, pc.i, pc.result, found);
  }

  lemma NothingHopelessConcludes(c: Core, pc: Pc, op: OpId, found: Beginning)
    requires CoreOk(c) && PcOk(c, pc) && HopelessCore(c, op, found)
    ensures !pc.Concluding?
  {
    if pc.Concluding? {
      WorksOnLatest(c, pc, op);
      assert RowOk(c.db.operations[op]);
      FinishedWasNotHopeless(c.db.operations[op], c.verified, found, c.guest);
    }
  }

  lemma ActKeepsHopeless(c: Core, pc: Pc, act: Act, op: OpId, found: Beginning)
    requires Rows(c) && PcOk(c, pc) && CanAct(c, pc, act) && HopelessCore(c, op, found) && !act.Conclude?
    requires HopelessPc(c.db.operations[op].plan.operation, pc, found)
    ensures HopelessCore(ActCore(c, pc, act), op, found)
    ensures HopelessPc(ActCore(c, pc, act).db.operations[op].plan.operation, ActPc(c, pc, act), found)
  {
    if Runs.IsReading(act) {
      ReadingKeepsHopeless(c, pc, act, op, found);
    } else if act.Start? || act.Claim? {
      StartingKeepsHopeless(c, pc, act, op, found);
    } else if act.Work? {
      WorkKeepsHopeless(c, pc, act.guest, op, found);
    } else if act.Return? {
      ReturningKeepsHopeless(c, pc, act.result, op, found);
    } else if act.Call? || act.Record? {
      LoggingKeepsHopeless(c, pc, act, op, found);
    } else if act.Complete? {
      CompletingKeepsHopeless(c, pc, op, found);
    } else {
      FailingKeepsHopeless(c, pc, act, op, found);
    }
  }

  // ----- whole runs of one process

  predicate Hopeless(p: Pid, s: State, op: OpId, found: Beginning) {
    && HopelessCore(s.core, op, found)
    && (p in s.procs ==> HopelessPc(s.core.db.operations[op].plan.operation, s.procs[p], found))
  }

  lemma AdvanceKeepsHopeless(p: Pid, s: State, act: Act, op: OpId, found: Beginning)
    requires p in s.procs && Rows(s.core) && PcOk(s.core, s.procs[p]) && CanAct(s.core, s.procs[p], act) && !act.Conclude?
    requires Hopeless(p, s, op, found)
    ensures Hopeless(p, After(s, p, Advance(act)), op, found)
  {
    ActKeepsHopeless(s.core, s.procs[p], act, op, found);
    Runs.AdvanceShape(s, p, act);
  }

  lemma ActingPc(p: Pid, s: State, act: Act)
    requires Reachable(s) && Enabled(s, p, Advance(act))
    ensures CoreOk(s.core) && PcOk(s.core, s.procs[p])
  {
    ReachableKeepsInv(s);
    Runs.ActorHolds(s, p, act);
  }

  /** A reconcile fetches no image. */
  lemma ReconcileFetchesNothing(c: Core, pc: Pc, image: string, op: OpId)
    requires Rows(c) && PcOk(c, pc) && IsLatest(c.db.operations, op) && Fetches(pc, image)
    ensures c.db.operations[op].plan.operation != Reconcile
  {
    WorksOnLatest(c, pc, op);
    FetcherIsAtHand(c, pc, image);
    assert RowOk(c.db.operations[op]);
    FetchersReconcileNothing(c.db.operations[op], pc.i);
  }

  lemma FetcherIsAtHand(c: Core, pc: Pc, image: string)
    requires PcOk(c, pc) && Fetches(pc, image)
    ensures pc.op in c.db.operations && pc.i < |c.db.operations[pc.op].steps|
    ensures c.db.operations[pc.op].steps[pc.i].input.action == EnsureImage
  {
  }

  lemma FetchersReconcileNothing(row: OpRow, i: nat)
    requires RowOk(row) && i < |row.steps| && row.steps[i].input.action == EnsureImage
    ensures row.plan.operation != Reconcile
  {
    if row.plan.operation == Reconcile {
      ReconcilePositions(row.plan);
    }
  }

  lemma VerifyingKeepsHopeless(p: Pid, s: State, image: string, op: OpId, found: Beginning)
    requires Reachable(s) && p in s.procs && Fetches(s.procs[p], image) && HopelessCore(s.core, op, found)
    ensures HopelessCore(s.core.(verified := s.core.verified + {image}), op, found)
  {
    ReachableKeepsInv(s);
    assert s.holder == Some(p) by { assert Holds(s.procs[p]); }
    ReconcileFetchesNothing(s.core, s.procs[p], image, op);
  }

  lemma MovingKeepsHopeless(p: Pid, s: State, l: Label, op: OpId, found: Beginning)
    requires Enabled(s, p, l) && (l.Enter? || l.TakeKey? || l.Exit?) && Hopeless(p, s, op, found)
    ensures Hopeless(p, After(s, p, l), op, found)
  {
  }

  lemma StepKeepsHopeless(p: Pid, s: State, l: Label, op: OpId, found: Beginning)
    requires Reachable(s) && IsExecution(s, p, l) && Enabled(s, p, l) && Hopeless(p, s, op, found)
    ensures Hopeless(p, After(s, p, l), op, found)
  {
    match l
    case Advance(act) =>
      ActingPc(p, s, act);
      NothingHopelessConcludes(s.core, s.procs[p], op, found);
      AdvanceKeepsHopeless(p, s, act, op, found);
    case ImageVerified(image) => VerifyingKeepsHopeless(p, s, image, op, found);
    case Enter | TakeKey | Exit => MovingKeepsHopeless(p, s, l, op, found);
  }

  lemma {:induction false} StaysHopeless(p: Pid, path: seq<State>, i: nat, op: OpId, found: Beginning)
    requires IsOwnPath(p, path) && i < |path| && Reachable(path[0]) && Hopeless(p, path[0], op, found)
    ensures Reachable(path[i]) && Hopeless(p, path[i], op, found)
  {
    if i > 0 {
      StaysHopeless(p, path, i - 1, op, found);
      assert OwnFollows(p, path, i - 1);
      var l :| IsExecution(path[i - 1], p, l) && Enabled(path[i - 1], p, l) && path[i] == After(path[i - 1], p, l);
      StepKeepsHopeless(p, path[i - 1], l, op, found);
      StepIsReachable(path[i - 1], p, l);
    }
  }

  lemma NeverSucceeds(p: Pid, s: State, op: OpId, t: State)
    requires Reachable(s) && p !in s.procs && Alone(p, s, t)
    requires HopelessCore(s.core, op, Beginning(s.core.verified, s.core.guest))
    ensures IsLatest(t.core.db.operations, op) && t.core.db.operations[op].status != Succeeded
  {
    var path: seq<State> :| IsOwnPath(p, path) && path[0] == s && path[|path| - 1] == t;
    StaysHopeless(p, path, |path| - 1, op, Beginning(s.core.verified, s.core.guest));
  }

  lemma IncompletableIsHopeless(c: Core, op: OpId)
    requires Rows(c) && IsLatest(c.db.operations, op) && c.db.operations[op].status != Succeeded && !Completable(c, op)
    ensures HopelessCore(c, op, Beginning(c.verified, c.guest))
  {
    assert RowOk(c.db.operations[op]);
    PlanOrder(c.db.operations[op].plan);
  }

  ghost predicate Finishes(p: Pid, s: State, op: OpId, t: State) {
    Alone(p, s, t) && op in t.core.db.operations && t.core.db.operations[op].status == Succeeded
  }

  /**
    In any reachable state where nobody holds the key, one process can bring the latest operation to an end, by
    running as often as it takes and with drivers that do all they can, if and only if its rows and the guest say so.
   */
  lemma FinishesIffCompletable(p: Pid, s: State, op: OpId)
    requires Reachable(s) && p !in s.procs && s.holder.None? && Visible(s.core.db)
    requires IsLatest(s.core.db.operations, op) && s.core.db.operations[op].status != Succeeded
    ensures (exists t :: Finishes(p, s, op, t)) <==> Completable(s.core, op)
  {
    if Completable(s.core, op) {
      var t := RunsThrough(p, s, op);
      assert Finishes(p, s, op, t);
    } else {
      ReachableKeepsInv(s);
      IncompletableIsHopeless(s.core, op);
      forall t | Finishes(p, s, op, t) ensures false {
        NeverSucceeds(p, s, op, t);
      }
    }
  }

  // ----- what a process alone leaves as it is

  /** Other processes, and which operations there are, with their plans and stamps. */
  predicate LeavesRest(p: Pid, s: State, t: State) {
    && t.procs - {p} == s.procs - {p} && (s.holder.None? ==> t.holder in {None, Some(p)})
    && SameOperations(s.core.db.operations, t.core.db.operations)
  }

  predicate SameOperations(ops: map<OpId, OpRow>, more: map<OpId, OpRow>) {
    more.Keys == ops.Keys && forall o <- ops :: more[o].plan == ops[o].plan && more[o].createdAt == ops[o].createdAt
  }

  /** The acts that write an operation row. */
  predicate WritesRow(act: Act) {
    act.Start? || act.Claim? || act.Complete? || act.Conclude? || act.RejectInput? || act.RecordFails? || act.ReportFailure?
  }

  lemma ActKeepsOperations(c: Core, pc: Pc, act: Act)
    requires CanAct(c, pc, act)
    ensures SameOperations(c.db.operations, ActCore(c, pc, act).db.operations)
  {
    if WritesRow(act) {
      ActWritesOnePlan(c, pc, act);
    } else {
      ActWritesNoPlan(c, pc, act);
    }
  }

  lemma ActWritesNoPlan(c: Core, pc: Pc, act: Act)
    requires CanAct(c, pc, act) && !WritesRow(act)
    ensures ActCore(c, pc, act).db.operations == c.db.operations
  {
  }

  lemma ActWritesOnePlan(c: Core, pc: Pc, act: Act)
    requires CanAct(c, pc, act) && WritesRow(act)
    ensures var ops, more := c.db.operations, ActCore(c, pc, act).db.operations;
            && pc.op in ops && pc.op in more && more == ops[pc.op := more[pc.op]]
            && more[pc.op].plan == ops[pc.op].plan && more[pc.op].createdAt == ops[pc.op].createdAt
  {
  }

  lemma SameOperationsSameLatest(ops: map<OpId, OpRow>, more: map<OpId, OpRow>, latest: OpId)
    requires SameOperations(ops, more) && IsLatest(ops, latest)
    ensures IsLatest(more, latest)
  {
    forall other | other in more ensures NotAfter(more, other, latest) {
      assert NotAfter(ops, other, latest);
    }
  }

  lemma StepLeavesRest(p: Pid, s: State, l: Label)
    requires IsExecution(s, p, l) && Enabled(s, p, l) && (s.holder.None? || s.holder == Some(p) || l.Advance?)
    ensures LeavesRest(p, s, After(s, p, l))
    ensures s.holder in {None, Some(p)} ==> After(s, p, l).holder in {None, Some(p)}
  {
    if l.Advance? {
      ActKeepsOperations(s.core, s.procs[p], l.act);
    }
  }

  lemma {:induction false} PathLeavesRest(p: Pid, path: seq<State>, i: nat)
    requires IsOwnPath(p, path) && i < |path| && path[0].holder.None?
    ensures LeavesRest(p, path[0], path[i])
  {
    if i > 0 {
      PathLeavesRest(p, path, i - 1);
      assert OwnFollows(p, path, i - 1);
      var l :| IsExecution(path[i - 1], p, l) && Enabled(path[i - 1], p, l) && path[i] == After(path[i - 1], p, l);
      StepLeavesRest(p, path[i - 1], l);
    }
  }

  lemma AloneLeavesRest(p: Pid, s: State, t: State)
    requires Alone(p, s, t) && s.holder.None?
    ensures LeavesRest(p, s, t)
  {
    var path: seq<State> :| IsOwnPath(p, path) && path[0] == s && path[|path| - 1] == t;
    PathLeavesRest(p, path, |path| - 1);
  }
}
