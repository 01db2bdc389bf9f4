/** What the protocol guarantees in every state of every run: the statements an operator relies on. */
module Guarantees {
  import opened Prelude
  import opened Planner
  import opened Guests
  import opened Journal
  import opened Protocol
  import opened Invariant
  import opened Runs
  import opened Progress
  import opened Calls

  // ----- release and convergence

  /** The current operation has succeeded and its final observation was the last thing done to the guest. */
  ghost predicate EndedWith(c: Core, op: OpId) {
    && LastStarted(c.history) == Some(op) && IsLatest(c.db.operations, op)
    && var row := c.db.operations[op];
       && row.status == Succeeded && AllFinished(row) && |row.steps| == |row.plan.steps| > 0
       && LastDriver(c.history) == Some(Returned(op, |row.steps| - 1, true))
       && OnRecord(c.db.observations, row)
  }

  lemma VerdictIsEarned(c: Core)
    requires CoreOk(c) && Verdict(c.db.effective)
    ensures EndedWith(c, LastStarted(c.history).value)
    ensures var plan := c.db.operations[LastStarted(c.history).value].plan;
            && (plan.operation == Delete <==> c.db.effective.value.state == Absent)
            && Satisfied(plan.steps[|plan.steps| - 1], c.verified, c.guest)
            && PlanOrdered(plan.operation, plan.steps)
  {
    var row := c.db.operations[LastStarted(c.history).value];
    assert RowOk(row);
    PlanOrder(row.plan);
  }

  /**
    Release safety.  Released, archived and effectively absent are one and the same; and when they hold, the last
    driver call was the successful observe-absent of a succeeded delete whose steps are all done, an observation
    saying so is stored, and the guest really is gone.
   */
  lemma ReleaseSafety(states: seq<State>, i: nat)
    requires IsRun(states) && i < |states|
    ensures var c := states[i].core;
            c.db.resource.Some? ==>
              && c.db.allocation.Some? && c.db.effective.Some?
              && (c.db.allocation.value.released <==> c.db.resource.value.archived)
              && (c.db.allocation.value.released <==> c.db.effective.value.state == Absent)
    ensures var c := states[i].core;
            c.db.allocation.Some? && c.db.allocation.value.released ==>
              exists op :: EndedWith(c, op) && c.db.operations[op].plan.operation == Delete
                && var steps := c.db.operations[op].plan.steps;
                   steps[|steps| - 1].action == ObserveAbsent && AllAbsent(steps[|steps| - 1], c.guest)
  {
    RunKeepsInv(states, i);
    var c := states[i].core;
    if c.db.allocation.Some? && c.db.allocation.value.released {
      VerdictIsEarned(c);
      assert EndedWith(c, LastStarted(c.history).value);
    }
  }

  /**
    Converged evidence.  While the effective state is `converged`, a succeeded operation other than a delete has
    every step done, its observe-all was the last driver call, and the guest is as declared.
   */
  lemma ConvergedEvidence(states: seq<State>, i: nat)
    requires IsRun(states) && i < |states|
    ensures var c := states[i].core;
            c.db.effective.Some? && c.db.effective.value.state == Converged ==>
              exists op :: EndedWith(c, op) && c.db.operations[op].plan.operation != Delete
                && var steps := c.db.operations[op].plan.steps;
                   steps[|steps| - 1].action == ObserveAll && AllPresent(steps[|steps| - 1], c.verified, c.guest)
  {
    RunKeepsInv(states, i);
    var c := states[i].core;
    if c.db.effective.Some? && c.db.effective.value.state == Converged {
      VerdictIsEarned(c);
      assert EndedWith(c, LastStarted(c.history).value);
    }
  }

  // ----- crashes do not show

  /** The worlds of one uninterrupted execution: each step is called once and succeeds. */
  ghost predicate Uninterrupted(steps: seq<StepInput>, verified: set<string>, worlds: seq<Guest>) {
    |worlds| == |steps| + 1
    && forall k :: 0 <= k < |steps| ==>
         Touch(steps[k], worlds[k], worlds[k + 1]) && Satisfied(steps[k], verified, worlds[k + 1])
  }

  predicate Creates(steps: seq<StepInput>) {
    forall i :: 0 <= i < |steps| ==> !IsRemoval(steps[i].action)
  }

  lemma UninterruptedMakes(steps: seq<StepInput>, verified: set<string>, worlds: seq<Guest>, k: nat)
    requires Uninterrupted(steps, verified, worlds) && k <= |steps|
    requires GuestOk(worlds[0]) && Creates(steps)
    ensures worlds[k] == MadeBy(steps, k, worlds[0]) && GuestOk(worlds[k])
  {
    if k > 0 {
      UninterruptedMakes(steps, verified, worlds, k - 1);
      assert Touch(steps[k - 1], worlds[k - 1], worlds[k - 1 + 1]);
      TouchKeepsGuestOk(steps[k - 1], worlds[k - 1], worlds[k]);
      SuccessAbsorbsInterruptions(steps[k - 1], verified, worlds[k - 1], worlds[k]);
    }
  }

  /** The worlds that the effects of the steps lead through. */
  function MadeWorlds(steps: seq<StepInput>, origin: Guest): seq<Guest>
    requires Creates(steps)
  {
    seq(|steps| + 1, k requires 0 <= k <= |steps| => MadeBy(steps, k, origin))
  }

  lemma VolumeStays(steps: seq<StepInput>, k: nat, n: nat, origin: Guest)
    requires Creates(steps) && k <= n <= |steps| && MadeBy(steps, k, origin).zvol.Some?
    ensures MadeBy(steps, n, origin).zvol == MadeBy(steps, k, origin).zvol
  {
  }

  lemma ConfigStays(steps: seq<StepInput>, j: nat, k: nat, origin: Guest)
    requires Creates(steps) && j < k <= |steps| && steps[j].action == EnsureConfig
    ensures MadeBy(steps, k, origin).conf.Some?
  {
    if k == j + 1 {
      assert MadeBy(steps, k, origin) == Effect(steps[j], MadeBy(steps, j, origin));
    } else {
      ConfigStays(steps, j, k - 1, origin);
    }
  }

  lemma PowerMeansApply(plan: Plan, k: nat)
    requires WellPlanned(plan) && plan.operation != Delete && k < |plan.steps| && plan.steps[k].action == EnsurePower
    ensures plan.operation == Apply
  {
    if plan.operation == Reconcile {
      ReconcilePositions(plan);
    }
  }

  lemma PowerPosition(steps: seq<StepInput>, shift: nat, k: nat)
    requires ApplyPositions(steps, shift) && k < |steps| && steps[k].action == EnsurePower
    ensures k == shift + 7
  {
    if k != shift + 7 && k != shift + 8 {
      OtherAction(steps, shift, k);
    }
  }

  /** Every apply configures the machine before it powers it. */
  lemma ConfiguredBefore(plan: Plan, k: nat) returns (j: nat)
    requires WellPlanned(plan) && plan.operation != Delete && k < |plan.steps| && plan.steps[k].action == EnsurePower
    ensures j < k && plan.steps[j].action == EnsureConfig
  {
    PowerMeansApply(plan, k);
    var shift := ApplyHasPositions(plan);
    PowerPosition(plan.steps, shift, k);
    j := shift + 4;
  }

  /** Each step finds what it needs in the world of the uninterrupted execution, because the last world satisfies it. */
  lemma MadeWorldIsFeasible(plan: Plan, k: nat, verified: set<string>, origin: Guest)
    requires WellPlanned(plan) && plan.operation != Delete && Creates(plan.steps) && k < |plan.steps|
    requires Satisfied(plan.steps[k], verified, MadeBy(plan.steps, |plan.steps|, origin))
    ensures Feasible(plan.steps[k], verified, MadeBy(plan.steps, k, origin))
  {
    var steps := plan.steps;
    match steps[k].action
    case EnsureStorage =>
      if MadeBy(steps, k, origin).zvol.Some? {
        VolumeStays(steps, k, |steps|, origin);
      }
    case EnsurePower =>
      var j := ConfiguredBefore(plan, k);
      ConfigStays(steps, j, k, origin);
    case ObserveAll =>
      PlanOrder(plan);
      assert k == |steps| - 1 && MadeBy(steps, k + 1, origin) == MadeBy(steps, k, origin);
    case _ =>
  }

  lemma MadeStep(plan: Plan, k: nat, verified: set<string>, origin: Guest)
    requires WellPlanned(plan) && plan.operation != Delete && Creates(plan.steps) && k < |plan.steps|
    requires Satisfied(plan.steps[k], verified, MadeBy(plan.steps, |plan.steps|, origin))
    requires GuestOk(MadeBy(plan.steps, k, origin))
    ensures var g, h := MadeBy(plan.steps, k, origin), MadeBy(plan.steps, k + 1, origin);
            Touch(plan.steps[k], g, h) && Satisfied(plan.steps[k], verified, h) && GuestOk(h)
  {
    var input, g := plan.steps[k], MadeBy(plan.steps, k, origin);
    MadeWorldIsFeasible(plan, k, verified, origin);
    AchievedCreationTouches(input, verified, g);
    AchievedCreationSatisfies(input, verified, g);
    AchievedIsEffect(input, g);
    TouchKeepsGuestOk(input, g, Effect(input, g));
  }

  predicate EndsWell(plan: Plan, verified: set<string>, origin: Guest)
    requires Creates(plan.steps)
  {
    forall i :: 0 <= i < |plan.steps| ==> Satisfied(plan.steps[i], verified, MadeBy(plan.steps, |plan.steps|, origin))
  }

  lemma MadeIsOk(plan: Plan, k: nat, verified: set<string>, origin: Guest)
    requires WellPlanned(plan) && plan.operation != Delete && Creates(plan.steps) && GuestOk(origin) && k <= |plan.steps|
    requires EndsWell(plan, verified, origin)
    ensures GuestOk(MadeBy(plan.steps, k, origin))
  {
    if k > 0 {
      MadeIsOk(plan, k - 1, verified, origin);
      assert Satisfied(plan.steps[k - 1], verified, MadeBy(plan.steps, |plan.steps|, origin));
      MadeStep(plan, k - 1, verified, origin);
    }
  }

  /** So one uninterrupted execution exists: the effects of the steps, one after the other. */
  lemma MadeWorldsAreUninterrupted(plan: Plan, verified: set<string>, origin: Guest)
    requires WellPlanned(plan) && plan.operation != Delete && Creates(plan.steps) && GuestOk(origin)
    requires EndsWell(plan, verified, origin)
    ensures Uninterrupted(plan.steps, verified, MadeWorlds(plan.steps, origin))
  {
    var worlds := MadeWorlds(plan.steps, origin);
    forall k | 0 <= k < |plan.steps|
      ensures Touch(plan.steps[k], worlds[k], worlds[k + 1]) && Satisfied(plan.steps[k], verified, worlds[k + 1])
    {
      MadeIsOk(plan, k, verified, origin);
      MadeStep(plan, k, verified, origin);
    }
  }

  lemma ExecutionsAgree(plan: Plan, verified: set<string>, origin: Guest, guest: Guest)
    requires WellPlanned(plan) && plan.operation != Delete && Creates(plan.steps) && GuestOk(origin)
    requires guest == MadeBy(plan.steps, |plan.steps|, origin)
    requires forall k :: 0 <= k < |plan.steps| ==> Satisfied(plan.steps[k], verified, guest)
    ensures Uninterrupted(plan.steps, verified, MadeWorlds(plan.steps, origin))
    ensures forall more, worlds :: Uninterrupted(plan.steps, more, worlds) && worlds[0] == origin ==>
              worlds[|worlds| - 1] == guest
  {
    MadeWorldsAreUninterrupted(plan, verified, origin);
    forall more, worlds | Uninterrupted(plan.steps, more, worlds) && worlds[0] == origin
      ensures worlds[|worlds| - 1] == guest
    {
      UninterruptedMakes(plan.steps, more, worlds, |plan.steps|);
    }
  }

  lemma AchievedIsEffect(input: StepInput, g: Guest)
    requires !IsRemoval(input.action)
    ensures Achieved(input, g) == Effect(input, g)
  {
  }

  lemma SucceededIsMade(c: Core, op: OpId)
    requires CoreOk(c) && LastStarted(c.history) == Some(op) && op in c.db.operations
    requires c.db.operations[op].status == Succeeded && c.db.operations[op].plan.operation != Delete
    ensures var plan := c.db.operations[op].plan;
            && WellPlanned(plan) && Creates(plan.steps) && GuestOk(c.origin)
            && c.guest == MadeBy(plan.steps, |plan.steps|, c.origin)
            && forall k :: 0 <= k < |plan.steps| ==> Satisfied(plan.steps[k], c.verified, c.guest)
  {
    var row := c.db.operations[op];
    assert RowOk(row) && AllFinished(row) && Refines(row, c.origin, c.guest);
    assert ResumeStep(row) == |row.steps|;
    forall k | 0 <= k < |row.plan.steps| ensures Satisfied(row.plan.steps[k], c.verified, c.guest) {
      assert Finished(row.steps[k]);
    }
  }

  /**
    Crash-schedule refinement.  When the current apply or reconcile operation has succeeded, whatever crashes,
    failures and retries came before, all its postconditions hold together; the guest is what the effects of the steps
    make of the origin, one after the other; that is an uninterrupted execution; and every uninterrupted execution
    from the origin, whatever images it finds verified, ends in this guest.
   */
  lemma CrashesDoNotShow(states: seq<State>, i: nat, op: OpId)
    requires IsRun(states) && i < |states|
    requires op in states[i].core.db.operations && LastStarted(states[i].core.history) == Some(op)
    requires states[i].core.db.operations[op].status == Succeeded
    requires states[i].core.db.operations[op].plan.operation != Delete
    ensures var c, steps := states[i].core, states[i].core.db.operations[op].plan.steps;
            && (forall k :: 0 <= k < |steps| ==> Satisfied(steps[k], c.verified, c.guest))
            && Creates(steps) && c.guest == MadeBy(steps, |steps|, c.origin)
            && Uninterrupted(steps, c.verified, MadeWorlds(steps, c.origin))
            && forall verified, worlds :: Uninterrupted(steps, verified, worlds) && worlds[0] == c.origin ==>
                 worlds[|worlds| - 1] == c.guest
  {
    RunKeepsInv(states, i);
    var c := states[i].core;
    SucceededIsMade(c, op);
    ExecutionsAgree(c.db.operations[op].plan, c.verified, c.origin, c.guest);
  }

  /** Deletes remove: when one has succeeded, everything it was to remove is absent together. */
  lemma DeletionsComplete(states: seq<State>, i: nat, op: OpId)
    requires IsRun(states) && i < |states|
    requires op in states[i].core.db.operations && LastStarted(states[i].core.history) == Some(op)
    requires states[i].core.db.operations[op].status == Succeeded
    ensures forall k :: 0 <= k < |states[i].core.db.operations[op].plan.steps| ==>
              Satisfied(states[i].core.db.operations[op].plan.steps[k], states[i].core.verified, states[i].core.guest)
  {
    RunKeepsInv(states, i);
    var row := states[i].core.db.operations[op];
    assert RowOk(row) && AllFinished(row);
    forall k | 0 <= k < |row.plan.steps|
      ensures Satisfied(row.plan.steps[k], states[i].core.verified, states[i].core.guest)
    {
      assert Finished(row.steps[k]);
    }
  }

  // ----- the journal

  predicate AtFrontier(row: OpRow) {
    var k := ResumeStep(row);
    && (forall j :: 0 <= j < k ==> Finished(row.steps[j]) && row.steps[j].evidence.Some?)
    && (k < |row.steps| ==> row.steps[k].status in {StepPending, StepRunning, StepFailed})
    && (forall j :: k < j < |row.steps| ==> row.steps[j].status == StepPending)
    && (forall j :: k <= j < |row.steps| ==> row.steps[j].evidence.None?)
    && (row.status == Succeeded ==> k == |row.steps|)
  }

  lemma RowAtFrontier(row: OpRow)
    requires RowOk(row)
    ensures AtFrontier(row)
  {
    var k := ResumeStep(row);
    if k < |row.steps| {
      assert !Finished(row.steps[k]);
    }
  }

  /**
    Journal frontier.  Done steps form a prefix, only the next may be running or failed, later ones are pending,
    evidence is stored exactly for done steps, and an operation that succeeded has no step left.
   */
  lemma JournalFrontier(states: seq<State>, i: nat, op: OpId)
    requires IsRun(states) && i < |states| && op in states[i].core.db.operations
    ensures AtFrontier(states[i].core.db.operations[op])
  {
    RunKeepsInv(states, i);
    assert RowOk(states[i].core.db.operations[op]);
    RowAtFrontier(states[i].core.db.operations[op]);
  }

  lemma ClaimIsForResumeStep(c: Core, pc: Pc)
    requires Rows(c) && PcOk(c, pc) && CanAct(c, pc, Claim)
    ensures pc.i == ResumeStep(c.db.operations[pc.op])
  {
    assert RowOk(c.db.operations[pc.op]);
    Preservation.ResumeIs(c.db.operations[pc.op], pc.i);
  }

  /** The step a Run claims is the one InspectResource would report at that moment as the step to resume. */
  lemma RunResumesWhereInspectSays(states: seq<State>, i: nat, p: Pid)
    requires IsRun(states) && i < |states| && Enabled(states[i], p, Advance(Claim))
    ensures var pc := states[i].procs[p];
            pc.op in states[i].core.db.operations && pc.i == ResumeStep(states[i].core.db.operations[pc.op])
  {
    RunKeepsInv(states, i);
    var s := states[i];
    assert s.holder == Some(p) by { assert Holds(s.procs[p]); }
    ClaimIsForResumeStep(s.core, s.procs[p]);
  }

  lemma DigestsMatch(c: Core, pc: Pc)
    requires Rows(c) && PcOk(c, pc)
    ensures !CanAct(c, pc, RejectInput)
  {
    if pc.Checking? {
      assert RowOk(c.db.operations[pc.op]);
    }
  }

  lemma ClaimIsPossible(c: Core, pc: Pc)
    requires Rows(c) && PcOk(c, pc) && pc.Walking? && pc.i < |pc.steps| && !Finished(pc.steps[pc.i])
    ensures CanAct(c, pc, Claim)
  {
  }

  /** The claim and the digest check cannot fail on rows that preparations wrote. */
  lemma ClaimsAreNeverRejected(states: seq<State>, i: nat, p: Pid)
    requires IsRun(states) && i < |states| && p in states[i].procs
    ensures !Enabled(states[i], p, Advance(RejectInput))
    ensures states[i].procs[p].Walking? && states[i].procs[p].i < |states[i].procs[p].steps|
            && !Finished(states[i].procs[p].steps[states[i].procs[p].i])
            ==> Enabled(states[i], p, Advance(Claim))
  {
    RunKeepsInv(states, i);
    var s, pc := states[i], states[i].procs[p];
    if Holds(pc) {
      assert s.holder == Some(p);
      DigestsMatch(s.core, pc);
      if pc.Walking? && pc.i < |pc.steps| && !Finished(pc.steps[pc.i]) {
        ClaimIsPossible(s.core, pc);
      }
    }
  }

  // ----- exclusion

  /** At most one process is inside a Run or the writing part of a preparation of the resource. */
  lemma Exclusion(states: seq<State>, i: nat, p: Pid, q: Pid)
    requires IsRun(states) && i < |states| && p in states[i].procs && q in states[i].procs
    requires Holds(states[i].procs[p]) && Holds(states[i].procs[q])
    ensures p == q
  {
    RunKeepsInv(states, i);
  }

  /** While an executor is inside its Run, nobody else changes a row, the world or the record of the past. */
  lemma OthersOnlyWatch(states: seq<State>, i: nat, p: Pid, q: Pid, l: Label)
    requires IsRun(states) && i < |states| && p in states[i].procs && Holds(states[i].procs[p])
    requires q != p && Enabled(states[i], q, l)
    ensures var c, d := states[i].core, After(states[i], q, l).core;
            d == c.(verified := d.verified) && c.verified <= d.verified
    ensures p in After(states[i], q, l).procs && After(states[i], q, l).procs[p] == states[i].procs[p]
  {
    RunKeepsInv(states, i);
    WatchersChangeNothing(states[i], p, q, l);
  }

  lemma WatchersChangeNothing(s: State, p: Pid, q: Pid, l: Label)
    requires Locks(s) && p in s.procs && Holds(s.procs[p]) && q != p && Enabled(s, q, l)
    ensures var d := After(s, q, l).core; d == s.core.(verified := d.verified) && s.core.verified <= d.verified
    ensures p in After(s, q, l).procs && After(s, q, l).procs[p] == s.procs[p]
  {
    assert q in s.procs ==> !Holds(s.procs[q]);
  }
}
