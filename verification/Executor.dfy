/**
  One process at work on a resource, among others: internal/execution/executor.go and the callers of the preparations.

  `Others` stands for what all other processes do between two of its actions; the contracts say that whatever the
  process does and wherever it stops, the system follows the protocol of module Protocol.  Where nothing that the process
  asks for fails (`Faultless`), they also say that it does not stop, or why.
 */
module Sessions {
  import opened Prelude
  import opened Planner
  import opened Guests
  import opened Journal
  import opened Protocol
  import opened Invariant
  import opened Drivers
  import opened Repositories
  import opened Addresses
  import opened Paths
  import opened Calls
  import opened Progress
  import Runs

  // ----- others at work

  ghost predicate StepOfOther(p: Pid, s: State, t: State) {
    exists q, l :: q != p && Enabled(s, q, l) && t == After(s, q, l)
  }

  ghost predicate IsPathOfOthers(p: Pid, path: seq<State>) {
    |path| > 0 && forall i :: 0 <= i < |path| - 1 ==> StepOfOther(p, path[i], path[i + 1])
  }

  /** Other processes lead from one state to the other. */
  ghost predicate Meanwhile(p: Pid, s: State, t: State) {
    exists path: seq<State> :: IsPathOfOthers(p, path) && path[0] == s && path[|path| - 1] == t
  }

  lemma MeanwhileReaches(p: Pid, s: State, t: State)
    requires Meanwhile(p, s, t)
    ensures Reached(s, t)
  {
    var path: seq<State> :| IsPathOfOthers(p, path) && path[0] == s && path[|path| - 1] == t;
    forall i | 0 <= i < |path| - 1 ensures Follows(path, i) {
      assert StepOfOther(p, path[i], path[i + 1]);
    }
  }

  /** What a process can rely on while others are at work; with the execution key, on almost everything. */
  predicate Undisturbed(p: Pid, s: State, t: State) {
    && (p in t.procs <==> p in s.procs) && (p in s.procs ==> t.procs[p] == s.procs[p])
    && (p in s.procs && Holds(s.procs[p]) ==>
          t.holder == s.holder && t.core == s.core.(verified := t.core.verified) && s.core.verified <= t.core.verified)
  }

  lemma StepOfOtherDisturbsNothing(p: Pid, s: State, q: Pid, l: Label)
    requires Inv(s) && q != p && Enabled(s, q, l)
    ensures Undisturbed(p, s, After(s, q, l))
  {
    if p in s.procs && Holds(s.procs[p]) {
      OnlyWatches(s, p, q, l);
    }
  }

  lemma OnlyWatches(s: State, p: Pid, q: Pid, l: Label)
    requires Locks(s) && p in s.procs && Holds(s.procs[p]) && q != p && Enabled(s, q, l)
    ensures var t := After(s, q, l);
            t.holder == s.holder && t.core == s.core.(verified := t.core.verified) && s.core.verified <= t.core.verified
  {
    assert s.holder == Some(p);
    assert q in s.procs ==> (Holds(s.procs[q]) <==> s.holder == Some(q));
  }

  lemma OthersDisturbNothing(p: Pid, path: seq<State>)
    requires IsPathOfOthers(p, path) && Inv(path[0])
    ensures Inv(path[|path| - 1]) && Undisturbed(p, path[0], path[|path| - 1])
    decreases |path|
  {
    if |path| > 1 {
      var front := path[..|path| - 1];
      forall i | 0 <= i < |front| - 1 ensures StepOfOther(p, front[i], front[i + 1]) {
        assert StepOfOther(p, path[i], path[i + 1]);
      }
      OthersDisturbNothing(p, front);
      var s := front[|front| - 1];
      assert StepOfOther(p, path[|path| - 2], path[|path| - 2 + 1]);
      var q, l :| q != p && Enabled(s, q, l) && path[|path| - 1] == After(s, q, l);
      Runs.StepKeepsInv(s, q, l);
      StepOfOtherDisturbsNothing(p, s, q, l);
    }
  }

  lemma MeanwhileDisturbsNothing(p: Pid, s: State, t: State)
    requires Meanwhile(p, s, t) && Inv(s)
    ensures Undisturbed(p, s, t)
  {
    var path: seq<State> :| IsPathOfOthers(p, path) && path[0] == s && path[|path| - 1] == t;
    OthersDisturbNothing(p, path);
  }

  // ----- verified images come from someone

  lemma VerifyingReaches(s: State, images: set<string>)
    ensures Reached(s, s.(core := s.core.(verified := s.core.verified + images)))
    decreases |images|
  {
    if images == {} {
      assert s.core.verified + images == s.core.verified;
      ReachedItself(s);
    } else {
      var image :| image in images;
      var rest := images - {image};
      VerifyingReaches(s, rest);
      var t := s.(core := s.core.(verified := s.core.verified + rest));
      var u := s.(core := s.core.(verified := s.core.verified + images));
      assert s.core.verified + images == s.core.verified + rest + {image};
      assert Enabled(t, 0, ImageVerified(image)) && u == After(t, 0, ImageVerified(image));
      ReachedNext(t, u);
      ReachedTransitive(s, t, u);
    }
  }

  // ----- one process

  datatype Outcome = Done(op: OpId) | NothingToDo(op: OpId) | Stopped

  class Session {
    const pid: Pid
    const repo: Repository
    const host: Host

    constructor (pid: Pid, repo: Repository, host: Host)
      ensures this.pid == pid && this.repo == repo && this.host == host
    {
      this.pid, this.repo, this.host := pid, repo, host;
    }

    /** No statement, no answer and nothing that is asked of the host fails, and the process does not die. */
    ghost predicate Faultless() {
      repo.faultless && host.faultless
    }

    /** The state of the protocol that the tables, the host and the record of the past amount to. */
    ghost function Now(): State
      reads repo, host
    {
      State(Core(repo.site, repo.name, repo.Rows(), host.Verified(), host.guest, repo.origin, repo.history), repo.holder,
            repo.procs)
    }

    ghost predicate Valid()
      reads repo, host
    {
      host.site == repo.site && CacheOk(host.site, host.cache) && Reachable(Now())
    }

    ghost predicate At(pc: Pc)
      reads repo, host
    {
      Valid() && pid in repo.procs && repo.procs[pid] == pc
    }

    /** Inside, with the execution key. */
    ghost predicate Inside()
      reads repo, host
    {
      Valid() && pid in repo.procs && Holds(repo.procs[pid])
    }

    /** Everyone else, for any length of time. */
    method Others()
      requires Valid()
      modifies repo, host
      ensures host.site == repo.site && CacheOk(host.site, host.cache) && Meanwhile(pid, old(Now()), Now())
    {
      ghost var path := [Now()];
      assert IsPathOfOthers(pid, path) && path[0] == Now();
    }

    /** The ghost record catches up with an action that has just changed the tables or the world. */
    ghost method Record(t: State)
      requires Reachable(t) && host.site == repo.site && CacheOk(host.site, host.cache)
      requires t.core.site == repo.site && t.core.name == repo.name && t.core.db == repo.Rows()
      requires t.core.verified == host.Verified() && t.core.guest == host.guest && t.holder == repo.holder
      modifies repo`procs, repo`origin, repo`history
      ensures Valid() && Now() == t
    {
      repo.procs, repo.origin, repo.history := t.procs, t.core.origin, t.core.history;
    }

    /** In order, and reached from an earlier state. */
    ghost predicate Since(start: State)
      reads repo, host
    {
      Valid() && Reached(start, Now())
    }

    /** The others at work while this process is between two actions: it stays where it is. */
    method Interlude(ghost start: State)
      requires Since(start)
      modifies repo, host
      ensures Since(start) && Undisturbed(pid, old(Now()), Now())
    {
      ghost var before := Now();
      Others();
      Settle(pid, start, before, Now());
    }

    // ----- the actions of Run, one statement each

    /** The first inspection, outside the execution key; it only finds out whether the resource is there. */
    method Enter(ghost start: State) returns (ok: bool)
      requires Since(start) && pid !in repo.procs
      modifies repo, host
      ensures Since(start)
      ensures if ok then At(Locking) else pid !in repo.procs
      ensures Faultless() && !ok ==> !Visible(repo.Rows())
    {
      Interlude(start);
      ghost var s := Now();
      DeclarationIsThere(s);
      var inspection := repo.InspectResource();
      ok := inspection.Some?;
      if ok {
        ghost var t := EnterTo(pid, start, s);
        Record(t);
      }
    }

    /** LockExecution: a try-lock; without it the process leaves. */
    method Lock(ghost start: State) returns (locked: bool)
      requires Since(start) && At(Locking)
      modifies repo, host
      ensures Since(start)
      ensures if locked then At(Inspecting) else At(Locking)
      ensures Faultless() && !locked ==> repo.holder.Some? && repo.holder != Some(pid)
    {
      Interlude(start);
      ghost var s := Now();
      OutsideHoldsNothing(s, pid);
      locked := repo.LockExecution(pid);
      if locked {
        ghost var t := TakeKeyTo(pid, start, s);
        Record(t);
      }
    }

    /** The deferred unlock, or the death of the process: either way the key is free. */
    method Leave(ghost start: State)
      requires Since(start) && pid in repo.procs
      modifies repo, host
      ensures Since(start)
      ensures pid !in repo.procs && repo.holder != Some(pid)
      ensures old(Inside()) ==> repo.Rows() == old(repo.Rows())
    {
      Interlude(start);
      ghost var s := Now();
      repo.Unlock(pid);
      ghost var t := ExitTo(pid, start, s);
      Record(t);
    }

    /** The second inspection, under the key: the operation to execute, unless there is nothing to do. */
    method Inspect(ghost start: State) returns (inspection: Option<Inspection>)
      requires Since(start) && At(Inspecting)
      modifies repo, host
      ensures Since(start) && Inside()
      ensures inspection.Some? && inspection.value.latest.Some? ==>
                && At(if inspection.value.status == Succeeded then Leaving else Loading(inspection.value.latest.value))
                && IsLatest(repo.operations, inspection.value.latest.value)
                && inspection.value.status == repo.operations[inspection.value.latest.value].status
                && inspection.value.operation == repo.operations[inspection.value.latest.value].plan.operation
      ensures inspection.Some? && inspection.value.latest.None? ==> repo.operations == map[]
      ensures Faultless() && inspection.None? ==> !Visible(repo.Rows())
    {
      Interlude(start);
      ghost var s := Now();
      DeclarationIsThere(s);
      inspection := repo.InspectResource();
      if inspection.Some? && inspection.value.latest.Some? {
        ghost var t := AdvanceTo(pid, start, s, Act.Inspect(inspection.value.latest.value));
        Record(t);
      }
    }

    method Load(op: OpId, ghost start: State) returns (steps: Option<seq<StepRow>>)
      requires Since(start) && At(Loading(op))
      modifies repo, host
      ensures Since(start) && Inside()
      ensures steps.Some? ==> At(Starting(op, steps.value))
      ensures Faultless() ==> steps.Some?
    {
      Interlude(start);
      ghost var s := Now();
      OperationIsThere(s, pid);
      steps := repo.ExecutionSteps(op);
      if steps.Some? {
        ghost var t := AdvanceTo(pid, start, s, Act.Load);
        Record(t);
      }
    }

    method Start(op: OpId, steps: seq<StepRow>, ghost start: State) returns (ok: bool)
      requires Since(start) && At(Starting(op, steps))
      modifies repo, host
      ensures Since(start) && Inside()
      ensures ok ==> At(Walking(op, steps, 0))
      ensures Faultless() ==> ok
    {
      Interlude(start);
      ghost var s := Now();
      OperationIsThere(s, pid);
      ok := repo.StartOperation(op);
      if ok || repo.Rows() != s.core.db {
        ghost var t := AdvanceTo(pid, start, s, Act.Start);
        Record(t);
      }
    }

    method Skip(op: OpId, steps: seq<StepRow>, i: nat, ghost start: State)
      requires Since(start) && At(Walking(op, steps, i)) && i < |steps| && Finished(steps[i])
      modifies repo`procs, repo`origin, repo`history
      ensures Since(start) && At(Walking(op, steps, i + 1))
    {
      ghost var t := AdvanceTo(pid, start, Now(), Act.Skip);
      Record(t);
    }

    method Claim(op: OpId, steps: seq<StepRow>, i: nat, ghost start: State) returns (claimed: Option<StepRow>)
      requires Since(start) && At(Walking(op, steps, i)) && i < |steps| && !Finished(steps[i])
      modifies repo, host
      ensures Since(start) && Inside()
      ensures claimed.Some? ==> At(Checking(op, steps, i, claimed.value))
      ensures Faultless() ==> claimed.Some?
    {
      Interlude(start);
      ghost var s := Now();
      StepIsThere(s, pid);
      claimed := repo.ClaimStep(op, i);
      if claimed.Some? || repo.Rows() != s.core.db {
        ghost var t := ClaimTo(pid, start, s, op, steps, i);
        Record(t);
      }
    }

    /** FailStep; its error is ignored, and the run ends either way. */
    method Fail(op: OpId, i: nat, code: ErrorCode, blocked: bool, ghost act: Act, ghost start: State)
      requires Since(start) && Inside() && FailsWith(repo.procs[pid], act, op, i, code, blocked)
      modifies repo, host
      ensures Since(start) && Inside()
      ensures Faultless() ==> FailureOnRecord(repo.operations, op, i, code, blocked)
    {
      Interlude(start);
      ghost var s := Now();
      RowIsThere(s, pid);
      var ok := repo.FailStep(op, i, code, blocked);
      if repo.Rows() != s.core.db {
        ghost var t := AdvanceTo(pid, start, s, act);
        Record(t);
      }
    }

    /** The input is in order and the driver is about to be called. */
    method BeginCall(op: OpId, steps: seq<StepRow>, i: nat, claimed: StepRow, ghost start: State)
      requires Since(start) && At(Checking(op, steps, i, claimed)) && claimed.inputDigest == ShaInput(claimed.input)
      modifies repo, host
      ensures Since(start) && At(Calling(op, steps, i, claimed.input, host.guest))
    {
      Interlude(start);
      ghost var s := Now();
      ghost var t := AdvanceTo(pid, start, s, Act.Call);
      Record(t);
    }

    /** Driver.Ensure.  The process may die on the way, in whatever world the driver has got to. */
    method Call(op: OpId, steps: seq<StepRow>, i: nat, input: StepInput, ghost start: State) returns (result: Option<Result>)
      requires Since(start) && At(Calling(op, steps, i, input, host.guest))
      modifies repo, host
      ensures Since(start) && Inside()
      ensures result.Some? ==> At(Reporting(op, steps, i, result.value))
      ensures Faultless() ==> result.Some?
      ensures Faultless() && !result.value.ok ==>
                && !Feasible(input, old(host.Verified()), old(host.guest))
                && (result.value.blocked <==> IsBlocked(input, old(host.guest)))
    {
      ghost var s := Now();
      CallIsSafe(s, pid);
      var r := host.Ensure(input);
      ghost var v := WorkTo(pid, start, s, host.Verified(), host.guest);
      if {
        case !host.faultless =>
          Record(v);
          return None;
        case true =>
      }
      ghost var w := ReturnTo(pid, start, v, r);
      Record(w);
      result := Some(r);
    }

    ghost method StoreNothing(op: OpId, steps: seq<StepRow>, i: nat, result: Result, start: State)
      requires Since(start) && At(Reporting(op, steps, i, result)) && result.observation.None?
      modifies repo`procs, repo`origin, repo`history
      ensures Since(start) && At(Settling(op, steps, i, result))
    {
      var t := AdvanceTo(pid, start, Now(), RecordNothing);
      Record(t);
    }

    /** Store the observation that came with the result, if any, under the digest of the plan. */
    method StoreObservation(op: OpId, steps: seq<StepRow>, i: nat, result: Result, ghost start: State) returns (ok: bool)
      requires Since(start) && At(Reporting(op, steps, i, result))
      modifies repo, host
      ensures Since(start) && Inside()
      ensures if ok then At(Settling(op, steps, i, result))
              else result.observation.Some? && FailsWith(repo.procs[pid], RecordFails, op, i, ObservationNotPersisted, false)
      ensures Faultless() ==> ok
    {
      if result.observation.None? {
        StoreNothing(op, steps, i, result, start);
        ok := true;
      } else {
        ok := StoreSomething(op, steps, i, result, start);
      }
    }

    method StoreSomething(op: OpId, steps: seq<StepRow>, i: nat, result: Result, ghost start: State) returns (ok: bool)
      requires Since(start) && At(Reporting(op, steps, i, result)) && result.observation.Some?
      modifies repo, host
      ensures Since(start)
      ensures if ok then At(Settling(op, steps, i, result))
              else At(Reporting(op, steps, i, result)) || At(Settling(op, steps, i, result))
      ensures Faultless() ==> ok
    {
      Interlude(start);
      ghost var s := Now();
      RowIsThere(s, pid);
      var observation := result.observation.value.(plan := Some(repo.operations[op].plan));
      ok := repo.RecordObservation(observation);
      if ok || repo.Rows() != s.core.db {
        ghost var t := RecordTo(pid, start, s, op, steps, i, result);
        Record(t);
      }
    }

    method Complete(op: OpId, steps: seq<StepRow>, i: nat, result: Result, ghost start: State) returns (ok: bool)
      requires Since(start) && At(Settling(op, steps, i, result)) && result.ok
      modifies repo, host
      ensures Since(start) && Inside()
      ensures ok ==> At(Walking(op, steps, i + 1))
      ensures Faultless() ==> ok
    {
      Interlude(start);
      ghost var s := Now();
      RowIsThere(s, pid);
      ok := repo.CompleteStep(op, i, result.evidence, result.skipped);
      if ok || repo.Rows() != s.core.db {
        ghost var t := CompleteTo(pid, start, s, op, steps, i, result);
        Record(t);
      }
    }

    /**
      The body of the loop of Run for one step that the snapshot does not show as finished.  Without failures it stops
      only where the call could not succeed, or where the row does not carry the digest of its input, which no row does;
      `at` is the state at that moment.
     */
    method Execute(op: OpId, steps: seq<StepRow>, i: nat, ghost start: State) returns (ok: bool, ghost at: State)
      requires Since(start) && At(Walking(op, steps, i)) && i < |steps| && !Finished(steps[i])
      modifies repo, host
      ensures Since(start) && Inside()
      ensures ok ==> At(Walking(op, steps, i + 1))
      ensures Reachable(at) && Reached(start, at)
      ensures Faultless() && !ok ==> Mismatch(pid, at) || (Refused(pid, at, Now()) && Reached(at, Now()))
    {
      var claimed := Claim(op, steps, i, start);
      at := Now();
      if claimed.None? {
        return false, at;
      }
      if claimed.value.inputDigest != ShaInput(claimed.value.input) {
        Fail(op, i, InputMismatch, true, RejectInput, start);
        return false, at;
      }
      BeginCall(op, steps, i, claimed.value, start);
      at := Now();
      ReachedItself(at);
      if !Feasible(claimed.value.input, at.core.verified, at.core.guest) {
        StuckCannotComplete(at, pid);
      }
      var result := Call(op, steps, i, claimed.value.input, at);
      ok := result.Some?;
      if ok {
        ok := Report(op, steps, i, result.value, at);
      }
      ReachedTransitive(start, at, Now());
    }

    /** What follows the call: store the observation, and complete the step or let it fail. */
    method Report(op: OpId, steps: seq<StepRow>, i: nat, result: Result, ghost start: State) returns (ok: bool)
      requires Since(start) && At(Reporting(op, steps, i, result))
      modifies repo, host
      ensures Since(start) && Inside()
      ensures ok ==> At(Walking(op, steps, i + 1))
      ensures Faultless() && !ok ==>
                !result.ok && FailureOnRecord(repo.operations, op, i, if result.blocked then DriverBlocked else DriverFailed,
                                              result.blocked)
    {
      var stored := StoreObservation(op, steps, i, result, start);
      if !stored {
        Fail(op, i, ObservationNotPersisted, false, RecordFails, start);
        return false;
      }
      if !result.ok {
        var code := if result.blocked then DriverBlocked else DriverFailed;
        Fail(op, i, code, result.blocked, ReportFailure, start);
        return false;
      }
      ok := Complete(op, steps, i, result, start);
    }

    /** The loop is over. */
    ghost method Last(op: OpId, steps: seq<StepRow>, start: State)
      requires Since(start) && At(Walking(op, steps, |steps|))
      modifies repo`procs, repo`origin, repo`history
      ensures Since(start) && At(Concluding(op)) && LastStarted(repo.history) == Some(op)
      ensures op in repo.operations && repo.resource.Some? && repo.effective.Some? && repo.allocation.Some?
    {
      var t := AdvanceTo(pid, start, Now(), Act.Last);
      Record(t);
      EverythingIsThere(t, pid);
    }

    /** CompleteOperation */
    method Conclude(op: OpId, isDelete: bool, ghost start: State) returns (ok: bool)
      requires Since(start) && At(Concluding(op)) && LastStarted(repo.history) == Some(op)
      requires op in repo.operations && repo.resource.Some? && repo.effective.Some? && repo.allocation.Some?
      requires isDelete == (repo.operations[op].plan.operation == Delete)
      modifies repo, host
      ensures Since(start) && Inside()
      ensures ok ==> HasSucceeded(Now().core, op) && repo.operations[op].plan == old(repo.operations[op].plan)
      ensures Faultless() ==> ok
    {
      Interlude(start);
      ok := ConcludeNow(op, isDelete, start);
    }

    method ConcludeNow(op: OpId, isDelete: bool, ghost start: State) returns (ok: bool)
      requires Since(start) && At(Concluding(op)) && LastStarted(repo.history) == Some(op)
      requires op in repo.operations && repo.resource.Some? && repo.effective.Some? && repo.allocation.Some?
      requires isDelete == (repo.operations[op].plan.operation == Delete)
      modifies repo
      ensures Since(start) && Inside()
      ensures ok ==> HasSucceeded(Now().core, op) && repo.operations[op].plan == old(repo.operations[op].plan)
      ensures Faultless() ==> ok
    {
      ghost var s := Now();
      ok := repo.CompleteOperation(op, isDelete);
      if ok || repo.Rows() != s.core.db {
        ghost var t := ConcludeTo(pid, start, s, op);
        Record(t);
      }
    }

    // ----- the preparations

    /** The transaction begins; its start is the creation stamp of what it inserts. */
    method Begin(stamp: int, ghost start: State)
      requires Since(start) && pid !in repo.procs
      modifies repo, host
      ensures Since(start) && At(Preparing(stamp))
    {
      Interlude(start);
      ghost var t := BeginTo(pid, start, Now(), stamp);
      Record(t);
    }

    /** lockExecutionPreparation: a try-lock, so a preparation never waits for a Run. */
    method TryKey(stamp: int, ghost start: State) returns (locked: bool)
      requires Since(start) && At(Preparing(stamp))
      modifies repo, host
      ensures Since(start)
      ensures if locked then At(Writing(stamp)) else At(Preparing(stamp))
      ensures Faultless() && !locked ==> repo.holder.Some? && repo.holder != Some(pid)
    {
      Interlude(start);
      ghost var s := Now();
      OutsideHoldsNothing(s, pid);
      locked := repo.LockExecution(pid);
      if locked {
        ghost var t := TakeKeyTo(pid, start, s);
        Record(t);
      }
    }

    /** The transaction up to its first write; without the key it ends. */
    method Reserve(stamp: int, ghost start: State) returns (locked: bool, ghost at: State)
      requires Since(start) && pid !in repo.procs
      modifies repo, host
      ensures Since(start) && RowsOk(repo.site, repo.name, repo.operations)
      ensures if locked then At(Writing(stamp)) && repo.holder == Some(pid)
              else pid !in repo.procs && repo.holder != Some(pid)
      ensures Reached(start, at) && Reached(at, Now())
      ensures locked ==> at == Now()
      ensures Faultless() && !locked ==> KeyElsewhere(pid, at)
    {
      Begin(stamp, start);
      locked := TryKey(stamp, start);
      if locked {
        Interlude(start);
        HolderKnown(Now(), pid);
        at := Now();
        ReachedItself(at);
      } else {
        at := Now();
        ReachedItself(at);
        Leave(at);
        ReachedTransitive(start, at, Now());
      }
      RowsAreInOrder(Now());
    }

    /**
      PrepareExecutableApply with its transaction around it.  `at` is the state in which it wrote; a preparation that
      is reported as done is a commit of the protocol; one that is not has changed nothing, or was committed without an
      answer.
     */
    method PrepareApply(spec: Spec, uuid: OpId, stamp: int, others: OtherRows)
      returns (result: Prepared, found: Allocation, ghost at: State)
      requires Valid() && pid !in repo.procs && |repo.candidates| == MAC_CANDIDATES
      requires forall n <- repo.site.pools :: IsAddr(Addr4(repo.site.pools[n].first)) && IsAddr(Addr4(repo.site.pools[n].last))
      modifies repo, host
      ensures Since(old(Now())) && pid !in repo.procs && repo.holder != Some(pid)
      ensures result.Prepared? ==>
                CommittedBy(old(Now()), at, PrepareApplication(spec, found, result.op), Now())
                && result.status == StatusOf(at.core.db.operations, result.op)
      ensures Reached(old(Now()), at) && Reached(at, Now())
      ensures Faultless() && result.NotPrepared? ==>
                if result.error == KeyTaken then KeyElsewhere(pid, at)
                else repo.ApplyRefused(at.core.db, spec, others, uuid, result.error) && !result.error.DeclarationUnreadable?
    {
      ghost var start := Now();
      ReachedItself(start);
      found := Allocation("", 0, 0, "", "", 0, "", 0);
      var error := repo.CheckManifest(spec);
      if error.Some? {
        NotInside(start, pid);
        return NotPrepared(error.value), found, start;
      }
      var locked;
      locked, at := Reserve(stamp, start);
      if !locked {
        return NotPrepared(KeyTaken), found, at;
      }
      ReachedItself(at);
      result, found := WriteApply(spec, uuid, stamp, others, at);
      ReachedTransitive(start, at, Now());
    }

    /** The transaction itself: committed, it is the step of the protocol; else it has left nothing behind. */
    method TransactApply(spec: Spec, uuid: OpId, stamp: int, others: OtherRows, ghost at: State)
      returns (result: Prepared, found: Allocation, ghost written: OpId)
      requires at == Now() && CanDeclare(at.core.db, spec) && |repo.candidates| == MAC_CANDIDATES
      requires RowsOk(repo.site, repo.name, repo.operations)
      requires forall n <- repo.site.pools :: IsAddr(Addr4(repo.site.pools[n].first)) && IsAddr(Addr4(repo.site.pools[n].last))
      modifies repo`resource, repo`specs, repo`allocation, repo`operations, repo`effective
      ensures var preparation := PrepareApplication(spec, found, written);
              Happened(result) ==>
                CanPrepare(at.core, preparation) && repo.Rows() == PrepareCore(at.core, preparation, stamp).db
      ensures !Happened(result) ==> Now() == at
      ensures result.Prepared? ==> written == result.op && result.status == StatusOf(at.core.db.operations, result.op)
      ensures Faultless() && result.NotPrepared? ==>
                result.error != KeyTaken && !Happened(result)
                && repo.ApplyRefused(at.core.db, spec, others, uuid, result.error) && !result.error.DeclarationUnreadable?
    {
      result, found, written := repo.PrepareExecutableApply(spec, uuid, stamp, others);
    }

    /** The writes of an apply preparation, and its commit or rollback. */
    method WriteApply(spec: Spec, uuid: OpId, stamp: int, others: OtherRows, ghost start: State)
      returns (result: Prepared, found: Allocation)
      requires Since(start) && At(Writing(stamp)) && repo.holder == Some(pid) && |repo.candidates| == MAC_CANDIDATES
      requires RowsOk(repo.site, repo.name, repo.operations)
      requires forall n <- repo.site.pools :: IsAddr(Addr4(repo.site.pools[n].first)) && IsAddr(Addr4(repo.site.pools[n].last))
      modifies repo, host
      ensures Since(start) && pid !in repo.procs && repo.holder != Some(pid)
      ensures result.Prepared? ==>
                CommittedBy(start, old(Now()), PrepareApplication(spec, found, result.op), Now())
                && result.status == StatusOf(old(repo.operations), result.op)
      ensures Faultless() && result.NotPrepared? ==>
                result.error != KeyTaken
                && repo.ApplyRefused(old(repo.Rows()), spec, others, uuid, result.error) && !result.error.DeclarationUnreadable?
    {
      ghost var at := Now();
      CanBeDeclared(at, spec);
      ghost var written;
      result, found, written := TransactApply(spec, uuid, stamp, others, at);
      if Happened(result) {
        Committed(at, stamp, PrepareApplication(spec, found, written), start);
      } else {
        Leave(start);
      }
    }

    method PrepareDelete(destroyStorage: bool, uuid: OpId, stamp: int) returns (result: Prepared, ghost at: State)
      requires Valid() && pid !in repo.procs
      modifies repo, host
      ensures Since(old(Now())) && pid !in repo.procs && repo.holder != Some(pid)
      ensures result.Prepared? ==> destroyStorage && CommittedBy(old(Now()), at, PrepareDeletion(result.op), Now())
      ensures Reached(old(Now()), at) && Reached(at, Now())
      ensures Faultless() && result.NotPrepared? ==>
                if result.error == KeyTaken then KeyElsewhere(pid, at)
                else CurrentRefused(at.core.db, repo.site, repo.name, Delete, destroyStorage, uuid, result.error)
    {
      ghost var start := Now();
      ReachedItself(start);
      var locked;
      locked, at := Reserve(stamp, start);
      if !locked {
        return NotPrepared(KeyTaken), at;
      }
      ReachedItself(at);
      result := WriteDelete(destroyStorage, uuid, stamp, at);
      ReachedTransitive(start, at, Now());
    }

    method TransactDelete(destroyStorage: bool, uuid: OpId, stamp: int, ghost at: State)
      returns (result: Prepared, ghost written: OpId)
      requires at == Now() && RowsOk(repo.site, repo.name, repo.operations)
      modifies repo`operations, repo`effective
      ensures Happened(result) ==>
                && destroyStorage && CanPrepare(at.core, PrepareDeletion(written))
                && repo.Rows() == PrepareCore(at.core, PrepareDeletion(written), stamp).db
      ensures !Happened(result) ==> Now() == at
      ensures result.Prepared? ==> written == result.op
      ensures Faultless() && result.NotPrepared? ==>
                result.error != KeyTaken && !Happened(result)
                && CurrentRefused(at.core.db, repo.site, repo.name, Delete, destroyStorage, uuid, result.error)
    {
      result, written := repo.PrepareExecutableDelete(destroyStorage, uuid, stamp);
    }

    method WriteDelete(destroyStorage: bool, uuid: OpId, stamp: int, ghost start: State) returns (result: Prepared)
      requires Since(start) && At(Writing(stamp)) && repo.holder == Some(pid)
      requires RowsOk(repo.site, repo.name, repo.operations)
      modifies repo, host
      ensures Since(start) && pid !in repo.procs && repo.holder != Some(pid)
      ensures result.Prepared? ==> destroyStorage && CommittedBy(start, old(Now()), PrepareDeletion(result.op), Now())
      ensures Faultless() && result.NotPrepared? ==>
                result.error != KeyTaken
                && CurrentRefused(old(repo.Rows()), repo.site, repo.name, Delete, destroyStorage, uuid, result.error)
    {
      ghost var at, written := Now(), uuid;
      result, written := TransactDelete(destroyStorage, uuid, stamp, at);
      if Happened(result) {
        Committed(at, stamp, PrepareDeletion(written), start);
      } else {
        Leave(start);
      }
    }

    method PrepareReconcile(uuid: OpId, stamp: int) returns (result: Prepared, ghost at: State)
      requires Valid() && pid !in repo.procs
      modifies repo, host
      ensures Since(old(Now())) && pid !in repo.procs && repo.holder != Some(pid)
      ensures result.Prepared? ==> CommittedBy(old(Now()), at, PrepareReconciliation(result.op), Now())
      ensures Reached(old(Now()), at) && Reached(at, Now())
      ensures Faultless() && result.NotPrepared? ==>
                if result.error == KeyTaken then KeyElsewhere(pid, at)
                else CurrentRefused(at.core.db, repo.site, repo.name, Reconcile, true, uuid, result.error)
    {
      ghost var start := Now();
      ReachedItself(start);
      var locked;
      locked, at := Reserve(stamp, start);
      if !locked {
        return NotPrepared(KeyTaken), at;
      }
      ReachedItself(at);
      result := WriteReconcile(uuid, stamp, at);
      ReachedTransitive(start, at, Now());
    }

    method TransactReconcile(uuid: OpId, stamp: int, ghost at: State) returns (result: Prepared, ghost written: OpId)
      requires at == Now() && RowsOk(repo.site, repo.name, repo.operations)
      modifies repo`operations, repo`effective
      ensures Happened(result) ==>
                && CanPrepare(at.core, PrepareReconciliation(written))
                && repo.Rows() == PrepareCore(at.core, PrepareReconciliation(written), stamp).db
      ensures !Happened(result) ==> Now() == at
      ensures result.Prepared? ==> written == result.op
      ensures Faultless() && result.NotPrepared? ==>
                result.error != KeyTaken && !Happened(result)
                && CurrentRefused(at.core.db, repo.site, repo.name, Reconcile, true, uuid, result.error)
    {
      result, written := repo.PrepareExecutableReconcile(uuid, stamp);
    }

    method WriteReconcile(uuid: OpId, stamp: int, ghost start: State) returns (result: Prepared)
      requires Since(start) && At(Writing(stamp)) && repo.holder == Some(pid)
      requires RowsOk(repo.site, repo.name, repo.operations)
      modifies repo, host
      ensures Since(start) && pid !in repo.procs && repo.holder != Some(pid)
      ensures result.Prepared? ==> CommittedBy(start, old(Now()), PrepareReconciliation(result.op), Now())
      ensures Faultless() && result.NotPrepared? ==>
                result.error != KeyTaken
                && CurrentRefused(old(repo.Rows()), repo.site, repo.name, Reconcile, true, uuid, result.error)
    {
      ghost var at, written := Now(), uuid;
      result, written := TransactReconcile(uuid, stamp, at);
      if Happened(result) {
        Committed(at, stamp, PrepareReconciliation(written), start);
      } else {
        Leave(start);
      }
    }

    /** Between two states there was the commit of a preparation. */
    ghost predicate CommittedBy(start: State, at: State, preparation: Preparation, end: State) {
      Reached(start, at) && exists done: State :: CommitLeads(pid, at, preparation, done) && Reached(done, end)
    }

    /** The commit: the rows are written, and the key goes with the transaction. */
    method Committed(ghost at: State, ghost stamp: int, ghost preparation: Preparation, ghost start: State)
      requires host.site == repo.site && CacheOk(host.site, host.cache)
      requires Reachable(at) && Reached(start, at) && pid in at.procs && at.procs[pid] == Writing(stamp)
      requires CanPrepare(at.core, preparation)
      requires repo.Rows() == PrepareCore(at.core, preparation, stamp).db && repo.holder == Some(pid)
      requires repo.site == at.core.site && repo.name == at.core.name
      requires host.Verified() == at.core.verified && host.guest == at.core.guest
      modifies repo`holder, repo`procs, repo`origin, repo`history
      ensures Since(start) && pid !in repo.procs && repo.holder != Some(pid)
      ensures CommittedBy(start, at, preparation, Now())
    {
      repo.Unlock(pid);
      ghost var t := CommitTo(pid, start, at, stamp, preparation);
      Record(t);
      ReachedItself(t);
    }

    // ----- Run

    /**
      Run the latest operation of the resource from the step at which it stands.  Whatever happens on the way, and
      whatever others do meanwhile, the protocol is followed and the execution key is free in the end.  When the
      operation is reported as finished, there was a state in which it had succeeded and all its postconditions held.
      Without failures it stops only when there is no such resource, another has the key, nothing was ever prepared, or
      a driver was called that could not succeed; then the operation cannot be completed and its failure is on record.
     */
    method Run() returns (outcome: Outcome, ghost at: State)
      requires Valid() && pid !in repo.procs
      modifies repo, host
      ensures Valid() && Reached(old(Now()), Now())
      ensures pid !in repo.procs && repo.holder != Some(pid)
      ensures outcome.Done? ==>
                Reached(old(Now()), at) && Reached(at, Now()) && Executed(at.core, outcome.op)
      ensures outcome.NothingToDo? ==>
                && Reached(old(Now()), at) && Reached(at, Now())
                && IsLatest(at.core.db.operations, outcome.op) && at.core.db.operations[outcome.op].status == Succeeded
      ensures Faultless() && outcome.Stopped? ==>
                && Reached(old(Now()), at) && Reached(at, Now())
                && (!Visible(at.core.db) || KeyElsewhere(pid, at) || at.core.db.operations == map[] || Refused(pid, at, Now()))
    {
      ghost var start := Now();
      ReachedItself(start);
      outcome := Stopped;
      var ok := Enter(start);
      at := Now();
      ReachedItself(at);
      if !ok {
        NotInside(Now(), pid);
        return;
      }
      ok := Lock(start);
      if ok {
        outcome, at := Hold(start);
      } else {
        at := Now();
        ReachedItself(at);
        Leave(at);
        ReachedTransitive(start, at, Now());
      }
    }

    /**
      The apply command: prepare the apply, prepare a reconcile exactly when the operation it gets back has succeeded
      before, and run.  `first` and `second` are the states in which the preparations wrote.
     */
    method ApplyCommand(spec: Spec, others: OtherRows, uuid: OpId, stamp: int, reconcileUuid: OpId, reconcileStamp: int)
      returns (outcome: Option<Outcome>, error: Option<PrepareError>, ghost op: OpId, ghost first: State,
               ghost second: Option<State>, ghost at: State)
      requires Valid() && pid !in repo.procs && |repo.candidates| == MAC_CANDIDATES
      requires forall n <- repo.site.pools :: IsAddr(Addr4(repo.site.pools[n].first)) && IsAddr(Addr4(repo.site.pools[n].last))
      modifies repo, host
      ensures Valid() && Reached(old(Now()), Now()) && pid !in repo.procs && repo.holder != Some(pid)
      ensures outcome.Some? ==>
                && (exists found, end: State :: CommittedBy(old(Now()), first, PrepareApplication(spec, found, op), end))
                && (second.Some? <==> StatusOf(first.core.db.operations, op) == Succeeded)
                && (second.Some? ==>
                      exists o, end: State :: CommittedBy(old(Now()), second.value, PrepareReconciliation(o), end))
      ensures outcome.Some? && outcome.value.Done? ==>
                Reached(old(Now()), at) && Reached(at, Now()) && Executed(at.core, outcome.value.op)
      ensures outcome.Some? && outcome.value.NothingToDo? ==>
                && Reached(old(Now()), at) && Reached(at, Now())
                && IsLatest(at.core.db.operations, outcome.value.op)
                && at.core.db.operations[outcome.value.op].status == Succeeded
      ensures outcome.None? <==> error.Some?
      ensures outcome.None? && Faultless() && second.None? ==>
                if error.value == KeyTaken then KeyElsewhere(pid, first)
                else repo.ApplyRefused(first.core.db, spec, others, uuid, error.value) && !error.value.DeclarationUnreadable?
      ensures outcome.None? && Faultless() && second.Some? ==>
                if error.value == KeyTaken then KeyElsewhere(pid, second.value)
                else CurrentRefused(second.value.core.db, repo.site, repo.name, Reconcile, true, reconcileUuid, error.value)
      ensures outcome == Some(Stopped) && Faultless() ==>
                && Reached(old(Now()), at) && Reached(at, Now())
                && (!Visible(at.core.db) || KeyElsewhere(pid, at) || at.core.db.operations == map[] || Refused(pid, at, Now()))
    {
      ghost var start := Now();
      var result, found;
      result, found, first := PrepareApply(spec, uuid, stamp, others);
      at, second, op, error := first, None, uuid, None;
      if result.NotPrepared? {
        return None, Some(result.error), op, first, second, at;
      }
      op := result.op;
      ghost var middle := Now();
      if result.status == Succeeded {
        var again;
        ghost var writing;
        again, writing := PrepareReconcile(reconcileUuid, reconcileStamp);
        ReachedTransitive(start, middle, Now());
        second := Some(writing);
        if again.NotPrepared? {
          return None, Some(again.error), op, first, second, at;
        }
        ReachedTransitive(start, middle, writing);
        assert CommittedBy(start, writing, PrepareReconciliation(again.op), Now());
      }
      ghost var ready := Now();
      var ended;
      ended, at := Run();
      ReachedTransitive(start, ready, Now());
      if Faultless() || !ended.Stopped? {
        ReachedTransitive(start, ready, at);
      }
      outcome := Some(ended);
    }

    /** Run under the execution key. */
    method Hold(ghost start: State) returns (outcome: Outcome, ghost at: State)
      requires Since(start) && At(Inspecting)
      modifies repo, host
      ensures Since(start) && pid !in repo.procs && repo.holder != Some(pid)
      ensures Reached(start, at) && Reached(at, Now())
      ensures outcome.Done? ==> Executed(at.core, outcome.op)
      ensures outcome.NothingToDo? ==>
                IsLatest(at.core.db.operations, outcome.op) && at.core.db.operations[outcome.op].status == Succeeded
      ensures Faultless() && outcome.Stopped? ==>
                !Visible(at.core.db) || at.core.db.operations == map[] || Refused(pid, at, Now())
    {
      outcome := Stopped;
      var inspection := Inspect(start);
      at := Now();
      ReachedItself(at);
      if inspection.Some? && inspection.value.latest.Some? {
        if inspection.value.status == Succeeded {
          outcome := NothingToDo(inspection.value.latest.value);
        } else {
          outcome, at := Operate(inspection.value.latest.value, start);
        }
      }
      ghost var last := Now();
      ReachedItself(last);
      Leave(last);
      ReachedTransitive(start, last, Now());
      ReachedTransitive(at, last, Now());
    }

    /** Load the steps, start the operation, walk through its steps and conclude. */
    method Operate(op: OpId, ghost start: State) returns (outcome: Outcome, ghost at: State)
      requires Since(start) && At(Loading(op))
      modifies repo, host
      ensures Since(start) && Inside()
      ensures Reached(start, at) && Reached(at, Now())
      ensures !outcome.NothingToDo?
      ensures outcome.Done? ==> outcome.op == op && Executed(at.core, op)
      ensures Faultless() && outcome.Stopped? ==> Refused(pid, at, Now())
    {
      outcome := Stopped;
      var ok;
      var steps := Load(op, start);
      if steps.None? {
        at := Now();
        ReachedItself(at);
        return;
      }
      ok := Start(op, steps.value, start);
      if !ok {
        at := Now();
        ReachedItself(at);
        return;
      }
      ok, at := Walk(op, steps.value, start);
      if !ok {
        return;
      }
      outcome := Finish(op, steps.value, start);
      at := Now();
      ReachedItself(at);
    }

    /** What Run does after the loop: conclude the operation and, unless the resource is gone, look at it once more. */
    method Finish(op: OpId, steps: seq<StepRow>, ghost start: State) returns (outcome: Outcome)
      requires Since(start) && At(Walking(op, steps, |steps|))
      modifies repo, host
      ensures Since(start) && Inside()
      ensures !outcome.NothingToDo?
      ensures outcome.Done? ==> outcome.op == op && Executed(Now().core, op)
      ensures Faultless() ==> outcome.Done?
    {
      outcome := Stopped;
      Last(op, steps, start);
      var isDelete := repo.operations[op].plan.operation == Delete;
      var ok := Conclude(op, isDelete, start);
      if ok {
        ConcludedIsExecuted(Now(), op);
      }
      if ok && !isDelete {
        SucceededIsVisible(Now(), op);
        ok := LookAgain();
      }
      if ok {
        outcome := Done(op);
      }
    }

    /** The inspection that Run returns. */
    method LookAgain() returns (ok: bool)
      ensures Faultless() && Visible(repo.Rows()) && repo.resource.value.generation in repo.specs ==> ok
    {
      var inspection := repo.InspectResource();
      ok := inspection.Some?;
    }

    /** The loop over the snapshot of the steps: finished ones are skipped, and the first failure ends the run. */
    method Walk(op: OpId, steps: seq<StepRow>, ghost start: State) returns (ok: bool, ghost at: State)
      requires Since(start) && At(Walking(op, steps, 0))
      modifies repo, host
      ensures Since(start) && Inside()
      ensures ok ==> At(Walking(op, steps, |steps|))
      ensures Reached(start, at) && Reached(at, Now())
      ensures Faultless() && !ok ==> Refused(pid, at, Now())
    {
      ok := true;
      for i := 0 to |steps|
        invariant Since(start) && At(Walking(op, steps, i)) && ok
      {
        if steps[i].status == StepSucceeded || steps[i].status == StepSkipped {
          Skip(op, steps, i, start);
        } else {
          ok, at := Execute(op, steps, i, start);
          if !ok {
            NoMismatch(pid, at);
            if !Faultless() {
              at := Now();
              ReachedItself(at);
            }
            return;
          }
        }
      }
      at := Now();
      ReachedItself(at);
    }
  }

  // ----- why a process stops

  /** Another process has the execution key. */
  predicate KeyElsewhere(p: Pid, s: State) {
    s.holder.Some? && s.holder != Some(p)
  }

  /** A claimed row does not carry the digest of its input. */
  predicate Mismatch(p: Pid, s: State) {
    p in s.procs && s.procs[p].Checking? && s.procs[p].claimed.inputDigest != ShaInput(s.procs[p].claimed.input)
  }

  /** The failure of a step, as the rows show it. */
  predicate FailureOnRecord(ops: map<OpId, OpRow>, op: OpId, i: nat, code: ErrorCode, blocked: bool) {
    && op in ops && i < |ops[op].steps|
    && ops[op].status == (if blocked then Blocked else Failed) && ops[op].error == Some(code)
    && ops[op].steps[i].status == StepFailed && ops[op].steps[i].error == Some(code)
  }

  /**
    In state `at` a driver was called that could not succeed, so the operation cannot be completed; and by `now` the
    failure is on record, as blocked where the driver refuses.
   */
  ghost predicate Refused(p: Pid, at: State, now: State) {
    p in at.procs && at.procs[p].Calling?
    && var op, i, input := at.procs[p].op, at.procs[p].i, at.procs[p].input;
       && !Feasible(input, at.core.verified, at.core.guest)
       && op in at.core.db.operations && |at.core.db.operations[op].plan.steps| > 0
       && |at.core.db.operations[op].steps| == |at.core.db.operations[op].plan.steps|
       && !CanComplete(at.core.db.operations[op], at.core.verified, at.core.guest)
       && FailureOnRecord(now.core.db.operations, op, i,
                          if IsBlocked(input, at.core.guest) then DriverBlocked else DriverFailed,
                          IsBlocked(input, at.core.guest))
  }

  lemma NoMismatch(p: Pid, s: State)
    requires Reachable(s)
    ensures !Mismatch(p, s)
  {
    ReachableKeepsInv(s);
    if p in s.procs && s.procs[p].Checking? {
      assert s.holder == Some(p) by { assert Holds(s.procs[p]); }
      assert RowOk(s.core.db.operations[s.procs[p].op]);
    }
  }

  lemma DeclarationIsThere(s: State)
    requires Reachable(s)
    ensures Visible(s.core.db) ==> s.core.db.resource.value.generation in s.core.db.specs
  {
    ReachableKeepsInv(s);
    assert Generations(s.core.db);
  }

  lemma CanBeDeclared(s: State, spec: Spec)
    requires Reachable(s)
    ensures CanDeclare(s.core.db, spec)
  {
    ReachableKeepsInv(s);
    assert Generations(s.core.db);
  }

  lemma OutsideHoldsNothing(s: State, p: Pid)
    requires Reachable(s) && p in s.procs && !Holds(s.procs[p])
    ensures s.holder != Some(p)
  {
    ReachableKeepsInv(s);
  }

  lemma OperationIsThere(s: State, p: Pid)
    requires Reachable(s) && p in s.procs && (s.procs[p].Loading? || s.procs[p].Starting?)
    ensures s.procs[p].op in s.core.db.operations
  {
    HolderIsInOrder(s, p);
  }

  lemma StepIsThere(s: State, p: Pid)
    requires Reachable(s) && p in s.procs && s.procs[p].Walking? && s.procs[p].i < |s.procs[p].steps|
    requires !Finished(s.procs[p].steps[s.procs[p].i])
    ensures HasStep(s.core.db, s.procs[p].op, s.procs[p].i)
    ensures Claimable(s.core.db.operations[s.procs[p].op].steps[s.procs[p].i])
  {
    HolderIsInOrder(s, p);
  }

  lemma SucceededIsVisible(s: State, op: OpId)
    requires Reachable(s) && HasSucceeded(s.core, op) && s.core.db.operations[op].plan.operation != Delete
    ensures Visible(s.core.db) && s.core.db.resource.value.generation in s.core.db.specs
  {
    ReachableKeepsInv(s);
    assert Generations(s.core.db);
  }

  /** A call that cannot succeed is one of an operation that cannot be completed. */
  lemma StuckCannotComplete(s: State, p: Pid)
    requires Reachable(s) && p in s.procs && s.procs[p].Calling? && s.procs[p].entry == s.core.guest
    requires !Feasible(s.procs[p].input, s.core.verified, s.core.guest)
    ensures var ops, op := s.core.db.operations, s.procs[p].op;
            && op in ops && |ops[op].plan.steps| > 0 && |ops[op].steps| == |ops[op].plan.steps|
            && !CanComplete(ops[op], s.core.verified, s.core.guest)
  {
    HolderIsInOrder(s, p);
    RowsAreInOrder(s);
    var row, i := s.core.db.operations[s.procs[p].op], s.procs[p].i;
    assert RowOk(row);
    if CanComplete(row, s.core.verified, s.core.guest) {
      NextStepFeasible(row, i, s.core.verified, s.core.guest);
    }
  }

  ghost predicate CommitLeads(p: Pid, s: State, preparation: Preparation, t: State) {
    Enabled(s, p, Commit(preparation)) && t == After(s, p, Commit(preparation))
  }

  /** A committed preparation: the process and its key are gone, and the rows are what the preparation makes of them. */
  lemma CommitTo(p: Pid, r: State, s: State, stamp: int, preparation: Preparation) returns (t: State)
    requires Reachable(s) && Reached(r, s) && p in s.procs && s.procs[p] == Writing(stamp)
    requires CanPrepare(s.core, preparation)
    ensures Reachable(t) && Reached(r, t) && CommitLeads(p, s, preparation, t)
    ensures p !in t.procs && t.holder == None
    ensures OnlyRows(s.(holder := None), t, PrepareCore(s.core, preparation, stamp).db)
  {
    t := After(s, p, Commit(preparation));
    StepReaches(r, s, p, Commit(preparation));
    ReachableKeepsInv(s);
    assert Holds(s.procs[p]);
  }

  lemma BeginTo(p: Pid, r: State, s: State, stamp: int) returns (t: State)
    requires Reachable(s) && Reached(r, s) && p !in s.procs
    ensures Reachable(t) && Reached(r, t)
    ensures t.core == s.core && t.holder == s.holder && p in t.procs && t.procs[p] == Preparing(stamp)
  {
    t := After(s, p, BeginPreparation(stamp));
    StepReaches(r, s, p, BeginPreparation(stamp));
  }

  lemma RowsAreInOrder(s: State)
    requires Reachable(s)
    ensures RowsOk(s.core.site, s.core.name, s.core.db.operations)
  {
    ReachableKeepsInv(s);
  }

  lemma HolderKnown(s: State, p: Pid)
    requires Reachable(s) && p in s.procs && Holds(s.procs[p])
    ensures s.holder == Some(p)
  {
    ReachableKeepsInv(s);
  }

  lemma NotInside(s: State, p: Pid)
    requires Reachable(s) && p !in s.procs
    ensures s.holder != Some(p)
  {
    ReachableKeepsInv(s);
  }

  /** A state that differs from another only in the rows and in the record of the past. */
  predicate OnlyRows(s: State, t: State, db: Db) {
    t.core == s.core.(db := db, history := t.core.history) && t.holder == s.holder
  }

  lemma ClaimTo(p: Pid, r: State, s: State, op: OpId, steps: seq<StepRow>, i: nat) returns (t: State)
    requires Reachable(s) && Reached(r, s) && p in s.procs && s.procs[p] == Walking(op, steps, i)
    requires i < |steps| && !Finished(steps[i])
    requires HasStep(s.core.db, op, i) && Claimable(s.core.db.operations[op].steps[i])
    ensures Reachable(t) && Reached(r, t) && OnlyRows(s, t, ClaimStep(s.core.db, op, i))
    ensures p in t.procs && t.procs[p] == Checking(op, steps, i, ClaimStep(s.core.db, op, i).operations[op].steps[i])
  {
    t := AdvanceTo(p, r, s, Act.Claim);
  }

  lemma RecordTo(p: Pid, r: State, s: State, op: OpId, steps: seq<StepRow>, i: nat, result: Result) returns (t: State)
    requires Reachable(s) && Reached(r, s) && p in s.procs && s.procs[p] == Reporting(op, steps, i, result)
    requires op in s.core.db.operations && result.observation.Some?
    ensures Reachable(t) && Reached(r, t)
    ensures var observation := result.observation.value.(plan := Some(s.core.db.operations[op].plan));
            OnlyRows(s, t, Journal.RecordObservation(s.core.db, observation))
    ensures p in t.procs && t.procs[p] == Settling(op, steps, i, result)
  {
    t := AdvanceTo(p, r, s, Act.Record);
  }

  lemma CompleteTo(p: Pid, r: State, s: State, op: OpId, steps: seq<StepRow>, i: nat, result: Result) returns (t: State)
    requires Reachable(s) && Reached(r, s) && p in s.procs && s.procs[p] == Settling(op, steps, i, result)
    requires HasStep(s.core.db, op, i) && result.ok
    ensures Reachable(t) && Reached(r, t)
    ensures OnlyRows(s, t, CompleteStep(s.core.db, op, i, result.evidence, result.skipped))
    ensures p in t.procs && t.procs[p] == Walking(op, steps, i + 1)
  {
    t := AdvanceTo(p, r, s, Act.Complete);
  }

  lemma ConcludeTo(p: Pid, r: State, s: State, op: OpId) returns (t: State)
    requires Reachable(s) && Reached(r, s) && p in s.procs && s.procs[p] == Concluding(op)
    requires op in s.core.db.operations && LastStarted(s.core.history) == Some(op)
    requires s.core.db.resource.Some? && s.core.db.effective.Some? && s.core.db.allocation.Some?
    ensures Reachable(t) && Reached(r, t)
    ensures OnlyRows(s, t, CompleteOperation(s.core.db, op, s.core.db.operations[op].plan.operation == Delete))
    ensures p in t.procs && t.procs[p] == Leaving
    ensures HasSucceeded(t.core, op) && t.core.db.operations[op].plan == s.core.db.operations[op].plan
  {
    t := AdvanceTo(p, r, s, Act.Conclude);
  }

  /** The operation started last has succeeded, and the verdict says so. */
  predicate HasSucceeded(c: Core, op: OpId) {
    && op in c.db.operations && c.db.operations[op].status == Succeeded && LastStarted(c.history) == Some(op)
    && c.db.effective.Some?
    && c.db.effective.value.state == if c.db.operations[op].plan.operation == Delete then Absent else Converged
  }

  /** The operation has succeeded, and everything that its steps were to bring about holds of the host together. */
  ghost predicate Executed(c: Core, op: OpId) {
    HasSucceeded(c, op) && IsLatest(c.db.operations, op)
    && var plan := c.db.operations[op].plan;
       forall k :: 0 <= k < |plan.steps| ==> Satisfied(plan.steps[k], c.verified, c.guest)
  }

  lemma ConcludedIsExecuted(s: State, op: OpId)
    requires Reachable(s) && HasSucceeded(s.core, op)
    ensures Executed(s.core, op)
  {
    ReachableKeepsInv(s);
    var row := s.core.db.operations[op];
    assert RowOk(row) && AllFinished(row);
    forall k | 0 <= k < |row.plan.steps| ensures Satisfied(row.plan.steps[k], s.core.verified, s.core.guest) {
      assert Finished(row.steps[k]);
    }
  }

  lemma HolderIsInOrder(s: State, p: Pid)
    requires Reachable(s) && p in s.procs && Holds(s.procs[p])
    ensures PcOk(s.core, s.procs[p]) && Life(s.core.db)
  {
    ReachableKeepsInv(s);
    assert s.holder == Some(p);
  }

  lemma InCallHasStep(c: Core, pc: Pc)
    requires PcOk(c, pc) && (pc.Checking? || pc.Reporting? || pc.Settling?)
    ensures HasStep(c.db, pc.op, pc.i)
  {
  }

  /** While a process works on a step, the step is there. */
  lemma RowIsThere(s: State, p: Pid)
    requires Reachable(s) && p in s.procs && (s.procs[p].Checking? || s.procs[p].Reporting? || s.procs[p].Settling?)
    ensures HasStep(s.core.db, s.procs[p].op, s.procs[p].i)
  {
    HolderIsInOrder(s, p);
    InCallHasStep(s.core, s.procs[p]);
  }

  lemma EverythingIsThere(s: State, p: Pid)
    requires Reachable(s) && p in s.procs && s.procs[p].Concluding?
    ensures var db := s.core.db;
            s.procs[p].op in db.operations && db.resource.Some? && db.effective.Some? && db.allocation.Some?
    ensures LastStarted(s.core.history) == Some(s.procs[p].op)
  {
    HolderIsInOrder(s, p);
  }

  /** Which failure is reported from where, and as what. */
  predicate FailsWith(pc: Pc, act: Act, op: OpId, i: nat, code: ErrorCode, blocked: bool) {
    match act
    case RejectInput =>
      pc.Checking? && pc.op == op && pc.i == i && pc.claimed.inputDigest != ShaInput(pc.claimed.input)
      && code == InputMismatch && blocked
    case RecordFails =>
      (pc.Reporting? || pc.Settling?) && pc.op == op && pc.i == i && pc.result.observation.Some?
      && code == ObservationNotPersisted && !blocked
    case ReportFailure =>
      pc.Settling? && pc.op == op && pc.i == i && !pc.result.ok && blocked == pc.result.blocked
      && code == if blocked then DriverBlocked else DriverFailed
    case _ => false
  }

  /** A call that the protocol makes meets what the driver requires: storage, above all, finds its image verified. */
  lemma CallIsSafe(s: State, p: Pid)
    requires Reachable(s) && p in s.procs && s.procs[p].Calling?
    ensures SiteOk(s.core.site) && GuestOk(s.core.guest) && FromSite(s.core.site, s.procs[p].input)
    ensures s.procs[p].input.action.EnsureStorage? ==> s.procs[p].input.image.name in s.core.verified
  {
    ReachableKeepsInv(s);
    var c, pc := s.core, s.procs[p];
    assert s.holder == Some(p) by { assert Holds(pc); }
    var row := c.db.operations[pc.op];
    assert RowOk(row) && PlanFromSite(c.site, row.plan);
    StorageFindsItsImage(row, pc.i, c.verified, pc.entry);
  }

  lemma StorageFindsItsImage(row: OpRow, i: nat, verified: set<string>, g: Guest)
    requires RowOk(row) && i < |row.steps| && DoneHolds(row, verified, g)
    requires forall j :: 0 <= j < i ==> Finished(row.steps[j])
    ensures row.steps[i].input.action == EnsureStorage ==> row.steps[i].input.image.name in verified
  {
    PlanOrder(row.plan);
    if row.steps[i].input.action == EnsureStorage {
      assert row.plan.steps[i - 1].action == EnsureImage;
      assert SameTarget(row.plan.steps[i - 1], row.plan.steps[i]);
      assert Satisfied(row.steps[i - 1].input, verified, g);
    }
  }

  lemma VerifiedTo(r: State, s: State, verified: set<string>) returns (t: State)
    requires Reachable(s) && Reached(r, s) && s.core.verified <= verified
    ensures Reachable(t) && Reached(r, t) && t == s.(core := s.core.(verified := verified))
  {
    t := s.(core := s.core.(verified := verified));
    assert s.core.verified + verified == verified;
    VerifyingReaches(s, verified);
    ReachedTransitive(r, s, t);
    ReachedIsReachable(s, t);
  }

  /** A call that has got to some world, and on the way to some more images that verify. */
  lemma WorkTo(p: Pid, r: State, s: State, verified: set<string>, guest: Guest) returns (t: State)
    requires Reachable(s) && Reached(r, s) && s.core.verified <= verified
    requires p in s.procs && s.procs[p].Calling? && Touch(s.procs[p].input, s.procs[p].entry, guest)
    ensures Reachable(t) && Reached(r, t) && p in t.procs && t.procs[p] == s.procs[p] && t.holder == s.holder
    ensures t.core == s.core.(verified := verified, guest := guest)
  {
    var u := VerifiedTo(r, s, verified);
    t := AdvanceTo(p, r, u, Work(guest));
  }

  lemma ReturnTo(p: Pid, r: State, s: State, result: Result) returns (t: State)
    requires Reachable(s) && Reached(r, s) && p in s.procs && s.procs[p].Calling?
    requires Contract(s.procs[p].input, s.core.verified, s.core.guest, result)
    ensures Reachable(t) && Reached(r, t) && t.holder == s.holder && OnlyRows(s, t, s.core.db)
    ensures p in t.procs && t.procs[p] == Reporting(s.procs[p].op, s.procs[p].steps, s.procs[p].i, result)
  {
    t := AdvanceTo(p, r, s, Return(result));
  }

  /** After an interlude of the others. */
  lemma Settle(p: Pid, r: State, s: State, t: State)
    requires Reachable(s) && Reached(r, s) && Meanwhile(p, s, t)
    ensures Reached(r, t) && Reachable(t) && Undisturbed(p, s, t)
  {
    ReachableKeepsInv(s);
    MeanwhileReaches(p, s, t);
    ReachedTransitive(r, s, t);
    ReachedIsReachable(s, t);
    MeanwhileDisturbsNothing(p, s, t);
  }

  // What each kind of step leads to, without the rest of the protocol.

  lemma EnterTo(p: Pid, r: State, s: State) returns (t: State)
    requires Reachable(s) && Reached(r, s) && p !in s.procs && Visible(s.core.db)
    ensures Reachable(t) && Reached(r, t)
    ensures t.core == s.core && t.holder == s.holder && p in t.procs && t.procs[p] == Locking
  {
    t := After(s, p, Enter);
    StepReaches(r, s, p, Enter);
  }

  lemma TakeKeyTo(p: Pid, r: State, s: State) returns (t: State)
    requires Reachable(s) && Reached(r, s) && p in s.procs && !Holds(s.procs[p]) && s.holder.None?
    ensures Reachable(t) && Reached(r, t)
    ensures t.core == s.core && t.holder == Some(p) && p in t.procs
    ensures t.procs[p] == if s.procs[p].Locking? then Inspecting else Writing(s.procs[p].stamp)
  {
    t := After(s, p, TakeKey);
    StepReaches(r, s, p, TakeKey);
  }

  lemma ExitTo(p: Pid, r: State, s: State) returns (t: State)
    requires Reachable(s) && Reached(r, s) && p in s.procs
    ensures Reachable(t) && Reached(r, t)
    ensures t.core == s.core && t.holder == (if s.holder == Some(p) then None else s.holder) && p !in t.procs
  {
    t := After(s, p, Exit);
    StepReaches(r, s, p, Exit);
  }

  lemma AdvanceTo(p: Pid, r: State, s: State, act: Act) returns (t: State)
    requires Reachable(s) && Reached(r, s) && p in s.procs && CanAct(s.core, s.procs[p], act)
    ensures Reachable(t) && Reached(r, t)
    ensures t.core == ActCore(s.core, s.procs[p], act) && t.holder == s.holder
    ensures p in t.procs && t.procs[p] == ActPc(s.core, s.procs[p], act)
  {
    t := After(s, p, Advance(act));
    StepReaches(r, s, p, Advance(act));
  }
}
