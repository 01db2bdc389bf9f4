/** The invariant over whole runs, and what it says to an operator. */
module Runs {
  import opened Prelude
  import opened Planner
  import opened Guests
  import opened Journal
  import opened Protocol
  import opened Invariant
  import opened Preservation
  import opened Preparations

  lemma CallKeepsCore(c: Core, pc: Pc)
    requires CoreOk(c) && PcOk(c, pc) && CanAct(c, pc, Call)
    ensures CoreOk(ActCore(c, pc, Call))
  {
    CallKeeps(c, pc.op, pc.steps, pc.i);
  }

  lemma WorkKeepsCore(c: Core, pc: Pc, guest: Guest)
    requires CoreOk(c) && PcOk(c, pc) && CanAct(c, pc, Work(guest))
    ensures CoreOk(ActCore(c, pc, Work(guest)))
  {
    WorkKeeps(c, pc.op, pc.steps, pc.i, pc.input, pc.entry, guest);
  }

  lemma ReturnKeepsCore(c: Core, pc: Pc, result: Result)
    requires CoreOk(c) && PcOk(c, pc) && CanAct(c, pc, Return(result))
    ensures CoreOk(ActCore(c, pc, Return(result)))
  {
    ReturnKeeps(c, pc.op, pc.steps, pc.i, result.ok);
  }

  lemma StartKeepsCore(c: Core, pc: Pc)
    requires CoreOk(c) && PcOk(c, pc) && CanAct(c, pc, Start)
    ensures CoreOk(ActCore(c, pc, Start))
  {
    StartKeeps(c, pc.op, pc.steps);
  }

  lemma ClaimIsOfFrontier(c: Core, pc: Pc)
    requires PcOk(c, pc) && CanAct(c, pc, Claim)
    ensures Owned(c, pc.op) && HasStep(c.db, pc.op, pc.i) && !Finished(c.db.operations[pc.op].steps[pc.i])
    ensures forall j :: 0 <= j < pc.i ==> Finished(c.db.operations[pc.op].steps[j])
  {
  }

  lemma ClaimKeepsCore(c: Core, pc: Pc)
    requires CoreOk(c) && PcOk(c, pc) && CanAct(c, pc, Claim)
    ensures CoreOk(ClaimCore(c, pc.op, pc.i))
  {
    ClaimIsOfFrontier(c, pc);
    ClaimKeeps(c, pc.op, pc.i);
  }

  lemma RecordKeepsCore(c: Core, pc: Pc)
    requires CoreOk(c) && CanAct(c, pc, Record)
    ensures CoreOk(ActCore(c, pc, Record))
  {
    RecordKeeps(c, Stamped(c, pc.op, pc.result.observation.value));
  }

  lemma CompleteKeepsCore(c: Core, pc: Pc)
    requires CoreOk(c) && PcOk(c, pc) && CanAct(c, pc, Complete)
    ensures CoreOk(ActCore(c, pc, Complete))
  {
    CompleteKeeps(c, pc.op, pc.steps, pc.i, pc.result);
  }

  lemma ConcludeKeepsCore(c: Core, pc: Pc)
    requires CoreOk(c) && PcOk(c, pc) && CanAct(c, pc, Conclude)
    ensures CoreOk(ActCore(c, pc, Conclude))
  {
    ConcludeKeeps(c, pc.op);
  }

  lemma FailingActsKeepCore(c: Core, pc: Pc, act: Act)
    requires CoreOk(c) && PcOk(c, pc) && CanAct(c, pc, act)
    requires act.RejectInput? || act.RecordFails? || act.ReportFailure?
    ensures CoreOk(ActCore(c, pc, act))
  {
    match act
    case RejectInput => FailKeeps(c, pc.op, pc.steps, pc.i, InputMismatch, true);
    case RecordFails => FailKeeps(c, pc.op, pc.steps, pc.i, ObservationNotPersisted, false);
    case ReportFailure =>
      FailKeeps(c, pc.op, pc.steps, pc.i, if pc.result.blocked then DriverBlocked else DriverFailed, pc.result.blocked);
  }

  predicate IsReading(act: Act) {
    act.Inspect? || act.Load? || act.Skip? || act.Last? || act.RecordNothing?
  }

  lemma ReadingChangesNothing(c: Core, pc: Pc, act: Act)
    requires CanAct(c, pc, act) && IsReading(act)
    ensures ActCore(c, pc, act) == c
  {
  }

  lemma DriverActsKeepCore(c: Core, pc: Pc, act: Act)
    requires CoreOk(c) && PcOk(c, pc) && CanAct(c, pc, act) && (act.Call? || act.Work? || act.Return?)
    ensures CoreOk(ActCore(c, pc, act))
  {
    match act
    case Call => CallKeepsCore(c, pc);
    case Work(guest) => WorkKeepsCore(c, pc, guest);
    case Return(result) => ReturnKeepsCore(c, pc, result);
  }

  lemma WritingActsKeepCore(c: Core, pc: Pc, act: Act)
    requires CoreOk(c) && PcOk(c, pc) && CanAct(c, pc, act) && (act.Start? || act.Claim? || act.Record? || act.Complete?)
    ensures CoreOk(ActCore(c, pc, act))
  {
    match act
    case Start => StartKeepsCore(c, pc);
    case Claim => ClaimKeepsCore(c, pc);
    case Record => RecordKeepsCore(c, pc);
    case Complete => CompleteKeepsCore(c, pc);
  }

  lemma EndingActsKeepCore(c: Core, pc: Pc, act: Act)
    requires CoreOk(c) && PcOk(c, pc) && CanAct(c, pc, act)
    requires act.Conclude? || act.RejectInput? || act.RecordFails? || act.ReportFailure?
    ensures CoreOk(ActCore(c, pc, act))
  {
    if act.Conclude? {
      ConcludeKeepsCore(c, pc);
    } else {
      FailingActsKeepCore(c, pc, act);
    }
  }

  lemma ActKeepsCore(c: Core, pc: Pc, act: Act)
    requires CoreOk(c) && PcOk(c, pc) && CanAct(c, pc, act)
    ensures CoreOk(ActCore(c, pc, act))
  {
    if IsReading(act) {
      ReadingChangesNothing(c, pc, act);
    } else if act.Call? || act.Work? || act.Return? {
      DriverActsKeepCore(c, pc, act);
    } else if act.Start? || act.Claim? || act.Record? || act.Complete? {
      WritingActsKeepCore(c, pc, act);
    } else {
      EndingActsKeepCore(c, pc, act);
    }
  }

  lemma ReadingKeepsPc(c: Core, pc: Pc, act: Act)
    requires PcOk(c, pc) && CanAct(c, pc, act)
    requires IsReading(act)
    ensures PcOk(c, ActPc(c, pc, act))
  {
  }

  lemma ReturnKeepsPc(c: Core, op: OpId, steps: seq<StepRow>, i: nat, input: StepInput, entry: Guest, result: Result)
    requires PcOk(c, Calling(op, steps, i, input, entry)) && Contract(input, c.verified, c.guest, result)
    ensures PcOk(Log(c, Returned(op, i, result.ok)), Reporting(op, steps, i, result))
  {
  }

  lemma RecordKeepsPc(c: Core, op: OpId, steps: seq<StepRow>, i: nat, result: Result)
    requires PcOk(c, Reporting(op, steps, i, result)) && result.observation.Some?
    ensures PcOk(c.(db := RecordObservation(c.db, Stamped(c, op, result.observation.value))),
                 Settling(op, steps, i, result))
  {
  }

  lemma DriverActsKeepPc(c: Core, pc: Pc, act: Act)
    requires Rows(c) && Worlds(c) && PcOk(c, pc) && CanAct(c, pc, act) && (act.Call? || act.Work? || act.Return?)
    ensures PcOk(ActCore(c, pc, act), ActPc(c, pc, act))
  {
    match act
    case Call =>
      assert RowOk(c.db.operations[pc.op]);
      CallingPc(c, pc.op, pc.steps, pc.i);
    case Work(guest) => WorkKeepsPc(c, pc.op, pc.steps, pc.i, pc.input, pc.entry, guest);
    case Return(result) => ReturnKeepsPc(c, pc.op, pc.steps, pc.i, pc.input, pc.entry, result);
  }

  predicate ClaimsCoverCalls(h: History, pc: Pc) {
    pc.Walking? ==> Calls(h, pc.op, pc.i) <= Claims(h, pc.op, pc.i)
  }

  lemma WritingActsKeepPc(c: Core, pc: Pc, act: Act)
    requires Rows(c) && ClaimsCoverCalls(c.history, pc) && PcOk(c, pc) && CanAct(c, pc, act)
    requires act.Start? || act.Claim? || act.Record? || act.Complete?
    ensures PcOk(ActCore(c, pc, act), ActPc(c, pc, act))
  {
    match act
    case Start => StartKeepsPc(c, pc.op, pc.steps);
    case Claim => ClaimKeepsPc(c, pc.op, pc.steps, pc.i);
    case Record => RecordKeepsPc(c, pc.op, pc.steps, pc.i, pc.result);
    case Complete => CompleteKeepsPc(c, pc.op, pc.steps, pc.i, pc.result);
  }

  lemma EndingActsKeepPc(c: Core, pc: Pc, act: Act)
    requires CanAct(c, pc, act) && (act.RejectInput? || act.RecordFails? || act.ReportFailure? || act.Conclude?)
    ensures PcOk(ActCore(c, pc, act), ActPc(c, pc, act))
  {
    assert ActPc(c, pc, act) == Leaving;
  }

  lemma PastCoversCalls(c: Core, pc: Pc)
    requires Past(c)
    ensures ClaimsCoverCalls(c.history, pc)
  {
    assert pc.Walking? ==> Calls(c.history, pc.op, pc.i) <= Claims(c.history, pc.op, pc.i);
  }

  lemma ActKeepsPc(c: Core, pc: Pc, act: Act)
    requires Rows(c) && Worlds(c) && ClaimsCoverCalls(c.history, pc) && PcOk(c, pc) && CanAct(c, pc, act)
    ensures PcOk(ActCore(c, pc, act), ActPc(c, pc, act))
  {
    if IsReading(act) {
      ReadingKeepsPc(c, pc, act);
    } else if act.Call? || act.Work? || act.Return? {
      DriverActsKeepPc(c, pc, act);
    } else if act.Start? || act.Claim? || act.Record? || act.Complete? {
      WritingActsKeepPc(c, pc, act);
    } else {
      EndingActsKeepPc(c, pc, act);
    }
  }

  lemma PrepareKeepsCore(c: Core, preparation: Preparation, stamp: int)
    requires CoreOk(c) && CanPrepare(c, preparation)
    ensures CoreOk(PrepareCore(c, preparation, stamp))
  {
    match preparation
    case PrepareApplication(spec, found, op) => ApplyKeepsCore(c, spec, found, op, stamp);
    case PrepareDeletion(op) => DeleteKeepsCore(c, op, stamp);
    case PrepareReconciliation(op) => ReconcileKeepsCore(c, op, stamp);
  }

  lemma VerifiedKeepsCore(c: Core, image: string)
    requires CoreOk(c)
    ensures CoreOk(c.(verified := c.verified + {image}))
  {
    forall row | DoneHolds(row, c.verified, c.guest) ensures DoneHolds(row, c.verified + {image}, c.guest) {
      MoreDoneHolds(row, c.verified, c.verified + {image}, c.guest);
    }
  }

  lemma MoreDoneHolds(row: OpRow, verified: set<string>, more: set<string>, g: Guest)
    requires DoneHolds(row, verified, g) && verified <= more
    ensures DoneHolds(row, more, g)
  {
    forall k | 0 <= k < |row.steps| && Finished(row.steps[k]) ensures Satisfied(row.steps[k].input, more, g) {
      MoreImagesKeepSatisfied(row.steps[k].input, verified, more, g);
    }
  }

  lemma VerifiedKeepsPc(c: Core, image: string, pc: Pc)
    requires PcOk(c, pc)
    ensures PcOk(c.(verified := c.verified + {image}), pc)
  {
    match pc
    case Calling(op, steps, i, input, entry) =>
      MoreDoneHolds(c.db.operations[op], c.verified, c.verified + {image}, entry);
    case _ =>
  }

  lemma AdvanceShape(s: State, p: Pid, act: Act)
    requires p in s.procs && CanAct(s.core, s.procs[p], act)
    ensures var t := After(s, p, Advance(act));
            && t.core == ActCore(s.core, s.procs[p], act) && t.holder == s.holder
            && p in t.procs && t.procs[p] == ActPc(s.core, s.procs[p], act)
  {
  }

  lemma ActorHolds(s: State, p: Pid, act: Act)
    requires Locks(s) && p in s.procs && CanAct(s.core, s.procs[p], act)
    ensures s.holder == Some(p)
  {
    assert Holds(s.procs[p]);
  }

  lemma AdvanceKeepsInv(s: State, p: Pid, act: Act)
    requires Inv(s) && p in s.procs && CanAct(s.core, s.procs[p], act)
    ensures Inv(After(s, p, Advance(act)))
  {
    ActorHolds(s, p, act);
    ActKeepsCore(s.core, s.procs[p], act);
    PastCoversCalls(s.core, s.procs[p]);
    ActKeepsPc(s.core, s.procs[p], act);
    ActKeepsLocks(s, p, act);
    AdvanceShape(s, p, act);
  }

  lemma ActKeepsLocks(s: State, p: Pid, act: Act)
    requires Locks(s) && p in s.procs && CanAct(s.core, s.procs[p], act)
    ensures Locks(After(s, p, Advance(act)))
  {
    assert Holds(ActPc(s.core, s.procs[p], act)) && Holds(s.procs[p]);
  }

  lemma OtherStepsKeepLocks(s: State, p: Pid, l: Label)
    requires Locks(s) && Enabled(s, p, l) && !l.Advance?
    ensures Locks(After(s, p, l))
  {
  }

  lemma StepKeepsInv(s: State, p: Pid, l: Label)
    requires Inv(s) && Enabled(s, p, l)
    ensures Inv(After(s, p, l))
  {
    if l.Advance? {
      AdvanceKeepsInv(s, p, l.act);
    } else {
      OtherStepsKeepLocks(s, p, l);
      OtherStepsKeepCore(s, p, l);
      OtherStepsKeepPc(s, p, l);
    }
  }

  lemma OtherStepsKeepCore(s: State, p: Pid, l: Label)
    requires CoreOk(s.core) && Enabled(s, p, l) && !l.Advance?
    ensures CoreOk(After(s, p, l).core)
  {
    match l
    case Commit(preparation) => PrepareKeepsCore(s.core, preparation, s.procs[p].stamp);
    case ImageVerified(image) => VerifiedKeepsCore(s.core, image);
    case _ =>
  }

  lemma OtherStepsKeepPc(s: State, p: Pid, l: Label)
    requires Inv(s) && Enabled(s, p, l) && !l.Advance?
    ensures var t := After(s, p, l);
            t.holder.Some? && t.holder.value in t.procs ==> PcOk(t.core, t.procs[t.holder.value])
  {
    match l
    case ImageVerified(image) =>
      if s.holder.Some? && s.holder.value in s.procs {
        VerifiedKeepsPc(s.core, image, s.procs[s.holder.value]);
      }
    case Commit(preparation) => assert Holds(s.procs[p]);
    case _ =>
  }

  /** Every state of every run satisfies the invariant, whatever the processes, crashes and driver results. */
  lemma RunKeepsInv(states: seq<State>, i: nat)
    requires IsRun(states) && i < |states|
    ensures Inv(states[i])
  {
    if i == 0 {
      InitialInv(states[0]);
    } else {
      RunKeepsInv(states, i - 1);
      assert Follows(states, i - 1);
      var p, l :| Enabled(states[i - 1], p, l) && states[i] == After(states[i - 1], p, l);
      StepKeepsInv(states[i - 1], p, l);
    }
  }
}
