/** Every step of a Run keeps the invariant. */
module Preservation {
  import opened Prelude
  import opened Planner
  import opened Guests
  import opened Journal
  import opened Protocol
  import opened Invariant

  // ----- replacing one operation row

  /** A later version of an operation row: same plan, stamp and number of steps. */
  predicate SamePlace(was: OpRow, row: OpRow) {
    row.plan == was.plan && row.createdAt == was.createdAt && |row.steps| == |was.steps|
  }

  /** ... and the same steps are finished. */
  predicate SameFrontier(was: OpRow, row: OpRow) {
    SamePlace(was, row)
    && forall k :: 0 <= k < |row.steps| ==>
         Finished(row.steps[k]) == Finished(was.steps[k]) && row.steps[k].input == was.steps[k].input
  }

  predicate SameOrder(ops: map<OpId, OpRow>, more: map<OpId, OpRow>) {
    forall o <- ops :: o in more && more[o].createdAt == ops[o].createdAt && more[o].plan == ops[o].plan
  }

  lemma OneAtATimeIsStable(ops: map<OpId, OpRow>, more: map<OpId, OpRow>, h: History)
    requires SameOrder(ops, more) && OneAtATime(ops, h)
    ensures OneAtATime(more, h)
  {
  }

  lemma PutKeepsOrder(ops: map<OpId, OpRow>, o: OpId, row: OpRow)
    requires o in ops && SamePlace(ops[o], row)
    ensures forall a, b :: a in ops && b in ops ==> NotAfter(ops[o := row], a, b) == NotAfter(ops, a, b)
    ensures forall a :: IsLatest(ops[o := row], a) == IsLatest(ops, a)
  {
    var next := ops[o := row];
    assert next.Keys == ops.Keys;
    forall a | a in ops ensures IsLatest(next, a) == IsLatest(ops, a) {
      if IsLatest(ops, a) {
        forall other | other in next ensures NotAfter(next, other, a) { assert NotAfter(ops, other, a); }
      }
      if IsLatest(next, a) {
        forall other | other in ops ensures NotAfter(ops, other, a) { assert NotAfter(next, other, a); }
      }
    }
  }

  lemma PutKeepsRows(site: Site, name: Name, ops: map<OpId, OpRow>, o: OpId, row: OpRow)
    requires RowsOk(site, name, ops) && o in ops && row.plan == ops[o].plan && RowOk(row)
    ensures RowsOk(site, name, ops[o := row])
  {
  }

  lemma PutKeepsLife(db: Db, o: OpId, row: OpRow)
    requires Life(db) && o in db.operations && row.plan == db.operations[o].plan
    ensures Life(WithOp(db, o, row))
  {
    if db.resource.Some? {
      var planned :| planned in db.operations && db.operations[planned].plan == db.effective.value.plan;
      assert WithOp(db, o, row).operations[planned].plan == db.effective.value.plan;
    }
  }

  /** An executor writes the row of the current operation and nothing is added to the past. */
  lemma PutKeepsPast(ops: map<OpId, OpRow>, h: History, o: OpId, row: OpRow)
    requires PastOk(ops, h) && LastStarted(h) == Some(o) && SamePlace(ops[o], row) && RowTellsPast(row, o, h)
    ensures PastOk(ops[o := row], h)
  {
    var next := ops[o := row];
    PutKeepsOrder(ops, o, row);
    OneAtATimeIsStable(ops, next, h);
    forall other | other in next && Ahead(next, h, other) ensures Untouched(next[other]) {
      assert Ahead(ops, h, other);
    }
  }

  /** The events of a Run after its start, and the operation they belong to. */
  predicate IsEventOf(event: Event, o: OpId) {
    match event
    case Started(op) => op == o
    case Claimed(op, k) => op == o
    case Called(op, k) => op == o
    case Returned(op, k, ok) => op == o
    case Completed(op, k) => op == o
    case Concluded(op) => op == o
    case Rewound(op) => false
  }

  lemma EventKeepsPast(ops: map<OpId, OpRow>, h: History, o: OpId, row: OpRow, event: Event)
    requires PastOk(ops, h) && LastStarted(h) == Some(o) && SamePlace(ops[o], row) && IsEventOf(event, o)
    requires RowTellsPast(row, o, Snoc(h, event))
    requires event.Called? ==>
               && event.k < |row.plan.steps|
               && !FinishedIn(h, o, event.k) && (forall j: nat :: j < event.k ==> FinishedIn(h, o, j))
               && Calls(h, o, event.k) < Claims(h, o, event.k)
    requires event.Returned? ==> LastDriver(h) == Some(Called(o, event.k))
    requires event.Completed? ==> LastDriver(h) == Some(Returned(o, event.k, true))
    ensures PastOk(ops[o := row], Snoc(h, event))
  {
    var next, now := ops[o := row], Snoc(h, event);
    PutKeepsOrder(ops, o, row);
    OneAtATimeIsStable(ops, next, h);
    assert NotAfter(next, o, o);
    forall other | other in next && Ahead(next, now, other) ensures Untouched(next[other]) {
      assert Ahead(ops, h, other);
    }
    forall other | other in next ensures RowTellsPast(next[other], other, now) {
      if other != o { assert RowTellsPast(ops[other], other, h); }
    }
    assert OneAtATime(next, now) && CallsInOrder(now) && Paired(now);
    assert forall a, k: nat :: Calls(now, a, k) <= Claims(now, a, k);
  }

  lemma EventKeepsRest(ops: map<OpId, OpRow>, observations: seq<Observation>, h: History, verified: set<string>,
                       guest: Guest, origin: Guest, o: OpId, event: Event)
    requires LastStarted(h) == Some(o) && IsEventOf(event, o) && o in ops
    requires event.Called? || event.Returned? ==> !AllFinished(ops[o])
    requires EvidenceOk(ops, observations, h) && WorldsOk(ops, h, verified, guest, origin)
    ensures LastStarted(Snoc(h, event)) == Some(o)
    ensures EvidenceOk(ops, observations, Snoc(h, event)) && WorldsOk(ops, Snoc(h, event), verified, guest, origin)
  {
    assert LastStarted(Snoc(h, event)) == Some(o);
    assert event.Called? || event.Returned? || LastDriver(Snoc(h, event)) == LastDriver(h);
  }

  lemma SameResume(was: OpRow, row: OpRow, from: nat)
    requires SameFrontier(was, row) && from <= |row.steps|
    ensures ResumeFrom(row.steps, from) == ResumeFrom(was.steps, from)
    decreases |row.steps| - from
  {
  }

  lemma PutKeepsWorlds(ops: map<OpId, OpRow>, h: History, verified: set<string>, guest: Guest, origin: Guest,
                       o: OpId, row: OpRow)
    requires WorldsOk(ops, h, verified, guest, origin) && o in ops && SameFrontier(ops[o], row)
    ensures WorldsOk(ops[o := row], h, verified, guest, origin)
  {
    SameResume(ops[o], row, 0);
  }

  lemma PutKeepsEvidence(ops: map<OpId, OpRow>, observations: seq<Observation>, h: History, o: OpId, row: OpRow)
    requires EvidenceOk(ops, observations, h) && o in ops && SameFrontier(ops[o], row)
    ensures EvidenceOk(ops[o := row], observations, h)
  {
  }

  /** While the latest operation is not finished, neither verdict can stand. */
  lemma UnfinishedLatestMeansNoVerdict(effective: Option<EffectiveRow>, ops: map<OpId, OpRow>, h: History, o: OpId)
    requires VerdictsOk(effective, ops, h) && IsLatest(ops, o) && ops[o].status != Succeeded
    ensures !Verdict(effective)
  {
    if Verdict(effective) {
      LatestIsUnique(ops, o, LastStarted(h).value);
    }
  }

  /** A write to the executor's own row that moves the frontier nowhere, with the event that goes with it. */
  lemma WriteKeepsCore(c: Core, o: OpId, row: OpRow)
    requires CoreOk(c) && LastStarted(c.history) == Some(o) && o in c.db.operations && !Verdict(c.db.effective)
    requires RowOk(row) && SameFrontier(c.db.operations[o], row) && RowTellsPast(row, o, c.history)
    ensures CoreOk(c.(db := WithOp(c.db, o, row)))
  {
    var ops, h := c.db.operations, c.history;
    PutKeepsRows(c.site, c.name, ops, o, row);
    PutKeepsLife(c.db, o, row);
    PutKeepsPast(ops, h, o, row);
    PutKeepsEvidence(ops, c.db.observations, h, o, row);
    PutKeepsWorlds(ops, h, c.verified, c.guest, c.origin, o, row);
  }

  lemma WriteAndLogKeepsCore(c: Core, o: OpId, row: OpRow, event: Event)
    requires CoreOk(c) && LastStarted(c.history) == Some(o) && o in c.db.operations && !Verdict(c.db.effective)
    requires RowOk(row) && SameFrontier(c.db.operations[o], row) && IsEventOf(event, o)
    requires RowTellsPast(row, o, Snoc(c.history, event))
    requires !event.Called? && !event.Returned?
    requires event.Completed? ==> LastDriver(c.history) == Some(Returned(o, event.k, true))
    ensures CoreOk(Log(c.(db := WithOp(c.db, o, row)), event))
  {
    var ops, h := c.db.operations, c.history;
    PutKeepsRows(c.site, c.name, ops, o, row);
    PutKeepsLife(c.db, o, row);
    EventKeepsPast(ops, h, o, row, event);
    PutKeepsEvidence(ops, c.db.observations, h, o, row);
    PutKeepsWorlds(ops, h, c.verified, c.guest, c.origin, o, row);
    EventKeepsRest(ops[o := row], c.db.observations, h, c.verified, c.guest, c.origin, o, event);
  }

  // ----- versions of a row

  /** A step at the frontier may change in any way that leaves it unfinished. */
  lemma UnfinishedStep(was: OpRow, i: nat, row: OpRow)
    requires RowOk(was) && i < |was.steps| && !Finished(was.steps[i])
    requires forall j :: 0 <= j < i ==> Finished(was.steps[j])
    requires SamePlace(was, row) && row.status != Succeeded
    requires forall j :: 0 <= j < |row.steps| && j != i ==> row.steps[j] == was.steps[j]
    requires row.steps[i].input == was.steps[i].input && row.steps[i].inputDigest == was.steps[i].inputDigest
    requires row.steps[i].evidence == was.steps[i].evidence && !Finished(row.steps[i])
    ensures RowOk(row) && SameFrontier(was, row) && !AllFinished(row)
  {
  }

  lemma FinishedStep(was: OpRow, i: nat, row: OpRow)
    requires RowOk(was) && i < |was.steps| && !Finished(was.steps[i]) && was.status != Succeeded
    requires forall j :: 0 <= j < i ==> Finished(was.steps[j])
    requires SamePlace(was, row) && row.status == was.status
    requires forall j :: 0 <= j < |row.steps| && j != i ==> row.steps[j] == was.steps[j]
    requires row.steps[i].input == was.steps[i].input && row.steps[i].inputDigest == was.steps[i].inputDigest
    requires row.steps[i].evidence.Some? && Finished(row.steps[i])
    ensures RowOk(row)
    ensures ResumeStep(row) == i + 1
    ensures AllFinished(row) <==> i + 1 == |row.steps|
  {
    ResumeIs(row, i + 1);
  }

  lemma ResumeIs(row: OpRow, i: nat)
    requires i <= |row.steps| && (i < |row.steps| ==> !Finished(row.steps[i]))
    requires forall j :: 0 <= j < i ==> Finished(row.steps[j])
    ensures ResumeStep(row) == i
  {
    assert ResumeStep(row) >= i;
  }

  lemma DriverEventKeepsPast(ops: map<OpId, OpRow>, h: History, o: OpId, event: Event)
    requires PastOk(ops, h) && LastStarted(h) == Some(o) && (event.Called? || event.Returned?) && IsEventOf(event, o)
    requires event.Called? ==>
               && o in ops && event.k < |ops[o].plan.steps|
               && !FinishedIn(h, o, event.k) && (forall j: nat :: j < event.k ==> FinishedIn(h, o, j))
               && Calls(h, o, event.k) < Claims(h, o, event.k)
    requires event.Returned? ==> LastDriver(h) == Some(Called(o, event.k))
    ensures PastOk(ops, Snoc(h, event))
  {
    assert RowTellsPast(ops[o], o, h) && ops[o := ops[o]] == ops;
    EventKeepsPast(ops, h, o, ops[o], event);
  }

  /** An event of the current operation that comes with no write. */
  lemma LogKeepsCore(c: Core, o: OpId, event: Event)
    requires CoreOk(c) && LastStarted(c.history) == Some(o) && o in c.db.operations && !Verdict(c.db.effective)
    requires (event.Called? || event.Returned?) && IsEventOf(event, o) && !AllFinished(c.db.operations[o])
    requires event.Called? ==> event.k < |c.db.operations[o].plan.steps|
    requires event.Called? ==>
               && !FinishedIn(c.history, o, event.k) && (forall j: nat :: j < event.k ==> FinishedIn(c.history, o, j))
               && Calls(c.history, o, event.k) < Claims(c.history, o, event.k)
    requires event.Returned? ==> LastDriver(c.history) == Some(Called(o, event.k))
    ensures CoreOk(Log(c, event))
  {
    var ops, h := c.db.operations, c.history;
    DriverEventKeepsPast(ops, h, o, event);
    EventKeepsRest(ops, c.db.observations, h, c.verified, c.guest, c.origin, o, event);
  }

  // ----- the acts

  function FailedRow(row: OpRow, i: nat, code: ErrorCode, blocked: bool): OpRow
    requires i < |row.steps|
  {
    row.(status := if blocked then Blocked else Failed, error := Some(code),
         steps := row.steps[i := row.steps[i].(status := StepFailed, error := Some(code))])
  }

  lemma FailShape(c: Core, op: OpId, i: nat, code: ErrorCode, blocked: bool)
    requires HasStep(c.db, op, i)
    ensures FailCore(c, op, i, code, blocked)
            == c.(db := WithOp(c.db, op, FailedRow(c.db.operations[op], i, code, blocked)))
  {
  }

  lemma FailedRowOk(was: OpRow, i: nat, code: ErrorCode, blocked: bool, o: OpId, h: History)
    requires RowOk(was) && RowTellsPast(was, o, h) && i < |was.steps| && !Finished(was.steps[i])
    requires forall j :: 0 <= j < i ==> Finished(was.steps[j])
    ensures var row := FailedRow(was, i, code, blocked);
            RowOk(row) && SameFrontier(was, row) && RowTellsPast(row, o, h)
  {
    UnfinishedStep(was, i, FailedRow(was, i, code, blocked));
  }

  lemma FailKeeps(c: Core, op: OpId, steps: seq<StepRow>, i: nat, code: ErrorCode, blocked: bool)
    requires CoreOk(c) && InCall(c, op, steps, i)
    ensures CoreOk(FailCore(c, op, i, code, blocked))
  {
    UnfinishedLatestMeansNoVerdict(c.db.effective, c.db.operations, c.history, op);
    FailedRowOk(c.db.operations[op], i, code, blocked, op, c.history);
    FailShape(c, op, i, code, blocked);
    WriteKeepsCore(c, op, FailedRow(c.db.operations[op], i, code, blocked));
  }

  function StartedRow(row: OpRow): OpRow {
    row.(status := Running, attempts := row.attempts + 1, error := None)
  }

  lemma StartedRowOk(was: OpRow, o: OpId, h: History)
    requires RowOk(was) && RowTellsPast(was, o, h)
    ensures RowOk(StartedRow(was)) && SameFrontier(was, StartedRow(was))
    ensures RowTellsPast(StartedRow(was), o, Snoc(h, Started(o)))
  {
    assert forall k: nat :: Claims(Snoc(h, Started(o)), o, k) == Claims(h, o, k);
  }

  lemma StartShape(c: Core, op: OpId)
    requires op in c.db.operations && c.db.operations[op].status != Succeeded
    ensures var d := c.(db := WithOp(c.db, op, StartedRow(c.db.operations[op])));
            StartCore(c, op) == Log(d.(origin := StartCore(c, op).origin), Started(op))
            && StartCore(c, op).origin == if LastStarted(c.history) == Some(op) then c.origin else c.guest
  {
  }

  lemma RestartKeeps(c: Core, op: OpId)
    requires CoreOk(c) && LastStarted(c.history) == Some(op)
    requires IsLatest(c.db.operations, op) && c.db.operations[op].status != Succeeded
    ensures CoreOk(StartCore(c, op))
  {
    UnfinishedLatestMeansNoVerdict(c.db.effective, c.db.operations, c.history, op);
    StartedRowOk(c.db.operations[op], op, c.history);
    WriteAndLogKeepsCore(c, op, StartedRow(c.db.operations[op]), Started(op));
    StartShape(c, op);
  }

  lemma FirstStartKeepsPast(ops: map<OpId, OpRow>, h: History, o: OpId)
    requires PastOk(ops, h) && LastStarted(h) != Some(o) && IsLatest(ops, o)
    ensures Untouched(ops[o])
    ensures PastOk(ops[o := StartedRow(ops[o])], Snoc(h, Started(o)))
  {
    var next, now := ops[o := StartedRow(ops[o])], Snoc(h, Started(o));
    assert Ahead(ops, h, o);
    PutKeepsOrder(ops, o, StartedRow(ops[o]));
    OneAtATimeIsStable(ops, next, h);
    forall other | other in next ensures !Ahead(next, now, other) {
      assert NotAfter(next, other, o);
    }
    forall other | other in next ensures RowTellsPast(next[other], other, now) {
      assert RowTellsPast(ops[other], other, h);
    }
    assert OneAtATime(next, now) && CallsInOrder(now) && Paired(now);
    assert forall a, k: nat :: Calls(now, a, k) <= Claims(now, a, k);
  }

  lemma FirstStartWorlds(ops: map<OpId, OpRow>, h: History, verified: set<string>, guest: Guest, o: OpId,
                         observations: seq<Observation>)
    requires GuestOk(guest) && o in ops && RowOk(ops[o]) && LastStarted(h) == Some(o)
    requires forall k :: 0 <= k < |ops[o].steps| ==> ops[o].steps[k].status == StepPending
    ensures WorldsOk(ops, h, verified, guest, guest) && EvidenceOk(ops, observations, h)
  {
    var row := ops[o];
    PlanOrder(row.plan);
    assert !Finished(row.steps[0]);
    TouchReflexive(row.plan.steps[0], guest);
  }

  lemma FirstStartKeeps(c: Core, op: OpId)
    requires CoreOk(c) && LastStarted(c.history) != Some(op)
    requires IsLatest(c.db.operations, op) && c.db.operations[op].status != Succeeded
    ensures CoreOk(StartCore(c, op))
  {
    var ops, h := c.db.operations, c.history;
    var row := StartedRow(ops[op]);
    UnfinishedLatestMeansNoVerdict(c.db.effective, ops, h, op);
    FirstStartKeepsPast(ops, h, op);
    StartedRowOk(ops[op], op, h);
    PutKeepsRows(c.site, c.name, ops, op, row);
    PutKeepsLife(c.db, op, row);
    FirstStartWorlds(ops[op := row], Snoc(h, Started(op)), c.verified, c.guest, op, c.db.observations);
    StartShape(c, op);
  }

  lemma StartKeeps(c: Core, op: OpId, steps: seq<StepRow>)
    requires CoreOk(c) && PcOk(c, Starting(op, steps))
    ensures CoreOk(StartCore(c, op))
  {
    if LastStarted(c.history) == Some(op) {
      RestartKeeps(c, op);
    } else {
      FirstStartKeeps(c, op);
    }
  }

  lemma StartKeepsPc(c: Core, op: OpId, steps: seq<StepRow>)
    requires PcOk(c, Starting(op, steps))
    ensures PcOk(StartCore(c, op), Walking(op, steps, 0))
  {
    PutKeepsOrder(c.db.operations, op, StartedRow(c.db.operations[op]));
    StartShape(c, op);
  }

  function ClaimedRow(row: OpRow, i: nat): OpRow
    requires i < |row.steps|
  {
    row.(steps := row.steps[i := row.steps[i].(status := StepRunning, attempts := row.steps[i].attempts + 1, error := None)])
  }

  lemma ClaimedRowOk(was: OpRow, i: nat, o: OpId, h: History)
    requires RowOk(was) && RowTellsPast(was, o, h) && i < |was.steps| && !Finished(was.steps[i])
    requires was.status == Running && forall j :: 0 <= j < i ==> Finished(was.steps[j])
    ensures RowOk(ClaimedRow(was, i)) && SameFrontier(was, ClaimedRow(was, i))
    ensures RowTellsPast(ClaimedRow(was, i), o, Snoc(h, Claimed(o, i)))
  {
    UnfinishedStep(was, i, ClaimedRow(was, i));
  }

  lemma ClaimShape(c: Core, op: OpId, i: nat)
    requires HasStep(c.db, op, i)
    ensures ClaimCore(c, op, i) == Log(c.(db := WithOp(c.db, op, ClaimedRow(c.db.operations[op], i))), Claimed(op, i))
  {
  }

  lemma ClaimKeeps(c: Core, op: OpId, i: nat)
    requires CoreOk(c) && Owned(c, op) && HasStep(c.db, op, i) && !Finished(c.db.operations[op].steps[i])
    requires forall j :: 0 <= j < i ==> Finished(c.db.operations[op].steps[j])
    ensures CoreOk(ClaimCore(c, op, i))
  {
    UnfinishedLatestMeansNoVerdict(c.db.effective, c.db.operations, c.history, op);
    ClaimedRowOk(c.db.operations[op], i, op, c.history);
    ClaimShape(c, op, i);
    WriteAndLogKeepsCore(c, op, ClaimedRow(c.db.operations[op], i), Claimed(op, i));
  }

  lemma ClaimKeepsPc(c: Core, op: OpId, steps: seq<StepRow>, i: nat)
    requires Rows(c) && InStep(c, op, steps, i, i) && i < |steps| && !Finished(steps[i])
    requires Calls(c.history, op, i) <= Claims(c.history, op, i)
    ensures PcOk(ClaimCore(c, op, i), Checking(op, steps, i, ClaimedRow(c.db.operations[op], i).steps[i]))
  {
    var was := c.db.operations[op];
    assert RowOk(was);
    PutKeepsOrder(c.db.operations, op, ClaimedRow(was, i));
    ClaimedRowRuns(was, steps, i);
    ClaimShape(c, op, i);
  }

  lemma ClaimedRowRuns(was: OpRow, steps: seq<StepRow>, i: nat)
    requires RowOk(was) && i < |was.steps| == |steps| && !Finished(steps[i])
    requires forall j :: i <= j < |steps| ==> was.steps[j] == steps[j]
    requires forall j :: 0 <= j < i ==> Finished(was.steps[j])
    ensures var row := ClaimedRow(was, i);
            && row.steps[i].status == StepRunning && row.steps[i].evidence.None? && |row.steps| == |steps|
            && (forall j :: 0 <= j < i ==> Finished(row.steps[j]))
            && (forall j :: i + 1 <= j < |steps| ==> row.steps[j] == steps[j])
  {
  }

  lemma CallKeeps(c: Core, op: OpId, steps: seq<StepRow>, i: nat)
    requires CoreOk(c) && InCall(c, op, steps, i) && Calls(c.history, op, i) < Claims(c.history, op, i)
    ensures CoreOk(Log(c, Called(op, i)))
  {
    var row := c.db.operations[op];
    UnfinishedLatestMeansNoVerdict(c.db.effective, c.db.operations, c.history, op);
    assert RowTellsPast(row, op, c.history) && RowOk(row);
    forall j: nat | j < i ensures FinishedIn(c.history, op, j) {
      assert Finished(row.steps[j]);
    }
    LogKeepsCore(c, op, Called(op, i));
  }

  lemma CallingPc(c: Core, op: OpId, steps: seq<StepRow>, i: nat)
    requires Worlds(c) && Rows(c) && InCall(c, op, steps, i)
    ensures PcOk(Log(c, Called(op, i)), Calling(op, steps, i, c.db.operations[op].steps[i].input, c.guest))
  {
    TouchReflexive(c.db.operations[op].steps[i].input, c.guest);
  }

  lemma WorkKeepsDone(row: OpRow, i: nat, verified: set<string>, entry: Guest, guest: Guest)
    requires RowOk(row) && i < |row.steps| && !Finished(row.steps[i])
    requires DoneHolds(row, verified, entry) && Touch(row.steps[i].input, entry, guest) && GuestOk(entry)
    ensures DoneHolds(row, verified, guest)
  {
    PlanOrder(row.plan);
    forall k | 0 <= k < |row.steps| && Finished(row.steps[k]) ensures Satisfied(row.steps[k].input, verified, guest) {
      assert k < i;
      assert BelongsTo(row.plan.steps[k].action, row.plan.operation) && BelongsTo(row.plan.steps[i].action, row.plan.operation);
      assert SameTarget(row.plan.steps[k], row.plan.steps[i]);
      SatisfiedIsStable(row.steps[k].input, row.steps[i].input, verified, entry, guest);
    }
  }

  lemma WorkKeepsRefines(row: OpRow, i: nat, origin: Guest, entry: Guest, guest: Guest)
    requires RowOk(row) && i < |row.steps| && !Finished(row.steps[i])
    requires forall j :: 0 <= j < i ==> Finished(row.steps[j])
    requires Refines(row, origin, entry) && Touch(row.steps[i].input, entry, guest)
    ensures Refines(row, origin, guest)
  {
    ResumeIs(row, i);
    TouchTransitive(row.plan.steps[i], MadeBy(row.plan.steps, i, origin), entry, guest);
  }

  /** Whatever a call has done so far keeps every earlier postcondition and stays within its own footprint. */
  lemma WorkKeepsRow(row: OpRow, i: nat, verified: set<string>, origin: Guest, entry: Guest, guest: Guest)
    requires RowOk(row) && i < |row.steps| && !Finished(row.steps[i])
    requires forall j :: 0 <= j < i ==> Finished(row.steps[j])
    requires DoneHolds(row, verified, entry) && GuestOk(entry) && Touch(row.steps[i].input, entry, guest)
    requires row.plan.operation != Delete ==> Refines(row, origin, entry)
    ensures GuestOk(guest) && DoneHolds(row, verified, guest)
    ensures row.plan.operation != Delete ==> Refines(row, origin, guest)
  {
    TouchKeepsGuestOk(row.steps[i].input, entry, guest);
    WorkKeepsDone(row, i, verified, entry, guest);
    if row.plan.operation != Delete {
      WorkKeepsRefines(row, i, origin, entry, guest);
    }
  }

  lemma WorkKeeps(c: Core, op: OpId, steps: seq<StepRow>, i: nat, input: StepInput, entry: Guest, guest: Guest)
    requires CoreOk(c) && PcOk(c, Calling(op, steps, i, input, entry)) && Touch(input, entry, guest)
    ensures CoreOk(c.(guest := guest))
  {
    var row := c.db.operations[op];
    assert RowOk(row);
    WorkKeepsRow(row, i, c.verified, c.origin, entry, guest);
  }

  lemma WorkKeepsPc(c: Core, op: OpId, steps: seq<StepRow>, i: nat, input: StepInput, entry: Guest, guest: Guest)
    requires PcOk(c, Calling(op, steps, i, input, entry)) && Touch(input, entry, guest)
    ensures PcOk(c.(guest := guest), Calling(op, steps, i, input, entry))
  {
  }

  lemma ReturnKeeps(c: Core, op: OpId, steps: seq<StepRow>, i: nat, ok: bool)
    requires CoreOk(c) && InCall(c, op, steps, i) && LastDriver(c.history) == Some(Called(op, i))
    ensures CoreOk(Log(c, Returned(op, i, ok)))
  {
    UnfinishedLatestMeansNoVerdict(c.db.effective, c.db.operations, c.history, op);
    assert !Finished(c.db.operations[op].steps[i]);
    LogKeepsCore(c, op, Returned(op, i, ok));
  }

  lemma RecordKeeps(c: Core, observation: Observation)
    requires CoreOk(c)
    ensures CoreOk(c.(db := RecordObservation(c.db, observation)))
  {
    forall row | OnRecord(c.db.observations, row)
      ensures OnRecord(c.db.observations + [observation], row)
    {
    }
  }

  function CompletedRow(row: OpRow, i: nat, result: Result): OpRow
    requires i < |row.steps|
  {
    row.(steps := row.steps[i := row.steps[i].(status := if result.skipped then StepSkipped else StepSucceeded,
                                               evidence := Some(result.evidence), error := None)])
  }

  lemma CompleteShape(c: Core, op: OpId, i: nat, result: Result)
    requires HasStep(c.db, op, i)
    ensures CompleteCore(c, op, i, result)
            == Log(c.(db := WithOp(c.db, op, CompletedRow(c.db.operations[op], i, result))), Completed(op, i))
  {
  }

  lemma CompletedRowOk(was: OpRow, i: nat, result: Result, o: OpId, h: History)
    requires RowOk(was) && RowTellsPast(was, o, h) && i < |was.steps| && !Finished(was.steps[i])
    requires was.status == Running && forall j :: 0 <= j < i ==> Finished(was.steps[j])
    ensures var row := CompletedRow(was, i, result);
            && RowOk(row) && SamePlace(was, row) && ResumeStep(was) == i && ResumeStep(row) == i + 1
            && (AllFinished(row) <==> i + 1 == |row.steps|)
            && RowTellsPast(row, o, Snoc(h, Completed(o, i)))
  {
    FinishedStep(was, i, CompletedRow(was, i, result));
    ResumeIs(was, i);
    assert forall k: nat :: Claims(Snoc(h, Completed(o, i)), o, k) == Claims(h, o, k);
  }

  /** Finishing the last step puts the observation of the operation on record. */
  lemma CompletedIsOnRecord(was: OpRow, i: nat, result: Result, verified: set<string>, guest: Guest,
                            observations: seq<Observation>)
    requires RowOk(was) && i + 1 == |was.steps|
    requires Contract(was.plan.steps[i], verified, guest, result) && result.ok
    requires result.observation.Some? ==> result.observation.value.(plan := Some(was.plan)) in observations
    ensures OnRecord(observations, CompletedRow(was, i, result))
  {
    PlanOrder(was.plan);
    SuccessfulObservation(was.plan.steps[i], verified, guest, result);
    assert result.observation.value.(plan := Some(was.plan)) in observations;
  }

  lemma CompletedRefines(row: OpRow, next: OpRow, i: nat, verified: set<string>, origin: Guest, guest: Guest)
    requires RowOk(row) && i < |row.steps| && ResumeStep(row) == i && ResumeStep(next) == i + 1
    requires SamePlace(row, next)
    requires Refines(row, origin, guest) && Satisfied(row.plan.steps[i], verified, guest) && GuestOk(guest)
    ensures Refines(next, origin, guest)
  {
    SuccessAbsorbsInterruptions(row.plan.steps[i], verified, MadeBy(row.plan.steps, i, origin), guest);
    if i + 1 < |next.steps| {
      TouchReflexive(row.plan.steps[i + 1], guest);
    }
  }

  lemma CompletedDone(was: OpRow, i: nat, result: Result, verified: set<string>, guest: Guest)
    requires i < |was.steps| && DoneHolds(was, verified, guest) && Satisfied(was.steps[i].input, verified, guest)
    ensures DoneHolds(CompletedRow(was, i, result), verified, guest)
  {
  }

  lemma CompleteKeepsWorlds(ops: map<OpId, OpRow>, h: History, verified: set<string>, guest: Guest, origin: Guest,
                            o: OpId, i: nat, result: Result)
    requires o in ops && i < |ops[o].steps| && RowOk(ops[o])
    requires WorldsOk(ops, h, verified, guest, origin) && LastStarted(h) == Some(o)
    requires ResumeStep(ops[o]) == i && ResumeStep(CompletedRow(ops[o], i, result)) == i + 1
    requires Satisfied(ops[o].plan.steps[i], verified, guest)
    ensures WorldsOk(ops[o := CompletedRow(ops[o], i, result)], Snoc(h, Completed(o, i)), verified, guest, origin)
  {
    var row := CompletedRow(ops[o], i, result);
    assert DoneHolds(ops[o], verified, guest);
    CompletedDone(ops[o], i, result, verified, guest);
    if row.plan.operation != Delete {
      assert Refines(ops[o], origin, guest);
      CompletedRefines(ops[o], row, i, verified, origin, guest);
    }
  }

  lemma CompleteKeepsEvidence(ops: map<OpId, OpRow>, h: History, observations: seq<Observation>, o: OpId, i: nat,
                              result: Result)
    requires o in ops && i < |ops[o].steps| && LastStarted(h) == Some(o)
    requires AllFinished(CompletedRow(ops[o], i, result)) <==> i + 1 == |ops[o].steps|
    requires LastDriver(h) == Some(Returned(o, i, true))
    requires i + 1 == |ops[o].steps| ==> OnRecord(observations, CompletedRow(ops[o], i, result))
    ensures EvidenceOk(ops[o := CompletedRow(ops[o], i, result)], observations, Snoc(h, Completed(o, i)))
  {
  }

  lemma CompleteKeeps(c: Core, op: OpId, steps: seq<StepRow>, i: nat, result: Result)
    requires CoreOk(c) && PcOk(c, Settling(op, steps, i, result)) && result.ok
    ensures CoreOk(CompleteCore(c, op, i, result))
  {
    var ops, h := c.db.operations, c.history;
    var row := CompletedRow(ops[op], i, result);
    assert RowOk(ops[op]) && RowTellsPast(ops[op], op, h);
    UnfinishedLatestMeansNoVerdict(c.db.effective, ops, h, op);
    CompletedRowOk(ops[op], i, result, op, h);
    CompleteShape(c, op, i, result);
    PutKeepsRows(c.site, c.name, ops, op, row);
    PutKeepsLife(c.db, op, row);
    EventKeepsPast(ops, h, op, row, Completed(op, i));
    CompleteKeepsWorlds(ops, h, c.verified, c.guest, c.origin, op, i, result);
    if i + 1 == |row.steps| {
      CompletedIsOnRecord(ops[op], i, result, c.verified, c.guest, c.db.observations);
    }
    CompleteKeepsEvidence(ops, h, c.db.observations, op, i, result);
  }

  lemma CompleteKeepsPc(c: Core, op: OpId, steps: seq<StepRow>, i: nat, result: Result)
    requires PcOk(c, Settling(op, steps, i, result))
    ensures PcOk(CompleteCore(c, op, i, result), Walking(op, steps, i + 1))
  {
    CompleteShape(c, op, i, result);
    PutKeepsOrder(c.db.operations, op, CompletedRow(c.db.operations[op], i, result));
  }

  function ConcludedRow(row: OpRow): OpRow {
    row.(status := Succeeded, error := None)
  }

  lemma ConcludedRowOk(was: OpRow, o: OpId, h: History)
    requires RowOk(was) && RowTellsPast(was, o, h) && AllFinished(was)
    ensures RowOk(ConcludedRow(was)) && SameFrontier(was, ConcludedRow(was))
    ensures RowTellsPast(ConcludedRow(was), o, Snoc(h, Concluded(o)))
  {
    assert forall k: nat :: Claims(Snoc(h, Concluded(o)), o, k) == Claims(h, o, k);
  }

  lemma ConcludeKeepsLife(db: Db, o: OpId, absent: bool)
    requires Life(db) && o in db.operations && Visible(db) && db.effective.Some? && db.allocation.Some?
    ensures Life(CompleteOperation(db, o, absent))
  {
    PutKeepsLife(db, o, ConcludedRow(db.operations[o]));
    var next := CompleteOperation(db, o, absent);
    var planned :| planned in db.operations && db.operations[planned].plan == db.effective.value.plan;
    assert next.operations[planned].plan == next.effective.value.plan;
  }

  lemma ConcludedWorlds(ops: map<OpId, OpRow>, observations: seq<Observation>, h: History, verified: set<string>,
                        guest: Guest, origin: Guest, o: OpId)
    requires o in ops && LastStarted(h) == Some(o) && SameFrontier(ops[o], ConcludedRow(ops[o]))
    requires EvidenceOk(ops, observations, h) && WorldsOk(ops, h, verified, guest, origin)
    ensures EvidenceOk(ops[o := ConcludedRow(ops[o])], observations, Snoc(h, Concluded(o)))
    ensures WorldsOk(ops[o := ConcludedRow(ops[o])], Snoc(h, Concluded(o)), verified, guest, origin)
  {
    var row := ConcludedRow(ops[o]);
    PutKeepsEvidence(ops, observations, h, o, row);
    PutKeepsWorlds(ops, h, verified, guest, origin, o, row);
    EventKeepsRest(ops[o := row], observations, h, verified, guest, origin, o, Concluded(o));
  }

  lemma ConcludedPast(ops: map<OpId, OpRow>, h: History, o: OpId)
    requires o in ops && PastOk(ops, h) && LastStarted(h) == Some(o) && RowOk(ops[o]) && AllFinished(ops[o])
    ensures RowOk(ConcludedRow(ops[o])) && SameFrontier(ops[o], ConcludedRow(ops[o]))
    ensures PastOk(ops[o := ConcludedRow(ops[o])], Snoc(h, Concluded(o)))
  {
    assert RowTellsPast(ops[o], o, h);
    ConcludedRowOk(ops[o], o, h);
    EventKeepsPast(ops, h, o, ConcludedRow(ops[o]), Concluded(o));
  }

  /** The rows that a conclusion writes are there. */
  predicate RowsAreThere(c: Core, op: OpId) {
    op in c.db.operations && c.db.resource.Some? && c.db.effective.Some? && c.db.allocation.Some?
  }

  lemma ConcludeKeeps(c: Core, op: OpId)
    requires RowsAreThere(c, op) && CoreOk(c) && Owned(c, op) && AllFinished(c.db.operations[op])
    ensures CoreOk(ConcludeCore(c, op))
  {
    var ops, h := c.db.operations, c.history;
    ConcludedPast(ops, h, op);
    ConcludedWorlds(ops, c.db.observations, h, c.verified, c.guest, c.origin, op);
    ConcludeKeepsLife(c.db, op, ops[op].plan.operation == Delete);
    PutKeepsRows(c.site, c.name, ops, op, ConcludedRow(ops[op]));
    PutKeepsOrder(ops, op, ConcludedRow(ops[op]));
  }
}
