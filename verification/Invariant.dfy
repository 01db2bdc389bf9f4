/** What every reachable state of the protocol satisfies. */
module Invariant {
  import opened Prelude
  import opened Planner
  import opened Guests
  import opened Journal
  import opened Protocol

  // ----- functions of the recorded past

  /** Step `k` of `op` has completed and has not been reset since. */
  predicate FinishedIn(h: History, op: OpId, k: nat) {
    match h
    case Nil => false
    case Snoc(past, Completed(o, j)) => (o == op && j == k) || FinishedIn(past, op, k)
    case Snoc(past, Rewound(o)) => o != op && FinishedIn(past, op, k)
    case Snoc(past, _) => FinishedIn(past, op, k)
  }

  function Claims(h: History, op: OpId, k: nat): nat {
    match h
    case Nil => 0
    case Snoc(past, last) => Claims(past, op, k) + if last == Claimed(op, k) then 1 else 0
  }

  function Calls(h: History, op: OpId, k: nat): nat {
    match h
    case Nil => 0
    case Snoc(past, last) => Calls(past, op, k) + if last == Called(op, k) then 1 else 0
  }

  /** The most recent driver event: a call still open, or the return of the last call. */
  function LastDriver(h: History): Option<Event> {
    match h
    case Nil => None
    case Snoc(past, Called(o, j)) => Some(Called(o, j))
    case Snoc(past, Returned(o, j, ok)) => Some(Returned(o, j, ok))
    case Snoc(past, _) => LastDriver(past)
  }

  /** Steps are called in order: never again once complete, never before all predecessors are. */
  ghost predicate CallsInOrder(h: History) {
    match h
    case Nil => true
    case Snoc(past, Called(op, k)) =>
      CallsInOrder(past) && !FinishedIn(past, op, k) && forall j: nat :: j < k ==> FinishedIn(past, op, j)
    case Snoc(past, _) => CallsInOrder(past)
  }

  /** A call returns before the next begins, and a step completes right after its call succeeded. */
  predicate Paired(h: History) {
    match h
    case Nil => true
    case Snoc(past, Returned(op, k, ok)) => Paired(past) && LastDriver(past) == Some(Called(op, k))
    case Snoc(past, Completed(op, k)) => Paired(past) && LastDriver(past) == Some(Returned(op, k, true))
    case Snoc(past, _) => Paired(past)
  }

  /** Everything an executor does belongs to the operation started last, and starts never go back. */
  predicate OneAtATime(ops: map<OpId, OpRow>, h: History) {
    match h
    case Nil => true
    case Snoc(past, Started(op)) =>
      OneAtATime(ops, past) && op in ops
      && (LastStarted(past).Some? ==> LastStarted(past).value in ops && NotAfter(ops, LastStarted(past).value, op))
    case Snoc(past, Rewound(op)) => OneAtATime(ops, past) && op in ops && ops[op].plan.operation == Reconcile
    case Snoc(past, Claimed(op, k)) => OneAtATime(ops, past) && LastStarted(past) == Some(op)
    case Snoc(past, Called(op, k)) =>
      OneAtATime(ops, past) && LastStarted(past) == Some(op) && op in ops && k < |ops[op].plan.steps|
    case Snoc(past, Returned(op, k, ok)) => OneAtATime(ops, past) && LastStarted(past) == Some(op)
    case Snoc(past, Completed(op, k)) => OneAtATime(ops, past) && LastStarted(past) == Some(op)
    case Snoc(past, Concluded(op)) => OneAtATime(ops, past) && LastStarted(past) == Some(op)
  }

  /** The world after the first `k` steps of an operation that removes nothing, run without interruption. */
  function MadeBy(steps: seq<StepInput>, k: nat, origin: Guest): Guest
    requires k <= |steps| && forall i :: 0 <= i < k ==> !IsRemoval(steps[i].action)
  {
    if k == 0 then origin else Effect(steps[k - 1], MadeBy(steps, k - 1, origin))
  }

  // ----- the invariant

  ghost predicate Locks(s: State) {
    && (s.holder.Some? ==> s.holder.value in s.procs)
    && forall p <- s.procs :: Holds(s.procs[p]) <==> s.holder == Some(p)
  }

  predicate AllFinished(row: OpRow) {
    forall i :: 0 <= i < |row.steps| ==> Finished(row.steps[i])
  }

  /** The journal frontier of one operation. */
  ghost predicate RowOk(row: OpRow) {
    && WellPlanned(row.plan)
    && |row.steps| == |row.plan.steps|
    && (forall i :: 0 <= i < |row.steps| ==>
          row.steps[i].input == row.plan.steps[i] && row.steps[i].inputDigest == ShaInput(row.plan.steps[i]))
    && (forall i :: 0 <= i < |row.steps| ==> (Finished(row.steps[i]) <==> row.steps[i].evidence.Some?))
    && (forall i, j :: 0 <= i < j < |row.steps| && !Finished(row.steps[i]) ==> row.steps[j].status == StepPending)
    && (row.status == Succeeded ==> AllFinished(row))
  }

  predicate Untouched(row: OpRow) {
    row.status == Pending
    && forall i :: 0 <= i < |row.steps| ==>
         row.steps[i].status == StepPending && row.steps[i].evidence.None? && row.steps[i].attempts == 0
  }

  predicate PlanFromSite(site: Site, plan: Plan) {
    forall k :: 0 <= k < |plan.steps| ==> FromSite(site, plan.steps[k])
  }

  ghost predicate RowsOk(site: Site, name: Name, ops: map<OpId, OpRow>) {
    && SiteOk(site)
    && (forall o <- ops :: RowOk(ops[o]) && ops[o].plan.resource == name && PlanFromSite(site, ops[o].plan))
    && (forall a <- ops, b <- ops :: ops[a].plan == ops[b].plan ==> a == b)
  }

  predicate Advances(specs: map<nat, Spec>, g: nat) {
    g in specs && g + 1 in specs && specs[g] != specs[g + 1]
  }

  ghost predicate Generations(db: Db) {
    if db.resource.None? then db.specs == map[]
    else
      var current := db.resource.value.generation;
      && current >= 1
      && (forall g: nat :: g in db.specs <==> 1 <= g <= current)
      && (forall g: nat :: 1 <= g < current ==> Advances(db.specs, g))
  }

  ghost predicate Life(db: Db) {
    && Generations(db)
    && (db.resource.None? ==> db.operations == map[])
    && (db.resource.Some? <==> db.allocation.Some?)
    && (db.resource.Some? <==> db.effective.Some?)
    && (db.resource.Some? ==>
          && (db.resource.value.archived <==> db.allocation.value.released)
          && (db.resource.value.archived <==> db.effective.value.state == Absent)
          && exists o :: o in db.operations && db.operations[o].plan == db.effective.value.plan)
  }

  /** Not started yet: strictly after the current operation, or any when there is none. */
  predicate Ahead(ops: map<OpId, OpRow>, h: History, o: OpId)
    requires o in ops
  {
    var current := LastStarted(h);
    current.None? || (current.value in ops && o != current.value && NotAfter(ops, current.value, o))
  }

  /** What the rows say about finished steps and attempts is what happened. */
  predicate RowTellsPast(row: OpRow, o: OpId, h: History) {
    forall k: nat :: k < |row.steps| ==>
      Finished(row.steps[k]) == FinishedIn(h, o, k) && row.steps[k].attempts == Claims(h, o, k)
  }

  ghost predicate PastOk(ops: map<OpId, OpRow>, h: History) {
    && OneAtATime(ops, h)
    && CallsInOrder(h) && Paired(h)
    && (LastStarted(h).Some? ==> LastStarted(h).value in ops)
    && (forall o <- ops :: Ahead(ops, h, o) ==> Untouched(ops[o]))
    && (forall o <- ops :: RowTellsPast(ops[o], o, h))
    && (forall o, k: nat :: Calls(h, o, k) <= Claims(h, o, k))
  }

  predicate OnRecord(observations: seq<Observation>, row: OpRow) {
    |row.plan.steps| > 0
    && exists o <- observations ::
         o.plan == Some(row.plan)
         && if row.plan.operation == Delete then ReportsAbsence(row.plan.steps[|row.plan.steps| - 1], o)
            else ReportsPresence(row.plan.steps[|row.plan.steps| - 1], o)
  }

  /** Once every step of the current operation is finished, its observation was the last driver call. */
  ghost predicate EvidenceOk(ops: map<OpId, OpRow>, observations: seq<Observation>, h: History) {
    var current := LastStarted(h);
    current.Some? && current.value in ops ==>
      var row := ops[current.value];
      AllFinished(row) ==>
        |row.steps| > 0
        && LastDriver(h) == Some(Returned(current.value, |row.steps| - 1, true)) && OnRecord(observations, row)
  }

  predicate Verdict(effective: Option<EffectiveRow>) {
    effective.Some? && effective.value.state in {Converged, Absent}
  }

  predicate VerdictsOk(effective: Option<EffectiveRow>, ops: map<OpId, OpRow>, h: History) {
    Verdict(effective) ==>
      var current := LastStarted(h);
      && current.Some? && IsLatest(ops, current.value) && ops[current.value].status == Succeeded
      && (effective.value.state == Absent <==> ops[current.value].plan.operation == Delete)
  }

  predicate DoneHolds(row: OpRow, verified: set<string>, g: Guest) {
    forall k :: 0 <= k < |row.steps| && Finished(row.steps[k]) ==> Satisfied(row.steps[k].input, verified, g)
  }

  /** The guest is what the finished steps made of `origin`, up to an interrupted call of the next step. */
  ghost predicate Refines(row: OpRow, origin: Guest, g: Guest) {
    && |row.steps| == |row.plan.steps|
    && (forall i :: 0 <= i < |row.plan.steps| ==> !IsRemoval(row.plan.steps[i].action))
    && var k := ResumeStep(row);
       var made := MadeBy(row.plan.steps, k, origin);
       if k < |row.steps| then Touch(row.plan.steps[k], made, g) else g == made
  }

  ghost predicate WorldsOk(ops: map<OpId, OpRow>, h: History, verified: set<string>, guest: Guest, origin: Guest) {
    && GuestOk(guest)
    && var current := LastStarted(h);
       current.Some? && current.value in ops ==>
         var row := ops[current.value];
         GuestOk(origin) && DoneHolds(row, verified, guest)
         && (row.plan.operation != Delete ==> Refines(row, origin, guest))
  }

  /** The executor's operation: the latest, started, and on a resource that is not archived. */
  predicate Owned(c: Core, op: OpId) {
    && Visible(c.db) && IsLatest(c.db.operations, op)
    && LastStarted(c.history) == Some(op) && c.db.operations[op].status == Running
  }

  /** The snapshot still agrees with the rows from `from` on, and everything before `i` is finished. */
  predicate InStep(c: Core, op: OpId, steps: seq<StepRow>, i: nat, from: nat) {
    && Owned(c, op)
    && var rows := c.db.operations[op].steps;
       |rows| == |steps| && i <= |steps|
       && (forall j :: 0 <= j < i ==> Finished(rows[j]))
       && (forall j :: from <= j < |steps| ==> rows[j] == steps[j])
  }

  predicate InCall(c: Core, op: OpId, steps: seq<StepRow>, i: nat) {
    InStep(c, op, steps, i, i + 1) && i < |steps| && c.db.operations[op].steps[i].status == StepRunning
    && c.db.operations[op].steps[i].evidence.None?
  }

  ghost predicate PcOk(c: Core, pc: Pc) {
    match pc
    case Loading(op) =>
      Visible(c.db) && IsLatest(c.db.operations, op) && c.db.operations[op].status != Succeeded
    case Starting(op, steps) =>
      Visible(c.db) && IsLatest(c.db.operations, op) && c.db.operations[op].status != Succeeded
      && steps == c.db.operations[op].steps
    case Walking(op, steps, i) => InStep(c, op, steps, i, i)
    case Checking(op, steps, i, claimed) =>
      InCall(c, op, steps, i) && claimed == c.db.operations[op].steps[i]
      && Calls(c.history, op, i) < Claims(c.history, op, i)
    case Calling(op, steps, i, input, entry) =>
      && InCall(c, op, steps, i) && input == c.db.operations[op].steps[i].input
      && LastDriver(c.history) == Some(Called(op, i))
      && GuestOk(entry) && Touch(input, entry, c.guest)
      && DoneHolds(c.db.operations[op], c.verified, entry)
      && (c.db.operations[op].plan.operation != Delete ==> Refines(c.db.operations[op], c.origin, entry))
    case Reporting(op, steps, i, result) =>
      && InCall(c, op, steps, i)
      && Contract(c.db.operations[op].steps[i].input, c.verified, c.guest, result)
      && LastDriver(c.history) == Some(Returned(op, i, result.ok))
    case Settling(op, steps, i, result) =>
      && InCall(c, op, steps, i)
      && Contract(c.db.operations[op].steps[i].input, c.verified, c.guest, result)
      && LastDriver(c.history) == Some(Returned(op, i, result.ok))
      && (result.observation.Some? ==>
            result.observation.value.(plan := Some(c.db.operations[op].plan)) in c.db.observations)
    case Concluding(op) => Owned(c, op) && AllFinished(c.db.operations[op])
    case _ => true
  }

  ghost predicate Rows(c: Core) { RowsOk(c.site, c.name, c.db.operations) }

  ghost predicate Past(c: Core) { PastOk(c.db.operations, c.history) }

  ghost predicate Evidence(c: Core) { EvidenceOk(c.db.operations, c.db.observations, c.history) }

  ghost predicate Verdicts(c: Core) { VerdictsOk(c.db.effective, c.db.operations, c.history) }

  ghost predicate Worlds(c: Core) { WorldsOk(c.db.operations, c.history, c.verified, c.guest, c.origin) }

  ghost predicate CoreOk(c: Core) {
    Rows(c) && Life(c.db) && Past(c) && Evidence(c) && Verdicts(c) && Worlds(c)
  }

  ghost predicate Inv(s: State) {
    && Locks(s) && CoreOk(s.core)
    && (s.holder.Some? && s.holder.value in s.procs ==> PcOk(s.core, s.procs[s.holder.value]))
  }

  lemma InitialInv(s: State)
    requires Initial(s)
    ensures Inv(s)
  {
  }
}
