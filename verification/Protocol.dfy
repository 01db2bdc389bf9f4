/**
  The protocol that any number of processes follow on one resource: internal/execution/executor.go (Run),
  internal/state/postgres/execution_lock.go and the three preparations.

  Every database statement outside a transaction, every transaction, and every effect of a driver call is one
  step.  A process may disappear between any two steps (`Exit`), which is also how a Run that gives up after an
  error is modelled: the advisory lock belongs to the connection of the process and goes with it.  The fields
  `origin` and `history` record the past and influence nothing.
 */
module Protocol {
  import opened Prelude
  import opened Planner
  import opened Guests
  import opened Journal

  type Pid = nat

  datatype Event =
    | Started(op: OpId)
    | Claimed(op: OpId, k: nat)
    | Called(op: OpId, k: nat)
    | Returned(op: OpId, k: nat, ok: bool)
    | Completed(op: OpId, k: nat)
    | Concluded(op: OpId)
    | Rewound(op: OpId)

  datatype History = Nil | Snoc(past: History, last: Event)

  /** Where a process is, with the local variables of Run or of the preparation. */
  datatype Pc =
    | Locking
    | Inspecting
    | Loading(op: OpId)
    | Starting(op: OpId, steps: seq<StepRow>)
    | Walking(op: OpId, steps: seq<StepRow>, i: nat)
    | Checking(op: OpId, steps: seq<StepRow>, i: nat, claimed: StepRow)
    | Calling(op: OpId, steps: seq<StepRow>, i: nat, input: StepInput, entry: Guest)
    | Reporting(op: OpId, steps: seq<StepRow>, i: nat, result: Result)
    | Settling(op: OpId, steps: seq<StepRow>, i: nat, result: Result)
    | Concluding(op: OpId)
    | Leaving
    | Preparing(stamp: int)
    | Writing(stamp: int)

  /**
    What outlives the processes.  `verified` are the images whose cache entry verifies; `guest` is the world of
    this resource and `origin` what it was when the current operation was first started.
   */
  datatype Core = Core(site: Site, name: Name, db: Db, verified: set<string>, guest: Guest, origin: Guest,
                       history: History)

  datatype State = State(core: Core, holder: Option<Pid>, procs: map<Pid, Pc>)

  /** One step of Run after it has the execution key. */
  datatype Act =
    | Inspect(op: OpId)
    | Load
    | Start
    | Skip
    | Claim
    | RejectInput
    | Call
    | Work(guest: Guest)
    | Return(result: Result)
    | Record
    | RecordNothing
    | RecordFails
    | ReportFailure
    | Complete
    | Last
    | Conclude

  /** The write of a preparation's transaction; `op` is the operation it inserts or reuses. */
  datatype Preparation =
    | PrepareApplication(spec: Spec, found: Allocation, op: OpId)
    | PrepareDeletion(op: OpId)
    | PrepareReconciliation(op: OpId)

  datatype Label =
    | Enter
    | BeginPreparation(stamp: int)
    | TakeKey
    | Advance(act: Act)
    | Commit(preparation: Preparation)
    | Exit
    | ImageVerified(image: string)

  /** The pcs at which a process owns the execution key of the resource. */
  predicate Holds(pc: Pc) {
    !pc.Locking? && !pc.Preparing?
  }

  function LastStarted(h: History): Option<OpId> {
    match h
    case Nil => None
    case Snoc(past, Started(op)) => Some(op)
    case Snoc(past, _) => LastStarted(past)
  }

  function Log(c: Core, event: Event): Core {
    c.(history := Snoc(c.history, event))
  }

  // ----- Run, one statement or driver effect at a time

  ghost predicate CanAct(c: Core, pc: Pc, act: Act) {
    match act
    case Inspect(op) => pc.Inspecting? && Visible(c.db) && IsLatest(c.db.operations, op)
    case Load => pc.Loading? && pc.op in c.db.operations
    case Start => pc.Starting? && pc.op in c.db.operations
    case Skip => pc.Walking? && pc.i < |pc.steps| && Finished(pc.steps[pc.i])
    case Claim =>
      pc.Walking? && pc.i < |pc.steps| && !Finished(pc.steps[pc.i])
      && HasStep(c.db, pc.op, pc.i) && Claimable(c.db.operations[pc.op].steps[pc.i])
    case RejectInput =>
      pc.Checking? && HasStep(c.db, pc.op, pc.i) && pc.claimed.inputDigest != ShaInput(pc.claimed.input)
    case Call => pc.Checking? && pc.claimed.inputDigest == ShaInput(pc.claimed.input)
    case Work(guest) => pc.Calling? && Touch(pc.input, pc.entry, guest)
    case Return(result) => pc.Calling? && Contract(pc.input, c.verified, c.guest, result)
    case Record => pc.Reporting? && pc.result.observation.Some? && pc.op in c.db.operations
    case RecordNothing => pc.Reporting? && pc.result.observation.None?
    case RecordFails => (pc.Reporting? || pc.Settling?) && pc.result.observation.Some? && HasStep(c.db, pc.op, pc.i)
    case ReportFailure => pc.Settling? && !pc.result.ok && HasStep(c.db, pc.op, pc.i)
    case Complete => pc.Settling? && pc.result.ok && HasStep(c.db, pc.op, pc.i)
    case Last => pc.Walking? && pc.i >= |pc.steps|
    case Conclude =>
      pc.Concluding? && pc.op in c.db.operations
      && c.db.resource.Some? && c.db.effective.Some? && c.db.allocation.Some?
  }

  /** The operation started is the current one from here on; a new one begins from the present world. */
  function StartCore(c: Core, op: OpId): Core
    requires op in c.db.operations
  {
    Log(c.(db := StartOperation(c.db, op),
           origin := if LastStarted(c.history) == Some(op) then c.origin else c.guest), Started(op))
  }

  function ClaimCore(c: Core, op: OpId, i: nat): Core
    requires HasStep(c.db, op, i)
  {
    Log(c.(db := ClaimStep(c.db, op, i)), Claimed(op, i))
  }

  function FailCore(c: Core, op: OpId, i: nat, code: ErrorCode, blocked: bool): Core
    requires HasStep(c.db, op, i)
  {
    c.(db := FailStep(c.db, op, i, code, blocked))
  }

  function Stamped(c: Core, op: OpId, observation: Observation): Observation
    requires op in c.db.operations
  {
    observation.(plan := Some(c.db.operations[op].plan))
  }

  function CompleteCore(c: Core, op: OpId, i: nat, result: Result): Core
    requires HasStep(c.db, op, i)
  {
    Log(c.(db := CompleteStep(c.db, op, i, result.evidence, result.skipped)), Completed(op, i))
  }

  function ConcludeCore(c: Core, op: OpId): Core
    requires op in c.db.operations && c.db.resource.Some? && c.db.effective.Some? && c.db.allocation.Some?
  {
    Log(c.(db := CompleteOperation(c.db, op, c.db.operations[op].plan.operation == Delete)), Concluded(op))
  }

  function ActCore(c: Core, pc: Pc, act: Act): Core
    requires CanAct(c, pc, act)
  {
    match act
    case Start => StartCore(c, pc.op)
    case Claim => ClaimCore(c, pc.op, pc.i)
    case RejectInput => FailCore(c, pc.op, pc.i, InputMismatch, true)
    case Call => Log(c, Called(pc.op, pc.i))
    case Work(guest) => c.(guest := guest)
    case Return(result) => Log(c, Returned(pc.op, pc.i, result.ok))
    case Record => c.(db := RecordObservation(c.db, Stamped(c, pc.op, pc.result.observation.value)))
    case RecordFails => FailCore(c, pc.op, pc.i, ObservationNotPersisted, false)
    case ReportFailure =>
      FailCore(c, pc.op, pc.i, if pc.result.blocked then DriverBlocked else DriverFailed, pc.result.blocked)
    case Complete => CompleteCore(c, pc.op, pc.i, pc.result)
    case Conclude => ConcludeCore(c, pc.op)
    case _ => c
  }

  function ActPc(c: Core, pc: Pc, act: Act): Pc
    requires CanAct(c, pc, act)
  {
    match act
    case Inspect(op) => if c.db.operations[op].status == Succeeded then Leaving else Loading(op)
    case Load => Starting(pc.op, c.db.operations[pc.op].steps)
    case Start => Walking(pc.op, pc.steps, 0)
    case Skip => Walking(pc.op, pc.steps, pc.i + 1)
    case Claim => Checking(pc.op, pc.steps, pc.i, ClaimStep(c.db, pc.op, pc.i).operations[pc.op].steps[pc.i])
    case Call => Calling(pc.op, pc.steps, pc.i, pc.claimed.input, c.guest)
    case Work(_) => pc
    case Return(result) => Reporting(pc.op, pc.steps, pc.i, result)
    case Record | RecordNothing => Settling(pc.op, pc.steps, pc.i, pc.result)
    case Complete => Walking(pc.op, pc.steps, pc.i + 1)
    case Last => Concluding(pc.op)
    case RejectInput | RecordFails | ReportFailure | Conclude => Leaving
  }

  // ----- preparations

  predicate CanPrepare(c: Core, preparation: Preparation) {
    match preparation
    case PrepareApplication(spec, found, op) => CanPrepareApply(c.db, c.site, c.name, spec, found, op)
    case PrepareDeletion(op) => CanPrepareCurrent(c.db, c.site, c.name, Delete, op)
    case PrepareReconciliation(op) => CanPrepareCurrent(c.db, c.site, c.name, Reconcile, op)
  }

  function PrepareCore(c: Core, preparation: Preparation, stamp: int): Core
    requires CanPrepare(c, preparation)
  {
    match preparation
    case PrepareApplication(spec, found, op) =>
      c.(db := PrepareApply(c.db, c.site, c.name, spec, found, op, stamp))
    case PrepareDeletion(op) =>
      c.(db := PrepareDelete(c.db, c.site, c.name, op, stamp))
    case PrepareReconciliation(op) =>
      var next := c.(db := PrepareReconcile(c.db, c.site, c.name, op, stamp));
      if op in c.db.operations then Log(next, Rewound(op)) else next
  }

  // ----- all processes

  ghost predicate Enabled(s: State, p: Pid, l: Label) {
    match l
    case Enter => p !in s.procs && Visible(s.core.db)
    case BeginPreparation(stamp) => p !in s.procs
    case TakeKey => p in s.procs && !Holds(s.procs[p]) && s.holder.None?
    case Advance(act) => p in s.procs && CanAct(s.core, s.procs[p], act)
    case Commit(preparation) => p in s.procs && s.procs[p].Writing? && CanPrepare(s.core, preparation)
    case Exit => p in s.procs
    case ImageVerified(image) => true
  }

  function Move(s: State, p: Pid, pc: Pc): State {
    s.(procs := s.procs[p := pc])
  }

  /** The process is gone; PostgreSQL releases the key with its connection. */
  function Gone(s: State, p: Pid): State {
    s.(procs := s.procs - {p}, holder := if s.holder == Some(p) then None else s.holder)
  }

  function After(s: State, p: Pid, l: Label): State
    requires Enabled(s, p, l)
  {
    match l
    case Enter => Move(s, p, Locking)
    case BeginPreparation(stamp) => Move(s, p, Preparing(stamp))
    case TakeKey =>
      Move(s, p, if s.procs[p].Locking? then Inspecting else Writing(s.procs[p].stamp)).(holder := Some(p))
    case Advance(act) =>
      Move(s, p, ActPc(s.core, s.procs[p], act)).(core := ActCore(s.core, s.procs[p], act))
    case Commit(preparation) =>
      Gone(s, p).(core := PrepareCore(s.core, preparation, s.procs[p].stamp))
    case Exit => Gone(s, p)
    case ImageVerified(image) => s.(core := s.core.(verified := s.core.verified + {image}))
  }

  ghost predicate Next(s: State, t: State) {
    exists p, l :: Enabled(s, p, l) && t == After(s, p, l)
  }

  /** No row, no process, no lock, and any world that respects the order of parents and children. */
  predicate Initial(s: State) {
    s.core.db == EMPTY_DB && s.holder.None? && s.procs == map[] && s.core.history == Nil && GuestOk(s.core.guest)
    && SiteOk(s.core.site)
  }

  /** The state after the `i`th follows it. */
  ghost predicate Follows(states: seq<State>, i: nat)
    requires i + 1 < |states|
  {
    Next(states[i], states[i + 1])
  }

  ghost predicate IsRun(states: seq<State>) {
    && |states| > 0 && Initial(states[0])
    && forall i :: 0 <= i < |states| - 1 ==> Follows(states, i)
  }
}
