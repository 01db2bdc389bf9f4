/** The order of driver calls over a whole run, as a sequence. */
module CallTrace {
  import opened Prelude
  import opened Planner
  import opened Guests
  import opened Journal
  import opened Protocol
  import opened Invariant
  import opened Runs

  function Events(h: History): seq<Event> {
    match h
    case Nil => []
    case Snoc(past, last) => Events(past) + [last]
  }

  /** The steps of `op` that the driver was called for, oldest first. */
  function CallsOf(h: History, op: OpId): seq<nat> {
    match h
    case Nil => []
    case Snoc(past, Called(o, k)) => if o == op then CallsOf(past, op) + [k] else CallsOf(past, op)
    case Snoc(past, _) => CallsOf(past, op)
  }

  // ----- one operation at a time

  lemma EventsUpToNow(ops: map<OpId, OpRow>, h: History, i: nat)
    requires OneAtATime(ops, h) && i < |Events(h)| && !Events(h)[i].Rewound?
    ensures LastStarted(h).Some? && LastStarted(h).value in ops && Events(h)[i].op in ops
    ensures NotAfter(ops, Events(h)[i].op, LastStarted(h).value)
  {
    var Snoc(past, last) := h;
    if i < |Events(past)| {
      EventsUpToNow(ops, past, i);
    } else if LastStarted(past).Some? && !last.Started? {
      Preparations.StartedIsKnown(ops, past);
    }
  }

  lemma EventsInOrder(ops: map<OpId, OpRow>, h: History, i: nat, j: nat)
    requires OneAtATime(ops, h) && i < j < |Events(h)| && !Events(h)[i].Rewound? && !Events(h)[j].Rewound?
    ensures Events(h)[i].op in ops && Events(h)[j].op in ops && NotAfter(ops, Events(h)[i].op, Events(h)[j].op)
  {
    var Snoc(past, last) := h;
    if j < |Events(past)| {
      EventsInOrder(ops, past, i, j);
    } else {
      EventsUpToNow(ops, past, i);
    }
  }

  /**
    Superseded operations never resume.  What executors do follows the order of creation stamps and identifiers,
    however late an operation was committed, so the events of one operation form one contiguous block.
   */
  lemma SupersededNeverResumes(states: seq<State>, n: nat, i: nat, j: nat, k: nat)
    requires IsRun(states) && n < |states|
    requires i < j < k < |Events(states[n].core.history)|
    requires var e := Events(states[n].core.history); !e[i].Rewound? && !e[j].Rewound? && !e[k].Rewound?
    ensures var e, ops := Events(states[n].core.history), states[n].core.db.operations;
            && e[i].op in ops && e[j].op in ops && NotAfter(ops, e[i].op, e[j].op)
            && (e[i].op == e[k].op ==> e[j].op == e[i].op)
  {
    RunKeepsInv(states, n);
    var ops, h := states[n].core.db.operations, states[n].core.history;
    EventsInOrder(ops, h, i, j);
    EventsInOrder(ops, h, j, k);
  }

  // ----- the shape of the calls

  predicate NeverRewound(h: History, op: OpId) {
    match h
    case Nil => true
    case Snoc(past, last) => last != Rewound(op) && NeverRewound(past, op)
  }

  lemma OnlyReconcilesAreRewound(ops: map<OpId, OpRow>, h: History, op: OpId)
    requires OneAtATime(ops, h) && op in ops && ops[op].plan.operation != Reconcile
    ensures NeverRewound(h, op)
  {
  }

  lemma DriverWasCalled(h: History, op: OpId, k: nat)
    requires Paired(h)
    requires LastDriver(h) == Some(Called(op, k))
    ensures k in CallsOf(h, op)
  {
  }

  lemma ReturnedWasCalled(h: History, op: OpId, k: nat, ok: bool)
    requires Paired(h) && LastDriver(h) == Some(Returned(op, k, ok))
    ensures k in CallsOf(h, op)
  {
    var Snoc(past, last) := h;
    match last
    case Returned(_, _, _) => DriverWasCalled(past, op, k);
    case Called(_, _) =>
    case Started(_) | Claimed(_, _) | Completed(_, _) | Concluded(_) | Rewound(_) =>
      ReturnedWasCalled(past, op, k, ok);
  }

  lemma FinishedWasCalled(h: History, op: OpId, k: nat)
    requires Paired(h) && FinishedIn(h, op, k)
    ensures k in CallsOf(h, op)
  {
    var Snoc(past, last) := h;
    if last == Completed(op, k) {
      ReturnedWasCalled(past, op, k, true);
    } else {
      FinishedWasCalled(past, op, k);
    }
  }

  /** What was finished before a call of a step still is, unless the operation was reset. */
  lemma CalledMeansReached(h: History, op: OpId, i: nat, j: nat)
    requires CallsInOrder(h) && NeverRewound(h, op) && i < |CallsOf(h, op)| && j < CallsOf(h, op)[i]
    ensures FinishedIn(h, op, j)
  {
    var Snoc(past, last) := h;
    if i < |CallsOf(past, op)| {
      CalledMeansReached(past, op, i, j);
    }
  }

  lemma CallsStayInRange(ops: map<OpId, OpRow>, h: History, op: OpId, i: nat)
    requires OneAtATime(ops, h) && op in ops && i < |CallsOf(h, op)|
    ensures CallsOf(h, op)[i] < |ops[op].plan.steps|
  {
  }

  /** Some zeros, then some ones, and so on: the trace never goes back and never jumps ahead. */
  predicate Staircase(calls: seq<nat>) {
    && (|calls| > 0 ==> calls[0] == 0)
    && (forall i :: 0 <= i < |calls| - 1 ==> calls[i] <= calls[i + 1] <= calls[i] + 1)
  }

  lemma CallsFormStaircase(h: History, op: OpId)
    requires CallsInOrder(h) && Paired(h) && NeverRewound(h, op)
    ensures Staircase(CallsOf(h, op))
    ensures forall k <- CallsOf(h, op) :: |CallsOf(h, op)| > 0 && k <= CallsOf(h, op)[|CallsOf(h, op)| - 1]
  {
    if h.Snoc? {
      CallsFormStaircase(h.past, op);
      if h.last.Called? && h.last.op == op {
        NextCall(h.past, op, h.last.k);
      }
    }
  }

  /** A call repeats the step called last or moves on to the next one. */
  lemma NextCall(past: History, op: OpId, k: nat)
    requires CallsInOrder(Snoc(past, Called(op, k))) && Paired(past) && NeverRewound(past, op)
    requires forall j <- CallsOf(past, op) :: |CallsOf(past, op)| > 0 && j <= CallsOf(past, op)[|CallsOf(past, op)| - 1]
    ensures var calls := CallsOf(past, op);
            if |calls| == 0 then k == 0 else calls[|calls| - 1] <= k <= calls[|calls| - 1] + 1
  {
    var calls := CallsOf(past, op);
    if |calls| > 0 {
      var top := calls[|calls| - 1];
      if k < top { CalledMeansReached(past, op, |calls| - 1, k); }
      if top + 1 < k { FinishedWasCalled(past, op, top + 1); }
    } else if k > 0 {
      FinishedWasCalled(past, op, 0);
    }
  }

  lemma CallsAreCounted(h: History, op: OpId, k: nat)
    ensures Calls(h, op, k) == multiset(CallsOf(h, op))[k]
  {
  }

  lemma CallsReachResumeStep(ops: map<OpId, OpRow>, h: History, op: OpId)
    requires OneAtATime(ops, h) && CallsInOrder(h) && Paired(h) && op in ops && RowTellsPast(ops[op], op, h)
    requires |ops[op].steps| == |ops[op].plan.steps| && ops[op].plan.operation != Reconcile
    ensures Staircase(CallsOf(h, op))
    ensures forall k: nat :: k < ResumeStep(ops[op]) ==> k in CallsOf(h, op)
    ensures forall k <- CallsOf(h, op) :: k <= ResumeStep(ops[op])
  {
    var row := ops[op];
    OnlyReconcilesAreRewound(ops, h, op);
    CallsFormStaircase(h, op);
    forall k: nat | k < ResumeStep(row) ensures k in CallsOf(h, op) {
      FinishedWasCalled(h, op, k);
    }
    forall i | 0 <= i < |CallsOf(h, op)| ensures CallsOf(h, op)[i] <= ResumeStep(row) {
      CallsStayInRange(ops, h, op, i);
      if CallsOf(h, op)[i] > ResumeStep(row) {
        CalledMeansReached(h, op, i, ResumeStep(row));
      }
    }
  }

  // ----- the order of calls and completions

  lemma FinishedHasEvent(h: History, op: OpId, k: nat) returns (i: nat)
    requires FinishedIn(h, op, k)
    ensures i < |Events(h)| && Events(h)[i] == Completed(op, k)
  {
    if h.last == Completed(op, k) {
      i := |Events(h)| - 1;
    } else {
      i := FinishedHasEvent(h.past, op, k);
    }
  }

  lemma EventMeansFinished(h: History, op: OpId, k: nat, i: nat)
    requires NeverRewound(h, op) && i < |Events(h)| && Events(h)[i] == Completed(op, k)
    ensures FinishedIn(h, op, k)
  {
    if i < |Events(h.past)| {
      EventMeansFinished(h.past, op, k, i);
    }
  }

  lemma CallComesInOrder(h: History, op: OpId, k: nat, j: nat)
    requires CallsInOrder(h) && j < |Events(h)| && Events(h)[j] == Called(op, k)
    ensures forall p: nat :: p < k ==> Completed(op, p) in Events(h)[..j]
    ensures NeverRewound(h, op) ==> Completed(op, k) !in Events(h)[..j]
  {
    var past := h.past;
    if j < |Events(past)| {
      CallComesInOrder(past, op, k, j);
      assert Events(h)[..j] == Events(past)[..j];
    } else {
      assert Events(h)[..j] == Events(past);
      forall p: nat | p < k ensures Completed(op, p) in Events(past) {
        var i := FinishedHasEvent(past, op, p);
      }
      if NeverRewound(h, op) && Completed(op, k) in Events(past) {
        var i :| 0 <= i < |Events(past)| && Events(past)[i] == Completed(op, k);
        EventMeansFinished(past, op, k, i);
      }
    }
  }

  /** A call comes after the completion of every earlier step, and of an apply or delete before its own. */
  ghost predicate CallsAfterCompletions(operation: Operation, e: seq<Event>, op: OpId) {
    forall j, k :: 0 <= j < |e| && e[j] == Called(op, k) ==>
      && (forall p: nat :: p < k ==> Completed(op, p) in e[..j])
      && (operation != Reconcile ==> Completed(op, k) !in e[..j])
  }

  lemma CallsAndCompletions(ops: map<OpId, OpRow>, h: History, op: OpId)
    requires OneAtATime(ops, h) && CallsInOrder(h) && op in ops
    ensures CallsAfterCompletions(ops[op].plan.operation, Events(h), op)
  {
    var e := Events(h);
    if ops[op].plan.operation != Reconcile {
      OnlyReconcilesAreRewound(ops, h, op);
    }
    forall j, k | 0 <= j < |e| && e[j] == Called(op, k)
      ensures (forall p: nat :: p < k ==> Completed(op, p) in e[..j])
              && (ops[op].plan.operation != Reconcile ==> Completed(op, k) !in e[..j])
    {
      CallComesInOrder(h, op, k, j);
    }
  }

  lemma AttemptsBoundCalls(row: OpRow, h: History, op: OpId)
    requires RowTellsPast(row, op, h) && forall k: nat :: Calls(h, op, k) <= Claims(h, op, k)
    ensures forall k: nat :: k < |row.steps| ==>
              row.steps[k].attempts == Claims(h, op, k) && multiset(CallsOf(h, op))[k] <= row.steps[k].attempts
  {
    forall k: nat | k < |row.steps| ensures multiset(CallsOf(h, op))[k] <= row.steps[k].attempts {
      CallsAreCounted(h, op, k);
      assert Calls(h, op, k) <= Claims(h, op, k);
    }
  }

  /** The parts of the invariant that the trace of an operation follows from. */
  lemma WhatIsKnown(c: Core, op: OpId)
    requires CoreOk(c) && op in c.db.operations
    ensures OneAtATime(c.db.operations, c.history) && CallsInOrder(c.history) && Paired(c.history)
    ensures RowTellsPast(c.db.operations[op], op, c.history)
    ensures forall k: nat :: Calls(c.history, op, k) <= Claims(c.history, op, k)
    ensures |c.db.operations[op].steps| == |c.db.operations[op].plan.steps|
  {
    assert RowOk(c.db.operations[op]);
  }

  predicate TraceInOrder(row: OpRow, h: History, op: OpId) {
    && (forall k: nat :: k < |row.steps| ==>
          row.steps[k].attempts == Claims(h, op, k) && multiset(CallsOf(h, op))[k] <= row.steps[k].attempts)
    && (row.plan.operation != Reconcile ==>
          && Staircase(CallsOf(h, op))
          && (forall k: nat :: k < ResumeStep(row) ==> k in CallsOf(h, op))
          && (forall k <- CallsOf(h, op) :: k <= ResumeStep(row)))
  }

  lemma TraceOf(c: Core, op: OpId)
    requires CoreOk(c) && op in c.db.operations
    ensures TraceInOrder(c.db.operations[op], c.history, op)
    ensures CallsAfterCompletions(c.db.operations[op].plan.operation, Events(c.history), op)
  {
    WhatIsKnown(c, op);
    AttemptsBoundCalls(c.db.operations[op], c.history, op);
    if c.db.operations[op].plan.operation != Reconcile {
      CallsReachResumeStep(c.db.operations, c.history, op);
    }
    CallsAndCompletions(c.db.operations, c.history, op);
  }

  /**
    Driver-call trace.  The calls of an apply or delete operation climb from the first step to at most the step to
    resume, through every step that is done; and the attempts recorded for a step are the claims ever made of it,
    which bound the driver calls.  No step is called before every earlier one has completed, and none of an apply or
    delete once it has.
   */
  lemma DriverCallTrace(states: seq<State>, n: nat, op: OpId)
    requires IsRun(states) && n < |states| && op in states[n].core.db.operations
    ensures TraceInOrder(states[n].core.db.operations[op], states[n].core.history, op)
    ensures CallsAfterCompletions(states[n].core.db.operations[op].plan.operation, Events(states[n].core.history), op)
  {
    RunKeepsInv(states, n);
    TraceOf(states[n].core, op);
  }
}
