/**
  All resources of a site together: what they share is the allocation table, the advisory locks of resources and
  pools, and the two UNIQUE constraints of migrations/0001_v2_state.sql.

  A preparation tries the execution key (module Protocol), waits for the resource lock, and, when it has to allocate,
  waits for the lock of the pool and asks about one address and one MAC after another: lockExecutionPreparation,
  ensureAllocation and the three PrepareExecutable functions of internal/state/postgres.
 */
module Fleets {
  import opened Prelude
  import opened Planner
  import opened Journal
  import opened Protocol
  import opened Invariant
  import opened AllocationTable
  import Runs
  import Changes
  import Datasets

  /** How far an allocation has come; `next` is the next address or candidate to ask about. */
  datatype Stage =
    | PoolWanted(spec: Spec)
    | Probing(spec: Spec, next: Ip)
    | ProbingMac(spec: Spec, ip: Ip, counter: nat)
    | Chosen(spec: Spec, ip: Ip, mac: Mac)

  type Worker = (Name, Pid)

  /** `unique` says whether the UNIQUE constraints are in force; `macs` are the MAC candidates of each resource. */
  datatype Fleet = Fleet(site: Site, unique: bool, macs: map<Name, seq<Mac>>, resources: map<Name, State>,
                         resourceLocks: map<Name, Pid>, poolLocks: map<string, Worker>, stages: map<Worker, Stage>)

  datatype Move =
    | Local(step: Label)
    | TakeResource
    | WantPool(spec: Spec)
    | TakePool
    | AskAddress
    | AskMac
    | CommitAllocation(op: OpId)

  function TableOf(f: Fleet): Table {
    map n | n in f.resources :: f.resources[n].core.db.allocation
  }

  function FoundFor(f: Fleet, n: Name, spec: Spec, ip: Ip, mac: Mac): Allocation
    requires n in f.resources && spec.pool in f.site.pools
  {
    Allocation(spec.pool, ip, mac, Datasets.Dataset(f.site.vmDataset, n), Datasets.Zvol(f.site.vmDataset, n),
               f.site.pools[spec.pool].subnet, spec.image, DeclaredGeneration(f.resources[n].core.db, spec))
  }

  predicate Writes(resources: map<Name, State>, n: Name, p: Pid) {
    n in resources && p in resources[n].procs && resources[n].procs[p].Writing?
  }

  /** The process is writing a preparation and has the lock of the resource. */
  predicate Prepares(f: Fleet, n: Name, p: Pid) {
    Writes(f.resources, n, p) && n in f.resourceLocks && f.resourceLocks[n] == p
  }

  /** A commit that allocates goes through the stages; everything else is local to the resource. */
  predicate IsLocal(f: Fleet, n: Name, p: Pid, l: Label)
    requires n in f.resources
  {
    l.Commit? ==>
      && Prepares(f, n, p) && (n, p) !in f.stages
      && (l.preparation.PrepareApplication? ==> Active(f.resources[n].core.db))
  }

  ghost predicate CanMove(f: Fleet, n: Name, p: Pid, move: Move) {
    n in f.resources && match move
    case Local(l) => Enabled(f.resources[n], p, l) && IsLocal(f, n, p, l)
    case TakeResource =>
      p in f.resources[n].procs && f.resources[n].procs[p].Writing? && n !in f.resourceLocks
    case WantPool(spec) =>
      Prepares(f, n, p) && (n, p) !in f.stages && !Active(f.resources[n].core.db) && spec.pool in f.site.pools
    case TakePool =>
      Prepares(f, n, p) && (n, p) in f.stages && f.stages[(n, p)].PoolWanted?
      && f.stages[(n, p)].spec.pool !in f.poolLocks
    case AskAddress =>
      Prepares(f, n, p) && (n, p) in f.stages && f.stages[(n, p)].Probing?
      && f.stages[(n, p)].spec.pool in f.site.pools && f.stages[(n, p)].next <= f.site.pools[f.stages[(n, p)].spec.pool].last
    case AskMac =>
      Prepares(f, n, p) && (n, p) in f.stages && f.stages[(n, p)].ProbingMac?
      && n in f.macs && f.stages[(n, p)].counter < |f.macs[n]|
    case CommitAllocation(op) =>
      && Prepares(f, n, p) && (n, p) in f.stages && f.stages[(n, p)].Chosen?
      && f.stages[(n, p)].spec.pool in f.site.pools
      && Enabled(f.resources[n], p, Allocating(f, n, p, op))
      && (f.unique ==> UniqueAllows(TableOf(f), n, f.stages[(n, p)].ip, f.stages[(n, p)].mac))
  }

  function Allocating(f: Fleet, n: Name, p: Pid, op: OpId): Label
    requires n in f.resources && (n, p) in f.stages && f.stages[(n, p)].Chosen? && f.stages[(n, p)].spec.pool in f.site.pools
  {
    var Chosen(spec, ip, mac) := f.stages[(n, p)];
    Commit(PrepareApplication(spec, FoundFor(f, n, spec, ip, mac), op))
  }

  /** The end of a transaction, either way, gives back its locks. */
  function WithoutWorker(f: Fleet, n: Name, p: Pid): Fleet {
    f.(stages := f.stages - {(n, p)},
       resourceLocks := map m | m in f.resourceLocks && (m != n || f.resourceLocks[m] != p) :: f.resourceLocks[m],
       poolLocks := map q | q in f.poolLocks && f.poolLocks[q] != (n, p) :: f.poolLocks[q])
  }

  function WithResource(f: Fleet, n: Name, s: State): Fleet {
    f.(resources := f.resources[n := s])
  }

  function Moved(f: Fleet, n: Name, p: Pid, move: Move): Fleet
    requires CanMove(f, n, p, move)
  {
    match move
    case Local(l) =>
      WithResource(if l.Commit? || l.Exit? then WithoutWorker(f, n, p) else f, n, After(f.resources[n], p, l))
    case TakeResource => f.(resourceLocks := f.resourceLocks[n := p])
    case WantPool(spec) => f.(stages := f.stages[(n, p) := PoolWanted(spec)])
    case TakePool =>
      var spec := f.stages[(n, p)].spec;
      if spec.pool in f.site.pools then
        f.(poolLocks := f.poolLocks[spec.pool := (n, p)],
           stages := f.stages[(n, p) := Probing(spec, f.site.pools[spec.pool].first)])
      else f
    case AskAddress =>
      var Probing(spec, ip) := f.stages[(n, p)];
      f.(stages := f.stages[(n, p) := if IpHeld(TableOf(f), n, ip) then Probing(spec, ip + 1) else ProbingMac(spec, ip, 0)])
    case AskMac =>
      var ProbingMac(spec, ip, counter) := f.stages[(n, p)];
      var mac := f.macs[n][counter];
      f.(stages := f.stages[(n, p) := if MacHeld(TableOf(f), n, mac) then ProbingMac(spec, ip, counter + 1)
                                      else Chosen(spec, ip, mac)])
    case CommitAllocation(op) =>
      WithResource(WithoutWorker(f, n, p), n, After(f.resources[n], p, Allocating(f, n, p, op)))
  }

  ghost predicate FleetNext(f: Fleet, g: Fleet) {
    exists n, p, move :: CanMove(f, n, p, move) && g == Moved(f, n, p, move)
  }

  ghost predicate FleetInitial(f: Fleet) {
    && f.resourceLocks == map[] && f.poolLocks == map[] && f.stages == map[]
    && (forall n <- f.resources ::
          Initial(f.resources[n]) && f.resources[n].core.site == f.site && f.resources[n].core.name == n)
  }

  ghost predicate FleetFollows(fleets: seq<Fleet>, i: nat)
    requires i + 1 < |fleets|
  {
    FleetNext(fleets[i], fleets[i + 1])
  }

  ghost predicate IsFleetRun(fleets: seq<Fleet>) {
    && |fleets| > 0 && FleetInitial(fleets[0])
    && forall i :: 0 <= i < |fleets| - 1 ==> FleetFollows(fleets, i)
  }

  // ----- the invariant

  predicate StageFits(site: Site, t: Table, n: Name, stage: Stage) {
    stage.spec.pool in site.pools && !ActiveIn(t, n)
    && var pool := site.pools[stage.spec.pool];
       match stage
       case PoolWanted(_) => true
       case Probing(spec, next) => pool.first <= next
       case ProbingMac(spec, ip, counter) => pool.first <= ip <= pool.last && FreeIn(t, n, spec.pool, ip)
       case Chosen(spec, ip, mac) =>
         pool.first <= ip <= pool.last && FreeIn(t, n, spec.pool, ip) && MacFreeIn(t, n, spec.pool, mac)
  }

  predicate StageOk(f: Fleet, n: Name, stage: Stage) {
    StageFits(f.site, TableOf(f), n, stage)
  }

  predicate StagesOk(f: Fleet) {
    forall w <- f.stages :: StageOk(f, w.0, f.stages[w])
  }

  /** Whoever has the lock of a resource, or a stage, is writing there; a worker has the lock of its resource. */
  predicate WorkersOk(resources: map<Name, State>, resourceLocks: map<Name, Pid>, stages: map<Worker, Stage>) {
    && (forall n <- resourceLocks :: Writes(resources, n, resourceLocks[n]))
    && (forall w <- stages :: w.0 in resourceLocks && resourceLocks[w.0] == w.1)
  }

  /** The lock of a pool and the stages beyond waiting for it go together. */
  predicate PoolLocksOk(poolLocks: map<string, Worker>, stages: map<Worker, Stage>) {
    && (forall w <- stages :: !stages[w].PoolWanted? ==> stages[w].spec.pool in poolLocks && poolLocks[stages[w].spec.pool] == w)
    && (forall q <- poolLocks ::
          poolLocks[q] in stages && !stages[poolLocks[q]].PoolWanted? && stages[poolLocks[q]].spec.pool == q)
  }

  predicate LocksOk(f: Fleet) {
    WorkersOk(f.resources, f.resourceLocks, f.stages) && PoolLocksOk(f.poolLocks, f.stages)
  }

  /** What the shared tables and locks satisfy. */
  predicate SharedOk(f: Fleet) {
    LocksOk(f) && StagesOk(f) && TableOk(f.site, f.unique, TableOf(f))
  }

  ghost predicate ResourcesOk(f: Fleet) {
    forall n <- f.resources :: Inv(f.resources[n]) && f.resources[n].core.site == f.site && f.resources[n].core.name == n
  }

  lemma InitialResources(f: Fleet)
    requires FleetInitial(f)
    ensures ResourcesOk(f)
  {
    forall n | n in f.resources ensures Inv(f.resources[n]) {
      InitialInv(f.resources[n]);
    }
  }

  lemma InitialShared(f: Fleet)
    requires FleetInitial(f)
    ensures SharedOk(f)
  {
    assert forall n <- f.resources :: TableOf(f)[n].None?;
  }

  // ----- what a step of one resource means to the fleet

  /** Processes other than `p` stay as they are, and so do all while `p` goes on writing. */
  predicate ProcsKept(s: State, t: State, p: Pid, ended: bool) {
    && (forall q <- s.procs :: q != p ==> q in t.procs && t.procs[q] == s.procs[q])
    && (p in s.procs && s.procs[p].Writing? && !ended ==> p in t.procs && t.procs[p] == s.procs[p])
  }

  predicate Ends(l: Label) {
    l.Commit? || l.Exit?
  }

  lemma StepKeepsProcs(s: State, p: Pid, l: Label)
    requires Enabled(s, p, l)
    ensures ProcsKept(s, After(s, p, l), p, Ends(l))
  {
  }

  lemma StepKeepsRow(s: State, p: Pid, l: Label)
    requires Enabled(s, p, l)
    requires l.Commit? && l.preparation.PrepareApplication? ==> Active(s.core.db)
    ensures QuietRow(s.core.db.allocation, After(s, p, l).core.db.allocation)
  {
    match l
    case Advance(act) => Changes.ActKeepsAllocation(s.core, s.procs[p], act);
    case Commit(preparation) => PreparationKeepsRow(s.core, preparation, s.procs[p].stamp);
    case _ =>
  }

  lemma PreparationKeepsRow(c: Core, preparation: Preparation, stamp: int)
    requires CanPrepare(c, preparation)
    requires preparation.PrepareApplication? ==> Active(c.db)
    ensures PrepareCore(c, preparation, stamp).db.allocation == c.db.allocation
  {
  }

  lemma AllocatingSetsRow(s: State, p: Pid, spec: Spec, found: Allocation, op: OpId)
    requires Enabled(s, p, Commit(PrepareApplication(spec, found, op))) && !Active(s.core.db)
    ensures After(s, p, Commit(PrepareApplication(spec, found, op))).core.db.allocation == Some(AllocationRow(found, false))
  {
  }

  lemma StepKeepsIdentity(s: State, p: Pid, l: Label)
    requires Enabled(s, p, l)
    ensures After(s, p, l).core.site == s.core.site && After(s, p, l).core.name == s.core.name
  {
  }

  // ----- replacing the state of one resource

  lemma PutRow(f: Fleet, n: Name, t: State)
    requires n in f.resources
    ensures TableOf(WithResource(f, n, t)) == TableOf(f)[n := t.core.db.allocation]
  {
  }

  lemma PutKeepsWriter(resources: map<Name, State>, n: Name, p: Pid, t: State, ended: bool, m: Name, q: Pid)
    requires n in resources && ProcsKept(resources[n], t, p, ended) && Writes(resources, m, q)
    requires ended ==> (m, q) != (n, p)
    ensures Writes(resources[n := t], m, q)
  {
  }

  /** The transaction goes on: no lock and no stage changes. */
  lemma PutKeepsLocks(f: Fleet, n: Name, p: Pid, t: State)
    requires LocksOk(f) && n in f.resources && ProcsKept(f.resources[n], t, p, false)
    ensures LocksOk(WithResource(f, n, t))
  {
    forall m | m in f.resourceLocks ensures Writes(f.resources[n := t], m, f.resourceLocks[m]) {
      PutKeepsWriter(f.resources, n, p, t, false, m, f.resourceLocks[m]);
    }
  }

  /** The transaction ends: its locks and its stage go with it. */
  lemma EndKeepsLocks(f: Fleet, n: Name, p: Pid, t: State)
    requires LocksOk(f) && n in f.resources && ProcsKept(f.resources[n], t, p, true)
    ensures LocksOk(WithResource(WithoutWorker(f, n, p), n, t))
  {
    var g := WithResource(WithoutWorker(f, n, p), n, t);
    forall m | m in g.resourceLocks ensures Writes(f.resources[n := t], m, g.resourceLocks[m]) {
      PutKeepsWriter(f.resources, n, p, t, true, m, f.resourceLocks[m]);
    }
    EndKeepsPoolLocks(f, n, p);
  }

  lemma EndKeepsPoolLocks(f: Fleet, n: Name, p: Pid)
    requires PoolLocksOk(f.poolLocks, f.stages)
    ensures PoolLocksOk(WithoutWorker(f, n, p).poolLocks, WithoutWorker(f, n, p).stages)
  {
  }

  lemma QuietKeepsStages(f: Fleet, g: Fleet)
    requires StagesOk(f) && Quiet(TableOf(f), TableOf(g)) && g.site == f.site
    requires forall w <- g.stages :: w in f.stages && g.stages[w] == f.stages[w]
    ensures StagesOk(g)
  {
    forall w | w in g.stages ensures StageOk(g, w.0, g.stages[w]) {
      StageStaysOk(f, g, w.0, g.stages[w]);
    }
  }

  lemma StageStaysOk(f: Fleet, g: Fleet, n: Name, stage: Stage)
    requires StageOk(f, n, stage) && Quiet(TableOf(f), TableOf(g)) && g.site == f.site
    ensures StageOk(g, n, stage)
  {
    var t, u := TableOf(f), TableOf(g);
    var pool := stage.spec.pool;
    if n in t { assert QuietRow(t[n], u[n]); }
    match stage
    case PoolWanted(_) =>
    case Probing(_, _) =>
    case ProbingMac(_, ip, _) => QuietKeepsFree(t, u, n, pool, ip, 0);
    case Chosen(_, ip, mac) => QuietKeepsFree(t, u, n, pool, ip, mac);
  }

  lemma QuietPutKeepsShared(f: Fleet, n: Name, p: Pid, t: State, ended: bool)
    requires SharedOk(f) && n in f.resources
    requires ProcsKept(f.resources[n], t, p, ended)
    requires QuietRow(f.resources[n].core.db.allocation, t.core.db.allocation)
    ensures SharedOk(WithResource(if ended then WithoutWorker(f, n, p) else f, n, t))
  {
    var g := WithResource(if ended then WithoutWorker(f, n, p) else f, n, t);
    assert LocksOk(g) by {
      if ended { EndKeepsLocks(f, n, p, t); } else { PutKeepsLocks(f, n, p, t); }
    }
    assert Quiet(TableOf(f), TableOf(g)) by { PutIsQuiet(f, n, t, g); }
    QuietKeepsStages(f, g);
    QuietKeepsTable(f.site, f.unique, TableOf(f), TableOf(g));
  }

  lemma PutIsQuiet(f: Fleet, n: Name, t: State, g: Fleet)
    requires n in f.resources && g.resources == f.resources[n := t]
    requires QuietRow(f.resources[n].core.db.allocation, t.core.db.allocation)
    ensures Quiet(TableOf(f), TableOf(g))
  {
  }

  // ----- every move keeps the invariant

  lemma LocalKeepsShared(f: Fleet, n: Name, p: Pid, l: Label)
    requires SharedOk(f) && CanMove(f, n, p, Local(l))
    ensures SharedOk(Moved(f, n, p, Local(l)))
  {
    StepKeepsProcs(f.resources[n], p, l);
    StepKeepsRow(f.resources[n], p, l);
    QuietPutKeepsShared(f, n, p, After(f.resources[n], p, l), Ends(l));
  }

  /** Locks and stages of one worker move on while the resources stay as they are. */
  lemma LockMoveKeepsShared(f: Fleet, g: Fleet, changed: Worker)
    requires SharedOk(f) && g.site == f.site && g.unique == f.unique && g.resources == f.resources
    requires LocksOk(g)
    requires changed in g.stages ==> StageOk(f, changed.0, g.stages[changed])
    requires forall w <- g.stages :: w == changed || (w in f.stages && g.stages[w] == f.stages[w])
    ensures SharedOk(g)
  {
    SameRows(f, g);
    forall w | w in g.stages ensures StageOk(g, w.0, g.stages[w]) {
      if w != changed { assert StageOk(f, w.0, f.stages[w]); }
    }
  }

  lemma SameRows(f: Fleet, g: Fleet)
    requires g.resources == f.resources
    ensures TableOf(g) == TableOf(f)
  {
  }

  lemma ResourceTaken(f: Fleet, n: Name, p: Pid)
    requires SharedOk(f) && Writes(f.resources, n, p) && n !in f.resourceLocks
    ensures SharedOk(f.(resourceLocks := f.resourceLocks[n := p]))
  {
    LockMoveKeepsShared(f, f.(resourceLocks := f.resourceLocks[n := p]), (n, p));
  }

  lemma NewWorker(resources: map<Name, State>, locks: map<Name, Pid>, stages: map<Worker, Stage>, w: Worker, stage: Stage)
    requires WorkersOk(resources, locks, stages) && w.0 in locks && locks[w.0] == w.1
    ensures WorkersOk(resources, locks, stages[w := stage])
  {
  }

  lemma NextStage(locks: map<string, Worker>, stages: map<Worker, Stage>, w: Worker, stage: Stage)
    requires PoolLocksOk(locks, stages)
    requires if w in stages then !stages[w].PoolWanted? && !stage.PoolWanted? && stages[w].spec == stage.spec
             else stage.PoolWanted?
    ensures PoolLocksOk(locks, stages[w := stage])
  {
  }

  lemma EnterPool(locks: map<string, Worker>, stages: map<Worker, Stage>, w: Worker, stage: Stage)
    requires PoolLocksOk(locks, stages) && w in stages && stages[w].PoolWanted? && !stage.PoolWanted?
    requires stage.spec == stages[w].spec && stage.spec.pool !in locks
    ensures PoolLocksOk(locks[stage.spec.pool := w], stages[w := stage])
  {
  }

  /** The worker's next stage: waiting for the pool at first, and then within the pool that it has. */
  lemma StageSet(f: Fleet, w: Worker, stage: Stage)
    requires SharedOk(f) && Prepares(f, w.0, w.1) && StageOk(f, w.0, stage)
    requires if w in f.stages then !f.stages[w].PoolWanted? && !stage.PoolWanted? && f.stages[w].spec == stage.spec
             else stage.PoolWanted?
    ensures SharedOk(f.(stages := f.stages[w := stage]))
  {
    var g := f.(stages := f.stages[w := stage]);
    assert LocksOk(g) by {
      NewWorker(f.resources, f.resourceLocks, f.stages, w, stage);
      NextStage(f.poolLocks, f.stages, w, stage);
    }
    LockMoveKeepsShared(f, g, w);
  }

  lemma PoolTakenKeepsLocks(f: Fleet, w: Worker, stage: Stage)
    requires LocksOk(f) && Prepares(f, w.0, w.1) && w in f.stages && f.stages[w].PoolWanted? && !stage.PoolWanted?
    requires stage.spec == f.stages[w].spec && stage.spec.pool !in f.poolLocks
    ensures LocksOk(f.(poolLocks := f.poolLocks[stage.spec.pool := w], stages := f.stages[w := stage]))
  {
    NewWorker(f.resources, f.resourceLocks, f.stages, w, stage);
    EnterPool(f.poolLocks, f.stages, w, stage);
  }

  lemma PoolTaken(f: Fleet, w: Worker, stage: Stage)
    requires SharedOk(f) && Prepares(f, w.0, w.1) && StageOk(f, w.0, stage)
    requires w in f.stages && f.stages[w].PoolWanted? && !stage.PoolWanted?
    requires stage.spec == f.stages[w].spec && stage.spec.pool !in f.poolLocks
    ensures SharedOk(f.(poolLocks := f.poolLocks[stage.spec.pool := w], stages := f.stages[w := stage]))
  {
    PoolTakenKeepsLocks(f, w, stage);
    LockMoveKeepsShared(f, f.(poolLocks := f.poolLocks[stage.spec.pool := w], stages := f.stages[w := stage]), w);
  }

  lemma StagesKeepShared(f: Fleet, n: Name, p: Pid, move: Move)
    requires SharedOk(f) && CanMove(f, n, p, move) && (move.TakeResource? || move.WantPool? || move.TakePool?)
    ensures SharedOk(Moved(f, n, p, move))
  {
    match move
    case TakeResource => ResourceTaken(f, n, p);
    case WantPool(spec) => StageSet(f, (n, p), PoolWanted(spec));
    case TakePool =>
      var spec := f.stages[(n, p)].spec;
      assert StageOk(f, n, f.stages[(n, p)]);
      PoolTaken(f, (n, p), Probing(spec, f.site.pools[spec.pool].first));
  }

  lemma AskedAddress(f: Fleet, n: Name, stage: Stage)
    requires StageOk(f, n, stage) && stage.Probing? && stage.next <= f.site.pools[stage.spec.pool].last
    ensures if IpHeld(TableOf(f), n, stage.next) then StageOk(f, n, stage.(next := stage.next + 1))
            else StageOk(f, n, ProbingMac(stage.spec, stage.next, 0))
  {
  }

  lemma AskedMac(f: Fleet, n: Name, stage: Stage, mac: Mac)
    requires StageOk(f, n, stage) && stage.ProbingMac?
    ensures StageOk(f, n, stage.(counter := stage.counter + 1))
    ensures !MacHeld(TableOf(f), n, mac) ==> StageOk(f, n, Chosen(stage.spec, stage.ip, mac))
  {
  }

  lemma AskingKeepsShared(f: Fleet, n: Name, p: Pid, move: Move)
    requires SharedOk(f) && CanMove(f, n, p, move) && (move.AskAddress? || move.AskMac?)
    ensures SharedOk(Moved(f, n, p, move))
  {
    var stage := f.stages[(n, p)];
    assert StageOk(f, n, stage);
    if move.AskAddress? {
      AskedAddress(f, n, stage);
    } else {
      AskedMac(f, n, stage, f.macs[n][stage.counter]);
    }
    StageSet(f, (n, p), Moved(f, n, p, move).stages[(n, p)]);
  }

  /** A worker that has chosen is alone in its pool. */
  lemma OthersAreInOtherPools(f: Fleet, n: Name, p: Pid, w: Worker)
    requires LocksOk(f) && (n, p) in f.stages && w in f.stages && w != (n, p)
    requires !f.stages[(n, p)].PoolWanted? && !f.stages[w].PoolWanted?
    ensures f.stages[w].spec.pool != f.stages[(n, p)].spec.pool
  {
  }

  lemma AllocatingKeepsStage(f: Fleet, g: Fleet, n: Name, a: Allocation, m: Name, stage: Stage)
    requires n in TableOf(f) && m != n && StageOk(f, m, stage) && g.site == f.site
    requires TableOf(g) == TableOf(f)[n := Some(AllocationRow(a, false))]
    requires stage.ProbingMac? || stage.Chosen? ==> stage.spec.pool != a.pool
    ensures StageOk(g, m, stage)
  {
    match stage
    case PoolWanted(_) =>
    case Probing(_, _) =>
    case ProbingMac(spec, ip, _) => AllocatingKeepsFree(TableOf(f), n, a, m, spec.pool, ip, 0);
    case Chosen(spec, ip, mac) => AllocatingKeepsFree(TableOf(f), n, a, m, spec.pool, ip, mac);
  }

  lemma AllocatingPutKeepsShared(f: Fleet, n: Name, p: Pid, t: State)
    requires SharedOk(f) && n in f.resources && ProcsKept(f.resources[n], t, p, true)
    requires (n, p) in f.stages && f.stages[(n, p)].Chosen? && f.stages[(n, p)].spec.pool in f.site.pools
    requires var Chosen(spec, ip, mac) := f.stages[(n, p)];
             && t.core.db.allocation == Some(AllocationRow(FoundFor(f, n, spec, ip, mac), false))
             && (f.unique ==> UniqueAllows(TableOf(f), n, ip, mac))
    ensures SharedOk(WithResource(WithoutWorker(f, n, p), n, t))
  {
    var Chosen(spec, ip, mac) := f.stages[(n, p)];
    var a := FoundFor(f, n, spec, ip, mac);
    var g := WithResource(WithoutWorker(f, n, p), n, t);
    assert StageOk(f, n, f.stages[(n, p)]);
    PutRow(WithoutWorker(f, n, p), n, t);
    assert TableOf(WithoutWorker(f, n, p)) == TableOf(f);
    AllocatingKeepsTable(f.site, f.unique, TableOf(f), n, a);
    EndKeepsLocks(f, n, p, t);
    forall w | w in g.stages ensures StageOk(g, w.0, g.stages[w]) {
      assert w in f.stages && w != (n, p) && StageOk(f, w.0, f.stages[w]);
      OtherResource(f, n, p, w);
      if !f.stages[w].PoolWanted? { OthersAreInOtherPools(f, n, p, w); }
      AllocatingKeepsStage(f, g, n, a, w.0, f.stages[w]);
    }
  }

  /** One resource has one worker at a time. */
  lemma OtherResource(f: Fleet, n: Name, p: Pid, w: Worker)
    requires LocksOk(f) && (n, p) in f.stages && w in f.stages && w != (n, p)
    ensures w.0 != n
  {
  }

  lemma CommitKeepsShared(f: Fleet, n: Name, p: Pid, op: OpId)
    requires SharedOk(f) && CanMove(f, n, p, CommitAllocation(op))
    ensures SharedOk(Moved(f, n, p, CommitAllocation(op)))
  {
    var Chosen(spec, ip, mac) := f.stages[(n, p)];
    var l := Allocating(f, n, p, op);
    assert StageOk(f, n, f.stages[(n, p)]);
    StepKeepsProcs(f.resources[n], p, l);
    AllocatingSetsRow(f.resources[n], p, spec, FoundFor(f, n, spec, ip, mac), op);
    AllocatingPutKeepsShared(f, n, p, After(f.resources[n], p, l));
  }

  lemma MoveKeepsShared(f: Fleet, n: Name, p: Pid, move: Move)
    requires SharedOk(f) && CanMove(f, n, p, move)
    ensures SharedOk(Moved(f, n, p, move))
  {
    match move
    case Local(l) => LocalKeepsShared(f, n, p, l);
    case CommitAllocation(op) => CommitKeepsShared(f, n, p, op);
    case TakeResource | WantPool(_) | TakePool => StagesKeepShared(f, n, p, move);
    case AskAddress | AskMac => AskingKeepsShared(f, n, p, move);
  }

  lemma MoveKeepsResources(f: Fleet, n: Name, p: Pid, move: Move)
    requires ResourcesOk(f) && CanMove(f, n, p, move)
    ensures ResourcesOk(Moved(f, n, p, move))
  {
    if move.Local? {
      ResourceKeepsInv(f, n, p, move.step);
    } else if move.CommitAllocation? {
      ResourceKeepsInv(f, n, p, Allocating(f, n, p, move.op));
    }
  }

  lemma ResourceKeepsInv(f: Fleet, n: Name, p: Pid, l: Label)
    requires ResourcesOk(f) && n in f.resources && Enabled(f.resources[n], p, l)
    ensures ResourcesOk(WithResource(f, n, After(f.resources[n], p, l)))
  {
    Runs.StepKeepsInv(f.resources[n], p, l);
    StepKeepsIdentity(f.resources[n], p, l);
  }
}
