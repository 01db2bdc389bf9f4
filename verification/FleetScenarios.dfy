/** Runs of a whole site from the beginning: that allocations collide across pools, and with deleted machines. */
module FleetScenarios {
  import opened Prelude
  import opened Planner
  import opened Guests
  import opened Journal
  import opened Protocol
  import opened Invariant
  import opened AllocationTable
  import opened Fleets
  import opened FleetGuarantees
  import opened Paths
  import opened Completion
  import opened Scenarios

  // ----- states of a site that runs reach

  ghost predicate FleetReachable(f: Fleet) {
    exists fleets: seq<Fleet> :: IsFleetRun(fleets) && fleets[|fleets| - 1] == f
  }

  lemma InitialFleet(f: Fleet)
    requires FleetInitial(f)
    ensures FleetReachable(f)
  {
    assert IsFleetRun([f]) && [f][0] == f;
  }

  lemma ReachableIsShared(f: Fleet)
    requires FleetReachable(f)
    ensures SharedOk(f)
  {
    var fleets: seq<Fleet> :| IsFleetRun(fleets) && fleets[|fleets| - 1] == f;
    FleetRunIsShared(fleets, |fleets| - 1);
  }

  lemma FleetStep(f: Fleet, n: Name, p: Pid, move: Move)
    requires FleetReachable(f) && CanMove(f, n, p, move)
    ensures FleetReachable(Moved(f, n, p, move))
  {
    var fleets: seq<Fleet> :| IsFleetRun(fleets) && fleets[|fleets| - 1] == f;
    var g := Moved(f, n, p, move);
    assert FleetNext(f, g);
    FleetRunGoesOn(fleets, g);
    assert (fleets + [g])[|fleets + [g]| - 1] == g;
  }

  lemma FleetRunGoesOn(fleets: seq<Fleet>, g: Fleet)
    requires IsFleetRun(fleets) && FleetNext(fleets[|fleets| - 1], g)
    ensures IsFleetRun(fleets + [g])
  {
    var more := fleets + [g];
    forall i | 0 <= i < |more| - 1 ensures FleetFollows(more, i) {
      if i < |fleets| - 1 { assert FleetFollows(fleets, i); }
    }
  }

  // ----- one worker, up to its choice

  /** A process of the resource is writing and has both its keys. */
  function WithWriter(f: Fleet, n: Name, p: Pid, stamp: int): Fleet
    requires n in f.resources
  {
    f.(resources := f.resources[n := State(f.resources[n].core, Some(p), f.resources[n].procs[p := Writing(stamp)])],
       resourceLocks := f.resourceLocks[n := p])
  }

  lemma Overwrite<K, V>(m: map<K, V>, k: K, v: V, w: V)
    ensures m[k := v][k := w] == m[k := w]
  {
  }

  lemma BeginsTransaction(f: Fleet, n: Name, p: Pid, stamp: int, s: State)
    requires FleetReachable(f) && n in f.resources && f.resources[n] == s && p !in s.procs
    ensures FleetReachable(WithResource(f, n, State(s.core, s.holder, s.procs[p := Preparing(stamp)])))
  {
    FleetStep(f, n, p, Local(BeginPreparation(stamp)));
  }

  lemma TakesKey(f: Fleet, n: Name, p: Pid, stamp: int, s: State)
    requires FleetReachable(f) && n in f.resources && f.resources[n] == State(s.core, None, s.procs[p := Preparing(stamp)])
    ensures FleetReachable(WithResource(f, n, State(s.core, Some(p), s.procs[p := Writing(stamp)])))
  {
    FleetStep(f, n, p, Local(TakeKey));
    Overwrite(s.procs, p, Preparing(stamp), Writing(stamp));
  }

  lemma TakesResource(f: Fleet, n: Name, p: Pid)
    requires FleetReachable(f) && Writes(f.resources, n, p) && n !in f.resourceLocks
    ensures FleetReachable(f.(resourceLocks := f.resourceLocks[n := p]))
  {
    FleetStep(f, n, p, TakeResource);
  }

  lemma BeginWriter(f: Fleet, n: Name, p: Pid, stamp: int)
    requires FleetReachable(f) && n in f.resources && p !in f.resources[n].procs && f.resources[n].holder.None?
    requires n !in f.resourceLocks
    ensures FleetReachable(WithWriter(f, n, p, stamp))
  {
    var s := f.resources[n];
    var preparing := State(s.core, None, s.procs[p := Preparing(stamp)]);
    var writing := State(s.core, Some(p), s.procs[p := Writing(stamp)]);
    BeginsTransaction(f, n, p, stamp, s);
    TakesKey(WithResource(f, n, preparing), n, p, stamp, s);
    Overwrite(f.resources, n, preparing, writing);
    TakesResource(WithResource(f, n, writing), n, p);
  }

  /** The worker has the pool and is about to ask about its first address. */
  function WithPool(f: Fleet, n: Name, p: Pid, spec: Spec): Fleet
    requires spec.pool in f.site.pools
  {
    f.(poolLocks := f.poolLocks[spec.pool := (n, p)],
       stages := f.stages[(n, p) := Probing(spec, f.site.pools[spec.pool].first)])
  }

  lemma WantsPool(f: Fleet, n: Name, p: Pid, spec: Spec)
    requires FleetReachable(f) && n in f.resources && Prepares(f, n, p) && (n, p) !in f.stages
    requires !Active(f.resources[n].core.db) && spec.pool in f.site.pools
    ensures FleetReachable(f.(stages := f.stages[(n, p) := PoolWanted(spec)]))
  {
    FleetStep(f, n, p, WantPool(spec));
  }

  lemma GetsPool(f: Fleet, n: Name, p: Pid, spec: Spec)
    requires FleetReachable(f) && n in f.resources && Prepares(f, n, p) && (n, p) in f.stages
    requires f.stages[(n, p)] == PoolWanted(spec) && spec.pool in f.site.pools && spec.pool !in f.poolLocks
    ensures FleetReachable(WithPool(f, n, p, spec))
  {
    FleetStep(f, n, p, TakePool);
  }

  lemma TakesPool(f: Fleet, n: Name, p: Pid, spec: Spec)
    requires FleetReachable(f) && n in f.resources && Prepares(f, n, p) && (n, p) !in f.stages
    requires !Active(f.resources[n].core.db) && spec.pool in f.site.pools && spec.pool !in f.poolLocks
    ensures FleetReachable(WithPool(f, n, p, spec))
  {
    WantsPool(f, n, p, spec);
    GetsPool(f.(stages := f.stages[(n, p) := PoolWanted(spec)]), n, p, spec);
    Overwrite(f.stages, (n, p), PoolWanted(spec), Probing(spec, f.site.pools[spec.pool].first));
  }

  lemma AsksAddress(f: Fleet, n: Name, p: Pid, spec: Spec, ip: Ip)
    requires FleetReachable(f) && n in f.resources && Prepares(f, n, p)
    requires (n, p) in f.stages && f.stages[(n, p)] == Probing(spec, ip) && spec.pool in f.site.pools
    requires ip <= f.site.pools[spec.pool].last && !IpHeld(TableOf(f), n, ip)
    ensures FleetReachable(f.(stages := f.stages[(n, p) := ProbingMac(spec, ip, 0)]))
  {
    FleetStep(f, n, p, AskAddress);
  }

  lemma AsksMac(f: Fleet, n: Name, p: Pid, spec: Spec, ip: Ip)
    requires FleetReachable(f) && n in f.resources && Prepares(f, n, p)
    requires (n, p) in f.stages && f.stages[(n, p)] == ProbingMac(spec, ip, 0)
    requires n in f.macs && |f.macs[n]| > 0 && !MacHeld(TableOf(f), n, f.macs[n][0])
    ensures FleetReachable(f.(stages := f.stages[(n, p) := Chosen(spec, ip, f.macs[n][0])]))
  {
    FleetStep(f, n, p, AskMac);
  }

  lemma MakesChoice(f: Fleet, n: Name, p: Pid, spec: Spec, ip: Ip)
    requires FleetReachable(f) && n in f.resources && Prepares(f, n, p)
    requires (n, p) in f.stages && f.stages[(n, p)] == Probing(spec, ip) && spec.pool in f.site.pools
    requires ip <= f.site.pools[spec.pool].last && !IpHeld(TableOf(f), n, ip)
    requires n in f.macs && |f.macs[n]| > 0 && !MacHeld(TableOf(f), n, f.macs[n][0])
    ensures FleetReachable(f.(stages := f.stages[(n, p) := Chosen(spec, ip, f.macs[n][0])]))
  {
    AsksAddress(f, n, p, spec, ip);
    var g := f.(stages := f.stages[(n, p) := ProbingMac(spec, ip, 0)]);
    SameRows(f, g);
    AsksMac(g, n, p, spec, ip);
    Overwrite(f.stages, (n, p), ProbingMac(spec, ip, 0), Chosen(spec, ip, f.macs[n][0]));
  }

  /** Everything up to the choice of the first address and the first MAC of the resource. */
  function WithChoice(f: Fleet, n: Name, p: Pid, stamp: int, spec: Spec): Fleet
    requires n in f.resources && spec.pool in f.site.pools && n in f.macs && |f.macs[n]| > 0
  {
    WithPool(WithWriter(f, n, p, stamp), n, p, spec)
      .(stages := f.stages[(n, p) := Chosen(spec, f.site.pools[spec.pool].first, f.macs[n][0])])
  }

  /** The resource has a free key and no worker, and the first address and MAC are not held. */
  predicate Ready(f: Fleet, n: Name, p: Pid, spec: Spec) {
    && n in f.resources && p !in f.resources[n].procs && f.resources[n].holder.None?
    && n !in f.resourceLocks && (n, p) !in f.stages && !Active(f.resources[n].core.db)
    && spec.pool in f.site.pools && spec.pool !in f.poolLocks
    && f.site.pools[spec.pool].first <= f.site.pools[spec.pool].last && n in f.macs && |f.macs[n]| > 0
    && !IpHeld(TableOf(f), n, f.site.pools[spec.pool].first) && !MacHeld(TableOf(f), n, f.macs[n][0])
  }

  lemma ComesToPool(f: Fleet, n: Name, p: Pid, stamp: int, spec: Spec)
    requires FleetReachable(f) && Ready(f, n, p, spec)
    ensures FleetReachable(WithPool(WithWriter(f, n, p, stamp), n, p, spec))
  {
    BeginWriter(f, n, p, stamp);
    TakesPool(WithWriter(f, n, p, stamp), n, p, spec);
  }

  lemma ComesToChoice(f: Fleet, n: Name, p: Pid, stamp: int, spec: Spec)
    requires FleetReachable(f) && Ready(f, n, p, spec)
    ensures FleetReachable(WithChoice(f, n, p, stamp, spec))
  {
    ComesToPool(f, n, p, stamp, spec);
    var g, ip := WithPool(WithWriter(f, n, p, stamp), n, p, spec), f.site.pools[spec.pool].first;
    WriterKeepsTable(f, n, p, stamp);
    SameRows(WithWriter(f, n, p, stamp), g);
    MakesChoice(g, n, p, spec, ip);
    Overwrite(f.stages, (n, p), Probing(spec, ip), Chosen(spec, ip, f.macs[n][0]));
  }

  lemma WriterKeepsTable(f: Fleet, n: Name, p: Pid, stamp: int)
    requires n in f.resources
    ensures TableOf(WithWriter(f, n, p, stamp)) == TableOf(f)
  {
  }

  // ----- the commit of a choice

  /** What a worker needs to commit the first declaration of a resource that has no rows yet. */
  predicate NewResource(f: Fleet, n: Name, spec: Spec) {
    && n in f.resources && f.resources[n].core.db == EMPTY_DB
    && f.resources[n].core.site == f.site && f.resources[n].core.name == n
    && ManifestOk(n, spec) && spec.image in f.site.images && spec.pool in f.site.pools
  }

  lemma ChoiceCanBeCommitted(f: Fleet, n: Name, p: Pid, spec: Spec, ip: Ip, mac: Mac, op: OpId)
    requires NewResource(f, n, spec) && Prepares(f, n, p) && (n, p) in f.stages && f.stages[(n, p)] == Chosen(spec, ip, mac)
    requires f.unique ==> UniqueAllows(TableOf(f), n, ip, mac)
    ensures CanMove(f, n, p, CommitAllocation(op))
  {
  }

  lemma NothingIsHeld(f: Fleet, n: Name, ip: Ip, mac: Mac)
    requires forall k <- f.resources :: f.resources[k].core.db == EMPTY_DB
    ensures !IpHeld(TableOf(f), n, ip) && !MacHeld(TableOf(f), n, mac) && UniqueAllows(TableOf(f), n, ip, mac)
  {
  }

  // ----- two pools that share an address

  /** A site at its beginning, and two machines declared in two pools that begin with the same address. */
  ghost predicate SharedAddress(f: Fleet, n: Name, first: Spec, m: Name, second: Spec) {
    && FleetInitial(f) && n != m && NewResource(f, n, first) && NewResource(f, m, second) && first.pool != second.pool
    && f.site.pools[first.pool].first == f.site.pools[second.pool].first
    && f.site.pools[first.pool].first <= f.site.pools[first.pool].last
    && f.site.pools[second.pool].first <= f.site.pools[second.pool].last
    && n in f.macs && |f.macs[n]| > 0 && m in f.macs && |f.macs[m]| > 0
  }

  lemma OneChooses(f: Fleet, n: Name, p: Pid, first: Spec, m: Name, q: Pid, second: Spec, stamp: int) returns (h: Fleet)
    requires SharedAddress(f, n, first, m, second)
    ensures FleetReachable(h) && h == WithChoice(f, n, p, stamp, first) && Ready(h, m, q, second)
    ensures n in h.resources && m in h.resources && forall k <- h.resources :: h.resources[k].core.db == EMPTY_DB
  {
    InitialFleet(f);
    NewIsReady(f, n, p, first);
    ComesToChoice(f, n, p, stamp, first);
    h := WithChoice(f, n, p, stamp, first);
    ChoiceLeavesOthers(f, n, p, stamp, first, m);
    NewIsReady(h, m, q, second);
  }

  lemma BothChoose(f: Fleet, n: Name, p: Pid, first: Spec, m: Name, q: Pid, second: Spec, stamp: int) returns (g: Fleet)
    requires SharedAddress(f, n, first, m, second)
    ensures FleetReachable(g) && g == WithChoice(WithChoice(f, n, p, stamp, first), m, q, stamp, second)
    ensures forall k <- g.resources :: g.resources[k].core.db == EMPTY_DB
  {
    var h := OneChooses(f, n, p, first, m, q, second, stamp);
    ComesToChoice(h, m, q, stamp, second);
    g := WithChoice(h, m, q, stamp, second);
    ChoiceLeavesOthers(h, m, q, stamp, second, n);
  }

  lemma NewIsReady(f: Fleet, n: Name, p: Pid, spec: Spec)
    requires NewResource(f, n, spec) && p !in f.resources[n].procs && f.resources[n].holder.None?
    requires n !in f.resourceLocks && (n, p) !in f.stages && spec.pool !in f.poolLocks
    requires f.site.pools[spec.pool].first <= f.site.pools[spec.pool].last && n in f.macs && |f.macs[n]| > 0
    requires forall k <- f.resources :: f.resources[k].core.db == EMPTY_DB
    ensures Ready(f, n, p, spec)
  {
    NothingIsHeld(f, n, f.site.pools[spec.pool].first, f.macs[n][0]);
  }

  lemma ChoiceLeavesOthers(f: Fleet, n: Name, p: Pid, stamp: int, spec: Spec, m: Name)
    requires n in f.resources && spec.pool in f.site.pools && n in f.macs && |f.macs[n]| > 0 && m != n
    ensures var g := WithChoice(f, n, p, stamp, spec);
            && g.resources.Keys == f.resources.Keys && (forall k <- f.resources :: g.resources[k].core == f.resources[k].core)
            && (m in f.resources ==> g.resources[m] == f.resources[m])
            && (m in g.resourceLocks <==> m in f.resourceLocks)
            && (forall q <- g.poolLocks :: q == spec.pool || q in f.poolLocks)
            && (forall w <- g.stages :: w == (n, p) || w in f.stages)
  {
  }

  lemma BothCanCommit(f: Fleet, g: Fleet, n: Name, p: Pid, first: Spec, m: Name, q: Pid, second: Spec, stamp: int, op: OpId)
    requires SharedAddress(f, n, first, m, second)
    requires g == WithChoice(WithChoice(f, n, p, stamp, first), m, q, stamp, second)
    requires forall k <- g.resources :: g.resources[k].core.db == EMPTY_DB
    ensures g.unique == f.unique && (n, p) in g.stages && (m, q) in g.stages
    ensures g.stages[(n, p)].Chosen? && g.stages[(m, q)].Chosen? && g.stages[(n, p)].ip == g.stages[(m, q)].ip
    ensures CanMove(g, n, p, CommitAllocation(op)) && CanMove(g, m, q, CommitAllocation(op))
  {
    var ip := f.site.pools[first.pool].first;
    NothingIsHeld(g, n, ip, f.macs[n][0]);
    NothingIsHeld(g, m, ip, f.macs[m][0]);
    ChoiceCanBeCommitted(g, n, p, first, ip, f.macs[n][0], op);
    ChoiceCanBeCommitted(g, m, q, second, ip, f.macs[m][0], op);
  }

  /** Either worker can commit, and after the first the second can if and only if the constraints are off. */
  ghost predicate Collide(g: Fleet, n: Name, p: Pid, m: Name, q: Pid, op: OpId) {
    && (n, p) in g.stages && g.stages[(n, p)].Chosen? && (m, q) in g.stages && g.stages[(m, q)].Chosen?
    && g.stages[(n, p)].ip == g.stages[(m, q)].ip
    && CanMove(g, n, p, CommitAllocation(op)) && CanMove(g, m, q, CommitAllocation(op))
    && (CanMove(Moved(g, n, p, CommitAllocation(op)), m, q, CommitAllocation(op)) <==> !g.unique)
  }

  /**
    The search lets addresses of two pools collide: from any beginning with two machines in two pools that begin with
    the same address, some run leads two workers to choose that address.
   */
  lemma SameAddressTwice(f: Fleet, n: Name, p: Pid, first: Spec, m: Name, q: Pid, second: Spec, stamp: int, op: OpId)
    returns (fleets: seq<Fleet>)
    requires SharedAddress(f, n, first, m, second)
    ensures IsFleetRun(fleets) && Collide(fleets[|fleets| - 1], n, p, m, q, op)
  {
    var g := BothChoose(f, n, p, first, m, q, second, stamp);
    BothCanCommit(f, g, n, p, first, m, q, second, stamp, op);
    fleets :| IsFleetRun(fleets) && fleets[|fleets| - 1] == g;
    ReachableIsShared(g);
    PoolsNeedTheConstraint(g, n, p, op, m, q, op);
  }

  // ----- runs of one resource within the site

  lemma NoWorkerToRemove(f: Fleet, n: Name, p: Pid)
    requires (n, p) !in f.stages && n !in f.resourceLocks && forall q <- f.poolLocks :: f.poolLocks[q] != (n, p)
    ensures WithoutWorker(f, n, p) == f
  {
    assert f.stages - {(n, p)} == f.stages;
  }

  lemma LiftStep(f: Fleet, n: Name, p: Pid, s: State, l: Label)
    requires FleetReachable(f) && n in f.resources && f.resources[n] == s && IsExecution(s, p, l) && Enabled(s, p, l)
    requires (n, p) !in f.stages && n !in f.resourceLocks && forall q <- f.poolLocks :: f.poolLocks[q] != (n, p)
    ensures FleetReachable(WithResource(f, n, After(s, p, l)))
  {
    FleetStep(f, n, p, Local(l));
    NoWorkerToRemove(f, n, p);
  }

  lemma {:induction false} LiftPath(f: Fleet, n: Name, p: Pid, path: seq<State>, i: nat)
    requires FleetReachable(f) && n in f.resources && IsOwnPath(p, path) && i < |path| && f.resources[n] == path[0]
    requires (n, p) !in f.stages && n !in f.resourceLocks && forall q <- f.poolLocks :: f.poolLocks[q] != (n, p)
    ensures FleetReachable(WithResource(f, n, path[i]))
  {
    if i == 0 {
      assert WithResource(f, n, path[0]) == f;
    } else {
      LiftPath(f, n, p, path, i - 1);
      assert OwnFollows(p, path, i - 1);
      var l :| IsExecution(path[i - 1], p, l) && Enabled(path[i - 1], p, l) && path[i] == After(path[i - 1], p, l);
      LiftStep(WithResource(f, n, path[i - 1]), n, p, path[i - 1], l);
      Overwrite(f.resources, n, path[i - 1], path[i]);
    }
  }

  lemma LiftAlone(f: Fleet, n: Name, p: Pid, t: State)
    requires FleetReachable(f) && n in f.resources && Alone(p, f.resources[n], t)
    requires (n, p) !in f.stages && n !in f.resourceLocks && forall q <- f.poolLocks :: f.poolLocks[q] != (n, p)
    ensures FleetReachable(WithResource(f, n, t))
  {
    var path: seq<State> :| IsOwnPath(p, path) && path[0] == f.resources[n] && path[|path| - 1] == t;
    LiftPath(f, n, p, path, |path| - 1);
  }

  // ----- a deleted machine and its pool

  /** A site at its beginning, and a machine that can be declared on it. */
  ghost predicate FirstMachine(f: Fleet, m: Name, spec: Spec) {
    && FleetInitial(f) && f.unique && NewResource(f, m, spec)
    && f.site.pools[spec.pool].first <= f.site.pools[spec.pool].last && m in f.macs && |f.macs[m]| > 0
    && Possible(f.site, m, spec, FirstFound(f, m, spec)) && f.resources[m].core.guest.zvol.None?
  }

  function FirstFound(f: Fleet, m: Name, spec: Spec): Allocation
    requires NewResource(f, m, spec) && m in f.macs && |f.macs[m]| > 0
  {
    FoundFor(f, m, spec, f.site.pools[spec.pool].first, f.macs[m][0])
  }

  lemma Commits(f: Fleet, m: Name, q: Pid, spec: Spec, stamp: int, a: OpId, t: State)
    requires FirstMachine(f, m, spec)
    requires CanPrepare(f.resources[m].core, PrepareApplication(spec, FirstFound(f, m, spec), a))
    requires var preparation := PrepareApplication(spec, FirstFound(f, m, spec), a);
             t == f.resources[m].(core := PrepareCore(f.resources[m].core, preparation, stamp))
    ensures FleetReachable(WithResource(f, m, t))
  {
    InitialFleet(f);
    NewIsReady(f, m, q, spec);
    ComesToChoice(f, m, q, stamp, spec);
    var g := WithChoice(f, m, q, stamp, spec);
    ChoiceLeavesOthers(f, m, q, stamp, spec, "");
    NothingIsHeld(g, m, f.site.pools[spec.pool].first, f.macs[m][0]);
    ChoiceCanBeCommitted(g, m, q, spec, f.site.pools[spec.pool].first, f.macs[m][0], a);
    FleetStep(g, m, q, CommitAllocation(a));
    CommittedFleet(f, m, q, spec, stamp, a, t);
  }

  lemma CommittedFleet(f: Fleet, m: Name, q: Pid, spec: Spec, stamp: int, a: OpId, t: State)
    requires FirstMachine(f, m, spec)
    requires CanPrepare(f.resources[m].core, PrepareApplication(spec, FirstFound(f, m, spec), a))
    requires var preparation := PrepareApplication(spec, FirstFound(f, m, spec), a);
             t == f.resources[m].(core := PrepareCore(f.resources[m].core, preparation, stamp))
    requires CanMove(WithChoice(f, m, q, stamp, spec), m, q, CommitAllocation(a))
    ensures Moved(WithChoice(f, m, q, stamp, spec), m, q, CommitAllocation(a)) == WithResource(f, m, t)
  {
    var g := WithChoice(f, m, q, stamp, spec);
    var h := Moved(g, m, q, CommitAllocation(a));
    assert h.resources[m].procs == map[] && h.resources[m] == t;
    assert h.resources == f.resources[m := t];
    assert h.stages == map[] && h.resourceLocks == map[] && h.poolLocks == map[];
  }

  /** Nobody has a lock or a stage. */
  predicate Unlocked(f: Fleet) {
    f.resourceLocks == map[] && f.poolLocks == map[] && f.stages == map[]
  }

  lemma WriterCanDelete(f: Fleet, m: Name, q: Pid, s: State, d: OpId, stamp: int)
    requires Unlocked(f) && m in f.resources && f.resources[m] == s && CanPrepare(s.core, PrepareDeletion(d))
    ensures CanMove(WithWriter(f, m, q, stamp), m, q, Local(Commit(PrepareDeletion(d))))
  {
  }

  lemma DeletionCommits(f: Fleet, m: Name, q: Pid, s: State, d: OpId, stamp: int)
    requires FleetReachable(f) && Unlocked(f) && m in f.resources && f.resources[m] == s
    requires s.procs == map[] && s.holder.None? && CanPrepare(s.core, PrepareDeletion(d))
    ensures FleetReachable(WithResource(f, m, s.(core := WithDelete(s.core, d, stamp))))
  {
    BeginWriter(f, m, q, stamp);
    var g := WithWriter(f, m, q, stamp);
    WriterCanDelete(f, m, q, s, d, stamp);
    FleetStep(g, m, q, Local(Commit(PrepareDeletion(d))));
    DeletionCommitted(f, m, q, s, d, stamp);
  }

  lemma DeletionCommitted(f: Fleet, m: Name, q: Pid, s: State, d: OpId, stamp: int)
    requires Unlocked(f) && m in f.resources && f.resources[m] == s
    requires s.procs == map[] && s.holder.None? && CanPrepare(s.core, PrepareDeletion(d))
    requires CanMove(WithWriter(f, m, q, stamp), m, q, Local(Commit(PrepareDeletion(d))))
    ensures Moved(WithWriter(f, m, q, stamp), m, q, Local(Commit(PrepareDeletion(d))))
            == WithResource(f, m, s.(core := WithDelete(s.core, d, stamp)))
  {
    var h := Moved(WithWriter(f, m, q, stamp), m, q, Local(Commit(PrepareDeletion(d))));
    var t := s.(core := WithDelete(s.core, d, stamp));
    assert h.resources[m].procs == map[] && h.resources[m] == t;
    assert h.resources == f.resources[m := t];
    assert h.stages == map[] && h.resourceLocks == map[] && h.poolLocks == map[];
  }

  /** On any site, a machine that is declared, cut off before the end and deleted leaves its row behind. */
  lemma DeletedOnSite(f: Fleet, m: Name, q: Pid, spec: Spec, a: OpId, d: OpId, stamp: int, later: int) returns (t: State)
    requires FirstMachine(f, m, spec) && a != d && stamp < later
    ensures FleetReachable(WithResource(f, m, t)) && DeletedBehind(t.core, spec, FirstFound(f, m, spec), a, d)
  {
    var s, found := f.resources[m], FirstFound(f, m, spec);
    InitialRests(s);
    var u := FirstApply(q, s, spec, found, a, stamp);
    Commits(f, m, q, spec, stamp, a, u);
    var v := CutOffApply(q, u, spec, found, a);
    LiftAlone(WithResource(f, m, u), m, q, v);
    Overwrite(f.resources, m, u, v);
    t := DeletedFromSite(f, m, q, v, spec, a, d, later);
  }

  lemma DeletedFromSite(f: Fleet, m: Name, q: Pid, s: State, spec: Spec, a: OpId, d: OpId, stamp: int) returns (t: State)
    requires FirstMachine(f, m, spec) && FleetReachable(WithResource(f, m, s)) && Rests(s) && a != d
    requires Declared(s.core, spec, FirstFound(f, m, spec), a) && s.core.site == f.site && s.core.name == m
    requires s.core.db.operations[a].createdAt < stamp && s.core.db.operations[a].status != Succeeded
    requires s.core.guest.conf.Some?
    ensures FleetReachable(WithResource(f, m, t)) && DeletedBehind(t.core, spec, FirstFound(f, m, spec), a, d)
  {
    var found := FirstFound(f, m, spec);
    DeleteRows(s.core, spec, found, a, d, stamp);
    var u := s.(core := WithDelete(s.core, d, stamp));
    DeletionCommits(WithResource(f, m, s), m, q, s, d, stamp);
    Overwrite(f.resources, m, s, u);
    t := RunDelete(q, s, u, spec, found, a, d, stamp);
    LiftAlone(WithResource(f, m, u), m, q, t);
    Overwrite(f.resources, m, u, t);
  }

  /** The row of a deleted machine is not held: the next search comes to its address. */
  lemma ReadyAfterDelete(f: Fleet, m: Name, t: State, found: Allocation, n: Name, p: Pid, spec: Spec)
    requires FleetInitial(f) && m in f.resources && m != n && NewResource(f, n, spec)
    requires t.core.db.allocation == Some(AllocationRow(found, true))
    requires f.site.pools[spec.pool].first <= f.site.pools[spec.pool].last && n in f.macs && |f.macs[n]| > 0
    ensures Ready(WithResource(f, m, t), n, p, spec)
  {
    var g := WithResource(f, m, t);
    forall k | k in TableOf(g) ensures !ActiveIn(TableOf(g), k) {
      if k != m { assert f.resources[k].core.db == EMPTY_DB; }
    }
  }

  /** The search is at the address of a released row; it takes the address, and no MAC lets it commit. */
  ghost predicate AtReleasedAddress(g: Fleet, m: Name, n: Name, p: Pid, spec: Spec) {
    && m in g.resources && TableOf(g)[m].Some? && TableOf(g)[m].value.released
    && CanMove(g, n, p, AskAddress) && g.stages[(n, p)] == Probing(spec, TableOf(g)[m].value.allocation.ip)
    && Moved(g, n, p, AskAddress).stages[(n, p)] == ProbingMac(spec, TableOf(g)[m].value.allocation.ip, 0)
    && forall mac :: !UniqueAllows(TableOf(g), n, TableOf(g)[m].value.allocation.ip, mac)
  }

  /**
    A deleted machine stops its pool: from any beginning with two machines declared in one pool, some run deletes the
    first and leads the search for the second to the released address, which it takes and cannot commit.
   */
  lemma PoolStops(f: Fleet, m: Name, q: Pid, first: Spec, n: Name, p: Pid, second: Spec, a: OpId, d: OpId,
                  stamp: int, later: int) returns (fleets: seq<Fleet>)
    requires FirstMachine(f, m, first) && NewResource(f, n, second) && m != n && second.pool == first.pool
    requires n in f.macs && |f.macs[n]| > 0 && a != d && stamp < later
    ensures IsFleetRun(fleets) && AtReleasedAddress(fleets[|fleets| - 1], m, n, p, second)
  {
    var t := DeletedOnSite(f, m, q, first, a, d, stamp, later);
    var found := FirstFound(f, m, first);
    ReadyAfterDelete(f, m, t, found, n, p, second);
    ComesToPool(WithResource(f, m, t), n, p, stamp, second);
    ComesToReleasedAddress(WithResource(f, m, t), m, found, n, p, stamp, second);
    var g := WithPool(WithWriter(WithResource(f, m, t), n, p, stamp), n, p, second);
    StopsThere(g, m, found, n, p, second);
    fleets :| IsFleetRun(fleets) && fleets[|fleets| - 1] == g;
  }

  lemma StopsThere(g: Fleet, m: Name, found: Allocation, n: Name, p: Pid, spec: Spec)
    requires FleetReachable(g) && g.unique && m in g.resources && m != n
    requires TableOf(g)[m] == Some(AllocationRow(found, true))
    requires (n, p) in g.stages && g.stages[(n, p)] == Probing(spec, found.ip) && CanMove(g, n, p, AskAddress)
    ensures AtReleasedAddress(g, m, n, p, spec)
  {
    ReachableIsShared(g);
    ReleasedAddressStopsThePool(g, n, p, 0, m);
  }

  lemma ComesToReleasedAddress(f: Fleet, m: Name, found: Allocation, n: Name, p: Pid, stamp: int, spec: Spec)
    requires m in f.resources && m != n && Ready(f, n, p, spec)
    requires f.resources[m].core.db.allocation == Some(AllocationRow(found, true))
    requires found.ip == f.site.pools[spec.pool].first
    ensures var g := WithPool(WithWriter(f, n, p, stamp), n, p, spec);
            && m in g.resources && TableOf(g)[m] == Some(AllocationRow(found, true)) && g.unique == f.unique
            && (n, p) in g.stages && g.stages[(n, p)] == Probing(spec, found.ip) && CanMove(g, n, p, AskAddress)
  {
  }
}
