/** What holds for all resources of a site together, in every state of every run. */
module FleetGuarantees {
  import opened Prelude
  import opened Planner
  import opened Journal
  import opened Protocol
  import opened Invariant
  import opened AllocationTable
  import opened Fleets
  import Datasets

  lemma FleetRunKeeps(fleets: seq<Fleet>, i: nat)
    requires IsFleetRun(fleets) && i < |fleets|
    ensures SharedOk(fleets[i]) && ResourcesOk(fleets[i])
  {
    if i == 0 {
      InitialShared(fleets[0]);
      InitialResources(fleets[0]);
    } else {
      FleetRunKeeps(fleets, i - 1);
      assert FleetFollows(fleets, i - 1);
      NextKeeps(fleets[i - 1], fleets[i]);
    }
  }

  lemma NextKeeps(f: Fleet, g: Fleet)
    requires FleetNext(f, g) && SharedOk(f) && ResourcesOk(f)
    ensures SharedOk(g) && ResourcesOk(g)
  {
    var n, p, move :| CanMove(f, n, p, move) && g == Moved(f, n, p, move);
    MoveKeepsShared(f, n, p, move);
    MoveKeepsResources(f, n, p, move);
  }

  lemma FleetRunIsShared(fleets: seq<Fleet>, i: nat)
    requires IsFleetRun(fleets) && i < |fleets|
    ensures SharedOk(fleets[i])
  {
    FleetRunKeeps(fleets, i);
  }

  // ----- one resource of a fleet follows the protocol

  lemma MoveProjects(f: Fleet, n: Name, p: Pid, move: Move, m: Name)
    requires CanMove(f, n, p, move) && m in f.resources
    ensures m in Moved(f, n, p, move).resources
    ensures Moved(f, n, p, move).resources[m] == f.resources[m] || Next(f.resources[m], Moved(f, n, p, move).resources[m])
  {
    if m == n && move.Local? {
      assert Next(f.resources[n], After(f.resources[n], p, move.step));
    } else if m == n && move.CommitAllocation? {
      assert Next(f.resources[n], After(f.resources[n], p, Allocating(f, n, p, move.op)));
    }
  }

  lemma NextProjects(f: Fleet, g: Fleet, m: Name)
    requires FleetNext(f, g) && m in f.resources
    ensures m in g.resources && (g.resources[m] == f.resources[m] || Next(f.resources[m], g.resources[m]))
  {
    var n, p, move :| CanMove(f, n, p, move) && g == Moved(f, n, p, move);
    MoveProjects(f, n, p, move, m);
  }

  /** Whatever goes on elsewhere, a resource is always in a state that its own protocol reaches. */
  lemma ProjectsToRun(fleets: seq<Fleet>, i: nat, n: Name) returns (states: seq<State>)
    requires IsFleetRun(fleets) && i < |fleets| && n in fleets[0].resources
    ensures n in fleets[i].resources && IsRun(states) && states[|states| - 1] == fleets[i].resources[n]
  {
    if i == 0 {
      states := [fleets[0].resources[n]];
    } else {
      var before := ProjectsToRun(fleets, i - 1, n);
      assert FleetFollows(fleets, i - 1);
      NextProjects(fleets[i - 1], fleets[i], n);
      var s := fleets[i].resources[n];
      if s == before[|before| - 1] {
        states := before;
      } else {
        states := before + [s];
        RunExtends(before, s);
      }
    }
  }

  lemma RunExtends(states: seq<State>, s: State)
    requires IsRun(states) && Next(states[|states| - 1], s)
    ensures IsRun(states + [s])
  {
    forall i | 0 <= i < |states + [s]| - 1 ensures Follows(states + [s], i) {
      if i < |states| - 1 { assert Follows(states, i); }
    }
  }

  // ----- uniqueness

  /**
    In one pool, active allocations differ in address and MAC: the lock of the pool and the search see to it, whether
    or not the UNIQUE constraints are in force.  With them, all rows differ, released ones included.
   */
  lemma AllocationsAreDistinct(fleets: seq<Fleet>, i: nat, m: Name, n: Name)
    requires IsFleetRun(fleets) && i < |fleets| && m != n
    ensures var t := TableOf(fleets[i]);
            && (SamePoolActive(t, m, n) ==>
                  t[m].value.allocation.ip != t[n].value.allocation.ip && t[m].value.allocation.mac != t[n].value.allocation.mac)
            && (fleets[i].unique && m in t && n in t && t[m].Some? && t[n].Some? ==>
                  t[m].value.allocation.ip != t[n].value.allocation.ip && t[m].value.allocation.mac != t[n].value.allocation.mac)
  {
    FleetRunKeeps(fleets, i);
  }

  /** The address of a row is one of its pool's. */
  lemma AllocationsFitTheirPools(fleets: seq<Fleet>, i: nat, n: Name)
    requires IsFleetRun(fleets) && i < |fleets| && n in TableOf(fleets[i]) && TableOf(fleets[i])[n].Some?
    ensures RowFits(fleets[i].site, n, TableOf(fleets[i])[n].value.allocation)
  {
    FleetRunKeeps(fleets, i);
  }

  /** What site validation demands of the Kea subnets of the pools. */
  predicate SubnetsDiffer(site: Site) {
    forall p <- site.pools, q <- site.pools :: p != q ==> site.pools[p].subnet != site.pools[q].subnet
  }

  /**
    Kea reservations are isolated.  Two resources with active rows, and with the constraints any two rows, have
    different reservation keys: by the MAC within a pool, by the subnet across pools.
   */
  lemma ReservationsAreApart(fleets: seq<Fleet>, i: nat, m: Name, n: Name)
    requires IsFleetRun(fleets) && i < |fleets| && m != n && SubnetsDiffer(fleets[i].site)
    requires var t := TableOf(fleets[i]);
             m in t && n in t && t[m].Some? && t[n].Some?
             && (fleets[i].unique || (!t[m].value.released && !t[n].value.released))
    ensures var a, b := TableOf(fleets[i])[m].value.allocation, TableOf(fleets[i])[n].value.allocation;
            (a.subnet, a.mac) != (b.subnet, b.mac)
  {
    AllocationsAreDistinct(fleets, i, m, n);
    AllocationsFitTheirPools(fleets, i, m);
    AllocationsFitTheirPools(fleets, i, n);
  }

  /** Two workers that have chosen the same address, or the same MAC, are in different pools ... */
  lemma SameChoiceMeansOtherPool(fleets: seq<Fleet>, i: nat, v: Worker, w: Worker)
    requires IsFleetRun(fleets) && i < |fleets| && v != w && v in fleets[i].stages && w in fleets[i].stages
    requires fleets[i].stages[v].Chosen? && fleets[i].stages[w].Chosen?
    ensures fleets[i].stages[v].spec.pool != fleets[i].stages[w].spec.pool
  {
    FleetRunKeeps(fleets, i);
    OthersAreInOtherPools(fleets[i], v.0, v.1, w);
  }

  /** ... and then nothing but the UNIQUE constraint keeps the second from committing after the first. */
  lemma PoolsNeedTheConstraint(f: Fleet, n: Name, p: Pid, op: OpId, m: Name, q: Pid, op': OpId)
    requires SharedOk(f) && CanMove(f, n, p, CommitAllocation(op)) && CanMove(f, m, q, CommitAllocation(op')) && n != m
    requires f.stages[(m, q)].ip == f.stages[(n, p)].ip || f.stages[(m, q)].mac == f.stages[(n, p)].mac
    ensures CanMove(Moved(f, n, p, CommitAllocation(op)), m, q, CommitAllocation(op')) <==> !f.unique
  {
    var g := Moved(f, n, p, CommitAllocation(op));
    OtherWorkerStays(f, n, p, op, m, q);
    CommitSetsRow(f, n, p, op);
    assert n in TableOf(g) && TableOf(g)[n].Some?;
    SameFound(f, g, m, q, op');
  }

  lemma OtherWorkerStays(f: Fleet, n: Name, p: Pid, op: OpId, m: Name, q: Pid)
    requires CanMove(f, n, p, CommitAllocation(op)) && n != m && Prepares(f, m, q) && (m, q) in f.stages
    ensures var g := Moved(f, n, p, CommitAllocation(op));
            && Prepares(g, m, q) && (m, q) in g.stages && g.stages[(m, q)] == f.stages[(m, q)]
            && g.resources[m] == f.resources[m] && g.site == f.site && g.unique == f.unique
  {
  }

  lemma SameFound(f: Fleet, g: Fleet, m: Name, q: Pid, op: OpId)
    requires m in f.resources && m in g.resources && (m, q) in f.stages && (m, q) in g.stages
    requires g.stages[(m, q)] == f.stages[(m, q)] && g.resources[m] == f.resources[m] && g.site == f.site
    requires f.stages[(m, q)].Chosen? && f.stages[(m, q)].spec.pool in f.site.pools
    ensures Allocating(g, m, q, op) == Allocating(f, m, q, op)
  {
  }

  lemma CommitSetsRow(f: Fleet, n: Name, p: Pid, op: OpId)
    requires SharedOk(f) && CanMove(f, n, p, CommitAllocation(op))
    ensures var Chosen(spec, ip, mac) := f.stages[(n, p)];
            TableOf(Moved(f, n, p, CommitAllocation(op)))
            == TableOf(f)[n := Some(AllocationRow(FoundFor(f, n, spec, ip, mac), false))]
  {
    var Chosen(spec, ip, mac) := f.stages[(n, p)];
    assert StageOk(f, n, f.stages[(n, p)]);
    AllocatingSetsRow(f.resources[n], p, spec, FoundFor(f, n, spec, ip, mac), op);
    PutRow(WithoutWorker(f, n, p), n, After(f.resources[n], p, Allocating(f, n, p, op)));
    SameRows(f, WithoutWorker(f, n, p));
  }

  // ----- released rows

  /** Another resource's released row has this address or this MAC. */
  predicate ReleasedHas(t: Table, n: Name, ip: Ip, mac: Mac) {
    exists m <- t :: m != n && t[m].Some? && t[m].value.released
                     && (t[m].value.allocation.ip == ip || t[m].value.allocation.mac == mac)
  }

  /**
    Addresses of released rows are not free.  The search does not see them, but the commit of what it has chosen goes
    through exactly when no released row of another resource has the address or the MAC.
   */
  lemma ReleasedAddressesAreNotFree(t: Table, n: Name, ip: Ip, mac: Mac)
    requires !IpHeld(t, n, ip) && !MacHeld(t, n, mac)
    ensures UniqueAllows(t, n, ip, mac) <==> !ReleasedHas(t, n, ip, mac)
  {
    if !ReleasedHas(t, n, ip, mac) {
      forall m | m in t && m != n && t[m].Some?
        ensures t[m].value.allocation.ip != ip && t[m].value.allocation.mac != mac
      {
        assert ActiveIn(t, m) || t[m].value.released;
      }
    }
  }

  /**
    A machine that was deleted thereby stops its pool: while its row lies on the least address that nobody holds,
    every search of another resource chooses that address, and no such choice can be committed.
   */
  lemma ReleasedAddressStopsThePool(f: Fleet, n: Name, p: Pid, op: OpId, m: Name)
    requires SharedOk(f) && f.unique && m in f.resources && m != n
    requires TableOf(f)[m].Some? && TableOf(f)[m].value.released
    requires (n, p) in f.stages && f.stages[(n, p)].Probing?
    requires f.stages[(n, p)].next == TableOf(f)[m].value.allocation.ip && CanMove(f, n, p, AskAddress)
    ensures Moved(f, n, p, AskAddress).stages[(n, p)] == ProbingMac(f.stages[(n, p)].spec, f.stages[(n, p)].next, 0)
    ensures forall mac :: !UniqueAllows(TableOf(f), n, f.stages[(n, p)].next, mac)
  {
    var t, ip := TableOf(f), f.stages[(n, p)].next;
    forall k | k in t && k != n && ActiveIn(t, k) ensures t[k].value.allocation.ip != ip {
      assert k != m && DistinctRows(t);
    }
  }

  // ----- no deadlock

  /** Whom a worker waits for. */
  function BlockedBy(f: Fleet, w: Worker): Option<Worker> {
    if w in f.stages && f.stages[w].PoolWanted? && f.stages[w].spec.pool in f.poolLocks then
      Some(f.poolLocks[f.stages[w].spec.pool])
    else if Writes(f.resources, w.0, w.1) && w.0 in f.resourceLocks && f.resourceLocks[w.0] != w.1 then
      Some((w.0, f.resourceLocks[w.0]))
    else None
  }

  /** Two processes never write at the same resource, so the lock of a resource is never waited for. */
  lemma OneWriter(f: Fleet, n: Name, p: Pid, q: Pid)
    requires ResourcesOk(f) && Writes(f.resources, n, p) && Writes(f.resources, n, q)
    ensures p == q
  {
    var s := f.resources[n];
    assert Inv(s);
    assert Holds(s.procs[p]) && Holds(s.procs[q]);
  }

  /** Whoever is waited for has its resource and its pool and waits for nobody. */
  lemma BlockersAreNotBlocked(fleets: seq<Fleet>, i: nat, w: Worker)
    requires IsFleetRun(fleets) && i < |fleets| && BlockedBy(fleets[i], w).Some?
    ensures var o := BlockedBy(fleets[i], w).value;
            && BlockedBy(fleets[i], o).None? && Prepares(fleets[i], o.0, o.1)
            && o in fleets[i].stages && !fleets[i].stages[o].PoolWanted?
  {
    FleetRunKeeps(fleets, i);
    var f := fleets[i];
    if !(w in f.stages && f.stages[w].PoolWanted? && f.stages[w].spec.pool in f.poolLocks) {
      OneWriter(f, w.0, w.1, f.resourceLocks[w.0]);
    }
  }

  /** No set of preparations waits in a circle. */
  lemma NoDeadlock(fleets: seq<Fleet>, i: nat, waiting: set<Worker>)
    requires IsFleetRun(fleets) && i < |fleets| && waiting != {}
    ensures exists w <- waiting :: BlockedBy(fleets[i], w).None? || BlockedBy(fleets[i], w).value !in waiting
  {
    var w :| w in waiting;
    if BlockedBy(fleets[i], w).Some? {
      BlockersAreNotBlocked(fleets, i, w);
      assert BlockedBy(fleets[i], BlockedBy(fleets[i], w).value).None?;
    }
  }

  // ----- storage

  /** Deleting one machine leaves the storage of every other: their datasets never nest. */
  lemma StorageIsIsolated(fleets: seq<Fleet>, i: nat, m: Name, n: Name)
    requires IsFleetRun(fleets) && i < |fleets| && m != n && Datasets.IsLabel(m) && Datasets.IsLabel(n)
    requires m in TableOf(fleets[i]) && n in TableOf(fleets[i]) && TableOf(fleets[i])[m].Some? && TableOf(fleets[i])[n].Some?
    ensures var a, b := TableOf(fleets[i])[m].value.allocation, TableOf(fleets[i])[n].value.allocation;
            && !Datasets.Within(b.dataset, a.dataset) && !Datasets.Within(b.zvol, a.dataset)
            && Datasets.Within(a.zvol, a.dataset)
  {
    FleetRunKeeps(fleets, i);
    Datasets.DestroyIsIsolated(fleets[i].site.vmDataset, m, n);
    Datasets.OwnVolumeIsWithin(fleets[i].site.vmDataset, m);
  }
}
