/** The allocation rows of all resources, and which of them may coexist. */
module AllocationTable {
  import opened Prelude
  import opened Planner
  import opened Journal
  import Datasets

  /** The allocation table. */
  type Table = map<Name, Option<AllocationRow>>

  predicate ActiveIn(t: Table, n: Name) {
    n in t && t[n].Some? && !t[n].value.released
  }

  /** The queries: an active row of another resource has this address, or this MAC. */
  predicate IpHeld(t: Table, n: Name, ip: Ip) {
    exists m <- t :: m != n && ActiveIn(t, m) && t[m].value.allocation.ip == ip
  }

  predicate MacHeld(t: Table, n: Name, mac: Mac) {
    exists m <- t :: m != n && ActiveIn(t, m) && t[m].value.allocation.mac == mac
  }

  /** The UNIQUE constraints cover released rows as well. */
  predicate UniqueAllows(t: Table, n: Name, ip: Ip, mac: Mac) {
    forall m <- t :: m != n && t[m].Some? ==> t[m].value.allocation.ip != ip && t[m].value.allocation.mac != mac
  }

  /** Nothing was allocated: rows keep what they say, and none becomes active. */
  predicate QuietRow(before: Option<AllocationRow>, after: Option<AllocationRow>) {
    (after.Some? <==> before.Some?)
    && (after.Some? ==> after.value.allocation == before.value.allocation && (before.value.released ==> after.value.released))
  }

  predicate Quiet(t: Table, u: Table) {
    t.Keys == u.Keys && forall n <- t :: QuietRow(t[n], u[n])
  }

  predicate FreeIn(t: Table, n: Name, pool: string, ip: Ip) {
    forall m <- t :: m != n && ActiveIn(t, m) && t[m].value.allocation.pool == pool ==> t[m].value.allocation.ip != ip
  }

  predicate MacFreeIn(t: Table, n: Name, pool: string, mac: Mac) {
    forall m <- t :: m != n && ActiveIn(t, m) && t[m].value.allocation.pool == pool ==> t[m].value.allocation.mac != mac
  }

  predicate SamePoolActive(t: Table, m: Name, n: Name) {
    ActiveIn(t, m) && ActiveIn(t, n) && t[m].value.allocation.pool == t[n].value.allocation.pool
  }

  /** Active allocations of one pool differ in address and MAC. */
  predicate DistinctInPools(t: Table) {
    forall m <- t, n <- t :: m != n && SamePoolActive(t, m, n) ==>
      t[m].value.allocation.ip != t[n].value.allocation.ip && t[m].value.allocation.mac != t[n].value.allocation.mac
  }

  /** All rows, released ones included, differ in address and MAC. */
  predicate DistinctRows(t: Table) {
    forall m <- t, n <- t :: m != n && t[m].Some? && t[n].Some? ==>
      t[m].value.allocation.ip != t[n].value.allocation.ip && t[m].value.allocation.mac != t[n].value.allocation.mac
  }

  /** What the search guarantees of a row: an address of its pool and datasets of its own. */
  predicate RowFits(site: Site, n: Name, a: Allocation) {
    && a.pool in site.pools && site.pools[a.pool].first <= a.ip <= site.pools[a.pool].last
    && a.subnet == site.pools[a.pool].subnet
    && a.dataset == Datasets.Dataset(site.vmDataset, n) && a.zvol == Datasets.Zvol(site.vmDataset, n)
  }

  predicate TableOk(site: Site, unique: bool, t: Table) {
    && DistinctInPools(t) && (unique ==> DistinctRows(t))
    && (forall n <- t :: t[n].Some? ==> RowFits(site, n, t[n].value.allocation))
  }

  lemma QuietKeepsTable(site: Site, unique: bool, t: Table, u: Table)
    requires Quiet(t, u) && TableOk(site, unique, t)
    ensures TableOk(site, unique, u)
  {
    forall n | ActiveIn(u, n) ensures ActiveIn(t, n) { assert QuietRow(t[n], u[n]); }
    forall m, n | m in u && n in u && m != n && SamePoolActive(u, m, n)
      ensures u[m].value.allocation.ip != u[n].value.allocation.ip && u[m].value.allocation.mac != u[n].value.allocation.mac
    {
      assert QuietRow(t[m], u[m]) && QuietRow(t[n], u[n]);
    }
  }

  lemma QuietKeepsFree(t: Table, u: Table, n: Name, pool: string, ip: Ip, mac: Mac)
    requires Quiet(t, u)
    ensures FreeIn(t, n, pool, ip) ==> FreeIn(u, n, pool, ip)
    ensures MacFreeIn(t, n, pool, mac) ==> MacFreeIn(u, n, pool, mac)
  {
    forall m | m in u && ActiveIn(u, m)
      ensures m in t && ActiveIn(t, m) && t[m].value.allocation == u[m].value.allocation
    {
      assert QuietRow(t[m], u[m]);
    }
  }

  lemma AllocatingKeepsTable(site: Site, unique: bool, t: Table, n: Name, a: Allocation)
    requires TableOk(site, unique, t) && n in t && RowFits(site, n, a)
    requires FreeIn(t, n, a.pool, a.ip) && MacFreeIn(t, n, a.pool, a.mac)
    requires unique ==> UniqueAllows(t, n, a.ip, a.mac)
    ensures TableOk(site, unique, t[n := Some(AllocationRow(a, false))])
  {
    var u := t[n := Some(AllocationRow(a, false))];
    forall m | m in u && m != n ensures u[m] == t[m] && ActiveIn(u, m) == ActiveIn(t, m) {
    }
    assert DistinctInPools(u);
  }

  lemma AllocatingKeepsFree(t: Table, n: Name, a: Allocation, m: Name, pool: string, ip: Ip, mac: Mac)
    requires n in t && pool != a.pool
    ensures FreeIn(t, m, pool, ip) ==> FreeIn(t[n := Some(AllocationRow(a, false))], m, pool, ip)
    ensures MacFreeIn(t, m, pool, mac) ==> MacFreeIn(t[n := Some(AllocationRow(a, false))], m, pool, mac)
  {
    var u := t[n := Some(AllocationRow(a, false))];
    forall k | k in u && k != n ensures u[k] == t[k] && ActiveIn(u, k) == ActiveIn(t, k) {
    }
  }
}
