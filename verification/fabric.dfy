/** The governance engine: an object whose methods update its registries in place under one lock. */
module FabricEngine {
  import opened Base
  import opened Order
  import opened Records
  import opened Evaluation
  import opened Placement
  import opened Ledger
  import Spec

  method RecomputePool(pool: Pool) returns (p: Pool)
    ensures p == Recomputed(pool)
  {
    var total: u64, unavailable: u64 := 0, 0;
    var domains: seq<Str> := [];
    var ms := pool.members;
    for i := 0 to |ms|
      invariant total == GovernedTotal(ms[..i]) && unavailable == UnavailableTotal(ms[..i])
      invariant domains == Domains(ms[..i])
    {
      assert ms[..i + 1][..i] == ms[..i];
      if !ms[i].online { continue; }
      if total <= U64_MAX - ms[i].nominalBytes { total := total + ms[i].nominalBytes; }
      if !ms[i].healthOk {
        if unavailable <= U64_MAX - ms[i].nominalBytes { unavailable := unavailable + ms[i].nominalBytes; }
      }
      if ms[i].failureDomain != [] && ms[i].failureDomain !in domains {
        domains := domains + [ms[i].failureDomain];
      }
    }
    assert ms[..|ms|] == ms;
    p := pool.(totalGoverned := total, unavailable := unavailable, failureDomains := domains);
  }

  method FindMember(ms: seq<PoolMember>, device: Str) returns (at: nat)
    ensures at <= |ms| && forall i | 0 <= i < at :: ms[i].device != device
    ensures at < |ms| ==> ms[at].device == device
    ensures at < |ms| <==> Spec.IsMember(ms, device)
  {
    at := 0;
    while at < |ms| && ms[at].device != device
      invariant at <= |ms| && forall i | 0 <= i < at :: ms[i].device != device
    {
      at := at + 1;
    }
  }

  lemma {:induction false} ErasedIsWithout(ms: seq<PoolMember>, device: Str, at: nat)
    requires at < |ms| && ms[at].device == device && forall i | 0 <= i < at :: ms[i].device != device
    ensures ms[..at] + ms[at + 1..] == Spec.Without(ms, device)
  {
    if at > 0 {
      ErasedIsWithout(ms[1..], device, at - 1);
      assert ms[..at] + ms[at + 1..] == [ms[0]] + (ms[1..][..at - 1] + ms[1..][at..]);
    }
  }

  method IsGoverned(pools: map<Str, Pool>, device: Str) returns (found: bool)
    ensures found <==> Spec.Governed(pools, device)
  {
    var keys := SortedKeys(pools.Keys);
    SortedKeysCover(pools.Keys);
    for i := 0 to |keys|
      invariant forall j | 0 <= j < i :: !Spec.IsMember(pools[keys[j]].members, device)
    {
      var at := FindMember(pools[keys[i]].members, device);
      if at < |pools[keys[i]].members| { return true; }
    }
    assert forall k | k in pools :: k in keys;
    found := false;
  }

  /** One pass of the recomputation loop: the first overflowing field abandons the pool. */
  method AccumulatePool(line: CapacityLine, p: Pool) returns (g: CapacityLine)
    ensures g == AddPool(line, p)
  {
    g := line;
    if p.state.PoolRetired? || g.total > U64_MAX - p.totalGoverned { return; }
    g := g.(total := g.total + p.totalGoverned);
    if g.online > U64_MAX - p.totalGoverned { return; }
    g := g.(online := g.online + p.totalGoverned);
    if g.unavailable > U64_MAX - p.unavailable { return; }
    g := g.(unavailable := g.unavailable + p.unavailable);
    if g.reserved > U64_MAX - p.reserved { return; }
    g := g.(reserved := g.reserved + p.reserved);
    if g.committed > U64_MAX - p.committed { return; }
    g := g.(committed := g.committed + p.committed);
    if g.draining > U64_MAX - p.draining { return; }
    g := g.(draining := g.draining + p.draining);
  }

  /** One pass of the audit loop: each field is added or skipped on its own. */
  method AccumulateAudit(line: CapacityLine, p: Pool) returns (g: CapacityLine)
    ensures g == AuditPool(line, p)
  {
    g := line;
    if p.state.PoolRetired? { return; }
    if g.total <= U64_MAX - p.totalGoverned { g := g.(total := g.total + p.totalGoverned); }
    if g.online <= U64_MAX - p.totalGoverned { g := g.(online := g.online + p.totalGoverned); }
    if g.unavailable <= U64_MAX - p.unavailable { g := g.(unavailable := g.unavailable + p.unavailable); }
    if g.reserved <= U64_MAX - p.reserved { g := g.(reserved := g.reserved + p.reserved); }
    if g.committed <= U64_MAX - p.committed { g := g.(committed := g.committed + p.committed); }
    if g.draining <= U64_MAX - p.draining { g := g.(draining := g.draining + p.draining); }
  }

  /** The greedy release of one pair of counters. */
  method DrawDown(committed: u64, reserved: u64, bytes: u64) returns (d: Spec.Drawdown)
    ensures d == Spec.Draw(committed, reserved, bytes)
  {
    var c, r, remaining := committed, reserved, bytes;
    if remaining > 0 && c > 0 {
      var take := if remaining < c then remaining else c;
      c := c - take;
      remaining := remaining - take;
    }
    if remaining > 0 && remaining <= r {
      r := r - remaining;
      remaining := 0;
    }
    d := Spec.Drawdown(c, r, remaining);
  }

  method ReleaseFromPool(pool: Pool, bytes: u64) returns (p: Pool, remaining: u64)
    ensures p == Spec.DebitPool(pool, bytes)
    ensures remaining == Spec.Draw(pool.committed, pool.reserved, bytes).remaining
  {
    var d := DrawDown(pool.committed, pool.reserved, bytes);
    p, remaining := pool.(committed := d.committed, reserved := d.reserved), d.remaining;
  }

  method ReleaseFromRegion(region: Region, bytes: u64) returns (r: Region)
    ensures r == Spec.DebitRegion(region, bytes)
  {
    var d := DrawDown(region.committed, region.reserved, bytes);
    r := region.(committed := d.committed, reserved := d.reserved);
  }

  method AuditPools(pools: map<Str, Pool>) returns (g: CapacityLine, overused: seq<Str>)
    ensures g == AuditLine(pools)
    ensures overused == Overused(pools)
  {
    g, overused := EMPTY_LINE, [];
    var keys := SortedKeys(pools.Keys);
    SortedKeysCover(pools.Keys);
    for i := 0 to |keys|
      invariant g == AuditLineAlong(pools, keys[..i])
      invariant overused == OverusedAlong(pools, keys[..i])
    {
      assert keys[..i + 1][..i] == keys[..i];
      var p := pools[keys[i]];
      g := AccumulateAudit(g, p);
      if !p.state.PoolRetired? && p.totalGoverned < PoolUsed(p) { overused := overused + [p.id]; }
    }
    assert keys[..|keys|] == keys;
  }

  class Fabric {
    var epoch: u64
    var policyGeneration: u64
    var evidenceGeneration: u64
    var devices: map<Str, Device>
    var regions: map<Str, Region>
    var pools: map<Str, Pool>
    var reservations: map<Str, Reservation>
    var ledger: CapacityLine
    var sequence: u64

    ghost function Abs(): Spec.State
      reads this
    {
      Spec.State(epoch, policyGeneration, evidenceGeneration, devices, regions, pools, reservations, ledger, sequence)
    }

    constructor (epoch: u64, policy: u64)
      ensures Abs() == Spec.Initial(epoch, policy)
    {
      this.epoch, policyGeneration, evidenceGeneration := epoch, policy, 0;
      devices, regions, pools, reservations := map[], map[], map[], map[];
      ledger, sequence := EMPTY_LINE, 0;
    }

    method SetEpoch(e: u64)
      modifies this`epoch
      ensures Abs() == old(Abs()).(epoch := e)
    {
      epoch := e;
    }

    method SetPolicyGeneration(p: u64)
      modifies this`policyGeneration
      ensures Abs() == old(Abs()).(policyGeneration := p)
    {
      policyGeneration := p;
    }

    method AdvanceEvidenceGeneration()
      modifies this`evidenceGeneration
      ensures Abs() == old(Abs()).(evidenceGeneration := AdvanceGeneration(old(evidenceGeneration)))
    {
      var n := NextGeneration(evidenceGeneration);
      if n != 0 { evidenceGeneration := n; }
    }

    method RecomputeGlobal()
      modifies this`ledger
      ensures ledger == GlobalLine(pools)
    {
      var g := EMPTY_LINE;
      var keys := SortedKeys(pools.Keys);
      SortedKeysCover(pools.Keys);
      for i := 0 to |keys|
        invariant g == LineAlong(pools, keys[..i])
      {
        assert keys[..i + 1][..i] == keys[..i];
        var p := pools[keys[i]];
        g := AccumulatePool(g, p);
      }
      assert keys[..|keys|] == keys;
      ledger := g;
    }

    method RegisterDevice(dev: Device, ctx: Authority) returns (why: Reason)
      modifies this`devices
      ensures (Abs(), why) == Spec.RegisterDevice(old(Abs()), dev, ctx)
    {
      if ctx.epoch != epoch { return RESERVATION_STALE; }
      if dev.id == [] || dev.generation == 0 || dev.bootId == [] { return INVALID_ARGUMENT; }
      if dev.id !in devices {
        devices := devices[dev.id := dev];
        return OK;
      }
      var existing := devices[dev.id];
      if existing.generation == dev.generation {
        if existing.vendorDeviceId != dev.vendorDeviceId { return CONFLICTING_FACTS; }
        if existing.totalPhysicalBytes != dev.totalPhysicalBytes { return CONFLICTING_FACTS; }
        devices := devices[dev.id := dev];
        return OK;
      }
      if dev.generation < existing.generation { return DEVICE_STALE; }
      if !DeviceTransition(existing.state, dev.state) { return INVALID_ARGUMENT; }
      devices := devices[dev.id := dev];
      why := OK;
    }

    method CreateRegion(region: Region, ctx: Authority) returns (why: Reason)
      modifies this`regions
      ensures (Abs(), why) == Spec.CreateRegion(old(Abs()), region, ctx)
    {
      if ctx.epoch != epoch { return RESERVATION_STALE; }
      if region.id == [] || region.generation == 0 || region.pool == [] { return INVALID_ARGUMENT; }
      if region.id in regions { return DUPLICATE_IDENTITY; }
      if region.pool !in pools { return POOL_STALE; }
      var pool := pools[region.pool];
      var names := region.members;
      for i := 0 to |names|
        invariant Spec.MembersVerdict(Abs(), pool, names) == Spec.MembersVerdict(Abs(), pool, names[i..])
        invariant unchanged(this)
      {
        assert names[i..][1..] == names[i + 1..];
        if names[i] !in devices { return DEVICE_NOT_ONLINE; }
        var at := FindMember(pool.members, names[i]);
        if at == |pool.members| { return CONFLICTING_FACTS; }
      }
      regions := regions[region.id := region];
      why := OK;
    }

    method UpdateRegion(region: Region, ctx: Authority) returns (why: Reason)
      modifies this`regions
      ensures (Abs(), why) == Spec.UpdateRegion(old(Abs()), region, ctx)
    {
      if ctx.epoch != epoch { return RESERVATION_STALE; }
      if region.id !in regions { return REGION_STALE; }
      if region.generation < regions[region.id].generation { return REGION_STALE; }
      regions := regions[region.id := region];
      why := OK;
    }

    method ReconfigureRegion(id: Str, members: seq<Str>, ctx: Authority) returns (why: Reason)
      modifies this`regions
      ensures (Abs(), why) == Spec.ReconfigureRegion(old(Abs()), id, members, ctx)
    {
      if ctx.epoch != epoch { return RESERVATION_STALE; }
      if id !in regions { return REGION_STALE; }
      var next := NextGeneration(regions[id].generation);
      if next == 0 { return INVALID_ARGUMENT; }
      var r := regions[id].(generation := next);
      r := r.(members := members);
      r := r.(state := RegionReconfiguring);
      r := r.(evidenceCurrent := false);
      regions := regions[id := r];
      why := OK;
    }

    method CreatePool(pool: Pool, ctx: Authority) returns (why: Reason)
      modifies this`pools, this`ledger
      ensures (Abs(), why) == Spec.CreatePool(old(Abs()), pool, ctx)
    {
      if ctx.epoch != epoch { return RESERVATION_STALE; }
      if pool.id == [] || pool.generation == 0 { return INVALID_ARGUMENT; }
      if pool.id in pools { return DUPLICATE_IDENTITY; }
      var ms := pool.members;
      for i := 0 to |ms|
        invariant Spec.PoolVerdict(Abs(), ms, 0) == Spec.PoolVerdict(Abs(), ms, i)
        invariant unchanged(this)
      {
        if ms[i].device !in devices { return DEVICE_NOT_ONLINE; }
        var at := FindMember(ms[..i], ms[i].device);
        if at < i { return DUPLICATE_IDENTITY; }
        var taken := IsGoverned(pools, ms[i].device);
        if taken { return CONFLICTING_FACTS; }
      }
      var copy := RecomputePool(pool);
      copy := copy.(state := PoolAvailable);
      copy := copy.(evidenceCurrent := true);
      pools := pools[copy.id := copy];
      RecomputeGlobal();
      why := OK;
    }

    method AddPoolMember(poolId: Str, m: PoolMember, ctx: Authority) returns (why: Reason)
      modifies this`pools, this`ledger
      ensures (Abs(), why) == Spec.AddMember(old(Abs()), poolId, m, ctx)
    {
      if ctx.epoch != epoch { return RESERVATION_STALE; }
      if poolId !in pools { return POOL_STALE; }
      if m.device !in devices { return DEVICE_NOT_ONLINE; }
      if m.deviceGeneration == 0 { return INVALID_ARGUMENT; }
      var at := FindMember(pools[poolId].members, m.device);
      if at < |pools[poolId].members| { return DUPLICATE_IDENTITY; }
      var taken := IsGoverned(pools - {poolId}, m.device);
      if taken { return CONFLICTING_FACTS; }
      var p := pools[poolId].(members := pools[poolId].members + [m]);
      var next := NextGeneration(p.generation);
      if next != 0 { p := p.(generation := next); }
      p := RecomputePool(p);
      pools := pools[poolId := p];
      RecomputeGlobal();
      why := OK;
    }

    method RemovePoolMember(poolId: Str, device: Str, ctx: Authority) returns (why: Reason)
      modifies this`pools, this`ledger
      ensures (Abs(), why) == Spec.RemoveMember(old(Abs()), poolId, device, ctx)
    {
      if ctx.epoch != epoch { return RESERVATION_STALE; }
      if poolId !in pools { return POOL_STALE; }
      var ms := pools[poolId].members;
      var at := FindMember(ms, device);
      if at == |ms| { return DEVICE_NOT_ONLINE; }
      ErasedIsWithout(ms, device, at);
      var p := pools[poolId].(members := ms[..at] + ms[at + 1..]);
      var next := NextGeneration(p.generation);
      if next != 0 { p := p.(generation := next); }
      p := RecomputePool(p);
      pools := pools[poolId := p];
      RecomputeGlobal();
      why := OK;
    }

    method MarkDeviceRevalidation(id: Str, ctx: Authority) returns (why: Reason)
      modifies this`devices
      ensures (Abs(), why) == Spec.MarkDevice(old(Abs()), id, RevalidationRequired, false, ctx)
    {
      if ctx.epoch != epoch { return RESERVATION_STALE; }
      if id !in devices { return DEVICE_NOT_ONLINE; }
      if !DeviceTransition(devices[id].state, RevalidationRequired) { return INVALID_ARGUMENT; }
      var d := devices[id].(state := RevalidationRequired);
      d := d.(evidenceCurrent := false);
      devices := devices[id := d];
      why := OK;
    }

    method MarkDeviceOnline(id: Str, ctx: Authority) returns (why: Reason)
      modifies this`devices
      ensures (Abs(), why) == Spec.MarkDevice(old(Abs()), id, Online, true, ctx)
    {
      if ctx.epoch != epoch { return RESERVATION_STALE; }
      if id !in devices { return DEVICE_NOT_ONLINE; }
      if !DeviceTransition(devices[id].state, Online) { return INVALID_ARGUMENT; }
      var d := devices[id].(state := Online);
      d := d.(evidenceCurrent := true);
      devices := devices[id := d];
      why := OK;
    }

    method MarkRegionDraining(id: Str, ctx: Authority) returns (why: Reason)
      modifies this`regions
      ensures (Abs(), why) == Spec.MarkRegionDraining(old(Abs()), id, ctx)
    {
      if ctx.epoch != epoch { return RESERVATION_STALE; }
      if id !in regions { return REGION_STALE; }
      if !RegionTransition(regions[id].state, RegionDraining) { return INVALID_ARGUMENT; }
      regions := regions[id := regions[id].(state := RegionDraining)];
      why := OK;
    }

    method MarkPoolDraining(id: Str, ctx: Authority) returns (why: Reason)
      modifies this`pools
      ensures (Abs(), why) == Spec.MarkPoolDraining(old(Abs()), id, ctx)
    {
      if ctx.epoch != epoch { return RESERVATION_STALE; }
      if id !in pools { return POOL_STALE; }
      if !PoolTransition(pools[id].state, PoolDraining) { return INVALID_ARGUMENT; }
      pools := pools[id := pools[id].(state := PoolDraining)];
      why := OK;
    }

    method ReconcilePool(id: Str, ctx: Authority) returns (why: Reason)
      modifies this`pools, this`ledger
      ensures (Abs(), why) == Spec.ReconcilePool(old(Abs()), id, ctx)
    {
      if ctx.epoch != epoch { return RESERVATION_STALE; }
      if id !in pools { return POOL_STALE; }
      var p := RecomputePool(pools[id]);
      pools := pools[id := p];
      RecomputeGlobal();
      why := OK;
    }

    method RevalidatePool(id: Str, ctx: Authority) returns (why: Reason)
      modifies this`pools, this`ledger
      ensures (Abs(), why) == Spec.RevalidatePool(old(Abs()), id, ctx)
    {
      if ctx.epoch != epoch { return RESERVATION_STALE; }
      if id !in pools { return POOL_STALE; }
      if !PoolTransition(pools[id].state, PoolAvailable) { return INVALID_ARGUMENT; }
      var p := pools[id].(state := PoolAvailable);
      p := p.(evidenceCurrent := true);
      p := p.(healthSummary := HEALTH_HEALTHY);
      p := RecomputePool(p);
      pools := pools[id := p];
      RecomputeGlobal();
      why := OK;
    }

    method RevalidateRegion(id: Str, ctx: Authority) returns (why: Reason)
      modifies this`regions
      ensures (Abs(), why) == Spec.RevalidateRegion(old(Abs()), id, ctx)
    {
      if ctx.epoch != epoch { return RESERVATION_STALE; }
      if id !in regions { return REGION_STALE; }
      if !RegionTransition(regions[id].state, RegionOnline) { return INVALID_ARGUMENT; }
      var r := regions[id].(state := RegionOnline);
      r := r.(evidenceCurrent := true);
      r := r.(health := HEALTH_HEALTHY);
      regions := regions[id := r];
      why := OK;
    }

    method Select(req: Request) returns (out: SelectionOutcome)
      ensures out == Placement.Select(Abs().Snapshot(), req)
    {
      out := BuildSelection(View(devices, regions, pools), req);
    }

    method Reserve(req: Request, ctx: Authority) returns (o: Spec.ReserveOutcome)
      modifies this`pools, this`regions, this`reservations, this`ledger, this`sequence
      ensures (Abs(), o) == Spec.Reserve(old(Abs()), req, ctx)
    {
      if ctx.epoch != epoch { return Spec.Refused(RESERVATION_STALE); }
      if req.bytes == 0 { return Spec.Refused(INVALID_ARGUMENT); }
      var sel := BuildSelection(View(devices, regions, pools), req);
      if !sel.ok { return Spec.Refused(sel.result.reason); }
      o := Book(sel.chosen.value, req, ctx);
    }

    method Book(c: Candidate, req: Request, ctx: Authority) returns (o: Spec.ReserveOutcome)
      modifies this`pools, this`regions, this`reservations, this`ledger, this`sequence
      ensures (Abs(), o) == Spec.Book(old(Abs()), c, req, ctx)
    {
      if c.pool !in pools || c.region !in regions || c.device !in devices { return Spec.Refused(UNKNOWN_ERROR); }
      if pools[c.pool].generation != c.poolGeneration || regions[c.region].generation != c.regionGeneration ||
         devices[c.device].generation != c.deviceGeneration {
        return Spec.Refused(POOL_GENERATION_STALE);
      }
      if req.bytes > PoolFree(pools[c.pool]) || req.bytes > RegionFree(regions[c.region]) {
        return Spec.Refused(CAPACITY_OVERCOMMIT);
      }
      pools := pools[c.pool := pools[c.pool].(reserved := WrapAdd(pools[c.pool].reserved, req.bytes))];
      regions := regions[c.region := regions[c.region].(reserved := WrapAdd(regions[c.region].reserved, req.bytes))];
      RecomputeGlobal();
      sequence := WrapAdd(sequence, 1);
      var dev := devices[c.device];
      var res := Reservation(
        Spec.ReservationId(sequence), req.consumer, ctx.consumerGeneration, c.pool, c.poolGeneration, c.region,
        c.regionGeneration, c.device, c.deviceGeneration, dev.bootId, req.bytes, Reserved, epoch, 0,
        ctx.workerBootId, dev.evidenceCurrent);
      if res.id !in reservations { reservations := reservations[res.id := res]; }
      o := Spec.Granted(res);
    }

    method Commit(id: Str, ctx: Authority) returns (o: Spec.ReserveOutcome)
      modifies this`pools, this`regions, this`reservations, this`ledger
      ensures (Abs(), o) == Spec.Commit(old(Abs()), id, ctx)
    {
      if id !in reservations { return Spec.Refused(RESERVATION_STALE); }
      var res := reservations[id];
      if !res.state.Reserved? { return Spec.Refused(RESERVATION_STALE); }
      if ctx.epoch != epoch { return Spec.Refused(RESERVATION_STALE); }
      if res.createdEpoch != epoch { return Spec.Refused(RESERVATION_STALE); }
      if ctx.workerBootId != [] && ctx.workerBootId != res.workerBootId { return Spec.Refused(RESERVATION_STALE); }
      if res.pool !in pools || res.region !in regions || res.device !in devices {
        return Spec.Refused(POOL_GENERATION_STALE);
      }
      if pools[res.pool].generation != res.poolGeneration { return Spec.Refused(POOL_GENERATION_STALE); }
      if regions[res.region].generation != res.regionGeneration { return Spec.Refused(REGION_STALE); }
      if devices[res.device].generation != res.deviceGeneration { return Spec.Refused(DEVICE_STALE); }
      var p, r := pools[res.pool], regions[res.region];
      if res.bytes > p.reserved { return Spec.Refused(CAPACITY_OVERCOMMIT); }
      p := p.(reserved := p.reserved - res.bytes, committed := WrapAdd(p.committed, res.bytes));
      pools := pools[res.pool := p];
      r := r.(reserved := WrapSub(r.reserved, res.bytes), committed := WrapAdd(r.committed, res.bytes));
      regions := regions[res.region := r];
      res := res.(state := Committed, commitEpoch := epoch);
      reservations := reservations[id := res];
      RecomputeGlobal();
      o := Spec.Granted(res);
    }

    method Release(id: Str, ctx: Authority) returns (o: Spec.ReserveOutcome)
      modifies this`pools, this`regions, this`reservations, this`ledger
      ensures (Abs(), o) == Spec.Release(old(Abs()), id, ctx)
    {
      if id !in reservations { return Spec.Refused(RESERVATION_STALE); }
      var res := reservations[id];
      if res.state.Released? { return Spec.Refused(RESERVATION_STALE); }
      if ctx.epoch != epoch { return Spec.Refused(RESERVATION_STALE); }
      if !res.state.Committed? && !res.state.Reserved? { return Spec.Refused(RESERVATION_STALE); }
      if res.pool in pools {
        var p, remaining := ReleaseFromPool(pools[res.pool], res.bytes);
        pools := pools[res.pool := p];
        if remaining != 0 { return Spec.Refused(RESERVATION_CONFLICT); }
      }
      if res.region in regions {
        var r := ReleaseFromRegion(regions[res.region], res.bytes);
        regions := regions[res.region := r];
      }
      res := res.(state := Released);
      reservations := reservations[id := res];
      RecomputeGlobal();
      o := Spec.Granted(res);
    }

    method PlanFailover(scope: Str, failed: Str, req: Request) returns (plan: FailoverPlan)
      ensures plan == Plan(Abs().Snapshot(), scope, failed, req)
    {
      plan := Placement.PlanFailover(View(devices, regions, pools), scope, failed, req);
    }

    method ExportPersisted() returns (ps: Persisted)
      ensures ps == Spec.Export(Abs())
    {
      ps := Persisted(policyGeneration, devices, regions, pools);
    }

    method ImportPersisted(ps: Persisted)
      modifies this
      ensures Abs() == Spec.Import(old(Abs()), ps)
    {
      policyGeneration := ps.policyGeneration;
      reservations := map[];
      devices := Spec.ImportedDevices(ps.devices);
      regions := Spec.ImportedRegions(ps.regions);
      pools := Spec.ImportedPools(ps.pools);
      RecomputeGlobal();
    }

    method Audit() returns (rep: AuditReport)
      ensures rep == AuditOf(pools)
    {
      var g, overused := AuditPools(pools);
      rep := AuditReport(overused == [] && g.Audit(), overused, g);
    }
  }
}
