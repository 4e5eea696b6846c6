/** What each call changes, with the guards that let it through set aside. */
module Shapes {
  import opened Base
  import opened Records
  import opened Evaluation
  import opened Placement
  import opened Ledger
  import opened Spec

  function DeviceKey(c: DeviceCall): Str {
    if c.RegisterCall? then c.dev.id else c.id
  }

  function DeviceAfter(s: State, c: DeviceCall): Device
    requires c.RegisterCall? || c.id in s.devices
  {
    match c
    case RegisterCall(dev, _) => dev
    case DistrustCall(id, _) => s.devices[id].(state := RevalidationRequired, evidenceCurrent := false)
    case OnlineCall(id, _) => s.devices[id].(state := Online, evidenceCurrent := true)
  }

  lemma DeviceCallShape(s: State, c: DeviceCall)
    ensures PerformOnDevice(s, c).1 != OK ==> PerformOnDevice(s, c).0 == s
    ensures PerformOnDevice(s, c).1 == OK ==>
      && (c.RegisterCall? || c.id in s.devices)
      && PerformOnDevice(s, c).0 == s.(devices := s.devices[DeviceKey(c) := DeviceAfter(s, c)])
      && (c.RegisterCall? && c.dev.id in s.devices ==> s.devices[c.dev.id].generation <= c.dev.generation)
  {}

  function RegionKey(c: RegionCall): Str {
    if c.NewRegionCall? || c.ReplaceRegionCall? then c.region.id else c.id
  }

  function RegionAfter(s: State, c: RegionCall): Region
    requires c.NewRegionCall? || c.ReplaceRegionCall? || c.id in s.regions
  {
    match c
    case NewRegionCall(region, _) => region
    case ReplaceRegionCall(region, _) => region
    case ReconfigureCall(id, members, _) =>
      s.regions[id].(generation := NextGeneration(s.regions[id].generation), members := members,
                     state := RegionReconfiguring, evidenceCurrent := false)
    case DrainRegionCall(id, _) => s.regions[id].(state := RegionDraining)
    case RevalidateRegionCall(id, _) =>
      s.regions[id].(state := RegionOnline, evidenceCurrent := true, health := HEALTH_HEALTHY)
  }

  lemma RegionCallShape(s: State, c: RegionCall)
    ensures PerformOnRegion(s, c).1 != OK ==> PerformOnRegion(s, c).0 == s
    ensures PerformOnRegion(s, c).1 == OK ==>
      && (RegionKey(c) in s.regions <==> !c.NewRegionCall?)
      && PerformOnRegion(s, c).0 == s.(regions := s.regions[RegionKey(c) := RegionAfter(s, c)])
      && (c.NewRegionCall? ==> c.region.pool in s.pools)
      && (!c.NewRegionCall? ==> s.regions[RegionKey(c)].generation <= RegionAfter(s, c).generation)
      && (c.ReconfigureCall? ==> s.regions[c.id].generation < RegionAfter(s, c).generation)
  {}

  function PoolKey(c: PoolCall): Str {
    if c.NewPoolCall? then c.pool.id else c.id
  }

  function PoolAfter(s: State, c: PoolCall): Pool
    requires c.NewPoolCall? || c.id in s.pools
  {
    match c
    case NewPoolCall(pool, _) => Recomputed(pool).(state := PoolAvailable, evidenceCurrent := true)
    case AddMemberCall(id, m, _) =>
      var p := s.pools[id];
      Recomputed(p.(members := p.members + [m], generation := AdvanceGeneration(p.generation)))
    case RemoveMemberCall(id, device, _) =>
      var p := s.pools[id];
      Recomputed(p.(members := Without(p.members, device), generation := AdvanceGeneration(p.generation)))
    case DrainPoolCall(id, _) => s.pools[id].(state := PoolDraining)
    case ReconcileCall(id, _) => Recomputed(s.pools[id])
    case RevalidatePoolCall(id, _) =>
      Recomputed(s.pools[id].(state := PoolAvailable, evidenceCurrent := true, healthSummary := HEALTH_HEALTHY))
  }

  lemma PoolCallShape(s: State, c: PoolCall)
    ensures PerformOnPool(s, c).1 != OK ==> PerformOnPool(s, c).0 == s
    ensures PerformOnPool(s, c).1 == OK ==>
      && (PoolKey(c) in s.pools <==> !c.NewPoolCall?)
      && PerformOnPool(s, c).0 ==
           (if c.DrainPoolCall? then s.(pools := s.pools[c.id := PoolAfter(s, c)])
            else WithPool(s, PoolKey(c), PoolAfter(s, c)))
  {}

  /** Outside creation a pool call moves no bytes and never lowers a generation. */
  lemma PoolAfterKeeps(s: State, c: PoolCall)
    requires !c.NewPoolCall? && c.id in s.pools
    ensures var p, q := s.pools[c.id], PoolAfter(s, c);
      && q.id == p.id && q.reserved == p.reserved && q.committed == p.committed && q.draining == p.draining
      && p.generation <= q.generation
      && (!(c.AddMemberCall? || c.RemoveMemberCall?) ==> q.members == p.members && q.generation == p.generation)
      && (c.AddMemberCall? || c.RemoveMemberCall? ==>
            (p.generation < q.generation <==> p.generation < GENERATION_MAX))
      && (!c.RevalidatePoolCall? ==> q.evidenceCurrent == p.evidenceCurrent)
      && (!c.RevalidatePoolCall? && !c.DrainPoolCall? ==> q.state == p.state)
  {}

  // ---- reservation calls ----

  /** The candidate a grant books: current, online, admitted, owned by its pool and with room left. */
  ghost predicate Bookable(s: State, c: Candidate, req: Request) {
    && c.pool in s.pools && c.region in s.regions && c.device in s.devices
    && var pool, region, dev := s.pools[c.pool], s.regions[c.region], s.devices[c.device];
      && region.pool == c.pool && c.device in region.members
      && pool.evidenceCurrent && Admitting(pool)
      && region.evidenceCurrent && region.state.RegionOnline?
      && dev.evidenceCurrent && dev.state.Online?
      && c.poolGeneration == pool.generation && c.regionGeneration == region.generation
      && c.deviceGeneration == dev.generation
      && 0 < req.bytes <= PoolFree(pool) && req.bytes <= RegionFree(region)
  }

  function CreditPool(p: Pool, bytes: u64): Pool {
    p.(reserved := WrapAdd(p.reserved, bytes))
  }

  function CreditRegion(r: Region, bytes: u64): Region {
    r.(reserved := WrapAdd(r.reserved, bytes))
  }

  function NewId(s: State): Str {
    ReservationId(WrapAdd(s.sequence, 1))
  }

  /** The candidate that selection settles on; a caller learns it from a selection made beforehand. */
  ghost predicate Chosen(s: State, req: Request, c: Candidate) {
    Select(s.Snapshot(), req).chosen == Some(c)
  }

  lemma DrawnFacts(s: State, c: Candidate)
    requires FiledById(s.devices, s.regions, s.pools) && Drawn(ForPlacement, s.Snapshot(), c)
    ensures c.pool in s.pools && c.region in s.regions && c.device in s.devices && c.poolRecord == s.pools[c.pool]
    ensures c.poolGeneration == s.pools[c.pool].generation && c.regionGeneration == s.regions[c.region].generation
    ensures c.deviceGeneration == s.devices[c.device].generation && c.available == RegionFree(s.regions[c.region])
    ensures var pool, region, dev := s.pools[c.pool], s.regions[c.region], s.devices[c.device];
      && region.pool == c.pool && c.device in region.members
      && pool.evidenceCurrent && Admitting(pool)
      && region.evidenceCurrent && region.state.RegionOnline?
      && dev.evidenceCurrent && dev.state.Online?
  {}

  lemma ReserveShape(s: State, req: Request, ctx: Authority) returns (c: Candidate)
    requires FiledById(s.devices, s.regions, s.pools)
    ensures !Reserve(s, req, ctx).1.ok ==> Reserve(s, req, ctx).0 == s
    ensures Reserve(s, req, ctx).1.ok ==>
      && Bookable(s, c, req) && Reserve(s, req, ctx) == Book(s, c, req, ctx)
      && Chosen(s, req, c) && c.poolRecord == s.pools[c.pool] && ctx.epoch == s.epoch
  {
    c :| true;
    var sel := Select(s.Snapshot(), req);
    if sel.ok {
      c := sel.chosen.value;
      SelectionSound(s.Snapshot(), req);
      DrawnFacts(s, c);
      if ctx.epoch == s.epoch && req.bytes > 0 { BookGuard(s, c, req, ctx); }
    }
  }

  lemma BookGuard(s: State, c: Candidate, req: Request, ctx: Authority)
    requires c.pool in s.pools && c.region in s.regions && c.device in s.devices && req.bytes > 0
    requires var pool, region, dev := s.pools[c.pool], s.regions[c.region], s.devices[c.device];
      && region.pool == c.pool && c.device in region.members
      && pool.evidenceCurrent && Admitting(pool)
      && region.evidenceCurrent && region.state.RegionOnline?
      && dev.evidenceCurrent && dev.state.Online?
    ensures !Book(s, c, req, ctx).1.ok ==> Book(s, c, req, ctx).0 == s
    ensures Book(s, c, req, ctx).1.ok ==> Bookable(s, c, req)
  {}

  lemma BookShape(s: State, c: Candidate, req: Request, ctx: Authority)
    requires Bookable(s, c, req)
    ensures Book(s, c, req, ctx).1 == Granted(Captured(s, c, req, ctx, NewId(s)))
    ensures var t := Book(s, c, req, ctx).0;
      && t.pools == s.pools[c.pool := CreditPool(s.pools[c.pool], req.bytes)]
      && t.regions == s.regions[c.region := CreditRegion(s.regions[c.region], req.bytes)]
      && t == s.(pools := t.pools, regions := t.regions, reservations := t.reservations,
                 ledger := GlobalLine(t.pools), sequence := WrapAdd(s.sequence, 1))
      && t.reservations == if NewId(s) in s.reservations then s.reservations
                           else s.reservations[NewId(s) := Captured(s, c, req, ctx, NewId(s))]
  {}

  function SettlePool(p: Pool, bytes: u64): Pool {
    p.(reserved := WrapSub(p.reserved, bytes), committed := WrapAdd(p.committed, bytes))
  }

  function SettleRegion(r: Region, bytes: u64): Region {
    r.(reserved := WrapSub(r.reserved, bytes), committed := WrapAdd(r.committed, bytes))
  }

  /** Everything commit checks except the pool's reserved bytes. */
  ghost predicate Committable(s: State, id: Str, ctx: Authority) {
    && id in s.reservations && ctx.epoch == s.epoch
    && var res := s.reservations[id];
      && res.state.Reserved? && res.createdEpoch == s.epoch
      && (ctx.workerBootId == [] || ctx.workerBootId == res.workerBootId)
      && res.pool in s.pools && res.region in s.regions && res.device in s.devices
      && s.pools[res.pool].generation == res.poolGeneration
      && s.regions[res.region].generation == res.regionGeneration
      && s.devices[res.device].generation == res.deviceGeneration
  }

  lemma CommitShape(s: State, id: Str, ctx: Authority)
    ensures !Commit(s, id, ctx).1.ok ==> Commit(s, id, ctx).0 == s
    ensures Commit(s, id, ctx).1.ok <==>
      Committable(s, id, ctx) && s.reservations[id].bytes <= s.pools[s.reservations[id].pool].reserved
    ensures Commit(s, id, ctx).1.ok ==>
      var t, res := Commit(s, id, ctx).0, s.reservations[id];
      && t.pools == s.pools[res.pool := SettlePool(s.pools[res.pool], res.bytes)]
      && t.regions == s.regions[res.region := SettleRegion(s.regions[res.region], res.bytes)]
      && t.reservations == s.reservations[id := res.(state := Committed, commitEpoch := s.epoch)]
      && t == s.(pools := t.pools, regions := t.regions, reservations := t.reservations,
                 ledger := GlobalLine(t.pools))
  {}

  ghost predicate Releasable(s: State, id: Str, ctx: Authority) {
    && id in s.reservations && ctx.epoch == s.epoch
    && (s.reservations[id].state.Reserved? || s.reservations[id].state.Committed?)
  }

  lemma ReleaseShape(s: State, id: Str, ctx: Authority)
    ensures !Releasable(s, id, ctx) ==> !Release(s, id, ctx).1.ok && Release(s, id, ctx).0 == s
    ensures Releasable(s, id, ctx) ==> (Release(s, id, ctx).1.ok <==> !Shortfall(s, s.reservations[id]))
    ensures Release(s, id, ctx).1.ok && s.reservations[id].pool in s.pools && s.reservations[id].region in s.regions ==>
      var t, res := Release(s, id, ctx).0, s.reservations[id];
      && t.pools == s.pools[res.pool := DebitPool(s.pools[res.pool], res.bytes)]
      && t.regions == s.regions[res.region := DebitRegion(s.regions[res.region], res.bytes)]
      && t.reservations == s.reservations[id := res.(state := Released)]
      && t == s.(pools := t.pools, regions := t.regions, reservations := t.reservations,
                 ledger := GlobalLine(t.pools))
  {}
}
