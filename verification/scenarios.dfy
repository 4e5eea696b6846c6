/** Building blocks for concrete runs: what each call does to a state with one pool and a fresh cached line. */
module Stages {
  import opened Base
  import Order
  import opened Records
  import opened Evaluation
  import opened Placement
  import opened Ranking
  import opened Ledger
  import opened Spec
  import opened Shapes
  import opened Books
  import opened Closing
  import opened Coordination
  import Admission
  import Membership

  /** A state of an engine started with epoch 1 and policy 1, its cached line recomputed. */
  function Stage(
    devices: map<Str, Device>, regions: map<Str, Region>, pools: map<Str, Pool>, rs: map<Str, Reservation>, n: u64)
    : State
  {
    State(1, 1, 0, devices, regions, pools, rs, GlobalLine(pools), n)
  }

  lemma StageZero()
    ensures Initial(1, 1) == Stage(map[], map[], map[], map[], 0)
  {
    var none: map<Str, Pool> := map[];
    assert Order.SortedKeys(none.Keys) == [];
  }

  /** The call takes s to t. Stated over every equal call, so that no engine function unfolds where it is used. */
  ghost predicate Leads(s: State, op: Op, t: State) {
    forall x: Op | x == op :: Apply(s, x) == t
  }

  /** The calls take s to t. */
  ghost predicate Reaches(s: State, ops: seq<Op>, t: State) {
    forall x: seq<Op> | x == ops :: Run(s, x) == t
  }

  lemma ReachesNone(s: State)
    ensures Reaches(s, [], s)
  {}

  lemma ReachesMore(s: State, ops: seq<Op>, u: State, op: Op, t: State)
    requires Reaches(s, ops, u) && Leads(u, op, t)
    ensures Reaches(s, ops + [op], t)
  {
    RunSnoc(s, ops, op);
    assert Run(s, ops) == u && Apply(u, op) == t;
  }

  lemma RunSnoc(s: State, ops: seq<Op>, op: Op)
    ensures Run(s, ops + [op]) == Apply(Run(s, ops), op)
  {
    RunConcat(s, ops, [op]);
    RunOne(Run(s, ops), op);
  }

  // ---- setting up ----

  lemma Registers(s: State, dev: Device, ctx: Authority)
    requires ctx.epoch == s.epoch && dev.id != [] && dev.generation != 0 && dev.bootId != [] && dev.id !in s.devices
    ensures Leads(s, OnDevice(RegisterCall(dev, ctx)), s.(devices := s.devices[dev.id := dev]))
    ensures RegisterDevice(s, dev, ctx).1 == OK
  {}

  function Opened(pool: Pool): Pool {
    Recomputed(pool).(state := PoolAvailable, evidenceCurrent := true)
  }

  lemma CreatesPool(s: State, pool: Pool, ctx: Authority)
    requires ctx.epoch == s.epoch && pool.id != [] && pool.generation != 0 && pool.id !in s.pools
    requires Membership.Distinct(pool.members)
    requires forall i | 0 <= i < |pool.members| :: Admission.PoolMemberOk(s, pool.members[i])
    ensures Leads(s, OnPool(NewPoolCall(pool, ctx)), WithPool(s, pool.id, Opened(pool)))
  {
    Admission.CreatePoolIff(s, pool, ctx);
  }

  lemma CreatesRegion(s: State, region: Region, ctx: Authority)
    requires ctx.epoch == s.epoch && region.id != [] && region.generation != 0 && region.pool != []
    requires region.id !in s.regions && region.pool in s.pools
    requires Admission.RegionMembersOk(s, s.pools[region.pool], region.members)
    ensures Leads(s, OnRegion(NewRegionCall(region, ctx)), s.(regions := s.regions[region.id := region]))
  {
    Admission.CreateRegionIff(s, region, ctx);
  }

  lemma RemovesMember(
    devices: map<Str, Device>, regions: map<Str, Region>, p: Pool, rs: map<Str, Reservation>, n: u64,
    device: Str, ctx: Authority)
    requires ctx.epoch == 1 && IsMember(p.members, device)
    ensures Leads(
      Stage(devices, regions, map[p.id := p], rs, n), OnPool(RemoveMemberCall(p.id, device, ctx)),
      Stage(devices, regions,
            map[p.id := Recomputed(p.(members := Without(p.members, device),
                                      generation := AdvanceGeneration(p.generation)))],
            rs, n))
  {
    var s := Stage(devices, regions, map[p.id := p], rs, n);
    var q := Recomputed(p.(members := Without(p.members, device), generation := AdvanceGeneration(p.generation)));
    assert s.pools[p.id := q] == map[p.id := q];
  }

  lemma AddsMember(
    devices: map<Str, Device>, regions: map<Str, Region>, p: Pool, rs: map<Str, Reservation>, n: u64,
    m: PoolMember, ctx: Authority)
    requires ctx.epoch == 1 && m.device in devices && m.deviceGeneration != 0 && !IsMember(p.members, m.device)
    ensures Leads(
      Stage(devices, regions, map[p.id := p], rs, n), OnPool(AddMemberCall(p.id, m, ctx)),
      Stage(devices, regions,
            map[p.id := Recomputed(p.(members := p.members + [m], generation := AdvanceGeneration(p.generation)))],
            rs, n))
  {
    var s := Stage(devices, regions, map[p.id := p], rs, n);
    var q := Recomputed(p.(members := p.members + [m], generation := AdvanceGeneration(p.generation)));
    assert s.pools[p.id := q] == map[p.id := q];
    assert s.pools - {p.id} == map[];
  }

  // ---- one pool, one device, any number of regions ----

  /** An open pool whose open regions all lie on one open device. */
  predicate Shelf(devices: map<Str, Device>, dev: Device, regions: map<Str, Region>, pool: Pool) {
    && dev.id in devices && devices[dev.id] == dev && DeviceOpen(dev) && PoolOpen(pool)
    && (forall d | d in devices :: devices[d].id == d)
    && (forall r | r in regions ::
          && regions[r].id == r && regions[r].pool == pool.id && regions[r].members == [dev.id]
          && RegionOpen(regions[r]))
  }

  predicate Healthy(dev: Device, regions: map<Str, Region>, pool: Pool) {
    && dev.health == HEALTH_HEALTHY && pool.healthSummary == HEALTH_HEALTHY
    && (forall r | r in regions :: regions[r].health == HEALTH_HEALTHY)
  }

  function Slot(dev: Device, region: Region, pool: Pool): Candidate {
    MakeCandidate(ForPlacement, pool, region, dev.id, dev)
  }

  lemma SlotIsDrawn(devices: map<Str, Device>, dev: Device, regions: map<Str, Region>, pool: Pool, r: Str)
    requires Shelf(devices, dev, regions, pool) && r in regions
    ensures Drawn(ForPlacement, View(devices, regions, map[pool.id := pool]), Slot(dev, regions[r], pool))
  {
    var v := View(devices, regions, map[pool.id := pool]);
    assert pool.id in v.pools && PoolInPlay(ForPlacement, pool.id, v.pools[pool.id]);
    assert dev.id in v.regions[r].members && DeviceInPlay(ForPlacement, v, dev.id);
  }

  lemma DrawnIsSlot(devices: map<Str, Device>, dev: Device, regions: map<Str, Region>, pool: Pool, c: Candidate)
    returns (r: Str)
    requires Shelf(devices, dev, regions, pool)
    requires Drawn(ForPlacement, View(devices, regions, map[pool.id := pool]), c)
    ensures r in regions && c == Slot(dev, regions[r], pool)
  {
    var v := View(devices, regions, map[pool.id := pool]);
    var p, q, name :|
      && p in v.pools && q in v.regions && name in v.regions[q].members
      && PoolInPlay(ForPlacement, p, v.pools[p]) && RegionInPlay(v.pools[p], v.regions[q])
      && DeviceInPlay(ForPlacement, v, name)
      && c == MakeCandidate(ForPlacement, v.pools[p], v.regions[q], name, v.devices[name]);
    r := q;
  }

  lemma SlotPasses(dev: Device, region: Region, pool: Pool, bytes: u64, consumer: Str)
    requires DeviceOpen(dev) && PoolOpen(pool) && RegionOpen(region)
    requires dev.health == pool.healthSummary == region.health == HEALTH_HEALTHY
    ensures Passes(Slot(dev, region, pool), PlainRequest(bytes, consumer)) <==> bytes <= RegionFree(region)
  {}

  ghost predicate OnlyChoice(v: View, req: Request, c: Candidate) {
    && Drawn(ForPlacement, v, c) && Passes(c, req)
    && forall d | Drawn(ForPlacement, v, d) && Passes(d, req) :: d == c
  }

  /** Selection settles on c. Stated over every equal request, so that it does not unfold where it is used. */
  ghost predicate Picks(v: View, req: Request, c: Candidate) {
    forall q | q == req :: Select(v, q).chosen == Some(c)
  }

  lemma OnlyChoiceIsPicked(v: View, req: Request, c: Candidate)
    requires OnlyChoice(v, req, c)
    ensures Picks(v, req, c)
  {
    SelectSucceedsIff(v, req);
    SelectionSound(v, req);
  }

  /** The only region with room is the one that is chosen. */
  lemma RoomDecides(
    devices: map<Str, Device>, dev: Device, regions: map<Str, Region>, pool: Pool, r: Str, bytes: u64, consumer: Str)
    requires Shelf(devices, dev, regions, pool) && Healthy(dev, regions, pool) && r in regions
    requires bytes <= RegionFree(regions[r]) && forall q | q in regions && q != r :: RegionFree(regions[q]) < bytes
    ensures Picks(View(devices, regions, map[pool.id := pool]), PlainRequest(bytes, consumer),
                  Slot(dev, regions[r], pool))
  {
    var v, c := View(devices, regions, map[pool.id := pool]), Slot(dev, regions[r], pool);
    var req := PlainRequest(bytes, consumer);
    SlotIsDrawn(devices, dev, regions, pool, r);
    SlotPasses(dev, regions[r], pool, bytes, consumer);
    forall d | Drawn(ForPlacement, v, d) && Passes(d, req) ensures d == c {
      var q := DrawnIsSlot(devices, dev, regions, pool, d);
      SlotPasses(dev, regions[q], pool, bytes, consumer);
    }
    OnlyChoiceIsPicked(v, req, c);
  }

  // ---- reserving on the shelf ----

  function Held(dev: Device, region: Region, pool: Pool, bytes: u64, consumer: Str, ctx: Authority, n: u64)
    : Reservation
  {
    Reservation(ReservationId(n), consumer, ctx.consumerGeneration, pool.id, pool.generation, region.id,
                region.generation, dev.id, dev.generation, dev.bootId, bytes, Reserved, 1, 0, ctx.workerBootId,
                dev.evidenceCurrent)
  }

  /** One reservation on the shelf, granted from the only region with room. */
  lemma ReservesOnShelf(
    devices: map<Str, Device>, dev: Device, regions: map<Str, Region>, pool: Pool, rs: map<Str, Reservation>, n: u64,
    m: u64, r: Str, bytes: u64, consumer: Str, ctx: Authority)
    requires Shelf(devices, dev, regions, pool) && Healthy(dev, regions, pool) && r in regions
    requires bytes <= RegionFree(regions[r]) && forall q | q in regions && q != r :: RegionFree(regions[q]) < bytes
    requires 0 < bytes <= PoolFree(pool) && ctx.epoch == 1 && m == n + 1 && ReservationId(m) !in rs
    ensures Leads(
      Stage(devices, regions, map[pool.id := pool], rs, n),
      OnReservation(ReserveCall(PlainRequest(bytes, consumer), ctx)),
      Stage(devices, regions[r := CreditRegion(regions[r], bytes)], map[pool.id := CreditPool(pool, bytes)],
            rs[ReservationId(m) := Held(dev, regions[r], pool, bytes, consumer, ctx, m)], m))
  {
    RoomDecides(devices, dev, regions, pool, r, bytes, consumer);
    BooksOnStage(devices, dev, regions, pool, rs, n, m, r, bytes, consumer, ctx);
  }

  /** A commit on the shelf moves its bytes from reserved to committed. */
  lemma CommitsOnShelf(
    devices: map<Str, Device>, regions: map<Str, Region>, pools: map<Str, Pool>, rs: map<Str, Reservation>, n: u64,
    id: Str, ctx: Authority)
    requires Committable(Stage(devices, regions, pools, rs, n), id, ctx)
    requires rs[id].bytes <= pools[rs[id].pool].reserved
    ensures var res := rs[id];
      Leads(
        Stage(devices, regions, pools, rs, n), OnReservation(CommitCall(id, ctx)),
        Stage(devices, regions[res.region := SettleRegion(regions[res.region], res.bytes)],
              pools[res.pool := SettlePool(pools[res.pool], res.bytes)],
              rs[id := res.(state := Committed, commitEpoch := 1)], n))
  {
    CommitShape(Stage(devices, regions, pools, rs, n), id, ctx);
  }

  lemma BooksOnStage(
    devices: map<Str, Device>, dev: Device, regions: map<Str, Region>, pool: Pool, rs: map<Str, Reservation>, n: u64,
    m: u64, r: Str, bytes: u64, consumer: Str, ctx: Authority)
    requires dev.id in devices && devices[dev.id] == dev && r in regions && regions[r].id == r
    requires Picks(View(devices, regions, map[pool.id := pool]), PlainRequest(bytes, consumer),
                   Slot(dev, regions[r], pool))
    requires bytes <= RegionFree(regions[r])
    requires 0 < bytes <= PoolFree(pool) && ctx.epoch == 1 && m == n + 1 && ReservationId(m) !in rs
    ensures Leads(
      Stage(devices, regions, map[pool.id := pool], rs, n),
      OnReservation(ReserveCall(PlainRequest(bytes, consumer), ctx)),
      Stage(devices, regions[r := CreditRegion(regions[r], bytes)], map[pool.id := CreditPool(pool, bytes)],
            rs[ReservationId(m) := Held(dev, regions[r], pool, bytes, consumer, ctx, m)], m))
  {
    var s := Stage(devices, regions, map[pool.id := pool], rs, n);
    assert s.pools[pool.id := CreditPool(pool, bytes)] == map[pool.id := CreditPool(pool, bytes)];
    CapturedIsHeld(s, dev, regions[r], pool, bytes, consumer, ctx, m);
    BooksSlot(s, Slot(dev, regions[r], pool), PlainRequest(bytes, consumer), ctx, m,
              map[pool.id := CreditPool(pool, bytes)]);
  }

  lemma CapturedIsHeld(
    s: State, dev: Device, region: Region, pool: Pool, bytes: u64, consumer: Str, ctx: Authority, m: u64)
    requires dev.id in s.devices && s.devices[dev.id] == dev && s.epoch == 1
    ensures Captured(s, Slot(dev, region, pool), PlainRequest(bytes, consumer), ctx, ReservationId(m)) ==
      Held(dev, region, pool, bytes, consumer, ctx, m)
  {}

  lemma BooksSlot(s: State, c: Candidate, req: Request, ctx: Authority, m: u64, pools: map<Str, Pool>)
    requires Picks(s.Snapshot(), req, c) && ctx.epoch == s.epoch && req.bytes > 0
    requires c.pool in s.pools && c.region in s.regions && c.device in s.devices
    requires c.poolGeneration == s.pools[c.pool].generation && c.regionGeneration == s.regions[c.region].generation
    requires c.deviceGeneration == s.devices[c.device].generation
    requires req.bytes <= PoolFree(s.pools[c.pool]) && req.bytes <= RegionFree(s.regions[c.region])
    requires m == s.sequence + 1 && ReservationId(m) !in s.reservations
    requires pools == s.pools[c.pool := CreditPool(s.pools[c.pool], req.bytes)]
    ensures Leads(s, OnReservation(ReserveCall(req, ctx)), s.(
      pools := pools, ledger := GlobalLine(pools),
      regions := s.regions[c.region := CreditRegion(s.regions[c.region], req.bytes)],
      reservations := s.reservations[ReservationId(m) := Captured(s, c, req, ctx, ReservationId(m))],
      sequence := m))
  {
    BookResult(s, c, req, ctx, m, pools);
    PickLeads(s, c, req, ctx);
  }

  lemma BookResult(s: State, c: Candidate, req: Request, ctx: Authority, m: u64, pools: map<Str, Pool>)
    requires c.pool in s.pools && c.region in s.regions && c.device in s.devices
    requires c.poolGeneration == s.pools[c.pool].generation && c.regionGeneration == s.regions[c.region].generation
    requires c.deviceGeneration == s.devices[c.device].generation
    requires req.bytes <= PoolFree(s.pools[c.pool]) && req.bytes <= RegionFree(s.regions[c.region])
    requires m == s.sequence + 1 && ReservationId(m) !in s.reservations
    requires pools == s.pools[c.pool := CreditPool(s.pools[c.pool], req.bytes)]
    ensures Book(s, c, req, ctx).0 == s.(
      pools := pools, ledger := GlobalLine(pools),
      regions := s.regions[c.region := CreditRegion(s.regions[c.region], req.bytes)],
      reservations := s.reservations[ReservationId(m) := Captured(s, c, req, ctx, ReservationId(m))],
      sequence := m)
  {}

  lemma PickLeads(s: State, c: Candidate, req: Request, ctx: Authority)
    requires Picks(s.Snapshot(), req, c) && ctx.epoch == s.epoch && req.bytes > 0
    ensures Leads(s, OnReservation(ReserveCall(req, ctx)), Book(s, c, req, ctx).0)
  {
    assert Select(s.Snapshot(), req).chosen == Some(c);
  }

  // ---- a single shelf: one device, one region, one pool ----

  function Shelved(dev: Device, g: Region, p: Pool, rs: map<Str, Reservation>, n: u64): State {
    Stage(map[dev.id := dev], map[g.id := g], map[p.id := p], rs, n)
  }

  /** An open, healthy shelf with at least the given bytes free. */
  predicate Roomy(dev: Device, g: Region, p: Pool, bytes: u64) {
    && Shelf(map[dev.id := dev], dev, map[g.id := g], p) && Healthy(dev, map[g.id := g], p)
    && 0 < bytes <= RegionFree(g) && bytes <= PoolFree(p)
  }

  function ReserveOp(bytes: u64, ctx: Authority): Op {
    OnReservation(ReserveCall(PlainRequest(bytes, []), ctx))
  }

  lemma ReserveStep(
    dev: Device, g: Region, p: Pool, rs: map<Str, Reservation>, n: u64, m: u64, bytes: u64, ctx: Authority)
    requires Roomy(dev, g, p, bytes) && ctx.epoch == 1 && m == n + 1 && ReservationId(m) !in rs
    ensures Leads(
      Shelved(dev, g, p, rs, n), ReserveOp(bytes, ctx),
      Shelved(dev, CreditRegion(g, bytes), CreditPool(p, bytes),
              rs[ReservationId(m) := Held(dev, g, p, bytes, [], ctx, m)], m))
  {
    ReservesOnShelf(map[dev.id := dev], dev, map[g.id := g], p, rs, n, m, g.id, bytes, [], ctx);
    assert map[g.id := g][g.id := CreditRegion(g, bytes)] == map[g.id := CreditRegion(g, bytes)];
  }

  function Settled(res: Reservation): Reservation {
    res.(state := Committed, commitEpoch := 1)
  }

  lemma CommitStep(
    dev: Device, g: Region, p: Pool, rs: map<Str, Reservation>, n: u64, id: u64, bytes: u64, ctx: Authority)
    requires ReservationId(id) in rs && rs[ReservationId(id)] == Held(dev, g, p, bytes, [], ctx, id)
    requires ctx.epoch == 1 && bytes <= p.reserved
    ensures Leads(
      Shelved(dev, g, p, rs, n), OnReservation(CommitCall(ReservationId(id), ctx)),
      Shelved(dev, SettleRegion(g, bytes), SettlePool(p, bytes),
              rs[ReservationId(id) := Settled(Held(dev, g, p, bytes, [], ctx, id))], n))
  {
    CommitsOnShelf(map[dev.id := dev], map[g.id := g], map[p.id := p], rs, n, ReservationId(id), ctx);
    assert map[g.id := g][g.id := SettleRegion(g, bytes)] == map[g.id := SettleRegion(g, bytes)];
    assert map[p.id := p][p.id := SettlePool(p, bytes)] == map[p.id := SettlePool(p, bytes)];
  }

  lemma HeldAnyway(dev: Device, g: Region, p: Pool, h: Region, q: Pool, bytes: u64, ctx: Authority, n: u64)
    requires h == g.(reserved := h.reserved, committed := h.committed)
    requires q == p.(reserved := q.reserved, committed := q.committed)
    ensures Held(dev, h, q, bytes, [], ctx, n) == Held(dev, g, p, bytes, [], ctx, n)
  {}

  lemma IdsDiffer(i: u64, j: u64)
    requires i != j
    ensures ReservationId(i) != ReservationId(j)
  {
    if ReservationId(i) == ReservationId(j) { ReservationIdInjective(i, j); }
  }

  /** Both counters of a record used up to the same amounts. */
  function UsedRegion(g: Region, reserved: u64, committed: u64): Region {
    g.(reserved := reserved, committed := committed)
  }

  function UsedPool(p: Pool, reserved: u64, committed: u64): Pool {
    p.(reserved := reserved, committed := committed)
  }

  /** An empty shelf that has room for the bytes twice. */
  predicate RoomForTwo(dev: Device, g: Region, p: Pool, bytes: u64) {
    && Shelf(map[dev.id := dev], dev, map[g.id := g], p) && Healthy(dev, map[g.id := g], p)
    && g.reserved == g.committed == p.reserved == p.committed == p.unavailable == p.draining == 0
    && 0 < bytes && 2 * bytes <= g.capacity && 2 * bytes <= p.totalGoverned
  }

  lemma StaysRoomy(dev: Device, g: Region, p: Pool, bytes: u64, r: u64, c: u64)
    requires RoomForTwo(dev, g, p, bytes) && r + c <= bytes
    ensures Roomy(dev, UsedRegion(g, r, c), UsedPool(p, r, c), bytes)
  {
    var regions := map[g.id := g];
    assert g.id in regions && regions[g.id] == g;
    assert RegionOpen(g) && g.health == HEALTH_HEALTHY && g.pool == p.id && g.members == [dev.id];
  }

  /** The reservation numbered n of a pair. */
  function Grant(dev: Device, g: Region, p: Pool, bytes: u64, ctx: Authority, n: u64): Reservation {
    Held(dev, g, p, bytes, [], ctx, n)
  }

  lemma FirstGrant(dev: Device, g: Region, p: Pool, b: u64, ctx: Authority)
    requires RoomForTwo(dev, g, p, b) && ctx.epoch == 1
    ensures Leads(Shelved(dev, g, p, map[], 0), ReserveOp(b, ctx),
                  Shelved(dev, UsedRegion(g, b, 0), UsedPool(p, b, 0),
                          map[ReservationId(1) := Grant(dev, g, p, b, ctx, 1)], 1))
  {
    var none: map<Str, Reservation> := map[];
    StaysRoomy(dev, g, p, b, 0, 0);
    ReserveStep(dev, g, p, none, 0, 1, b, ctx);
    assert none[ReservationId(1) := Grant(dev, g, p, b, ctx, 1)] ==
      map[ReservationId(1) := Grant(dev, g, p, b, ctx, 1)];
  }

  lemma FirstCommit(dev: Device, g: Region, p: Pool, b: u64, ctx: Authority)
    requires RoomForTwo(dev, g, p, b) && ctx.epoch == 1
    ensures Leads(
      Shelved(dev, UsedRegion(g, b, 0), UsedPool(p, b, 0), map[ReservationId(1) := Grant(dev, g, p, b, ctx, 1)], 1),
      OnReservation(CommitCall(ReservationId(1), ctx)),
      Shelved(dev, UsedRegion(g, 0, b), UsedPool(p, 0, b),
              map[ReservationId(1) := Settled(Grant(dev, g, p, b, ctx, 1))], 1))
  {
    var res := Grant(dev, g, p, b, ctx, 1);
    HeldAnyway(dev, g, p, UsedRegion(g, b, 0), UsedPool(p, b, 0), b, ctx, 1);
    CommitStep(dev, UsedRegion(g, b, 0), UsedPool(p, b, 0), map[ReservationId(1) := res], 1, 1, b, ctx);
    assert map[ReservationId(1) := res][ReservationId(1) := Settled(res)] == map[ReservationId(1) := Settled(res)];
  }

  function PairOf(dev: Device, g: Region, p: Pool, b: u64, ctx: Authority): map<Str, Reservation> {
    map[ReservationId(1) := Settled(Grant(dev, g, p, b, ctx, 1))][ReservationId(2) := Grant(dev, g, p, b, ctx, 2)]
  }

  lemma SecondGrant(dev: Device, g: Region, p: Pool, b: u64, ctx: Authority)
    requires RoomForTwo(dev, g, p, b) && ctx.epoch == 1
    ensures Leads(
      Shelved(dev, UsedRegion(g, 0, b), UsedPool(p, 0, b),
              map[ReservationId(1) := Settled(Grant(dev, g, p, b, ctx, 1))], 1),
      ReserveOp(b, ctx),
      Shelved(dev, UsedRegion(g, b, b), UsedPool(p, b, b), PairOf(dev, g, p, b, ctx), 2))
  {
    IdsDiffer(1, 2);
    StaysRoomy(dev, g, p, b, 0, b);
    HeldAnyway(dev, g, p, UsedRegion(g, 0, b), UsedPool(p, 0, b), b, ctx, 2);
    ReserveStep(dev, UsedRegion(g, 0, b), UsedPool(p, 0, b),
                map[ReservationId(1) := Settled(Grant(dev, g, p, b, ctx, 1))], 1, 2, b, ctx);
  }

  /** Reserve, commit, reserve: one reservation committed and one reserved, with the same bytes. */
  lemma PairReached(s: State, ops: seq<Op>, dev: Device, g: Region, p: Pool, b: u64, ctx: Authority)
    requires Reaches(s, ops, Shelved(dev, g, p, map[], 0)) && RoomForTwo(dev, g, p, b) && ctx.epoch == 1
    ensures Reaches(
      s, ops + [ReserveOp(b, ctx)] + [OnReservation(CommitCall(ReservationId(1), ctx))] + [ReserveOp(b, ctx)],
      Shelved(dev, UsedRegion(g, b, b), UsedPool(p, b, b), PairOf(dev, g, p, b, ctx), 2))
  {
    FirstGrant(dev, g, p, b, ctx);
    FirstCommit(dev, g, p, b, ctx);
    SecondGrant(dev, g, p, b, ctx);
    var one := Shelved(dev, UsedRegion(g, b, 0), UsedPool(p, b, 0),
                       map[ReservationId(1) := Grant(dev, g, p, b, ctx, 1)], 1);
    var two := Shelved(dev, UsedRegion(g, 0, b), UsedPool(p, 0, b),
                       map[ReservationId(1) := Settled(Grant(dev, g, p, b, ctx, 1))], 1);
    ReachesMoreThree(s, ops, Shelved(dev, g, p, map[], 0), ReserveOp(b, ctx), one,
                     OnReservation(CommitCall(ReservationId(1), ctx)), two, ReserveOp(b, ctx),
                     Shelved(dev, UsedRegion(g, b, b), UsedPool(p, b, b), PairOf(dev, g, p, b, ctx), 2));
  }

  lemma ReachesMoreThree(
    s: State, ops: seq<Op>, s0: State, a: Op, s1: State, b: Op, s2: State, c: Op, s3: State)
    requires Reaches(s, ops, s0) && Leads(s0, a, s1) && Leads(s1, b, s2) && Leads(s2, c, s3)
    ensures Reaches(s, ops + [a] + [b] + [c], s3)
  {
    ReachesMore(s, ops, s0, a, s1);
    ReachesMore(s, ops + [a], s1, b, s2);
    ReachesMore(s, ops + [a] + [b], s2, c, s3);
  }

  // ---- two shelves side by side ----

  predicate Apart(d: Device, g: Region, p: Pool, e: Device, h: Region, q: Pool) {
    && d.id != e.id && g.id != h.id && p.id != q.id && g.pool == p.id && h.pool == q.id
    && g.members == [d.id] && h.members == [e.id]
    && DeviceOpen(d) && DeviceOpen(e) && RegionOpen(g) && RegionOpen(h) && PoolOpen(p) && PoolOpen(q)
  }

  function Both(d: Device, g: Region, p: Pool, e: Device, h: Region, q: Pool): View {
    View(map[d.id := d, e.id := e], map[g.id := g, h.id := h], map[p.id := p, q.id := q])
  }

  lemma EachSlotIsDrawn(d: Device, g: Region, p: Pool, e: Device, h: Region, q: Pool)
    requires Apart(d, g, p, e, h, q)
    ensures Drawn(ForPlacement, Both(d, g, p, e, h, q), Slot(d, g, p))
    ensures Drawn(ForPlacement, Both(d, g, p, e, h, q), Slot(e, h, q))
  {
    var v := Both(d, g, p, e, h, q);
    assert d.id in v.regions[g.id].members && e.id in v.regions[h.id].members;
    assert PoolInPlay(ForPlacement, p.id, v.pools[p.id]) && PoolInPlay(ForPlacement, q.id, v.pools[q.id]);
    assert DeviceInPlay(ForPlacement, v, d.id) && DeviceInPlay(ForPlacement, v, e.id);
  }

  lemma NoOtherSlot(d: Device, g: Region, p: Pool, e: Device, h: Region, q: Pool, c: Candidate)
    requires Apart(d, g, p, e, h, q) && Drawn(ForPlacement, Both(d, g, p, e, h, q), c)
    ensures c == Slot(d, g, p) || c == Slot(e, h, q)
  {}

  /** The candidates are these two and no other. */
  ghost predicate OnlyTwo(v: View, a: Candidate, b: Candidate) {
    forall c :: Drawn(ForPlacement, v, c) <==> c == a || c == b
  }

  lemma OnlySlots(d: Device, g: Region, p: Pool, e: Device, h: Region, q: Pool)
    requires Apart(d, g, p, e, h, q)
    ensures OnlyTwo(Both(d, g, p, e, h, q), Slot(d, g, p), Slot(e, h, q))
  {
    EachSlotIsDrawn(d, g, p, e, h, q);
    forall c | Drawn(ForPlacement, Both(d, g, p, e, h, q), c) ensures c == Slot(d, g, p) || c == Slot(e, h, q) {
      NoOtherSlot(d, g, p, e, h, q, c);
    }
  }

  lemma BetterIsChosen(v: View, req: Request, a: Candidate, b: Candidate)
    requires OnlyTwo(v, a, b) && Passes(a, req) && Passes(b, req) && Better(a, b)
    ensures Select(v, req).chosen == Some(a)
  {
    SelectSucceedsIff(v, req);
    SelectionSound(v, req);
    SelectionOptimal(v, req);
  }
}
