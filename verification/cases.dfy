/** Concrete runs from a new engine in which the plausible properties fail. */
module Cases {
  import opened Base
  import opened Records
  import opened Evaluation
  import opened Placement
  import opened Ranking
  import opened Ledger
  import opened Spec
  import opened Shapes
  import opened Books
  import opened Guarantees
  import opened Coordination
  import opened Stages
  import Codec = ControlCodec

  const CTX := Authority(1, 1, [], 1)

  // Every record is one that a decoded message gives.

  function MakeDevice(id: Str): Device {
    Codec.DeviceOf(Codec.DeviceNotice(1, 8, 8, id, [], 0, Codec.DeviceStateCode(Online), 0, 0, 0, true), Online)
  }

  function MakeRegion(id: Str, pool: Str, device: Str, capacity: u64): Region {
    Codec.RegionOf(
      Codec.RegionNotice(id, 1, pool, [device], capacity, 0, 0, Codec.RegionStateCode(RegionOnline)), RegionOnline)
  }

  function MakeMember(device: Str, bytes: u64, healthy: bool): PoolMember {
    PoolMember(device, 1, bytes, true, healthy, [], 0)
  }

  function MakePool(id: Str, members: seq<PoolMember>): Pool {
    Codec.PoolOf(Codec.PoolNotice(id, 1, members))
  }

  lemma TotalsOfOne(m: PoolMember)
    requires m.online && m.failureDomain == []
    ensures GovernedTotal([m]) == m.nominalBytes && UnavailableTotal([m]) == if m.healthOk then 0 else m.nominalBytes
    ensures Domains([m]) == []
  {
    assert [m][..0] == [];
  }

  lemma TotalsOfTwo(m: PoolMember, n: PoolMember)
    requires m.online && n.online && m.healthOk && m.nominalBytes + n.nominalBytes <= U64_MAX
    requires m.failureDomain == n.failureDomain == []
    ensures GovernedTotal([m, n]) == m.nominalBytes + n.nominalBytes
    ensures UnavailableTotal([m, n]) == if n.healthOk then 0 else n.nominalBytes
    ensures Domains([m, n]) == []
  {
    assert [m, n][..1] == [m];
    TotalsOfOne(m);
  }

  const P: Str := [112]
  const Q: Str := [113]
  const R: Str := [114]
  const S: Str := [115]
  const D: Str := [100]
  const E: Str := [101]
  const F: Str := [102]

  // ---- greedy release: A committed 4, B reserved 4, release B ----

  const ONE := MakePool(P, [MakeMember(D, 8, true)])
  const ROOM := MakeRegion(R, P, D, 8)

  /** One device, one pool of eight bytes on it, one region as large. */
  function SetUpOps(ctx: Authority): seq<Op> {
    [] + [OnDevice(RegisterCall(MakeDevice(D), ctx))] + [OnPool(NewPoolCall(ONE, ctx))]
    + [OnRegion(NewRegionCall(ROOM, ctx))]
  }

  lemma OneOpened()
    ensures Opened(ONE) == ONE.(totalGoverned := 8)
  {
    TotalsOfOne(MakeMember(D, 8, true));
  }

  lemma SetUpOne(ctx: Authority)
    requires ctx.epoch == 1
    ensures Leads(Initial(1, 1), OnDevice(RegisterCall(MakeDevice(D), ctx)),
                  Stage(map[D := MakeDevice(D)], map[], map[], map[], 0))
    ensures RegisterDevice(Initial(1, 1), MakeDevice(D), ctx).1 == OK
  {
    StageZero();
    Registers(Initial(1, 1), MakeDevice(D), ctx);
  }

  lemma SetUpTwo(ctx: Authority)
    requires ctx.epoch == 1
    ensures Leads(Stage(map[D := MakeDevice(D)], map[], map[], map[], 0), OnPool(NewPoolCall(ONE, ctx)),
                  Stage(map[D := MakeDevice(D)], map[], map[P := Opened(ONE)], map[], 0))
  {
    CreatesPool(Stage(map[D := MakeDevice(D)], map[], map[], map[], 0), ONE, ctx);
  }

  lemma SetUpThree(ctx: Authority)
    requires ctx.epoch == 1
    ensures Leads(Stage(map[D := MakeDevice(D)], map[], map[P := Opened(ONE)], map[], 0),
                  OnRegion(NewRegionCall(ROOM, ctx)),
                  Stage(map[D := MakeDevice(D)], map[R := ROOM], map[P := Opened(ONE)], map[], 0))
  {
    var s := Stage(map[D := MakeDevice(D)], map[], map[P := Opened(ONE)], map[], 0);
    assert s.pools[P].members[0].device == D;
    CreatesRegion(s, ROOM, ctx);
  }

  lemma SetUp(ctx: Authority)
    requires ctx.epoch == 1
    ensures Reaches(Initial(1, 1), SetUpOps(ctx), Shelved(MakeDevice(D), ROOM, Opened(ONE), map[], 0))
  {
    SetUpOne(ctx);
    SetUpTwo(ctx);
    SetUpThree(ctx);
    ReachesNone(Initial(1, 1));
    ReachesMoreThree(Initial(1, 1), [], Initial(1, 1),
                     OnDevice(RegisterCall(MakeDevice(D), ctx)), Stage(map[D := MakeDevice(D)], map[], map[], map[], 0),
                     OnPool(NewPoolCall(ONE, ctx)),
                     Stage(map[D := MakeDevice(D)], map[], map[P := Opened(ONE)], map[], 0),
                     OnRegion(NewRegionCall(ROOM, ctx)),
                     Stage(map[D := MakeDevice(D)], map[R := ROOM], map[P := Opened(ONE)], map[], 0));
  }

  /** A is reserved and committed, then B is reserved, four bytes each. */
  function GreedyOps(): seq<Op> {
    SetUpOps(CTX) + [ReserveOp(4, CTX)] + [OnReservation(CommitCall(ReservationId(1), CTX))] + [ReserveOp(4, CTX)]
  }

  lemma RoomForTwoFours()
    ensures RoomForTwo(MakeDevice(D), ROOM, Opened(ONE), 4)
  {
    OneOpened();
  }

  lemma BytesOfTwo(j: Str, a: Reservation, k: Str, b: Reservation, t: Tally)
    requires j != k
    ensures Bytes(map[j := a][k := b], t) == Weight(t, a) + Weight(t, b)
  {
    var none: map<Str, Reservation> := map[];
    NoBytes(none, t);
    assert map[j := a] == none[j := a];
    BytesUpdate(none, j, a, t);
    BytesUpdate(map[j := a], k, b, t);
  }

  /** On any shelf: after B is released the pool's counters have changed places, and A is still committed. */
  lemma ReleaseOfPair(dev: Device, g: Region, p: Pool, b: u64, ctx: Authority)
    requires RoomForTwo(dev, g, p, b) && ctx.epoch == 1
    ensures var t := Release(
        Shelved(dev, UsedRegion(g, b, b), UsedPool(p, b, b), PairOf(dev, g, p, b, ctx), 2), ReservationId(2), ctx).0;
      && p.id in t.pools && t.pools[p.id].committed == 0 && t.pools[p.id].reserved == b
      && Bytes(t.reservations, CommittedIn(p.id)) == b
  {
    IdsDiffer(1, 2);
    ReleaseShape(Shelved(dev, UsedRegion(g, b, b), UsedPool(p, b, b), PairOf(dev, g, p, b, ctx), 2),
                 ReservationId(2), ctx);
    var first, second := Settled(Grant(dev, g, p, b, ctx, 1)), Grant(dev, g, p, b, ctx, 2).(state := Released);
    BytesOfTwo(ReservationId(1), first, ReservationId(2), second, CommittedIn(p.id));
    assert PairOf(dev, g, p, b, ctx)[ReservationId(2) := second] ==
      map[ReservationId(1) := first][ReservationId(2) := second];
  }

  lemma RunThenRelease(s: State, ops: seq<Op>, u: State, id: Str, ctx: Authority)
    requires Reaches(s, ops, u)
    ensures Run(s, ops + [OnReservation(ReleaseCall(id, ctx))]) == Release(u, id, ctx).0
  {
    RunSnoc(s, ops, OnReservation(ReleaseCall(id, ctx)));
    assert Run(s, ops) == u;
  }

  /** Releasing B leaves committed 0 and reserved 4 although A is still committed with 4 bytes. */
  lemma GreedyReleaseBreaksSplit()
    ensures var t := Run(Initial(1, 1), GreedyOps() + [OnReservation(ReleaseCall(ReservationId(2), CTX))]);
      && P in t.pools && t.pools[P].committed == 0 && t.pools[P].reserved == 4
      && Bytes(t.reservations, CommittedIn(P)) == 4
  {
    SetUp(CTX);
    RoomForTwoFours();
    var dev, p := MakeDevice(D), Opened(ONE);
    PairReached(Initial(1, 1), SetUpOps(CTX), dev, ROOM, p, 4, CTX);
    RunThenRelease(Initial(1, 1), GreedyOps(),
                   Shelved(dev, UsedRegion(ROOM, 4, 4), UsedPool(p, 4, 4), PairOf(dev, ROOM, p, 4, CTX), 2),
                   ReservationId(2), CTX);
    ReleaseOfPair(dev, ROOM, p, 4, CTX);
  }

  // ---- the best candidate's pool is full, another has room ----

  const NEAR := MakePool(P, [MakeMember(D, 8, false)])
  const FAR := MakePool(Q, [MakeMember(E, 8, true)])
  const NEAR_ROOM := MakeRegion(R, P, D, 8)
  const FAR_ROOM := MakeRegion(S, Q, E, 8)

  function FarDevice(): Device {
    MakeDevice(E).(economics := MakeDevice(E).economics.(latency := 5))
  }

  lemma NearOpened()
    ensures Opened(NEAR) == NEAR.(totalGoverned := 8, unavailable := 8)
  {
    TotalsOfOne(MakeMember(D, 8, false));
  }

  lemma FarOpened()
    ensures Opened(FAR) == FAR.(totalGoverned := 8)
  {
    TotalsOfOne(MakeMember(E, 8, true));
  }

  function Devices(): map<Str, Device> {
    map[D := MakeDevice(D), E := FarDevice()]
  }

  function Crowded(regions: map<Str, Region>, pools: map<Str, Pool>): State {
    Stage(Devices(), regions, pools, map[], 0)
  }

  lemma CrowdedDevices()
    ensures Leads(Initial(1, 1), OnDevice(RegisterCall(MakeDevice(D), CTX)),
                  Stage(map[D := MakeDevice(D)], map[], map[], map[], 0))
    ensures Leads(Stage(map[D := MakeDevice(D)], map[], map[], map[], 0), OnDevice(RegisterCall(FarDevice(), CTX)),
                  Crowded(map[], map[]))
  {
    SetUpOne(CTX);
    Registers(Stage(map[D := MakeDevice(D)], map[], map[], map[], 0), FarDevice(), CTX);
    assert map[D := MakeDevice(D)][E := FarDevice()] == Devices();
  }

  lemma CrowdedNearPool()
    ensures Leads(Crowded(map[], map[]), OnPool(NewPoolCall(NEAR, CTX)), Crowded(map[], map[P := Opened(NEAR)]))
  {
    CreatesPool(Crowded(map[], map[]), NEAR, CTX);
  }

  lemma CrowdedFarPool()
    ensures Leads(Crowded(map[], map[P := Opened(NEAR)]), OnPool(NewPoolCall(FAR, CTX)),
                  Crowded(map[], map[P := Opened(NEAR), Q := Opened(FAR)]))
  {
    var s := Crowded(map[], map[P := Opened(NEAR)]);
    assert s.pools[P].members == [MakeMember(D, 8, false)];
    assert !IsMember(s.pools[P].members, E);
    CreatesPool(s, FAR, CTX);
    assert s.pools[Q := Opened(FAR)] == map[P := Opened(NEAR), Q := Opened(FAR)];
  }

  function BothPools(): map<Str, Pool> {
    map[P := Opened(NEAR), Q := Opened(FAR)]
  }

  lemma CrowdedNearRegion()
    ensures Leads(Crowded(map[], BothPools()), OnRegion(NewRegionCall(NEAR_ROOM, CTX)),
                  Crowded(map[R := NEAR_ROOM], BothPools()))
  {
    var s := Crowded(map[], BothPools());
    assert s.pools[P].members[0].device == D;
    CreatesRegion(s, NEAR_ROOM, CTX);
  }

  lemma CrowdedFarRegion()
    ensures Leads(Crowded(map[R := NEAR_ROOM], BothPools()), OnRegion(NewRegionCall(FAR_ROOM, CTX)),
                  Crowded(map[R := NEAR_ROOM, S := FAR_ROOM], BothPools()))
  {
    var s := Crowded(map[R := NEAR_ROOM], BothPools());
    assert s.pools[Q].members[0].device == E;
    CreatesRegion(s, FAR_ROOM, CTX);
    assert s.regions[S := FAR_ROOM] == map[R := NEAR_ROOM, S := FAR_ROOM];
  }

  function CrowdedOps(): seq<Op> {
    [] + [OnDevice(RegisterCall(MakeDevice(D), CTX))] + [OnDevice(RegisterCall(FarDevice(), CTX))]
    + [OnPool(NewPoolCall(NEAR, CTX))] + [OnPool(NewPoolCall(FAR, CTX))]
    + [OnRegion(NewRegionCall(NEAR_ROOM, CTX))] + [OnRegion(NewRegionCall(FAR_ROOM, CTX))]
  }

  function FullHouse(): State {
    Crowded(map[R := NEAR_ROOM, S := FAR_ROOM], BothPools())
  }

  lemma FullHouseIsReached()
    ensures Reaches(Initial(1, 1), CrowdedOps(), FullHouse())
  {
    CrowdedDevices();
    CrowdedNearPool();
    CrowdedFarPool();
    CrowdedNearRegion();
    CrowdedFarRegion();
    ReachesNone(Initial(1, 1));
    ReachesMoreThree(Initial(1, 1), [], Initial(1, 1),
                     OnDevice(RegisterCall(MakeDevice(D), CTX)), Stage(map[D := MakeDevice(D)], map[], map[], map[], 0),
                     OnDevice(RegisterCall(FarDevice(), CTX)), Crowded(map[], map[]),
                     OnPool(NewPoolCall(NEAR, CTX)), Crowded(map[], map[P := Opened(NEAR)]));
    ReachesMoreThree(Initial(1, 1), CrowdedOps()[..3], Crowded(map[], map[P := Opened(NEAR)]),
                     OnPool(NewPoolCall(FAR, CTX)), Crowded(map[], BothPools()),
                     OnRegion(NewRegionCall(NEAR_ROOM, CTX)), Crowded(map[R := NEAR_ROOM], BothPools()),
                     OnRegion(NewRegionCall(FAR_ROOM, CTX)), FullHouse());
    assert CrowdedOps()[..3] == [] + [OnDevice(RegisterCall(MakeDevice(D), CTX))]
      + [OnDevice(RegisterCall(FarDevice(), CTX))] + [OnPool(NewPoolCall(NEAR, CTX))];
    assert CrowdedOps() == CrowdedOps()[..3] + [OnPool(NewPoolCall(FAR, CTX))]
      + [OnRegion(NewRegionCall(NEAR_ROOM, CTX))] + [OnRegion(NewRegionCall(FAR_ROOM, CTX))];
  }

  function Near(): Candidate { Slot(MakeDevice(D), NEAR_ROOM, Opened(NEAR)) }
  function Far(): Candidate { Slot(FarDevice(), FAR_ROOM, Opened(FAR)) }

  lemma ShelvesApart()
    ensures Apart(MakeDevice(D), NEAR_ROOM, Opened(NEAR), FarDevice(), FAR_ROOM, Opened(FAR))
    ensures FullHouse().Snapshot() ==
      Both(MakeDevice(D), NEAR_ROOM, Opened(NEAR), FarDevice(), FAR_ROOM, Opened(FAR))
  {
    NearOpened();
    FarOpened();
  }

  lemma FullHouseCandidates()
    ensures OnlyTwo(FullHouse().Snapshot(), Near(), Far())
  {
    ShelvesApart();
    OnlySlots(MakeDevice(D), NEAR_ROOM, Opened(NEAR), FarDevice(), FAR_ROOM, Opened(FAR));
  }

  lemma BothPass()
    ensures Passes(Near(), PlainRequest(4, [])) && Passes(Far(), PlainRequest(4, [])) && Better(Near(), Far())
    ensures PoolFree(Opened(NEAR)) == 0 && PoolFree(Opened(FAR)) == 8
  {
    NearOpened();
    FarOpened();
  }

  lemma NearIsChosen()
    ensures Select(FullHouse().Snapshot(), PlainRequest(4, [])).chosen == Some(Near())
  {
    BothPass();
    FullHouseCandidates();
    BetterIsChosen(FullHouse().Snapshot(), PlainRequest(4, []), Near(), Far());
  }

  lemma FullHouseFiled()
    ensures Filed(FullHouse())
  {}

  lemma FullHouseRefuses()
    ensures !Reserve(FullHouse(), PlainRequest(4, []), CTX).1.ok
  {
    FullHouseFiled();
    BothPass();
    NearIsChosen();
    ShortPoolRefuses(FullHouse(), PlainRequest(4, []), CTX, Near());
  }

  /** A candidate fits in its region and its pool, and still the reservation is refused. */
  lemma FittingCandidateRefused()
    ensures var s := Run(Initial(1, 1), CrowdedOps());
      && Drawn(ForPlacement, s.Snapshot(), Far()) && Passes(Far(), PlainRequest(4, []))
      && 4 <= PoolFree(Far().poolRecord) && 4 <= RegionFree(Far().regionRecord)
      && !Reserve(s, PlainRequest(4, []), CTX).1.ok
  {
    FullHouseIsReached();
    assert Run(Initial(1, 1), CrowdedOps()) == FullHouse();
    BothPass();
    FullHouseCandidates();
    FullHouseRefuses();
  }

  // ---- a grant that cannot be counted ----

  const HALF: u64 := 0x8000_0000_0000_0000

  const FIRST := MakeMember(D, HALF, true)
  const SECOND := MakeMember(E, HALF - 1, true)
  const THIRD := MakeMember(F, 2, false)

  /** Two healthy members that add up to everything 64 bits can count. */
  const VAST := MakePool(P, [FIRST, SECOND])
  const WIDE := MakeRegion(R, P, D, U64_MAX)
  const WIDER := MakeRegion(S, P, D, U64_MAX)

  function Trio(): map<Str, Device> {
    map[D := MakeDevice(D), E := MakeDevice(E), F := MakeDevice(F)]
  }

  lemma VastOpened()
    ensures Opened(VAST) == VAST.(totalGoverned := U64_MAX)
  {
    TotalsOfTwo(FIRST, SECOND);
  }

  /** The pool after its first grant, after the removal, and after the unhealthy member has come in. */
  function Vast(members: seq<PoolMember>, generation: u64, total: u64, unavailable: u64, reserved: u64): Pool {
    VAST.(members := members, generation := generation, totalGoverned := total, unavailable := unavailable,
          reserved := reserved)
  }

  lemma RecomputedVast(p: Pool, members: seq<PoolMember>, generation: u64)
    requires members == [FIRST] || members == [FIRST, THIRD]
    requires p == VAST.(members := p.members, generation := p.generation, totalGoverned := p.totalGoverned,
                        unavailable := p.unavailable, reserved := p.reserved)
    ensures Recomputed(p.(members := members, generation := generation)) ==
      (if members == [FIRST] then Vast([FIRST], generation, HALF, 0, p.reserved)
       else Vast([FIRST, THIRD], generation, HALF + 2, 2, p.reserved))
  {
    if members == [FIRST] { TotalsOfOne(FIRST); } else { TotalsOfTwo(FIRST, THIRD); }
  }

  function Full(): Pool { Vast([FIRST, SECOND], 1, U64_MAX, 0, U64_MAX) }
  function Shrunk(): Pool { Vast([FIRST], 2, HALF, 0, U64_MAX) }
  function Regrown(): Pool { Vast([FIRST, THIRD], 3, HALF + 2, 2, U64_MAX) }
  function Wrapped(): Pool { Vast([FIRST, THIRD], 3, HALF + 2, 2, HALF) }

  function Everything(): Reservation { Held(MakeDevice(D), WIDE, Opened(VAST), U64_MAX, [], CTX, 1) }
  function More(): Reservation { Held(MakeDevice(D), WIDER, Regrown(), HALF + 1, [], CTX, 2) }

  lemma RegistersTrio()
    ensures Leads(Initial(1, 1), OnDevice(RegisterCall(MakeDevice(D), CTX)),
                  Stage(map[D := MakeDevice(D)], map[], map[], map[], 0))
    ensures Leads(Stage(map[D := MakeDevice(D)], map[], map[], map[], 0), OnDevice(RegisterCall(MakeDevice(E), CTX)),
                  Stage(map[D := MakeDevice(D), E := MakeDevice(E)], map[], map[], map[], 0))
    ensures Leads(Stage(map[D := MakeDevice(D), E := MakeDevice(E)], map[], map[], map[], 0),
                  OnDevice(RegisterCall(MakeDevice(F), CTX)), Stage(Trio(), map[], map[], map[], 0))
  {
    SetUpOne(CTX);
    var one := map[D := MakeDevice(D)];
    var two := map[D := MakeDevice(D), E := MakeDevice(E)];
    Registers(Stage(one, map[], map[], map[], 0), MakeDevice(E), CTX);
    assert one[E := MakeDevice(E)] == two;
    Registers(Stage(two, map[], map[], map[], 0), MakeDevice(F), CTX);
    assert two[F := MakeDevice(F)] == Trio();
  }

  lemma OpensVast()
    ensures Leads(Stage(Trio(), map[], map[], map[], 0), OnPool(NewPoolCall(VAST, CTX)),
                  Stage(Trio(), map[], map[P := Opened(VAST)], map[], 0))
  {
    CreatesPool(Stage(Trio(), map[], map[], map[], 0), VAST, CTX);
  }

  lemma OpensWide()
    ensures Leads(Stage(Trio(), map[], map[P := Opened(VAST)], map[], 0), OnRegion(NewRegionCall(WIDE, CTX)),
                  Stage(Trio(), map[R := WIDE], map[P := Opened(VAST)], map[], 0))
  {
    var s := Stage(Trio(), map[], map[P := Opened(VAST)], map[], 0);
    assert s.pools[P].members[0].device == D;
    CreatesRegion(s, WIDE, CTX);
  }

  lemma WideShelf()
    ensures Shelf(Trio(), MakeDevice(D), map[R := WIDE], Opened(VAST))
    ensures Healthy(MakeDevice(D), map[R := WIDE], Opened(VAST))
    ensures RegionFree(WIDE) == U64_MAX && PoolFree(Opened(VAST)) == U64_MAX && Opened(VAST).id == P
    ensures CreditPool(Opened(VAST), U64_MAX) == Full()
  {
    VastOpened();
  }

  lemma TakesEverything()
    ensures Leads(Stage(Trio(), map[R := WIDE], map[P := Opened(VAST)], map[], 0), ReserveOp(U64_MAX, CTX),
                  Stage(Trio(), map[R := UsedRegion(WIDE, U64_MAX, 0)], map[P := Full()],
                        map[ReservationId(1) := Everything()], 1))
  {
    var none: map<Str, Reservation> := map[];
    WideShelf();
    TakesAll(Trio(), MakeDevice(D), WIDE, Opened(VAST), CTX);
    assert none[ReservationId(1) := Everything()] == map[ReservationId(1) := Everything()];
  }

  /** Reserving the whole of an empty region. */
  lemma TakesAll(devices: map<Str, Device>, dev: Device, g: Region, p: Pool, ctx: Authority)
    requires Shelf(devices, dev, map[g.id := g], p) && Healthy(dev, map[g.id := g], p) && ctx.epoch == 1
    requires g.reserved == g.committed == 0 && 0 < g.capacity <= PoolFree(p)
    ensures Leads(Stage(devices, map[g.id := g], map[p.id := p], map[], 0), ReserveOp(g.capacity, ctx),
                  Stage(devices, map[g.id := UsedRegion(g, g.capacity, 0)], map[p.id := CreditPool(p, g.capacity)],
                        map[][ReservationId(1) := Held(dev, g, p, g.capacity, [], ctx, 1)], 1))
  {
    ReservesOnShelf(devices, dev, map[g.id := g], p, map[], 0, 1, g.id, g.capacity, [], ctx);
    assert map[g.id := g][g.id := CreditRegion(g, g.capacity)] == map[g.id := UsedRegion(g, g.capacity, 0)];
  }

  function FirstHeld(): map<Str, Reservation> {
    map[ReservationId(1) := Everything()]
  }

  function OneRegion(): map<Str, Region> {
    map[R := UsedRegion(WIDE, U64_MAX, 0)]
  }

  function TwoRegions(second: u64): map<Str, Region> {
    map[R := UsedRegion(WIDE, U64_MAX, 0), S := UsedRegion(WIDER, second, 0)]
  }

  lemma LosesSecond()
    ensures Leads(Stage(Trio(), OneRegion(), map[P := Full()], FirstHeld(), 1), OnPool(RemoveMemberCall(P, E, CTX)),
                  Stage(Trio(), OneRegion(), map[P := Shrunk()], FirstHeld(), 1))
  {
    assert Full().members[1].device == E;
    RemovesMember(Trio(), OneRegion(), Full(), FirstHeld(), 1, E, CTX);
    SecondRemoved();
    RecomputedVast(Full(), [FIRST], 2);
  }

  lemma SecondRemoved()
    ensures Without([FIRST, SECOND], E) == [FIRST]
  {
    assert [FIRST, SECOND][1..] == [SECOND] && [SECOND][1..] == [];
  }

  lemma GainsThird()
    ensures Leads(Stage(Trio(), OneRegion(), map[P := Shrunk()], FirstHeld(), 1), OnPool(AddMemberCall(P, THIRD, CTX)),
                  Stage(Trio(), OneRegion(), map[P := Regrown()], FirstHeld(), 1))
  {
    AddsMember(Trio(), OneRegion(), Shrunk(), FirstHeld(), 1, THIRD, CTX);
    assert [FIRST] + [THIRD] == [FIRST, THIRD];
    RecomputedVast(Shrunk(), [FIRST, THIRD], 3);
  }

  lemma OpensWider()
    ensures Leads(Stage(Trio(), OneRegion(), map[P := Regrown()], FirstHeld(), 1), OnRegion(NewRegionCall(WIDER, CTX)),
                  Stage(Trio(), TwoRegions(0), map[P := Regrown()], FirstHeld(), 1))
  {
    var s := Stage(Trio(), OneRegion(), map[P := Regrown()], FirstHeld(), 1);
    assert s.pools[P].members[0].device == D;
    CreatesRegion(s, WIDER, CTX);
    assert OneRegion()[S := WIDER] == TwoRegions(0);
  }

  /** The used sum wraps to 1, so the pool seems to have 2^63 + 1 bytes free. */
  lemma SeemsFree()
    ensures PoolUsed(Regrown()) == 1 && PoolFree(Regrown()) == HALF + 1
    ensures CreditPool(Regrown(), HALF + 1) == Wrapped() && !SumFits(Regrown(), HALF + 1)
    ensures RegionFree(UsedRegion(WIDE, U64_MAX, 0)) == 0 && RegionFree(UsedRegion(WIDER, 0, 0)) == U64_MAX
  {}

  lemma WiderShelf()
    ensures Shelf(Trio(), MakeDevice(D), TwoRegions(0), Regrown())
    ensures Healthy(MakeDevice(D), TwoRegions(0), Regrown())
  {}

  function BothHeld(): map<Str, Reservation> {
    FirstHeld()[ReservationId(2) := More()]
  }

  lemma WiderFilled()
    ensures S in TwoRegions(0) && TwoRegions(0)[S := CreditRegion(TwoRegions(0)[S], HALF + 1)] == TwoRegions(HALF + 1)
  {}

  lemma TakesMore()
    ensures Leads(Stage(Trio(), TwoRegions(0), map[P := Regrown()], FirstHeld(), 1), ReserveOp(HALF + 1, CTX),
                  Stage(Trio(), TwoRegions(HALF + 1), map[P := Wrapped()], BothHeld(), 2))
  {
    IdsDiffer(1, 2);
    SeemsFree();
    WiderShelf();
    WiderFilled();
    ReservesOnShelf(Trio(), MakeDevice(D), TwoRegions(0), Regrown(), FirstHeld(), 1, 2, S, HALF + 1, [], CTX);
  }

  function WrapOps(): seq<Op> {
    WrapSetUp() + [ReserveOp(U64_MAX, CTX)] + [OnPool(RemoveMemberCall(P, E, CTX))]
    + [OnPool(AddMemberCall(P, THIRD, CTX))] + [OnRegion(NewRegionCall(WIDER, CTX))] + [ReserveOp(HALF + 1, CTX)]
  }

  function WrapSetUp(): seq<Op> {
    [] + [OnDevice(RegisterCall(MakeDevice(D), CTX))] + [OnDevice(RegisterCall(MakeDevice(E), CTX))]
    + [OnDevice(RegisterCall(MakeDevice(F), CTX))] + [OnPool(NewPoolCall(VAST, CTX))]
    + [OnRegion(NewRegionCall(WIDE, CTX))]
  }

  lemma WrapSetUpReached()
    ensures Reaches(Initial(1, 1), WrapSetUp(), Stage(Trio(), map[R := WIDE], map[P := Opened(VAST)], map[], 0))
  {
    RegistersTrio();
    OpensVast();
    OpensWide();
    ReachesNone(Initial(1, 1));
    var a, b := OnDevice(RegisterCall(MakeDevice(D), CTX)), OnDevice(RegisterCall(MakeDevice(E), CTX));
    var c, d := OnDevice(RegisterCall(MakeDevice(F), CTX)), OnPool(NewPoolCall(VAST, CTX));
    ReachesMoreThree(Initial(1, 1), [], Initial(1, 1),
                     a, Stage(map[D := MakeDevice(D)], map[], map[], map[], 0),
                     b, Stage(map[D := MakeDevice(D), E := MakeDevice(E)], map[], map[], map[], 0),
                     c, Stage(Trio(), map[], map[], map[], 0));
    ReachesMore(Initial(1, 1), [] + [a] + [b] + [c], Stage(Trio(), map[], map[], map[], 0), d,
                Stage(Trio(), map[], map[P := Opened(VAST)], map[], 0));
    ReachesMore(Initial(1, 1), [] + [a] + [b] + [c] + [d], Stage(Trio(), map[], map[P := Opened(VAST)], map[], 0),
                OnRegion(NewRegionCall(WIDE, CTX)), Stage(Trio(), map[R := WIDE], map[P := Opened(VAST)], map[], 0));
  }

  function Overflown(): State {
    Stage(Trio(), TwoRegions(HALF + 1), map[P := Wrapped()], BothHeld(), 2)
  }

  lemma OverflownIsReached()
    ensures Reaches(Initial(1, 1), WrapOps(), Overflown())
  {
    WrapSetUpReached();
    TakesEverything();
    LosesSecond();
    GainsThird();
    OpensWider();
    TakesMore();
    var ops := WrapSetUp();
    var a, b, c := ReserveOp(U64_MAX, CTX), OnPool(RemoveMemberCall(P, E, CTX)), OnPool(AddMemberCall(P, THIRD, CTX));
    ReachesMoreThree(Initial(1, 1), ops, Stage(Trio(), map[R := WIDE], map[P := Opened(VAST)], map[], 0),
                     a, Stage(Trio(), OneRegion(), map[P := Full()], FirstHeld(), 1),
                     b, Stage(Trio(), OneRegion(), map[P := Shrunk()], FirstHeld(), 1),
                     c, Stage(Trio(), OneRegion(), map[P := Regrown()], FirstHeld(), 1));
    ReachesMore(Initial(1, 1), ops + [a] + [b] + [c], Stage(Trio(), OneRegion(), map[P := Regrown()], FirstHeld(), 1),
                OnRegion(NewRegionCall(WIDER, CTX)), Stage(Trio(), TwoRegions(0), map[P := Regrown()], FirstHeld(), 1));
    ReachesMore(Initial(1, 1), ops + [a] + [b] + [c] + [OnRegion(NewRegionCall(WIDER, CTX))],
                Stage(Trio(), TwoRegions(0), map[P := Regrown()], FirstHeld(), 1), ReserveOp(HALF + 1, CTX),
                Overflown());
  }

  lemma OverflownBytes()
    ensures Bytes(Overflown().reservations, LiveIn(P)) == U64_MAX + HALF + 1
  {
    IdsDiffer(1, 2);
    VastOpened();
    BytesOfTwo(ReservationId(1), Everything(), ReservationId(2), More(), LiveIn(P));
  }

  lemma OverflownConflicts()
    ensures Release(Overflown(), ReservationId(1), CTX).1 == Refused(RESERVATION_CONFLICT)
  {
    IdsDiffer(1, 2);
    VastOpened();
  }

  /**
   * From zero counters, one accepted grant that the pool cannot count: its counters hold 2^63 bytes where the live
   * reservations hold 2^64 + 2^63, and the first reservation can no longer be released.
   */
  lemma UncountableGrant()
    ensures var s := Run(Initial(1, 1), WrapOps());
      && P in s.pools && s.pools[P].reserved + s.pools[P].committed == HALF
      && Bytes(s.reservations, LiveIn(P)) == U64_MAX + 1 + HALF
      && ReservationId(1) in s.reservations && Live(s.reservations[ReservationId(1)])
      && Release(s, ReservationId(1), CTX).1 == Refused(RESERVATION_CONFLICT)
  {
    OverflownIsReached();
    assert Run(Initial(1, 1), WrapOps()) == Overflown();
    OverflownBytes();
    OverflownConflicts();
    IdsDiffer(1, 2);
  }

  // ---- a refused release that changes the state ----

  /** Counters as given at creation that, with the unhealthy member, wrap the used sum. */
  const WORN := MakePool(P, [MakeMember(D, 8, true), MakeMember(E, 2, false)]).(reserved := U64_MAX - 3, committed := 3)

  function Duo(): map<Str, Device> {
    map[D := MakeDevice(D), E := MakeDevice(E)]
  }

  /** The pool as created, and after a grant of four bytes has wrapped its reserved counter to 0. */
  function Worn(): Pool { WORN.(totalGoverned := 10, unavailable := 2) }
  function Spent(): Pool { WORN.(totalGoverned := 10, unavailable := 2, reserved := 0) }

  lemma WornOpened()
    ensures Opened(WORN) == Worn()
  {
    TotalsOfTwo(MakeMember(D, 8, true), MakeMember(E, 2, false));
  }

  lemma WornSeemsFree()
    ensures PoolFree(Worn()) == 9 && CreditPool(Worn(), 4) == Spent()
  {}

  lemma OpensWorn()
    ensures Leads(Stage(Duo(), map[], map[], map[], 0), OnPool(NewPoolCall(WORN, CTX)),
                  Stage(Duo(), map[], map[P := Worn()], map[], 0))
  {
    WornOpened();
    CreatesPool(Stage(Duo(), map[], map[], map[], 0), WORN, CTX);
  }

  lemma OpensWornRoom()
    ensures Leads(Stage(Duo(), map[], map[P := Worn()], map[], 0), OnRegion(NewRegionCall(ROOM, CTX)),
                  Stage(Duo(), map[R := ROOM], map[P := Worn()], map[], 0))
  {
    var s := Stage(Duo(), map[], map[P := Worn()], map[], 0);
    assert s.pools[P].members[0].device == D;
    CreatesRegion(s, ROOM, CTX);
  }

  function Four(): Reservation { Held(MakeDevice(D), ROOM, Worn(), 4, [], CTX, 1) }

  /** Four bytes are live, and the pool counts three. */
  function Short(): State {
    Stage(Duo(), map[R := UsedRegion(ROOM, 4, 0)], map[P := Spent()], map[ReservationId(1) := Four()], 1)
  }

  lemma WornShelf()
    ensures Shelf(Duo(), MakeDevice(D), map[R := ROOM], Worn()) && Healthy(MakeDevice(D), map[R := ROOM], Worn())
  {}

  lemma TakesFour()
    ensures Leads(Stage(Duo(), map[R := ROOM], map[P := Worn()], map[], 0), ReserveOp(4, CTX), Short())
  {
    var none: map<Str, Reservation> := map[];
    WornSeemsFree();
    WornShelf();
    ReservesOnShelf(Duo(), MakeDevice(D), map[R := ROOM], Worn(), none, 0, 1, R, 4, [], CTX);
    assert none[ReservationId(1) := Four()] == map[ReservationId(1) := Four()];
    assert map[R := ROOM][R := CreditRegion(ROOM, 4)] == map[R := UsedRegion(ROOM, 4, 0)];
  }

  function ShortOps(): seq<Op> {
    [] + [OnDevice(RegisterCall(MakeDevice(D), CTX))] + [OnDevice(RegisterCall(MakeDevice(E), CTX))]
    + [OnPool(NewPoolCall(WORN, CTX))] + [OnRegion(NewRegionCall(ROOM, CTX))] + [ReserveOp(4, CTX)]
  }

  lemma ShortIsReached()
    ensures Reaches(Initial(1, 1), ShortOps(), Short())
  {
    RegistersTrio();
    OpensWorn();
    OpensWornRoom();
    TakesFour();
    ReachesNone(Initial(1, 1));
    var a, b := OnDevice(RegisterCall(MakeDevice(D), CTX)), OnDevice(RegisterCall(MakeDevice(E), CTX));
    var c, d := OnPool(NewPoolCall(WORN, CTX)), OnRegion(NewRegionCall(ROOM, CTX));
    ReachesMoreThree(Initial(1, 1), [], Initial(1, 1), a, Stage(map[D := MakeDevice(D)], map[], map[], map[], 0),
                     b, Stage(Duo(), map[], map[], map[], 0), c, Stage(Duo(), map[], map[P := Worn()], map[], 0));
    ReachesMore(Initial(1, 1), [] + [a] + [b] + [c], Stage(Duo(), map[], map[P := Worn()], map[], 0), d,
                Stage(Duo(), map[R := ROOM], map[P := Worn()], map[], 0));
    ReachesMore(Initial(1, 1), [] + [a] + [b] + [c] + [d], Stage(Duo(), map[R := ROOM], map[P := Worn()], map[], 0),
                ReserveOp(4, CTX), Short());
  }

  lemma ShortConflicts()
    ensures Release(Short(), ReservationId(1), CTX).1 == Refused(RESERVATION_CONFLICT)
    ensures P in Release(Short(), ReservationId(1), CTX).0.pools
    ensures Release(Short(), ReservationId(1), CTX).0.pools[P].committed == 0
  {}

  /** The release is refused, and the pool's committed bytes are gone. */
  lemma RefusedReleaseTakesBytes()
    ensures var s := Run(Initial(1, 1), ShortOps());
      && P in s.pools && s.pools[P].committed == 3
      && Release(s, ReservationId(1), CTX).1 == Refused(RESERVATION_CONFLICT)
      && P in Release(s, ReservationId(1), CTX).0.pools
      && Release(s, ReservationId(1), CTX).0.pools[P].committed == 0
  {
    ShortIsReached();
    assert Run(Initial(1, 1), ShortOps()) == Short();
    ShortConflicts();
  }

  // ---- a retired device that comes back ----

  function Old(): Device {
    MakeDevice(D).(state := Retired)
  }

  lemma Returns()
    ensures Leads(Initial(1, 1), OnDevice(RegisterCall(Old(), CTX)), Stage(map[D := Old()], map[], map[], map[], 0))
    ensures Leads(Stage(map[D := Old()], map[], map[], map[], 0), OnDevice(RegisterCall(MakeDevice(D), CTX)),
                  Stage(map[D := MakeDevice(D)], map[], map[], map[], 0))
  {
    StageZero();
    Registers(Initial(1, 1), Old(), CTX);
    assert map[D := Old()][D := MakeDevice(D)] == map[D := MakeDevice(D)];
  }

  /** Registered as retired and registered again at the same generation, the device is online. */
  lemma RetiredDeviceReturns()
    ensures var s := Run(Initial(1, 1), [] + [OnDevice(RegisterCall(Old(), CTX))]);
      D in s.devices && s.devices[D].state.Retired?
    ensures var s := Run(Initial(1, 1), [] + [OnDevice(RegisterCall(Old(), CTX))]
                                        + [OnDevice(RegisterCall(MakeDevice(D), CTX))]);
      D in s.devices && s.devices[D].state.Online?
  {
    Returns();
    var a, b := OnDevice(RegisterCall(Old(), CTX)), OnDevice(RegisterCall(MakeDevice(D), CTX));
    ReachesNone(Initial(1, 1));
    ReachesMore(Initial(1, 1), [], Initial(1, 1), a, Stage(map[D := Old()], map[], map[], map[], 0));
    ReachesMore(Initial(1, 1), [] + [a], Stage(map[D := Old()], map[], map[], map[], 0), b,
                Stage(map[D := MakeDevice(D)], map[], map[], map[], 0));
    assert Run(Initial(1, 1), [] + [a]) == Stage(map[D := Old()], map[], map[], map[], 0);
    assert Run(Initial(1, 1), [] + [a] + [b]) == Stage(map[D := MakeDevice(D)], map[], map[], map[], 0);
  }
}
