/** Pools, regions and devices that admission is closed to: drained, distrusted or just imported. */
module Closing {
  import opened Base
  import opened Records
  import opened Evaluation
  import opened Spec
  import opened Shapes
  import opened Books
  import opened Fencing
  import opened RegionBooks

  datatype Target = PoolTarget(id: Str) | RegionTarget(id: Str) | DeviceTarget(id: Str)

  predicate PoolOpen(p: Pool) {
    p.evidenceCurrent && Admitting(p)
  }

  predicate RegionOpen(r: Region) {
    r.evidenceCurrent && r.state.RegionOnline?
  }

  predicate DeviceOpen(d: Device) {
    d.evidenceCurrent && d.state.Online?
  }

  /** Nothing can be placed on the target: it is unknown, its evidence is stale or its state admits nothing. */
  predicate Closed(s: State, t: Target) {
    match t
    case PoolTarget(p) => p in s.pools ==> !PoolOpen(s.pools[p])
    case RegionTarget(r) => r in s.regions ==> !RegionOpen(s.regions[r])
    case DeviceTarget(d) => d in s.devices ==> !DeviceOpen(s.devices[d])
  }

  predicate On(res: Reservation, t: Target) {
    match t
    case PoolTarget(p) => res.pool == p
    case RegionTarget(r) => res.region == r
    case DeviceTarget(d) => res.device == d
  }

  predicate ReopensPool(s: State, c: PoolCall, p: Str) {
    PoolKey(c) == p && (c.RevalidatePoolCall? || (c.NewPoolCall? && p !in s.pools))
  }

  predicate ReopensRegion(s: State, c: RegionCall, r: Str) {
    && RegionKey(c) == r
    && (c.RevalidateRegionCall?
        || (c.ReplaceRegionCall? && RegionOpen(c.region))
        || (c.NewRegionCall? && RegionOpen(c.region) && r !in s.regions))
  }

  predicate ReopensDevice(c: DeviceCall, d: Str) {
    DeviceKey(c) == d && (c.OnlineCall? || (c.RegisterCall? && DeviceOpen(c.dev)))
  }

  /** The only calls that can open a closed target again. */
  predicate Reopens(s: State, op: Op, t: Target) {
    match t
    case PoolTarget(p) => op.OnPool? && ReopensPool(s, op.pool, p)
    case RegionTarget(r) => op.OnRegion? && ReopensRegion(s, op.region, r)
    case DeviceTarget(d) => op.OnDevice? && ReopensDevice(op.device, d)
  }

  // ---- closed stays closed ----

  lemma DeviceCallCloses(s: State, c: DeviceCall, t: Target)
    requires Closed(s, t) && !Reopens(s, OnDevice(c), t)
    ensures Closed(PerformOnDevice(s, c).0, t)
  {
    DeviceCallShape(s, c);
  }

  lemma RegionCallCloses(s: State, c: RegionCall, t: Target)
    requires Closed(s, t) && !Reopens(s, OnRegion(c), t)
    ensures Closed(PerformOnRegion(s, c).0, t)
  {
    RegionCallShape(s, c);
  }

  lemma PoolCallCloses(s: State, c: PoolCall, t: Target)
    requires Closed(s, t) && !Reopens(s, OnPool(c), t)
    ensures Closed(PerformOnPool(s, c).0, t)
  {
    PoolCallShape(s, c);
    if PerformOnPool(s, c).1 == OK && !c.NewPoolCall? { PoolAfterKeeps(s, c); }
  }

  /** Counters and reservations move; states, evidence and generations do not. */
  ghost predicate OnlyCounters(s: State, t: State) {
    && t.devices == s.devices && t.pools.Keys == s.pools.Keys && t.regions.Keys == s.regions.Keys
    && (forall p | p in s.pools ::
          t.pools[p] == s.pools[p].(reserved := t.pools[p].reserved, committed := t.pools[p].committed))
    && (forall r | r in s.regions ::
          t.regions[r] == s.regions[r].(reserved := t.regions[r].reserved, committed := t.regions[r].committed))
  }

  lemma BookCounters(s: State, c: Candidate, req: Request, ctx: Authority)
    requires Bookable(s, c, req)
    ensures OnlyCounters(s, Book(s, c, req, ctx).0)
  {
    BookShape(s, c, req, ctx);
  }

  lemma CommitCounters(s: State, id: Str, ctx: Authority)
    ensures OnlyCounters(s, Commit(s, id, ctx).0)
  {
    CommitShape(s, id, ctx);
  }

  lemma ReservationCallCounters(s: State, c: ReservationCall)
    requires Filed(s)
    ensures OnlyCounters(s, PerformOnReservation(s, c).0)
  {
    match c
    case ReserveCall(req, ctx) =>
      var chosen := ReserveShape(s, req, ctx);
      if Reserve(s, req, ctx).1.ok { BookCounters(s, chosen, req, ctx); }
    case CommitCall(id, ctx) => CommitCounters(s, id, ctx);
    case ReleaseCall(id, ctx) => DebitKeeps(s, id, ctx);
  }

  lemma ReservationCallCloses(s: State, c: ReservationCall, t: Target)
    requires Filed(s) && Closed(s, t)
    ensures Closed(PerformOnReservation(s, c).0, t)
  {
    ReservationCallCounters(s, c);
  }

  lemma SettingCloses(s: State, c: SettingCall, t: Target)
    requires Closed(s, t)
    ensures Closed(ApplySetting(s, c), t)
  {}

  /** An import closes everything, whatever the snapshot claims. */
  lemma ImportCloses(s: State, ps: Persisted, t: Target)
    ensures Closed(Import(s, ps), t)
  {}

  lemma StepCloses(s: State, op: Op, t: Target)
    requires Filed(s) && Closed(s, t) && !Reopens(s, op, t)
    ensures Closed(Apply(s, op), t)
  {
    match op
    case Setting(c) => SettingCloses(s, c, t);
    case OnDevice(c) => DeviceCallCloses(s, c, t);
    case OnRegion(c) => RegionCallCloses(s, c, t);
    case OnPool(c) => PoolCallCloses(s, c, t);
    case OnReservation(c) => ReservationCallCloses(s, c, t);
    case Restore(ps) => ImportCloses(s, ps, t);
  }

  // ---- closed targets gain nothing ----

  lemma BookableIsOpen(s: State, c: Candidate, req: Request, ctx: Authority, t: Target)
    requires Bookable(s, c, req) && Closed(s, t)
    ensures !On(Captured(s, c, req, ctx, NewId(s)), t)
  {}

  /** No grant ever names a closed target. */
  lemma ClosedNeverGranted(s: State, req: Request, ctx: Authority, t: Target)
    requires Filed(s) && Closed(s, t) && Reserve(s, req, ctx).1.ok
    ensures Reserve(s, req, ctx).1.reservation.Some? && !On(Reserve(s, req, ctx).1.reservation.value, t)
  {
    var c := ReserveShape(s, req, ctx);
    BookShape(s, c, req, ctx);
    BookableIsOpen(s, c, req, ctx, t);
  }

  lemma StepGainsNone(s: State, op: Op, t: Target, k: Str)
    requires Filed(s) && Closed(s, t)
    requires k in Apply(s, op).reservations && On(Apply(s, op).reservations[k], t)
    ensures k in s.reservations && SameGrant(s.reservations[k], Apply(s, op).reservations[k])
  {
    if k !in s.reservations {
      var c := Newcomer(s, op, k);
      BookableIsOpen(s, c, op.reservation.req, op.reservation.ctx, t);
    } else {
      RestoreForgets(s, op);
      StepLater(s, op);
    }
  }

  lemma RestoreForgets(s: State, op: Op)
    ensures op.Restore? ==> Apply(s, op).reservations == map[]
  {}

  /** No call of the run reopens the target, and imports file their records by id. */
  ghost predicate LeftClosed(s: State, ops: seq<Op>, t: Target)
    decreases |ops|
  {
    ops != [] ==> WellFiled(ops[0]) && !Reopens(s, ops[0], t) && LeftClosed(Apply(s, ops[0]), ops[1..], t)
  }

  /** Whatever a run does short of reopening the target, every later reservation on it was already there. */
  lemma {:induction false} ClosedGainsNone(s: State, ops: seq<Op>, t: Target, k: Str)
    requires Filed(s) && Closed(s, t) && LeftClosed(s, ops, t)
    ensures Closed(Run(s, ops), t)
    ensures k in Run(s, ops).reservations && On(Run(s, ops).reservations[k], t) ==>
      k in s.reservations && SameGrant(s.reservations[k], Run(s, ops).reservations[k])
    decreases |ops|
  {
    if ops != [] {
      var u := Apply(s, ops[0]);
      StepFiled(s, ops[0]);
      StepCloses(s, ops[0], t);
      ClosedGainsNone(u, ops[1..], t, k);
      if k in u.reservations && On(u.reservations[k], t) {
        StepGainsNone(s, ops[0], t, k);
      }
    }
  }

  /** After an import nothing is reserved on any pool, region or device until that one is reopened. */
  lemma NothingLandsAfterImport(s: State, ps: Persisted, ops: seq<Op>, t: Target, k: Str)
    requires FiledById(ps.devices, ps.regions, ps.pools) && LeftClosed(Import(s, ps), ops, t)
    ensures k in Run(Import(s, ps), ops).reservations ==> !On(Run(Import(s, ps), ops).reservations[k], t)
  {
    RestoreFiled(s, ps);
    ImportCloses(s, ps, t);
    ClosedGainsNone(Import(s, ps), ops, t, k);
  }

  // ---- a drained pool or region only empties ----

  /** The bytes reserved and committed on a pool or a region. */
  function PoolUse(s: State, p: Str): nat
    requires p in s.pools
  {
    s.pools[p].reserved + s.pools[p].committed
  }

  function RegionUse(s: State, r: Str): nat
    requires r in s.regions
  {
    s.regions[r].reserved + s.regions[r].committed
  }

  /** t still has the pool, with no more in use than s. */
  ghost predicate PoolShrinks(s: State, t: State, p: Str)
    requires p in s.pools
  {
    p in t.pools && PoolUse(t, p) <= PoolUse(s, p)
  }

  ghost predicate RegionShrinks(s: State, t: State, r: Str)
    requires r in s.regions
  {
    r in t.regions && RegionUse(t, r) <= RegionUse(s, r)
  }

  lemma SettleNeverGrows(reserved: u64, committed: u64, bytes: u64)
    requires bytes <= reserved
    ensures WrapSub(reserved, bytes) + WrapAdd(committed, bytes) <= reserved + committed
  {}

  lemma ReleaseShrinks(s: State, id: Str, ctx: Authority)
    ensures forall p | p in s.pools :: PoolShrinks(s, Release(s, id, ctx).0, p)
    ensures forall r | r in s.regions :: RegionShrinks(s, Release(s, id, ctx).0, r)
  {}

  lemma ReserveShrinks(s: State, req: Request, ctx: Authority, t: Target)
    requires Filed(s) && Closed(s, t)
    ensures t.PoolTarget? && t.id in s.pools ==> PoolShrinks(s, Reserve(s, req, ctx).0, t.id)
    ensures t.RegionTarget? && t.id in s.regions ==> RegionShrinks(s, Reserve(s, req, ctx).0, t.id)
  {
    var c := ReserveShape(s, req, ctx);
    if Reserve(s, req, ctx).1.ok { BookShape(s, c, req, ctx); }
  }

  // ---- pools: commit guards its subtraction, so nothing more is needed ----

  lemma CommitShrinksPool(s: State, id: Str, ctx: Authority, p: Str)
    requires p in s.pools
    ensures PoolShrinks(s, Commit(s, id, ctx).0, p)
  {
    CommitShape(s, id, ctx);
    if Commit(s, id, ctx).1.ok {
      var res := s.reservations[id];
      SettleNeverGrows(s.pools[res.pool].reserved, s.pools[res.pool].committed, res.bytes);
    }
  }

  lemma ReservationCallShrinksPool(s: State, c: ReservationCall, p: Str)
    requires Filed(s) && p in s.pools && Closed(s, PoolTarget(p))
    ensures PoolShrinks(s, PerformOnReservation(s, c).0, p)
  {
    match c
    case ReserveCall(req, ctx) => ReserveShrinks(s, req, ctx, PoolTarget(p));
    case CommitCall(id, ctx) => CommitShrinksPool(s, id, ctx, p);
    case ReleaseCall(id, ctx) => ReleaseShrinks(s, id, ctx);
  }

  lemma PoolCallShrinks(s: State, c: PoolCall, p: Str)
    requires p in s.pools
    ensures PoolShrinks(s, PerformOnPool(s, c).0, p)
  {
    PoolCallShape(s, c);
    if PerformOnPool(s, c).1 == OK && !c.NewPoolCall? { PoolAfterKeeps(s, c); }
  }

  lemma RegionCallKeepsPools(s: State, c: RegionCall)
    ensures PerformOnRegion(s, c).0.pools == s.pools
  {
    RegionCallShape(s, c);
  }

  lemma DeviceCallKeepsBoth(s: State, c: DeviceCall)
    ensures PerformOnDevice(s, c).0.pools == s.pools && PerformOnDevice(s, c).0.regions == s.regions
  {
    DeviceCallShape(s, c);
  }

  lemma SettingKeepsBoth(s: State, c: SettingCall)
    ensures ApplySetting(s, c).pools == s.pools && ApplySetting(s, c).regions == s.regions
  {}

  lemma StepShrinksPool(s: State, op: Op, p: Str)
    requires Filed(s) && p in s.pools && Closed(s, PoolTarget(p)) && !op.Restore?
    ensures PoolShrinks(s, Apply(s, op), p)
  {
    match op
    case Setting(c) => SettingKeepsBoth(s, c);
    case OnDevice(c) => DeviceCallKeepsBoth(s, c);
    case OnRegion(c) => RegionCallKeepsPools(s, c);
    case OnPool(c) => PoolCallShrinks(s, c, p);
    case OnReservation(c) => ReservationCallShrinksPool(s, c, p);
  }

  /** Calls that neither import nor reopen the target. */
  ghost predicate LeftAlone(s: State, ops: seq<Op>, t: Target)
    decreases |ops|
  {
    ops != [] ==> !ops[0].Restore? && !Reopens(s, ops[0], t) && LeftAlone(Apply(s, ops[0]), ops[1..], t)
  }

  /** While a pool is closed, what it has in use never grows. */
  lemma {:induction false} ClosedPoolOnlyEmpties(s: State, ops: seq<Op>, p: Str)
    requires Filed(s) && p in s.pools && Closed(s, PoolTarget(p)) && LeftAlone(s, ops, PoolTarget(p))
    ensures PoolShrinks(s, Run(s, ops), p)
    decreases |ops|
  {
    if ops != [] {
      StepShrinksPool(s, ops[0], p);
      StepCloses(s, ops[0], PoolTarget(p));
      StepFiled(s, ops[0]);
      ClosedPoolOnlyEmpties(Apply(s, ops[0]), ops[1..], p);
    }
  }

  lemma DrainShape(s: State, c: PoolCall)
    requires c.DrainPoolCall? && PerformOnPool(s, c).1 == OK
    ensures c.id in s.pools && c.id in PerformOnPool(s, c).0.pools
    ensures PoolUse(PerformOnPool(s, c).0, c.id) == PoolUse(s, c.id)
    ensures Closed(PerformOnPool(s, c).0, PoolTarget(c.id))
  {
    PoolCallShape(s, c);
  }

  /** From a successful drain of a pool to its revalidation, its bytes in use never exceed those at the drain. */
  lemma DrainedPoolOnlyEmpties(s: State, c: PoolCall, ops: seq<Op>)
    requires Filed(s) && c.DrainPoolCall? && PerformOnPool(s, c).1 == OK
    requires LeftAlone(PerformOnPool(s, c).0, ops, PoolTarget(c.id))
    ensures c.id in s.pools && PoolShrinks(s, Run(PerformOnPool(s, c).0, ops), c.id)
  {
    DrainShape(s, c);
    PoolCallFiled(s, c);
    ClosedPoolOnlyEmpties(PerformOnPool(s, c).0, ops, c.id);
  }

  // ---- regions: commit does not guard its subtraction, the books do ----

  lemma CommitShrinksRegion(s: State, o: Opening, id: Str, ctx: Authority, r: Str)
    requires RegionsKept(s, o) && r in s.regions
    ensures RegionShrinks(s, Commit(s, id, ctx).0, r)
  {
    if Commit(s, id, ctx).1.ok { CommitMovesExactly(s, o, id, ctx); }
    CommitMovesOneRegion(s, id, ctx, r);
  }

  lemma CommitMovesOneRegion(s: State, id: Str, ctx: Authority, r: Str)
    requires r in s.regions
    requires Commit(s, id, ctx).1.ok ==>
      id in s.reservations && MovedOnRegion(s, Commit(s, id, ctx).0, s.reservations[id])
    ensures RegionShrinks(s, Commit(s, id, ctx).0, r)
  {
    CommitShape(s, id, ctx);
  }

  lemma ReservationCallShrinksRegion(s: State, o: Opening, c: ReservationCall, r: Str)
    requires RegionsKept(s, o) && r in s.regions && Closed(s, RegionTarget(r))
    ensures RegionShrinks(s, PerformOnReservation(s, c).0, r)
  {
    match c
    case ReserveCall(req, ctx) => ReserveShrinks(s, req, ctx, RegionTarget(r));
    case CommitCall(id, ctx) => CommitShrinksRegion(s, o, id, ctx, r);
    case ReleaseCall(id, ctx) => ReleaseShrinks(s, id, ctx);
  }

  lemma RegionCallShrinks(s: State, c: RegionCall, r: Str)
    requires r in s.regions && AdmissibleOnRegion(s, c)
    ensures RegionShrinks(s, PerformOnRegion(s, c).0, r)
  {
    RegionCallShape(s, c);
  }

  lemma PoolCallKeepsRegions(s: State, c: PoolCall)
    ensures PerformOnPool(s, c).0.regions == s.regions
  {
    PoolCallShape(s, c);
  }

  lemma StepShrinksRegion(s: State, op: Op, r: Str)
    requires r in s.regions && RegionSensible(s, op) && !op.Restore?
    requires op.OnReservation? ==> RegionShrinks(s, PerformOnReservation(s, op.reservation).0, r)
    ensures RegionShrinks(s, Apply(s, op), r)
  {
    match op
    case Setting(c) => SettingKeepsBoth(s, c);
    case OnDevice(c) => DeviceCallKeepsBoth(s, c);
    case OnRegion(c) => RegionCallShrinks(s, c, r);
    case OnPool(c) => PoolCallKeepsRegions(s, c);
    case OnReservation(c) =>
  }

  /** A region that admission is closed to, in a state whose region counters are kept. */
  ghost predicate Shut(s: State, o: Opening, r: Str) {
    RegionsKept(s, o) && r in s.regions && Closed(s, RegionTarget(r))
  }

  lemma StepOnlyEmpties(s: State, o: Opening, op: Op, r: Str)
    requires Shut(s, o, r) && RegionSensible(s, op) && !op.Restore? && !Reopens(s, op, RegionTarget(r))
    ensures RegionShrinks(s, Apply(s, op), r) && Shut(Apply(s, op), NextOpening(s, o, op), r)
  {
    if op.OnReservation? { ReservationCallShrinksRegion(s, o, op.reservation, r); }
    StepShrinksRegion(s, op, r);
    StepCloses(s, op, RegionTarget(r));
    RegionStep(s, o, op);
  }

  ghost predicate ShutRun(s: State, ops: seq<Op>, r: Str)
    decreases |ops|
  {
    ops != [] ==>
      && RegionSensible(s, ops[0]) && !ops[0].Restore? && !Reopens(s, ops[0], RegionTarget(r))
      && ShutRun(Apply(s, ops[0]), ops[1..], r)
  }

  /** While a region is closed, what it has in use never grows. */
  lemma {:induction false} ClosedRegionOnlyEmpties(s: State, o: Opening, ops: seq<Op>, r: Str)
    requires Shut(s, o, r) && ShutRun(s, ops, r)
    ensures RegionShrinks(s, Run(s, ops), r)
    decreases |ops|
  {
    if ops != [] {
      StepOnlyEmpties(s, o, ops[0], r);
      ClosedRegionOnlyEmpties(Apply(s, ops[0]), NextOpening(s, o, ops[0]), ops[1..], r);
    }
  }

  lemma RegionDrainShape(s: State, c: RegionCall)
    requires c.DrainRegionCall? && PerformOnRegion(s, c).1 == OK
    ensures c.id in s.regions && c.id in PerformOnRegion(s, c).0.regions
    ensures RegionUse(PerformOnRegion(s, c).0, c.id) == RegionUse(s, c.id)
    ensures Closed(PerformOnRegion(s, c).0, RegionTarget(c.id))
  {
    RegionCallShape(s, c);
  }

  /** From a successful drain of a region to its revalidation, its bytes in use never exceed those at the drain. */
  lemma DrainedRegionOnlyEmpties(s: State, o: Opening, c: RegionCall, ops: seq<Op>)
    requires RegionsKept(s, o) && c.DrainRegionCall? && PerformOnRegion(s, c).1 == OK
    requires ShutRun(PerformOnRegion(s, c).0, ops, c.id)
    ensures c.id in s.regions && RegionShrinks(s, Run(PerformOnRegion(s, c).0, ops), c.id)
  {
    RegionDrainShape(s, c);
    RegionCallKept(s, o, c);
    ClosedRegionOnlyEmpties(PerformOnRegion(s, c).0, o, ops, c.id);
  }
}
