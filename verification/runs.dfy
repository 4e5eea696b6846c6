/** Accounting over whole runs. */
module Runs {
  import opened Base
  import Order
  import opened Sums
  import opened Records
  import opened Evaluation
  import opened Placement
  import opened Ledger
  import opened Spec
  import opened Shapes
  import opened Books
  import opened Capacity
  import opened Fencing
  import opened RegionBooks

  // ---- one step ----

  lemma RestorePools(s: State, o: Opening, ps: Persisted)
    requires AdmissibleRestore(ps)
    ensures PoolsBalanced(Import(s, ps), NextOpening(s, o, Restore(ps)))
  {
    forall p | p in ps.pools ensures PoolBalanced(Import(s, ps), NextOpening(s, o, Restore(ps)), p) {
      NoneAtAll(LiveIn(p));
      NoneAtAll(CommittedIn(p));
    }
  }

  lemma RestoreBalanced(s: State, o: Opening, ps: Persisted)
    requires AdmissibleRestore(ps)
    ensures Balanced(Import(s, ps), NextOpening(s, o, Restore(ps)))
  {
    RestorePools(s, o, ps);
    RestoreRegions(s, o, ps);
    RestoreSound(s, ps);
  }

  lemma CreatedPoolBalanced(s: State, o: Opening, c: PoolCall)
    requires Balanced(s, o) && c.NewPoolCall? && c.pool.id !in s.pools && c.pool.reserved + c.pool.committed <= U64_MAX
    ensures Balanced(WithPool(s, PoolKey(c), PoolAfter(s, c)), OpenPool(o, c.pool))
  {
    var p := PoolAfter(s, c);
    NewPoolBalanced(s, o, p, GlobalLine(s.pools[p.id := p]));
    assert OpenPool(o, p) == OpenPool(o, c.pool);
  }

  lemma PoolCreationBalanced(s: State, o: Opening, c: PoolCall)
    requires Balanced(s, o) && c.NewPoolCall?
    requires PerformOnPool(s, c).1 == OK ==> c.pool.reserved + c.pool.committed <= U64_MAX
    ensures Balanced(PerformOnPool(s, c).0, if PerformOnPool(s, c).1 == OK then OpenPool(o, c.pool) else o)
  {
    PoolCallShape(s, c);
    if PerformOnPool(s, c).1 == OK { CreatedPoolBalanced(s, o, c); }
  }

  lemma PoolStepBalanced(s: State, o: Opening, c: PoolCall)
    requires Balanced(s, o) && AdmissibleOnPool(s, c)
    ensures Balanced(PerformOnPool(s, c).0, NextOpening(s, o, OnPool(c)))
  {
    if c.NewPoolCall? { PoolCreationBalanced(s, o, c); } else { PoolCallBalanced(s, o, c); }
  }

  lemma RegionStepBalanced(s: State, o: Opening, c: RegionCall)
    requires Balanced(s, o) && AdmissibleOnRegion(s, c)
    ensures Balanced(PerformOnRegion(s, c).0, NextOpening(s, o, OnRegion(c)))
  {
    if c.NewRegionCall? {
      RegionCallShape(s, c);
      if PerformOnRegion(s, c).1 == OK { NewRegionBalanced(s, o, c.region); }
    } else {
      RegionCallBalanced(s, o, c);
    }
  }

  lemma ReserveBalanced(s: State, o: Opening, req: Request, ctx: Authority)
    requires Balanced(s, o) && FreshIds(s) && GrantAdds(s, req, ctx)
    ensures Balanced(Reserve(s, req, ctx).0, o)
  {
    var c := ReserveShape(s, req, ctx);
    if Reserve(s, req, ctx).1.ok { BookBalanced(s, o, c, req, ctx); }
  }

  /** A reserve keeps the books balanced exactly when the pool it would be granted from can count the bytes. */
  lemma ReserveBalancedIff(s: State, o: Opening, req: Request, ctx: Authority)
    requires Balanced(s, o) && FreshIds(s)
    ensures Balanced(Reserve(s, req, ctx).0, o) <==> GrantAdds(s, req, ctx)
  {
    if GrantAdds(s, req, ctx) {
      ReserveBalanced(s, o, req, ctx);
    } else {
      var c :| Chosen(s, req, c) && req.bytes <= PoolFree(c.poolRecord) && !SumFits(c.poolRecord, req.bytes);
      ChosenIsGranted(s, req, ctx, c);
      BookBalancedIff(s, o, c, req, ctx);
    }
  }

  /** A chosen candidate whose pool has the bytes is granted. */
  lemma ChosenIsGranted(s: State, req: Request, ctx: Authority, c: Candidate)
    requires Filed(s) && Chosen(s, req, c) && req.bytes <= PoolFree(c.poolRecord)
    requires ctx.epoch == s.epoch && req.bytes > 0
    ensures Bookable(s, c, req) && Reserve(s, req, ctx) == Book(s, c, req, ctx) && c.poolRecord == s.pools[c.pool]
  {
    SelectionSound(s.Snapshot(), req);
    DrawnFacts(s, c);
  }

  lemma RegionBound(s: State, o: Opening, r: Str)
    requires RegionsBalanced(s, o) && r in s.regions
    ensures s.regions[r].reserved + s.regions[r].committed <= U64_MAX
  {
    assert RegionBalanced(s, o, r);
  }

  lemma PoolBounds(s: State, o: Opening)
    requires PoolsBalanced(s, o)
    ensures forall p | p in s.pools :: s.pools[p].reserved + s.pools[p].committed <= U64_MAX
  {
    forall p | p in s.pools ensures s.pools[p].reserved + s.pools[p].committed <= U64_MAX {
      assert PoolBalanced(s, o, p);
    }
  }

  lemma ReservationStep(s: State, o: Opening, c: ReservationCall)
    requires Balanced(s, o) && AdmissibleOnReservation(s, c)
    ensures Balanced(PerformOnReservation(s, c).0, o)
  {
    match c
    case ReserveCall(req, ctx) => ReserveBalanced(s, o, req, ctx);
    case CommitCall(id, ctx) => CommitBalanced(s, o, id, ctx);
    case ReleaseCall(id, ctx) => ReleaseBalanced(s, o, id, ctx);
  }

  /** Setting the epoch, the policy or the evidence generation touches no record. */
  lemma SettingStep(s: State, o: Opening, c: SettingCall)
    requires Balanced(s, o)
    ensures Balanced(ApplySetting(s, c), o)
  {
    SameBooksBalanced(s, ApplySetting(s, c), o);
  }

  /** One call keeps the books balanced; a reserve needs no more than that its grant can be counted. */
  lemma Step(s: State, o: Opening, op: Op)
    requires Balanced(s, o) && Admissible(s, op)
    ensures Balanced(Apply(s, op), NextOpening(s, o, op))
  {
    match op
    case Setting(c) => SettingStep(s, o, c);
    case OnDevice(c) => DeviceCallBalanced(s, o, c);
    case OnRegion(c) => RegionStepBalanced(s, o, c);
    case OnPool(c) => PoolStepBalanced(s, o, c);
    case OnReservation(c) => ReservationStep(s, o, c);
    case Restore(ps) => RestoreBalanced(s, o, ps);
  }

  // ---- the cached line ----

  lemma DrainKeepsLine(pools: map<Str, Pool>, key: Str, p: Pool)
    requires key in pools && p == pools[key].(state := PoolDraining) && !pools[key].state.PoolRetired?
    ensures GlobalLine(pools[key := p]) == GlobalLine(pools)
  {
    assert pools[key := p].Keys == pools.Keys;
    Order.SortedKeysCover(pools.Keys);
    DrainKeepsLineAlong(pools, key, p, Order.SortedKeys(pools.Keys));
  }

  lemma {:induction false} DrainKeepsLineAlong(pools: map<Str, Pool>, key: Str, p: Pool, keys: seq<Str>)
    requires key in pools && p == pools[key].(state := PoolDraining) && !pools[key].state.PoolRetired?
    requires forall k | k in keys :: k in pools
    ensures LineAlong(pools[key := p], keys) == LineAlong(pools, keys)
  {
    if keys != [] { DrainKeepsLineAlong(pools, key, p, keys[..|keys| - 1]); }
  }

  lemma PoolCallKeepsCache(s: State, c: PoolCall)
    requires CacheFresh(s)
    ensures CacheFresh(PerformOnPool(s, c).0)
  {
    PoolCallShape(s, c);
    if PerformOnPool(s, c).1 == OK && !c.NewPoolCall? {
      PoolAfterKeeps(s, c);
      if c.DrainPoolCall? { DrainKeepsLine(s.pools, c.id, PoolAfter(s, c)); }
    }
  }

  lemma ReserveKeepsCache(s: State, req: Request, ctx: Authority)
    requires CacheFresh(s) && Filed(s)
    ensures CacheFresh(Reserve(s, req, ctx).0)
  {
    var c := ReserveShape(s, req, ctx);
    if Reserve(s, req, ctx).1.ok { BookShape(s, c, req, ctx); }
  }

  lemma CommitKeepsCache(s: State, id: Str, ctx: Authority)
    requires CacheFresh(s)
    ensures CacheFresh(Commit(s, id, ctx).0)
  {
    CommitShape(s, id, ctx);
  }

  /** A release that runs into the conflict exit after it has already taken committed bytes. */
  ghost predicate Conflicts(s: State, op: Op) {
    op.OnReservation? && op.reservation.ReleaseCall? && TakesAndFails(s, op.reservation.id, op.reservation.ctx)
  }

  ghost predicate TakesAndFails(s: State, id: Str, ctx: Authority) {
    && Releasable(s, id, ctx) && Shortfall(s, s.reservations[id])
    && s.pools[s.reservations[id].pool].committed > 0
  }

  /** A shortfall takes whatever is committed and leaves the reserved bytes alone. */
  lemma ShortDraw(committed: u64, reserved: u64, bytes: u64)
    requires Draw(committed, reserved, bytes).remaining != 0
    ensures Draw(committed, reserved, bytes) == Drawdown(0, reserved, bytes - committed)
  {}

  /** A refused release changes the state exactly when it has taken committed bytes. */
  lemma RefusedRelease(s: State, id: Str, ctx: Authority)
    requires !Release(s, id, ctx).1.ok
    ensures Release(s, id, ctx).0 != s <==> TakesAndFails(s, id, ctx)
  {
    ReleaseShape(s, id, ctx);
    if Releasable(s, id, ctx) {
      var res := s.reservations[id];
      var p := s.pools[res.pool];
      ShortDraw(p.committed, p.reserved, res.bytes);
      assert DebitPool(p, res.bytes) == p.(committed := 0);
      assert Release(s, id, ctx).0 == s.(pools := s.pools[res.pool := p.(committed := 0)]);
      if p.committed > 0 { assert Release(s, id, ctx).0.pools[res.pool] != p; }
    }
  }

  lemma ReleaseKeepsCache(s: State, id: Str, ctx: Authority)
    requires CacheFresh(s) && !TakesAndFails(s, id, ctx)
    ensures CacheFresh(Release(s, id, ctx).0)
  {
    if !Release(s, id, ctx).1.ok { RefusedRelease(s, id, ctx); }
  }

  lemma ReservationCallKeepsCache(s: State, c: ReservationCall)
    requires CacheFresh(s) && Filed(s) && !Conflicts(s, OnReservation(c))
    ensures CacheFresh(PerformOnReservation(s, c).0)
  {
    match c
    case ReserveCall(req, ctx) => ReserveKeepsCache(s, req, ctx);
    case CommitCall(id, ctx) => CommitKeepsCache(s, id, ctx);
    case ReleaseCall(id, ctx) => ReleaseKeepsCache(s, id, ctx);
  }

  lemma SettingKeepsCache(s: State, c: SettingCall)
    requires CacheFresh(s)
    ensures CacheFresh(ApplySetting(s, c))
  {}

  lemma DeviceCallKeepsCache(s: State, c: DeviceCall)
    requires CacheFresh(s)
    ensures CacheFresh(PerformOnDevice(s, c).0)
  {
    DeviceCallShape(s, c);
  }

  lemma RegionCallKeepsCache(s: State, c: RegionCall)
    requires CacheFresh(s)
    ensures CacheFresh(PerformOnRegion(s, c).0)
  {
    RegionCallShape(s, c);
  }

  lemma RestoreFreshensCache(s: State, ps: Persisted)
    ensures CacheFresh(Import(s, ps))
  {}

  /** After every step that does not conflict, the cached line is what a recomputation would give. */
  lemma CacheStep(s: State, op: Op)
    requires CacheFresh(s) && Filed(s) && !Conflicts(s, op)
    ensures CacheFresh(Apply(s, op))
  {
    match op
    case Setting(c) => SettingKeepsCache(s, c);
    case OnDevice(c) => DeviceCallKeepsCache(s, c);
    case OnRegion(c) => RegionCallKeepsCache(s, c);
    case OnPool(c) => PoolCallKeepsCache(s, c);
    case OnReservation(c) => ReservationCallKeepsCache(s, c);
    case Restore(ps) => RestoreFreshensCache(s, ps);
  }

  /** Imports file their records by id, and no release conflicts after taking bytes. */
  ghost predicate PeacefulRun(s: State, ops: seq<Op>)
    decreases |ops|
  {
    ops != [] ==> WellFiled(ops[0]) && !Conflicts(s, ops[0]) && PeacefulRun(Apply(s, ops[0]), ops[1..])
  }

  lemma {:induction false} CacheRun(s: State, ops: seq<Op>)
    requires CacheFresh(s) && Filed(s) && PeacefulRun(s, ops)
    ensures CacheFresh(Run(s, ops))
    decreases |ops|
  {
    if ops != [] {
      CacheStep(s, ops[0]);
      StepFiled(s, ops[0]);
      CacheRun(Apply(s, ops[0]), ops[1..]);
    }
  }

  // ---- whole runs ----

  /** Every call of the run is admissible where it is made. */
  ghost predicate AdmissibleRun(s: State, ops: seq<Op>)
    decreases |ops|
  {
    ops != [] ==> Admissible(s, ops[0]) && AdmissibleRun(Apply(s, ops[0]), ops[1..])
  }

  lemma {:induction false} RunBalanced(s: State, o: Opening, ops: seq<Op>)
    requires Balanced(s, o) && CacheFresh(s) && AdmissibleRun(s, ops)
    ensures Balanced(Run(s, ops), OpeningAfter(s, o, ops)) && CacheFresh(Run(s, ops))
    decreases |ops|
  {
    if ops != [] {
      Step(s, o, ops[0]);
      BalancedNeverConflicts(s, o, ops[0]);
      CacheStep(s, ops[0]);
      RunBalanced(Apply(s, ops[0]), NextOpening(s, o, ops[0]), ops[1..]);
    }
  }

  // ---- the exact condition ----

  ghost predicate SensibleRun(s: State, ops: seq<Op>)
    decreases |ops|
  {
    ops != [] ==> Sensible(s, ops[0]) && SensibleRun(Apply(s, ops[0]), ops[1..])
  }

  ghost predicate BalancedThroughout(s: State, o: Opening, ops: seq<Op>)
    decreases |ops|
  {
    Balanced(s, o) && (ops != [] ==> BalancedThroughout(Apply(s, ops[0]), NextOpening(s, o, ops[0]), ops[1..]))
  }

  lemma StepIff(s: State, o: Opening, op: Op)
    requires Balanced(s, o) && Sensible(s, op)
    ensures Balanced(Apply(s, op), NextOpening(s, o, op)) <==> Admissible(s, op)
  {
    if Admissible(s, op) {
      Step(s, o, op);
    } else {
      ReserveBalancedIff(s, o, op.reservation.req, op.reservation.ctx);
    }
  }

  /** Over any run, the books balance all the way exactly when every grant could be counted by its pool. */
  lemma {:induction false} RunBalancedIff(s: State, o: Opening, ops: seq<Op>)
    requires Balanced(s, o) && SensibleRun(s, ops)
    ensures BalancedThroughout(s, o, ops) <==> AdmissibleRun(s, ops)
    decreases |ops|
  {
    if ops != [] {
      StepIff(s, o, ops[0]);
      if Admissible(s, ops[0]) { RunBalancedIff(Apply(s, ops[0]), NextOpening(s, o, ops[0]), ops[1..]); }
    }
  }

  lemma InitialFresh(epoch: u64, policy: u64)
    ensures CacheFresh(Initial(epoch, policy)) && Filed(Initial(epoch, policy))
  {
    assert Order.SortedKeys(Initial(epoch, policy).pools.Keys) == [];
  }

  lemma InitialBalanced(epoch: u64, policy: u64)
    ensures Balanced(Initial(epoch, policy), NO_OPENING) && CacheFresh(Initial(epoch, policy))
  {
    InitialFresh(epoch, policy);
  }

  lemma FreshFromStart(epoch: u64, policy: u64, ops: seq<Op>)
    requires PeacefulRun(Initial(epoch, policy), ops)
    ensures CacheFresh(Run(Initial(epoch, policy), ops))
  {
    InitialFresh(epoch, policy);
    CacheRun(Initial(epoch, policy), ops);
  }

  /** The books balance and the cache is fresh after every admissible run of a new engine. */
  lemma RunFromStart(epoch: u64, policy: u64, ops: seq<Op>)
    requires AdmissibleRun(Initial(epoch, policy), ops)
    ensures var s := Run(Initial(epoch, policy), ops);
      Balanced(s, OpeningAfter(Initial(epoch, policy), NO_OPENING, ops)) && CacheFresh(s)
  {
    InitialBalanced(epoch, policy);
    RunBalanced(Initial(epoch, policy), NO_OPENING, ops);
  }

  // ---- what balanced books mean ----

  /** A reservation that is current commits: the overcommit guard is never what refuses it. */
  lemma CommitNeverOvercommits(s: State, o: Opening, id: Str, ctx: Authority)
    requires Balanced(s, o)
    ensures Commit(s, id, ctx).1.ok <==> Committable(s, id, ctx)
    ensures Commit(s, id, ctx).1.reason != CAPACITY_OVERCOMMIT
  {
    if Committable(s, id, ctx) {
      BalancedHere(s, o, id);
      ReservedCovered(s, o, id);
    }
    CoveredCommits(s, id, ctx);
  }

  lemma CoveredCommits(s: State, id: Str, ctx: Authority)
    requires Committable(s, id, ctx) ==> s.reservations[id].bytes <= s.pools[s.reservations[id].pool].reserved
    ensures Commit(s, id, ctx).1.ok <==> Committable(s, id, ctx)
    ensures Commit(s, id, ctx).1.reason != CAPACITY_OVERCOMMIT
  {
    CommitShape(s, id, ctx);
  }

  /** Every live reservation can be released under the current epoch, whatever its generations. */
  lemma LiveAlwaysReleasable(s: State, o: Opening, id: Str, ctx: Authority)
    requires Balanced(s, o)
    ensures Release(s, id, ctx).1.ok <==> id in s.reservations && Live(s.reservations[id]) && ctx.epoch == s.epoch
    ensures Release(s, id, ctx).1.reason != RESERVATION_CONFLICT
    ensures Release(s, id, ctx).1.ok ==>
      var res, t := s.reservations[id], Release(s, id, ctx).0;
      && t.pools[res.pool].reserved + t.pools[res.pool].committed ==
           s.pools[res.pool].reserved + s.pools[res.pool].committed - res.bytes
      && t.regions[res.region].reserved + t.regions[res.region].committed ==
           s.regions[res.region].reserved + s.regions[res.region].committed - res.bytes
  {
    ReleaseShape(s, id, ctx);
    if Releasable(s, id, ctx) {
      var res := s.reservations[id];
      BalancedHere(s, o, id);
      ReleasePosts(s, o, id, ctx);
      LiveCovered(s, o, id);
      DrawCovered(s.pools[res.pool].committed, s.pools[res.pool].reserved, res.bytes);
      DrawCovered(s.regions[res.region].committed, s.regions[res.region].reserved, res.bytes);
    }
  }

  lemma BalancedNeverConflicts(s: State, o: Opening, op: Op)
    requires Balanced(s, o)
    ensures !Conflicts(s, op)
  {
    if Conflicts(s, op) {
      LiveAlwaysReleasable(s, o, op.reservation.id, op.reservation.ctx);
      ReleaseShape(s, op.reservation.id, op.reservation.ctx);
    }
  }

  /** An admissible run from balanced books never conflicts. */
  lemma {:induction false} AdmissibleIsPeaceful(s: State, o: Opening, ops: seq<Op>)
    requires Balanced(s, o) && AdmissibleRun(s, ops)
    ensures PeacefulRun(s, ops)
    decreases |ops|
  {
    if ops != [] {
      BalancedNeverConflicts(s, o, ops[0]);
      Step(s, o, ops[0]);
      AdmissibleIsPeaceful(Apply(s, ops[0]), NextOpening(s, o, ops[0]), ops[1..]);
    }
  }

  lemma RefusedReservationCall(s: State, c: ReservationCall)
    requires !PerformOnReservation(s, c).1.ok
    ensures PerformOnReservation(s, c).0 != s <==> Conflicts(s, OnReservation(c))
  {
    match c
    case ReserveCall(req, ctx) => RefusedReserve(s, req, ctx);
    case CommitCall(id, ctx) => CommitShape(s, id, ctx);
    case ReleaseCall(id, ctx) => RefusedRelease(s, id, ctx);
  }

  lemma RefusedReserve(s: State, req: Request, ctx: Authority)
    requires !Reserve(s, req, ctx).1.ok
    ensures Reserve(s, req, ctx).0 == s
  {}

  /** A call that reports failure changes the state exactly when it is a release that conflicts after taking bytes. */
  lemma FailureChangesIff(s: State, op: Op)
    requires !Perform(s, op).1
    ensures Apply(s, op) != s <==> Conflicts(s, op)
  {
    match op
    case Setting(c) =>
    case OnDevice(c) => DeviceCallShape(s, c);
    case OnRegion(c) => RegionCallShape(s, c);
    case OnPool(c) => PoolCallShape(s, c);
    case OnReservation(c) => RefusedReservationCall(s, c);
    case Restore(ps) =>
  }

  /** While the books balance, a call that reports failure changes nothing at all. */
  lemma FailureChangesNothing(s: State, o: Opening, op: Op)
    requires Balanced(s, o) && !Perform(s, op).1
    ensures Apply(s, op) == s
  {
    FailureChangesIff(s, op);
    BalancedNeverConflicts(s, o, op);
  }

  // ---- runs from zero counters ----

  /** Pools and regions start empty and nothing is imported. */
  ghost predicate StartsEmpty(op: Op) {
    match op
    case OnPool(c) => c.NewPoolCall? ==> c.pool.reserved == c.pool.committed == 0
    case OnRegion(c) => c.NewRegionCall? ==> c.region.reserved == c.region.committed == 0
    case Restore(_) => false
    case _ => true
  }

  /** Regions start empty and none is imported. */
  ghost predicate RegionsStartEmpty(op: Op) {
    match op
    case OnRegion(c) => c.NewRegionCall? ==> c.region.reserved == c.region.committed == 0
    case Restore(_) => false
    case _ => true
  }

  ghost predicate ZeroRegions(o: Opening) {
    forall r | r in o.regions :: o.regions[r] == Offset(0, 0)
  }

  ghost predicate ZeroOpening(o: Opening) {
    ZeroRegions(o) && forall p | p in o.pools :: o.pools[p] == Offset(0, 0)
  }

  lemma {:induction false} RegionsStayZero(s: State, o: Opening, ops: seq<Op>)
    requires ZeroRegions(o) && forall i | 0 <= i < |ops| :: RegionsStartEmpty(ops[i])
    ensures ZeroRegions(OpeningAfter(s, o, ops))
    decreases |ops|
  {
    if ops != [] {
      assert RegionsStartEmpty(ops[0]);
      RegionsStayZero(Apply(s, ops[0]), NextOpening(s, o, ops[0]), ops[1..]);
    }
  }

  lemma {:induction false} OpeningStaysZero(s: State, o: Opening, ops: seq<Op>)
    requires ZeroOpening(o) && forall i | 0 <= i < |ops| :: StartsEmpty(ops[i])
    ensures ZeroOpening(OpeningAfter(s, o, ops))
    decreases |ops|
  {
    if ops != [] {
      assert StartsEmpty(ops[0]);
      ZeroStep(s, o, ops[0]);
      OpeningStaysZero(Apply(s, ops[0]), NextOpening(s, o, ops[0]), ops[1..]);
    }
  }

  lemma ZeroStep(s: State, o: Opening, op: Op)
    requires ZeroOpening(o) && StartsEmpty(op)
    ensures ZeroOpening(NextOpening(s, o, op))
  {}

  /** Committed bytes of reservations, grouped by the regions of one pool. */
  ghost function CommittedByRegion(rs: map<Str, Reservation>, regions: map<Str, Region>, p: Str): map<Str, nat> {
    map r | r in regions :: if regions[r].pool == p then Bytes(rs, CommittedOn(r)) else 0
  }

  lemma {:induction false} GroupedAtMost(rs: map<Str, Reservation>, regions: map<Str, Region>, p: Str)
    requires forall k | k in rs :: rs[k].region in regions && regions[rs[k].region].pool == rs[k].pool
    ensures Sum(CommittedByRegion(rs, regions, p)) <= Bytes(rs, CommittedIn(p))
    decreases |rs|
  {
    if rs == map[] {
      forall r | r in regions ensures Bytes(rs, CommittedOn(r)) == 0 { NoneAtAll(CommittedOn(r)); }
      SumZero(CommittedByRegion(rs, regions, p));
    } else {
      var k :| k in rs;
      var rest, res := rs - {k}, rs[k];
      GroupedAtMost(rest, regions, p);
      assert rs == rest[k := res];
      BytesUpdate(rest, k, res, CommittedIn(p));
      GroupStep(rest, k, res, regions, p);
    }
  }

  lemma GroupAt(rest: map<Str, Reservation>, k: Str, res: Reservation, regions: map<Str, Region>, p: Str, r: Str)
    requires k !in rest && res.region in regions && regions[res.region].pool == res.pool && r in regions
    ensures CommittedByRegion(rest[k := res], regions, p)[r] ==
            CommittedByRegion(rest, regions, p)[r] + if r == res.region then Weight(CommittedIn(p), res) else 0
  {
    BytesUpdate(rest, k, res, CommittedOn(r));
  }

  lemma GroupStep(rest: map<Str, Reservation>, k: Str, res: Reservation, regions: map<Str, Region>, p: Str)
    requires k !in rest && res.region in regions && regions[res.region].pool == res.pool
    ensures Sum(CommittedByRegion(rest[k := res], regions, p)) ==
            Sum(CommittedByRegion(rest, regions, p)) + Weight(CommittedIn(p), res)
  {
    var before, after := CommittedByRegion(rest, regions, p), CommittedByRegion(rest[k := res], regions, p);
    var more := Weight(CommittedIn(p), res);
    forall r | r in regions ensures after[r] == before[r] + if r == res.region then more else 0 {
      GroupAt(rest, k, res, regions, p, r);
    }
    MapBump(before, after, res.region, more);
  }

  lemma MapBump(before: map<Str, nat>, after: map<Str, nat>, key: Str, more: nat)
    requires before.Keys == after.Keys && key in before
    requires forall r | r in before :: after[r] == before[r] + if r == key then more else 0
    ensures Sum(after) == Sum(before) + more
  {
    assert after == before[key := before[key] + more];
    SumUpdate(before, key, before[key] + more);
  }

  lemma AcrossAtMost(s: State, o: Opening, p: Str)
    requires Linked(s) && RegionsBalanced(s, o) && ZeroRegions(o)
    ensures CommittedAcross(s.regions, p) <= Bytes(s.reservations, CommittedIn(p))
  {
    var grouped := CommittedByRegion(s.reservations, s.regions, p);
    forall r | r in s.regions ensures RegionShares(s.regions, p)[r] <= grouped[r] {
      assert RegionBalanced(s, o, r);
    }
    SumPointwise(RegionShares(s.regions, p), grouped);
    GroupedAtMost(s.reservations, s.regions, p);
  }

  /** reserved + committed is what is live, and committed lags behind from the reservations to the pool. */
  ghost predicate PoolExact(s: State, p: Str)
    requires p in s.pools
  {
    && s.pools[p].reserved + s.pools[p].committed == Bytes(s.reservations, LiveIn(p))
    && s.pools[p].committed <= CommittedAcross(s.regions, p) <= Bytes(s.reservations, CommittedIn(p))
  }

  ghost predicate RegionExact(s: State, r: Str)
    requires r in s.regions
  {
    && s.regions[r].reserved + s.regions[r].committed == Bytes(s.reservations, LiveOn(r))
    && s.regions[r].committed <= Bytes(s.reservations, CommittedOn(r))
  }

  /** Regions hold exactly the bytes of their live reservations, and no more committed than is COMMITTED. */
  ghost predicate RegionsExact(s: State) {
    && (forall r | r in s.regions :: RegionExact(s, r))
    && (forall p | p in s.pools :: CommittedAcross(s.regions, p) <= Bytes(s.reservations, CommittedIn(p)))
  }

  ghost predicate BooksExact(s: State) {
    RegionsExact(s) && forall p | p in s.pools :: PoolExact(s, p)
  }

  /** In every sensible run from empty regions, whatever happens to the pools' counters, the regions are exact. */
  lemma RegionsFromZero(epoch: u64, policy: u64, ops: seq<Op>)
    requires RegionSensibleRun(Initial(epoch, policy), ops) && forall i | 0 <= i < |ops| :: RegionsStartEmpty(ops[i])
    ensures RegionsExact(Run(Initial(epoch, policy), ops))
  {
    var s, o := Run(Initial(epoch, policy), ops), OpeningAfter(Initial(epoch, policy), NO_OPENING, ops);
    InitialBalanced(epoch, policy);
    RegionRun(Initial(epoch, policy), NO_OPENING, ops);
    RegionsStayZero(Initial(epoch, policy), NO_OPENING, ops);
    ZeroRegionBooks(s, o);
  }

  lemma ZeroRegionBooks(s: State, o: Opening)
    requires RegionsKept(s, o) && ZeroRegions(o)
    ensures RegionsExact(s)
  {
    forall r | r in s.regions ensures RegionExact(s, r) {
      assert RegionBalanced(s, o, r);
    }
    forall p | p in s.pools ensures CommittedAcross(s.regions, p) <= Bytes(s.reservations, CommittedIn(p)) {
      AcrossAtMost(s, o, p);
    }
  }

  lemma ZeroPoolBooks(s: State, o: Opening)
    requires PoolsBalanced(s, o) && RegionsExact(s) && ZeroOpening(o)
    ensures BooksExact(s)
  {
    forall p | p in s.pools ensures PoolExact(s, p) {
      assert PoolBalanced(s, o, p);
    }
  }

  /**
   * From zero counters, in every sensible run the regions hold exactly the bytes of their live reservations; in every
   * admissible one the pools do too, and greedy release leaves pool.committed at or below its regions' committed, at or
   * below its COMMITTED bytes.
   */
  lemma AccountingFromZero(epoch: u64, policy: u64, ops: seq<Op>)
    requires RegionSensibleRun(Initial(epoch, policy), ops) && forall i | 0 <= i < |ops| :: StartsEmpty(ops[i])
    ensures RegionsExact(Run(Initial(epoch, policy), ops))
    ensures AdmissibleRun(Initial(epoch, policy), ops) ==> BooksExact(Run(Initial(epoch, policy), ops))
  {
    EmptyStarts(ops);
    RegionsFromZero(epoch, policy, ops);
    if AdmissibleRun(Initial(epoch, policy), ops) {
      RunFromStart(epoch, policy, ops);
      OpeningStaysZero(Initial(epoch, policy), NO_OPENING, ops);
      ZeroPoolBooks(Run(Initial(epoch, policy), ops), OpeningAfter(Initial(epoch, policy), NO_OPENING, ops));
    }
  }

  lemma EmptyStarts(ops: seq<Op>)
    requires forall i | 0 <= i < |ops| :: StartsEmpty(ops[i])
    ensures forall i | 0 <= i < |ops| :: RegionsStartEmpty(ops[i])
  {
    forall i | 0 <= i < |ops| ensures RegionsStartEmpty(ops[i]) {
      assert StartsEmpty(ops[i]);
    }
  }

  lemma {:induction false} AdmissibleIsSensible(s: State, ops: seq<Op>)
    requires AdmissibleRun(s, ops)
    ensures RegionSensibleRun(s, ops)
    decreases |ops|
  {
    if ops != [] { AdmissibleIsSensible(Apply(s, ops[0]), ops[1..]); }
  }
}
