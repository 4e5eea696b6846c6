/** What callers can rely on after any guarded run. */
module Guarantees {
  import opened Base
  import opened Records
  import opened Evaluation
  import opened Placement
  import opened Ledger
  import opened Spec
  import opened Shapes
  import opened Books
  import opened Capacity
  import opened RegionBooks
  import opened Runs
  import opened Regimes
  import opened Fencing

  // ---- capacity ----

  lemma FitMeans(p: Pool)
    requires PoolInRegime(NoRemovals, p)
    ensures p.totalGoverned == OnlineSum(p.members)
    ensures p.unavailable + p.reserved + p.committed + p.draining <= p.totalGoverned
  {}

  /** Without removals and with sums in 64 bits, no pool is ever over its total and the audit reports ok. */
  lemma WithinTotals(epoch: u64, policy: u64, ops: seq<Op>)
    requires GuardedRun(NoRemovals, Initial(epoch, policy), ops)
    ensures var pools := Run(Initial(epoch, policy), ops).pools;
      && (forall p | p in pools ::
            && pools[p].totalGoverned == OnlineSum(pools[p].members)
            && pools[p].unavailable + pools[p].reserved + pools[p].committed + pools[p].draining
               <= pools[p].totalGoverned)
      && (FieldSum(pools, TotalField) <= U64_MAX ==> AuditOf(pools).ok)
  {
    RunFromStartInRegime(NoRemovals, epoch, policy, ops);
    var pools := Run(Initial(epoch, policy), ops).pools;
    forall p | p in pools ensures pools[p].totalGoverned == OnlineSum(pools[p].members)
      && pools[p].unavailable + pools[p].reserved + pools[p].committed + pools[p].draining <= pools[p].totalGoverned
    {
      FitMeans(pools[p]);
    }
    if FieldSum(pools, TotalField) <= U64_MAX { AuditReportsOk(pools); }
  }

  /** While no global sum overflows, the cached line is the sum over all pools and what an audit recomputes. */
  lemma LedgerAgrees(epoch: u64, policy: u64, ops: seq<Op>)
    requires PeacefulRun(Initial(epoch, policy), ops) && GlobalSumsFit(Run(Initial(epoch, policy), ops).pools)
    ensures var s := Run(Initial(epoch, policy), ops);
      s.ledger == AuditOf(s.pools).line && IsSumLine(s.ledger, s.pools)
  {
    FreshFromStart(epoch, policy, ops);
    GlobalLineIsSum(Run(Initial(epoch, policy), ops).pools);
  }

  /** A grant fits in exact arithmetic: the used sum never wraps, and an over-used pool grants nothing. */
  lemma GrantsFit(g: Regime, s: State, o: Opening, req: Request, ctx: Authority)
    requires Balanced(s, o) && PoolsInRegime(g, s) && Reserve(s, req, ctx).1.ok
    ensures Reserve(s, req, ctx).1.reservation.Some?
    ensures var res := Reserve(s, req, ctx).1.reservation.value;
      && res.pool in s.pools && res.region in s.regions && res.bytes == req.bytes > 0
      && var p, r := s.pools[res.pool], s.regions[res.region];
        && p.unavailable + p.reserved + p.committed + p.draining + req.bytes <= p.totalGoverned
        && r.reserved + r.committed + req.bytes <= r.capacity
  {
    var c := ReserveShape(s, req, ctx);
    BookShape(s, c, req, ctx);
    FittingPoolNeverWraps(g, s.pools[c.pool]);
    RegionBound(s, o, c.region);
    GrantFits(s, c, req);
  }

  // ---- when reserve succeeds ----

  /**
   * Reserve succeeds exactly when selection does and the pool of the one chosen candidate has the bytes;
   * selection itself looks at region bytes only, so room in another candidate's pool does not help.
   */
  lemma ReserveSucceedsIff(s: State, req: Request, ctx: Authority)
    requires Filed(s)
    ensures Reserve(s, req, ctx).1.ok <==>
      && ctx.epoch == s.epoch && req.bytes > 0 && Select(s.Snapshot(), req).ok
      && req.bytes <= PoolFree(Select(s.Snapshot(), req).chosen.value.poolRecord)
    ensures ctx.epoch == s.epoch && req.bytes > 0 && Select(s.Snapshot(), req).ok && !Reserve(s, req, ctx).1.ok ==>
      Reserve(s, req, ctx).1.reason == CAPACITY_OVERCOMMIT
  {
    if Select(s.Snapshot(), req).ok {
      ChosenMatches(s, req);
      BookSucceedsIff(s, Select(s.Snapshot(), req).chosen.value, req, ctx);
      ReserveBooks(s, req, ctx, Select(s.Snapshot(), req).chosen.value);
    }
  }

  /** Reserve hands the chosen candidate on to be booked, and nothing else. */
  lemma ReserveBooks(s: State, req: Request, ctx: Authority, c: Candidate)
    requires Chosen(s, req, c)
    ensures Reserve(s, req, ctx) ==
      if ctx.epoch != s.epoch then (s, Refused(RESERVATION_STALE))
      else if req.bytes == 0 then (s, Refused(INVALID_ARGUMENT))
      else Book(s, c, req, ctx)
  {}

  /** The candidate carries the current generations, and its region has the bytes. */
  predicate Matches(s: State, c: Candidate, req: Request) {
    && c.pool in s.pools && c.region in s.regions && c.device in s.devices
    && c.poolRecord == s.pools[c.pool] && c.poolGeneration == s.pools[c.pool].generation
    && c.regionGeneration == s.regions[c.region].generation
    && c.deviceGeneration == s.devices[c.device].generation
    && req.bytes <= RegionFree(s.regions[c.region])
  }

  lemma ChosenMatches(s: State, req: Request)
    requires Filed(s) && Select(s.Snapshot(), req).ok
    ensures Matches(s, Select(s.Snapshot(), req).chosen.value, req)
  {
    SelectionSound(s.Snapshot(), req);
    DrawnFacts(s, Select(s.Snapshot(), req).chosen.value);
  }

  lemma BookSucceedsIff(s: State, c: Candidate, req: Request, ctx: Authority)
    requires Matches(s, c, req)
    ensures Book(s, c, req, ctx).1.ok <==> req.bytes <= PoolFree(c.poolRecord)
    ensures !Book(s, c, req, ctx).1.ok ==> Book(s, c, req, ctx).1.reason == CAPACITY_OVERCOMMIT
  {}

  // ---- a reservation's whole life ----

  /** Reserved and committed bytes of a pool and a region. */
  function InUse(s: State, p: Str, r: Str): (nat, nat)
    requires p in s.pools && r in s.regions
  {
    (s.pools[p].reserved + s.pools[p].committed, s.regions[r].reserved + s.regions[r].committed)
  }

  /** t holds the reservation as it was granted in s, ready to be committed, with its bytes in use. */
  ghost predicate Holds(s: State, t: State, res: Reservation, ctx: Authority) {
    && Committable(t, res.id, ctx) && t.reservations[res.id] == res
    && res.pool in s.pools && res.region in s.regions
    && InUse(t, res.pool, res.region).0 == InUse(s, res.pool, res.region).0 + res.bytes
    && InUse(t, res.pool, res.region).1 == InUse(s, res.pool, res.region).1 + res.bytes
  }

  lemma BookedHolds(s: State, c: Candidate, req: Request, ctx: Authority)
    requires Bookable(s, c, req) && SumFits(s.pools[c.pool], req.bytes) && NewId(s) !in s.reservations
    requires s.regions[c.region].reserved + s.regions[c.region].committed <= U64_MAX && ctx.epoch == s.epoch
    ensures Holds(s, Book(s, c, req, ctx).0, Captured(s, c, req, ctx, NewId(s)), ctx)
  {
    BookShape(s, c, req, ctx);
    RegionGrantFits(s, c, req);
  }

  lemma ReservedHolds(s: State, o: Opening, req: Request, ctx: Authority)
    requires Balanced(s, o) && FreshIds(s) && GrantAdds(s, req, ctx) && Reserve(s, req, ctx).1.ok
    ensures Reserve(s, req, ctx).1.reservation.Some?
    ensures Holds(s, Reserve(s, req, ctx).0, Reserve(s, req, ctx).1.reservation.value, ctx)
  {
    var c := ReserveShape(s, req, ctx);
    RegionBound(s, o, c.region);
    NewIdFresh(s);
    BookShape(s, c, req, ctx);
    BookedHolds(s, c, req, ctx);
  }

  /** t has the reservation committed where s had it reserved, with the same bytes in use. */
  ghost predicate NowCommitted(s: State, t: State, id: Str) {
    && id in s.reservations && id in t.reservations && t.epoch == s.epoch
    && t.reservations[id] == s.reservations[id].(state := Committed, commitEpoch := s.epoch)
    && var p, r := s.reservations[id].pool, s.reservations[id].region;
      && p in s.pools && r in s.regions && p in t.pools && r in t.regions
      && InUse(t, p, r) == InUse(s, p, r)
  }

  lemma CoveredSettles(s: State, id: Str, ctx: Authority)
    requires Committable(s, id, ctx)
    requires var res := s.reservations[id];
      && res.bytes <= s.pools[res.pool].reserved && res.bytes <= s.regions[res.region].reserved
      && s.pools[res.pool].reserved + s.pools[res.pool].committed <= U64_MAX
      && s.regions[res.region].reserved + s.regions[res.region].committed <= U64_MAX
    ensures Commit(s, id, ctx).1.ok && NowCommitted(s, Commit(s, id, ctx).0, id)
  {
    CommitShape(s, id, ctx);
  }

  lemma CommitSettles(s: State, o: Opening, id: Str, ctx: Authority)
    requires Balanced(s, o) && Committable(s, id, ctx)
    ensures Commit(s, id, ctx).1.ok && NowCommitted(s, Commit(s, id, ctx).0, id)
  {
    BalancedHere(s, o, id);
    ReservedCovered(s, o, id);
    CoveredSettles(s, id, ctx);
  }

  /** t has the reservation released, and its bytes back. */
  ghost predicate Ended(s: State, t: State, id: Str) {
    && id in s.reservations && id in t.reservations && t.reservations[id] == s.reservations[id].(state := Released)
    && var res := s.reservations[id];
      && res.pool in s.pools && res.region in s.regions && res.pool in t.pools && res.region in t.regions
      && InUse(t, res.pool, res.region).0 == InUse(s, res.pool, res.region).0 - res.bytes
      && InUse(t, res.pool, res.region).1 == InUse(s, res.pool, res.region).1 - res.bytes
  }

  lemma ReleaseEnds(s: State, o: Opening, id: Str, ctx: Authority)
    requires Balanced(s, o) && id in s.reservations && Live(s.reservations[id]) && ctx.epoch == s.epoch
    ensures Release(s, id, ctx).1.ok && Ended(s, Release(s, id, ctx).0, id)
  {
    LiveAlwaysReleasable(s, o, id, ctx);
    BalancedHere(s, o, id);
    ReleaseShape(s, id, ctx);
  }

  /** w has the reservation released, and pool and region have in use what they had in s. */
  ghost predicate BackWhere(s: State, w: State, res: Reservation) {
    && res.id in w.reservations && w.reservations[res.id].state.Released?
    && res.pool in s.pools && res.region in s.regions && res.pool in w.pools && res.region in w.regions
    && InUse(w, res.pool, res.region) == InUse(s, res.pool, res.region)
  }

  lemma LifeEnds(s: State, t: State, u: State, w: State, res: Reservation, ctx: Authority)
    requires Holds(s, t, res, ctx) && NowCommitted(t, u, res.id) && Ended(u, w, res.id)
    ensures BackWhere(s, w, res)
  {}

  lemma CommitThenRelease(t: State, o: Opening, id: Str, ctx: Authority)
    requires Balanced(t, o) && Committable(t, id, ctx)
    ensures var u := Commit(t, id, ctx).0;
      && Commit(t, id, ctx).1.ok && NowCommitted(t, u, id)
      && Release(u, id, ctx).1.ok && Ended(u, Release(u, id, ctx).0, id)
  {
    CommitSettles(t, o, id, ctx);
    CommitBalanced(t, o, id, ctx);
    ReleaseEnds(Commit(t, id, ctx).0, o, id, ctx);
  }

  /** What was granted can be committed and then released, and pool and region are left with what they had in use. */
  lemma ReserveCommitRelease(s: State, o: Opening, req: Request, ctx: Authority)
    requires Balanced(s, o) && FreshIds(s) && GrantAdds(s, req, ctx) && Reserve(s, req, ctx).1.ok
    ensures Reserve(s, req, ctx).1.reservation.Some?
    ensures var t, res := Reserve(s, req, ctx).0, Reserve(s, req, ctx).1.reservation.value;
      var u := Commit(t, res.id, ctx).0;
      && Commit(t, res.id, ctx).1.ok && Release(u, res.id, ctx).1.ok
      && BackWhere(s, Release(u, res.id, ctx).0, res)
  {
    ReservedHolds(s, o, req, ctx);
    ReserveBalanced(s, o, req, ctx);
    var t, res := Reserve(s, req, ctx).0, Reserve(s, req, ctx).1.reservation.value;
    CommitThenRelease(t, o, res.id, ctx);
    var u := Commit(t, res.id, ctx).0;
    LifeEnds(s, t, u, Release(u, res.id, ctx).0, res, ctx);
  }

  // ---- bytes in use at export ----

  lemma OpeningKept(s: State, o: Opening, op: Op, p: Str)
    requires !op.Restore? && p in s.pools && p in o.pools
    ensures p in NextOpening(s, o, op).pools && NextOpening(s, o, op).pools[p] == o.pools[p]
  {
    if op.OnPool? { PoolCallShape(s, op.pool); }
  }

  lemma RegionOpeningKept(s: State, o: Opening, op: Op, r: Str)
    requires !op.Restore? && r in s.regions && r in o.regions
    ensures r in NextOpening(s, o, op).regions && NextOpening(s, o, op).regions[r] == o.regions[r]
  {
    if op.OnRegion? { RegionCallShape(s, op.region); }
  }

  lemma StepKeepsRecords(s: State, op: Op)
    requires Filed(s) && !op.Restore?
    ensures s.pools.Keys <= Apply(s, op).pools.Keys && s.regions.Keys <= Apply(s, op).regions.Keys
    ensures Filed(Apply(s, op))
  {
    StepLater(s, op);
    StepFiled(s, op);
  }

  lemma {:induction false} OpeningFixed(s: State, o: Opening, ops: seq<Op>, p: Str)
    requires Filed(s) && NoRestore(ops) && p in s.pools && p in o.pools
    ensures p in Run(s, ops).pools
    ensures p in OpeningAfter(s, o, ops).pools && OpeningAfter(s, o, ops).pools[p] == o.pools[p]
    decreases |ops|
  {
    if ops != [] {
      assert !ops[0].Restore?;
      OpeningKept(s, o, ops[0], p);
      StepKeepsRecords(s, ops[0]);
      OpeningFixed(Apply(s, ops[0]), NextOpening(s, o, ops[0]), ops[1..], p);
    }
  }

  lemma {:induction false} RegionOpeningFixed(s: State, o: Opening, ops: seq<Op>, r: Str)
    requires Filed(s) && NoRestore(ops) && r in s.regions && r in o.regions
    ensures r in Run(s, ops).regions
    ensures r in OpeningAfter(s, o, ops).regions && OpeningAfter(s, o, ops).regions[r] == o.regions[r]
    decreases |ops|
  {
    if ops != [] {
      assert !ops[0].Restore?;
      RegionOpeningKept(s, o, ops[0], r);
      StepKeepsRecords(s, ops[0]);
      RegionOpeningFixed(Apply(s, ops[0]), NextOpening(s, o, ops[0]), ops[1..], r);
    }
  }

  lemma PoolCounters(s: State, o: Opening, p: Str)
    requires PoolsBalanced(s, o) && p in s.pools
    ensures p in o.pools && s.pools[p].reserved + s.pools[p].committed ==
      o.pools[p].reserved + o.pools[p].committed + Bytes(s.reservations, LiveIn(p))
  {
    assert PoolBalanced(s, o, p);
  }

  lemma RegionCounters(s: State, o: Opening, r: Str)
    requires RegionsBalanced(s, o) && r in s.regions
    ensures r in o.regions && s.regions[r].reserved + s.regions[r].committed ==
      o.regions[r].reserved + o.regions[r].committed + Bytes(s.reservations, LiveOn(r))
  {
    assert RegionBalanced(s, o, r);
  }

  lemma PoolCountersStay(s: State, o: Opening, ops: seq<Op>, t: State, n: Opening)
    requires Filed(s) && o.pools.Keys == s.pools.Keys && NoRestore(ops)
    requires t == Run(s, ops) && n == OpeningAfter(s, o, ops) && PoolsBalanced(t, n)
    ensures forall p | p in s.pools ::
      p in t.pools && p in o.pools && t.pools[p].reserved + t.pools[p].committed ==
        o.pools[p].reserved + o.pools[p].committed + Bytes(t.reservations, LiveIn(p))
  {
    forall p | p in s.pools
      ensures p in t.pools && p in o.pools && t.pools[p].reserved + t.pools[p].committed ==
        o.pools[p].reserved + o.pools[p].committed + Bytes(t.reservations, LiveIn(p))
    {
      OpeningFixed(s, o, ops, p);
      PoolCounters(t, n, p);
    }
  }

  lemma RegionCountersStay(s: State, o: Opening, ops: seq<Op>, t: State, n: Opening)
    requires Filed(s) && o.regions.Keys == s.regions.Keys && NoRestore(ops)
    requires t == Run(s, ops) && n == OpeningAfter(s, o, ops) && RegionsBalanced(t, n)
    ensures forall r | r in s.regions ::
      r in t.regions && r in o.regions && t.regions[r].reserved + t.regions[r].committed ==
        o.regions[r].reserved + o.regions[r].committed + Bytes(t.reservations, LiveOn(r))
  {
    forall r | r in s.regions
      ensures r in t.regions && r in o.regions && t.regions[r].reserved + t.regions[r].committed ==
        o.regions[r].reserved + o.regions[r].committed + Bytes(t.reservations, LiveOn(r))
    {
      RegionOpeningFixed(s, o, ops, r);
      RegionCounters(t, n, r);
    }
  }

  /** The pools of t count what a snapshot held, on top of what is live in t. */
  ghost predicate PoolsCountOn(ps: Persisted, t: State) {
    forall p | p in ps.pools ::
      p in t.pools && t.pools[p].reserved + t.pools[p].committed ==
        ps.pools[p].reserved + ps.pools[p].committed + Bytes(t.reservations, LiveIn(p))
  }

  ghost predicate RegionsCountOn(ps: Persisted, t: State) {
    forall r | r in ps.regions ::
      r in t.regions && t.regions[r].reserved + t.regions[r].committed ==
        ps.regions[r].reserved + ps.regions[r].committed + Bytes(t.reservations, LiveOn(r))
  }

  lemma SnapshotOpens(s: State, o: Opening, ps: Persisted)
    ensures var n := NextOpening(s, o, Restore(ps));
      && (forall p | p in ps.pools :: p in n.pools && n.pools[p] == Offset(ps.pools[p].reserved, ps.pools[p].committed))
      && (forall r | r in ps.regions ::
            r in n.regions && n.regions[r] == Offset(ps.regions[r].reserved, ps.regions[r].committed))
      && Import(s, ps).pools.Keys == ps.pools.Keys && Import(s, ps).regions.Keys == ps.regions.Keys
  {}

  lemma ExportedRegionBytesStay(s: State, ps: Persisted, ops: seq<Op>)
    requires RestorableRegions(ps) && RegionSensibleRun(Import(s, ps), ops) && NoRestore(ops)
    ensures RegionsCountOn(ps, Run(Import(s, ps), ops))
  {
    var n := NextOpening(s, NO_OPENING, Restore(ps));
    RestoreKept(s, NO_OPENING, ps);
    SnapshotOpens(s, NO_OPENING, ps);
    RegionRun(Import(s, ps), n, ops);
    RegionCountersStay(Import(s, ps), n, ops, Run(Import(s, ps), ops), OpeningAfter(Import(s, ps), n, ops));
  }

  lemma ExportedPoolBytesStay(s: State, ps: Persisted, ops: seq<Op>)
    requires AdmissibleRestore(ps) && AdmissibleRun(Import(s, ps), ops) && NoRestore(ops)
    ensures PoolsCountOn(ps, Run(Import(s, ps), ops))
  {
    var n := NextOpening(s, NO_OPENING, Restore(ps));
    RestoreBalanced(s, NO_OPENING, ps);
    RestoreFreshensCache(s, ps);
    SnapshotOpens(s, NO_OPENING, ps);
    RunBalanced(Import(s, ps), n, ops);
    PoolCountersStay(Import(s, ps), n, ops, Run(Import(s, ps), ops), OpeningAfter(Import(s, ps), n, ops));
  }

  /**
   * Bytes in use at export stay counted in every later state: against the imported regions in every sensible run, and
   * against the imported pools in every admissible one.
   */
  lemma ExportedBytesStay(s: State, ps: Persisted, ops: seq<Op>)
    requires RestorableRegions(ps) && RegionSensibleRun(Import(s, ps), ops) && NoRestore(ops)
    ensures RegionsCountOn(ps, Run(Import(s, ps), ops))
    ensures RestorablePools(ps) && AdmissibleRun(Import(s, ps), ops) ==> PoolsCountOn(ps, Run(Import(s, ps), ops))
  {
    ExportedRegionBytesStay(s, ps, ops);
    if RestorablePools(ps) && AdmissibleRun(Import(s, ps), ops) { ExportedPoolBytesStay(s, ps, ops); }
  }

  // ---- one candidate decides ----

  /** The chosen candidate's pool alone decides: if it lacks the bytes, no other candidate is tried. */
  lemma ShortPoolRefuses(s: State, req: Request, ctx: Authority, c: Candidate)
    requires Filed(s) && Select(s.Snapshot(), req).chosen == Some(c) && PoolFree(c.poolRecord) < req.bytes
    ensures !Reserve(s, req, ctx).1.ok
  {
    ReserveSucceedsIff(s, req, ctx);
  }
}
