/** The books of a run: what pool and region counters mean in terms of the reservation records. */
module Books {
  import opened Base
  import opened Sums
  import opened Records
  import opened Evaluation
  import opened Ledger
  import opened Decimal
  import opened Spec
  import opened Shapes

  /** Which reservations a sum ranges over. */
  datatype Tally = LiveIn(pool: Str) | CommittedIn(pool: Str) | LiveOn(region: Str) | CommittedOn(region: Str)

  predicate Live(r: Reservation) {
    r.state.Reserved? || r.state.Committed?
  }

  function Weight(t: Tally, r: Reservation): nat {
    match t
    case LiveIn(p) => if r.pool == p && Live(r) then r.bytes else 0
    case CommittedIn(p) => if r.pool == p && r.state.Committed? then r.bytes else 0
    case LiveOn(x) => if r.region == x && Live(r) then r.bytes else 0
    case CommittedOn(x) => if r.region == x && r.state.Committed? then r.bytes else 0
  }

  ghost function Weights(rs: map<Str, Reservation>, t: Tally): map<Str, nat> {
    map k | k in rs :: Weight(t, rs[k])
  }

  ghost function Bytes(rs: map<Str, Reservation>, t: Tally): nat {
    Sum(Weights(rs, t))
  }

  function WeightAt(rs: map<Str, Reservation>, k: Str, t: Tally): nat {
    if k in rs then Weight(t, rs[k]) else 0
  }

  lemma BytesUpdate(rs: map<Str, Reservation>, k: Str, r: Reservation, t: Tally)
    ensures Bytes(rs[k := r], t) == Bytes(rs, t) - WeightAt(rs, k, t) + Weight(t, r)
  {
    assert Weights(rs[k := r], t) == Weights(rs, t)[k := Weight(t, r)];
    SumUpdate(Weights(rs, t), k, Weight(t, r));
  }

  lemma BytesAtLeast(rs: map<Str, Reservation>, k: Str, t: Tally)
    ensures WeightAt(rs, k, t) <= Bytes(rs, t)
  {
    SumAtMost(Weights(rs, t), k);
  }

  lemma NoBytes(rs: map<Str, Reservation>, t: Tally)
    requires forall k | k in rs :: Weight(t, rs[k]) == 0
    ensures Bytes(rs, t) == 0
  {
    SumZero(Weights(rs, t));
  }

  /** The reserved-but-uncommitted share of one record fits between the committed and the live sum. */
  lemma UncommittedShare(rs: map<Str, Reservation>, k: Str, live: Tally, committed: Tally)
    requires k in rs
    requires forall j | j in rs :: Weight(committed, rs[j]) <= Weight(live, rs[j])
    ensures Bytes(rs, committed) - Weight(committed, rs[k]) + Weight(live, rs[k]) <= Bytes(rs, live)
  {
    var v, w := Weights(rs, committed), Weights(rs, live);
    SumRemove(v, k);
    SumRemove(w, k);
    SumPointwise(v - {k}, w - {k});
  }

  // ---- committed bytes of the regions of one pool ----

  ghost function RegionShares(regions: map<Str, Region>, p: Str): map<Str, nat> {
    map r | r in regions :: if regions[r].pool == p then regions[r].committed else 0
  }

  ghost function CommittedAcross(regions: map<Str, Region>, p: Str): nat {
    Sum(RegionShares(regions, p))
  }

  function ShareAt(regions: map<Str, Region>, k: Str, p: Str): nat {
    if k in regions && regions[k].pool == p then regions[k].committed else 0
  }

  lemma AcrossUpdate(regions: map<Str, Region>, k: Str, r: Region, p: Str)
    ensures CommittedAcross(regions[k := r], p)
         == CommittedAcross(regions, p) - ShareAt(regions, k, p) + (if r.pool == p then r.committed else 0)
  {
    var share := if r.pool == p then r.committed else 0;
    assert RegionShares(regions[k := r], p) == RegionShares(regions, p)[k := share];
    SumUpdate(RegionShares(regions, p), k, share);
  }

  // ---- the invariant ----

  /** Counters a pool or region was created or imported with, before any reservation was made on it. */
  datatype Offset = Offset(reserved: nat, committed: nat)

  datatype Opening = Opening(pools: map<Str, Offset>, regions: map<Str, Offset>)

  ghost predicate Filed(s: State) {
    FiledById(s.devices, s.regions, s.pools) && forall k | k in s.reservations :: s.reservations[k].id == k
  }

  /** Every reservation points at registered records, and its region belongs to its pool. */
  ghost predicate Linked(s: State) {
    forall k | k in s.reservations ::
      var res := s.reservations[k];
      && res.pool in s.pools && res.region in s.regions && res.device in s.devices
      && s.regions[res.region].pool == res.pool
  }

  /** Every reservation id was issued from the sequence. */
  ghost predicate Numbered(s: State) {
    forall k | k in s.reservations :: Issued(k, s.sequence)
  }

  ghost predicate Issued(k: Str, n: u64) {
    exists i: u64 :: 1 <= i <= n && k == ReservationId(i)
  }

  ghost predicate PoolBalanced(s: State, o: Opening, p: Str)
    requires p in s.pools && p in o.pools
  {
    var pool, off := s.pools[p], o.pools[p];
    && pool.reserved + pool.committed == off.reserved + off.committed + Bytes(s.reservations, LiveIn(p))
    && pool.committed <= off.committed + Bytes(s.reservations, CommittedIn(p))
    && pool.committed <= off.committed + CommittedAcross(s.regions, p)
    && pool.reserved + pool.committed <= U64_MAX
  }

  ghost predicate RegionBalanced(s: State, o: Opening, r: Str)
    requires r in s.regions && r in o.regions
  {
    var region, off := s.regions[r], o.regions[r];
    && region.reserved + region.committed == off.reserved + off.committed + Bytes(s.reservations, LiveOn(r))
    && region.committed <= off.committed + Bytes(s.reservations, CommittedOn(r))
    && region.reserved + region.committed <= U64_MAX
  }

  ghost predicate PoolsBalanced(s: State, o: Opening) {
    o.pools.Keys == s.pools.Keys && forall p | p in s.pools :: PoolBalanced(s, o, p)
  }

  ghost predicate RegionsBalanced(s: State, o: Opening) {
    o.regions.Keys == s.regions.Keys && forall r | r in s.regions :: RegionBalanced(s, o, r)
  }

  /** Records are filed, linked and numbered. */
  ghost predicate Sound(s: State) {
    Filed(s) && Linked(s) && Numbered(s)
  }

  ghost predicate Balanced(s: State, o: Opening) {
    Sound(s) && PoolsBalanced(s, o) && RegionsBalanced(s, o)
  }

  /** The balances that one reservation takes part in. */
  ghost predicate BalancedAt(s: State, o: Opening, res: Reservation) {
    && res.pool in s.pools && res.pool in o.pools && PoolBalanced(s, o, res.pool)
    && res.region in s.regions && res.region in o.regions && RegionBalanced(s, o, res.region)
    && res.device in s.devices && s.regions[res.region].pool == res.pool
    && s.regions[res.region].id == res.region && s.pools[res.pool].id == res.pool
  }

  lemma BalancedHere(s: State, o: Opening, id: Str)
    requires Balanced(s, o) && id in s.reservations
    ensures BalancedAt(s, o, s.reservations[id])
    ensures s.reservations[id].id == id && Issued(id, s.sequence)
  {}

  // ---- steps that leave the books alone ----

  /** Same counters, same ownership, same reservations. */
  ghost predicate SameBooks(s: State, t: State) {
    && t.reservations == s.reservations && t.sequence == s.sequence
    && s.devices.Keys <= t.devices.Keys
    && t.pools.Keys == s.pools.Keys && t.regions.Keys == s.regions.Keys
    && (forall p | p in s.pools :: t.pools[p].reserved == s.pools[p].reserved &&
                                  t.pools[p].committed == s.pools[p].committed)
    && (forall r | r in s.regions :: t.regions[r].reserved == s.regions[r].reserved &&
                                    t.regions[r].committed == s.regions[r].committed &&
                                    t.regions[r].pool == s.regions[r].pool)
  }

  lemma SameBooksPool(s: State, t: State, o: Opening, p: Str)
    requires SameBooks(s, t) && p in s.pools && p in o.pools && PoolBalanced(s, o, p)
    ensures PoolBalanced(t, o, p)
  {
    assert RegionShares(t.regions, p) == RegionShares(s.regions, p);
  }

  lemma SameBooksBalanced(s: State, t: State, o: Opening)
    requires Balanced(s, o) && SameBooks(s, t) && Filed(t)
    ensures Balanced(t, o)
  {
    forall p | p in t.pools ensures PoolBalanced(t, o, p) {
      SameBooksPool(s, t, o, p);
    }
    SameBooksRegions(s, t, o);
  }

  lemma SameBooksRegions(s: State, t: State, o: Opening)
    requires RegionsBalanced(s, o) && SameBooks(s, t)
    ensures RegionsBalanced(t, o)
  {
    forall r | r in t.regions ensures RegionBalanced(t, o, r) {
      assert RegionBalanced(s, o, r);
    }
  }

  // ---- which calls a guarded run makes ----

  ghost predicate FreshIds(s: State) {
    s.sequence < U64_MAX
  }

  // What a caller can check before the call; everything the engine refuses itself is allowed.

  /** Enough for the region counters to keep their meaning. */
  ghost predicate RegionSensible(s: State, op: Op) {
    match op
    case OnRegion(c) => AdmissibleOnRegion(s, c)
    case OnReservation(c) => c.ReserveCall? ==> FreshIds(s)
    case Restore(ps) => RestorableRegions(ps)
    case _ => true
  }

  ghost predicate PoolSensible(s: State, op: Op) {
    match op
    case OnPool(c) => AdmissibleOnPool(s, c)
    case Restore(ps) => RestorablePools(ps)
    case _ => true
  }

  ghost predicate Sensible(s: State, op: Op) {
    RegionSensible(s, op) && PoolSensible(s, op)
  }

  predicate SumFits(p: Pool, bytes: u64) {
    p.reserved + p.committed + bytes <= U64_MAX
  }

  /** If the request is granted, the pool it is granted from can count the bytes. */
  ghost predicate GrantAdds(s: State, req: Request, ctx: Authority) {
    ctx.epoch == s.epoch && req.bytes > 0 ==>
      forall c | Chosen(s, req, c) && req.bytes <= PoolFree(c.poolRecord) :: SumFits(c.poolRecord, req.bytes)
  }

  ghost predicate Admissible(s: State, op: Op) {
    Sensible(s, op) && (op.OnReservation? ==> AdmissibleOnReservation(s, op.reservation))
  }

  ghost predicate AdmissibleOnReservation(s: State, c: ReservationCall) {
    c.ReserveCall? ==> FreshIds(s) && GrantAdds(s, c.req, c.ctx)
  }

  /** A replaced region record keeps its owner and counters; a new one has counters that add up. */
  ghost predicate AdmissibleOnRegion(s: State, c: RegionCall) {
    PerformOnRegion(s, c).1 == OK ==> ConsistentRegion(s, c)
  }

  ghost predicate ConsistentRegion(s: State, c: RegionCall) {
    match c
    case ReplaceRegionCall(region, _) =>
      region.id in s.regions ==>
        var existing := s.regions[region.id];
        region.pool == existing.pool && region.reserved == existing.reserved && region.committed == existing.committed
    case NewRegionCall(region, _) => region.reserved + region.committed <= U64_MAX
    case _ => true
  }

  ghost predicate AdmissibleOnPool(s: State, c: PoolCall) {
    PerformOnPool(s, c).1 == OK && c.NewPoolCall? ==> c.pool.reserved + c.pool.committed <= U64_MAX
  }

  ghost predicate RestorableRegions(ps: Persisted) {
    && FiledById(ps.devices, ps.regions, ps.pools)
    && forall r | r in ps.regions :: ps.regions[r].reserved + ps.regions[r].committed <= U64_MAX
  }

  ghost predicate RestorablePools(ps: Persisted) {
    forall p | p in ps.pools :: ps.pools[p].reserved + ps.pools[p].committed <= U64_MAX
  }

  ghost predicate AdmissibleRestore(ps: Persisted) {
    RestorableRegions(ps) && RestorablePools(ps)
  }

  // ---- calls that post nothing ----

  lemma QuietDevice(s: State, key: Str, d: Device)
    requires Filed(s) && d.id == key
    ensures SameBooks(s, s.(devices := s.devices[key := d])) && Filed(s.(devices := s.devices[key := d]))
  {}

  lemma QuietRegion(s: State, key: Str, r: Region)
    requires Filed(s) && key in s.regions && r.id == key && r.pool == s.regions[key].pool
    requires r.reserved == s.regions[key].reserved && r.committed == s.regions[key].committed
    ensures SameBooks(s, s.(regions := s.regions[key := r])) && Filed(s.(regions := s.regions[key := r]))
  {}

  lemma QuietPool(s: State, key: Str, p: Pool, line: CapacityLine)
    requires Filed(s) && key in s.pools && p.id == key
    requires p.reserved == s.pools[key].reserved && p.committed == s.pools[key].committed
    ensures var t := s.(pools := s.pools[key := p], ledger := line); SameBooks(s, t) && Filed(t)
  {}

  lemma DeviceCallBalanced(s: State, o: Opening, c: DeviceCall)
    requires Balanced(s, o)
    ensures Balanced(PerformOnDevice(s, c).0, o)
  {
    DeviceCallShape(s, c);
    if PerformOnDevice(s, c).1 == OK {
      QuietDevice(s, DeviceKey(c), DeviceAfter(s, c));
      SameBooksBalanced(s, PerformOnDevice(s, c).0, o);
    }
  }

  lemma RegionCallBalanced(s: State, o: Opening, c: RegionCall)
    requires Balanced(s, o) && AdmissibleOnRegion(s, c) && !c.NewRegionCall?
    ensures Balanced(PerformOnRegion(s, c).0, o)
  {
    RegionCallShape(s, c);
    if PerformOnRegion(s, c).1 == OK {
      QuietRegion(s, RegionKey(c), RegionAfter(s, c));
      SameBooksBalanced(s, PerformOnRegion(s, c).0, o);
    }
  }

  lemma PoolCallBalanced(s: State, o: Opening, c: PoolCall)
    requires Balanced(s, o) && !c.NewPoolCall?
    ensures Balanced(PerformOnPool(s, c).0, o)
  {
    PoolCallShape(s, c);
    if PerformOnPool(s, c).1 == OK {
      PoolAfterKeeps(s, c);
      var t := PerformOnPool(s, c).0;
      QuietPool(s, c.id, PoolAfter(s, c), t.ledger);
      SameBooksBalanced(s, t, o);
    }
  }

  // ---- new pools and regions ----

  ghost function OpenPool(o: Opening, p: Pool): Opening {
    o.(pools := o.pools[p.id := Offset(p.reserved, p.committed)])
  }

  ghost function OpenRegion(o: Opening, r: Region): Opening {
    o.(regions := o.regions[r.id := Offset(r.reserved, r.committed)])
  }

  lemma NothingIn(s: State, p: Str)
    requires Linked(s) && p !in s.pools
    ensures Bytes(s.reservations, LiveIn(p)) == 0 && Bytes(s.reservations, CommittedIn(p)) == 0
  {
    NoBytes(s.reservations, LiveIn(p));
    NoBytes(s.reservations, CommittedIn(p));
  }

  lemma NothingOn(s: State, r: Str)
    requires Linked(s) && r !in s.regions
    ensures Bytes(s.reservations, LiveOn(r)) == 0 && Bytes(s.reservations, CommittedOn(r)) == 0
  {
    NoBytes(s.reservations, LiveOn(r));
    NoBytes(s.reservations, CommittedOn(r));
  }

  lemma NewPoolPools(s: State, o: Opening, pool: Pool, line: CapacityLine)
    requires PoolsBalanced(s, o) && Linked(s) && pool.id !in s.pools && pool.reserved + pool.committed <= U64_MAX
    ensures PoolsBalanced(s.(pools := s.pools[pool.id := pool], ledger := line), OpenPool(o, pool))
  {
    var t, n := s.(pools := s.pools[pool.id := pool], ledger := line), OpenPool(o, pool);
    NothingIn(s, pool.id);
    forall q | q in t.pools ensures PoolBalanced(t, n, q) {
      if q != pool.id { assert PoolBalanced(s, o, q); }
    }
  }

  lemma SameRegionsBalanced(s: State, t: State, o: Opening, n: Opening)
    requires RegionsBalanced(s, o) && t.regions == s.regions && t.reservations == s.reservations
    requires n.regions == o.regions
    ensures RegionsBalanced(t, n)
  {
    forall r | r in t.regions ensures RegionBalanced(t, n, r) {
      assert RegionBalanced(s, o, r);
    }
  }

  lemma NewPoolSound(s: State, pool: Pool, line: CapacityLine)
    requires Sound(s) && pool.id !in s.pools
    ensures Sound(s.(pools := s.pools[pool.id := pool], ledger := line))
  {}

  lemma NewRegionSound(s: State, region: Region)
    requires Sound(s) && region.id !in s.regions
    ensures Sound(s.(regions := s.regions[region.id := region]))
  {}

  lemma NewPoolBalanced(s: State, o: Opening, pool: Pool, line: CapacityLine)
    requires Balanced(s, o) && pool.id !in s.pools && pool.reserved + pool.committed <= U64_MAX
    ensures Balanced(s.(pools := s.pools[pool.id := pool], ledger := line), OpenPool(o, pool))
  {
    var t := s.(pools := s.pools[pool.id := pool], ledger := line);
    NewPoolPools(s, o, pool, line);
    SameRegionsBalanced(s, t, o, OpenPool(o, pool));
    NewPoolSound(s, pool, line);
  }

  lemma NewRegionPools(s: State, o: Opening, region: Region)
    requires PoolsBalanced(s, o) && region.id !in s.regions
    ensures PoolsBalanced(s.(regions := s.regions[region.id := region]), OpenRegion(o, region))
  {
    var t, n := s.(regions := s.regions[region.id := region]), OpenRegion(o, region);
    forall q | q in t.pools ensures PoolBalanced(t, n, q) {
      assert PoolBalanced(s, o, q);
      AcrossUpdate(s.regions, region.id, region, q);
    }
  }

  lemma NewRegionRegions(s: State, o: Opening, region: Region)
    requires RegionsBalanced(s, o) && Linked(s) && region.id !in s.regions
    requires region.reserved + region.committed <= U64_MAX
    ensures RegionsBalanced(s.(regions := s.regions[region.id := region]), OpenRegion(o, region))
  {
    var t, n := s.(regions := s.regions[region.id := region]), OpenRegion(o, region);
    NothingOn(s, region.id);
    forall r | r in t.regions ensures RegionBalanced(t, n, r) {
      if r != region.id { assert RegionBalanced(s, o, r); }
    }
  }

  lemma NewRegionBalanced(s: State, o: Opening, region: Region)
    requires Balanced(s, o) && region.id !in s.regions && region.reserved + region.committed <= U64_MAX
    ensures Balanced(s.(regions := s.regions[region.id := region]), OpenRegion(o, region))
  {
    NewRegionPools(s, o, region);
    NewRegionRegions(s, o, region);
    NewRegionSound(s, region);
  }

  // ---- posting one reservation ----

  /** t is s with one reservation written and the counters of its pool and region replaced. */
  ghost predicate Posted(s: State, t: State, id: Str, res: Reservation) {
    && res.pool in s.pools && res.region in s.regions && res.device in s.devices
    && s.regions[res.region].pool == res.pool && res.id == id
    && t.devices == s.devices
    && res.pool in t.pools && t.pools == s.pools[res.pool := t.pools[res.pool]]
    && res.region in t.regions && t.regions == s.regions[res.region := t.regions[res.region]]
    && t.reservations == s.reservations[id := res]
    && t.pools[res.pool].id == res.pool
    && t.regions[res.region].id == res.region && t.regions[res.region].pool == res.pool
    && (id in s.reservations ==> s.reservations[id].pool == res.pool && s.reservations[id].region == res.region)
    && s.sequence <= t.sequence && Issued(id, t.sequence)
  }

  lemma PostedPool(s: State, t: State, o: Opening, id: Str, res: Reservation, q: Str)
    requires Posted(s, t, id, res) && q in s.pools && q in o.pools && q != res.pool
    requires PoolBalanced(s, o, q)
    ensures PoolBalanced(t, o, q)
  {
    BytesUpdate(s.reservations, id, res, LiveIn(q));
    BytesUpdate(s.reservations, id, res, CommittedIn(q));
    AcrossUpdate(s.regions, res.region, t.regions[res.region], q);
  }

  lemma PostedRegion(s: State, t: State, o: Opening, id: Str, res: Reservation, q: Str)
    requires Posted(s, t, id, res) && q in s.regions && q in o.regions && q != res.region
    requires RegionBalanced(s, o, q)
    ensures RegionBalanced(t, o, q)
  {
    BytesUpdate(s.reservations, id, res, LiveOn(q));
    BytesUpdate(s.reservations, id, res, CommittedOn(q));
  }

  lemma PostedSound(s: State, t: State, id: Str, res: Reservation)
    requires Sound(s) && Posted(s, t, id, res)
    ensures Sound(t)
  {
    forall k | k in t.reservations ensures Issued(k, t.sequence) {
      if k != id {
        assert Issued(k, s.sequence);
        var i: u64 :| 1 <= i <= s.sequence && k == ReservationId(i);
      }
    }
  }

  lemma PostedPools(s: State, t: State, o: Opening, id: Str, res: Reservation)
    requires PoolsBalanced(s, o) && Posted(s, t, id, res) && PoolBalanced(t, o, res.pool)
    ensures PoolsBalanced(t, o)
  {
    forall q | q in t.pools ensures PoolBalanced(t, o, q) {
      if q != res.pool { PostedPool(s, t, o, id, res, q); }
    }
  }

  lemma PostedRegions(s: State, t: State, o: Opening, id: Str, res: Reservation)
    requires RegionsBalanced(s, o) && Posted(s, t, id, res) && RegionBalanced(t, o, res.region)
    ensures RegionsBalanced(t, o)
  {
    forall q | q in t.regions ensures RegionBalanced(t, o, q) {
      if q != res.region { PostedRegion(s, t, o, id, res, q); }
    }
  }

  /** Only the pool and region a posting touches have to be rebalanced. */
  lemma PostedBalanced(s: State, t: State, o: Opening, id: Str, res: Reservation)
    requires Balanced(s, o) && Posted(s, t, id, res)
    requires res.pool in o.pools && PoolBalanced(t, o, res.pool)
    requires res.region in o.regions && RegionBalanced(t, o, res.region)
    ensures Balanced(t, o)
  {
    PostedSound(s, t, id, res);
    PostedPools(s, t, o, id, res);
    PostedRegions(s, t, o, id, res);
  }

  /** The pool of a posting is rebalanced when its counters move with the two sums. */
  lemma PostedPoolHere(s: State, t: State, o: Opening, id: Str, res: Reservation)
    requires Posted(s, t, id, res) && res.pool in o.pools && PoolBalanced(s, o, res.pool)
    requires var p, q, off := s.pools[res.pool], t.pools[res.pool], o.pools[res.pool];
      var live, done := LiveIn(res.pool), CommittedIn(res.pool);
      && q.reserved + q.committed ==
           p.reserved + p.committed - WeightAt(s.reservations, id, live) + Weight(live, res) <= U64_MAX
      && q.committed <=
           off.committed + Bytes(s.reservations, done) - WeightAt(s.reservations, id, done) + Weight(done, res)
      && q.committed <= off.committed + CommittedAcross(s.regions, res.pool)
                        - s.regions[res.region].committed + t.regions[res.region].committed
    ensures PoolBalanced(t, o, res.pool)
  {
    BytesUpdate(s.reservations, id, res, LiveIn(res.pool));
    BytesUpdate(s.reservations, id, res, CommittedIn(res.pool));
    AcrossUpdate(s.regions, res.region, t.regions[res.region], res.pool);
  }

  lemma PostedRegionHere(s: State, t: State, o: Opening, id: Str, res: Reservation)
    requires Posted(s, t, id, res) && res.region in o.regions && RegionBalanced(s, o, res.region)
    requires var p, q, off := s.regions[res.region], t.regions[res.region], o.regions[res.region];
      var live, done := LiveOn(res.region), CommittedOn(res.region);
      && q.reserved + q.committed ==
           p.reserved + p.committed - WeightAt(s.reservations, id, live) + Weight(live, res) <= U64_MAX
      && q.committed <=
           off.committed + Bytes(s.reservations, done) - WeightAt(s.reservations, id, done) + Weight(done, res)
    ensures RegionBalanced(t, o, res.region)
  {
    BytesUpdate(s.reservations, id, res, LiveOn(res.region));
    BytesUpdate(s.reservations, id, res, CommittedOn(res.region));
  }

  // ---- reserve ----

  /** The four pool terms that the free count adds up do not wrap. */
  predicate UsedFits(p: Pool) {
    p.unavailable + p.reserved + p.committed + p.draining <= U64_MAX
  }

  lemma ReservationIdInjective(i: u64, j: u64)
    requires ReservationId(i) == ReservationId(j)
    ensures i == j
  {
    assert ReservationId(i)[4..] == ToDecimal(i) && ReservationId(j)[4..] == ToDecimal(j);
    DecimalInjective(i, j);
  }

  lemma NewIdFresh(s: State)
    requires Numbered(s) && FreshIds(s)
    ensures NewId(s) !in s.reservations && Issued(NewId(s), s.sequence + 1)
  {
    if NewId(s) in s.reservations {
      assert Issued(NewId(s), s.sequence);
      var i: u64 :| 1 <= i <= s.sequence && NewId(s) == ReservationId(i);
      ReservationIdInjective(i, s.sequence + 1);
    }
  }

  /** A grant fits both the pool and the region in exact arithmetic. */
  lemma GrantFits(s: State, c: Candidate, req: Request)
    requires Bookable(s, c, req) && UsedFits(s.pools[c.pool])
    requires s.regions[c.region].reserved + s.regions[c.region].committed <= U64_MAX
    ensures var p, r := s.pools[c.pool], s.regions[c.region];
      && p.unavailable + p.reserved + p.committed + p.draining + req.bytes <= p.totalGoverned
      && r.reserved + r.committed + req.bytes <= r.capacity
  {}

  lemma BookPosts(s: State, c: Candidate, req: Request, ctx: Authority)
    requires Sound(s) && FreshIds(s) && Bookable(s, c, req)
    ensures Posted(s, Book(s, c, req, ctx).0, NewId(s), Captured(s, c, req, ctx, NewId(s)))
    ensures NewId(s) !in s.reservations
  {
    BookShape(s, c, req, ctx);
    NewIdFresh(s);
  }

  /** The region of a grant can always count the bytes: its capacity bounds them. */
  lemma RegionGrantFits(s: State, c: Candidate, req: Request)
    requires Bookable(s, c, req) && s.regions[c.region].reserved + s.regions[c.region].committed <= U64_MAX
    ensures s.regions[c.region].reserved + s.regions[c.region].committed + req.bytes <= s.regions[c.region].capacity
  {}

  lemma BookRegionBalanced(s: State, o: Opening, c: Candidate, req: Request, ctx: Authority)
    requires Bookable(s, c, req) && NewId(s) !in s.reservations
    requires Posted(s, Book(s, c, req, ctx).0, NewId(s), Captured(s, c, req, ctx, NewId(s)))
    requires c.region in o.regions && RegionBalanced(s, o, c.region)
    ensures RegionBalanced(Book(s, c, req, ctx).0, o, c.region)
  {
    BookShape(s, c, req, ctx);
    RegionGrantFits(s, c, req);
    PostedRegionHere(s, Book(s, c, req, ctx).0, o, NewId(s), Captured(s, c, req, ctx, NewId(s)));
  }

  lemma BookPoolBalanced(s: State, o: Opening, c: Candidate, req: Request, ctx: Authority)
    requires Bookable(s, c, req) && SumFits(s.pools[c.pool], req.bytes) && NewId(s) !in s.reservations
    requires Posted(s, Book(s, c, req, ctx).0, NewId(s), Captured(s, c, req, ctx, NewId(s)))
    requires c.pool in o.pools && PoolBalanced(s, o, c.pool)
    ensures PoolBalanced(Book(s, c, req, ctx).0, o, c.pool)
  {
    BookShape(s, c, req, ctx);
    PostedPoolHere(s, Book(s, c, req, ctx).0, o, NewId(s), Captured(s, c, req, ctx, NewId(s)));
  }

  lemma BookBalanced(s: State, o: Opening, c: Candidate, req: Request, ctx: Authority)
    requires Balanced(s, o) && FreshIds(s) && Bookable(s, c, req) && SumFits(s.pools[c.pool], req.bytes)
    ensures Balanced(Book(s, c, req, ctx).0, o)
  {
    BookPosts(s, c, req, ctx);
    assert PoolBalanced(s, o, c.pool) && RegionBalanced(s, o, c.region);
    BookRegionBalanced(s, o, c, req, ctx);
    BookPoolBalanced(s, o, c, req, ctx);
    PostedBalanced(s, Book(s, c, req, ctx).0, o, NewId(s), Captured(s, c, req, ctx, NewId(s)));
  }

  lemma BookUnbalancedAt(s: State, o: Opening, c: Candidate, req: Request, ctx: Authority)
    requires Bookable(s, c, req) && !SumFits(s.pools[c.pool], req.bytes) && NewId(s) !in s.reservations
    requires c.pool in o.pools && PoolBalanced(s, o, c.pool)
    ensures c.pool in Book(s, c, req, ctx).0.pools && !PoolBalanced(Book(s, c, req, ctx).0, o, c.pool)
  {
    BookShape(s, c, req, ctx);
    BytesUpdate(s.reservations, NewId(s), Captured(s, c, req, ctx, NewId(s)), LiveIn(c.pool));
  }

  /** A grant keeps the books balanced exactly when its pool can count the bytes in 64 bits. */
  lemma BookBalancedIff(s: State, o: Opening, c: Candidate, req: Request, ctx: Authority)
    requires Balanced(s, o) && FreshIds(s) && Bookable(s, c, req)
    ensures Balanced(Book(s, c, req, ctx).0, o) <==> SumFits(s.pools[c.pool], req.bytes)
  {
    if SumFits(s.pools[c.pool], req.bytes) {
      BookBalanced(s, o, c, req, ctx);
    } else {
      NewIdFresh(s);
      assert PoolBalanced(s, o, c.pool);
      BookUnbalancedAt(s, o, c, req, ctx);
    }
  }

  // ---- commit ----

  lemma ReservedCoveredInRegion(s: State, o: Opening, id: Str)
    requires id in s.reservations && s.reservations[id].state.Reserved?
    requires s.reservations[id].region in s.regions && s.reservations[id].region in o.regions
    requires RegionBalanced(s, o, s.reservations[id].region)
    ensures s.reservations[id].bytes <= s.regions[s.reservations[id].region].reserved
  {
    var r := s.reservations[id].region;
    UncommittedShare(s.reservations, id, LiveOn(r), CommittedOn(r));
  }

  /** A reserved reservation is covered by its pool's and its region's reserved bytes. */
  lemma ReservedCovered(s: State, o: Opening, id: Str)
    requires id in s.reservations && s.reservations[id].state.Reserved? && BalancedAt(s, o, s.reservations[id])
    ensures var res := s.reservations[id];
      res.bytes <= s.pools[res.pool].reserved && res.bytes <= s.regions[res.region].reserved
  {
    var res := s.reservations[id];
    UncommittedShare(s.reservations, id, LiveIn(res.pool), CommittedIn(res.pool));
    ReservedCoveredInRegion(s, o, id);
  }

  /** The reservation and the records it names agree with each other. */
  ghost predicate LinkedAt(s: State, id: Str) {
    && id in s.reservations && s.reservations[id].id == id && Issued(id, s.sequence)
    && var res := s.reservations[id];
      && res.pool in s.pools && s.pools[res.pool].id == res.pool
      && res.region in s.regions && s.regions[res.region].id == res.region
      && res.device in s.devices && s.regions[res.region].pool == res.pool
  }

  lemma SoundHere(s: State, id: Str)
    requires Sound(s) && id in s.reservations
    ensures LinkedAt(s, id)
  {}

  lemma CommitPosts(s: State, id: Str, ctx: Authority)
    requires Commit(s, id, ctx).1.ok && LinkedAt(s, id)
    ensures Posted(s, Commit(s, id, ctx).0, id, s.reservations[id].(state := Committed, commitEpoch := s.epoch))
  {
    CommitShape(s, id, ctx);
  }

  lemma CommitRegionBalanced(s: State, o: Opening, id: Str, ctx: Authority)
    requires Commit(s, id, ctx).1.ok && LinkedAt(s, id)
    requires s.reservations[id].region in o.regions && RegionBalanced(s, o, s.reservations[id].region)
    ensures RegionBalanced(Commit(s, id, ctx).0, o, s.reservations[id].region)
  {
    CommitShape(s, id, ctx);
    CommitPosts(s, id, ctx);
    ReservedCoveredInRegion(s, o, id);
    PostedRegionHere(s, Commit(s, id, ctx).0, o, id,
                     s.reservations[id].(state := Committed, commitEpoch := s.epoch));
  }

  lemma CommitBalancedAt(s: State, o: Opening, id: Str, ctx: Authority)
    requires Commit(s, id, ctx).1.ok && LinkedAt(s, id) && BalancedAt(s, o, s.reservations[id])
    ensures var t, done := Commit(s, id, ctx).0, s.reservations[id].(state := Committed, commitEpoch := s.epoch);
      Posted(s, t, id, done) && PoolBalanced(t, o, done.pool) && RegionBalanced(t, o, done.region)
  {
    var t, done := Commit(s, id, ctx).0, s.reservations[id].(state := Committed, commitEpoch := s.epoch);
    CommitShape(s, id, ctx);
    CommitPosts(s, id, ctx);
    ReservedCovered(s, o, id);
    PostedPoolHere(s, t, o, id, done);
    CommitRegionBalanced(s, o, id, ctx);
  }

  lemma CommitBalanced(s: State, o: Opening, id: Str, ctx: Authority)
    requires Balanced(s, o)
    ensures Balanced(Commit(s, id, ctx).0, o)
  {
    CommitShape(s, id, ctx);
    if Commit(s, id, ctx).1.ok {
      BalancedHere(s, o, id);
      SoundHere(s, id);
      CommitBalancedAt(s, o, id, ctx);
      PostedBalanced(s, Commit(s, id, ctx).0, o, id, s.reservations[id].(state := Committed, commitEpoch := s.epoch));
    }
  }

  // ---- release ----

  lemma LiveCoveredInRegion(s: State, o: Opening, id: Str)
    requires id in s.reservations && Live(s.reservations[id])
    requires s.reservations[id].region in s.regions && s.reservations[id].region in o.regions
    requires RegionBalanced(s, o, s.reservations[id].region)
    ensures var r := s.regions[s.reservations[id].region]; s.reservations[id].bytes <= r.reserved + r.committed
  {
    BytesAtLeast(s.reservations, id, LiveOn(s.reservations[id].region));
  }

  /** A live reservation is covered by its pool's and its region's counters together. */
  lemma LiveCovered(s: State, o: Opening, id: Str)
    requires id in s.reservations && Live(s.reservations[id]) && BalancedAt(s, o, s.reservations[id])
    ensures var res := s.reservations[id];
      && res.bytes <= s.pools[res.pool].reserved + s.pools[res.pool].committed
      && res.bytes <= s.regions[res.region].reserved + s.regions[res.region].committed
  {
    BytesAtLeast(s.reservations, id, LiveIn(s.reservations[id].pool));
    LiveCoveredInRegion(s, o, id);
  }

  lemma DrawCovered(committed: u64, reserved: u64, bytes: u64)
    requires bytes <= committed + reserved
    ensures var d := Draw(committed, reserved, bytes);
      && d.remaining == 0 && d.committed + d.reserved == committed + reserved - bytes
      && d.committed == (if bytes <= committed then committed - bytes else 0)
  {}

  lemma ReleasePosted(s: State, id: Str, ctx: Authority)
    requires Release(s, id, ctx).1.ok && LinkedAt(s, id)
    ensures Live(s.reservations[id])
    ensures var t, res := Release(s, id, ctx).0, s.reservations[id];
      && Posted(s, t, id, res.(state := Released))
      && t.pools[res.pool] == DebitPool(s.pools[res.pool], res.bytes)
      && t.regions[res.region] == DebitRegion(s.regions[res.region], res.bytes)
  {
    ReleaseShape(s, id, ctx);
  }

  lemma ReleasePosts(s: State, o: Opening, id: Str, ctx: Authority)
    requires Releasable(s, id, ctx) && BalancedAt(s, o, s.reservations[id])
    requires s.reservations[id].id == id && Issued(id, s.sequence)
    ensures Release(s, id, ctx).1.ok
    ensures var t, res := Release(s, id, ctx).0, s.reservations[id];
      && Posted(s, t, id, res.(state := Released))
      && t.pools[res.pool] == DebitPool(s.pools[res.pool], res.bytes)
      && t.regions[res.region] == DebitRegion(s.regions[res.region], res.bytes)
  {
    var res := s.reservations[id];
    ReleaseShape(s, id, ctx);
    LiveCovered(s, o, id);
    DrawCovered(s.pools[res.pool].committed, s.pools[res.pool].reserved, res.bytes);
    ReleasePosted(s, id, ctx);
  }

  lemma ReleasedPoolBalanced(s: State, t: State, o: Opening, id: Str)
    requires id in s.reservations && Live(s.reservations[id]) && BalancedAt(s, o, s.reservations[id])
    requires Posted(s, t, id, s.reservations[id].(state := Released))
    requires var res := s.reservations[id];
      && t.pools[res.pool] == DebitPool(s.pools[res.pool], res.bytes)
      && t.regions[res.region] == DebitRegion(s.regions[res.region], res.bytes)
    ensures PoolBalanced(t, o, s.reservations[id].pool)
  {
    var res := s.reservations[id];
    LiveCovered(s, o, id);
    DrawCovered(s.pools[res.pool].committed, s.pools[res.pool].reserved, res.bytes);
    DrawCovered(s.regions[res.region].committed, s.regions[res.region].reserved, res.bytes);
    BytesAtLeast(s.reservations, id, CommittedIn(res.pool));
    SumAtMost(RegionShares(s.regions, res.pool), res.region);
    PostedPoolHere(s, t, o, id, res.(state := Released));
  }

  lemma ReleasedRegionBalanced(s: State, t: State, o: Opening, id: Str)
    requires id in s.reservations && Live(s.reservations[id])
    requires s.reservations[id].region in s.regions && s.reservations[id].region in o.regions
    requires RegionBalanced(s, o, s.reservations[id].region)
    requires Posted(s, t, id, s.reservations[id].(state := Released))
    requires t.regions[s.reservations[id].region] ==
      DebitRegion(s.regions[s.reservations[id].region], s.reservations[id].bytes)
    ensures RegionBalanced(t, o, s.reservations[id].region)
  {
    var res := s.reservations[id];
    LiveCoveredInRegion(s, o, id);
    DrawCovered(s.regions[res.region].committed, s.regions[res.region].reserved, res.bytes);
    BytesAtLeast(s.reservations, id, CommittedOn(res.region));
    PostedRegionHere(s, t, o, id, res.(state := Released));
  }

  lemma ReleaseBalanced(s: State, o: Opening, id: Str, ctx: Authority)
    requires Balanced(s, o)
    ensures Balanced(Release(s, id, ctx).0, o)
  {
    ReleaseShape(s, id, ctx);
    if Releasable(s, id, ctx) {
      BalancedHere(s, o, id);
      ReleasePosts(s, o, id, ctx);
      ReleasedPoolBalanced(s, Release(s, id, ctx).0, o, id);
      ReleasedRegionBalanced(s, Release(s, id, ctx).0, o, id);
      PostedBalanced(s, Release(s, id, ctx).0, o, id, s.reservations[id].(state := Released));
    }
  }
}
