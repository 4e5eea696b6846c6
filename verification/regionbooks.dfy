/** The region half of the books: it holds in every sensible run, also when a pool's counters have wrapped. */
module RegionBooks {
  import opened Base
  import opened Records
  import opened Spec
  import opened Shapes
  import opened Books
  import opened Fencing

  /** The opening counters after a step: new pools and regions open with what the caller gave them. */
  ghost function NextOpening(s: State, o: Opening, op: Op): Opening {
    match op
    case OnPool(c) => if c.NewPoolCall? && PerformOnPool(s, c).1 == OK then OpenPool(o, c.pool) else o
    case OnRegion(c) => if c.NewRegionCall? && PerformOnRegion(s, c).1 == OK then OpenRegion(o, c.region) else o
    case Restore(ps) => Opening(
      map p | p in ps.pools :: Offset(ps.pools[p].reserved, ps.pools[p].committed),
      map r | r in ps.regions :: Offset(ps.regions[r].reserved, ps.regions[r].committed))
    case _ => o
  }

  ghost function OpeningAfter(s: State, o: Opening, ops: seq<Op>): Opening
    decreases |ops|
  {
    if ops == [] then o else OpeningAfter(Apply(s, ops[0]), NextOpening(s, o, ops[0]), ops[1..])
  }

  const NO_OPENING := Opening(map[], map[])

  /** Records are filed, linked and numbered, and region counters account for the live reservations. */
  ghost predicate RegionsKept(s: State, o: Opening) {
    Sound(s) && RegionsBalanced(s, o)
  }

  // ---- calls that post nothing ----

  /** Same reservations, same region counters and owners; pools may come and their counters may move. */
  ghost predicate SameRegionBooks(s: State, t: State) {
    && t.reservations == s.reservations && t.sequence == s.sequence
    && s.devices.Keys <= t.devices.Keys && s.pools.Keys <= t.pools.Keys && t.regions.Keys == s.regions.Keys
    && (forall r | r in s.regions :: t.regions[r].reserved == s.regions[r].reserved &&
                                    t.regions[r].committed == s.regions[r].committed &&
                                    t.regions[r].pool == s.regions[r].pool)
  }

  lemma SameRegionBooksKept(s: State, t: State, o: Opening, n: Opening)
    requires RegionsKept(s, o) && SameRegionBooks(s, t) && Filed(t) && n.regions == o.regions
    ensures RegionsKept(t, n)
  {
    SameRegionBooksBalanced(s, t, o, n);
    SameRegionBooksSound(s, t);
  }

  lemma SameRegionBooksSound(s: State, t: State)
    requires Sound(s) && SameRegionBooks(s, t) && Filed(t)
    ensures Sound(t)
  {}

  lemma SameRegionBooksBalanced(s: State, t: State, o: Opening, n: Opening)
    requires RegionsBalanced(s, o) && SameRegionBooks(s, t) && n.regions == o.regions
    ensures RegionsBalanced(t, n)
  {
    forall r | r in t.regions ensures RegionBalanced(t, n, r) {
      assert RegionBalanced(s, o, r);
    }
  }

  lemma SettingKept(s: State, o: Opening, c: SettingCall)
    requires RegionsKept(s, o)
    ensures RegionsKept(ApplySetting(s, c), o)
  {
    SameRegionBooksKept(s, ApplySetting(s, c), o, o);
  }

  lemma DeviceCallKept(s: State, o: Opening, c: DeviceCall)
    requires RegionsKept(s, o)
    ensures RegionsKept(PerformOnDevice(s, c).0, o)
  {
    DeviceCallShape(s, c);
    DeviceCallFiled(s, c);
    SameRegionBooksKept(s, PerformOnDevice(s, c).0, o, o);
  }

  lemma PoolCallKept(s: State, o: Opening, c: PoolCall)
    requires RegionsKept(s, o)
    ensures RegionsKept(PerformOnPool(s, c).0, NextOpening(s, o, OnPool(c)))
  {
    PoolCallShape(s, c);
    PoolCallFiled(s, c);
    SameRegionBooksKept(s, PerformOnPool(s, c).0, o, NextOpening(s, o, OnPool(c)));
  }

  lemma RegionCallSame(s: State, c: RegionCall)
    requires Filed(s) && AdmissibleOnRegion(s, c) && !c.NewRegionCall?
    ensures SameRegionBooks(s, PerformOnRegion(s, c).0)
  {
    RegionCallShape(s, c);
  }

  lemma RegionCallKept(s: State, o: Opening, c: RegionCall)
    requires RegionsKept(s, o) && AdmissibleOnRegion(s, c)
    ensures RegionsKept(PerformOnRegion(s, c).0, NextOpening(s, o, OnRegion(c)))
  {
    RegionCallShape(s, c);
    if !c.NewRegionCall? {
      RegionCallSame(s, c);
      RegionCallFiled(s, c);
      SameRegionBooksKept(s, PerformOnRegion(s, c).0, o, o);
    } else if PerformOnRegion(s, c).1 == OK {
      NewRegionRegions(s, o, c.region);
      NewRegionSound(s, c.region);
    }
  }

  // ---- calls that post ----

  lemma PostedKept(s: State, t: State, o: Opening, id: Str, res: Reservation)
    requires RegionsKept(s, o) && Posted(s, t, id, res)
    requires res.region in o.regions && RegionBalanced(t, o, res.region)
    ensures RegionsKept(t, o)
  {
    PostedSound(s, t, id, res);
    PostedRegions(s, t, o, id, res);
  }

  lemma ReserveKept(s: State, o: Opening, req: Request, ctx: Authority)
    requires RegionsKept(s, o) && FreshIds(s)
    ensures RegionsKept(Reserve(s, req, ctx).0, o)
  {
    var c := ReserveShape(s, req, ctx);
    if Reserve(s, req, ctx).1.ok {
      BookPosts(s, c, req, ctx);
      assert RegionBalanced(s, o, c.region);
      BookRegionBalanced(s, o, c, req, ctx);
      PostedKept(s, Book(s, c, req, ctx).0, o, NewId(s), Captured(s, c, req, ctx, NewId(s)));
    }
  }

  lemma RegionHere(s: State, o: Opening, id: Str)
    requires RegionsKept(s, o) && id in s.reservations
    ensures LinkedAt(s, id) && s.reservations[id].region in o.regions
    ensures RegionBalanced(s, o, s.reservations[id].region)
  {
    SoundHere(s, id);
  }

  lemma CommitKept(s: State, o: Opening, id: Str, ctx: Authority)
    requires RegionsKept(s, o)
    ensures RegionsKept(Commit(s, id, ctx).0, o)
  {
    CommitShape(s, id, ctx);
    if Commit(s, id, ctx).1.ok {
      RegionHere(s, o, id);
      CommitPosts(s, id, ctx);
      CommitRegionBalanced(s, o, id, ctx);
      PostedKept(s, Commit(s, id, ctx).0, o, id, s.reservations[id].(state := Committed, commitEpoch := s.epoch));
    }
  }

  /** A refused release leaves the reservations and the regions alone, whatever it did to the pool. */
  lemma RefusedReleaseSame(s: State, id: Str, ctx: Authority)
    requires !Release(s, id, ctx).1.ok
    ensures SameRegionBooks(s, Release(s, id, ctx).0)
  {}

  lemma ReleaseKept(s: State, o: Opening, id: Str, ctx: Authority)
    requires RegionsKept(s, o)
    ensures RegionsKept(Release(s, id, ctx).0, o)
  {
    if Release(s, id, ctx).1.ok {
      ReleaseShape(s, id, ctx);
      RegionHere(s, o, id);
      ReleasePosted(s, id, ctx);
      ReleasedRegionBalanced(s, Release(s, id, ctx).0, o, id);
      PostedKept(s, Release(s, id, ctx).0, o, id, s.reservations[id].(state := Released));
    } else {
      RefusedReleaseSame(s, id, ctx);
      ReleaseFiled(s, id, ctx);
      SameRegionBooksKept(s, Release(s, id, ctx).0, o, o);
    }
  }

  lemma ReservationCallKept(s: State, o: Opening, c: ReservationCall)
    requires RegionsKept(s, o) && (c.ReserveCall? ==> FreshIds(s))
    ensures RegionsKept(PerformOnReservation(s, c).0, o)
  {
    match c
    case ReserveCall(req, ctx) => ReserveKept(s, o, req, ctx);
    case CommitCall(id, ctx) => CommitKept(s, o, id, ctx);
    case ReleaseCall(id, ctx) => ReleaseKept(s, o, id, ctx);
  }

  // ---- imports ----

  lemma NoneAtAll(t: Tally)
    ensures Bytes(map[], t) == 0
  {
    NoBytes(map[], t);
  }

  lemma RestoreRegions(s: State, o: Opening, ps: Persisted)
    requires RestorableRegions(ps)
    ensures RegionsBalanced(Import(s, ps), NextOpening(s, o, Restore(ps)))
  {
    forall r | r in ps.regions ensures RegionBalanced(Import(s, ps), NextOpening(s, o, Restore(ps)), r) {
      NoneAtAll(LiveOn(r));
      NoneAtAll(CommittedOn(r));
    }
  }

  lemma RestoreSound(s: State, ps: Persisted)
    requires RestorableRegions(ps)
    ensures Sound(Import(s, ps))
  {}

  lemma RestoreKept(s: State, o: Opening, ps: Persisted)
    requires RestorableRegions(ps)
    ensures RegionsKept(Import(s, ps), NextOpening(s, o, Restore(ps)))
  {
    RestoreRegions(s, o, ps);
    RestoreSound(s, ps);
  }

  // ---- runs ----

  /** Every call keeps the region half of the books, the conflict exit of release included. */
  lemma RegionStep(s: State, o: Opening, op: Op)
    requires RegionsKept(s, o) && RegionSensible(s, op)
    ensures RegionsKept(Apply(s, op), NextOpening(s, o, op))
  {
    match op
    case Setting(c) => SettingKept(s, o, c);
    case OnDevice(c) => DeviceCallKept(s, o, c);
    case OnRegion(c) => RegionCallKept(s, o, c);
    case OnPool(c) => PoolCallKept(s, o, c);
    case OnReservation(c) => ReservationCallKept(s, o, c);
    case Restore(ps) => RestoreKept(s, o, ps);
  }

  ghost predicate RegionSensibleRun(s: State, ops: seq<Op>)
    decreases |ops|
  {
    ops != [] ==> RegionSensible(s, ops[0]) && RegionSensibleRun(Apply(s, ops[0]), ops[1..])
  }

  /** In every sensible run each region's counters account for its live reservations. */
  lemma {:induction false} RegionRun(s: State, o: Opening, ops: seq<Op>)
    requires RegionsKept(s, o) && RegionSensibleRun(s, ops)
    ensures RegionsKept(Run(s, ops), OpeningAfter(s, o, ops))
    decreases |ops|
  {
    if ops != [] {
      RegionStep(s, o, ops[0]);
      RegionRun(Apply(s, ops[0]), NextOpening(s, o, ops[0]), ops[1..]);
    }
  }

  ghost predicate MovedOnRegion(s: State, t: State, res: Reservation) {
    && res.region in s.regions && res.region in t.regions
    && t.regions[res.region].reserved == s.regions[res.region].reserved - res.bytes
    && t.regions[res.region].committed == s.regions[res.region].committed + res.bytes
  }

  /** The unguarded region subtraction of a commit never wraps: the bytes move from reserved to committed. */
  lemma CommitMovesExactly(s: State, o: Opening, id: Str, ctx: Authority)
    requires RegionsKept(s, o) && Commit(s, id, ctx).1.ok
    ensures id in s.reservations && MovedOnRegion(s, Commit(s, id, ctx).0, s.reservations[id])
  {
    CommitShape(s, id, ctx);
    RegionHere(s, o, id);
    CommitMovesExactlyAt(s, o, id, ctx);
  }

  lemma CommitMovesExactlyAt(s: State, o: Opening, id: Str, ctx: Authority)
    requires Commit(s, id, ctx).1.ok && LinkedAt(s, id) && s.reservations[id].region in o.regions
    requires RegionBalanced(s, o, s.reservations[id].region)
    ensures MovedOnRegion(s, Commit(s, id, ctx).0, s.reservations[id])
  {
    CommitShape(s, id, ctx);
    ReservedCoveredInRegion(s, o, id);
  }
}
