/** The split of a pool's bytes between reserved and committed. */
module Splits {
  import opened Base
  import opened Records
  import opened Evaluation
  import opened Spec
  import opened Shapes
  import opened Books
  import opened RegionBooks
  import opened Runs

  // ---- one release ----

  /** The pool's committed counter is exactly what its opening and its COMMITTED reservations account for. */
  ghost predicate SplitExact(s: State, o: Opening, p: Str)
    requires p in s.pools && p in o.pools
  {
    s.pools[p].committed == o.pools[p].committed + Bytes(s.reservations, CommittedIn(p))
  }

  /**
   * Greedy release keeps the split exact only when the released reservation was committed, was empty, or the
   * pool had nothing committed; otherwise it takes committed bytes for a reservation that held none.
   */
  lemma SplitKeptIff(s: State, o: Opening, id: Str, ctx: Authority)
    requires Balanced(s, o) && Releasable(s, id, ctx)
    requires s.reservations[id].pool in o.pools && s.reservations[id].pool in s.pools
    requires SplitExact(s, o, s.reservations[id].pool)
    ensures var res, t := s.reservations[id], Release(s, id, ctx).0;
      && res.pool in t.pools
      && (SplitExact(t, o, res.pool) <==>
          res.state.Committed? || res.bytes == 0 || s.pools[res.pool].committed == 0)
  {
    BalancedHere(s, o, id);
    SplitKeptIffAt(s, o, id, ctx);
  }

  lemma SplitKeptIffAt(s: State, o: Opening, id: Str, ctx: Authority)
    requires Releasable(s, id, ctx) && BalancedAt(s, o, s.reservations[id])
    requires s.reservations[id].id == id && Issued(id, s.sequence)
    requires SplitExact(s, o, s.reservations[id].pool)
    ensures var res, t := s.reservations[id], Release(s, id, ctx).0;
      && res.pool in t.pools
      && (SplitExact(t, o, res.pool) <==>
          res.state.Committed? || res.bytes == 0 || s.pools[res.pool].committed == 0)
  {
    var res := s.reservations[id];
    ReleasePosts(s, o, id, ctx);
    LiveCovered(s, o, id);
    DrawCovered(s.pools[res.pool].committed, s.pools[res.pool].reserved, res.bytes);
    BytesUpdate(s.reservations, id, res.(state := Released), CommittedIn(res.pool));
    BytesAtLeast(s.reservations, id, CommittedIn(res.pool));
  }

  // ---- every call ----

  /** Every pool's committed counter is exact. */
  ghost predicate SplitsExact(s: State, o: Opening) {
    forall p | p in s.pools && p in o.pools :: SplitExact(s, o, p)
  }

  /** A release of bytes that are only reserved, out of a pool that has something committed. */
  ghost predicate TakesCommitted(s: State, op: Op) {
    && op.OnReservation? && op.reservation.ReleaseCall?
    && ReleaseTakesCommitted(s, op.reservation.id, op.reservation.ctx)
  }

  ghost predicate ReleaseTakesCommitted(s: State, id: Str, ctx: Authority) {
    && Releasable(s, id, ctx) && s.reservations[id].pool in s.pools
    && !s.reservations[id].state.Committed? && s.reservations[id].bytes > 0
    && s.pools[s.reservations[id].pool].committed > 0
  }

  /** Calls that write no reservation and move no committed bytes keep every split. */
  lemma SameSplits(s: State, t: State, o: Opening, n: Opening)
    requires SplitsExact(s, o) && t.reservations == s.reservations && t.pools.Keys == s.pools.Keys
    requires n.pools == o.pools && forall p | p in s.pools :: t.pools[p].committed == s.pools[p].committed
    ensures SplitsExact(t, n)
  {
    forall p | p in t.pools && p in n.pools ensures SplitExact(t, n, p) {
      assert SplitExact(s, o, p);
    }
  }

  lemma DeviceSplits(s: State, o: Opening, c: DeviceCall)
    requires SplitsExact(s, o)
    ensures SplitsExact(PerformOnDevice(s, c).0, o)
  {
    DeviceCallShape(s, c);
    SameSplits(s, PerformOnDevice(s, c).0, o, o);
  }

  lemma RegionSplits(s: State, o: Opening, c: RegionCall)
    requires SplitsExact(s, o)
    ensures SplitsExact(PerformOnRegion(s, c).0, NextOpening(s, o, OnRegion(c)))
  {
    RegionCallShape(s, c);
    SameSplits(s, PerformOnRegion(s, c).0, o, NextOpening(s, o, OnRegion(c)));
  }

  lemma NewPoolSplits(s: State, o: Opening, c: PoolCall)
    requires SplitsExact(s, o) && Linked(s) && o.pools.Keys == s.pools.Keys && c.NewPoolCall?
    requires PerformOnPool(s, c).1 == OK
    ensures SplitsExact(PerformOnPool(s, c).0, OpenPool(o, c.pool))
  {
    var t, n := PerformOnPool(s, c).0, OpenPool(o, c.pool);
    PoolCallShape(s, c);
    NothingIn(s, c.pool.id);
    forall p | p in t.pools && p in n.pools ensures SplitExact(t, n, p) {
      if p != c.pool.id { assert SplitExact(s, o, p); }
    }
  }

  lemma OldPoolSplits(s: State, o: Opening, c: PoolCall)
    requires SplitsExact(s, o) && !c.NewPoolCall?
    ensures SplitsExact(PerformOnPool(s, c).0, o)
  {
    PoolCallShape(s, c);
    if PerformOnPool(s, c).1 == OK { PoolAfterKeeps(s, c); }
    SameSplits(s, PerformOnPool(s, c).0, o, o);
  }

  lemma PoolSplits(s: State, o: Opening, c: PoolCall)
    requires SplitsExact(s, o) && Linked(s) && o.pools.Keys == s.pools.Keys
    ensures SplitsExact(PerformOnPool(s, c).0, NextOpening(s, o, OnPool(c)))
  {
    if !c.NewPoolCall? {
      OldPoolSplits(s, o, c);
    } else if PerformOnPool(s, c).1 == OK {
      NewPoolSplits(s, o, c);
    } else {
      PoolCallShape(s, c);
    }
  }

  /** Only the pool that a posting touches can lose its split. */
  lemma PostedSplits(s: State, t: State, o: Opening, id: Str, res: Reservation)
    requires SplitsExact(s, o) && Posted(s, t, id, res) && res.pool in o.pools
    ensures SplitsExact(t, o) <==> SplitExact(t, o, res.pool)
  {
    if SplitExact(t, o, res.pool) {
      forall p | p in t.pools && p in o.pools ensures SplitExact(t, o, p) {
        if p != res.pool {
          assert SplitExact(s, o, p);
          BytesUpdate(s.reservations, id, res, CommittedIn(p));
        }
      }
    }
  }

  lemma BookSplits(s: State, o: Opening, c: Candidate, req: Request, ctx: Authority)
    requires SplitsExact(s, o) && Sound(s) && FreshIds(s) && Bookable(s, c, req) && c.pool in o.pools
    ensures SplitsExact(Book(s, c, req, ctx).0, o)
  {
    var t, res := Book(s, c, req, ctx).0, Captured(s, c, req, ctx, NewId(s));
    BookPosts(s, c, req, ctx);
    BookShape(s, c, req, ctx);
    assert SplitExact(s, o, c.pool);
    BytesUpdate(s.reservations, NewId(s), res, CommittedIn(c.pool));
    PostedSplits(s, t, o, NewId(s), res);
  }

  lemma ReserveSplits(s: State, o: Opening, req: Request, ctx: Authority)
    requires SplitsExact(s, o) && Sound(s) && FreshIds(s) && o.pools.Keys == s.pools.Keys
    ensures SplitsExact(Reserve(s, req, ctx).0, o)
  {
    var c := ReserveShape(s, req, ctx);
    if Reserve(s, req, ctx).1.ok { BookSplits(s, o, c, req, ctx); }
  }

  lemma CommitSplits(s: State, o: Opening, id: Str, ctx: Authority)
    requires SplitsExact(s, o) && Balanced(s, o)
    ensures SplitsExact(Commit(s, id, ctx).0, o)
  {
    CommitShape(s, id, ctx);
    if Commit(s, id, ctx).1.ok {
      BalancedHere(s, o, id);
      SoundHere(s, id);
      CommitPosts(s, id, ctx);
      CommitSplitsAt(s, o, id, ctx);
    }
  }

  lemma CommitSplitsAt(s: State, o: Opening, id: Str, ctx: Authority)
    requires SplitsExact(s, o) && Commit(s, id, ctx).1.ok && LinkedAt(s, id) && BalancedAt(s, o, s.reservations[id])
    requires Posted(s, Commit(s, id, ctx).0, id, s.reservations[id].(state := Committed, commitEpoch := s.epoch))
    ensures SplitsExact(Commit(s, id, ctx).0, o)
  {
    var t, done := Commit(s, id, ctx).0, s.reservations[id].(state := Committed, commitEpoch := s.epoch);
    CommitShape(s, id, ctx);
    assert SplitExact(s, o, done.pool);
    BytesUpdate(s.reservations, id, done, CommittedIn(done.pool));
    PostedSplits(s, t, o, id, done);
  }

  lemma ReleaseSplits(s: State, o: Opening, id: Str, ctx: Authority)
    requires SplitsExact(s, o) && Balanced(s, o)
    ensures SplitsExact(Release(s, id, ctx).0, o) <==> !ReleaseTakesCommitted(s, id, ctx)
  {
    ReleaseShape(s, id, ctx);
    if Releasable(s, id, ctx) {
      BalancedHere(s, o, id);
      assert SplitExact(s, o, s.reservations[id].pool);
      ReleasePosts(s, o, id, ctx);
      SplitKeptIff(s, o, id, ctx);
      PostedSplits(s, Release(s, id, ctx).0, o, id, s.reservations[id].(state := Released));
    }
  }

  lemma ReservationSplits(s: State, o: Opening, c: ReservationCall)
    requires SplitsExact(s, o) && Balanced(s, o) && AdmissibleOnReservation(s, c)
    ensures SplitsExact(PerformOnReservation(s, c).0, o) <==> !TakesCommitted(s, OnReservation(c))
  {
    match c
    case ReserveCall(req, ctx) => ReserveSplits(s, o, req, ctx);
    case CommitCall(id, ctx) => CommitSplits(s, o, id, ctx);
    case ReleaseCall(id, ctx) => ReleaseSplits(s, o, id, ctx);
  }

  lemma RestoreSplits(s: State, o: Opening, ps: Persisted)
    ensures SplitsExact(Import(s, ps), NextOpening(s, o, Restore(ps)))
  {
    forall p | p in ps.pools ensures SplitExact(Import(s, ps), NextOpening(s, o, Restore(ps)), p) {
      NoneAtAll(CommittedIn(p));
    }
  }

  lemma SettingSplits(s: State, o: Opening, c: SettingCall)
    requires SplitsExact(s, o)
    ensures SplitsExact(ApplySetting(s, c), o)
  {
    SameSplits(s, ApplySetting(s, c), o, o);
  }

  lemma SplitStepIff(s: State, o: Opening, op: Op)
    requires SplitsExact(s, o) && Balanced(s, o) && Admissible(s, op)
    ensures SplitsExact(Apply(s, op), NextOpening(s, o, op)) <==> !TakesCommitted(s, op)
  {
    match op
    case Setting(c) => SettingSplits(s, o, c);
    case OnDevice(c) => DeviceSplits(s, o, c);
    case OnRegion(c) => RegionSplits(s, o, c);
    case OnPool(c) => PoolSplits(s, o, c);
    case OnReservation(c) => ReservationSplits(s, o, c);
    case Restore(ps) => RestoreSplits(s, o, ps);
  }

  // ---- whole runs ----

  ghost predicate SplitThroughout(s: State, o: Opening, ops: seq<Op>)
    decreases |ops|
  {
    SplitsExact(s, o) && (ops != [] ==> SplitThroughout(Apply(s, ops[0]), NextOpening(s, o, ops[0]), ops[1..]))
  }

  /** Some release of the run takes committed bytes for a reservation that held none. */
  ghost predicate TakesCommittedInRun(s: State, ops: seq<Op>)
    decreases |ops|
  {
    ops != [] && (TakesCommitted(s, ops[0]) || TakesCommittedInRun(Apply(s, ops[0]), ops[1..]))
  }

  /**
   * Over an admissible run every pool's split stays exact all the way exactly when no release takes a non-empty
   * reservation that is only reserved from a pool that has bytes committed.
   */
  lemma {:induction false} SplitKeptInRunIff(s: State, o: Opening, ops: seq<Op>)
    requires SplitsExact(s, o) && Balanced(s, o) && AdmissibleRun(s, ops)
    ensures SplitThroughout(s, o, ops) <==> !TakesCommittedInRun(s, ops)
    decreases |ops|
  {
    if ops != [] {
      Step(s, o, ops[0]);
      SplitStepIff(s, o, ops[0]);
      if !TakesCommitted(s, ops[0]) { SplitKeptInRunIff(Apply(s, ops[0]), NextOpening(s, o, ops[0]), ops[1..]); }
    }
  }
}
