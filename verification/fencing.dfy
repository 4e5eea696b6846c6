/** Generations, closed targets and spent reservation ids over whole runs. */
module Fencing {
  import opened Base
  import opened Records
  import opened Evaluation
  import opened Spec
  import opened Shapes
  import opened Books

  // ---- what never goes back ----

  /** The grant recorded by a reservation; only its state and commit epoch ever change. */
  predicate SameGrant(a: Reservation, b: Reservation) {
    a.(state := b.state, commitEpoch := b.commitEpoch) == b
  }

  predicate Progress(a: ResumeState, b: ResumeState) {
    a == b || (a.Reserved? && (b.Committed? || b.Released?)) || (a.Committed? && b.Released?)
  }

  ghost predicate DevicesAdvance(s: State, t: State) {
    forall d | d in s.devices :: d in t.devices && s.devices[d].generation <= t.devices[d].generation
  }

  ghost predicate RegionsAdvance(s: State, t: State) {
    forall r | r in s.regions :: r in t.regions && s.regions[r].generation <= t.regions[r].generation
  }

  ghost predicate PoolsAdvance(s: State, t: State) {
    forall p | p in s.pools :: p in t.pools && s.pools[p].generation <= t.pools[p].generation
  }

  ghost predicate ReservationsAdvance(s: State, t: State) {
    forall k | k in s.reservations ::
      && k in t.reservations && SameGrant(s.reservations[k], t.reservations[k])
      && Progress(s.reservations[k].state, t.reservations[k].state)
  }

  /** Records stay, generations never drop, grants stay fixed and their states only move forward. */
  ghost predicate Later(s: State, t: State) {
    DevicesAdvance(s, t) && RegionsAdvance(s, t) && PoolsAdvance(s, t) && ReservationsAdvance(s, t)
  }

  lemma LaterTransitive(s: State, t: State, u: State)
    requires Later(s, t) && Later(t, u)
    ensures Later(s, u)
  {
    assert DevicesAdvance(s, u) && RegionsAdvance(s, u) && PoolsAdvance(s, u);
    forall k | k in s.reservations ensures k in u.reservations
      && SameGrant(s.reservations[k], u.reservations[k])
      && Progress(s.reservations[k].state, u.reservations[k].state)
    {
      assert k in t.reservations;
    }
  }

  lemma DeviceCallLater(s: State, c: DeviceCall)
    ensures Later(s, PerformOnDevice(s, c).0)
  {
    DeviceCallShape(s, c);
  }

  lemma RegionCallLater(s: State, c: RegionCall)
    ensures Later(s, PerformOnRegion(s, c).0)
  {
    RegionCallShape(s, c);
  }

  lemma PoolCallLater(s: State, c: PoolCall)
    ensures Later(s, PerformOnPool(s, c).0)
  {
    PoolCallShape(s, c);
    if PerformOnPool(s, c).1 == OK && !c.NewPoolCall? { PoolAfterKeeps(s, c); }
  }

  lemma BookLater(s: State, c: Candidate, req: Request, ctx: Authority)
    requires Bookable(s, c, req)
    ensures Later(s, Book(s, c, req, ctx).0)
  {
    BookShape(s, c, req, ctx);
  }

  lemma CommitLater(s: State, id: Str, ctx: Authority)
    ensures Later(s, Commit(s, id, ctx).0)
  {
    CommitShape(s, id, ctx);
  }

  lemma DebitKeeps(s: State, id: Str, ctx: Authority)
    ensures var t := Release(s, id, ctx).0;
      && t.devices == s.devices && t.epoch == s.epoch && t.sequence == s.sequence
      && t.pools.Keys == s.pools.Keys && t.regions.Keys == s.regions.Keys
      && (forall p | p in s.pools ::
            t.pools[p] == s.pools[p].(reserved := t.pools[p].reserved, committed := t.pools[p].committed))
      && (forall r | r in s.regions ::
            t.regions[r] == s.regions[r].(reserved := t.regions[r].reserved, committed := t.regions[r].committed))
      && (t.reservations == s.reservations
          || (Releasable(s, id, ctx) && t.reservations == s.reservations[id := s.reservations[id].(state := Released)]))
  {}

  lemma ReleaseLater(s: State, id: Str, ctx: Authority)
    ensures Later(s, Release(s, id, ctx).0)
  {
    DebitKeeps(s, id, ctx);
  }

  lemma ReservationCallLater(s: State, c: ReservationCall)
    requires Filed(s)
    ensures Later(s, PerformOnReservation(s, c).0)
  {
    match c
    case ReserveCall(req, ctx) =>
      var chosen := ReserveShape(s, req, ctx);
      if Reserve(s, req, ctx).1.ok { BookLater(s, chosen, req, ctx); }
    case CommitCall(id, ctx) => CommitLater(s, id, ctx);
    case ReleaseCall(id, ctx) => ReleaseLater(s, id, ctx);
  }

  lemma SettingLater(s: State, c: SettingCall)
    ensures Later(s, ApplySetting(s, c))
  {}

  lemma StepLater(s: State, op: Op)
    requires Filed(s) && !op.Restore?
    ensures Later(s, Apply(s, op))
  {
    match op
    case Setting(c) => SettingLater(s, c);
    case OnDevice(c) => DeviceCallLater(s, c);
    case OnRegion(c) => RegionCallLater(s, c);
    case OnPool(c) => PoolCallLater(s, c);
    case OnReservation(c) => ReservationCallLater(s, c);
  }

  // ---- filing survives every call ----

  lemma PoolCallFiled(s: State, c: PoolCall)
    requires Filed(s)
    ensures Filed(PerformOnPool(s, c).0)
  {
    PoolCallShape(s, c);
    if PerformOnPool(s, c).1 == OK && !c.NewPoolCall? { PoolAfterKeeps(s, c); }
  }

  lemma RegionCallFiled(s: State, c: RegionCall)
    requires Filed(s)
    ensures Filed(PerformOnRegion(s, c).0)
  {
    RegionCallShape(s, c);
  }

  lemma DeviceCallFiled(s: State, c: DeviceCall)
    requires Filed(s)
    ensures Filed(PerformOnDevice(s, c).0)
  {
    DeviceCallShape(s, c);
  }

  lemma BookFiled(s: State, c: Candidate, req: Request, ctx: Authority)
    requires Filed(s) && Bookable(s, c, req)
    ensures Filed(Book(s, c, req, ctx).0)
  {
    BookShape(s, c, req, ctx);
  }

  lemma CommitFiled(s: State, id: Str, ctx: Authority)
    requires Filed(s)
    ensures Filed(Commit(s, id, ctx).0)
  {
    CommitShape(s, id, ctx);
  }

  lemma ReleaseFiled(s: State, id: Str, ctx: Authority)
    requires Filed(s)
    ensures Filed(Release(s, id, ctx).0)
  {
    DebitKeeps(s, id, ctx);
  }

  lemma ReservationCallFiled(s: State, c: ReservationCall)
    requires Filed(s)
    ensures Filed(PerformOnReservation(s, c).0)
  {
    match c
    case ReserveCall(req, ctx) =>
      var chosen := ReserveShape(s, req, ctx);
      if Reserve(s, req, ctx).1.ok { BookFiled(s, chosen, req, ctx); }
    case CommitCall(id, ctx) => CommitFiled(s, id, ctx);
    case ReleaseCall(id, ctx) => ReleaseFiled(s, id, ctx);
  }

  /** An imported snapshot files its records by id, as export and the parser do. */
  ghost predicate WellFiled(op: Op) {
    op.Restore? ==> FiledById(op.ps.devices, op.ps.regions, op.ps.pools)
  }

  lemma SettingFiled(s: State, c: SettingCall)
    requires Filed(s)
    ensures Filed(ApplySetting(s, c))
  {}

  lemma RestoreFiled(s: State, ps: Persisted)
    requires FiledById(ps.devices, ps.regions, ps.pools)
    ensures Filed(Import(s, ps))
  {}

  lemma StepFiled(s: State, op: Op)
    requires Filed(s) && WellFiled(op)
    ensures Filed(Apply(s, op))
  {
    match op
    case Setting(c) => SettingFiled(s, c);
    case OnDevice(c) => DeviceCallFiled(s, c);
    case OnRegion(c) => RegionCallFiled(s, c);
    case OnPool(c) => PoolCallFiled(s, c);
    case OnReservation(c) => ReservationCallFiled(s, c);
    case Restore(ps) => RestoreFiled(s, ps);
  }

  ghost predicate NoRestore(ops: seq<Op>) {
    forall i | 0 <= i < |ops| :: !ops[i].Restore?
  }

  /** Over any run without an import, nothing in Later goes back. */
  lemma {:induction false} RunLater(s: State, ops: seq<Op>)
    requires Filed(s) && NoRestore(ops)
    ensures Later(s, Run(s, ops)) && Filed(Run(s, ops))
    decreases |ops|
  {
    if ops != [] {
      assert !ops[0].Restore?;
      StepLater(s, ops[0]);
      StepFiled(s, ops[0]);
      RunLater(Apply(s, ops[0]), ops[1..]);
      LaterTransitive(s, Apply(s, ops[0]), Run(s, ops));
    }
  }

  // ---- stale reservations ----

  /** Every reservation names registered records and was granted at their current or an earlier generation. */
  ghost predicate Dated(s: State) {
    forall k | k in s.reservations :: DatedAt(s, s.reservations[k])
  }

  ghost predicate DatedAt(s: State, res: Reservation) {
    && res.pool in s.pools && res.poolGeneration <= s.pools[res.pool].generation
    && res.region in s.regions && res.regionGeneration <= s.regions[res.region].generation
    && res.device in s.devices && res.deviceGeneration <= s.devices[res.device].generation
  }

  lemma LaterDated(s: State, t: State, res: Reservation)
    requires Later(s, t) && DatedAt(s, res)
    ensures DatedAt(t, res)
  {}

  lemma StepDated(s: State, op: Op)
    requires Filed(s) && Dated(s) && WellFiled(op)
    ensures Dated(Apply(s, op))
  {
    if op.Restore? { return; }
    StepLater(s, op);
    forall k | k in Apply(s, op).reservations ensures DatedAt(Apply(s, op), Apply(s, op).reservations[k]) {
      if k in s.reservations {
        LaterDated(s, Apply(s, op), s.reservations[k]);
      } else {
        NewcomerDated(s, op, k);
      }
    }
  }

  /** A reservation that a step adds was just booked by a reserve. */
  lemma Newcomer(s: State, op: Op, k: Str) returns (c: Candidate)
    requires Filed(s) && k !in s.reservations && k in Apply(s, op).reservations
    ensures op.OnReservation? && op.reservation.ReserveCall? && k == NewId(s)
    ensures Bookable(s, c, op.reservation.req)
    ensures Apply(s, op) == Book(s, c, op.reservation.req, op.reservation.ctx).0
    ensures Apply(s, op).reservations[k] == Captured(s, c, op.reservation.req, op.reservation.ctx, k)
  {
    if op.OnReservation? { c := ReservationNewcomer(s, op.reservation, k); } else { OthersAddNone(s, op); }
  }

  lemma PoolCallAddsNone(s: State, c: PoolCall)
    ensures PerformOnPool(s, c).0.reservations == s.reservations
  {
    PoolCallShape(s, c);
  }

  lemma RegionCallAddsNone(s: State, c: RegionCall)
    ensures PerformOnRegion(s, c).0.reservations == s.reservations
  {
    RegionCallShape(s, c);
  }

  lemma DeviceCallAddsNone(s: State, c: DeviceCall)
    ensures PerformOnDevice(s, c).0.reservations == s.reservations
  {
    DeviceCallShape(s, c);
  }

  lemma OthersAddNone(s: State, op: Op)
    requires !op.OnReservation?
    ensures Apply(s, op).reservations.Keys <= s.reservations.Keys
  {
    match op
    case OnDevice(c) => DeviceCallAddsNone(s, c);
    case OnRegion(c) => RegionCallAddsNone(s, c);
    case OnPool(c) => PoolCallAddsNone(s, c);
    case _ =>
  }

  lemma ReservationNewcomer(s: State, call: ReservationCall, k: Str) returns (c: Candidate)
    requires Filed(s) && k !in s.reservations && k in PerformOnReservation(s, call).0.reservations
    ensures call.ReserveCall? && k == NewId(s) && Bookable(s, c, call.req)
    ensures PerformOnReservation(s, call).0 == Book(s, c, call.req, call.ctx).0
    ensures PerformOnReservation(s, call).0.reservations[k] == Captured(s, c, call.req, call.ctx, k)
  {
    match call
    case ReserveCall(req, ctx) =>
      c := ReserveShape(s, req, ctx);
      if Reserve(s, req, ctx).1.ok { BookShape(s, c, req, ctx); }
    case CommitCall(id, ctx) => CommitShape(s, id, ctx);
    case ReleaseCall(id, ctx) => ReleaseAddsNone(s, id, ctx);
  }

  lemma ReleaseAddsNone(s: State, id: Str, ctx: Authority)
    ensures Release(s, id, ctx).0.reservations.Keys == s.reservations.Keys
  {}

  lemma NewcomerDated(s: State, op: Op, k: Str)
    requires Filed(s) && k !in s.reservations && k in Apply(s, op).reservations && !op.Restore?
    ensures DatedAt(Apply(s, op), Apply(s, op).reservations[k])
  {
    var c := Newcomer(s, op, k);
    BookShape(s, c, op.reservation.req, op.reservation.ctx);
  }

  /** Some record the reservation was granted on has moved to a newer generation. */
  predicate Stale(s: State, res: Reservation) {
    || (res.pool in s.pools && res.poolGeneration < s.pools[res.pool].generation)
    || (res.region in s.regions && res.regionGeneration < s.regions[res.region].generation)
    || (res.device in s.devices && res.deviceGeneration < s.devices[res.device].generation)
  }

  lemma LaterStale(s: State, t: State, res: Reservation)
    requires Later(s, t) && Stale(s, res)
    ensures Stale(t, res)
  {}

  lemma StaleCannotCommit(s: State, id: Str, ctx: Authority)
    requires id in s.reservations && Stale(s, s.reservations[id])
    ensures !Commit(s, id, ctx).1.ok
  {
    CommitShape(s, id, ctx);
  }

  /** A stale reservation is never committed in any later state of a run without an import. */
  lemma StaleForever(s: State, ops: seq<Op>, id: Str, ctx: Authority)
    requires Filed(s) && NoRestore(ops)
    requires id in s.reservations && Stale(s, s.reservations[id])
    ensures !Commit(Run(s, ops), id, ctx).1.ok
  {
    var t := Run(s, ops);
    RunLater(s, ops);
    LaterStale(s, t, s.reservations[id]);
    assert Stale(t, t.reservations[id]);
    StaleCannotCommit(t, id, ctx);
  }

  /** Calls that move a record of the reservation to a newer generation. */
  ghost predicate Supersedes(s: State, op: Op, res: Reservation) {
    match op
    case OnPool(c) =>
      (c.AddMemberCall? || c.RemoveMemberCall?) && c.id == res.pool && c.id in s.pools &&
      s.pools[c.id].generation < GENERATION_MAX
    case OnRegion(c) => RegionKey(c) == res.region && (c.ReconfigureCall? || NewerRegion(s, c))
    case OnDevice(c) =>
      c.RegisterCall? && c.dev.id == res.device && c.dev.id in s.devices &&
      s.devices[c.dev.id].generation < c.dev.generation
    case _ => false
  }

  predicate NewerRegion(s: State, c: RegionCall) {
    c.ReplaceRegionCall? && c.region.id in s.regions && s.regions[c.region.id].generation < c.region.generation
  }

  lemma SupersededIsStale(s: State, op: Op, id: Str)
    requires Dated(s) && id in s.reservations && Supersedes(s, op, s.reservations[id]) && Perform(s, op).1
    ensures Stale(Apply(s, op), s.reservations[id])
  {
    assert DatedAt(s, s.reservations[id]);
    match op
    case OnPool(c) =>
      PoolCallShape(s, c);
      PoolAfterKeeps(s, c);
    case OnRegion(c) => RegionCallShape(s, c);
    case OnDevice(c) => DeviceCallShape(s, c);
    case _ =>
  }

  /**
   * After a successful membership change, reconfiguration or newer device generation, no reservation granted
   * earlier on that pool, region or device is ever committed, whatever the run does short of an import.
   */
  lemma SupersededNeverCommits(s: State, op: Op, ops: seq<Op>, id: Str, ctx: Authority)
    requires Filed(s) && Dated(s) && id in s.reservations && NoRestore(ops)
    requires Supersedes(s, op, s.reservations[id]) && Perform(s, op).1
    ensures !Commit(Run(Apply(s, op), ops), id, ctx).1.ok
  {
    var t := Apply(s, op);
    StepLater(s, op);
    StepFiled(s, op);
    SupersededIsStale(s, op, id);
    assert Stale(t, t.reservations[id]);
    StaleForever(t, ops, id, ctx);
  }

  /** A membership change fences a committable reservation exactly when a next generation exists. */
  lemma MembershipFencesIff(s: State, c: PoolCall, id: Str, ctx: Authority)
    requires c.AddMemberCall? || c.RemoveMemberCall?
    requires PerformOnPool(s, c).1 == OK && Committable(s, id, ctx) && s.reservations[id].pool == c.id
    ensures Committable(PerformOnPool(s, c).0, id, ctx) <==> s.pools[c.id].generation >= GENERATION_MAX
  {
    PoolCallShape(s, c);
    PoolAfterKeeps(s, c);
  }

  /** Filing and dating hold in every state a new engine can reach. */
  lemma {:induction false} RunDated(s: State, ops: seq<Op>)
    requires Filed(s) && Dated(s) && forall i | 0 <= i < |ops| :: WellFiled(ops[i])
    ensures Filed(Run(s, ops)) && Dated(Run(s, ops))
    decreases |ops|
  {
    if ops != [] {
      assert WellFiled(ops[0]);
      StepFiled(s, ops[0]);
      StepDated(s, ops[0]);
      RunDated(Apply(s, ops[0]), ops[1..]);
    }
  }
}
