/** Runs in which every pool stays within a regime: member sums in range, so that no used sum ever wraps. */
module Regimes {
  import opened Base
  import opened Records
  import opened Evaluation
  import opened Placement
  import opened Spec
  import opened Shapes
  import opened Books
  import opened Capacity
  import opened RegionBooks
  import opened Runs

  ghost predicate GuardedRun(g: Regime, s: State, ops: seq<Op>)
    decreases |ops|
  {
    ops != [] ==> Guarded(g, s, ops[0]) && GuardedRun(g, Apply(s, ops[0]), ops[1..])
  }

  lemma InRegimeAdds(g: Regime, p: Pool, bytes: u64)
    requires PoolInRegime(g, p) && 0 < bytes <= PoolFree(p)
    ensures SumFits(p, bytes)
  {
    FittingPoolNeverWraps(g, p);
  }

  /** In a regime every grant can be counted. */
  lemma RegimeAdds(g: Regime, s: State, req: Request, ctx: Authority)
    requires Filed(s) && PoolsInRegime(g, s)
    ensures GrantAdds(s, req, ctx)
  {
    forall c | Chosen(s, req, c) && 0 < req.bytes <= PoolFree(c.poolRecord)
      ensures SumFits(c.poolRecord, req.bytes)
    {
      SelectionSound(s.Snapshot(), req);
      DrawnFacts(s, c);
      InRegimeAdds(g, c.poolRecord, req.bytes);
    }
  }

  lemma ReserveInRegime(g: Regime, s: State, o: Opening, req: Request, ctx: Authority)
    requires Balanced(s, o) && PoolsInRegime(g, s)
    ensures PoolsInRegime(g, Reserve(s, req, ctx).0)
  {
    var c := ReserveShape(s, req, ctx);
    if Reserve(s, req, ctx).1.ok {
      RegionBound(s, o, c.region);
      BookKeepsFit(g, s, c, req, ctx);
    }
  }

  lemma ReservationCallInRegime(g: Regime, s: State, o: Opening, c: ReservationCall)
    requires Balanced(s, o) && PoolsInRegime(g, s)
    ensures PoolsInRegime(g, PerformOnReservation(s, c).0)
  {
    match c
    case ReserveCall(req, ctx) => ReserveInRegime(g, s, o, req, ctx);
    case CommitCall(id, ctx) =>
      PoolBounds(s, o);
      CommitKeepsFit(g, s, id, ctx);
    case ReleaseCall(id, ctx) => ReleaseKeepsFit(g, s, o, id, ctx);
  }

  lemma RestoreInRegime(g: Regime, s: State, ps: Persisted)
    requires forall p | p in ps.pools :: PoolInRegime(g, ps.pools[p])
    ensures PoolsInRegime(g, Import(s, ps))
  {}

  lemma DeviceCallInRegime(g: Regime, s: State, c: DeviceCall)
    requires PoolsInRegime(g, s)
    ensures PoolsInRegime(g, PerformOnDevice(s, c).0)
  {
    DeviceCallShape(s, c);
  }

  lemma RegionCallInRegime(g: Regime, s: State, c: RegionCall)
    requires PoolsInRegime(g, s)
    ensures PoolsInRegime(g, PerformOnRegion(s, c).0)
  {
    RegionCallShape(s, c);
  }

  lemma SettingInRegime(g: Regime, s: State, c: SettingCall)
    requires PoolsInRegime(g, s)
    ensures PoolsInRegime(g, ApplySetting(s, c))
  {}

  lemma StepInRegime(g: Regime, s: State, o: Opening, op: Op)
    requires Balanced(s, o) && PoolsInRegime(g, s) && Guarded(g, s, op)
    ensures PoolsInRegime(g, Apply(s, op))
  {
    match op
    case Setting(c) => SettingInRegime(g, s, c);
    case OnDevice(c) => DeviceCallInRegime(g, s, c);
    case OnRegion(c) => RegionCallInRegime(g, s, c);
    case OnPool(c) => PoolCallKeepsFit(g, s, c);
    case OnReservation(c) => ReservationCallInRegime(g, s, o, c);
    case Restore(ps) => RestoreInRegime(g, s, ps);
  }

  lemma GuardedIsAdmissible(g: Regime, s: State, op: Op)
    requires Filed(s) && PoolsInRegime(g, s) && Guarded(g, s, op)
    ensures Admissible(s, op)
  {
    if op.OnReservation? && op.reservation.ReserveCall? {
      RegimeAdds(g, s, op.reservation.req, op.reservation.ctx);
    }
  }

  /** A guarded run is admissible, and leaves every pool within the regime. */
  lemma {:induction false} RunInRegime(g: Regime, s: State, o: Opening, ops: seq<Op>)
    requires Balanced(s, o) && PoolsInRegime(g, s) && GuardedRun(g, s, ops)
    ensures AdmissibleRun(s, ops) && PoolsInRegime(g, Run(s, ops))
    decreases |ops|
  {
    if ops != [] {
      GuardedIsAdmissible(g, s, ops[0]);
      StepInRegime(g, s, o, ops[0]);
      Step(s, o, ops[0]);
      RunInRegime(g, Apply(s, ops[0]), NextOpening(s, o, ops[0]), ops[1..]);
    }
  }

  lemma RunFromStartInRegime(g: Regime, epoch: u64, policy: u64, ops: seq<Op>)
    requires GuardedRun(g, Initial(epoch, policy), ops)
    ensures AdmissibleRun(Initial(epoch, policy), ops) && PoolsInRegime(g, Run(Initial(epoch, policy), ops))
  {
    InitialBalanced(epoch, policy);
    RunInRegime(g, Initial(epoch, policy), NO_OPENING, ops);
  }
}
