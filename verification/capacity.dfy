/** Member sums, pools that fit their governed totals, and the global line. */
module Capacity {
  import opened Base
  import opened Order
  import opened Sums
  import opened Records
  import opened Evaluation
  import opened Ledger
  import opened Spec
  import opened Shapes
  import opened Books

  const HALF: int := 0x7FFF_FFFF_FFFF_FFFF

  /** The true sums that the recomputation loop approximates. */
  function OnlineSum(ms: seq<PoolMember>): nat {
    if ms == [] then 0
    else OnlineSum(ms[..|ms| - 1]) + if ms[|ms| - 1].online then ms[|ms| - 1].nominalBytes else 0
  }

  function UnhealthySum(ms: seq<PoolMember>): nat {
    if ms == [] then 0
    else
      var m := ms[|ms| - 1];
      UnhealthySum(ms[..|ms| - 1]) + if m.online && !m.healthOk then m.nominalBytes else 0
  }

  lemma {:induction false} UnhealthyWithinOnline(ms: seq<PoolMember>)
    ensures UnhealthySum(ms) <= OnlineSum(ms)
  {
    if ms != [] { UnhealthyWithinOnline(ms[..|ms| - 1]); }
  }

  /** While the true sum fits, no member is skipped. */
  lemma {:induction false} TotalsExact(ms: seq<PoolMember>)
    requires OnlineSum(ms) <= U64_MAX
    ensures GovernedTotal(ms) == OnlineSum(ms) && UnavailableTotal(ms) == UnhealthySum(ms)
  {
    if ms != [] {
      TotalsExact(ms[..|ms| - 1]);
      UnhealthyWithinOnline(ms);
      UnhealthyWithinOnline(ms[..|ms| - 1]);
    }
  }

  lemma SumsExtend(ms: seq<PoolMember>, m: PoolMember)
    ensures OnlineSum(ms + [m]) == OnlineSum(ms) + if m.online then m.nominalBytes else 0
    ensures UnhealthySum(ms + [m]) == UnhealthySum(ms) + if m.online && !m.healthOk then m.nominalBytes else 0
  {
    assert (ms + [m])[..|ms|] == ms;
  }

  lemma {:induction false} SumsConcat(a: seq<PoolMember>, b: seq<PoolMember>)
    ensures OnlineSum(a + b) == OnlineSum(a) + OnlineSum(b)
  {
    if b == [] {
      assert a + b == a;
    } else {
      var n := |b| - 1;
      SumsConcat(a, b[..n]);
      SumsExtend(a + b[..n], b[n]);
      assert a + b == a + b[..n] + [b[n]];
    }
  }

  lemma {:induction false} WithoutShrinks(ms: seq<PoolMember>, device: Str)
    ensures OnlineSum(Without(ms, device)) <= OnlineSum(ms)
  {
    if ms != [] {
      SumsConcat(ms[..1], ms[1..]);
      assert ms == ms[..1] + ms[1..];
      if ms[0].device != device {
        WithoutShrinks(ms[1..], device);
        SumsConcat([ms[0]], Without(ms[1..], device));
        assert [ms[0]] == ms[..1];
      }
    }
  }

  // ---- two regimes in which the free counts never wrap ----

  /** Either members may be removed and sums stay under 2^63, or nothing is removed and sums fit 64 bits. */
  datatype Regime = Removals | NoRemovals

  predicate Exact(p: Pool) {
    p.totalGoverned == OnlineSum(p.members) && p.unavailable == UnhealthySum(p.members)
  }

  predicate Room(g: Regime, ms: seq<PoolMember>, used: nat) {
    match g
    case Removals => OnlineSum(ms) <= HALF && used <= HALF + 1
    case NoRemovals => OnlineSum(ms) <= U64_MAX && UnhealthySum(ms) + used <= OnlineSum(ms)
  }

  predicate PoolInRegime(g: Regime, p: Pool) {
    Exact(p) && Room(g, p.members, p.reserved + p.committed + p.draining)
  }

  ghost predicate PoolsInRegime(g: Regime, s: State) {
    forall p | p in s.pools :: PoolInRegime(g, s.pools[p])
  }

  lemma FittingPoolNeverWraps(g: Regime, p: Pool)
    requires PoolInRegime(g, p)
    ensures UsedFits(p)
  {
    UnhealthyWithinOnline(p.members);
  }

  function MemberBytes(m: PoolMember): nat {
    if m.online then m.nominalBytes else 0
  }

  /** What a caller checks before a pool call so that the regime holds on. */
  ghost predicate PoolCallFits(g: Regime, s: State, c: PoolCall) {
    match c
    case NewPoolCall(pool, _) => Room(g, pool.members, pool.reserved + pool.committed + pool.draining)
    case AddMemberCall(id, m, _) =>
      id in s.pools ==>
        OnlineSum(s.pools[id].members) + MemberBytes(m) <= if g.Removals? then HALF else U64_MAX
    case RemoveMemberCall(_, _, _) => g.Removals?
    case _ => true
  }

  ghost predicate Guarded(g: Regime, s: State, op: Op) {
    && Sensible(s, op)
    && (op.OnPool? ==> PoolCallFits(g, s, op.pool))
    && (op.Restore? ==> forall p | p in op.ps.pools :: PoolInRegime(g, op.ps.pools[p]))
  }

  lemma PoolAfterFits(g: Regime, s: State, c: PoolCall)
    requires c.NewPoolCall? || c.id in s.pools
    requires !c.NewPoolCall? ==> PoolInRegime(g, s.pools[c.id])
    requires PoolCallFits(g, s, c)
    ensures PoolInRegime(g, PoolAfter(s, c))
  {
    match c
    case NewPoolCall(pool, _) => TotalsExact(pool.members);
    case AddMemberCall(id, m, _) =>
      SumsExtend(s.pools[id].members, m);
      TotalsExact(s.pools[id].members + [m]);
    case RemoveMemberCall(id, device, _) =>
      WithoutShrinks(s.pools[id].members, device);
      TotalsExact(Without(s.pools[id].members, device));
    case DrainPoolCall(id, _) =>
    case ReconcileCall(id, _) => TotalsExact(s.pools[id].members);
    case RevalidatePoolCall(id, _) => TotalsExact(s.pools[id].members);
  }

  lemma PoolCallKeepsFit(g: Regime, s: State, c: PoolCall)
    requires PoolsInRegime(g, s) && PoolCallFits(g, s, c)
    ensures PoolsInRegime(g, PerformOnPool(s, c).0)
  {
    PoolCallShape(s, c);
    if PerformOnPool(s, c).1 == OK { PoolAfterFits(g, s, c); }
  }

  lemma CreditFits(g: Regime, p: Pool, bytes: u64)
    requires PoolInRegime(g, p) && p.unavailable + p.reserved + p.committed + p.draining + bytes <= p.totalGoverned
    ensures PoolInRegime(g, CreditPool(p, bytes))
  {}

  lemma SettleFits(g: Regime, p: Pool, bytes: u64)
    requires PoolInRegime(g, p) && bytes <= p.reserved && p.reserved + p.committed <= U64_MAX
    ensures PoolInRegime(g, SettlePool(p, bytes))
  {}

  lemma DebitFits(g: Regime, p: Pool, bytes: u64)
    requires PoolInRegime(g, p)
    ensures PoolInRegime(g, DebitPool(p, bytes))
  {}

  lemma BookKeepsFit(g: Regime, s: State, c: Candidate, req: Request, ctx: Authority)
    requires PoolsInRegime(g, s) && Bookable(s, c, req)
    requires s.regions[c.region].reserved + s.regions[c.region].committed <= U64_MAX
    ensures PoolsInRegime(g, Book(s, c, req, ctx).0)
  {
    FittingPoolNeverWraps(g, s.pools[c.pool]);
    GrantFits(s, c, req);
    CreditFits(g, s.pools[c.pool], req.bytes);
    BookShape(s, c, req, ctx);
  }

  lemma CommitKeepsFit(g: Regime, s: State, id: Str, ctx: Authority)
    requires PoolsInRegime(g, s)
    requires forall p | p in s.pools :: s.pools[p].reserved + s.pools[p].committed <= U64_MAX
    ensures PoolsInRegime(g, Commit(s, id, ctx).0)
  {
    CommitShape(s, id, ctx);
    if Commit(s, id, ctx).1.ok {
      SettleFits(g, s.pools[s.reservations[id].pool], s.reservations[id].bytes);
    }
  }

  lemma ReleaseKeepsFit(g: Regime, s: State, o: Opening, id: Str, ctx: Authority)
    requires Balanced(s, o) && PoolsInRegime(g, s)
    ensures PoolsInRegime(g, Release(s, id, ctx).0)
  {
    ReleaseShape(s, id, ctx);
    if Releasable(s, id, ctx) {
      BalancedHere(s, o, id);
      ReleasePosts(s, o, id, ctx);
      DebitFits(g, s.pools[s.reservations[id].pool], s.reservations[id].bytes);
    }
  }

  // ---- the global line ----

  datatype Field = TotalField | UnavailableField | ReservedField | CommittedField | DrainingField

  function FieldOf(f: Field, p: Pool): nat {
    if p.state.PoolRetired? then 0
    else
      match f
      case TotalField => p.totalGoverned
      case UnavailableField => p.unavailable
      case ReservedField => p.reserved
      case CommittedField => p.committed
      case DrainingField => p.draining
  }

  ghost function FieldWeights(pools: map<Str, Pool>, f: Field): map<Str, nat> {
    map k | k in pools :: FieldOf(f, pools[k])
  }

  ghost function FieldSum(pools: map<Str, Pool>, f: Field): nat {
    Sum(FieldWeights(pools, f))
  }

  ghost predicate GlobalSumsFit(pools: map<Str, Pool>) {
    forall f: Field :: FieldSum(pools, f) <= U64_MAX
  }

  /** The line whose every field is the sum of that field over all pools. */
  ghost predicate IsSumLine(line: CapacityLine, pools: map<Str, Pool>) {
    && line.total == line.online == FieldSum(pools, TotalField)
    && line.unavailable == FieldSum(pools, UnavailableField)
    && line.reserved == FieldSum(pools, ReservedField)
    && line.committed == FieldSum(pools, CommittedField)
    && line.draining == FieldSum(pools, DrainingField)
  }

  ghost function FieldAlong(pools: map<Str, Pool>, keys: seq<Str>, f: Field): nat
    requires forall k | k in keys :: k in pools
  {
    SumAlong(keys, FieldWeights(pools, f))
  }

  lemma FieldAlongStep(pools: map<Str, Pool>, keys: seq<Str>, f: Field)
    requires keys != [] && forall k | k in keys :: k in pools
    ensures FieldAlong(pools, keys, f) ==
      FieldAlong(pools, keys[..|keys| - 1], f) + FieldOf(f, pools[keys[|keys| - 1]])
  {}

  /** Both loops add up the same fields as long as no prefix overflows. */
  lemma {:induction false} LinesAlong(pools: map<Str, Pool>, keys: seq<Str>)
    requires forall k | k in keys :: k in pools
    requires forall f: Field :: FieldAlong(pools, keys, f) <= U64_MAX
    ensures LineAlong(pools, keys) == AuditLineAlong(pools, keys)
    ensures var g := LineAlong(pools, keys);
      && g.total == g.online == FieldAlong(pools, keys, TotalField)
      && g.unavailable == FieldAlong(pools, keys, UnavailableField)
      && g.reserved == FieldAlong(pools, keys, ReservedField)
      && g.committed == FieldAlong(pools, keys, CommittedField)
      && g.draining == FieldAlong(pools, keys, DrainingField)
  {
    if keys != [] {
      var init := keys[..|keys| - 1];
      forall f: Field ensures FieldAlong(pools, init, f) <= U64_MAX {
        FieldAlongStep(pools, keys, f);
      }
      LinesAlong(pools, init);
      FieldAlongStep(pools, keys, TotalField);
      FieldAlongStep(pools, keys, UnavailableField);
      FieldAlongStep(pools, keys, ReservedField);
      FieldAlongStep(pools, keys, CommittedField);
      FieldAlongStep(pools, keys, DrainingField);
      AddPoolExact(LineAlong(pools, init), pools[keys[|keys| - 1]]);
    }
  }

  lemma AddPoolExact(g: CapacityLine, p: Pool)
    requires g.total == g.online
    requires g.total + FieldOf(TotalField, p) <= U64_MAX && g.unavailable + FieldOf(UnavailableField, p) <= U64_MAX
    requires g.reserved + FieldOf(ReservedField, p) <= U64_MAX && g.committed + FieldOf(CommittedField, p) <= U64_MAX
    requires g.draining + FieldOf(DrainingField, p) <= U64_MAX
    ensures AddPool(g, p) == AuditPool(g, p) == CapacityLine(
      g.total + FieldOf(TotalField, p), g.online + FieldOf(TotalField, p),
      g.unavailable + FieldOf(UnavailableField, p), g.reserved + FieldOf(ReservedField, p),
      g.committed + FieldOf(CommittedField, p), g.draining + FieldOf(DrainingField, p))
  {}

  lemma FieldAlongIsSum(pools: map<Str, Pool>, f: Field)
    ensures forall k | k in SortedKeys(pools.Keys) :: k in pools
    ensures FieldAlong(pools, SortedKeys(pools.Keys), f) == FieldSum(pools, f)
  {
    var keys := SortedKeys(pools.Keys);
    SortedKeysCover(pools.Keys);
    SortedKeysAscend(pools.Keys);
    forall i, j | 0 <= i < j < |keys| ensures keys[i] != keys[j] {
      LexTrichotomy(keys[i], keys[j]);
    }
    SumOfListing(keys, FieldWeights(pools, f));
  }

  /** While the global sums fit, the recomputed line, the audited line and the true sums agree. */
  lemma GlobalLineIsSum(pools: map<Str, Pool>)
    requires GlobalSumsFit(pools)
    ensures GlobalLine(pools) == AuditLine(pools) && IsSumLine(GlobalLine(pools), pools)
  {
    var keys := SortedKeys(pools.Keys);
    SortedKeysCover(pools.Keys);
    forall f: Field ensures FieldAlong(pools, keys, f) == FieldSum(pools, f) {
      FieldAlongIsSum(pools, f);
    }
    LinesAlong(pools, keys);
  }

  // ---- the cache and the audit ----

  ghost predicate CacheFresh(s: State) {
    s.ledger == GlobalLine(s.pools) && forall p | p in s.pools :: !s.pools[p].state.PoolRetired?
  }

  lemma {:induction false} OverusedNone(pools: map<Str, Pool>, keys: seq<Str>)
    requires forall k | k in keys :: k in pools && PoolUsed(pools[k]) <= pools[k].totalGoverned
    ensures OverusedAlong(pools, keys) == []
  {
    if keys != [] { OverusedNone(pools, keys[..|keys| - 1]); }
  }

  lemma FieldsWithinTotal(p: Pool)
    requires PoolInRegime(NoRemovals, p)
    ensures FieldOf(UnavailableField, p) + FieldOf(ReservedField, p) + FieldOf(CommittedField, p) +
            FieldOf(DrainingField, p) <= FieldOf(TotalField, p)
    ensures PoolUsed(p) <= p.totalGoverned
  {}

  lemma UsedWithinTotal(pools: map<Str, Pool>)
    requires forall k | k in pools :: PoolInRegime(NoRemovals, pools[k])
    ensures FieldSum(pools, UnavailableField) + FieldSum(pools, ReservedField) +
            FieldSum(pools, CommittedField) + FieldSum(pools, DrainingField) <= FieldSum(pools, TotalField)
  {
    var total := FieldWeights(pools, TotalField);
    var u, r := FieldWeights(pools, UnavailableField), FieldWeights(pools, ReservedField);
    var c, d := FieldWeights(pools, CommittedField), FieldWeights(pools, DrainingField);
    forall k | k in pools ensures u[k] + r[k] + c[k] + d[k] <= total[k] {
      FieldsWithinTotal(pools[k]);
    }
    FourSums(u, r, c, d, total);
  }

  lemma FourSums(u: map<Str, nat>, r: map<Str, nat>, c: map<Str, nat>, d: map<Str, nat>, total: map<Str, nat>)
    requires u.Keys == r.Keys == c.Keys == d.Keys == total.Keys
    requires forall k | k in total :: u[k] + r[k] + c[k] + d[k] <= total[k]
    ensures Sum(u) + Sum(r) + Sum(c) + Sum(d) <= Sum(total)
  {
    var ur := map k | k in total :: u[k] + r[k];
    var cd := map k | k in total :: c[k] + d[k];
    var all := map k | k in total :: ur[k] + cd[k];
    SumPlus(u, r, ur);
    SumPlus(c, d, cd);
    SumPlus(ur, cd, all);
    SumPointwise(all, total);
  }

  lemma SumLineAudits(line: CapacityLine)
    requires line.online == line.total
    requires line.unavailable + line.reserved + line.committed + line.draining <= line.total
    ensures line.Audit()
  {}

  lemma NoneOverused(pools: map<Str, Pool>)
    requires forall k | k in pools :: PoolInRegime(NoRemovals, pools[k])
    ensures Overused(pools) == []
  {
    SortedKeysCover(pools.Keys);
    forall k | k in pools ensures PoolUsed(pools[k]) <= pools[k].totalGoverned {
      FieldsWithinTotal(pools[k]);
    }
    OverusedNone(pools, SortedKeys(pools.Keys));
  }

  lemma GrandTotalBounds(pools: map<Str, Pool>)
    requires FieldSum(pools, UnavailableField) + FieldSum(pools, ReservedField) +
             FieldSum(pools, CommittedField) + FieldSum(pools, DrainingField) <= FieldSum(pools, TotalField)
    requires FieldSum(pools, TotalField) <= U64_MAX
    ensures GlobalSumsFit(pools)
  {
    forall f: Field ensures FieldSum(pools, f) <= U64_MAX {
      match f
      case TotalField =>
      case UnavailableField =>
      case ReservedField =>
      case CommittedField =>
      case DrainingField =>
    }
  }

  lemma LineAudits(pools: map<Str, Pool>)
    requires forall k | k in pools :: PoolInRegime(NoRemovals, pools[k])
    requires FieldSum(pools, TotalField) <= U64_MAX
    ensures AuditLine(pools).Audit()
  {
    UsedWithinTotal(pools);
    GrandTotalBounds(pools);
    GlobalLineIsSum(pools);
    SumLineAudits(AuditLine(pools));
  }

  /** When every pool is within its total and the grand total fits, the audit reports ok. */
  lemma AuditReportsOk(pools: map<Str, Pool>)
    requires forall k | k in pools :: PoolInRegime(NoRemovals, pools[k])
    requires FieldSum(pools, TotalField) <= U64_MAX
    ensures AuditOf(pools).ok
  {
    LineAudits(pools);
    NoneOverused(pools);
  }
}
