/** Who governs which device: every device at most once, in at most one pool. */
module Membership {
  import opened Base
  import Order
  import opened Sums
  import opened Records
  import opened Spec
  import opened Shapes
  import opened Books
  import opened Capacity
  import opened Runs
  import opened Regimes
  import opened Fencing

  ghost predicate Distinct(ms: seq<PoolMember>) {
    forall i, j | 0 <= i < j < |ms| :: ms[i].device != ms[j].device
  }

  ghost predicate Apart(a: seq<PoolMember>, b: seq<PoolMember>) {
    forall i, j | 0 <= i < |a| && 0 <= j < |b| :: a[i].device != b[j].device
  }

  /** No device is listed twice, neither in one pool nor in two. */
  ghost predicate Exclusive(pools: map<Str, Pool>) {
    && (forall p | p in pools :: Distinct(pools[p].members))
    && (forall p, q | p in pools && q in pools && p != q :: Apart(pools[p].members, pools[q].members))
  }

  lemma {:induction false} NewMembersApart(s: State, ms: seq<PoolMember>, n: nat)
    requires n <= |ms| && PoolVerdict(s, ms, n) == OK
    ensures forall i | n <= i < |ms| :: !IsMember(ms[..i], ms[i].device) && !Governed(s.pools, ms[i].device)
    decreases |ms| - n
  {
    if n < |ms| { NewMembersApart(s, ms, n + 1); }
  }

  lemma NewPoolExclusive(s: State, ms: seq<PoolMember>)
    requires PoolVerdict(s, ms, 0) == OK
    ensures Distinct(ms) && forall q | q in s.pools :: Apart(ms, s.pools[q].members) && Apart(s.pools[q].members, ms)
  {
    NewMembersApart(s, ms, 0);
    forall i, j | 0 <= i < j < |ms| ensures ms[i].device != ms[j].device {
      assert ms[..j][i] == ms[i];
    }
    forall q, i, j | q in s.pools && 0 <= i < |ms| && 0 <= j < |s.pools[q].members|
      ensures ms[i].device != s.pools[q].members[j].device
    {
      if ms[i].device == s.pools[q].members[j].device {
        assert IsMember(s.pools[q].members, ms[i].device);
      }
    }
  }

  /** Replacing one pool's members keeps exclusivity when the new list is distinct and apart from the rest. */
  lemma ReplaceExclusive(pools: map<Str, Pool>, k: Str, p: Pool)
    requires Exclusive(pools) && Distinct(p.members)
    requires forall q | q in pools && q != k :: Apart(p.members, pools[q].members)
    ensures Exclusive(pools[k := p])
  {
    forall q | q in pools && q != k ensures Apart(pools[q].members, p.members) {
      assert Apart(p.members, pools[q].members);
    }
  }

  lemma AddedApart(s: State, id: Str, m: PoolMember)
    requires Exclusive(s.pools) && id in s.pools
    requires !IsMember(s.pools[id].members, m.device) && !Governed(s.pools - {id}, m.device)
    ensures Distinct(s.pools[id].members + [m])
    ensures forall q | q in s.pools && q != id :: Apart(s.pools[id].members + [m], s.pools[q].members)
  {
    var ms := s.pools[id].members;
    forall q | q in s.pools && q != id ensures Apart(ms + [m], s.pools[q].members) {
      assert Apart(ms, s.pools[q].members);
      assert q in s.pools - {id} && !IsMember((s.pools - {id})[q].members, m.device);
    }
  }

  lemma {:induction false} WithoutIsSubset(ms: seq<PoolMember>, device: Str)
    requires Distinct(ms)
    ensures Distinct(Without(ms, device))
    ensures forall i | 0 <= i < |Without(ms, device)| :: Without(ms, device)[i] in ms
  {
    if ms != [] && ms[0].device != device {
      WithoutIsSubset(ms[1..], device);
    }
  }

  lemma RemovedApart(s: State, id: Str, device: Str)
    requires Exclusive(s.pools) && id in s.pools
    ensures var ms := Without(s.pools[id].members, device);
      Distinct(ms) && forall q | q in s.pools && q != id :: Apart(ms, s.pools[q].members)
  {
    WithoutIsSubset(s.pools[id].members, device);
    forall q | q in s.pools && q != id ensures Apart(Without(s.pools[id].members, device), s.pools[q].members) {
      assert Apart(s.pools[id].members, s.pools[q].members);
    }
  }

  /** The members of the pool a call writes are distinct and apart from every other pool's. */
  lemma PoolAfterApart(s: State, c: PoolCall)
    requires Exclusive(s.pools) && PerformOnPool(s, c).1 == OK && (!c.NewPoolCall? ==> c.id in s.pools)
    ensures Distinct(PoolAfter(s, c).members)
    ensures forall q | q in s.pools && q != PoolKey(c) :: Apart(PoolAfter(s, c).members, s.pools[q].members)
  {
    match c
    case NewPoolCall(pool, _) => NewPoolExclusive(s, pool.members);
    case AddMemberCall(id, m, _) => AddedApart(s, id, m);
    case RemoveMemberCall(id, device, _) => RemovedApart(s, id, device);
    case _ => PoolAfterKeeps(s, c);
  }

  lemma PoolCallExclusive(s: State, c: PoolCall)
    requires Exclusive(s.pools)
    ensures Exclusive(PerformOnPool(s, c).0.pools)
  {
    PoolCallShape(s, c);
    if PerformOnPool(s, c).1 == OK {
      PoolAfterApart(s, c);
      ReplaceExclusive(s.pools, PoolKey(c), PoolAfter(s, c));
    }
  }

  lemma SameMembersExclusive(s: State, t: State)
    requires Exclusive(s.pools) && t.pools.Keys == s.pools.Keys
    requires forall p | p in s.pools :: t.pools[p].members == s.pools[p].members
    ensures Exclusive(t.pools)
  {
    forall p, q | p in t.pools && q in t.pools && p != q ensures Apart(t.pools[p].members, t.pools[q].members) {
      assert Apart(s.pools[p].members, s.pools[q].members);
    }
  }

  lemma ReservationCallMembers(s: State, c: ReservationCall)
    requires Filed(s)
    ensures PerformOnReservation(s, c).0.pools.Keys == s.pools.Keys
    ensures forall p | p in s.pools :: PerformOnReservation(s, c).0.pools[p].members == s.pools[p].members
  {
    match c
    case ReserveCall(req, ctx) =>
      var chosen := ReserveShape(s, req, ctx);
      if Reserve(s, req, ctx).1.ok { BookShape(s, chosen, req, ctx); }
    case CommitCall(id, ctx) => CommitShape(s, id, ctx);
    case ReleaseCall(id, ctx) => DebitKeeps(s, id, ctx);
  }

  lemma ReservationCallExclusive(s: State, c: ReservationCall)
    requires Filed(s) && Exclusive(s.pools)
    ensures Exclusive(PerformOnReservation(s, c).0.pools)
  {
    ReservationCallMembers(s, c);
    SameMembersExclusive(s, PerformOnReservation(s, c).0);
  }

  lemma RestoreExclusive(s: State, ps: Persisted)
    requires Exclusive(ps.pools)
    ensures Exclusive(Import(s, ps).pools)
  {
    SameMembersExclusive(s.(pools := ps.pools), Import(s, ps));
  }

  lemma QuietCallPools(s: State, op: Op)
    requires op.Setting? || op.OnDevice? || op.OnRegion?
    ensures Apply(s, op).pools == s.pools
  {
    match op
    case Setting(c) =>
    case OnDevice(c) => DeviceCallShape(s, c);
    case OnRegion(c) => RegionCallShape(s, c);
  }

  /** Imports file their records by id and list no device twice. */
  ghost predicate OrderlyImport(op: Op) {
    WellFiled(op) && (op.Restore? ==> Exclusive(op.ps.pools))
  }

  lemma StepExclusive(s: State, op: Op)
    requires Filed(s) && Exclusive(s.pools) && OrderlyImport(op)
    ensures Exclusive(Apply(s, op).pools)
  {
    match op
    case OnPool(c) => PoolCallExclusive(s, c);
    case OnReservation(c) => ReservationCallExclusive(s, c);
    case Restore(ps) => RestoreExclusive(s, ps);
    case _ => QuietCallPools(s, op);
  }

  /** In every reachable state each device is a member of at most one pool, and at most once in it. */
  lemma {:induction false} RunExclusive(s: State, ops: seq<Op>)
    requires Filed(s) && Exclusive(s.pools) && forall i | 0 <= i < |ops| :: OrderlyImport(ops[i])
    ensures Exclusive(Run(s, ops).pools)
    decreases |ops|
  {
    if ops != [] {
      assert OrderlyImport(ops[0]);
      StepExclusive(s, ops[0]);
      StepFiled(s, ops[0]);
      RunExclusive(Apply(s, ops[0]), ops[1..]);
    }
  }

  // ---- every governed byte belongs to one device ----

  /** The bytes each listed device brings to its pool. */
  ghost function Contributions(ms: seq<PoolMember>): map<Str, nat> {
    if ms == [] then map[]
    else Contributions(ms[..|ms| - 1])[ms[|ms| - 1].device := MemberBytes(ms[|ms| - 1])]
  }

  lemma {:induction false} ContributionKeys(ms: seq<PoolMember>, d: Str)
    ensures d in Contributions(ms) <==> IsMember(ms, d)
  {
    if ms != [] {
      var n := |ms| - 1;
      ContributionKeys(ms[..n], d);
      assert ms == ms[..n] + [ms[n]];
      if IsMember(ms[..n], d) {
        var i :| 0 <= i < n && ms[..n][i].device == d;
        assert ms[i].device == d;
      }
    }
  }

  /** A distinct member list adds up to the sum over its devices. */
  lemma {:induction false} OnlineSumByDevice(ms: seq<PoolMember>)
    requires Distinct(ms)
    ensures Sum(Contributions(ms)) == OnlineSum(ms)
  {
    if ms == [] {
      SumEmpty(Contributions(ms));
    } else {
      var n := |ms| - 1;
      OnlineSumByDevice(ms[..n]);
      ContributionKeys(ms[..n], ms[n].device);
      SumUpdate(Contributions(ms[..n]), ms[n].device, MemberBytes(ms[n]));
    }
  }

  lemma JoinOne(a: map<Str, nat>, b: map<Str, nat>, k: Str)
    requires k in b && k !in a
    ensures a + b == (a + (b - {k}))[k := b[k]] && k !in a + (b - {k})
  {}

  lemma {:induction false} SumOfDisjoint(a: map<Str, nat>, b: map<Str, nat>)
    requires a.Keys !! b.Keys
    ensures Sum(a + b) == Sum(a) + Sum(b)
    decreases |b|
  {
    if b == map[] {
      SumEmpty(b);
      assert a + b == a;
    } else {
      var k :| k in b;
      var rest := b - {k};
      SumOfDisjoint(a, rest);
      SumRemove(b, k);
      JoinOne(a, b, k);
      SumUpdate(a + rest, k, b[k]);
    }
  }

  /** All contributions of the pools listed, later pools overriding earlier ones. */
  ghost function AllContributions(pools: map<Str, Pool>, keys: seq<Str>): map<Str, nat>
    requires forall k | k in keys :: k in pools
  {
    if keys == [] then map[]
    else AllContributions(pools, keys[..|keys| - 1]) + Contributions(pools[keys[|keys| - 1]].members)
  }

  lemma {:induction false} AllContributionKeys(pools: map<Str, Pool>, keys: seq<Str>, d: Str)
    requires forall k | k in keys :: k in pools
    ensures d in AllContributions(pools, keys) <==> exists k :: k in keys && IsMember(pools[k].members, d)
  {
    if keys != [] {
      var n := |keys| - 1;
      AllContributionKeys(pools, keys[..n], d);
      ContributionKeys(pools[keys[n]].members, d);
      assert keys == keys[..n] + [keys[n]];
    }
  }

  lemma {:induction false} ContributionOf(ms: seq<PoolMember>, i: nat)
    requires Distinct(ms) && i < |ms|
    ensures ms[i].device in Contributions(ms) && Contributions(ms)[ms[i].device] == MemberBytes(ms[i])
  {
    if i < |ms| - 1 { ContributionOf(ms[..|ms| - 1], i); }
  }

  lemma {:induction false} AllContributionOf(pools: map<Str, Pool>, keys: seq<Str>, k: Str, i: nat)
    requires Exclusive(pools) && (forall j | j in keys :: j in pools) && k in keys && i < |pools[k].members|
    ensures var m := pools[k].members[i];
      m.device in AllContributions(pools, keys) && AllContributions(pools, keys)[m.device] == MemberBytes(m)
  {
    var n := |keys| - 1;
    var m := pools[k].members[i];
    ContributionOf(pools[k].members, i);
    if k != keys[n] {
      assert Apart(pools[k].members, pools[keys[n]].members);
      ContributionKeys(pools[keys[n]].members, m.device);
      assert keys == keys[..n] + [keys[n]];
      AllContributionOf(pools, keys[..n], k, i);
    }
  }

  lemma NoOverride(pools: map<Str, Pool>, keys: seq<Str>, last: Str)
    requires Exclusive(pools) && last in pools && last !in keys && forall k | k in keys :: k in pools
    ensures AllContributions(pools, keys).Keys !! Contributions(pools[last].members).Keys
  {
    forall d | d in AllContributions(pools, keys) ensures d !in Contributions(pools[last].members) {
      AllContributionKeys(pools, keys, d);
      ContributionKeys(pools[last].members, d);
      var k :| k in keys && IsMember(pools[k].members, d);
      assert Apart(pools[k].members, pools[last].members);
    }
  }

  lemma {:induction false} TotalsByDevice(pools: map<Str, Pool>, keys: seq<Str>)
    requires Exclusive(pools) && forall k | k in keys :: k in pools && PoolCounts(pools[k])
    requires forall i, j | 0 <= i < j < |keys| :: keys[i] != keys[j]
    ensures FieldAlong(pools, keys, TotalField) == Sum(AllContributions(pools, keys))
  {
    if keys == [] {
      SumEmpty(AllContributions(pools, keys));
    } else {
      var n := |keys| - 1;
      TotalsByDevice(pools, keys[..n]);
      NoOverride(pools, keys[..n], keys[n]);
      SumOfDisjoint(AllContributions(pools, keys[..n]), Contributions(pools[keys[n]].members));
      OnlineSumByDevice(pools[keys[n]].members);
      FieldAlongStep(pools, keys, TotalField);
    }
  }

  /** A pool in service whose governed total is the true sum of its online members. */
  predicate PoolCounts(p: Pool) {
    Exact(p) && !p.state.PoolRetired?
  }

  /** The global governed total is a sum over devices, each counted once with its one membership's bytes. */
  lemma GovernedOnce(pools: map<Str, Pool>)
    requires Exclusive(pools) && forall k | k in pools :: PoolCounts(pools[k])
    ensures forall k | k in Order.SortedKeys(pools.Keys) :: k in pools
    ensures FieldSum(pools, TotalField) == Sum(AllContributions(pools, Order.SortedKeys(pools.Keys)))
    ensures forall d :: d in AllContributions(pools, Order.SortedKeys(pools.Keys)) <==> Governed(pools, d)
    ensures forall k, i | k in pools && 0 <= i < |pools[k].members| ::
      var m := pools[k].members[i];
      var all := AllContributions(pools, Order.SortedKeys(pools.Keys));
      m.device in all && all[m.device] == MemberBytes(m)
  {
    var keys := Order.SortedKeys(pools.Keys);
    Order.SortedKeysCover(pools.Keys);
    Order.SortedKeysAscend(pools.Keys);
    forall i, j | 0 <= i < j < |keys| ensures keys[i] != keys[j] {
      Order.LexTrichotomy(keys[i], keys[j]);
    }
    TotalsByDevice(pools, keys);
    FieldAlongIsSum(pools, TotalField);
    forall d ensures d in AllContributions(pools, keys) <==> Governed(pools, d) {
      AllContributionKeys(pools, keys, d);
    }
    forall k, i | k in pools && 0 <= i < |pools[k].members|
      ensures var m := pools[k].members[i];
        m.device in AllContributions(pools, keys) && AllContributions(pools, keys)[m.device] == MemberBytes(m)
    {
      AllContributionOf(pools, keys, k, i);
    }
  }

  lemma RunningPoolsCount(g: Regime, s: State)
    requires PoolsInRegime(g, s) && CacheFresh(s)
    ensures forall k | k in s.pools :: PoolCounts(s.pools[k])
  {}

  /** In every guarded run of a new engine, the global governed total counts every governed device once. */
  lemma GovernedOnceInRuns(g: Regime, epoch: u64, policy: u64, ops: seq<Op>)
    requires GuardedRun(g, Initial(epoch, policy), ops) && forall i | 0 <= i < |ops| :: OrderlyImport(ops[i])
    ensures var pools := Run(Initial(epoch, policy), ops).pools;
      && Exclusive(pools)
      && (forall k | k in Order.SortedKeys(pools.Keys) :: k in pools)
      && FieldSum(pools, TotalField) == Sum(AllContributions(pools, Order.SortedKeys(pools.Keys)))
  {
    RunFromStartInRegime(g, epoch, policy, ops);
    RunFromStart(epoch, policy, ops);
    RunExclusive(Initial(epoch, policy), ops);
    RunningPoolsCount(g, Run(Initial(epoch, policy), ops));
    GovernedOnce(Run(Initial(epoch, policy), ops).pools);
  }
}
