/** Exactly when structures are accepted, and what recomputation and audit report about them. */
module Admission {
  import opened Base
  import opened Order
  import opened Records
  import opened Evaluation
  import opened Ledger
  import opened Spec
  import opened Membership

  // ---- regions ----

  ghost predicate RegionMembersOk(s: State, pool: Pool, names: seq<Str>) {
    forall i | 0 <= i < |names| :: names[i] in s.devices && IsMember(pool.members, names[i])
  }

  lemma {:induction false} MembersVerdictIff(s: State, pool: Pool, names: seq<Str>)
    ensures MembersVerdict(s, pool, names) == OK <==> RegionMembersOk(s, pool, names)
  {
    if names != [] {
      MembersVerdictIff(s, pool, names[1..]);
      assert forall i | 1 <= i < |names| :: names[i] == names[1..][i - 1];
    }
  }

  /** A region is created exactly when its pool exists and governs every member, and its id is new. */
  lemma CreateRegionIff(s: State, region: Region, ctx: Authority)
    ensures CreateRegion(s, region, ctx).1 == OK <==>
      && ctx.epoch == s.epoch && region.id != [] && region.generation != 0 && region.pool != []
      && region.id !in s.regions && region.pool in s.pools
      && RegionMembersOk(s, s.pools[region.pool], region.members)
  {
    if region.pool in s.pools { MembersVerdictIff(s, s.pools[region.pool], region.members); }
  }

  // ---- pools ----

  ghost predicate PoolMemberOk(s: State, m: PoolMember) {
    m.device in s.devices && !Governed(s.pools, m.device)
  }

  lemma {:induction false} PoolVerdictIff(s: State, ms: seq<PoolMember>, n: nat)
    requires n <= |ms|
    ensures PoolVerdict(s, ms, n) == OK <==>
      forall i | n <= i < |ms| :: PoolMemberOk(s, ms[i]) && !IsMember(ms[..i], ms[i].device)
    decreases |ms| - n
  {
    if n < |ms| { PoolVerdictIff(s, ms, n + 1); }
  }

  lemma NoneEarlierIsDistinct(ms: seq<PoolMember>)
    ensures (forall i | 0 <= i < |ms| :: !IsMember(ms[..i], ms[i].device)) <==> Distinct(ms)
  {
    if forall i | 0 <= i < |ms| :: !IsMember(ms[..i], ms[i].device) {
      forall i, j | 0 <= i < j < |ms| ensures ms[i].device != ms[j].device {
        assert ms[..j][i] == ms[i];
      }
    }
  }

  /** A pool is created exactly when its id is new and its members are registered, distinct and ungoverned. */
  lemma CreatePoolIff(s: State, pool: Pool, ctx: Authority)
    ensures CreatePool(s, pool, ctx).1 == OK <==>
      && ctx.epoch == s.epoch && pool.id != [] && pool.generation != 0 && pool.id !in s.pools
      && Distinct(pool.members) && forall i | 0 <= i < |pool.members| :: PoolMemberOk(s, pool.members[i])
  {
    PoolVerdictIff(s, pool.members, 0);
    NoneEarlierIsDistinct(pool.members);
  }

  // ---- recomputed failure domains ----

  ghost predicate OnlineIn(ms: seq<PoolMember>, domain: Str) {
    domain != [] && exists i :: 0 <= i < |ms| && ms[i].online && ms[i].failureDomain == domain
  }

  /** The recomputed domains are those of the online members, each listed once. */
  lemma {:induction false} DomainsExact(ms: seq<PoolMember>, domain: Str)
    ensures domain in Domains(ms) <==> OnlineIn(ms, domain)
    ensures forall i, j | 0 <= i < j < |Domains(ms)| :: Domains(ms)[i] != Domains(ms)[j]
  {
    if ms != [] {
      var n := |ms| - 1;
      assert ms == ms[..n] + [ms[n]];
      DomainsExact(ms[..n], domain);
      if OnlineIn(ms[..n], domain) {
        var i :| 0 <= i < n && ms[..n][i].online && ms[..n][i].failureDomain == domain;
        assert ms[i].online && ms[i].failureDomain == domain;
      }
    }
  }

  /** They are listed in the order in which they first occur: more members only extend the list. */
  lemma {:induction false} DomainsInOrder(ms: seq<PoolMember>, n: nat)
    requires n <= |ms|
    ensures Domains(ms[..n]) <= Domains(ms)
  {
    if n < |ms| {
      DomainsInOrder(ms[..|ms| - 1], n);
      assert ms[..|ms| - 1][..n] == ms[..n];
    } else {
      assert ms[..n] == ms;
    }
  }

  // ---- the audit's list ----

  /** In service, with the used bytes, added up modulo 2^64, above the governed total. */
  ghost predicate OverTotal(p: Pool) {
    && !p.state.PoolRetired?
    && p.totalGoverned < (p.unavailable + p.reserved + p.committed + p.draining) % 0x1_0000_0000_0000_0000
  }

  lemma {:induction false} OverusedAlongIff(pools: map<Str, Pool>, keys: seq<Str>, id: Str)
    requires forall k | k in keys :: k in pools
    ensures id in OverusedAlong(pools, keys) <==> exists k :: k in keys && OverTotal(pools[k]) && pools[k].id == id
  {
    if keys != [] {
      var n := |keys| - 1;
      assert keys == keys[..n] + [keys[n]];
      OverusedAlongIff(pools, keys[..n], id);
      PoolUsedIsMod(pools[keys[n]]);
    }
  }

  /** The audit names exactly the pools in service whose counters exceed their governed total. */
  lemma AuditNamesOverused(pools: map<Str, Pool>, id: Str)
    ensures id in AuditOf(pools).overused <==> exists k :: k in pools && OverTotal(pools[k]) && pools[k].id == id
  {
    SortedKeysCover(pools.Keys);
    OverusedAlongIff(pools, SortedKeys(pools.Keys), id);
  }

  lemma {:induction false} OverusedAlongAscends(pools: map<Str, Pool>, keys: seq<Str>)
    requires (forall k | k in keys :: k in pools && pools[k].id == k) && Ascending(keys)
    ensures Ascending(OverusedAlong(pools, keys)) && forall id | id in OverusedAlong(pools, keys) :: id in keys
  {
    if keys != [] {
      var n := |keys| - 1;
      assert keys == keys[..n] + [keys[n]] && forall k | k in keys[..n] :: LexLess(k, keys[n]);
      OverusedAlongAscends(pools, keys[..n]);
      var before := OverusedAlong(pools, keys[..n]);
      forall i | 0 <= i < |before| ensures LexLess(before[i], keys[n]) {
        assert before[i] in before;
      }
    }
  }

  /** The list is in the order of ids, each once. */
  lemma OverusedAscends(pools: map<Str, Pool>)
    requires forall k | k in pools :: pools[k].id == k
    ensures Ascending(AuditOf(pools).overused)
  {
    SortedKeysCover(pools.Keys);
    SortedKeysAscend(pools.Keys);
    OverusedAlongAscends(pools, SortedKeys(pools.Keys));
  }
}
