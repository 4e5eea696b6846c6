/** What the recomputation loops and the audit do with sums that do not fit, and when the audit is content. */
module Audits {
  import opened Base
  import opened Order
  import opened Records
  import opened Ledger
  import opened Capacity
  import opened Admission

  // ---- members ----

  /** One more member: its bytes count if it is online and they fit, and among the unavailable if it is not healthy. */
  lemma MemberAdds(ms: seq<PoolMember>, m: PoolMember)
    ensures var total, more := GovernedTotal(ms), GovernedTotal(ms + [m]);
      more == if m.online && total + m.nominalBytes <= U64_MAX then total + m.nominalBytes else total
    ensures var lost, more := UnavailableTotal(ms), UnavailableTotal(ms + [m]);
      more == if m.online && !m.healthOk && lost + m.nominalBytes <= U64_MAX then lost + m.nominalBytes else lost
  {
    assert (ms + [m])[..|ms|] == ms;
  }

  // ---- the cached line ----

  function LineFields(g: CapacityLine): seq<u64> {
    [g.total, g.online, g.unavailable, g.reserved, g.committed, g.draining]
  }

  function PoolFields(p: Pool): seq<u64> {
    [p.totalGoverned, p.totalGoverned, p.unavailable, p.reserved, p.committed, p.draining]
  }

  /** Field i of a pool in service is added exactly when it and every field before it fit. */
  lemma AddPoolFields(g: CapacityLine, p: Pool, i: nat)
    requires i < 6
    ensures var was, more := LineFields(g), PoolFields(p);
      LineFields(AddPool(g, p))[i] ==
        if !p.state.PoolRetired? && forall j | 0 <= j <= i :: was[j] + more[j] <= U64_MAX then was[i] + more[i]
        else was[i]
  {
    var was, more := LineFields(g), PoolFields(p);
    assert (forall j | 0 <= j <= i :: was[j] + more[j] <= U64_MAX) ==>
      && was[0] + more[0] <= U64_MAX && (i >= 1 ==> was[1] + more[1] <= U64_MAX)
      && (i >= 2 ==> was[2] + more[2] <= U64_MAX) && (i >= 3 ==> was[3] + more[3] <= U64_MAX)
      && (i >= 4 ==> was[4] + more[4] <= U64_MAX) && (i >= 5 ==> was[5] + more[5] <= U64_MAX);
  }

  // ---- the audit ----

  /** A field added up over the pools in key order, leaving out what would overflow. */
  ghost function Greedy(pools: map<Str, Pool>, keys: seq<Str>, f: Field): u64
    requires forall k | k in keys :: k in pools
  {
    if keys == [] then 0
    else
      var t, x := Greedy(pools, keys[..|keys| - 1], f), FieldOf(f, pools[keys[|keys| - 1]]);
      if t + x <= U64_MAX then t + x else t
  }

  ghost function GreedySum(pools: map<Str, Pool>, f: Field): u64 {
    SortedKeysCover(pools.Keys);
    Greedy(pools, SortedKeys(pools.Keys), f)
  }

  lemma {:induction false} AuditLineGreedy(pools: map<Str, Pool>, keys: seq<Str>)
    requires forall k | k in keys :: k in pools
    ensures AuditLineAlong(pools, keys) == CapacityLine(
      Greedy(pools, keys, TotalField), Greedy(pools, keys, TotalField), Greedy(pools, keys, UnavailableField),
      Greedy(pools, keys, ReservedField), Greedy(pools, keys, CommittedField), Greedy(pools, keys, DrainingField))
  {
    if keys != [] { AuditLineGreedy(pools, keys[..|keys| - 1]); }
  }

  lemma {:induction false} GreedyAlong(pools: map<Str, Pool>, keys: seq<Str>, f: Field)
    requires (forall k | k in keys :: k in pools) && FieldAlong(pools, keys, f) <= U64_MAX
    ensures Greedy(pools, keys, f) == FieldAlong(pools, keys, f)
  {
    if keys != [] {
      FieldAlongStep(pools, keys, f);
      GreedyAlong(pools, keys[..|keys| - 1], f);
    }
  }

  /** While a field's true sum fits, nothing of it is left out. */
  lemma GreedyIsSum(pools: map<Str, Pool>, f: Field)
    requires FieldSum(pools, f) <= U64_MAX
    ensures GreedySum(pools, f) == FieldSum(pools, f)
  {
    FieldAlongIsSum(pools, f);
    GreedyAlong(pools, SortedKeys(pools.Keys), f);
  }

  lemma LineAuditsIff(g: CapacityLine)
    requires g.total == g.online
    ensures g.Audit() <==> (g.unavailable + g.reserved + g.committed + g.draining) % 0x1_0000_0000_0000_0000 <= g.total
  {
    WrapIsMod(g.unavailable, g.reserved);
    WrapIsMod(WrapAdd(g.unavailable, g.reserved), g.committed);
    WrapIsMod(WrapAdd(WrapAdd(g.unavailable, g.reserved), g.committed), g.draining);
  }

  lemma NoneListedIff(pools: map<Str, Pool>)
    ensures Overused(pools) == [] <==> forall k | k in pools :: !OverTotal(pools[k])
  {
    if Overused(pools) != [] { AuditNamesOverused(pools, Overused(pools)[0]); }
    forall k | k in pools && OverTotal(pools[k]) ensures Overused(pools) != [] {
      AuditNamesOverused(pools, pools[k].id);
    }
  }

  /**
   * The audit is content exactly when no pool in service uses more than it governs and the added-up line does not
   * either, both used sums being taken modulo 2^64.
   */
  lemma AuditOkIff(pools: map<Str, Pool>)
    ensures AuditOf(pools).ok <==>
      && (forall k | k in pools :: !OverTotal(pools[k]))
      && (GreedySum(pools, UnavailableField) + GreedySum(pools, ReservedField) + GreedySum(pools, CommittedField)
          + GreedySum(pools, DrainingField)) % 0x1_0000_0000_0000_0000 <= GreedySum(pools, TotalField)
  {
    SortedKeysCover(pools.Keys);
    AuditLineGreedy(pools, SortedKeys(pools.Keys));
    LineAuditsIff(AuditLine(pools));
    NoneListedIff(pools);
  }

  /** The report carries the added-up line. */
  lemma AuditReportsLine(pools: map<Str, Pool>)
    ensures AuditOf(pools).line == CapacityLine(
      GreedySum(pools, TotalField), GreedySum(pools, TotalField), GreedySum(pools, UnavailableField),
      GreedySum(pools, ReservedField), GreedySum(pools, CommittedField), GreedySum(pools, DrainingField))
  {
    SortedKeysCover(pools.Keys);
    AuditLineGreedy(pools, SortedKeys(pools.Keys));
  }
}
