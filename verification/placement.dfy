/** Candidate enumeration, selection and failover planning over one snapshot of the registries. */
module Placement {
  import opened Base
  import opened Order
  import opened Records
  import opened Evaluation
  import opened StableSorting
  import opened Ranking

  datatype View = View(devices: map<Str, Device>, regions: map<Str, Region>, pools: map<Str, Pool>)

  /** What is being looked for: a placement, or a replacement inside a pool (any pool if empty). */
  datatype Query = ForPlacement | ForReplacement(scope: Str, failed: Str)

  datatype SelectionOutcome = SelectionOutcome(
    ok: bool, chosen: Option<Candidate>, result: SelectionResult, candidates: seq<SelectionResult>)

  predicate PoolInPlay(q: Query, key: Str, p: Pool) {
    p.evidenceCurrent && if q.ForPlacement? then Admitting(p) else q.scope == [] || key == q.scope
  }

  predicate RegionInPlay(p: Pool, r: Region) {
    r.pool == p.id && r.evidenceCurrent && r.state.RegionOnline?
  }

  predicate DeviceInPlay(q: Query, v: View, name: Str) {
    && name in v.devices && v.devices[name].evidenceCurrent && v.devices[name].state.Online?
    && (q.ForReplacement? ==> name != q.failed)
  }

  function MakeCandidate(q: Query, p: Pool, r: Region, name: Str, d: Device): Candidate {
    Candidate(p.id, p.generation, r.id, r.generation, if q.ForPlacement? then d.id else name, d.generation,
              RegionFree(r), d, r, p)
  }

  function DeviceCandidates(q: Query, v: View, p: Pool, r: Region, names: seq<Str>): seq<Candidate> {
    if names == [] then []
    else
      var name := names[|names| - 1];
      DeviceCandidates(q, v, p, r, names[..|names| - 1]) +
      if DeviceInPlay(q, v, name) then [MakeCandidate(q, p, r, name, v.devices[name])] else []
  }

  function RegionCandidates(q: Query, v: View, p: Pool, keys: seq<Str>): seq<Candidate>
    requires forall k | k in keys :: k in v.regions
  {
    if keys == [] then []
    else
      var r := v.regions[keys[|keys| - 1]];
      RegionCandidates(q, v, p, keys[..|keys| - 1]) +
      if RegionInPlay(p, r) then DeviceCandidates(q, v, p, r, r.members) else []
  }

  function PoolsRegionCandidates(q: Query, v: View, p: Pool): seq<Candidate> {
    SortedKeysCover(v.regions.Keys);
    RegionCandidates(q, v, p, SortedKeys(v.regions.Keys))
  }

  function PoolCandidates(q: Query, v: View, keys: seq<Str>): seq<Candidate>
    requires forall k | k in keys :: k in v.pools
  {
    if keys == [] then []
    else
      var key := keys[|keys| - 1];
      PoolCandidates(q, v, keys[..|keys| - 1]) +
      if PoolInPlay(q, key, v.pools[key])
      then PoolsRegionCandidates(q, v, v.pools[key]) else []
  }

  /** Every candidate in id order: by pool, then region, then position in the region. */
  function Candidates(q: Query, v: View): seq<Candidate> {
    SortedKeysCover(v.pools.Keys);
    PoolCandidates(q, v, SortedKeys(v.pools.Keys))
  }

  function Assess(c: Candidate, req: Request): SelectionResult {
    Evaluate(c, req, c.poolRecord.evidenceCurrent)
  }

  function Assessments(cs: seq<Candidate>, req: Request): (rs: seq<SelectionResult>)
    ensures |rs| == |cs|
  {
    if cs == [] then []
    else Assessments(cs[..|cs| - 1], req) + [Assess(cs[|cs| - 1], req)]
  }

  function Passing(cs: seq<Candidate>, req: Request): (ps: seq<Candidate>)
    ensures |ps| <= |cs|
  {
    if cs == [] then []
    else
      var c := cs[|cs| - 1];
      Passing(cs[..|cs| - 1], req) + if Assess(c, req).selected then [c] else []
  }

  predicate Names(r: SelectionResult, c: Candidate) {
    r.selected && r.pool == c.pool && r.region == c.region && r.device == c.device
  }

  /** The first selected result that names the chosen candidate. */
  function Restored(rs: seq<SelectionResult>, c: Candidate, fallback: SelectionResult): SelectionResult {
    if rs == [] then fallback
    else if Names(rs[0], c) then rs[0]
    else Restored(rs[1..], c, fallback)
  }

  const NO_RESULT := SelectionResult(false, OK, [], [], [], LOCALITY_UNKNOWN, 0, HEALTH_UNKNOWN, false, [])

  function Select(v: View, req: Request): (out: SelectionOutcome)
    ensures out.ok <==> out.chosen.Some?
  {
    var cs := Candidates(ForPlacement, v);
    var rs := Assessments(cs, req);
    var passing := Passing(cs, req);
    if passing != [] then
      var chosen := Sort(Better, passing)[0];
      SelectionOutcome(true, Some(chosen), Restored(rs, chosen, rs[0]), rs)
    else if rs != [] then
      SelectionOutcome(false, None, rs[0].(selected := false), rs)
    else
      SelectionOutcome(false, None, NO_RESULT.(reason := CAPACITY_INSUFFICIENT), rs)
  }

  // ---- what the enumeration contains ----

  /** c is built from records of v that are all in play for q. */
  ghost predicate Drawn(q: Query, v: View, c: Candidate) {
    exists p, r, name ::
      && p in v.pools && r in v.regions && name in v.regions[r].members
      && PoolInPlay(q, p, v.pools[p]) && RegionInPlay(v.pools[p], v.regions[r]) && DeviceInPlay(q, v, name)
      && c == MakeCandidate(q, v.pools[p], v.regions[r], name, v.devices[name])
  }

  lemma {:induction false} DeviceCandidatesIff(q: Query, v: View, p: Pool, r: Region, names: seq<Str>, c: Candidate)
    ensures c in DeviceCandidates(q, v, p, r, names) <==>
      exists name :: name in names && DeviceInPlay(q, v, name) && c == MakeCandidate(q, p, r, name, v.devices[name])
  {
    if names != [] {
      var n := |names| - 1;
      assert names == names[..n] + [names[n]];
      DeviceCandidatesIff(q, v, p, r, names[..n], c);
    }
  }

  ghost predicate DrawnFrom(q: Query, v: View, p: Pool, r: Region, c: Candidate) {
    RegionInPlay(p, r) && exists name ::
      name in r.members && DeviceInPlay(q, v, name) && c == MakeCandidate(q, p, r, name, v.devices[name])
  }

  lemma {:induction false} RegionCandidatesIff(q: Query, v: View, p: Pool, keys: seq<Str>, c: Candidate)
    requires forall k | k in keys :: k in v.regions
    ensures c in RegionCandidates(q, v, p, keys) <==>
      exists k :: k in keys && DrawnFrom(q, v, p, v.regions[k], c)
  {
    if keys != [] {
      var n := |keys| - 1;
      var r := v.regions[keys[n]];
      assert keys == keys[..n] + [keys[n]];
      RegionCandidatesIff(q, v, p, keys[..n], c);
      DeviceCandidatesIff(q, v, p, r, r.members, c);
    }
  }

  ghost predicate DrawnFromPool(q: Query, v: View, k: Str, c: Candidate)
    requires k in v.pools
  {
    PoolInPlay(q, k, v.pools[k]) && exists r :: r in v.regions && DrawnFrom(q, v, v.pools[k], v.regions[r], c)
  }

  lemma {:induction false} PoolCandidatesIff(q: Query, v: View, keys: seq<Str>, c: Candidate)
    requires forall k | k in keys :: k in v.pools
    ensures c in PoolCandidates(q, v, keys) <==>
      exists k :: k in keys && DrawnFromPool(q, v, k, c)
  {
    if keys != [] {
      var n := |keys| - 1;
      assert keys == keys[..n] + [keys[n]];
      PoolCandidatesIff(q, v, keys[..n], c);
      SortedKeysCover(v.regions.Keys);
      RegionCandidatesIff(q, v, v.pools[keys[n]], SortedKeys(v.regions.Keys), c);
      var p := v.pools[keys[n]];
      var inPool := PoolInPlay(q, keys[n], p) && c in PoolsRegionCandidates(q, v, p);
      assert DrawnFromPool(q, v, keys[n], c) <==> inPool;
    }
  }

  /** The enumeration holds exactly the candidates that can be drawn from the snapshot. */
  lemma CandidatesIff(q: Query, v: View, c: Candidate)
    ensures c in Candidates(q, v) <==> Drawn(q, v, c)
  {
    SortedKeysCover(v.pools.Keys);
    PoolCandidatesIff(q, v, SortedKeys(v.pools.Keys), c);
    if Drawn(q, v, c) {
      var p, r, name :|
        && p in v.pools && r in v.regions && name in v.regions[r].members
        && PoolInPlay(q, p, v.pools[p]) && RegionInPlay(v.pools[p], v.regions[r]) && DeviceInPlay(q, v, name)
        && c == MakeCandidate(q, v.pools[p], v.regions[r], name, v.devices[name]);
      assert DrawnFrom(q, v, v.pools[p], v.regions[r], c);
      assert DrawnFromPool(q, v, p, c);
    }
  }

  lemma {:induction false} PassingIff(cs: seq<Candidate>, req: Request, c: Candidate)
    ensures c in Passing(cs, req) <==> c in cs && Passes(c, req)
  {
    if cs != [] {
      var n := |cs| - 1;
      assert cs == cs[..n] + [cs[n]];
      PassingIff(cs[..n], req, c);
      SelectedExactlyWhenPassing(cs[n], req);
    }
  }

  lemma PassingNonEmpty(cs: seq<Candidate>, req: Request)
    ensures Passing(cs, req) != [] <==> exists c :: c in cs && Passes(c, req)
  {
    if Passing(cs, req) != [] {
      PassingIff(cs, req, Passing(cs, req)[0]);
    }
    forall c | c in cs && Passes(c, req) ensures Passing(cs, req) != [] {
      PassingIff(cs, req, c);
    }
  }

  /** Selection succeeds exactly when some drawn candidate meets every hard constraint. */
  lemma SelectSucceedsIff(v: View, req: Request)
    ensures Select(v, req).ok <==> exists c :: Drawn(ForPlacement, v, c) && Passes(c, req)
  {
    var cs := Candidates(ForPlacement, v);
    PassingNonEmpty(cs, req);
    forall c ensures c in cs <==> Drawn(ForPlacement, v, c) {
      CandidatesIff(ForPlacement, v, c);
    }
  }

  lemma RejectedHasReason(c: Candidate, req: Request)
    ensures Assess(c, req).selected <==> Assess(c, req).reason == OK
  {}

  /** A refusal always carries a reason. */
  lemma RefusalIsExplained(v: View, req: Request)
    requires !Select(v, req).ok
    ensures Select(v, req).chosen.None? && Select(v, req).result.reason != OK
  {
    var cs := Candidates(ForPlacement, v);
    if cs != [] {
      AssessmentAt(cs, req, 0);
      RejectedHasReason(cs[0], req);
      if Assess(cs[0], req).selected { PassingKeepsFirst(cs, req); }
    }
  }

  lemma {:induction false} PassingKeepsFirst(cs: seq<Candidate>, req: Request)
    requires cs != [] && Assess(cs[0], req).selected
    ensures Passing(cs, req) != []
  {
    if |cs| > 1 { PassingKeepsFirst(cs[..|cs| - 1], req); }
  }

  ghost predicate EarliestBest(cs: seq<Candidate>, c: Candidate) {
    exists i: nat :: FirstBest(Better, cs, i) && c == cs[i]
  }

  lemma ChosenIsFirstBest(v: View, req: Request) returns (i: nat)
    requires Select(v, req).ok
    ensures FirstBest(Better, Passing(Candidates(ForPlacement, v), req), i)
    ensures Select(v, req).chosen == Some(Passing(Candidates(ForPlacement, v), req)[i])
  {
    var passing := Passing(Candidates(ForPlacement, v), req);
    BetterIsStrictWeak();
    i := SortFront(Better, passing);
  }

  lemma PassingDrawn(v: View, req: Request, c: Candidate)
    ensures c in Passing(Candidates(ForPlacement, v), req) <==> Drawn(ForPlacement, v, c) && Passes(c, req)
  {
    PassingIff(Candidates(ForPlacement, v), req, c);
    CandidatesIff(ForPlacement, v, c);
  }

  /** The chosen candidate is drawn from the snapshot and meets every hard constraint. */
  lemma SelectionSound(v: View, req: Request)
    requires Select(v, req).ok
    ensures Select(v, req).chosen.Some?
    ensures Drawn(ForPlacement, v, Select(v, req).chosen.value) && Passes(Select(v, req).chosen.value, req)
  {
    var i := ChosenIsFirstBest(v, req);
    PassingDrawn(v, req, Passing(Candidates(ForPlacement, v), req)[i]);
  }

  /** Nothing that could be drawn and passes ranks above the choice; ties go to the earliest in id order. */
  lemma SelectionOptimal(v: View, req: Request)
    requires Select(v, req).ok
    ensures Select(v, req).chosen.Some?
    ensures forall d | Drawn(ForPlacement, v, d) && Passes(d, req) :: !Better(d, Select(v, req).chosen.value)
    ensures EarliestBest(Passing(Candidates(ForPlacement, v), req), Select(v, req).chosen.value)
  {
    var i := ChosenIsFirstBest(v, req);
    var passing := Passing(Candidates(ForPlacement, v), req);
    forall d | Drawn(ForPlacement, v, d) && Passes(d, req) ensures !Better(d, passing[i]) {
      PassingDrawn(v, req, d);
      var j :| 0 <= j < |passing| && passing[j] == d;
    }
  }

  /** By the keys themselves: no drawn candidate that passes is nearer, faster, wider, roomier or earlier by name. */
  lemma SelectionByKeys(v: View, req: Request, d: Candidate)
    requires Select(v, req).ok && Drawn(ForPlacement, v, d) && Passes(d, req)
    ensures Select(v, req).chosen.Some? && NoWorse(Select(v, req).chosen.value, d)
  {
    SelectionOptimal(v, req);
    NotBeatenIff(Select(v, req).chosen.value, d);
  }

  lemma {:induction false} AssessmentAt(cs: seq<Candidate>, req: Request, i: nat)
    requires i < |cs|
    ensures Assessments(cs, req)[i] == Assess(cs[i], req)
  {
    if i < |cs| - 1 { AssessmentAt(cs[..|cs| - 1], req, i); }
  }

  lemma {:induction false} RestoredFinds(rs: seq<SelectionResult>, c: Candidate, fallback: SelectionResult)
    requires exists i :: 0 <= i < |rs| && Names(rs[i], c)
    ensures Names(Restored(rs, c, fallback), c) && Restored(rs, c, fallback) in rs
  {
    if !Names(rs[0], c) {
      var i :| 0 <= i < |rs| && Names(rs[i], c);
      assert rs[1..][i - 1] == rs[i];
      RestoredFinds(rs[1..], c, fallback);
    }
  }

  /** Candidates drawn for a placement with the same three ids are the same candidate. */
  lemma DrawnByName(v: View, c: Candidate, d: Candidate)
    requires FiledById(v.devices, v.regions, v.pools)
    requires Drawn(ForPlacement, v, c) && Drawn(ForPlacement, v, d)
    requires c.poolRecord.id == d.pool && c.regionRecord.id == d.region && c.deviceRecord.id == d.device
    ensures c == d
  {}

  lemma AssessmentNames(v: View, c: Candidate, req: Request)
    requires Drawn(ForPlacement, v, c)
    ensures Passes(c, req) ==> Names(Assess(c, req), c)
    ensures Assess(c, req).selected ==>
      Assess(c, req).pool == c.poolRecord.id && Assess(c, req).region == c.regionRecord.id &&
      Assess(c, req).device == c.deviceRecord.id
  {
    SelectedExactlyWhenPassing(c, req);
  }

  /** The reported result is the evaluation of the chosen candidate. */
  lemma SelectionReportsChosen(v: View, req: Request)
    requires FiledById(v.devices, v.regions, v.pools) && Select(v, req).ok
    ensures Select(v, req).chosen.Some?
    ensures Select(v, req).result == Assess(Select(v, req).chosen.value, req)
  {
    SelectionSound(v, req);
    CandidatesIff(ForPlacement, v, Select(v, req).chosen.value);
    RestoredIsOwn(v, req, Select(v, req).chosen.value);
  }

  lemma RestoredIsOwn(v: View, req: Request, c: Candidate)
    requires FiledById(v.devices, v.regions, v.pools)
    requires Drawn(ForPlacement, v, c) && c in Candidates(ForPlacement, v) && Passes(c, req)
    ensures var rs := Assessments(Candidates(ForPlacement, v), req);
      rs != [] && Restored(rs, c, rs[0]) == Assess(c, req)
  {
    var cs := Candidates(ForPlacement, v);
    var rs := Assessments(cs, req);
    AssessmentNames(v, c, req);
    var i :| 0 <= i < |cs| && cs[i] == c;
    AssessmentAt(cs, req, i);
    RestoredFinds(rs, c, rs[0]);
    var j :| 0 <= j < |rs| && rs[j] == Restored(rs, c, rs[0]);
    AssessmentAt(cs, req, j);
    CandidatesIff(ForPlacement, v, cs[j]);
    NamedIsSame(v, req, cs[j], c);
  }

  lemma NamedIsSame(v: View, req: Request, d: Candidate, c: Candidate)
    requires FiledById(v.devices, v.regions, v.pools)
    requires Drawn(ForPlacement, v, c) && Drawn(ForPlacement, v, d) && Names(Assess(d, req), c)
    ensures d == c
  {
    AssessmentNames(v, d, req);
    DrawnByName(v, d, c);
  }

  // ---- failover ----

  datatype FailoverOutcome = Failover | DegradedFallback | Reject

  datatype FailoverPlan = FailoverPlan(outcome: FailoverOutcome, replacement: Option<Candidate>)

  function DomainIn(ms: seq<PoolMember>, failed: Str, found: Str): Str {
    if ms == [] then found
    else if ms[|ms| - 1].device == failed then ms[|ms| - 1].failureDomain
    else DomainIn(ms[..|ms| - 1], failed, found)
  }

  function DomainAlong(pools: map<Str, Pool>, keys: seq<Str>, failed: Str): Str
    requires forall k | k in keys :: k in pools
  {
    if keys == [] then []
    else DomainIn(pools[keys[|keys| - 1]].members, failed, DomainAlong(pools, keys[..|keys| - 1], failed))
  }

  /** The failure domain recorded for a device by the last pool membership that names it. */
  function FailedDomain(v: View, failed: Str): Str {
    SortedKeysCover(v.pools.Keys);
    DomainAlong(v.pools, SortedKeys(v.pools.Keys), failed)
  }

  predicate SameDomain(domain: Str, c: Candidate) {
    domain != [] && c.deviceRecord.economics.notes == domain
  }

  /** The candidates whose domain matches (or, with same false, does not match) the failed one. */
  function OfDomain(cs: seq<Candidate>, domain: Str, same: bool): seq<Candidate> {
    if cs == [] then []
    else
      var c := cs[|cs| - 1];
      OfDomain(cs[..|cs| - 1], domain, same) + if SameDomain(domain, c) == same then [c] else []
  }

  function Plan(v: View, scope: Str, failed: Str, req: Request): FailoverPlan {
    var passing := Passing(Candidates(ForReplacement(scope, failed), v), req);
    var cross := OfDomain(passing, FailedDomain(v, failed), false);
    var same := OfDomain(passing, FailedDomain(v, failed), true);
    if cross != [] then FailoverPlan(Failover, Some(cross[0]))
    else if same != [] then FailoverPlan(DegradedFallback, Some(same[0]))
    else FailoverPlan(Reject, None)
  }

  lemma {:induction false} OfDomainIff(cs: seq<Candidate>, domain: Str, same: bool, c: Candidate)
    ensures c in OfDomain(cs, domain, same) <==> c in cs && SameDomain(domain, c) == same
  {
    if cs != [] {
      var n := |cs| - 1;
      assert cs == cs[..n] + [cs[n]];
      OfDomainIff(cs[..n], domain, same, c);
    }
  }

  /** A device other than the failed one that could take over in the given scope. */
  ghost predicate Replacement(v: View, scope: Str, failed: Str, req: Request, c: Candidate) {
    Drawn(ForReplacement(scope, failed), v, c) && Passes(c, req)
  }

  lemma OfDomainReplacement(v: View, scope: Str, failed: Str, req: Request, same: bool, c: Candidate)
    ensures c in OfDomain(Passing(Candidates(ForReplacement(scope, failed), v), req), FailedDomain(v, failed), same)
      <==> Replacement(v, scope, failed, req, c) && SameDomain(FailedDomain(v, failed), c) == same
  {
    var q := ForReplacement(scope, failed);
    OfDomainIff(Passing(Candidates(q, v), req), FailedDomain(v, failed), same, c);
    PassingIff(Candidates(q, v), req, c);
    CandidatesIff(q, v, c);
  }

  ghost predicate SomeReplacement(v: View, scope: Str, failed: Str, req: Request, same: bool) {
    exists c :: Replacement(v, scope, failed, req, c) && SameDomain(FailedDomain(v, failed), c) == same
  }

  lemma OfDomainNonEmpty(v: View, scope: Str, failed: Str, req: Request, same: bool)
    ensures var cs := OfDomain(Passing(Candidates(ForReplacement(scope, failed), v), req),
                               FailedDomain(v, failed), same);
      && (cs != [] <==> SomeReplacement(v, scope, failed, req, same))
      && (cs != [] ==> Replacement(v, scope, failed, req, cs[0]) &&
                       SameDomain(FailedDomain(v, failed), cs[0]) == same)
  {
    var cs := OfDomain(Passing(Candidates(ForReplacement(scope, failed), v), req), FailedDomain(v, failed), same);
    if cs != [] { OfDomainReplacement(v, scope, failed, req, same, cs[0]); }
    forall c | Replacement(v, scope, failed, req, c) && SameDomain(FailedDomain(v, failed), c) == same
      ensures c in cs
    {
      OfDomainReplacement(v, scope, failed, req, same, c);
    }
  }

  // ---- the domain a failed device is recorded in ----

  /** Member j of pool k names the device, and no later member of k and no later pool does. */
  ghost predicate LastNaming(pools: map<Str, Pool>, keys: seq<Str>, failed: Str, k: Str, j: nat)
    requires forall l | l in keys :: l in pools
  {
    && k in keys && j < |pools[k].members| && pools[k].members[j].device == failed
    && forall l, i | l in keys && 0 <= i < |pools[l].members| && pools[l].members[i].device == failed ::
        LexLess(l, k) || (l == k && i <= j)
  }

  ghost predicate NoneNames(pools: map<Str, Pool>, keys: seq<Str>, failed: Str)
    requires forall l | l in keys :: l in pools
  {
    forall l, i | l in keys && 0 <= i < |pools[l].members| :: pools[l].members[i].device != failed
  }

  /** The domain of the last membership that names the device, in the order of pool ids; empty if none does. */
  ghost predicate RecordedAlong(pools: map<Str, Pool>, keys: seq<Str>, failed: Str, domain: Str)
    requires forall l | l in keys :: l in pools
  {
    || (NoneNames(pools, keys, failed) && domain == [])
    || exists k, j: nat :: LastNaming(pools, keys, failed, k, j) && domain == pools[k].members[j].failureDomain
  }

  ghost predicate Recorded(v: View, failed: Str, domain: Str) {
    SortedKeysCover(v.pools.Keys);
    RecordedAlong(v.pools, SortedKeys(v.pools.Keys), failed, domain)
  }

  lemma {:induction false} DomainInLast(ms: seq<PoolMember>, failed: Str, found: Str) returns (j: nat)
    ensures j < |ms| ==>
      && ms[j].device == failed && DomainIn(ms, failed, found) == ms[j].failureDomain
      && forall i | j < i < |ms| :: ms[i].device != failed
    ensures j >= |ms| ==> DomainIn(ms, failed, found) == found && forall i | 0 <= i < |ms| :: ms[i].device != failed
  {
    j := 0;
    if ms != [] {
      var n := |ms| - 1;
      if ms[n].device == failed {
        j := n;
      } else {
        var i := DomainInLast(ms[..n], failed, found);
        j := if i < n then i else n + 1;
        assert i >= n ==> forall m | 0 <= m < n :: ms[m] == ms[..n][m];
        assert i < n ==> forall m | i < m < n :: ms[m] == ms[..n][m];
      }
    }
  }

  lemma {:induction false} DomainAlongRecorded(pools: map<Str, Pool>, keys: seq<Str>, failed: Str)
    requires (forall k | k in keys :: k in pools) && Ascending(keys)
    ensures RecordedAlong(pools, keys, failed, DomainAlong(pools, keys, failed))
  {
    if keys != [] {
      var n := |keys| - 1;
      var init, last := keys[..n], keys[n];
      DomainAlongRecorded(pools, init, failed);
      assert keys == init + [last] && forall l | l in init :: LexLess(l, last);
      var j := DomainInLast(pools[last].members, failed, DomainAlong(pools, init, failed));
      if j < |pools[last].members| {
        assert LastNaming(pools, keys, failed, last, j);
      } else if !NoneNames(pools, init, failed) {
        var k, i: nat :|
          && LastNaming(pools, init, failed, k, i)
          && DomainAlong(pools, init, failed) == pools[k].members[i].failureDomain;
        assert LastNaming(pools, keys, failed, k, i);
      }
    }
  }

  lemma RecordedUnique(pools: map<Str, Pool>, keys: seq<Str>, failed: Str, d: Str, e: Str)
    requires forall l | l in keys :: l in pools
    requires RecordedAlong(pools, keys, failed, d) && RecordedAlong(pools, keys, failed, e)
    ensures d == e
  {
    if !NoneNames(pools, keys, failed) {
      var k, i: nat :| LastNaming(pools, keys, failed, k, i) && d == pools[k].members[i].failureDomain;
      var l, j: nat :| LastNaming(pools, keys, failed, l, j) && e == pools[l].members[j].failureDomain;
      LexTrichotomy(k, l);
    }
  }

  lemma FailedDomainIs(v: View, failed: Str, domain: Str)
    ensures Recorded(v, failed, domain) <==> domain == FailedDomain(v, failed)
  {
    SortedKeysCover(v.pools.Keys);
    SortedKeysAscend(v.pools.Keys);
    DomainAlongRecorded(v.pools, SortedKeys(v.pools.Keys), failed);
    if Recorded(v, failed, domain) {
      RecordedUnique(v.pools, SortedKeys(v.pools.Keys), failed, domain, FailedDomain(v, failed));
    }
  }

  /** A replacement whose own domain, kept in its notes, is not the recorded one; an unrecorded domain matches none. */
  ghost predicate CrossDomain(domain: Str, c: Candidate) {
    domain == [] || c.deviceRecord.economics.notes != domain
  }

  ghost predicate AnyReplacement(v: View, scope: Str, failed: Str, req: Request) {
    exists c :: Replacement(v, scope, failed, req, c)
  }

  ghost predicate CrossReplacement(v: View, scope: Str, failed: Str, req: Request, domain: Str) {
    exists c :: Replacement(v, scope, failed, req, c) && CrossDomain(domain, c)
  }

  lemma DomainsSplit(v: View, scope: Str, failed: Str, req: Request)
    ensures SomeReplacement(v, scope, failed, req, false) <==>
      CrossReplacement(v, scope, failed, req, FailedDomain(v, failed))
    ensures SomeReplacement(v, scope, failed, req, false) || SomeReplacement(v, scope, failed, req, true) <==>
      AnyReplacement(v, scope, failed, req)
  {
    forall c ensures CrossDomain(FailedDomain(v, failed), c) <==> !SameDomain(FailedDomain(v, failed), c) {}
  }

  lemma PlanParts(v: View, scope: Str, failed: Str, req: Request)
    ensures var plan := Plan(v, scope, failed, req);
      && (plan.outcome.Failover? <==> SomeReplacement(v, scope, failed, req, false))
      && (plan.outcome.Reject? <==> !SomeReplacement(v, scope, failed, req, false) &&
                                    !SomeReplacement(v, scope, failed, req, true))
      && (plan.outcome.Reject? <==> plan.replacement.None?)
      && (!plan.outcome.Reject? ==>
            && Replacement(v, scope, failed, req, plan.replacement.value)
            && (plan.outcome.Failover? <==> !SameDomain(FailedDomain(v, failed), plan.replacement.value)))
  {
    OfDomainNonEmpty(v, scope, failed, req, false);
    OfDomainNonEmpty(v, scope, failed, req, true);
  }

  /**
   * The plan is exact. FAILOVER: some replacement lies outside the domain the failed device is recorded in. DEGRADED:
   * there are replacements, all inside it. REJECT: there is none. The replacement is always one of the kind found.
   */
  lemma FailoverExact(v: View, scope: Str, failed: Str, req: Request, domain: Str)
    requires Recorded(v, failed, domain)
    ensures var plan := Plan(v, scope, failed, req);
      && (plan.outcome.Failover? <==> CrossReplacement(v, scope, failed, req, domain))
      && (plan.outcome.DegradedFallback? <==>
            AnyReplacement(v, scope, failed, req) && !CrossReplacement(v, scope, failed, req, domain))
      && (plan.outcome.Reject? <==> !AnyReplacement(v, scope, failed, req))
      && (plan.outcome.Reject? <==> plan.replacement.None?)
      && (!plan.outcome.Reject? ==>
            && Replacement(v, scope, failed, req, plan.replacement.value)
            && (plan.outcome.Failover? <==> CrossDomain(domain, plan.replacement.value)))
  {
    FailedDomainIs(v, failed, domain);
    PlanParts(v, scope, failed, req);
    DomainsSplit(v, scope, failed, req);
  }

  /** The usual case, one membership for the device: its failure domain is the recorded one. */
  lemma RecordedOnce(v: View, failed: Str, k: Str, j: nat)
    requires k in v.pools && j < |v.pools[k].members| && v.pools[k].members[j].device == failed
    requires forall l, i | l in v.pools && 0 <= i < |v.pools[l].members| && v.pools[l].members[i].device == failed ::
      l == k && i == j
    ensures Recorded(v, failed, v.pools[k].members[j].failureDomain)
  {
    SortedKeysCover(v.pools.Keys);
    assert LastNaming(v.pools, SortedKeys(v.pools.Keys), failed, k, j);
  }

  /** A device that no pool names has no recorded domain, so that any replacement is a FAILOVER. */
  lemma RecordedNowhere(v: View, failed: Str)
    requires forall l, i | l in v.pools && 0 <= i < |v.pools[l].members| :: v.pools[l].members[i].device != failed
    ensures Recorded(v, failed, [])
  {
    SortedKeysCover(v.pools.Keys);
  }

  /** A replacement is never the failed device, and only a degraded plan stays in the failed domain. */
  lemma ReplacementIsElsewhere(v: View, scope: Str, failed: Str, req: Request, domain: Str)
    requires Recorded(v, failed, domain) && !Plan(v, scope, failed, req).outcome.Reject?
    ensures var plan := Plan(v, scope, failed, req);
      && plan.replacement.Some? && plan.replacement.value.device != failed
      && (plan.outcome.DegradedFallback? <==>
            domain != [] && plan.replacement.value.deviceRecord.economics.notes == domain)
  {
    FailoverExact(v, scope, failed, req, domain);
  }

  /** Whenever failover finds a replacement, selection succeeds on the same snapshot and request. */
  lemma FailoverImpliesSelectable(v: View, scope: Str, failed: Str, req: Request)
    requires !Plan(v, scope, failed, req).outcome.Reject?
    ensures Select(v, req).ok
  {
    FailedDomainIs(v, failed, FailedDomain(v, failed));
    FailoverExact(v, scope, failed, req, FailedDomain(v, failed));
    var _ := ReplacementIsPlaceable(v, scope, failed, req, Plan(v, scope, failed, req).replacement.value);
    SelectSucceedsIff(v, req);
  }

  lemma ReplacementIsPlaceable(v: View, scope: Str, failed: Str, req: Request, c: Candidate) returns (d: Candidate)
    requires Replacement(v, scope, failed, req, c)
    ensures Drawn(ForPlacement, v, d) && Passes(d, req)
  {
    var q := ForReplacement(scope, failed);
    var p, r, name :|
      && p in v.pools && r in v.regions && name in v.regions[r].members
      && PoolInPlay(q, p, v.pools[p]) && RegionInPlay(v.pools[p], v.regions[r]) && DeviceInPlay(q, v, name)
      && c == MakeCandidate(q, v.pools[p], v.regions[r], name, v.devices[name]);
    d := MakeCandidate(ForPlacement, v.pools[p], v.regions[r], name, v.devices[name]);
    assert Passes(d, req);
    assert PoolInPlay(ForPlacement, p, v.pools[p]) && DeviceInPlay(ForPlacement, v, name);
  }

  // ---- the loops of build_selection and plan_failover ----

  lemma PassingExtends(cs: seq<Candidate>, c: Candidate, req: Request)
    ensures Passing(cs + [c], req) == Passing(cs, req) + if Assess(c, req).selected then [c] else []
    ensures Assessments(cs + [c], req) == Assessments(cs, req) + [Assess(c, req)]
  {
    assert (cs + [c])[..|cs|] == cs;
  }

  /** The nested enumeration loops, shared in shape by selection and failover. */
  method Enumerate(q: Query, v: View) returns (cs: seq<Candidate>)
    ensures cs == Candidates(q, v)
  {
    cs := [];
    var keys := SortedKeys(v.pools.Keys);
    SortedKeysCover(v.pools.Keys);
    for i := 0 to |keys|
      invariant cs == PoolCandidates(q, v, keys[..i])
    {
      assert keys[..i + 1][..i] == keys[..i];
      if !PoolInPlay(q, keys[i], v.pools[keys[i]]) { continue; }
      var more := EnumeratePool(q, v, v.pools[keys[i]]);
      cs := cs + more;
    }
    assert keys[..|keys|] == keys;
  }

  method EnumeratePool(q: Query, v: View, pool: Pool) returns (cs: seq<Candidate>)
    ensures cs == PoolsRegionCandidates(q, v, pool)
  {
    cs := [];
    var keys := SortedKeys(v.regions.Keys);
    SortedKeysCover(v.regions.Keys);
    for j := 0 to |keys|
      invariant cs == RegionCandidates(q, v, pool, keys[..j])
    {
      assert keys[..j + 1][..j] == keys[..j];
      var region := v.regions[keys[j]];
      if !RegionInPlay(pool, region) { continue; }
      var more := EnumerateRegion(q, v, pool, region);
      cs := cs + more;
    }
    assert keys[..|keys|] == keys;
  }

  method EnumerateRegion(q: Query, v: View, pool: Pool, region: Region) returns (cs: seq<Candidate>)
    ensures cs == DeviceCandidates(q, v, pool, region, region.members)
  {
    cs := [];
    for k := 0 to |region.members|
      invariant cs == DeviceCandidates(q, v, pool, region, region.members[..k])
    {
      assert region.members[..k + 1][..k] == region.members[..k];
      var name := region.members[k];
      if !DeviceInPlay(q, v, name) { continue; }
      cs := cs + [MakeCandidate(q, pool, region, name, v.devices[name])];
    }
    assert region.members[..|region.members|] == region.members;
  }

  method Filter(cs: seq<Candidate>, req: Request)
    returns (results: seq<SelectionResult>, selected: seq<Candidate>)
    ensures results == Assessments(cs, req) && selected == Passing(cs, req)
  {
    results, selected := [], [];
    for i := 0 to |cs|
      invariant results == Assessments(cs[..i], req) && selected == Passing(cs[..i], req)
    {
      assert cs[..i + 1] == cs[..i] + [cs[i]];
      PassingExtends(cs[..i], cs[i], req);
      var r := Assess(cs[i], req);
      results := results + [r];
      if r.selected { selected := selected + [cs[i]]; }
    }
    assert cs[..|cs|] == cs;
  }

  method BuildSelection(v: View, req: Request) returns (out: SelectionOutcome)
    ensures out == Select(v, req)
  {
    var cs := Enumerate(ForPlacement, v);
    var results, selected := Filter(cs, req);
    if selected != [] {
      var chosen := Sort(Better, selected)[0];
      var result := results[0];
      for i := 0 to |results|
        invariant Restored(results, chosen, results[0]) == Restored(results[i..], chosen, results[0])
        invariant result == results[0]
      {
        if Names(results[i], chosen) {
          return SelectionOutcome(true, Some(chosen), results[i], results);
        }
        assert results[i..][1..] == results[i + 1..];
      }
      return SelectionOutcome(true, Some(chosen), result, results);
    }
    if results != [] { return SelectionOutcome(false, None, results[0].(selected := false), results); }
    out := SelectionOutcome(false, None, NO_RESULT.(reason := CAPACITY_INSUFFICIENT), results);
  }

  method FindFailedDomain(v: View, failed: Str) returns (domain: Str)
    ensures domain == FailedDomain(v, failed)
  {
    domain := [];
    var keys := SortedKeys(v.pools.Keys);
    SortedKeysCover(v.pools.Keys);
    for i := 0 to |keys|
      invariant domain == DomainAlong(v.pools, keys[..i], failed)
    {
      assert keys[..i + 1][..i] == keys[..i];
      var members := v.pools[keys[i]].members;
      ghost var before := domain;
      for j := 0 to |members|
        invariant domain == DomainIn(members[..j], failed, before)
      {
        assert members[..j + 1][..j] == members[..j];
        if members[j].device == failed { domain := members[j].failureDomain; }
      }
      assert members[..|members|] == members;
    }
    assert keys[..|keys|] == keys;
  }

  method SplitByDomain(passing: seq<Candidate>, domain: Str) returns (cross: seq<Candidate>, same: seq<Candidate>)
    ensures cross == OfDomain(passing, domain, false) && same == OfDomain(passing, domain, true)
  {
    cross, same := [], [];
    for i := 0 to |passing|
      invariant cross == OfDomain(passing[..i], domain, false) && same == OfDomain(passing[..i], domain, true)
    {
      assert passing[..i + 1][..i] == passing[..i];
      if SameDomain(domain, passing[i]) { same := same + [passing[i]]; } else { cross := cross + [passing[i]]; }
    }
    assert passing[..|passing|] == passing;
  }

  method PlanFailover(v: View, scope: Str, failed: Str, req: Request) returns (plan: FailoverPlan)
    ensures plan == Plan(v, scope, failed, req)
  {
    var domain := FindFailedDomain(v, failed);
    var cs := Enumerate(ForReplacement(scope, failed), v);
    var _, passing := Filter(cs, req);
    var cross, same := SplitByDomain(passing, domain);
    if cross != [] {
      plan := FailoverPlan(Failover, Some(cross[0]));
    } else if same != [] {
      plan := FailoverPlan(DegradedFallback, Some(same[0]));
    } else {
      plan := FailoverPlan(Reject, None);
    }
  }
}
