/** The order in which candidates are enumerated, and what depends on it. */
module Enumeration {
  import opened Base
  import opened Order
  import opened Records
  import opened Evaluation
  import opened Placement

  /** A place in a snapshot: a pool, a region, and a position in the region's member list. */
  datatype Spot = Spot(pool: Str, region: Str, position: nat)

  predicate Known(v: View, o: Spot) {
    && o.pool in v.pools && o.region in v.regions && o.position < |v.regions[o.region].members|
    && v.regions[o.region].members[o.position] in v.devices
  }

  /**
   * The records of the spot belong together, have current evidence and are online. A placement wants a pool that
   * admits; a replacement wants the pool asked for, if any, and a device other than the failed one.
   */
  predicate Usable(q: Query, v: View, o: Spot) {
    && Known(v, o)
    && var p, r, name := v.pools[o.pool], v.regions[o.region], v.regions[o.region].members[o.position];
      && r.pool == p.id && p.evidenceCurrent && r.evidenceCurrent && v.devices[name].evidenceCurrent
      && r.state.RegionOnline? && v.devices[name].state.Online?
      && match q
         case ForPlacement => p.state.PoolAvailable? || p.state.PoolDefined?
         case ForReplacement(scope, failed) => (scope == [] || o.pool == scope) && name != failed
  }

  function At(q: Query, v: View, o: Spot): Candidate
    requires Known(v, o)
  {
    var p, r, name := v.pools[o.pool], v.regions[o.region], v.regions[o.region].members[o.position];
    var d := v.devices[name];
    Candidate(p.id, p.generation, r.id, r.generation, if q.ForPlacement? then d.id else name, d.generation,
              RegionFree(r), d, r, p)
  }

  predicate Before(a: Spot, b: Spot) {
    LexLess(a.pool, b.pool) ||
    (a.pool == b.pool && (LexLess(a.region, b.region) || (a.region == b.region && a.position < b.position)))
  }

  /** The candidates are those of the spots, which are usable and in order. */
  ghost predicate Listed(q: Query, v: View, spots: seq<Spot>, cs: seq<Candidate>) {
    && |spots| == |cs|
    && (forall i | 0 <= i < |spots| :: Usable(q, v, spots[i]) && cs[i] == At(q, v, spots[i]))
    && (forall i, j | 0 <= i < j < |spots| :: Before(spots[i], spots[j]))
  }

  lemma Appended(q: Query, v: View, a: seq<Spot>, cs: seq<Candidate>, b: seq<Spot>, ds: seq<Candidate>)
    requires Listed(q, v, a, cs) && Listed(q, v, b, ds)
    requires forall x, y | x in a && y in b :: Before(x, y)
    ensures Listed(q, v, a + b, cs + ds)
  {
    forall i, j | 0 <= i < j < |a + b| ensures Before((a + b)[i], (a + b)[j]) {
      if i < |a| && |a| <= j { assert (a + b)[i] in a && (a + b)[j] in b; }
    }
  }

  lemma {:induction false} DeviceSpots(q: Query, v: View, p: Str, r: Str, n: nat) returns (spots: seq<Spot>)
    requires p in v.pools && r in v.regions && n <= |v.regions[r].members|
    requires PoolInPlay(q, p, v.pools[p]) && RegionInPlay(v.pools[p], v.regions[r])
    ensures Listed(q, v, spots, DeviceCandidates(q, v, v.pools[p], v.regions[r], v.regions[r].members[..n]))
    ensures forall o | o in spots :: o.pool == p && o.region == r && o.position < n
    ensures forall i: nat | i < n && Usable(q, v, Spot(p, r, i)) :: Spot(p, r, i) in spots
  {
    spots := [];
    if n > 0 {
      var ms := v.regions[r].members;
      var init := DeviceSpots(q, v, p, r, n - 1);
      assert ms[..n][..n - 1] == ms[..n - 1];
      var o := Spot(p, r, n - 1);
      if DeviceInPlay(q, v, ms[n - 1]) {
        Appended(q, v, init, DeviceCandidates(q, v, v.pools[p], v.regions[r], ms[..n - 1]), [o], [At(q, v, o)]);
        spots := init + [o];
      } else {
        spots := init;
      }
    }
  }

  lemma {:induction false} RegionSpots(q: Query, v: View, p: Str, keys: seq<Str>) returns (spots: seq<Spot>)
    requires p in v.pools && (forall k | k in keys :: k in v.regions) && Ascending(keys)
    requires PoolInPlay(q, p, v.pools[p])
    ensures Listed(q, v, spots, RegionCandidates(q, v, v.pools[p], keys))
    ensures forall o | o in spots :: o.pool == p && o.region in keys
    ensures forall o | Usable(q, v, o) && o.pool == p && o.region in keys :: o in spots
  {
    spots := [];
    if keys != [] {
      var n := |keys| - 1;
      var init, last := keys[..n], keys[n];
      assert keys == init + [last] && forall k | k in init :: LexLess(k, last);
      var before := RegionSpots(q, v, p, init);
      if RegionInPlay(v.pools[p], v.regions[last]) {
        var ms := v.regions[last].members;
        var here := DeviceSpots(q, v, p, last, |ms|);
        assert ms[..|ms|] == ms;
        Appended(q, v, before, RegionCandidates(q, v, v.pools[p], init),
                 here, DeviceCandidates(q, v, v.pools[p], v.regions[last], ms));
        spots := before + here;
        forall o | Usable(q, v, o) && o.pool == p && o.region == last ensures o in spots {
          assert o == Spot(p, last, o.position);
        }
      } else {
        spots := before;
      }
    }
  }

  lemma {:induction false} PoolSpots(q: Query, v: View, keys: seq<Str>) returns (spots: seq<Spot>)
    requires (forall k | k in keys :: k in v.pools) && Ascending(keys)
    ensures Listed(q, v, spots, PoolCandidates(q, v, keys))
    ensures forall o | o in spots :: o.pool in keys
    ensures forall o | Usable(q, v, o) && o.pool in keys :: o in spots
  {
    spots := [];
    if keys != [] {
      var n := |keys| - 1;
      var init, last := keys[..n], keys[n];
      assert keys == init + [last] && forall k | k in init :: LexLess(k, last);
      var before := PoolSpots(q, v, init);
      if PoolInPlay(q, last, v.pools[last]) {
        SortedKeysCover(v.regions.Keys);
        SortedKeysAscend(v.regions.Keys);
        var here := RegionSpots(q, v, last, SortedKeys(v.regions.Keys));
        Appended(q, v, before, PoolCandidates(q, v, init), here, PoolsRegionCandidates(q, v, v.pools[last]));
        spots := before + here;
      } else {
        spots := before;
      }
    }
  }

  /** Enumeration lists every usable spot once, by pool id, then region id, then position. */
  lemma CandidatesInOrder(q: Query, v: View) returns (spots: seq<Spot>)
    ensures Listed(q, v, spots, Candidates(q, v))
    ensures forall o :: Usable(q, v, o) <==> o in spots
  {
    SortedKeysCover(v.pools.Keys);
    SortedKeysAscend(v.pools.Keys);
    spots := PoolSpots(q, v, SortedKeys(v.pools.Keys));
  }

  /** A candidate is drawn exactly when it is the one at some usable spot. */
  lemma DrawnIff(q: Query, v: View, c: Candidate)
    ensures Drawn(q, v, c) <==> exists o :: Usable(q, v, o) && c == At(q, v, o)
  {
    var spots := CandidatesInOrder(q, v);
    CandidatesIff(q, v, c);
    if c in Candidates(q, v) {
      var i :| 0 <= i < |Candidates(q, v)| && Candidates(q, v)[i] == c;
      assert Usable(q, v, spots[i]) && c == At(q, v, spots[i]);
    }
    forall o | Usable(q, v, o) && c == At(q, v, o) ensures c in Candidates(q, v) {
      var i :| 0 <= i < |spots| && spots[i] == o;
      assert Candidates(q, v)[i] == c;
    }
  }

  // ---- what selection reports ----

  /** Every usable spot is evaluated, in order; a refused selection repeats the first evaluation. */
  lemma SelectionReports(v: View, req: Request) returns (spots: seq<Spot>)
    ensures forall o :: Usable(ForPlacement, v, o) <==> o in spots
    ensures forall i, j | 0 <= i < j < |spots| :: Before(spots[i], spots[j])
    ensures var out := Select(v, req);
      && |out.candidates| == |spots|
      && (forall i | 0 <= i < |spots| ::
            && Usable(ForPlacement, v, spots[i])
            && out.candidates[i] == Evaluate(At(ForPlacement, v, spots[i]), req, true))
      && (!out.ok && spots == [] ==> out.result.reason == CAPACITY_INSUFFICIENT && !out.result.selected)
      && (!out.ok && spots != [] ==> out.result == out.candidates[0])
  {
    spots := CandidatesInOrder(ForPlacement, v);
    var cs := Candidates(ForPlacement, v);
    forall i | 0 <= i < |spots|
      ensures Assessments(cs, req)[i] == Evaluate(At(ForPlacement, v, spots[i]), req, true)
    {
      AssessmentAt(cs, req, i);
    }
    if !Select(v, req).ok && spots != [] {
      AssessmentAt(cs, req, 0);
      if Assess(cs[0], req).selected { PassingKeepsFirst(cs, req); }
    }
  }

  /** The result of a successful selection describes the chosen spot as the snapshot has it. */
  lemma ResultDescribesChoice(v: View, req: Request) returns (o: Spot)
    requires FiledById(v.devices, v.regions, v.pools) && Select(v, req).ok
    ensures Usable(ForPlacement, v, o) && Select(v, req).chosen == Some(At(ForPlacement, v, o))
    ensures var r, name := Select(v, req).result, v.regions[o.region].members[o.position];
      && r.selected && r.reason == OK && r.pool == o.pool && r.region == o.region && r.device == name
      && r.locality == v.devices[name].economics.locality && r.health == v.devices[name].health
      && r.evidenceCurrent && r.freeBytes == RegionFree(v.regions[o.region]) && r.rejections == []
  {
    SelectionSound(v, req);
    SelectionReportsChosen(v, req);
    var c := Select(v, req).chosen.value;
    SelectedExactlyWhenPassing(c, req);
    DrawnIff(ForPlacement, v, c);
    o :| Usable(ForPlacement, v, o) && c == At(ForPlacement, v, o);
  }

  // ---- which replacement a failover takes ----

  ghost predicate Taken(req: Request, domain: Str, same: bool, c: Candidate) {
    Passes(c, req) && SameDomain(domain, c) == same
  }

  /** ts are the candidates that pass and lie inside, or outside, the domain; nothing unfolds where this is used. */
  ghost predicate Takers(cs: seq<Candidate>, req: Request, domain: Str, same: bool, ts: seq<Candidate>) {
    forall x | x == cs :: ts == OfDomain(Passing(x, req), domain, same)
  }

  lemma OfDomainAppend(cs: seq<Candidate>, c: Candidate, domain: Str, same: bool)
    ensures OfDomain(cs + [c], domain, same) ==
      OfDomain(cs, domain, same) + if SameDomain(domain, c) == same then [c] else []
  {
    assert (cs + [c])[..|cs|] == cs;
  }

  lemma TakersAppend(cs: seq<Candidate>, c: Candidate, req: Request, domain: Str, same: bool)
    returns (before: seq<Candidate>)
    ensures Takers(cs, req, domain, same, before)
    ensures Takers(cs + [c], req, domain, same, before + if Taken(req, domain, same, c) then [c] else [])
  {
    before := OfDomain(Passing(cs, req), domain, same);
    SelectedExactlyWhenPassing(c, req);
    PassingExtends(cs, c, req);
    OfDomainAppend(Passing(cs, req), c, domain, same);
    assert Passing(cs, req) + [] == Passing(cs, req);
    assert before + [] == before;
  }

  lemma TakersUnique(cs: seq<Candidate>, req: Request, domain: Str, same: bool, ts: seq<Candidate>, us: seq<Candidate>)
    requires Takers(cs, req, domain, same, ts) && Takers(cs, req, domain, same, us)
    ensures ts == us
  {
    assert ts == OfDomain(Passing(cs, req), domain, same) && us == OfDomain(Passing(cs, req), domain, same);
  }

  lemma {:induction false} FirstTaker(
    cs: seq<Candidate>, req: Request, domain: Str, same: bool, ts: seq<Candidate>) returns (i: nat)
    requires Takers(cs, req, domain, same, ts)
    ensures ts == [] ==> forall j | 0 <= j < |cs| :: !Taken(req, domain, same, cs[j])
    ensures ts != [] ==>
      && i < |cs| && cs[i] == ts[0] && Taken(req, domain, same, cs[i])
      && forall j | 0 <= j < i :: !Taken(req, domain, same, cs[j])
  {
    i := 0;
    if cs == [] {
      assert ts == OfDomain(Passing(cs, req), domain, same);
    } else {
      var n := |cs| - 1;
      var init, c := cs[..n], cs[n];
      assert cs == init + [c] && forall j | 0 <= j < n :: init[j] == cs[j];
      var before := TakersAppend(init, c, req, domain, same);
      TakersUnique(cs, req, domain, same, ts, before + if Taken(req, domain, same, c) then [c] else []);
      i := FirstTaker(init, req, domain, same, before);
      if before == [] { i := n; }
    }
  }

  lemma PlanTakesFirst(v: View, scope: Str, failed: Str, req: Request) returns (ts: seq<Candidate>)
    requires !Plan(v, scope, failed, req).outcome.Reject?
    ensures var plan := Plan(v, scope, failed, req);
      && Takers(Candidates(ForReplacement(scope, failed), v), req, FailedDomain(v, failed), !plan.outcome.Failover?, ts)
      && ts != [] && plan.replacement == Some(ts[0])
  {
    ts := OfDomain(Passing(Candidates(ForReplacement(scope, failed), v), req), FailedDomain(v, failed),
                   !Plan(v, scope, failed, req).outcome.Failover?);
  }

  /** The spot can take over, in another domain or, for a degraded plan, in the same one. */
  ghost predicate TakesOver(v: View, scope: Str, failed: Str, req: Request, domain: Str, cross: bool, o: Spot) {
    && Usable(ForReplacement(scope, failed), v, o)
    && var c := At(ForReplacement(scope, failed), v, o); Passes(c, req) && CrossDomain(domain, c) == cross
  }

  lemma FirstSpot(v: View, scope: Str, failed: Str, req: Request, domain: Str, cross: bool, spots: seq<Spot>,
                  cs: seq<Candidate>, i: nat)
    requires Listed(ForReplacement(scope, failed), v, spots, cs) && i < |cs|
    requires forall o :: Usable(ForReplacement(scope, failed), v, o) <==> o in spots
    requires Taken(req, domain, !cross, cs[i]) && forall j | 0 <= j < i :: !Taken(req, domain, !cross, cs[j])
    ensures TakesOver(v, scope, failed, req, domain, cross, spots[i])
    ensures forall x | TakesOver(v, scope, failed, req, domain, cross, x) :: x == spots[i] || Before(spots[i], x)
  {
    forall x | TakesOver(v, scope, failed, req, domain, cross, x) ensures x == spots[i] || Before(spots[i], x) {
      var j :| 0 <= j < |spots| && spots[j] == x;
      assert Taken(req, domain, !cross, cs[j]);
    }
  }

  /** The replacement is at the first spot, in the order of ids, that can take over in the way the plan says. */
  lemma FirstReplacement(v: View, scope: Str, failed: Str, req: Request, domain: Str) returns (o: Spot)
    requires Recorded(v, failed, domain) && !Plan(v, scope, failed, req).outcome.Reject?
    ensures var plan := Plan(v, scope, failed, req);
      && TakesOver(v, scope, failed, req, domain, plan.outcome.Failover?, o)
      && plan.replacement == Some(At(ForReplacement(scope, failed), v, o))
      && forall x | TakesOver(v, scope, failed, req, domain, plan.outcome.Failover?, x) :: x == o || Before(o, x)
  {
    var q, cross := ForReplacement(scope, failed), Plan(v, scope, failed, req).outcome.Failover?;
    FailedDomainIs(v, failed, domain);
    var ts := PlanTakesFirst(v, scope, failed, req);
    var spots := CandidatesInOrder(q, v);
    var i := FirstTaker(Candidates(q, v), req, domain, !cross, ts);
    o := spots[i];
    FirstSpot(v, scope, failed, req, domain, cross, spots, Candidates(q, v), i);
  }
}
