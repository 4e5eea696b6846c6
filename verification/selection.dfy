/** Hard-constraint evaluation of one candidate. */
module Evaluation {
  import opened Base
  import opened Records

  /** A generation-bound pool, region and device, with the records they named when enumerated. */
  datatype Candidate = Candidate(
    pool: Str, poolGeneration: u64, region: Str, regionGeneration: u64, device: Str, deviceGeneration: u64,
    available: u64, deviceRecord: Device, regionRecord: Region, poolRecord: Pool)

  datatype SelectionResult = SelectionResult(
    selected: bool, reason: Reason, pool: Str, region: Str, device: Str, locality: Code, freeBytes: u64,
    health: Code, evidenceCurrent: bool, rejections: seq<Reason>)

  function PoolUsed(p: Pool): u64 {
    WrapAdd(WrapAdd(WrapAdd(p.unavailable, p.reserved), p.committed), p.draining)
  }

  lemma PoolUsedIsMod(p: Pool)
    ensures PoolUsed(p) == (p.unavailable + p.reserved + p.committed + p.draining) % 0x1_0000_0000_0000_0000
  {
    WrapIsMod(p.unavailable, p.reserved);
    WrapIsMod(WrapAdd(p.unavailable, p.reserved), p.committed);
    WrapIsMod(WrapAdd(WrapAdd(p.unavailable, p.reserved), p.committed), p.draining);
  }

  function PoolFree(p: Pool): u64 {
    if p.totalGoverned <= PoolUsed(p) then 0 else p.totalGoverned - PoolUsed(p)
  }

  function RegionFree(r: Region): u64 {
    var used := WrapAdd(r.reserved, r.committed);
    if r.capacity <= used then 0 else r.capacity - used
  }

  function LocalityOrdinal(l: Code): nat {
    if l < 9 then l else 9
  }

  predicate LocalitySatisfies(have: Code, need: Code) {
    LocalityOrdinal(have) <= LocalityOrdinal(need)
  }

  predicate BadHealth(h: Code) {
    h == HEALTH_FAILED || h == HEALTH_POISONED
  }

  predicate Admitting(p: Pool) {
    p.state.PoolAvailable? || p.state.PoolDefined?
  }

  /** The first failed check, or OK, in the order the source makes the checks. */
  function Rejection(c: Candidate, req: Request, poolEvidence: bool): Reason {
    var dev, reg, pool := c.deviceRecord, c.regionRecord, c.poolRecord;
    if !dev.evidenceCurrent || !reg.evidenceCurrent || !poolEvidence then EVIDENCE_STALE
    else if !dev.state.Online? then DEVICE_NOT_ONLINE
    else if !reg.state.RegionOnline? then REGION_NOT_ONLINE
    else if !Admitting(pool) then POOL_STALE
    else if BadHealth(dev.health) || BadHealth(reg.health) || BadHealth(pool.healthSummary) then HEALTH_UNACCEPTABLE
    else if c.available < req.bytes then CAPACITY_INSUFFICIENT
    else if req.requirePersistence && dev.volatility != VOLATILITY_PERSISTENT then VOLATILITY_MISMATCH
    else if req.volatility != VOLATILITY_UNKNOWN && dev.volatility != VOLATILITY_UNKNOWN &&
            req.volatility != dev.volatility then VOLATILITY_MISMATCH
    else if req.host != [] && dev.host != [] && req.host != dev.host then HOST_INCOMPATIBLE
    else if req.sharing != SHARING_UNKNOWN && dev.sharing != SHARING_UNKNOWN && req.sharing != dev.sharing
      then SHARING_MISMATCH
    else if req.requiredPool.Some? && req.requiredPool.value != pool.id then POOL_STALE
    else if req.minimumLocality.Some? && !LocalitySatisfies(dev.economics.locality, req.minimumLocality.value)
      then REQUIRED_LOCALITY_UNSATISFIED
    else if req.requiredTier.Some? && reg.tier != req.requiredTier.value then POLICY_DENIED
    else if req.acceleratorAccess.Some? && req.acceleratorAccess.value != dev.acceleratorAccess
      then ACCELERATOR_ACCESS_UNSATISFIED
    else if req.minimumBandwidth > 0 && dev.economics.bandwidth != 0 &&
            dev.economics.bandwidth < req.minimumBandwidth then POLICY_DENIED
    else if req.maximumLatency > 0 && dev.economics.latency != 0 &&
            dev.economics.latency > req.maximumLatency then POLICY_DENIED
    else OK
  }

  function Evaluate(c: Candidate, req: Request, poolEvidence: bool): SelectionResult {
    var why := Rejection(c, req, poolEvidence);
    if why != OK then
      SelectionResult(false, why, [], [], [], LOCALITY_UNKNOWN, 0, HEALTH_UNKNOWN, false, [why])
    else
      SelectionResult(true, OK, c.poolRecord.id, c.regionRecord.id, c.deviceRecord.id,
                      c.deviceRecord.economics.locality, c.available, c.deviceRecord.health,
                      c.deviceRecord.evidenceCurrent, [])
  }

  /** Localities from the nearest, 0, to UNKNOWN, 9; a code beyond the enumerators counts as UNKNOWN. */
  function Nearness(l: Code): nat {
    Min(l, 9)
  }

  /** The hard constraints of a request, with no order among them. */
  predicate Passes(c: Candidate, req: Request) {
    var dev, reg, pool := c.deviceRecord, c.regionRecord, c.poolRecord;
    && dev.evidenceCurrent && reg.evidenceCurrent && pool.evidenceCurrent
    && dev.state.Online? && reg.state.RegionOnline? && (pool.state.PoolAvailable? || pool.state.PoolDefined?)
    && {dev.health, reg.health, pool.healthSummary} !! {HEALTH_POISONED, HEALTH_FAILED}
    && req.bytes <= c.available
    && (req.requirePersistence ==> dev.volatility == VOLATILITY_PERSISTENT)
    && (req.volatility == dev.volatility || VOLATILITY_UNKNOWN in {req.volatility, dev.volatility})
    && (req.host == dev.host || req.host == [] || dev.host == [])
    && (req.sharing == dev.sharing || SHARING_UNKNOWN in {req.sharing, dev.sharing})
    && (req.requiredPool.Some? ==> req.requiredPool.value == pool.id)
    && (req.minimumLocality.Some? ==> Nearness(dev.economics.locality) <= Nearness(req.minimumLocality.value))
    && (req.requiredTier.Some? ==> reg.tier == req.requiredTier.value)
    && (req.acceleratorAccess.Some? ==> dev.acceleratorAccess == req.acceleratorAccess.value)
    && (dev.economics.bandwidth == 0 || req.minimumBandwidth <= dev.economics.bandwidth)
    && (req.maximumLatency == 0 || dev.economics.latency <= req.maximumLatency)
  }

  lemma SelectedExactlyWhenPassing(c: Candidate, req: Request)
    ensures Evaluate(c, req, c.poolRecord.evidenceCurrent).selected <==> Passes(c, req)
  {}

  // ---- which check refuses ----

  /** One hard constraint: whether it is met, and the reason given when it is not. */
  datatype Check = Check(met: bool, reason: Reason)

  // Codes are written out: health 3 is POISONED and 4 FAILED, volatility 1 is PERSISTENT and 2 UNKNOWN, sharing 2 is
  // UNKNOWN.

  function StateChecks(c: Candidate, poolEvidence: bool): seq<Check> {
    var dev, reg, pool := c.deviceRecord, c.regionRecord, c.poolRecord;
    [Check(dev.evidenceCurrent && reg.evidenceCurrent && poolEvidence, EVIDENCE_STALE),
     Check(dev.state.Online?, DEVICE_NOT_ONLINE),
     Check(reg.state.RegionOnline?, REGION_NOT_ONLINE),
     Check(pool.state.PoolAvailable? || pool.state.PoolDefined?, POOL_STALE),
     Check({dev.health, reg.health, pool.healthSummary} !! {3, 4}, HEALTH_UNACCEPTABLE)]
  }

  function RequestChecks(c: Candidate, req: Request): seq<Check> {
    var dev, reg, pool := c.deviceRecord, c.regionRecord, c.poolRecord;
    [Check(req.bytes <= c.available, CAPACITY_INSUFFICIENT),
     Check(req.requirePersistence ==> dev.volatility == 1, VOLATILITY_MISMATCH),
     Check(req.volatility == dev.volatility || 2 in {req.volatility, dev.volatility},
           VOLATILITY_MISMATCH),
     Check(req.host == dev.host || req.host == [] || dev.host == [], HOST_INCOMPATIBLE),
     Check(req.sharing == dev.sharing || 2 in {req.sharing, dev.sharing}, SHARING_MISMATCH),
     Check(req.requiredPool.Some? ==> req.requiredPool.value == pool.id, POOL_STALE),
     Check(req.minimumLocality.Some? ==> Nearness(dev.economics.locality) <= Nearness(req.minimumLocality.value),
           REQUIRED_LOCALITY_UNSATISFIED),
     Check(req.requiredTier.Some? ==> reg.tier == req.requiredTier.value, POLICY_DENIED),
     Check(req.acceleratorAccess.Some? ==> dev.acceleratorAccess == req.acceleratorAccess.value,
           ACCELERATOR_ACCESS_UNSATISFIED),
     Check(dev.economics.bandwidth == 0 || req.minimumBandwidth <= dev.economics.bandwidth, POLICY_DENIED),
     Check(req.maximumLatency == 0 || dev.economics.latency <= req.maximumLatency, POLICY_DENIED)]
  }

  /** Every check before i is met, and i is the end of the list or a check that is not met. */
  ghost predicate StopsAt(checks: seq<Check>, i: nat) {
    && i <= |checks| && (forall j | 0 <= j < i :: checks[j].met)
    && (i < |checks| ==> !checks[i].met)
  }

  lemma RejectionIsFirst(c: Candidate, req: Request, poolEvidence: bool, i: nat)
    requires StopsAt(StateChecks(c, poolEvidence) + RequestChecks(c, req), i)
    ensures var checks := StateChecks(c, poolEvidence) + RequestChecks(c, req);
      Rejection(c, req, poolEvidence) == if i < |checks| then checks[i].reason else OK
  {
    var first, second := StateChecks(c, poolEvidence), RequestChecks(c, req);
    var checks := first + second;
    assert checks[0] == first[0] && checks[1] == first[1] && checks[2] == first[2] && checks[3] == first[3];
    assert checks[4] == first[4] && checks[5] == second[0] && checks[6] == second[1] && checks[7] == second[2];
    assert checks[8] == second[3] && checks[9] == second[4] && checks[10] == second[5] && checks[11] == second[6];
    assert checks[12] == second[7] && checks[13] == second[8] && checks[14] == second[9] && checks[15] == second[10];
  }

  lemma ChecksHaveReasons(c: Candidate, req: Request, poolEvidence: bool)
    ensures forall i | 0 <= i < |StateChecks(c, poolEvidence) + RequestChecks(c, req)| ::
      (StateChecks(c, poolEvidence) + RequestChecks(c, req))[i].reason != OK
  {}

  /** Evaluation reports the first check that is not met, in the documented order, and selects when there is none. */
  lemma RefusedByFirst(c: Candidate, req: Request, poolEvidence: bool, i: nat)
    requires StopsAt(StateChecks(c, poolEvidence) + RequestChecks(c, req), i)
    ensures var checks, r := StateChecks(c, poolEvidence) + RequestChecks(c, req), Evaluate(c, req, poolEvidence);
      && r.reason == (if i < |checks| then checks[i].reason else OK)
      && r.selected == (i == |checks|)
      && r.rejections == (if i < |checks| then [checks[i].reason] else [])
  {
    RejectionIsFirst(c, req, poolEvidence, i);
    ChecksHaveReasons(c, req, poolEvidence);
  }
}

/** std::stable_sort by its contract, as an insertion sort over any strict weak order. */
module StableSorting {

  ghost predicate StrictWeak<T(!new)>(less: (T, T) -> bool) {
    && (forall a, b :: less(a, b) ==> !less(b, a))
    && (forall a, b, c :: less(a, c) ==> less(a, b) || less(b, c))
  }

  function Insert<T>(less: (T, T) -> bool, sorted: seq<T>, c: T): (t: seq<T>)
    ensures |t| == |sorted| + 1
  {
    if sorted == [] then [c]
    else
      var n := |sorted| - 1;
      if less(c, sorted[n]) then Insert(less, sorted[..n], c) + [sorted[n]] else sorted + [c]
  }

  function Sort<T>(less: (T, T) -> bool, s: seq<T>): (t: seq<T>)
    ensures |t| == |s|
  {
    if s == [] then [] else Insert(less, Sort(less, s[..|s| - 1]), s[|s| - 1])
  }

  ghost predicate Ordered<T>(less: (T, T) -> bool, s: seq<T>) {
    forall i, j | 0 <= i < j < |s| :: !less(s[j], s[i])
  }

  lemma {:induction false} InsertPermutes<T>(less: (T, T) -> bool, s: seq<T>, c: T)
    ensures multiset(Insert(less, s, c)) == multiset(s) + multiset{c}
  {
    if s != [] {
      var n := |s| - 1;
      assert s == s[..n] + [s[n]];
      InsertPermutes(less, s[..n], c);
    }
  }

  lemma {:induction false} InsertKeepsOrder<T(!new)>(less: (T, T) -> bool, s: seq<T>, c: T)
    requires StrictWeak(less) && Ordered(less, s)
    ensures Ordered(less, Insert(less, s, c))
    ensures Insert(less, s, c)[0] == if s == [] || less(c, s[0]) then c else s[0]
  {
    if s != [] {
      var n := |s| - 1;
      if less(c, s[n]) {
        var t := Insert(less, s[..n], c);
        InsertKeepsOrder(less, s[..n], c);
        forall i | 0 <= i < |t| ensures !less(s[n], t[i]) {
          InsertedFrom(less, s[..n], c, i);
        }
        OrderedAppend(less, t, s[n]);
      } else {
        forall i | 0 <= i < n ensures !less(c, s[i]) {
          assert !less(s[n], s[i]);
        }
        OrderedAppend(less, s, c);
      }
    }
  }

  lemma OrderedAppend<T(!new)>(less: (T, T) -> bool, t: seq<T>, x: T)
    requires Ordered(less, t) && forall i | 0 <= i < |t| :: !less(x, t[i])
    ensures Ordered(less, t + [x])
  {}

  lemma InsertedFrom<T>(less: (T, T) -> bool, s: seq<T>, c: T, i: nat)
    requires i < |Insert(less, s, c)|
    ensures Insert(less, s, c)[i] == c || Insert(less, s, c)[i] in s
  {
    InsertPermutes(less, s, c);
    assert Insert(less, s, c)[i] in multiset(Insert(less, s, c));
  }

  /** Index i holds an element nothing beats, and everything before it is strictly worse. */
  ghost predicate FirstBest<T>(less: (T, T) -> bool, s: seq<T>, i: nat) {
    && i < |s|
    && (forall j | 0 <= j < |s| :: !less(s[j], s[i]))
    && (forall j | 0 <= j < i :: less(s[i], s[j]))
  }

  /** A stable sort permutes and orders its input. */
  lemma {:induction false} SortOrders<T(!new)>(less: (T, T) -> bool, s: seq<T>)
    requires StrictWeak(less)
    ensures Ordered(less, Sort(less, s)) && multiset(Sort(less, s)) == multiset(s)
  {
    if s != [] {
      var n := |s| - 1;
      assert s == s[..n] + [s[n]];
      SortOrders(less, s[..n]);
      InsertPermutes(less, Sort(less, s[..n]), s[n]);
      InsertKeepsOrder(less, Sort(less, s[..n]), s[n]);
    }
  }

  lemma BestExtends<T(!new)>(less: (T, T) -> bool, s: seq<T>, i: nat) returns (j: nat)
    requires StrictWeak(less) && |s| > 1 && FirstBest(less, s[..|s| - 1], i)
    ensures FirstBest(less, s, j) && s[j] == if less(s[|s| - 1], s[i]) then s[|s| - 1] else s[i]
  {
    var n := |s| - 1;
    assert forall k | 0 <= k < n :: s[..n][k] == s[k];
    j := if less(s[n], s[i]) then n else i;
  }

  /** The front of a stable sort is the earliest of the best elements. */
  lemma {:induction false} SortFront<T(!new)>(less: (T, T) -> bool, s: seq<T>) returns (i: nat)
    requires StrictWeak(less) && s != []
    ensures FirstBest(less, s, i) && Sort(less, s)[0] == s[i]
  {
    var n := |s| - 1;
    SortOrders(less, s[..n]);
    InsertKeepsOrder(less, Sort(less, s[..n]), s[n]);
    if n == 0 {
      i := 0;
    } else {
      var k := SortFront(less, s[..n]);
      i := BestExtends(less, s, k);
    }
  }
}

/** The five-key ranking of candidates. */
module Ranking {
  import opened Base
  import opened Order
  import opened Evaluation
  import opened StableSorting

  function StableName(c: Candidate): Str {
    c.pool + c.region + c.device
  }

  predicate Better(a: Candidate, b: Candidate) {
    var da, db := a.deviceRecord.economics, b.deviceRecord.economics;
    var la, lb := LocalityOrdinal(da.locality), LocalityOrdinal(db.locality);
    if la != lb then la < lb
    else if da.latency != db.latency then da.latency < db.latency
    else if da.bandwidth != db.bandwidth then da.bandwidth > db.bandwidth
    else if a.available != b.available then a.available > b.available
    else LexLess(StableName(a), StableName(b))
  }

  /**
   * a is placed before b or ties with it: nearer; at the same distance, no slower; at the same latency, no less
   * bandwidth; at the same bandwidth, no fewer bytes free; and with all that equal, no later name.
   */
  ghost predicate NoWorse(a: Candidate, b: Candidate) {
    var x, y := a.deviceRecord.economics, b.deviceRecord.economics;
    && Nearness(x.locality) <= Nearness(y.locality)
    && (Nearness(x.locality) == Nearness(y.locality) ==>
          && x.latency <= y.latency
          && (x.latency == y.latency ==>
                && x.bandwidth >= y.bandwidth
                && (x.bandwidth == y.bandwidth ==>
                      && a.available >= b.available
                      && (a.available == b.available ==>
                            !FirstDifferenceBelow(b.pool + b.region + b.device, a.pool + a.region + a.device)))))
  }

  lemma NotBeatenIff(a: Candidate, b: Candidate)
    ensures !Better(b, a) <==> NoWorse(a, b)
  {
    LexLessIff(StableName(b), StableName(a));
  }

  /** The comparator is a strict weak order: asymmetric, with transitive ties. */
  lemma BetterIsStrictWeak()
    ensures StrictWeak(Better)
  {
    forall a, b, c
      ensures Better(a, b) ==> !Better(b, a)
      ensures Better(a, c) ==> Better(a, b) || Better(b, c)
    {
      var x, y, z := StableName(a), StableName(b), StableName(c);
      LexTrichotomy(x, y);
      LexTrichotomy(y, z);
      if LexLess(x, z) && LexLess(z, y) { LexTransitive(x, z, y); }
    }
  }
}
