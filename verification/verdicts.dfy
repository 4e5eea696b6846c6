/** Every reason a call can give, with the exact condition under which it gives it. */
module Verdicts {
  import opened Base
  import opened Records
  import opened Evaluation
  import opened Placement
  import opened Ledger
  import opened Spec
  import opened Shapes
  import opened Books
  import opened Admission
  import opened Closing
  import opened Enumeration
  import opened Lifecycle

  // ---- stale authority ----

  /** The epoch a call is made under; settings and imports are made under none. */
  function EpochOf(op: Op): Option<u64> {
    match op
    case OnDevice(c) => Some(c.ctx.epoch)
    case OnRegion(c) => Some(c.ctx.epoch)
    case OnPool(c) => Some(c.ctx.epoch)
    case OnReservation(c) => Some(c.ctx.epoch)
    case _ => None
  }

  lemma StaleReservationCall(s: State, c: ReservationCall)
    requires c.ctx.epoch != s.epoch
    ensures PerformOnReservation(s, c) == (s, Refused(RESERVATION_STALE))
  {
    match c
    case ReserveCall(req, ctx) =>
    case CommitCall(id, ctx) => StaleCommit(s, id, ctx);
    case ReleaseCall(id, ctx) => StaleRelease(s, id, ctx);
  }

  lemma StaleCommit(s: State, id: Str, ctx: Authority)
    requires ctx.epoch != s.epoch
    ensures Commit(s, id, ctx) == (s, Refused(RESERVATION_STALE))
  {}

  lemma StaleRelease(s: State, id: Str, ctx: Authority)
    requires ctx.epoch != s.epoch
    ensures Release(s, id, ctx) == (s, Refused(RESERVATION_STALE))
  {}

  lemma StaleCall(s: State, op: Op)
    requires EpochOf(op).Some? && EpochOf(op).value != s.epoch
    ensures op.OnDevice? ==> PerformOnDevice(s, op.device) == (s, RESERVATION_STALE)
    ensures op.OnRegion? ==> PerformOnRegion(s, op.region) == (s, RESERVATION_STALE)
    ensures op.OnPool? ==> PerformOnPool(s, op.pool) == (s, RESERVATION_STALE)
    ensures op.OnReservation? ==> PerformOnReservation(s, op.reservation) == (s, Refused(RESERVATION_STALE))
  {
    if op.OnReservation? { StaleReservationCall(s, op.reservation); }
  }

  /** Each setting changes its own field and nothing else; evidence counts up by one and stops two below 2^64. */
  lemma SettingsExact(s: State, c: SettingCall)
    ensures ApplySetting(s, c) ==
      match c
      case SetEpochCall(e) => s.(epoch := e)
      case SetPolicyCall(p) => s.(policyGeneration := p)
      case AdvanceEvidenceCall =>
        if s.evidenceGeneration < 0xFFFF_FFFF_FFFF_FFFE then s.(evidenceGeneration := s.evidenceGeneration + 1) else s
  {
    GenerationSteps(s.evidenceGeneration);
  }

  /** Once the epoch is set to another value, every call under the old one is refused and changes nothing. */
  lemma OldEpochIsFenced(s: State, epoch: u64, op: Op)
    requires EpochOf(op) == Some(s.epoch) && epoch != s.epoch
    ensures var t := ApplySetting(s, SetEpochCall(epoch)); Perform(t, op) == (t, false)
  {
    StaleCall(ApplySetting(s, SetEpochCall(epoch)), op);
  }

  // ---- devices ----

  predicate Unnamed(dev: Device) {
    dev.id == [] || dev.generation == 0 || dev.bootId == []
  }

  /** Registration: what each answer means. */
  lemma RegisterDeviceIff(s: State, dev: Device, ctx: Authority)
    ensures var why, known := RegisterDevice(s, dev, ctx).1, dev.id in s.devices;
      && (why == RESERVATION_STALE <==> ctx.epoch != s.epoch)
      && (why == CONFLICTING_FACTS <==>
            && ctx.epoch == s.epoch && !Unnamed(dev) && known && dev.generation == s.devices[dev.id].generation
            && (dev.vendorDeviceId != s.devices[dev.id].vendorDeviceId
                || dev.totalPhysicalBytes != s.devices[dev.id].totalPhysicalBytes))
      && (why == DEVICE_STALE <==>
            ctx.epoch == s.epoch && !Unnamed(dev) && known && dev.generation < s.devices[dev.id].generation)
      && (why == INVALID_ARGUMENT <==>
            && ctx.epoch == s.epoch
            && (Unnamed(dev) || (known && dev.generation > s.devices[dev.id].generation
                                 && s.devices[dev.id].state != dev.state
                                 && s.devices[dev.id].state !in DeviceSources(dev.state))))
      && (why == OK <==>
            && ctx.epoch == s.epoch && !Unnamed(dev)
            && (known && dev.generation == s.devices[dev.id].generation ==>
                  && dev.vendorDeviceId == s.devices[dev.id].vendorDeviceId
                  && dev.totalPhysicalBytes == s.devices[dev.id].totalPhysicalBytes)
            && (known && dev.generation != s.devices[dev.id].generation ==>
                  && dev.generation > s.devices[dev.id].generation
                  && (s.devices[dev.id].state == dev.state || s.devices[dev.id].state in DeviceSources(dev.state))))
  {
    if dev.id in s.devices { DeviceTableIff(s.devices[dev.id].state, dev.state); }
  }

  /** A newer generation in the same state is always taken, and a newer one never brings a retired device back. */
  lemma NewerGeneration(s: State, dev: Device, ctx: Authority)
    requires ctx.epoch == s.epoch && !Unnamed(dev) && dev.id in s.devices
    requires s.devices[dev.id].generation < dev.generation
    ensures s.devices[dev.id].state == dev.state ==>
      RegisterDevice(s, dev, ctx) == (s.(devices := s.devices[dev.id := dev]), OK)
    ensures s.devices[dev.id].state.Retired? && !dev.state.Retired? ==>
      RegisterDevice(s, dev, ctx) == (s, INVALID_ARGUMENT)
  {
    DeviceTableIff(s.devices[dev.id].state, dev.state);
  }

  /** Marking a device online, or in need of revalidation. */
  lemma MarkDeviceIff(s: State, id: Str, to: DeviceState, current: bool, ctx: Authority)
    ensures var why := MarkDevice(s, id, to, current, ctx).1;
      && (why == RESERVATION_STALE <==> ctx.epoch != s.epoch)
      && (why == DEVICE_NOT_ONLINE <==> ctx.epoch == s.epoch && id !in s.devices)
      && (why == INVALID_ARGUMENT <==>
            && ctx.epoch == s.epoch && id in s.devices && s.devices[id].state != to
            && s.devices[id].state !in DeviceSources(to))
      && (why == OK <==>
            && ctx.epoch == s.epoch && id in s.devices
            && (s.devices[id].state == to || s.devices[id].state in DeviceSources(to)))
  {
    if id in s.devices { DeviceTableIff(s.devices[id].state, to); }
  }

  // ---- regions ----

  /** The first member that spoils the list is at i. */
  ghost predicate FirstBadMember(s: State, pool: Pool, names: seq<Str>, i: nat) {
    && i < |names| && !(names[i] in s.devices && IsMember(pool.members, names[i]))
    && RegionMembersOk(s, pool, names[..i])
  }

  lemma {:induction false} MembersVerdictAt(s: State, pool: Pool, names: seq<Str>, i: nat)
    requires FirstBadMember(s, pool, names, i)
    ensures MembersVerdict(s, pool, names) == if names[i] in s.devices then CONFLICTING_FACTS else DEVICE_NOT_ONLINE
    decreases |names|
  {
    if i > 0 {
      assert names[..i][0] == names[0];
      assert names[1..][..i - 1] == names[..i][1..];
      assert forall j | 0 <= j < i - 1 :: names[..i][1..][j] == names[..i][j + 1];
      MembersVerdictAt(s, pool, names[1..], i - 1);
    }
  }

  /** A region is refused for its own fields first, then for its pool, then for its first bad member. */
  lemma CreateRegionReasons(s: State, region: Region, ctx: Authority)
    ensures var why := CreateRegion(s, region, ctx).1;
      var named := region.id != [] && region.generation != 0 && region.pool != [];
      && (why == RESERVATION_STALE <==> ctx.epoch != s.epoch)
      && (why == INVALID_ARGUMENT <==> ctx.epoch == s.epoch && !named)
      && (why == DUPLICATE_IDENTITY <==> ctx.epoch == s.epoch && named && region.id in s.regions)
      && (why == POOL_STALE <==>
            ctx.epoch == s.epoch && named && region.id !in s.regions && region.pool !in s.pools)
      && (ctx.epoch == s.epoch && named && region.id !in s.regions && region.pool in s.pools ==>
            && (why == OK <==> RegionMembersOk(s, s.pools[region.pool], region.members))
            && forall i: nat | FirstBadMember(s, s.pools[region.pool], region.members, i) ::
                why == if region.members[i] in s.devices then CONFLICTING_FACTS else DEVICE_NOT_ONLINE)
  {
    if region.pool in s.pools {
      var pool := s.pools[region.pool];
      MembersVerdictIff(s, pool, region.members);
      MembersVerdictRange(s, pool, region.members);
      forall i: nat | FirstBadMember(s, pool, region.members, i)
        ensures MembersVerdict(s, pool, region.members) ==
          if region.members[i] in s.devices then CONFLICTING_FACTS else DEVICE_NOT_ONLINE
      {
        MembersVerdictAt(s, pool, region.members, i);
      }
    }
  }

  lemma {:induction false} MembersVerdictRange(s: State, pool: Pool, names: seq<Str>)
    ensures MembersVerdict(s, pool, names) in {OK, DEVICE_NOT_ONLINE, CONFLICTING_FACTS}
  {
    if names != [] { MembersVerdictRange(s, pool, names[1..]); }
  }

  lemma UpdateRegionIff(s: State, region: Region, ctx: Authority)
    ensures var why := UpdateRegion(s, region, ctx).1;
      && (why == RESERVATION_STALE <==> ctx.epoch != s.epoch)
      && (why == REGION_STALE <==>
            && ctx.epoch == s.epoch
            && (region.id in s.regions ==> region.generation < s.regions[region.id].generation))
      && (why == OK <==>
            ctx.epoch == s.epoch && region.id in s.regions && s.regions[region.id].generation <= region.generation)
  {}

  /** Generations count up by one and stop two below 2^64. */
  lemma GenerationSteps(g: u64)
    ensures NextGeneration(g) == if g < 0xFFFF_FFFF_FFFF_FFFE then g + 1 else 0
    ensures AdvanceGeneration(g) == if g < 0xFFFF_FFFF_FFFF_FFFE then g + 1 else g
  {}

  lemma ReconfigureRegionIff(s: State, id: Str, members: seq<Str>, ctx: Authority)
    ensures var why := ReconfigureRegion(s, id, members, ctx).1;
      && (why == RESERVATION_STALE <==> ctx.epoch != s.epoch)
      && (why == REGION_STALE <==> ctx.epoch == s.epoch && id !in s.regions)
      && (why == INVALID_ARGUMENT <==>
            ctx.epoch == s.epoch && id in s.regions && s.regions[id].generation >= 0xFFFF_FFFF_FFFF_FFFE)
      && (why == OK <==>
            ctx.epoch == s.epoch && id in s.regions && s.regions[id].generation < 0xFFFF_FFFF_FFFF_FFFE)
    ensures ReconfigureRegion(s, id, members, ctx).1 == OK ==>
      var r := ReconfigureRegion(s, id, members, ctx).0.regions;
      && id in r && r[id].generation == s.regions[id].generation + 1 && r[id].members == members
      && r[id].state.RegionReconfiguring? && !r[id].evidenceCurrent
  {}

  lemma DrainRegionIff(s: State, id: Str, ctx: Authority)
    ensures var why := MarkRegionDraining(s, id, ctx).1;
      && (why == RESERVATION_STALE <==> ctx.epoch != s.epoch)
      && (why == REGION_STALE <==> ctx.epoch == s.epoch && id !in s.regions)
      && (why == OK <==>
            && ctx.epoch == s.epoch && id in s.regions
            && s.regions[id].state in {RegionDraining, RegionOnline, RegionDegraded, RegionRevalidationRequired})
      && (why != OK && ctx.epoch == s.epoch && id in s.regions ==> why == INVALID_ARGUMENT)
  {
    if id in s.regions { RegionTableIff(s.regions[id].state, RegionDraining); }
  }

  /** Revalidation opens a region again from every state but failed, retired and not yet validated. */
  lemma RevalidateRegionIff(s: State, id: Str, ctx: Authority)
    ensures var why := RevalidateRegion(s, id, ctx).1;
      && (why == RESERVATION_STALE <==> ctx.epoch != s.epoch)
      && (why == REGION_STALE <==> ctx.epoch == s.epoch && id !in s.regions)
      && (why == OK <==>
            && ctx.epoch == s.epoch && id in s.regions
            && s.regions[id].state !in {RegionDefined, RegionFailed, RegionRetired})
      && (why != OK && ctx.epoch == s.epoch && id in s.regions ==> why == INVALID_ARGUMENT)
      && (why == OK ==> !Closed(RevalidateRegion(s, id, ctx).0, RegionTarget(id)))
  {
    if id in s.regions { RegionTableIff(s.regions[id].state, RegionOnline); }
  }

  // ---- pools ----

  /** The first member that spoils a new pool is at i. */
  ghost predicate FirstBadIn(s: State, ms: seq<PoolMember>, n: nat, i: nat) {
    && n <= i < |ms| && !(PoolMemberOk(s, ms[i]) && !IsMember(ms[..i], ms[i].device))
    && forall j | n <= j < i :: PoolMemberOk(s, ms[j]) && !IsMember(ms[..j], ms[j].device)
  }

  /** What is wrong with member i: it is unknown, a repetition, or governed elsewhere, in this order. */
  function MemberFault(s: State, ms: seq<PoolMember>, i: nat): Reason
    requires i < |ms|
  {
    if ms[i].device !in s.devices then DEVICE_NOT_ONLINE
    else if exists j :: 0 <= j < i && ms[j].device == ms[i].device then DUPLICATE_IDENTITY
    else CONFLICTING_FACTS
  }

  lemma EarlierIff(ms: seq<PoolMember>, i: nat)
    requires i < |ms|
    ensures IsMember(ms[..i], ms[i].device) <==> exists j :: 0 <= j < i && ms[j].device == ms[i].device
  {
    if exists j :: 0 <= j < i && ms[j].device == ms[i].device {
      var j :| 0 <= j < i && ms[j].device == ms[i].device;
      assert ms[..i][j] == ms[j];
    }
  }

  lemma {:induction false} PoolVerdictAt(s: State, ms: seq<PoolMember>, n: nat, i: nat)
    requires FirstBadIn(s, ms, n, i)
    ensures PoolVerdict(s, ms, n) == MemberFault(s, ms, i)
    decreases |ms| - n
  {
    EarlierIff(ms, i);
    if n < i { PoolVerdictAt(s, ms, n + 1, i); }
  }

  lemma {:induction false} PoolVerdictRange(s: State, ms: seq<PoolMember>, n: nat)
    requires n <= |ms|
    ensures PoolVerdict(s, ms, n) in {OK, DEVICE_NOT_ONLINE, DUPLICATE_IDENTITY, CONFLICTING_FACTS}
    decreases |ms| - n
  {
    if n < |ms| { PoolVerdictRange(s, ms, n + 1); }
  }

  /** A pool is refused for its own fields first, then for its first bad member. */
  lemma CreatePoolReasons(s: State, pool: Pool, ctx: Authority)
    ensures var why, named := CreatePool(s, pool, ctx).1, pool.id != [] && pool.generation != 0;
      && (why == RESERVATION_STALE <==> ctx.epoch != s.epoch)
      && (why == INVALID_ARGUMENT <==> ctx.epoch == s.epoch && !named)
      && (ctx.epoch == s.epoch && named && pool.id in s.pools ==> why == DUPLICATE_IDENTITY)
      && (ctx.epoch == s.epoch && named && pool.id !in s.pools ==>
            forall i: nat | FirstBadIn(s, pool.members, 0, i) :: why == MemberFault(s, pool.members, i))
  {
    PoolVerdictRange(s, pool.members, 0);
    forall i: nat | FirstBadIn(s, pool.members, 0, i)
      ensures PoolVerdict(s, pool.members, 0) == MemberFault(s, pool.members, i)
    {
      PoolVerdictAt(s, pool.members, 0, i);
    }
  }

  /** Another pool governs the device. */
  ghost predicate GovernedElsewhere(s: State, id: Str, device: Str) {
    exists k, i :: k in s.pools && k != id && 0 <= i < |s.pools[k].members| && s.pools[k].members[i].device == device
  }

  lemma ElsewhereIff(s: State, id: Str, device: Str)
    ensures Governed(s.pools - {id}, device) <==> GovernedElsewhere(s, id, device)
  {
    if GovernedElsewhere(s, id, device) {
      var k, i :| k in s.pools && k != id && 0 <= i < |s.pools[k].members| && s.pools[k].members[i].device == device;
      assert k in s.pools - {id} && IsMember((s.pools - {id})[k].members, device);
    }
  }

  lemma AddMemberIff(s: State, id: Str, m: PoolMember, ctx: Authority)
    ensures var why := AddMember(s, id, m, ctx).1;
      && (why == RESERVATION_STALE <==> ctx.epoch != s.epoch)
      && (why == POOL_STALE <==> ctx.epoch == s.epoch && id !in s.pools)
      && (ctx.epoch == s.epoch && id in s.pools ==>
            var known, mine := m.device in s.devices, IsMember(s.pools[id].members, m.device);
            && (why == DEVICE_NOT_ONLINE <==> !known)
            && (why == INVALID_ARGUMENT <==> known && m.deviceGeneration == 0)
            && (why == DUPLICATE_IDENTITY <==> known && m.deviceGeneration != 0 && mine)
            && (why == CONFLICTING_FACTS <==>
                  known && m.deviceGeneration != 0 && !mine && GovernedElsewhere(s, id, m.device))
            && (why == OK <==> known && m.deviceGeneration != 0 && !mine && !GovernedElsewhere(s, id, m.device)))
  {
    ElsewhereIff(s, id, m.device);
  }

  lemma RemoveMemberIff(s: State, id: Str, device: Str, ctx: Authority)
    ensures var why := RemoveMember(s, id, device, ctx).1;
      && (why == RESERVATION_STALE <==> ctx.epoch != s.epoch)
      && (why == POOL_STALE <==> ctx.epoch == s.epoch && id !in s.pools)
      && (why == DEVICE_NOT_ONLINE <==>
            ctx.epoch == s.epoch && id in s.pools && !IsMember(s.pools[id].members, device))
      && (why == OK <==> ctx.epoch == s.epoch && id in s.pools && IsMember(s.pools[id].members, device))
  {}

  /** Removal takes out the first membership of the device and leaves the others in place and in order. */
  lemma {:induction false} WithoutExact(ms: seq<PoolMember>, device: Str, i: nat)
    requires i < |ms| && ms[i].device == device && forall j | 0 <= j < i :: ms[j].device != device
    ensures Without(ms, device) == ms[..i] + ms[i + 1..]
  {
    if i > 0 {
      WithoutExact(ms[1..], device, i - 1);
      assert ms[..i] == [ms[0]] + ms[1..][..i - 1] && ms[i + 1..] == ms[1..][i..];
    }
  }

  lemma DrainPoolIff(s: State, id: Str, ctx: Authority)
    ensures var why := MarkPoolDraining(s, id, ctx).1;
      && (why == RESERVATION_STALE <==> ctx.epoch != s.epoch)
      && (why == POOL_STALE <==> ctx.epoch == s.epoch && id !in s.pools)
      && (why == OK <==>
            && ctx.epoch == s.epoch && id in s.pools
            && s.pools[id].state in {PoolDraining, PoolAvailable, PoolDegraded, PoolRevalidationRequired})
      && (why != OK && ctx.epoch == s.epoch && id in s.pools ==> why == INVALID_ARGUMENT)
  {
    if id in s.pools { PoolTableIff(s.pools[id].state, PoolDraining); }
  }

  lemma ReconcilePoolIff(s: State, id: Str, ctx: Authority)
    ensures var why := ReconcilePool(s, id, ctx).1;
      && (why == RESERVATION_STALE <==> ctx.epoch != s.epoch)
      && (why == POOL_STALE <==> ctx.epoch == s.epoch && id !in s.pools)
      && (why == OK <==> ctx.epoch == s.epoch && id in s.pools)
  {}

  /** Revalidation opens a pool again from every state but failed and retired. */
  lemma RevalidatePoolIff(s: State, id: Str, ctx: Authority)
    ensures var why := RevalidatePool(s, id, ctx).1;
      && (why == RESERVATION_STALE <==> ctx.epoch != s.epoch)
      && (why == POOL_STALE <==> ctx.epoch == s.epoch && id !in s.pools)
      && (why == OK <==> ctx.epoch == s.epoch && id in s.pools && s.pools[id].state !in {PoolFailed, PoolRetired})
      && (why != OK && ctx.epoch == s.epoch && id in s.pools ==> why == INVALID_ARGUMENT)
      && (why == OK ==> !Closed(RevalidatePool(s, id, ctx).0, PoolTarget(id)))
  {
    if id in s.pools { PoolTableIff(s.pools[id].state, PoolAvailable); }
  }

  // ---- reservations ----

  /** The reservation is pending and the caller may commit it. */
  predicate MayCommit(s: State, id: Str, ctx: Authority) {
    && id in s.reservations && s.reservations[id].state.Reserved?
    && ctx.epoch == s.epoch == s.reservations[id].createdEpoch
    && ctx.workerBootId in {[], s.reservations[id].workerBootId}
  }

  /** Commit: what each refusal means, in the order of the checks. */
  lemma CommitReasons(s: State, id: Str, ctx: Authority)
    ensures var why := Commit(s, id, ctx).1.reason;
      && (why == RESERVATION_STALE <==> !MayCommit(s, id, ctx))
      && (MayCommit(s, id, ctx) ==>
            var res := s.reservations[id];
            var known := res.pool in s.pools && res.region in s.regions && res.device in s.devices;
            && (why == POOL_GENERATION_STALE <==> !known || s.pools[res.pool].generation != res.poolGeneration)
            && (why == REGION_STALE <==>
                  && known && s.pools[res.pool].generation == res.poolGeneration
                  && s.regions[res.region].generation != res.regionGeneration)
            && (why == DEVICE_STALE <==>
                  && known && s.pools[res.pool].generation == res.poolGeneration
                  && s.regions[res.region].generation == res.regionGeneration
                  && s.devices[res.device].generation != res.deviceGeneration)
            && (why == CAPACITY_OVERCOMMIT <==>
                  Committable(s, id, ctx) && res.bytes > s.pools[res.pool].reserved)
            && (why == OK <==> Committable(s, id, ctx) && res.bytes <= s.pools[res.pool].reserved))
    ensures Commit(s, id, ctx).1.ok <==> Commit(s, id, ctx).1.reason == OK
    ensures Commit(s, id, ctx).1.reservation ==
      if Commit(s, id, ctx).1.ok then Some(s.reservations[id].(state := Committed, commitEpoch := s.epoch)) else None
  {}

  /** Release: refused for a reservation that is not live or a stale epoch, or when the pool's counters fall short. */
  lemma ReleaseReasons(s: State, id: Str, ctx: Authority)
    ensures var why := Release(s, id, ctx).1.reason;
      && (why == RESERVATION_STALE <==> !Releasable(s, id, ctx))
      && (why == RESERVATION_CONFLICT <==>
            && Releasable(s, id, ctx) && s.reservations[id].pool in s.pools
            && s.reservations[id].bytes >
                 s.pools[s.reservations[id].pool].reserved + s.pools[s.reservations[id].pool].committed)
      && (why == OK || why == RESERVATION_STALE || why == RESERVATION_CONFLICT)
    ensures Release(s, id, ctx).1.ok <==> Release(s, id, ctx).1.reason == OK
    ensures Release(s, id, ctx).1.reservation ==
      if Release(s, id, ctx).1.ok then Some(s.reservations[id].(state := Released)) else None
  {}

  /** Reserve: stale authority, no bytes, the verdict of selection, or a chosen pool without the bytes. */
  lemma ReserveReasons(s: State, req: Request, ctx: Authority)
    requires Filed(s)
    ensures var why, sel := Reserve(s, req, ctx).1.reason, Select(s.Snapshot(), req);
      && (ctx.epoch != s.epoch ==> why == RESERVATION_STALE)
      && (ctx.epoch == s.epoch && req.bytes == 0 ==> why == INVALID_ARGUMENT)
      && (ctx.epoch == s.epoch && req.bytes > 0 && !sel.ok ==> why == sel.result.reason && why != OK)
      && (ctx.epoch == s.epoch && req.bytes > 0 && sel.ok ==>
            why == if req.bytes <= PoolFree(sel.chosen.value.poolRecord) then OK else CAPACITY_OVERCOMMIT)
  {
    var sel := Select(s.Snapshot(), req);
    if ctx.epoch == s.epoch && req.bytes > 0 {
      if sel.ok { ChosenBooks(s, req, ctx); } else { RefusalIsExplained(s.Snapshot(), req); }
    }
  }

  lemma ChosenBooks(s: State, req: Request, ctx: Authority)
    requires Filed(s) && Select(s.Snapshot(), req).ok && ctx.epoch == s.epoch && req.bytes > 0
    ensures Reserve(s, req, ctx).1.reason ==
      if req.bytes <= PoolFree(Select(s.Snapshot(), req).chosen.value.poolRecord) then OK else CAPACITY_OVERCOMMIT
  {
    var c := Select(s.Snapshot(), req).chosen.value;
    SelectionSound(s.Snapshot(), req);
    DrawnFacts(s, c);
    BookReason(s, c, req, ctx);
  }

  lemma BookReason(s: State, c: Candidate, req: Request, ctx: Authority)
    requires c.pool in s.pools && c.region in s.regions && c.device in s.devices
    requires c.poolGeneration == s.pools[c.pool].generation && c.regionGeneration == s.regions[c.region].generation
    requires c.deviceGeneration == s.devices[c.device].generation && req.bytes <= RegionFree(s.regions[c.region])
    ensures Book(s, c, req, ctx).1.reason == if req.bytes <= PoolFree(s.pools[c.pool]) then OK else CAPACITY_OVERCOMMIT
  {}

  /** What the free counts promise: a positive request fits exactly when the wrapped used sum leaves room for it. */
  lemma FreeIff(p: Pool, r: Region, bytes: u64)
    requires bytes > 0
    ensures bytes <= PoolFree(p) <==>
      (p.unavailable + p.reserved + p.committed + p.draining) % 0x1_0000_0000_0000_0000 + bytes <= p.totalGoverned
    ensures bytes <= RegionFree(r) <==> (r.reserved + r.committed) % 0x1_0000_0000_0000_0000 + bytes <= r.capacity
  {
    PoolUsedIsMod(p);
    WrapIsMod(r.reserved, r.committed);
  }

  // ---- after an import ----

  /** What an import makes of each record, and of everything else. */
  lemma ImportExact(s: State, ps: Persisted)
    ensures var t := Import(s, ps);
      && t.epoch == s.epoch && t.sequence == s.sequence && t.evidenceGeneration == s.evidenceGeneration
      && t.policyGeneration == ps.policyGeneration && t.reservations == map[] && t.ledger == GlobalLine(t.pools)
      && t.devices.Keys == ps.devices.Keys && t.regions.Keys == ps.regions.Keys && t.pools.Keys == ps.pools.Keys
      && (forall d | d in ps.devices ::
            t.devices[d] == ps.devices[d].(state := RevalidationRequired, evidenceCurrent := false,
                                           health := HEALTH_UNKNOWN))
      && (forall r | r in ps.regions ::
            t.regions[r] == ps.regions[r].(state := RegionRevalidationRequired, evidenceCurrent := false))
      && (forall p | p in ps.pools ::
            t.pools[p] == ps.pools[p].(state := PoolRevalidationRequired, evidenceCurrent := false))
  {}

  lemma RunThree(s: State, a: Op, b: Op, c: Op)
    ensures Run(s, [a, b, c]) == Apply(Apply(Apply(s, a), b), c)
  {
    assert [a, b, c][1..] == [b, c] && [b, c][1..] == [c] && [c][1..] == [];
    assert Run(s, [a, b, c]) == Run(Apply(s, a), [b, c]);
    assert Run(Apply(s, a), [b, c]) == Run(Apply(Apply(s, a), b), [c]);
    assert Run(Apply(Apply(s, a), b), [c]) == Run(Apply(Apply(Apply(s, a), b), c), []);
  }

  lemma ReopenPool(s: State, p: Str, ctx: Authority)
    requires p in s.pools && s.pools[p].state.PoolRevalidationRequired? && ctx.epoch == s.epoch
    ensures PerformOnPool(s, RevalidatePoolCall(p, ctx)).1 == OK
    ensures var t := PerformOnPool(s, RevalidatePoolCall(p, ctx)).0;
      && t.epoch == s.epoch && t.devices == s.devices && t.regions == s.regions
      && p in t.pools && PoolOpen(t.pools[p]) && t.pools[p].id == s.pools[p].id
  {
    RevalidatePoolIff(s, p, ctx);
  }

  lemma ReopenRegion(s: State, r: Str, ctx: Authority)
    requires r in s.regions && s.regions[r].state.RegionRevalidationRequired? && ctx.epoch == s.epoch
    ensures PerformOnRegion(s, RevalidateRegionCall(r, ctx)).1 == OK
    ensures var t := PerformOnRegion(s, RevalidateRegionCall(r, ctx)).0;
      && t.epoch == s.epoch && t.devices == s.devices && t.pools == s.pools
      && r in t.regions && RegionOpen(t.regions[r])
      && t.regions[r].pool == s.regions[r].pool && t.regions[r].members == s.regions[r].members
  {
    RevalidateRegionIff(s, r, ctx);
  }

  lemma ReopenDevice(s: State, d: Str, ctx: Authority)
    requires d in s.devices && s.devices[d].state.RevalidationRequired? && ctx.epoch == s.epoch
    ensures PerformOnDevice(s, OnlineCall(d, ctx)).1 == OK
    ensures var t := PerformOnDevice(s, OnlineCall(d, ctx)).0;
      t.pools == s.pools && t.regions == s.regions && d in t.devices && DeviceOpen(t.devices[d])
  {
    MarkDeviceIff(s, d, Online, true, ctx);
  }

  /** The three calls that bring one imported pool, region and device back into service. */
  function Reopening(p: Str, r: Str, d: Str, ctx: Authority): seq<Op> {
    [OnPool(RevalidatePoolCall(p, ctx)), OnRegion(RevalidateRegionCall(r, ctx)), OnDevice(OnlineCall(d, ctx))]
  }

  lemma ReopensTogether(t: State, p: Str, r: Str, i: nat, ctx: Authority)
    requires p in t.pools && r in t.regions && t.regions[r].pool == t.pools[p].id && ctx.epoch == t.epoch
    requires i < |t.regions[r].members| && t.regions[r].members[i] in t.devices
    requires t.pools[p].state.PoolRevalidationRequired? && t.regions[r].state.RegionRevalidationRequired?
    requires t.devices[t.regions[r].members[i]].state.RevalidationRequired?
    ensures Usable(ForPlacement, Run(t, Reopening(p, r, t.regions[r].members[i], ctx)).Snapshot(), Spot(p, r, i))
  {
    var d := t.regions[r].members[i];
    ReopenPool(t, p, ctx);
    var u := PerformOnPool(t, RevalidatePoolCall(p, ctx)).0;
    ReopenRegion(u, r, ctx);
    var w := PerformOnRegion(u, RevalidateRegionCall(r, ctx)).0;
    ReopenDevice(w, d, ctx);
    RunThree(t, OnPool(RevalidatePoolCall(p, ctx)), OnRegion(RevalidateRegionCall(r, ctx)),
             OnDevice(OnlineCall(d, ctx)));
  }

  /** After any import, revalidating a pool and one of its regions and marking a member online makes it a candidate. */
  lemma ReopensAfterImport(s: State, ps: Persisted, p: Str, r: Str, i: nat, ctx: Authority)
    requires p in ps.pools && r in ps.regions && ps.regions[r].pool == ps.pools[p].id && ctx.epoch == s.epoch
    requires i < |ps.regions[r].members| && ps.regions[r].members[i] in ps.devices
    ensures Usable(ForPlacement, Run(Import(s, ps), Reopening(p, r, ps.regions[r].members[i], ctx)).Snapshot(),
                   Spot(p, r, i))
  {
    ImportExact(s, ps);
    ReopensTogether(Import(s, ps), p, r, i, ctx);
  }
}
