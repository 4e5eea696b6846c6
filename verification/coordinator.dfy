/** The coordinator process: receive loop steps that update the worker table and drive the engine. */
module CoordinatorProcess {
  import opened Base
  import opened Records
  import Spec
  import opened Coordination
  import opened Restart
  import FabricEngine
  import IO = StateFileIO

  function DeviceReply(s: Spec.State, dev: Device, boot: Str): Reason {
    Spec.RegisterDevice(s, dev, WorkerContext(s, boot)).1
  }

  function ReleaseReply(s: Spec.State, id: Str, boot: Str): Spec.ReserveOutcome {
    Spec.Release(s, id, WorkerContext(s, boot)).1
  }

  function PoolReply(s: Spec.State, pool: Pool, ctx: Authority): Reason {
    var created := Spec.CreatePool(s, pool, ctx).1;
    if created == DUPLICATE_IDENTITY then Spec.RevalidatePool(s, pool.id, ctx).1 else created
  }

  function RegionReply(s: Spec.State, region: Region, ctx: Authority): Reason {
    var created := Spec.CreateRegion(s, region, ctx).1;
    if created == DUPLICATE_IDENTITY then Spec.RevalidateRegion(s, region.id, ctx).1 else created
  }

  function Context(k: Node, session: nat): Authority
    requires session in k.sessions
  {
    WorkerContext(k.fabric, k.sessions[session].boot)
  }

  class Coordinator {
    const fabric: FabricEngine.Fabric
    var sessions: map<nat, Worker>
    var workers: map<Str, nat>
    var fencing: map<nat, seq<Str>>

    ghost function Abs(): Node
      reads this, fabric
    {
      Node(fabric.Abs(), sessions, workers, fencing)
    }

    constructor (epoch: u64, file: Option<seq<byte>>)
      requires file.Some? ==> |file.value| <= U64_MAX
      ensures Abs() == Node(Recovered(Spec.Initial(epoch, 1), file), map[], map[], map[]) && fresh(fabric)
    {
      fabric := new FabricEngine.Fabric(epoch, 1);
      sessions, workers, fencing := map[], map[], map[];
      new;
      if file.Some? {
        var payload := IO.UnsealFile(file.value);
        if payload.Ok? {
          var ps := IO.DeserializeState(payload.value);
          if ps.Ok? { fabric.ImportPersisted(ps.value); }
        }
      }
    }

    method Boot(session: nat, boot: Str)
      modifies this
      ensures Abs() == Handle(old(Abs()), Booted(session, boot))
    {
      if session in sessions { return; }
      sessions := sessions[session := Worker(boot, [], [], false, Serving)];
      workers := workers[boot := session];
    }

    method OnPublishDevice(session: nat, dev: Device) returns (why: Reason)
      requires session in sessions && sessions[session].phase.Serving?
      modifies this, fabric
      ensures Abs() == Handle(old(Abs()), Received(session, PublishDevice(dev)))
      ensures why == DeviceReply(old(fabric.Abs()), dev, old(sessions[session].boot))
    {
      var w := sessions[session];
      var ctx := Authority(fabric.epoch, fabric.policyGeneration, w.boot, 1);
      RunOne(fabric.Abs(), Spec.OnDevice(Spec.RegisterCall(dev, ctx)));
      why := fabric.RegisterDevice(dev, ctx);
      if why == OK { w := w.(devices := w.devices + [dev.id]); }
      sessions := sessions[session := w];
    }

    method CallReserve(req: Request, ctx: Authority) returns (o: Spec.ReserveOutcome)
      modifies fabric
      ensures fabric.Abs() == Spec.Run(old(fabric.Abs()), [Spec.OnReservation(Spec.ReserveCall(req, ctx))])
      ensures o == Spec.Reserve(old(fabric.Abs()), req, ctx).1
    {
      RunOne(fabric.Abs(), Spec.OnReservation(Spec.ReserveCall(req, ctx)));
      o := fabric.Reserve(req, ctx);
    }

    method OnReserve(session: nat, bytes: u64, consumer: Str) returns (o: Spec.ReserveOutcome)
      requires session in sessions && sessions[session].phase.Serving?
      modifies this, fabric
      ensures Abs() == Handle(old(Abs()), Received(session, ReserveBytes(bytes, consumer)))
      ensures o == ReserveReply(old(Abs()), session, bytes, consumer)
    {
      var w := sessions[session];
      var ctx := Authority(fabric.epoch, fabric.policyGeneration, w.boot, 1);
      o := CallReserve(PlainRequest(bytes, consumer), ctx);
      if o.ok && o.reservation.Some? { w := w.(reservations := w.reservations + [o.reservation.value.id]); }
      sessions := sessions[session := w];
    }

    method OnCommit(session: nat, id: Str) returns (o: Spec.ReserveOutcome)
      requires session in sessions && sessions[session].phase.Serving?
      modifies fabric
      ensures Abs() == Handle(old(Abs()), Received(session, CommitId(id)))
      ensures o == CommitReply(old(Abs()), session, id)
    {
      var ctx := Authority(fabric.epoch, fabric.policyGeneration, sessions[session].boot, 1);
      RunOne(fabric.Abs(), Spec.OnReservation(Spec.CommitCall(id, ctx)));
      o := fabric.Commit(id, ctx);
      SameSession(sessions, session);
    }

    method OnRelease(session: nat, id: Str) returns (o: Spec.ReserveOutcome)
      requires session in sessions && sessions[session].phase.Serving?
      modifies fabric
      ensures Abs() == Handle(old(Abs()), Received(session, ReleaseId(id)))
      ensures o == ReleaseReply(old(fabric.Abs()), id, old(sessions[session].boot))
    {
      var ctx := Authority(fabric.epoch, fabric.policyGeneration, sessions[session].boot, 1);
      RunOne(fabric.Abs(), Spec.OnReservation(Spec.ReleaseCall(id, ctx)));
      o := fabric.Release(id, ctx);
      SameSession(sessions, session);
    }

    method CreatePool(session: nat, pool: Pool) returns (why: Reason)
      requires session in sessions && sessions[session].phase.Serving?
      modifies fabric
      ensures why == Spec.CreatePool(old(fabric.Abs()), pool, Context(old(Abs()), session)).1
      ensures why != OK ==> fabric.Abs() == old(fabric.Abs())
      ensures Abs() == Handle(old(Abs()), Received(session, PublishPool(pool)))
    {
      var ctx := Authority(fabric.epoch, fabric.policyGeneration, sessions[session].boot, 1);
      RunOne(fabric.Abs(), Spec.OnPool(Spec.NewPoolCall(pool, ctx)));
      why := fabric.CreatePool(pool, ctx);
      SameSession(sessions, session);
    }

    method RevalidatePool(session: nat, id: Str) returns (why: Reason)
      requires session in sessions && sessions[session].phase.Serving?
      modifies fabric
      ensures why == Spec.RevalidatePool(old(fabric.Abs()), id, Context(old(Abs()), session)).1
      ensures Abs() == Handle(old(Abs()), Received(session, RevalidatePoolAgain(id)))
    {
      var ctx := Authority(fabric.epoch, fabric.policyGeneration, sessions[session].boot, 1);
      RunOne(fabric.Abs(), Spec.OnPool(Spec.RevalidatePoolCall(id, ctx)));
      why := fabric.RevalidatePool(id, ctx);
      SameSession(sessions, session);
    }

    /** A pool whose id is already known is revalidated instead of created. */
    method OnPublishPool(session: nat, pool: Pool) returns (why: Reason)
      requires session in sessions && sessions[session].phase.Serving?
      modifies fabric
      ensures Abs() == HandleAll(old(Abs()), PoolEvents(old(Abs()), session, pool))
      ensures why == PoolReply(old(fabric.Abs()), pool, Context(old(Abs()), session))
    {
      HandleList(Abs(), session, PublishPool(pool), RevalidatePoolAgain(pool.id));
      why := CreatePool(session, pool);
      if why == DUPLICATE_IDENTITY { why := RevalidatePool(session, pool.id); }
    }

    method CreateRegion(session: nat, region: Region) returns (why: Reason)
      requires session in sessions && sessions[session].phase.Serving?
      modifies fabric
      ensures why == Spec.CreateRegion(old(fabric.Abs()), region, Context(old(Abs()), session)).1
      ensures why != OK ==> fabric.Abs() == old(fabric.Abs())
      ensures Abs() == Handle(old(Abs()), Received(session, PublishRegion(region)))
    {
      var ctx := Authority(fabric.epoch, fabric.policyGeneration, sessions[session].boot, 1);
      RunOne(fabric.Abs(), Spec.OnRegion(Spec.NewRegionCall(region, ctx)));
      why := fabric.CreateRegion(region, ctx);
      SameSession(sessions, session);
    }

    method RevalidateRegion(session: nat, id: Str) returns (why: Reason)
      requires session in sessions && sessions[session].phase.Serving?
      modifies fabric
      ensures why == Spec.RevalidateRegion(old(fabric.Abs()), id, Context(old(Abs()), session)).1
      ensures Abs() == Handle(old(Abs()), Received(session, RevalidateRegionAgain(id)))
    {
      var ctx := Authority(fabric.epoch, fabric.policyGeneration, sessions[session].boot, 1);
      RunOne(fabric.Abs(), Spec.OnRegion(Spec.RevalidateRegionCall(id, ctx)));
      why := fabric.RevalidateRegion(id, ctx);
      SameSession(sessions, session);
    }

    /** A region whose id is already known is revalidated instead of created. */
    method OnPublishRegion(session: nat, region: Region) returns (why: Reason)
      requires session in sessions && sessions[session].phase.Serving?
      modifies fabric
      ensures Abs() == HandleAll(old(Abs()), RegionEvents(old(Abs()), session, region))
      ensures why == RegionReply(old(fabric.Abs()), region, Context(old(Abs()), session))
    {
      HandleList(Abs(), session, PublishRegion(region), RevalidateRegionAgain(region.id));
      why := CreateRegion(session, region);
      if why == DUPLICATE_IDENTITY { why := RevalidateRegion(session, region.id); }
    }

    /** Finding the worker registered under the lost session's boot id, and marking it dead. */
    method Bury(session: nat)
      modifies this
      ensures Abs() == Handle(old(Abs()), Lost(session))
    {
      if session !in sessions || !sessions[session].phase.Serving? { return; }
      var boot := sessions[session].boot;
      var listed: seq<Str> := [];
      if boot in workers && workers[boot] in sessions && !sessions[workers[boot]].dead {
        var w := sessions[workers[boot]];
        listed := w.devices;
        sessions := sessions[workers[boot] := w.(dead := true)];
      }
      sessions := sessions[session := sessions[session].(phase := Leaving)];
      fencing := fencing[session := listed];
    }

    /** Erasing whatever is filed under the lost session's boot id. */
    method Erase(session: nat)
      modifies this
      ensures Abs() == Handle(old(Abs()), Erased(session))
    {
      if session !in sessions || !sessions[session].phase.Leaving? { return; }
      if session in fencing && fencing[session] != [] { return; }
      workers := workers - {sessions[session].boot};
      sessions := sessions[session := sessions[session].(phase := Left)];
    }

    method Fence(session: nat)
      modifies this`fencing, fabric
      ensures Abs() == Handle(old(Abs()), FenceNext(session))
    {
      if session !in fencing || fencing[session] == [] { return; }
      var d := fencing[session][0];
      var ctx := Authority(fabric.epoch, fabric.policyGeneration, [], 0);
      RunOne(fabric.Abs(), Spec.OnDevice(Spec.DistrustCall(d, ctx)));
      var _ := fabric.MarkDeviceRevalidation(d, ctx);
      fencing := fencing[session := fencing[session][1..]];
    }

    /** A loss worked off without interference: found and marked, fenced device by device, and then erased. */
    method OnLost(session: nat)
      modifies this, fabric
      ensures exists n: nat :: Abs() == HandleAll(old(Abs()), [Lost(session)] + Fences(session, n) + [Erased(session)])
      ensures !Due(Abs(), session)
    {
      Bury(session);
      ghost var n := 0;
      FencesNone(Abs(), session);
      ghost var start := Abs();
      while session in fencing && fencing[session] != []
        invariant Abs() == HandleAll(start, Fences(session, n))
        decreases if session in fencing then |fencing[session]| else 0
      {
        FencesMore(start, session, n);
        Fence(session);
        n := n + 1;
      }
      LossEvents(old(Abs()), session, n);
      Erase(session);
    }
  }

  lemma LossEvents(k: Node, session: nat, n: nat)
    ensures HandleAll(k, [Lost(session)] + Fences(session, n) + [Erased(session)]) ==
      Handle(HandleAll(Handle(k, Lost(session)), Fences(session, n)), Erased(session))
  {
    HandleSplit(k, [Lost(session)] + Fences(session, n), [Erased(session)]);
    HandleCons(k, Lost(session), Fences(session, n));
    HandleCons(HandleAll(k, [Lost(session)] + Fences(session, n)), Erased(session), []);
    assert [Erased(session)] + [] == [Erased(session)];
  }

  function PoolEvents(k: Node, session: nat, pool: Pool): seq<Event>
    requires session in k.sessions
  {
    [Received(session, PublishPool(pool))] +
    if Spec.CreatePool(k.fabric, pool, Context(k, session)).1 == DUPLICATE_IDENTITY
    then [Received(session, RevalidatePoolAgain(pool.id))] else []
  }

  function RegionEvents(k: Node, session: nat, region: Region): seq<Event>
    requires session in k.sessions
  {
    [Received(session, PublishRegion(region))] +
    if Spec.CreateRegion(k.fabric, region, Context(k, session)).1 == DUPLICATE_IDENTITY
    then [Received(session, RevalidateRegionAgain(region.id))] else []
  }

  function Fences(session: nat, n: nat): seq<Event> {
    seq(n, _ => FenceNext(session))
  }

  lemma HandleList(k: Node, session: nat, first: Message, second: Message)
    ensures HandleAll(k, [Received(session, first)] + []) == Handle(k, Received(session, first))
    ensures HandleAll(k, [Received(session, first)] + [Received(session, second)]) ==
      Handle(Handle(k, Received(session, first)), Received(session, second))
  {
    HandleCons(k, Received(session, first), []);
    HandleCons(k, Received(session, first), [Received(session, second)]);
    HandleCons(Handle(k, Received(session, first)), Received(session, second), []);
    assert [Received(session, second)] + [] == [Received(session, second)];
  }

  lemma FencesNone(k: Node, session: nat)
    ensures HandleAll(k, Fences(session, 0)) == k
  {
    assert Fences(session, 0) == [];
  }

  lemma {:induction false} FencesMore(k: Node, session: nat, n: nat)
    ensures HandleAll(k, Fences(session, n + 1)) == Handle(HandleAll(k, Fences(session, n)), FenceNext(session))
    decreases n
  {
    assert Fences(session, n + 1) == [FenceNext(session)] + Fences(session, n);
    HandleCons(k, FenceNext(session), Fences(session, n));
    if n == 0 {
      FencesNone(k, session);
      FencesNone(Handle(k, FenceNext(session)), session);
    } else {
      FencesMore(Handle(k, FenceNext(session)), session, n - 1);
      assert Fences(session, n) == [FenceNext(session)] + Fences(session, n - 1);
      HandleCons(k, FenceNext(session), Fences(session, n - 1));
    }
  }

  lemma SameSession(sessions: map<nat, Worker>, session: nat)
    requires session in sessions
    ensures sessions[session := sessions[session]] == sessions
  {}
}
