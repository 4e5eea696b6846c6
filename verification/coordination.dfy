/** The coordinator: worker sessions over one engine, in any interleaving of atomic engine calls. */
module Coordination {
  import opened Base
  import opened Records
  import opened Evaluation
  import opened Placement
  import opened Spec
  import opened Shapes
  import opened Books
  import opened Capacity
  import opened RegionBooks
  import opened Runs
  import opened Fencing
  import opened Closing
  import opened Guarantees

  /** A session serves until its connection breaks, and leaves until its table entry is erased. */
  datatype Phase = Serving | Leaving | Left

  datatype Worker = Worker(boot: Str, devices: seq<Str>, reservations: seq<Str>, dead: bool, phase: Phase)

  /** Sessions by number, the session last registered under each boot id, and devices still to be fenced. */
  datatype Node = Node(
    fabric: State, sessions: map<nat, Worker>, workers: map<Str, nat>, fencing: map<nat, seq<Str>>)

  datatype Message =
    | PublishDevice(dev: Device)
    | ReserveBytes(bytes: u64, consumer: Str)
    | CommitId(id: Str)
    | ReleaseId(id: Str)
    | PublishPool(pool: Pool)
    | PublishRegion(region: Region)
    | RevalidatePoolAgain(id: Str)
    | RevalidateRegionAgain(id: Str)

  /** One event makes at most one engine call, so a list of events is any interleaving of the sessions' threads. */
  datatype Event =
    | Booted(session: nat, boot: Str)
    | Received(session: nat, message: Message)
    | Lost(session: nat)
    | FenceNext(session: nat)
    | Erased(session: nat)

  function WorkerContext(s: State, boot: Str): Authority {
    Authority(s.epoch, s.policyGeneration, boot, 1)
  }

  function PlainRequest(bytes: u64, consumer: Str): Request {
    Request(bytes, VOLATILITY_UNKNOWN, consumer, [], None, None, None, None, SHARING_UNKNOWN, false, 0, 0)
  }

  /** The engine call of one message; the last two follow a publication that found its id taken. */
  function MessageCall(s: State, boot: Str, m: Message): Op {
    var ctx := WorkerContext(s, boot);
    match m
    case PublishDevice(dev) => OnDevice(RegisterCall(dev, ctx))
    case ReserveBytes(bytes, consumer) => OnReservation(ReserveCall(PlainRequest(bytes, consumer), ctx))
    case CommitId(id) => OnReservation(CommitCall(id, ctx))
    case ReleaseId(id) => OnReservation(ReleaseCall(id, ctx))
    case PublishPool(pool) => OnPool(NewPoolCall(pool, ctx))
    case PublishRegion(region) => OnRegion(NewRegionCall(region, ctx))
    case RevalidatePoolAgain(id) => OnPool(RevalidatePoolCall(id, ctx))
    case RevalidateRegionAgain(id) => OnRegion(RevalidateRegionCall(id, ctx))
  }

  function DeathContext(s: State): Authority {
    Authority(s.epoch, s.policyGeneration, [], 0)
  }

  /** The worker whose evidence a lost session fences: whoever is registered under its boot id, if still alive. */
  function Mourned(k: Node, session: nat): Option<nat> {
    if session !in k.sessions then None
    else
      var boot := k.sessions[session].boot;
      if boot !in k.workers || k.workers[boot] !in k.sessions || k.sessions[k.workers[boot]].dead then None
      else Some(k.workers[boot])
  }

  function Calls(k: Node, e: Event): seq<Op> {
    match e
    case Booted(_, _) => []
    case Received(session, m) =>
      if !Serves(k, session) then [] else [MessageCall(k.fabric, k.sessions[session].boot, m)]
    case Lost(_) => []
    case Erased(_) => []
    case FenceNext(session) =>
      if !Due(k, session) then []
      else [OnDevice(DistrustCall(k.fencing[session][0], DeathContext(k.fabric)))]
  }

  predicate Serves(k: Node, session: nat) {
    session in k.sessions && k.sessions[session].phase.Serving?
  }

  /** Some device of the lost session is still to be fenced. */
  predicate Due(k: Node, session: nat) {
    session in k.fencing && k.fencing[session] != []
  }

  function Noted(w: Worker, s: State, m: Message): Worker {
    var ctx := WorkerContext(s, w.boot);
    match m
    case PublishDevice(dev) =>
      if RegisterDevice(s, dev, ctx).1 == OK then w.(devices := w.devices + [dev.id]) else w
    case ReserveBytes(bytes, consumer) =>
      var o := Reserve(s, PlainRequest(bytes, consumer), ctx).1;
      if o.ok && o.reservation.Some? then w.(reservations := w.reservations + [o.reservation.value.id]) else w
    case _ => w
  }

  function Handle(k: Node, e: Event): Node {
    var fabric := Run(k.fabric, Calls(k, e));
    match e
    case Booted(session, boot) =>
      if session in k.sessions then k
      else k.(sessions := k.sessions[session := Worker(boot, [], [], false, Serving)],
              workers := k.workers[boot := session])
    case Received(session, m) =>
      if !Serves(k, session) then k
      else k.(fabric := fabric, sessions := k.sessions[session := Noted(k.sessions[session], k.fabric, m)])
    case Lost(session) =>
      if !Serves(k, session) then k
      else
        var gone := Mourned(k, session);
        var sessions := if gone.None? then k.sessions
                        else k.sessions[gone.value := k.sessions[gone.value].(dead := true)];
        k.(sessions := sessions[session := sessions[session].(phase := Leaving)],
           fencing := k.fencing[session := if gone.None? then [] else k.sessions[gone.value].devices])
    case Erased(session) =>
      if !Erasable(k, session) then k
      else k.(sessions := k.sessions[session := k.sessions[session].(phase := Left)],
              workers := k.workers - {k.sessions[session].boot})
    case FenceNext(session) =>
      if !Due(k, session) then k
      else k.(fabric := fabric, fencing := k.fencing[session := k.fencing[session][1..]])
  }

  /** A lost session erases what is filed under its boot id once its fencing is done, whoever that is by then. */
  predicate Erasable(k: Node, session: nat) {
    session in k.sessions && k.sessions[session].phase.Leaving? && !Due(k, session)
  }

  function HandleAll(k: Node, es: seq<Event>): Node
    decreases |es|
  {
    if es == [] then k else HandleAll(Handle(k, es[0]), es[1..])
  }

  // ---- a coordinator run is an engine run ----

  ghost function AllCalls(k: Node, es: seq<Event>): seq<Op>
    decreases |es|
  {
    if es == [] then [] else Calls(k, es[0]) + AllCalls(Handle(k, es[0]), es[1..])
  }

  lemma {:induction false} RunConcat(s: State, a: seq<Op>, b: seq<Op>)
    ensures Run(s, a + b) == Run(Run(s, a), b)
    decreases |a|
  {
    if a == [] {
      assert a + b == b;
    } else {
      assert (a + b)[1..] == a[1..] + b;
      RunConcat(Apply(s, a[0]), a[1..], b);
    }
  }

  lemma HandleCons(k: Node, e: Event, es: seq<Event>)
    ensures HandleAll(k, [e] + es) == HandleAll(Handle(k, e), es)
  {
    assert ([e] + es)[1..] == es;
  }

  lemma {:induction false} HandleSplit(k: Node, a: seq<Event>, b: seq<Event>)
    ensures HandleAll(k, a + b) == HandleAll(HandleAll(k, a), b)
    decreases |a|
  {
    if a == [] {
      assert a + b == b;
    } else {
      assert (a + b)[1..] == a[1..] + b;
      HandleSplit(Handle(k, a[0]), a[1..], b);
    }
  }

  lemma HandleRuns(k: Node, e: Event)
    ensures Handle(k, e).fabric == Run(k.fabric, Calls(k, e))
  {}

  lemma {:induction false} HandleAllRuns(k: Node, es: seq<Event>)
    ensures HandleAll(k, es).fabric == Run(k.fabric, AllCalls(k, es))
    decreases |es|
  {
    if es != [] {
      HandleRuns(k, es[0]);
      HandleAllRuns(Handle(k, es[0]), es[1..]);
      RunConcat(k.fabric, Calls(k, es[0]), AllCalls(Handle(k, es[0]), es[1..]));
    }
  }

  lemma CallsNeverRestore(k: Node, e: Event)
    ensures NoRestore(Calls(k, e))
  {}

  lemma {:induction false} AllCallsNeverRestore(k: Node, es: seq<Event>)
    ensures NoRestore(AllCalls(k, es))
    decreases |es|
  {
    if es != [] {
      CallsNeverRestore(k, es[0]);
      AllCallsNeverRestore(Handle(k, es[0]), es[1..]);
    }
  }

  /** Every engine fact about runs without imports holds of every coordinator run. */
  lemma CoordinatorRunsAreLater(k: Node, es: seq<Event>)
    requires Filed(k.fabric)
    ensures Later(k.fabric, HandleAll(k, es).fabric) && Filed(HandleAll(k, es).fabric)
  {
    HandleAllRuns(k, es);
    AllCallsNeverRestore(k, es);
    RunLater(k.fabric, AllCalls(k, es));
  }

  // ---- who may commit ----

  function CommitReply(k: Node, session: nat, id: Str): ReserveOutcome
    requires session in k.sessions
  {
    Commit(k.fabric, id, WorkerContext(k.fabric, k.sessions[session].boot)).1
  }

  function ReserveReply(k: Node, session: nat, bytes: u64, consumer: Str): ReserveOutcome
    requires session in k.sessions
  {
    Reserve(k.fabric, PlainRequest(bytes, consumer), WorkerContext(k.fabric, k.sessions[session].boot)).1
  }

  lemma RunOne(s: State, op: Op)
    ensures Run(s, [op]) == Apply(s, op)
  {
    assert [op][1..] == [];
  }

  lemma GrantIsFiled(k: Node, session: nat, bytes: u64, consumer: Str)
    requires Sound(k.fabric) && FreshIds(k.fabric) && Serves(k, session)
    requires ReserveReply(k, session, bytes, consumer).ok
    ensures ReserveReply(k, session, bytes, consumer).reservation.Some?
    ensures var res := ReserveReply(k, session, bytes, consumer).reservation.value;
      var t := Handle(k, Received(session, ReserveBytes(bytes, consumer))).fabric;
      res.id in t.reservations && t.reservations[res.id] == res && res.workerBootId == k.sessions[session].boot
  {
    var req, ctx := PlainRequest(bytes, consumer), WorkerContext(k.fabric, k.sessions[session].boot);
    ReservedIsFiled(k.fabric, req, ctx);
    RunOne(k.fabric, OnReservation(ReserveCall(req, ctx)));
  }

  lemma ReservedIsFiled(s: State, req: Request, ctx: Authority)
    requires Sound(s) && FreshIds(s) && Reserve(s, req, ctx).1.ok
    ensures var t, o := Reserve(s, req, ctx).0, Reserve(s, req, ctx).1.reservation;
      && o.Some? && o.value.id in t.reservations && t.reservations[o.value.id] == o.value
      && o.value.workerBootId == ctx.workerBootId
  {
    var c := ReserveShape(s, req, ctx);
    BookShape(s, c, req, ctx);
    NewIdFresh(s);
  }

  /**
   * Whatever happens in between, a reservation made through one session is committed by another session only if
   * that session carries the same boot id or an empty one.
   */
  lemma CommittedByCreator(
    k: Node, session: nat, bytes: u64, consumer: Str, es: seq<Event>, other: nat)
    requires Sound(k.fabric) && FreshIds(k.fabric) && Serves(k, session)
    requires ReserveReply(k, session, bytes, consumer).ok
    ensures ReserveReply(k, session, bytes, consumer).reservation.Some?
    ensures var id := ReserveReply(k, session, bytes, consumer).reservation.value.id;
      var u := HandleAll(Handle(k, Received(session, ReserveBytes(bytes, consumer))), es);
      other in u.sessions && CommitReply(u, other, id).ok ==>
        u.sessions[other].boot == k.sessions[session].boot || u.sessions[other].boot == []
  {
    GrantIsFiled(k, session, bytes, consumer);
    var id := ReserveReply(k, session, bytes, consumer).reservation.value.id;
    var t := Handle(k, Received(session, ReserveBytes(bytes, consumer)));
    HandleFiled(k, Received(session, ReserveBytes(bytes, consumer)));
    CoordinatorRunsAreLater(t, es);
    var u := HandleAll(t, es);
    assert SameGrant(t.fabric.reservations[id], u.fabric.reservations[id]);
    if other in u.sessions {
      CommitShape(u.fabric, id, WorkerContext(u.fabric, u.sessions[other].boot));
    }
  }

  lemma HandleFiled(k: Node, e: Event)
    requires Filed(k.fabric)
    ensures Filed(Handle(k, e).fabric)
  {
    HandleRuns(k, e);
    CallsNeverRestore(k, e);
    RunLater(k.fabric, Calls(k, e));
  }

  /** The boot check alone: what the creator could commit, another boot can commit exactly when it is empty. */
  lemma ForeignCommitIff(s: State, id: Str, boot: Str)
    requires id in s.reservations && Commit(s, id, WorkerContext(s, s.reservations[id].workerBootId)).1.ok
    ensures Commit(s, id, WorkerContext(s, boot)).1.ok <==> boot == [] || boot == s.reservations[id].workerBootId
  {
    CommitShape(s, id, WorkerContext(s, s.reservations[id].workerBootId));
    CommitShape(s, id, WorkerContext(s, boot));
  }

  // ---- what a session publishes ----

  /** The event publishes the device through the session, and the engine takes it. */
  ghost predicate Accepts(k: Node, e: Event, session: nat, d: Str) {
    && e.Received? && e.session == session && Serves(k, session) && e.message.PublishDevice? && e.message.dev.id == d
    && RegisterDevice(k.fabric, e.message.dev, WorkerContext(k.fabric, k.sessions[session].boot)).1 == OK
  }

  ghost predicate AcceptsSome(k: Node, es: seq<Event>, session: nat, d: Str)
    decreases |es|
  {
    es != [] && (Accepts(k, es[0], session, d) || AcceptsSome(Handle(k, es[0]), es[1..], session, d))
  }

  lemma HandleNotes(k: Node, e: Event, session: nat, d: Str)
    requires session in k.sessions
    ensures session in Handle(k, e).sessions
    ensures d in Handle(k, e).sessions[session].devices <==>
      d in k.sessions[session].devices || Accepts(k, e, session, d)
  {}

  /** A session is credited, and its loss charged, with exactly the devices whose publication the engine accepted. */
  lemma {:induction false} CreditedIff(k: Node, es: seq<Event>, session: nat, d: Str)
    requires session in k.sessions
    ensures session in HandleAll(k, es).sessions
    ensures d in HandleAll(k, es).sessions[session].devices <==>
      d in k.sessions[session].devices || AcceptsSome(k, es, session, d)
    decreases |es|
  {
    if es != [] {
      HandleNotes(k, es[0], session, d);
      CreditedIff(Handle(k, es[0]), es[1..], session, d);
    }
  }

  // ---- a worker's round trip ----

  lemma ReceivedCalls(k: Node, session: nat, m: Message)
    requires Serves(k, session)
    ensures var u := Handle(k, Received(session, m));
      && u.fabric == Apply(k.fabric, MessageCall(k.fabric, k.sessions[session].boot, m))
      && Serves(u, session) && u.sessions[session].boot == k.sessions[session].boot
  {
    RunOne(k.fabric, MessageCall(k.fabric, k.sessions[session].boot, m));
    NotedKeeps(k, session, m);
  }

  lemma SameContext(s: State, c: ReservationCall, boot: Str)
    ensures WorkerContext(PerformOnReservation(s, c).0, boot) == WorkerContext(s, boot)
  {
    match c
    case ReserveCall(req, ctx) =>
    case CommitCall(id, ctx) => CommitShape(s, id, ctx);
    case ReleaseCall(id, ctx) =>
  }

  /** Handling the message performs the call under the session's own authority, which the call does not change. */
  lemma ReservationMessage(k: Node, session: nat, m: Message, c: ReservationCall)
    requires Serves(k, session) && MessageCall(k.fabric, k.sessions[session].boot, m) == OnReservation(c)
    ensures var u := Handle(k, Received(session, m));
      && u.fabric == PerformOnReservation(k.fabric, c).0 && Serves(u, session)
      && u.sessions[session].boot == k.sessions[session].boot
      && WorkerContext(u.fabric, u.sessions[session].boot) == WorkerContext(k.fabric, k.sessions[session].boot)
  {
    ReceivedCalls(k, session, m);
    SameContext(k.fabric, c, k.sessions[session].boot);
  }

  /** The node after a session has reserved, committed and released. */
  ghost function AfterThree(k: Node, session: nat, bytes: u64, consumer: Str, id: Str): Node {
    Handle(Handle(Handle(k, Received(session, ReserveBytes(bytes, consumer))), Received(session, CommitId(id))),
           Received(session, ReleaseId(id)))
  }

  lemma ThreeMessages(k: Node, session: nat, bytes: u64, consumer: Str, id: Str)
    requires Serves(k, session)
    ensures var req, ctx := PlainRequest(bytes, consumer), WorkerContext(k.fabric, k.sessions[session].boot);
      AfterThree(k, session, bytes, consumer, id).fabric ==
        Release(Commit(Reserve(k.fabric, req, ctx).0, id, ctx).0, id, ctx).0
  {
    var req, ctx := PlainRequest(bytes, consumer), WorkerContext(k.fabric, k.sessions[session].boot);
    ReservationMessage(k, session, ReserveBytes(bytes, consumer), ReserveCall(req, ctx));
    var k1 := Handle(k, Received(session, ReserveBytes(bytes, consumer)));
    ReservationMessage(k1, session, CommitId(id), CommitCall(id, ctx));
    var k2 := Handle(k1, Received(session, CommitId(id)));
    ReservationMessage(k2, session, ReleaseId(id), ReleaseCall(id, ctx));
  }

  /** A worker that reserves, commits and releases leaves pool and region with what they had in use. */
  lemma WorkerRoundTrip(k: Node, o: Opening, session: nat, bytes: u64, consumer: Str)
    requires Balanced(k.fabric, o) && FreshIds(k.fabric) && Serves(k, session)
    requires GrantAdds(k.fabric, PlainRequest(bytes, consumer), WorkerContext(k.fabric, k.sessions[session].boot))
    requires ReserveReply(k, session, bytes, consumer).ok
    ensures ReserveReply(k, session, bytes, consumer).reservation.Some?
    ensures var res := ReserveReply(k, session, bytes, consumer).reservation.value;
      BackWhere(k.fabric, AfterThree(k, session, bytes, consumer, res.id).fabric, res)
  {
    var ctx := WorkerContext(k.fabric, k.sessions[session].boot);
    ReserveCommitRelease(k.fabric, o, PlainRequest(bytes, consumer), ctx);
    ThreeMessages(k, session, bytes, consumer, ReserveReply(k, session, bytes, consumer).reservation.value.id);
  }

  // ---- worker death ----

  /** Distrust closes a device whether or not the state table lets the mark through. */
  lemma DistrustCloses(s: State, d: Str, ctx: Authority)
    requires ctx.epoch == s.epoch
    ensures Closed(Apply(s, OnDevice(DistrustCall(d, ctx))), DeviceTarget(d))
  {}

  lemma NotedKeeps(k: Node, session: nat, m: Message)
    ensures session in k.sessions ==>
      var w, n := k.sessions[session], Noted(k.sessions[session], k.fabric, m);
      n.boot == w.boot && n.dead == w.dead && n.phase == w.phase && w.devices <= n.devices
  {}

  // ---- who is registered under a boot id ----

  /** The session is alive and is the one registered under its boot id. */
  ghost predicate RegisteredAt(k: Node, s: nat) {
    && s in k.sessions && !k.sessions[s].dead
    && k.sessions[s].boot in k.workers && k.workers[k.sessions[s].boot] == s
  }

  /** Every table entry names a session that booted under that id. */
  ghost predicate TableOk(k: Node) {
    forall b | b in k.workers :: k.workers[b] in k.sessions && k.sessions[k.workers[b]].boot == b
  }

  /** The event registers another session under the id. */
  predicate BootsUnder(k: Node, e: Event, boot: Str) {
    e.Booted? && e.boot == boot && e.session !in k.sessions
  }

  /**
   * The event takes the registration of a session: another session boots under its id, or another one that booted
   * under it is lost, or has its entry erased.
   */
  predicate Disturbs(k: Node, e: Event, s: nat) {
    && s in k.sessions
    && match e
       case Booted(_, _) => BootsUnder(k, e, k.sessions[s].boot)
       case Lost(t) => t != s && Serves(k, t) && k.sessions[t].boot == k.sessions[s].boot
       case Erased(t) => t != s && Erasable(k, t) && k.sessions[t].boot == k.sessions[s].boot
       case _ => false
  }

  ghost predicate Disturbed(k: Node, es: seq<Event>, s: nat)
    decreases |es|
  {
    es != [] && (Disturbs(k, es[0], s) || Disturbed(Handle(k, es[0]), es[1..], s))
  }

  /** A known session that no entry of the table stands for, or that has been marked dead. */
  ghost predicate Unregistered(k: Node, s: nat) {
    s in k.sessions && !RegisteredAt(k, s)
  }

  /** A serving session in a sound table. */
  ghost predicate InService(k: Node, s: nat) {
    TableOk(k) && Serves(k, s)
  }

  lemma HandleTableOk(k: Node, e: Event)
    requires TableOk(k)
    ensures TableOk(Handle(k, e))
  {
    if e.Received? { NotedKeeps(k, e.session, e.message); }
  }

  /** Sessions stay known, with their boot ids. */
  lemma HandleKeepsSession(k: Node, e: Event, s: nat)
    requires s in k.sessions
    ensures s in Handle(k, e).sessions && Handle(k, e).sessions[s].boot == k.sessions[s].boot
    ensures e != Lost(s) && k.sessions[s].phase.Serving? ==> Handle(k, e).sessions[s].phase.Serving?
    ensures k.sessions[s].devices <= Handle(k, e).sessions[s].devices
  {
    if e.Received? { NotedKeeps(k, e.session, e.message); }
  }

  lemma UndisturbedStaysRegistered(k: Node, e: Event, s: nat)
    requires InService(k, s) && RegisteredAt(k, s) && e != Lost(s) && !Disturbs(k, e, s)
    ensures RegisteredAt(Handle(k, e), s)
  {
    if e.Received? { NotedKeeps(k, e.session, e.message); }
  }

  lemma DisturbanceUnregisters(k: Node, e: Event, s: nat)
    requires InService(k, s) && RegisteredAt(k, s) && Disturbs(k, e, s)
    ensures Unregistered(Handle(k, e), s)
  {}

  lemma HandleUnregistered(k: Node, e: Event, s: nat)
    requires Unregistered(k, s)
    ensures Unregistered(Handle(k, e), s)
  {
    HandleKeepsSession(k, e, s);
    if e.Received? { NotedKeeps(k, e.session, e.message); }
  }

  /** Nothing ever registers a session again. */
  lemma {:induction false} UnregisteredForever(k: Node, es: seq<Event>, s: nat)
    requires Unregistered(k, s)
    ensures Unregistered(HandleAll(k, es), s)
    decreases |es|
  {
    if es != [] {
      HandleUnregistered(k, es[0], s);
      UnregisteredForever(Handle(k, es[0]), es[1..], s);
    }
  }

  lemma {:induction false} StaysInService(k: Node, es: seq<Event>, s: nat)
    requires InService(k, s) && forall i | 0 <= i < |es| :: es[i] != Lost(s)
    ensures InService(HandleAll(k, es), s)
    decreases |es|
  {
    if es != [] {
      assert es[0] != Lost(s);
      HandleKeepsSession(k, es[0], s);
      HandleTableOk(k, es[0]);
      StaysInService(Handle(k, es[0]), es[1..], s);
    }
  }

  /** While it serves, a registered session stays registered exactly until one of the three events disturbs it. */
  lemma {:induction false} RegisteredIff(k: Node, es: seq<Event>, s: nat)
    requires TableOk(k) && Serves(k, s) && RegisteredAt(k, s) && forall i | 0 <= i < |es| :: es[i] != Lost(s)
    ensures RegisteredAt(HandleAll(k, es), s) <==> !Disturbed(k, es, s)
    decreases |es|
  {
    if es != [] {
      assert es[0] != Lost(s);
      if Disturbs(k, es[0], s) {
        DisturbanceUnregisters(k, es[0], s);
        UnregisteredForever(Handle(k, es[0]), es[1..], s);
      } else {
        UndisturbedStaysRegistered(k, es[0], s);
        HandleKeepsSession(k, es[0], s);
        HandleTableOk(k, es[0]);
        RegisteredIff(Handle(k, es[0]), es[1..], s);
      }
    }
  }

  /** A boot registers the new session, whoever is or was under the id. */
  lemma BootRegisters(k: Node, s: nat, boot: Str)
    requires TableOk(k) && s !in k.sessions
    ensures var u := Handle(k, Booted(s, boot)); TableOk(u) && Serves(u, s) && RegisteredAt(u, s)
  {}

  // ---- sessions whose predecessors are gone ----

  /** Every other session under the same boot id has come and gone, its table entry erased. */
  ghost predicate Alone(k: Node, s: nat) {
    && s in k.sessions
    && forall t | t in k.sessions && t != s && k.sessions[t].boot == k.sessions[s].boot :: k.sessions[t].phase.Left?
  }

  /** Some event of the run registers another session under the id. */
  ghost predicate SecondBoot(k: Node, es: seq<Event>, boot: Str)
    decreases |es|
  {
    es != [] && (BootsUnder(k, es[0], boot) || SecondBoot(Handle(k, es[0]), es[1..], boot))
  }

  lemma GoneForGood(k: Node, e: Event, t: nat)
    requires t in k.sessions && k.sessions[t].phase.Left?
    ensures t in Handle(k, e).sessions && Handle(k, e).sessions[t].phase.Left?
  {}

  lemma HandleKeepsAlone(k: Node, e: Event, s: nat)
    requires Alone(k, s) && !BootsUnder(k, e, k.sessions[s].boot)
    ensures Alone(Handle(k, e), s)
  {
    HandleKeepsSession(k, e, s);
    var u := Handle(k, e);
    forall t | t in u.sessions && t != s && u.sessions[t].boot == u.sessions[s].boot
      ensures u.sessions[t].phase.Left?
    {
      if t in k.sessions {
        HandleKeepsSession(k, e, t);
        GoneForGood(k, e, t);
      }
    }
  }

  /** Once its predecessors under the id are all erased, only another boot under the id disturbs a session. */
  lemma {:induction false} AloneDisturbedIff(k: Node, es: seq<Event>, s: nat)
    requires Alone(k, s)
    ensures Disturbed(k, es, s) <==> SecondBoot(k, es, k.sessions[s].boot)
    decreases |es|
  {
    if es != [] && !BootsUnder(k, es[0], k.sessions[s].boot) {
      HandleKeepsAlone(k, es[0], s);
      HandleKeepsSession(k, es[0], s);
      AloneDisturbedIff(Handle(k, es[0]), es[1..], s);
    }
  }

  // ---- what a loss fences ----

  /** No other session under the same boot id published the device. */
  ghost predicate OnlyPublisher(k: Node, s: nat, d: Str) {
    && s in k.sessions && d in k.sessions[s].devices
    && forall t | t in k.sessions && t != s && k.sessions[t].boot == k.sessions[s].boot :: d !in k.sessions[t].devices
  }

  lemma LossListsIff(k: Node, s: nat, d: Str)
    requires Serves(k, s) && TableOk(k) && OnlyPublisher(k, s, d)
    ensures s in Handle(k, Lost(s)).fencing
    ensures d in Handle(k, Lost(s)).fencing[s] <==> RegisteredAt(k, s)
  {}

  /**
   * Losing a session lists the devices it published for fencing exactly when nothing disturbed its registration
   * while it served.
   */
  lemma LossFencesIff(k: Node, es: seq<Event>, s: nat, d: Str)
    requires TableOk(k) && Serves(k, s) && RegisteredAt(k, s) && forall i | 0 <= i < |es| :: es[i] != Lost(s)
    requires OnlyPublisher(HandleAll(k, es), s, d)
    ensures var u := Handle(HandleAll(k, es), Lost(s)); s in u.fencing && (d in u.fencing[s] <==> !Disturbed(k, es, s))
  {
    RegisteredIff(k, es, s);
    StaysInService(k, es, s);
    LossListsIff(HandleAll(k, es), s, d);
  }

  lemma MournedIsRegistered(k: Node, s: nat, other: nat)
    requires TableOk(k) && Mourned(k, other) == Some(s)
    ensures RegisteredAt(k, s)
  {}

  /** Once a session has been disturbed, no loss of any session in any later state fences what it publishes. */
  lemma DisturbedEscapes(k: Node, es: seq<Event>, later: seq<Event>, s: nat, other: nat)
    requires TableOk(k) && Serves(k, s) && RegisteredAt(k, s) && Disturbed(k, es, s)
    requires forall i | 0 <= i < |es| :: es[i] != Lost(s)
    ensures Mourned(HandleAll(HandleAll(k, es), later), other) != Some(s)
  {
    var u := HandleAll(HandleAll(k, es), later);
    RegisteredIff(k, es, s);
    StaysInService(k, es, s);
    UnregisteredForever(HandleAll(k, es), later, s);
    TableStaysOk(HandleAll(k, es), later);
    if Mourned(u, other) == Some(s) { MournedIsRegistered(u, s, other); }
  }

  lemma {:induction false} TableStaysOk(k: Node, es: seq<Event>)
    requires TableOk(k)
    ensures TableOk(HandleAll(k, es))
    decreases |es|
  {
    if es != [] {
      HandleTableOk(k, es[0]);
      TableStaysOk(Handle(k, es[0]), es[1..]);
    }
  }

  /** Erasure takes out whoever is filed by then: a successor that booted too early is lost without being fenced. */
  lemma ErasureHitsSuccessor(k: Node, s: nat, next: nat)
    requires Erasable(k, s) && next !in k.sessions
    ensures var u := Handle(Handle(k, Booted(next, k.sessions[s].boot)), Erased(s));
      Serves(u, next) && Unregistered(u, next) && Mourned(u, next).None?
  {}

  /** A loss marks dead whoever is filed by then: a successor that booted too early serves on as a dead one. */
  lemma LossHitsSuccessor(k: Node, s: nat, next: nat)
    requires Serves(k, s) && next !in k.sessions
    ensures var u := Handle(Handle(k, Booted(next, k.sessions[s].boot)), Lost(s));
      Serves(u, next) && Unregistered(u, next) && Mourned(u, next).None?
  {}

  /** The device of a lost session is fenced, or still on the list of those to be fenced. */
  ghost predicate DueOrClosed(k: Node, session: nat, d: Str) {
    && session in k.sessions && !k.sessions[session].phase.Serving? && session in k.fencing
    && (d in k.fencing[session] || Closed(k.fabric, DeviceTarget(d)))
  }

  /** Losing a registered session puts every device that was published through it on the list. */
  lemma LossLists(k: Node, session: nat, d: Str)
    requires Serves(k, session) && RegisteredAt(k, session) && d in k.sessions[session].devices
    ensures DueOrClosed(Handle(k, Lost(session)), session, d)
  {
    assert Mourned(k, session) == Some(session);
  }

  /** Publishing the device again, with current evidence and online, is what reopens it. */
  predicate Republishes(e: Event, d: Str) {
    e.Received? && e.message.PublishDevice? && e.message.dev.id == d && DeviceOpen(e.message.dev)
  }

  lemma CallsKeepClosed(k: Node, e: Event, d: Str)
    requires !Republishes(e, d)
    ensures forall i | 0 <= i < |Calls(k, e)| :: Calls(k, e)[i].OnDevice? ==> !ReopensDevice(Calls(k, e)[i].device, d)
  {}

  lemma {:induction false} StaticallyLeftClosed(s: State, ops: seq<Op>, d: Str)
    requires NoRestore(ops) && forall i | 0 <= i < |ops| :: ops[i].OnDevice? ==> !ReopensDevice(ops[i].device, d)
    ensures LeftClosed(s, ops, DeviceTarget(d))
    decreases |ops|
  {
    if ops != [] {
      assert !ops[0].Restore? && (ops[0].OnDevice? ==> !ReopensDevice(ops[0].device, d));
      StaticallyLeftClosed(Apply(s, ops[0]), ops[1..], d);
    }
  }

  lemma HandleKeepsClosed(k: Node, e: Event, d: Str)
    requires Filed(k.fabric) && Closed(k.fabric, DeviceTarget(d)) && !Republishes(e, d)
    ensures Closed(Handle(k, e).fabric, DeviceTarget(d))
  {
    CallsNeverRestore(k, e);
    CallsKeepClosed(k, e, d);
    StaticallyLeftClosed(k.fabric, Calls(k, e), d);
    ClosedGainsNone(k.fabric, Calls(k, e), DeviceTarget(d), []);
    HandleRuns(k, e);
  }

  lemma FenceNextCloses(k: Node, session: nat)
    requires Due(k, session)
    ensures Closed(Handle(k, FenceNext(session)).fabric, DeviceTarget(k.fencing[session][0]))
  {
    var d, ctx := k.fencing[session][0], DeathContext(k.fabric);
    RunOne(k.fabric, OnDevice(DistrustCall(d, ctx)));
    DistrustCloses(k.fabric, d, ctx);
  }

  lemma FencingKept(k: Node, e: Event, session: nat, d: Str)
    requires session in k.sessions && !k.sessions[session].phase.Serving? && session in k.fencing
    ensures session in Handle(k, e).sessions && !Handle(k, e).sessions[session].phase.Serving?
    ensures session in Handle(k, e).fencing
    ensures d in k.fencing[session] ==>
      d in Handle(k, e).fencing[session] || (e == FenceNext(session) && d == k.fencing[session][0])
  {
    if e.Received? { NotedKeeps(k, e.session, e.message); }
  }

  lemma HandleDueOrClosed(k: Node, e: Event, session: nat, d: Str)
    requires Filed(k.fabric) && DueOrClosed(k, session, d) && !Republishes(e, d)
    ensures DueOrClosed(Handle(k, e), session, d)
  {
    FencingKept(k, e, session, d);
    if Closed(k.fabric, DeviceTarget(d)) {
      HandleKeepsClosed(k, e, d);
    } else if e == FenceNext(session) {
      FenceNextCloses(k, session);
    }
  }

  lemma {:induction false} StaysDueOrClosed(k: Node, es: seq<Event>, session: nat, d: Str)
    requires Filed(k.fabric) && DueOrClosed(k, session, d)
    requires forall i | 0 <= i < |es| :: !Republishes(es[i], d)
    ensures Filed(HandleAll(k, es).fabric) && DueOrClosed(HandleAll(k, es), session, d)
    decreases |es|
  {
    if es != [] {
      assert !Republishes(es[0], d);
      HandleDueOrClosed(k, es[0], session, d);
      HandleFiled(k, es[0]);
      StaysDueOrClosed(Handle(k, es[0]), es[1..], session, d);
    }
  }

  lemma {:induction false} StillPublished(k: Node, es: seq<Event>, session: nat, d: Str)
    requires session in k.sessions && d in k.sessions[session].devices
    ensures session in HandleAll(k, es).sessions && d in HandleAll(k, es).sessions[session].devices
    decreases |es|
  {
    if es != [] {
      HandleKeepsSession(k, es[0], session);
      StillPublished(Handle(k, es[0]), es[1..], session, d);
    }
  }

  lemma PublishRecorded(k: Node, session: nat, dev: Device)
    requires Serves(k, session)
    requires RegisterDevice(k.fabric, dev, WorkerContext(k.fabric, k.sessions[session].boot)).1 == OK
    ensures var u := Handle(k, Received(session, PublishDevice(dev)));
      session in u.sessions && dev.id in u.sessions[session].devices
  {}

  lemma FencedAfterLoss(k: Node, session: nat, d: Str, after: seq<Event>)
    requires Filed(k.fabric) && Serves(k, session) && RegisteredAt(k, session) && d in k.sessions[session].devices
    requires forall i | 0 <= i < |after| :: !Republishes(after[i], d)
    requires !Due(HandleAll(Handle(k, Lost(session)), after), session)
    ensures var u := HandleAll(Handle(k, Lost(session)), after); Filed(u.fabric) && Closed(u.fabric, DeviceTarget(d))
  {
    LossLists(k, session, d);
    HandleFiled(k, Lost(session));
    StaysDueOrClosed(Handle(k, Lost(session)), after, session, d);
  }

  lemma ClosedIsNotDrawn(s: State, q: Query, c: Candidate, d: Str)
    requires Filed(s) && Closed(s, DeviceTarget(d)) && Drawn(q, s.Snapshot(), c)
    ensures c.device != d
  {}

  ghost predicate NoCandidate(s: State, d: Str) {
    forall q, c :: Drawn(q, s.Snapshot(), c) ==> c.device != d
  }

  lemma ClosedIsNoCandidate(s: State, d: Str)
    requires Filed(s) && Closed(s, DeviceTarget(d))
    ensures NoCandidate(s, d)
  {
    forall q, c | Drawn(q, s.Snapshot(), c) ensures c.device != d {
      ClosedIsNotDrawn(s, q, c, d);
    }
  }

  /** The node after a device was published through a session, and after whatever came next. */
  ghost function Published(k: Node, session: nat, dev: Device, es: seq<Event>): Node {
    HandleAll(Handle(k, Received(session, PublishDevice(dev))), es)
  }

  lemma PublishedAndRegistered(k: Node, session: nat, dev: Device, es: seq<Event>)
    requires Filed(k.fabric) && TableOk(k) && Serves(k, session) && RegisteredAt(k, session)
    requires RegisterDevice(k.fabric, dev, WorkerContext(k.fabric, k.sessions[session].boot)).1 == OK
    requires forall i | 0 <= i < |es| :: es[i] != Lost(session)
    requires !Disturbed(Handle(k, Received(session, PublishDevice(dev))), es, session)
    ensures var j := Published(k, session, dev, es);
      && Filed(j.fabric) && Serves(j, session) && RegisteredAt(j, session)
      && dev.id in j.sessions[session].devices
  {
    var e := Received(session, PublishDevice(dev));
    PublishRecorded(k, session, dev);
    HandleKeepsSession(k, e, session);
    HandleTableOk(k, e);
    UndisturbedStaysRegistered(k, e, session);
    HandleFiled(k, e);
    CoordinatorRunsAreLater(Handle(k, e), es);
    RegisteredIff(Handle(k, e), es, session);
    StaysInService(Handle(k, e), es, session);
    StillPublished(Handle(k, e), es, session, dev.id);
  }

  /**
   * A device that a registered session published is no candidate for placement or failover in any state after the
   * session's loss has been worked off, whatever other sessions do meanwhile, until it is published again; provided
   * nothing disturbed the registration while the session served.
   */
  lemma LostWorkersDevicesAreFenced(
    k: Node, session: nat, dev: Device, before: seq<Event>, after: seq<Event>)
    requires Filed(k.fabric) && TableOk(k) && Serves(k, session) && RegisteredAt(k, session)
    requires RegisterDevice(k.fabric, dev, WorkerContext(k.fabric, k.sessions[session].boot)).1 == OK
    requires forall i | 0 <= i < |before| :: before[i] != Lost(session)
    requires !Disturbed(Handle(k, Received(session, PublishDevice(dev))), before, session)
    requires forall i | 0 <= i < |after| :: !Republishes(after[i], dev.id)
    requires !Due(HandleAll(Handle(Published(k, session, dev, before), Lost(session)), after), session)
    ensures NoCandidate(HandleAll(Handle(Published(k, session, dev, before), Lost(session)), after).fabric, dev.id)
  {
    var j := Published(k, session, dev, before);
    PublishedAndRegistered(k, session, dev, before);
    FencedAfterLoss(j, session, dev.id, after);
    ClosedIsNoCandidate(HandleAll(Handle(j, Lost(session)), after).fabric, dev.id);
  }

  // ---- accounting ----

  /** Any event list whose engine calls are admissible where they are made leaves the engine's books balanced. */
  lemma CoordinatorBalanced(k: Node, o: Opening, es: seq<Event>)
    requires Balanced(k.fabric, o) && CacheFresh(k.fabric) && AdmissibleRun(k.fabric, AllCalls(k, es))
    ensures Balanced(HandleAll(k, es).fabric, OpeningAfter(k.fabric, o, AllCalls(k, es)))
    ensures CacheFresh(HandleAll(k, es).fabric)
  {
    HandleAllRuns(k, es);
    RunBalanced(k.fabric, o, AllCalls(k, es));
  }

  /** Messages carry no counters, and there are ids left. */
  ghost predicate Plain(k: Node, e: Event) {
    e.Received? && Serves(k, e.session) ==> PlainMessage(k.fabric, e.message)
  }

  ghost predicate PlainMessage(s: State, m: Message) {
    match m
    case PublishPool(pool) => pool.reserved == pool.committed == 0
    case PublishRegion(region) => region.reserved == region.committed == 0
    case ReserveBytes(_, _) => FreshIds(s)
    case _ => true
  }

  ghost predicate PlainRun(k: Node, es: seq<Event>)
    decreases |es|
  {
    es != [] ==> Plain(k, es[0]) && PlainRun(Handle(k, es[0]), es[1..])
  }

  /** The bytes of a grant can be counted by its pool. */
  ghost predicate Countable(k: Node, e: Event) {
    e.Received? && Serves(k, e.session) && e.message.ReserveBytes? ==>
      GrantAdds(k.fabric, PlainRequest(e.message.bytes, e.message.consumer),
                WorkerContext(k.fabric, k.sessions[e.session].boot))
  }

  ghost predicate CountableRun(k: Node, es: seq<Event>)
    decreases |es|
  {
    es != [] ==> Countable(k, es[0]) && CountableRun(Handle(k, es[0]), es[1..])
  }

  lemma {:induction false} SensibleConcat(s: State, a: seq<Op>, b: seq<Op>)
    requires RegionSensibleRun(s, a) && RegionSensibleRun(Run(s, a), b)
    ensures RegionSensibleRun(s, a + b)
    decreases |a|
  {
    if a == [] {
      assert a + b == b;
    } else {
      assert (a + b)[1..] == a[1..] + b;
      SensibleConcat(Apply(s, a[0]), a[1..], b);
    }
  }

  lemma {:induction false} AdmissibleConcat(s: State, a: seq<Op>, b: seq<Op>)
    requires AdmissibleRun(s, a) && AdmissibleRun(Run(s, a), b)
    ensures AdmissibleRun(s, a + b)
    decreases |a|
  {
    if a == [] {
      assert a + b == b;
    } else {
      assert (a + b)[1..] == a[1..] + b;
      AdmissibleConcat(Apply(s, a[0]), a[1..], b);
    }
  }

  lemma PlainCall(s: State, boot: Str, m: Message)
    requires PlainMessage(s, m)
    ensures Sensible(s, MessageCall(s, boot, m)) && StartsEmpty(MessageCall(s, boot, m))
  {}

  lemma SensibleOne(s: State, op: Op)
    requires RegionSensible(s, op)
    ensures RegionSensibleRun(s, [op])
  {
    assert [op][1..] == [];
  }

  lemma AdmissibleOne(s: State, op: Op)
    requires Admissible(s, op)
    ensures AdmissibleRun(s, [op])
  {
    assert [op][1..] == [];
  }

  lemma PlainCalls(k: Node, e: Event)
    requires Plain(k, e)
    ensures RegionSensibleRun(k.fabric, Calls(k, e))
    ensures forall i | 0 <= i < |Calls(k, e)| :: StartsEmpty(Calls(k, e)[i])
  {
    if Calls(k, e) != [] {
      if e.Received? { PlainCall(k.fabric, k.sessions[e.session].boot, e.message); }
      SensibleOne(k.fabric, Calls(k, e)[0]);
    }
  }

  lemma CountableCalls(k: Node, e: Event)
    requires Plain(k, e) && Countable(k, e)
    ensures AdmissibleRun(k.fabric, Calls(k, e))
  {
    if Calls(k, e) != [] {
      if e.Received? { PlainCall(k.fabric, k.sessions[e.session].boot, e.message); }
      AdmissibleOne(k.fabric, Calls(k, e)[0]);
    }
  }

  lemma {:induction false} PlainRunIsSensible(k: Node, es: seq<Event>)
    requires PlainRun(k, es)
    ensures RegionSensibleRun(k.fabric, AllCalls(k, es))
    ensures forall i | 0 <= i < |AllCalls(k, es)| :: StartsEmpty(AllCalls(k, es)[i])
    decreases |es|
  {
    if es != [] {
      PlainCalls(k, es[0]);
      HandleRuns(k, es[0]);
      PlainRunIsSensible(Handle(k, es[0]), es[1..]);
      SensibleConcat(k.fabric, Calls(k, es[0]), AllCalls(Handle(k, es[0]), es[1..]));
    }
  }

  lemma {:induction false} CountableRunIsAdmissible(k: Node, es: seq<Event>)
    requires PlainRun(k, es) && CountableRun(k, es)
    ensures AdmissibleRun(k.fabric, AllCalls(k, es))
    decreases |es|
  {
    if es != [] {
      CountableCalls(k, es[0]);
      HandleRuns(k, es[0]);
      CountableRunIsAdmissible(Handle(k, es[0]), es[1..]);
      AdmissibleConcat(k.fabric, Calls(k, es[0]), AllCalls(Handle(k, es[0]), es[1..]));
    }
  }

  function Started(epoch: u64): Node {
    Node(Initial(epoch, 1), map[], map[], map[])
  }

  /**
   * In any interleaving of sessions, regions hold exactly the bytes of their live reservations; pools do too as long
   * as they can count their grants.
   */
  lemma CoordinatorAccounts(epoch: u64, es: seq<Event>)
    requires PlainRun(Started(epoch), es)
    ensures RegionsExact(HandleAll(Started(epoch), es).fabric)
    ensures CountableRun(Started(epoch), es) ==> BooksExact(HandleAll(Started(epoch), es).fabric)
  {
    var k := Started(epoch);
    PlainRunIsSensible(k, es);
    if CountableRun(k, es) { CountableRunIsAdmissible(k, es); }
    HandleAllRuns(k, es);
    AccountingFromZero(epoch, 1, AllCalls(k, es));
  }
}
