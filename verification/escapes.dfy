/** Concrete coordinator runs in which two workers share a boot id and a lost worker's device stays a candidate. */
module Escapes {
  import opened Base
  import opened Records
  import opened Placement
  import opened Spec
  import opened Coordination
  import opened Stages
  import opened Cases
  import Streams
  import Codec = ControlCodec

  /** The event takes k to u. */
  ghost predicate Moves(k: Node, e: Event, u: Node) {
    forall x: Event | x == e :: Handle(k, x) == u
  }

  ghost predicate Comes(k: Node, es: seq<Event>, u: Node) {
    forall x: seq<Event> | x == es :: HandleAll(k, x) == u
  }

  lemma ComesNone(k: Node)
    ensures Comes(k, [], k)
  {}

  lemma ComesMore(k: Node, es: seq<Event>, u: Node, e: Event, v: Node)
    requires Comes(k, es, u) && Moves(u, e, v)
    ensures Comes(k, es + [e], v)
  {
    HandleSplit(k, es, [e]);
    HandleCons(u, e, []);
    assert [e] + [] == [e] && HandleAll(k, es) == u && Handle(u, e) == v;
  }

  lemma ComesThree(k: Node, es: seq<Event>, u: Node, a: Event, u1: Node, b: Event, u2: Node, c: Event, u3: Node)
    requires Comes(k, es, u) && Moves(u, a, u1) && Moves(u1, b, u2) && Moves(u2, c, u3)
    ensures Comes(k, es + [a] + [b] + [c], u3)
  {
    ComesMore(k, es, u, a, u1);
    ComesMore(k, es + [a], u1, b, u2);
    ComesMore(k, es + [a] + [b], u2, c, u3);
  }

  const BOOT: Str := [119]

  function Hand(devices: seq<Str>, dead: bool, phase: Phase): Worker {
    Worker(BOOT, devices, [], dead, phase)
  }

  function WithOne(s: State, devices: seq<Str>): Node {
    Node(s, map[1 := Hand(devices, false, Serving)], map[BOOT := 1], map[])
  }

  lemma BootsFirst()
    ensures Moves(Started(1), Booted(1, BOOT), WithOne(Initial(1, 1), []))
  {}

  /** A publication that the engine turns into t, through a session that notes the devices or nothing. */
  lemma Publishes(k: Node, session: nat, m: Message, t: State, w: Worker)
    requires Serves(k, session) && k.sessions[session].boot == BOOT && Noted(k.sessions[session], k.fabric, m) == w
    requires Leads(k.fabric, MessageCall(k.fabric, BOOT, m), t)
    ensures Moves(k, Received(session, m), k.(fabric := t, sessions := k.sessions[session := w]))
  {
    RunOne(k.fabric, MessageCall(k.fabric, BOOT, m));
    assert Run(k.fabric, [MessageCall(k.fabric, BOOT, m)]) == t;
  }

  function Bare(): State { Stage(map[D := MakeDevice(D)], map[], map[], map[], 0) }
  function Pooled(): State { Stage(map[D := MakeDevice(D)], map[], map[P := Opened(ONE)], map[], 0) }
  function Ready(): State { Stage(map[D := MakeDevice(D)], map[R := ROOM], map[P := Opened(ONE)], map[], 0) }

  /** What the three publications do to the engine, and what a session notes of them. */
  lemma EngineTakesAll(dead: bool)
    ensures Leads(Initial(1, 1), MessageCall(Initial(1, 1), BOOT, PublishDevice(MakeDevice(D))), Bare())
    ensures Leads(Bare(), MessageCall(Bare(), BOOT, PublishPool(ONE)), Pooled())
    ensures Leads(Pooled(), MessageCall(Pooled(), BOOT, PublishRegion(ROOM)), Ready())
    ensures Noted(Hand([], dead, Serving), Initial(1, 1), PublishDevice(MakeDevice(D))) == Hand([D], dead, Serving)
  {
    var ctx := Authority(1, 1, BOOT, 1);
    SetUpOne(ctx);
    SetUpTwo(ctx);
    SetUpThree(ctx);
    assert [] + [D] == [D];
  }

  /** A node in which the session, dead or not, serves with nothing published. */
  ghost predicate Idle(k: Node, session: nat, dead: bool) {
    k.fabric == Initial(1, 1) && session in k.sessions && k.sessions[session] == Hand([], dead, Serving)
  }

  function Busy(k: Node, session: nat, s: State, dead: bool): Node {
    k.(fabric := s, sessions := k.sessions[session := Hand([D], dead, Serving)])
  }

  lemma PublishesAll(k: Node, session: nat, dead: bool)
    requires Idle(k, session, dead)
    ensures Moves(k, Received(session, PublishDevice(MakeDevice(D))), Busy(k, session, Bare(), dead))
    ensures Moves(Busy(k, session, Bare(), dead), Received(session, PublishPool(ONE)), Busy(k, session, Pooled(), dead))
    ensures Moves(Busy(k, session, Pooled(), dead), Received(session, PublishRegion(ROOM)),
                  Busy(k, session, Ready(), dead))
  {
    EngineTakesAll(dead);
    Publishes(k, session, PublishDevice(MakeDevice(D)), Bare(), Hand([D], dead, Serving));
    PublishesMore(k, session, dead, Bare(), PublishPool(ONE), Pooled());
    PublishesMore(k, session, dead, Pooled(), PublishRegion(ROOM), Ready());
  }

  lemma PublishesMore(k: Node, session: nat, dead: bool, s: State, m: Message, t: State)
    requires Leads(s, MessageCall(s, BOOT, m), t) && (m.PublishPool? || m.PublishRegion?)
    ensures Moves(Busy(k, session, s, dead), Received(session, m), Busy(k, session, t, dead))
  {
    var u := Busy(k, session, s, dead);
    Publishes(u, session, m, t, Hand([D], dead, Serving));
    assert u.sessions[session := Hand([D], dead, Serving)] == u.sessions;
  }

  /** From an idle session, the three publications. */
  lemma ComesBusy(k: Node, es: seq<Event>, u: Node, session: nat, dead: bool)
    requires Comes(k, es, u) && Idle(u, session, dead)
    ensures Comes(k, es + Publications(session), Busy(u, session, Ready(), dead))
  {
    PublishesAll(u, session, dead);
    var a, b := Received(session, PublishDevice(MakeDevice(D))), Received(session, PublishPool(ONE));
    var c := Received(session, PublishRegion(ROOM));
    ComesThree(k, es, u, a, Busy(u, session, Bare(), dead), b, Busy(u, session, Pooled(), dead),
               c, Busy(u, session, Ready(), dead));
    assert es + [a] + [b] + [c] == es + Publications(session);
  }

  function Publications(session: nat): seq<Event> {
    [Received(session, PublishDevice(MakeDevice(D))), Received(session, PublishPool(ONE)),
     Received(session, PublishRegion(ROOM))]
  }

  /** The three records are what three messages decode to. */
  lemma MessagesGiveRecords()
    ensures var n := Codec.NoticeOf(MakeDevice(D));
      && Codec.DecodeDevice(Codec.WNotice(MakeDevice(D), [])) == Streams.Ok(n)
      && MakeDevice(D) == Codec.DeviceOf(n, Online)
    ensures var n := Codec.PoolNotice(P, 1, [MakeMember(D, 8, true)]);
      Codec.DecodePool(Codec.WPoolNotice(n, [])) == Streams.Ok(n) && ONE == Codec.PoolOf(n)
    ensures var n := Codec.RegionNotice(R, 1, P, [D], 8, 0, 0, Codec.RegionStateCode(RegionOnline));
      Codec.DecodeRegion(Codec.WRegionNotice(n, [])) == Streams.Ok(n) && ROOM == Codec.RegionOf(n, RegionOnline)
  {
    Codec.DeviceMessage(MakeDevice(D), []);
    Codec.PoolMessage(Codec.PoolNotice(P, 1, [MakeMember(D, 8, true)]), []);
    Codec.RegionMessage(Codec.RegionNotice(R, 1, P, [D], 8, 0, 0, Codec.RegionStateCode(RegionOnline)), []);
  }

  // ---- a second boot ----

  function WithTwo(s: State, first: Worker, second: Worker, workers: map<Str, nat>, fencing: map<nat, seq<Str>>): Node {
    Node(s, map[1 := first, 2 := second], workers, fencing)
  }

  lemma SecondComesAndGoes(s: State)
    ensures Moves(WithOne(s, [D]), Booted(2, BOOT),
                  WithTwo(s, Hand([D], false, Serving), Hand([], false, Serving), map[BOOT := 2], map[]))
    ensures Moves(WithTwo(s, Hand([D], false, Serving), Hand([], false, Serving), map[BOOT := 2], map[]), Lost(2),
                  WithTwo(s, Hand([D], false, Serving), Hand([], true, Leaving), map[BOOT := 2], map[2 := []]))
    ensures Moves(WithTwo(s, Hand([D], false, Serving), Hand([], true, Leaving), map[BOOT := 2], map[2 := []]),
                  Erased(2),
                  WithTwo(s, Hand([D], false, Serving), Hand([], true, Left), map[], map[2 := []]))
  {
    assert map[1 := Hand([D], false, Serving)][2 := Hand([], false, Serving)] ==
      map[1 := Hand([D], false, Serving), 2 := Hand([], false, Serving)];
    var both := map[1 := Hand([D], false, Serving), 2 := Hand([], false, Serving)];
    assert both[2 := Hand([], true, Serving)][2 := Hand([], true, Leaving)] ==
      map[1 := Hand([D], false, Serving), 2 := Hand([], true, Leaving)];
    var left := map[1 := Hand([D], false, Serving), 2 := Hand([], true, Leaving)];
    assert left[2 := Hand([], true, Left)] == map[1 := Hand([D], false, Serving), 2 := Hand([], true, Left)];
    assert map[BOOT := 2] - {BOOT} == map[];
  }

  lemma FirstGoes(s: State)
    ensures Moves(WithTwo(s, Hand([D], false, Serving), Hand([], true, Left), map[], map[2 := []]), Lost(1),
                  WithTwo(s, Hand([D], false, Leaving), Hand([], true, Left), map[], map[1 := [], 2 := []]))
    ensures Moves(WithTwo(s, Hand([D], false, Leaving), Hand([], true, Left), map[], map[1 := [], 2 := []]), Erased(1),
                  WithTwo(s, Hand([D], false, Left), Hand([], true, Left), map[], map[1 := [], 2 := []]))
  {
    var one := map[1 := Hand([D], false, Serving), 2 := Hand([], true, Left)];
    assert one[1 := Hand([D], false, Leaving)] == map[1 := Hand([D], false, Leaving), 2 := Hand([], true, Left)];
    var two := map[1 := Hand([D], false, Leaving), 2 := Hand([], true, Left)];
    assert two[1 := Hand([D], false, Left)] == map[1 := Hand([D], false, Left), 2 := Hand([], true, Left)];
    var listed: map<nat, seq<Str>> := map[2 := []];
    assert listed[1 := []] == map[1 := [], 2 := []];
    var none: map<Str, nat> := map[];
    assert none - {BOOT} == none;
  }

  /** The first worker publishes, the second comes and goes, the first goes. */
  function EscapeEvents(): seq<Event> {
    [] + [Booted(1, BOOT)] + Publications(1) + [Booted(2, BOOT)] + [Lost(2)] + [Erased(2)] + [Lost(1)] + [Erased(1)]
  }

  function Escaped(): Node {
    WithTwo(Ready(), Hand([D], false, Left), Hand([], true, Left), map[], map[1 := [], 2 := []])
  }

  lemma FirstPublishes()
    ensures Comes(Started(1), [] + [Booted(1, BOOT)] + Publications(1), WithOne(Ready(), [D]))
  {
    var k := WithOne(Initial(1, 1), []);
    BootsFirst();
    ComesNone(Started(1));
    ComesMore(Started(1), [], Started(1), Booted(1, BOOT), k);
    ComesBusy(Started(1), [] + [Booted(1, BOOT)], k, 1, false);
    assert k.sessions[1 := Hand([D], false, Serving)] == map[1 := Hand([D], false, Serving)];
  }

  lemma EscapeIsReached()
    ensures Comes(Started(1), EscapeEvents(), Escaped())
  {
    FirstPublishes();
    SecondComesAndGoes(Ready());
    FirstGoes(Ready());
    var s, es := Ready(), [] + [Booted(1, BOOT)] + Publications(1);
    var one := WithTwo(s, Hand([D], false, Serving), Hand([], false, Serving), map[BOOT := 2], map[]);
    var two := WithTwo(s, Hand([D], false, Serving), Hand([], true, Leaving), map[BOOT := 2], map[2 := []]);
    var three := WithTwo(s, Hand([D], false, Serving), Hand([], true, Left), map[], map[2 := []]);
    ComesThree(Started(1), es, WithOne(s, [D]), Booted(2, BOOT), one, Lost(2), two, Erased(2), three);
    ComesMore(Started(1), es + [Booted(2, BOOT)] + [Lost(2)] + [Erased(2)], three, Lost(1),
              WithTwo(s, Hand([D], false, Leaving), Hand([], true, Left), map[], map[1 := [], 2 := []]));
    ComesMore(Started(1), es + [Booted(2, BOOT)] + [Lost(2)] + [Erased(2)] + [Lost(1)],
              WithTwo(s, Hand([D], false, Leaving), Hand([], true, Left), map[], map[1 := [], 2 := []]),
              Erased(1), Escaped());
  }

  lemma ReadyDraws()
    ensures Drawn(ForPlacement, Ready().Snapshot(), Slot(MakeDevice(D), ROOM, Opened(ONE)))
  {
    OneOpened();
    SlotIsDrawn(map[D := MakeDevice(D)], MakeDevice(D), map[R := ROOM], Opened(ONE), R);
  }

  /** Both losses have been worked off to the end, the session's device is known, and it is still a candidate. */
  ghost predicate StillOffered(u: Node, session: nat) {
    && 1 in u.sessions && u.sessions[1].phase.Left? && !Due(u, 1)
    && 2 in u.sessions && u.sessions[2].phase.Left? && !Due(u, 2)
    && session in u.sessions && D in u.sessions[session].devices
    && !NoCandidate(u.fabric, D)
  }

  lemma ReadyOffers(u: Node, session: nat)
    requires u.fabric == Ready() && session in {1, 2}
    requires 1 in u.sessions && u.sessions[1].phase.Left? && !Due(u, 1)
    requires 2 in u.sessions && u.sessions[2].phase.Left? && !Due(u, 2)
    requires D in u.sessions[session].devices
    ensures StillOffered(u, session)
  {
    ReadyDraws();
    var c := Slot(MakeDevice(D), ROOM, Opened(ONE));
    assert c.device == D;
  }

  /**
   * A worker publishes a device, a pool and a region; a second worker boots under the same id; both are lost and their
   * losses worked off to the end; and the device is still a candidate.
   */
  lemma ReusedBootEscapes()
    ensures StillOffered(HandleAll(Started(1), EscapeEvents()), 1)
  {
    EscapeIsReached();
    assert HandleAll(Started(1), EscapeEvents()) == Escaped();
    ReadyOffers(Escaped(), 1);
  }

  // ---- the loss of a predecessor ----

  function BothUp(): Node {
    WithTwo(Initial(1, 1), Hand([], false, Serving), Hand([], false, Serving), map[BOOT := 2], map[])
  }

  /** The second worker serves on although the loss of the first has marked it dead. */
  function Marked(): Node {
    WithTwo(Initial(1, 1), Hand([], false, Leaving), Hand([], true, Serving), map[BOOT := 2], map[1 := []])
  }

  lemma LossMarksSecond()
    ensures Moves(WithOne(Initial(1, 1), []), Booted(2, BOOT), BothUp())
    ensures Moves(BothUp(), Lost(1), Marked())
  {
    assert map[1 := Hand([], false, Serving)][2 := Hand([], false, Serving)] ==
      map[1 := Hand([], false, Serving), 2 := Hand([], false, Serving)];
    var both := map[1 := Hand([], false, Serving), 2 := Hand([], false, Serving)];
    assert both[2 := Hand([], true, Serving)][1 := Hand([], false, Leaving)] ==
      map[1 := Hand([], false, Leaving), 2 := Hand([], true, Serving)];
  }

  function MarkedBusy(): Node {
    WithTwo(Ready(), Hand([], false, Leaving), Hand([D], true, Serving), map[BOOT := 2], map[1 := []])
  }

  lemma MarkedPublishes()
    ensures Comes(Started(1), [] + [Booted(1, BOOT)] + [Booted(2, BOOT)] + [Lost(1)] + Publications(2), MarkedBusy())
  {
    BootsFirst();
    LossMarksSecond();
    ComesNone(Started(1));
    ComesThree(Started(1), [], Started(1), Booted(1, BOOT), WithOne(Initial(1, 1), []), Booted(2, BOOT), BothUp(),
               Lost(1), Marked());
    ComesBusy(Started(1), [] + [Booted(1, BOOT)] + [Booted(2, BOOT)] + [Lost(1)], Marked(), 2, true);
    assert Marked().sessions[2 := Hand([D], true, Serving)] == MarkedBusy().sessions;
  }

  function MarkedLost(workers: map<Str, nat>, first: Phase, second: Phase): Node {
    WithTwo(Ready(), Hand([], false, first), Hand([D], true, second), workers, map[1 := [], 2 := []])
  }

  lemma MarkedLoses()
    ensures Moves(MarkedBusy(), Lost(2), MarkedLost(map[BOOT := 2], Leaving, Leaving))
  {
    assert MarkedBusy().sessions[2 := Hand([D], true, Leaving)] ==
      MarkedLost(map[BOOT := 2], Leaving, Leaving).sessions;
    var listed: map<nat, seq<Str>> := map[1 := []];
    assert listed[2 := []] == map[1 := [], 2 := []];
  }

  lemma MarkedGoes()
    ensures Moves(MarkedLost(map[BOOT := 2], Leaving, Leaving), Erased(1), MarkedLost(map[], Left, Leaving))
    ensures Moves(MarkedLost(map[], Left, Leaving), Erased(2), MarkedLost(map[], Left, Left))
  {
    assert MarkedLost(map[BOOT := 2], Leaving, Leaving).sessions[1 := Hand([], false, Left)] ==
      MarkedLost(map[], Left, Leaving).sessions;
    assert map[BOOT := 2] - {BOOT} == map[];
    assert MarkedLost(map[], Left, Leaving).sessions[2 := Hand([D], true, Left)] ==
      MarkedLost(map[], Left, Left).sessions;
    var none: map<Str, nat> := map[];
    assert none - {BOOT} == none;
  }

  /** Both boot, the first is lost, and only then does the second publish. */
  function MarkedEvents(): seq<Event> {
    [] + [Booted(1, BOOT)] + [Booted(2, BOOT)] + [Lost(1)] + Publications(2) + [Lost(2)] + [Erased(1)] + [Erased(2)]
  }

  /** No boot follows the second worker's, and still its own loss fences nothing. */
  lemma MarkedWorkerEscapes()
    ensures StillOffered(HandleAll(Started(1), MarkedEvents()), 2)
  {
    MarkedPublishes();
    MarkedLoses();
    MarkedGoes();
    ComesThree(Started(1), [] + [Booted(1, BOOT)] + [Booted(2, BOOT)] + [Lost(1)] + Publications(2), MarkedBusy(),
               Lost(2), MarkedLost(map[BOOT := 2], Leaving, Leaving), Erased(1), MarkedLost(map[], Left, Leaving),
               Erased(2), MarkedLost(map[], Left, Left));
    assert HandleAll(Started(1), MarkedEvents()) == MarkedLost(map[], Left, Left);
    ReadyOffers(MarkedLost(map[], Left, Left), 2);
  }

  // ---- the erasure of a predecessor ----

  /** The first worker lost while alone, and its entry not yet erased when the second boots. */
  function Parting(first: Phase): Node {
    WithTwo(Initial(1, 1), Hand([], true, first), Hand([], false, Serving),
            if first.Left? then map[] else map[BOOT := 2], map[1 := []])
  }

  function OneLeaving(): Node {
    Node(Initial(1, 1), map[1 := Hand([], true, Leaving)], map[BOOT := 1], map[1 := []])
  }

  lemma FirstParts()
    ensures Moves(WithOne(Initial(1, 1), []), Lost(1), OneLeaving())
    ensures Moves(OneLeaving(), Booted(2, BOOT), Parting(Leaving))
    ensures Moves(Parting(Leaving), Erased(1), Parting(Left))
  {
    var one: map<nat, Worker> := map[1 := Hand([], false, Serving)];
    assert one[1 := Hand([], true, Serving)][1 := Hand([], true, Leaving)] == OneLeaving().sessions;
    assert OneLeaving().sessions[2 := Hand([], false, Serving)] == Parting(Leaving).sessions;
    assert Parting(Leaving).sessions[1 := Hand([], true, Left)] == Parting(Left).sessions;
    assert map[BOOT := 2] - {BOOT} == map[];
  }

  function Orphaned(s: State, devices: seq<Str>, second: Phase, fencing: map<nat, seq<Str>>): Node {
    WithTwo(s, Hand([], true, Left), Hand(devices, false, second), map[], fencing)
  }

  lemma OrphanGoes()
    ensures Moves(Orphaned(Ready(), [D], Serving, map[1 := []]), Lost(2),
                  Orphaned(Ready(), [D], Leaving, map[1 := [], 2 := []]))
    ensures Moves(Orphaned(Ready(), [D], Leaving, map[1 := [], 2 := []]), Erased(2),
                  Orphaned(Ready(), [D], Left, map[1 := [], 2 := []]))
  {
    var listed: map<nat, seq<Str>> := map[1 := []];
    assert listed[2 := []] == map[1 := [], 2 := []];
    var up, gone := Orphaned(Ready(), [D], Serving, listed), Orphaned(Ready(), [D], Leaving, map[1 := [], 2 := []]);
    assert up.sessions[2 := Hand([D], false, Leaving)] == gone.sessions;
    assert gone.sessions[2 := Hand([D], false, Left)] ==
      Orphaned(Ready(), [D], Left, map[1 := [], 2 := []]).sessions;
    var none: map<Str, nat> := map[];
    assert none - {BOOT} == none;
  }

  /** The second boots after the loss of the first and before its erasure, and publishes after that. */
  function OrphanEvents(): seq<Event> {
    [] + [Booted(1, BOOT)] + [Lost(1)] + [Booted(2, BOOT)] + [Erased(1)] + Publications(2) + [Lost(2)] + [Erased(2)]
  }

  lemma OrphanPublishes()
    ensures Comes(Started(1), [] + [Booted(1, BOOT)] + [Lost(1)] + [Booted(2, BOOT)] + [Erased(1)] + Publications(2),
                  Orphaned(Ready(), [D], Serving, map[1 := []]))
  {
    BootsFirst();
    FirstParts();
    ComesNone(Started(1));
    ComesThree(Started(1), [], Started(1), Booted(1, BOOT), WithOne(Initial(1, 1), []), Lost(1), OneLeaving(),
               Booted(2, BOOT), Parting(Leaving));
    ComesMore(Started(1), [] + [Booted(1, BOOT)] + [Lost(1)] + [Booted(2, BOOT)], Parting(Leaving), Erased(1),
              Parting(Left));
    ComesBusy(Started(1), [] + [Booted(1, BOOT)] + [Lost(1)] + [Booted(2, BOOT)] + [Erased(1)], Parting(Left), 2,
              false);
    assert Parting(Left).sessions[2 := Hand([D], false, Serving)] ==
      Orphaned(Ready(), [D], Serving, map[1 := []]).sessions;
  }

  /** The erasure of the first takes the second's entry, and the second's own loss fences nothing. */
  lemma OrphanedWorkerEscapes()
    ensures StillOffered(HandleAll(Started(1), OrphanEvents()), 2)
  {
    OrphanPublishes();
    OrphanGoes();
    var es := [] + [Booted(1, BOOT)] + [Lost(1)] + [Booted(2, BOOT)] + [Erased(1)] + Publications(2);
    var up := Orphaned(Ready(), [D], Serving, map[1 := []]);
    var gone := Orphaned(Ready(), [D], Leaving, map[1 := [], 2 := []]);
    var end := Orphaned(Ready(), [D], Left, map[1 := [], 2 := []]);
    ComesMore(Started(1), es, up, Lost(2), gone);
    ComesMore(Started(1), es + [Lost(2)], gone, Erased(2), end);
    assert HandleAll(Started(1), OrphanEvents()) == end;
    ReadyOffers(end, 2);
  }
}
