/** Reservation ids over whole runs: issued once, committed at most once, released at most once. */
module Lifetimes {
  import opened Base
  import opened Records
  import opened Spec
  import opened Shapes
  import opened Books
  import opened Fencing

  /** What a spent id can no longer do. */
  datatype Right = ToCommit | ToRelease

  predicate Exercises(right: Right, res: Reservation) {
    if right.ToCommit? then res.state.Reserved? else Live(res)
  }

  /** The id has been issued, and no record under it still allows the call. */
  ghost predicate Spent(s: State, id: Str, right: Right) {
    Issued(id, s.sequence) && (id in s.reservations ==> !Exercises(right, s.reservations[id]))
  }

  ghost predicate Tidy(s: State, op: Op) {
    WellFiled(op) && (op.OnReservation? && op.reservation.ReserveCall? ==> FreshIds(s))
  }

  ghost predicate TidyRun(s: State, ops: seq<Op>)
    decreases |ops|
  {
    ops != [] ==> Tidy(s, ops[0]) && TidyRun(Apply(s, ops[0]), ops[1..])
  }

  lemma ReservationCallSequence(s: State, c: ReservationCall)
    requires Filed(s) && (c.ReserveCall? ==> FreshIds(s))
    ensures s.sequence <= PerformOnReservation(s, c).0.sequence
  {
    match c
    case ReserveCall(req, ctx) =>
      var chosen := ReserveShape(s, req, ctx);
      if Reserve(s, req, ctx).1.ok { BookShape(s, chosen, req, ctx); }
    case CommitCall(id, ctx) => CommitShape(s, id, ctx);
    case ReleaseCall(id, ctx) => DebitKeeps(s, id, ctx);
  }

  lemma SequenceGrows(s: State, op: Op)
    requires Filed(s) && Tidy(s, op)
    ensures s.sequence <= Apply(s, op).sequence
  {
    match op
    case OnDevice(c) => DeviceCallShape(s, c);
    case OnRegion(c) => RegionCallShape(s, c);
    case OnPool(c) => PoolCallShape(s, c);
    case OnReservation(c) => ReservationCallSequence(s, c);
    case _ =>
  }

  lemma IssuedLater(id: Str, m: u64, n: u64)
    requires Issued(id, m) && m <= n
    ensures Issued(id, n)
  {
    var i: u64 :| 1 <= i <= m && id == ReservationId(i);
  }

  /** An id that was ever issued is not the next one. */
  lemma NeverReissued(s: State, id: Str)
    requires Issued(id, s.sequence) && FreshIds(s)
    ensures id != NewId(s)
  {
    var i: u64 :| 1 <= i <= s.sequence && id == ReservationId(i);
    if id == NewId(s) { ReservationIdInjective(i, s.sequence + 1); }
  }

  lemma ProgressLoses(a: Reservation, b: Reservation, right: Right)
    requires Progress(a.state, b.state) && !Exercises(right, a)
    ensures !Exercises(right, b)
  {}

  lemma StepSpent(s: State, op: Op, id: Str, right: Right)
    requires Filed(s) && Tidy(s, op) && Spent(s, id, right)
    ensures Spent(Apply(s, op), id, right)
  {
    SequenceGrows(s, op);
    IssuedLater(id, s.sequence, Apply(s, op).sequence);
    if id in Apply(s, op).reservations && !op.Restore? {
      if id in s.reservations {
        StepLater(s, op);
        ProgressLoses(s.reservations[id], Apply(s, op).reservations[id], right);
      } else {
        var _ := Newcomer(s, op, id);
        NeverReissued(s, id);
      }
    }
  }

  /** A spent id stays spent in every later state, across imports as well. */
  lemma {:induction false} SpentForever(s: State, ops: seq<Op>, id: Str, right: Right)
    requires Filed(s) && TidyRun(s, ops) && Spent(s, id, right)
    ensures Spent(Run(s, ops), id, right)
    decreases |ops|
  {
    if ops != [] {
      StepSpent(s, ops[0], id, right);
      StepFiled(s, ops[0]);
      SpentForever(Apply(s, ops[0]), ops[1..], id, right);
    }
  }

  lemma SpentRefuses(s: State, id: Str, right: Right, ctx: Authority)
    requires Spent(s, id, right)
    ensures !Commit(s, id, ctx).1.ok
    ensures right.ToRelease? ==> !Release(s, id, ctx).1.ok
  {
    CommitShape(s, id, ctx);
    ReleaseShape(s, id, ctx);
  }

  lemma CommitSpends(s: State, id: Str, ctx: Authority)
    requires Filed(s) && Numbered(s) && Commit(s, id, ctx).1.ok
    ensures Spent(Commit(s, id, ctx).0, id, ToCommit) && Filed(Commit(s, id, ctx).0)
  {
    CommitShape(s, id, ctx);
    CommitFiled(s, id, ctx);
  }

  lemma ReleaseSpends(s: State, id: Str, ctx: Authority)
    requires Filed(s) && Numbered(s) && Release(s, id, ctx).1.ok
    ensures Spent(Release(s, id, ctx).0, id, ToRelease) && Filed(Release(s, id, ctx).0)
  {
    ReleaseFiled(s, id, ctx);
  }

  /** After a commit the same id is never committed again. */
  lemma CommittedOnce(s: State, id: Str, ctx: Authority, ops: seq<Op>, again: Authority)
    requires Filed(s) && Numbered(s) && Commit(s, id, ctx).1.ok && TidyRun(Commit(s, id, ctx).0, ops)
    ensures !Commit(Run(Commit(s, id, ctx).0, ops), id, again).1.ok
  {
    CommitSpends(s, id, ctx);
    SpentForever(Commit(s, id, ctx).0, ops, id, ToCommit);
    SpentRefuses(Run(Commit(s, id, ctx).0, ops), id, ToCommit, again);
  }

  /** After a release the same id is neither committed nor released again. */
  lemma ReleasedOnce(s: State, id: Str, ctx: Authority, ops: seq<Op>, again: Authority)
    requires Filed(s) && Numbered(s) && Release(s, id, ctx).1.ok && TidyRun(Release(s, id, ctx).0, ops)
    ensures var t := Run(Release(s, id, ctx).0, ops); !Commit(t, id, again).1.ok && !Release(t, id, again).1.ok
  {
    ReleaseSpends(s, id, ctx);
    SpentForever(Release(s, id, ctx).0, ops, id, ToRelease);
    SpentRefuses(Run(Release(s, id, ctx).0, ops), id, ToRelease, again);
  }

  /** Ids issued before an import are dead in every state after it. */
  lemma ImportKillsIds(s: State, ps: Persisted, ops: seq<Op>, id: Str, ctx: Authority)
    requires FiledById(ps.devices, ps.regions, ps.pools) && Issued(id, s.sequence) && TidyRun(Import(s, ps), ops)
    ensures var t := Run(Import(s, ps), ops); !Commit(t, id, ctx).1.ok && !Release(t, id, ctx).1.ok
  {
    RestoreFiled(s, ps);
    assert Spent(Import(s, ps), id, ToRelease);
    SpentForever(Import(s, ps), ops, id, ToRelease);
    SpentRefuses(Run(Import(s, ps), ops), id, ToRelease, ctx);
  }

  lemma StepNumbered(s: State, op: Op)
    requires Filed(s) && Numbered(s) && Tidy(s, op)
    ensures Numbered(Apply(s, op))
  {
    var t := Apply(s, op);
    SequenceGrows(s, op);
    forall k | k in t.reservations ensures Issued(k, t.sequence) {
      if k in s.reservations {
        IssuedLater(k, s.sequence, t.sequence);
      } else {
        var c := Newcomer(s, op, k);
        BookShape(s, c, op.reservation.req, op.reservation.ctx);
        NewIdFresh(s);
      }
    }
  }

  /** In every state of a run each reservation is filed under an id res-k with k within the sequence. */
  lemma {:induction false} RunNumbered(s: State, ops: seq<Op>)
    requires Filed(s) && Numbered(s) && TidyRun(s, ops)
    ensures Filed(Run(s, ops)) && Numbered(Run(s, ops))
    decreases |ops|
  {
    if ops != [] {
      StepFiled(s, ops[0]);
      StepNumbered(s, ops[0]);
      RunNumbered(Apply(s, ops[0]), ops[1..]);
    }
  }
}
