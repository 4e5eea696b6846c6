/** The stand-alone capacity line: reserve, commit, release and fence_drain on one set of counters. */
module CapacityLines {
  import opened Base
  import opened Ledger
  import opened Spec

  datatype LineCall = TakeCall(n: u64) | SettleCall(n: u64) | ReturnCall(n: u64) | DrainCall(n: u64)

  function Take(l: CapacityLine, n: u64): (CapacityLine, bool) {
    if n == 0 || n > l.Free() then (l, false) else (l.(reserved := WrapAdd(l.reserved, n)), true)
  }

  /** The reserved bytes are given up before the addition is checked. */
  function Settle(l: CapacityLine, n: u64): (CapacityLine, bool) {
    if n == 0 || n > l.reserved then (l, false)
    else
      var taken := l.(reserved := l.reserved - n);
      if l.committed > U64_MAX - n then (taken, false) else (taken.(committed := l.committed + n), true)
  }

  function Return(l: CapacityLine, n: u64): (CapacityLine, bool) {
    var d := Draw(l.committed, l.reserved, n);
    if d.remaining != 0 then (l, false) else (l.(committed := d.committed, reserved := d.reserved), true)
  }

  function FenceDrain(l: CapacityLine, n: u64): (CapacityLine, bool) {
    if n > WrapAdd(WrapAdd(l.Free(), l.reserved), l.committed) then (l, false)
    else (l.(draining := WrapAdd(l.draining, n)), true)
  }

  function PerformOnLine(l: CapacityLine, c: LineCall): (CapacityLine, bool) {
    match c
    case TakeCall(n) => Take(l, n)
    case SettleCall(n) => Settle(l, n)
    case ReturnCall(n) => Return(l, n)
    case DrainCall(n) => FenceDrain(l, n)
  }

  function InUse(l: CapacityLine): nat {
    l.unavailable + l.reserved + l.committed + l.draining
  }

  /** The documented invariant, in exact arithmetic: everything online is either free or accounted for. */
  predicate Accounted(l: CapacityLine) {
    l.online <= l.total && l.Free() + InUse(l) == l.online
  }

  /** The audit sees wrapped sums, so it vouches for the invariant exactly when nothing wrapped. */
  lemma AuditMeansAccountedIff(l: CapacityLine)
    ensures Accounted(l) <==> l.Audit() && InUse(l) <= U64_MAX
  {}

  /** A drain within the free bytes is harmless, and one beyond the free and used bytes together is refused. */
  predicate Covered(l: CapacityLine, c: LineCall) {
    c.DrainCall? ==> c.n <= l.Free() || c.n > l.Free() + l.reserved + l.committed
  }

  // What each call does to an accounted line, in exact arithmetic.

  lemma TakeExact(l: CapacityLine, n: u64)
    requires Accounted(l)
    ensures Take(l, n).1 <==> n > 0 && InUse(l) + n <= l.online
    ensures Take(l, n).0 == if Take(l, n).1 then l.(reserved := l.reserved + n) else l
    ensures Accounted(Take(l, n).0)
  {}

  lemma SettleExact(l: CapacityLine, n: u64)
    requires Accounted(l)
    ensures Settle(l, n).1 <==> 0 < n <= l.reserved
    ensures l.committed + l.reserved <= U64_MAX
    ensures Settle(l, n).0 ==
      if Settle(l, n).1 then l.(reserved := l.reserved - n, committed := l.committed + n) else l
    ensures Accounted(Settle(l, n).0)
  {}

  /** Committed bytes are returned before reserved ones. */
  lemma ReturnExact(l: CapacityLine, n: u64)
    requires Accounted(l)
    ensures Return(l, n).1 <==> n <= l.reserved + l.committed
    ensures Return(l, n).0 ==
      if !Return(l, n).1 then l
      else if n <= l.committed then l.(committed := l.committed - n)
      else l.(committed := 0, reserved := l.reserved - (n - l.committed))
    ensures Accounted(Return(l, n).0)
  {}

  lemma DrainExact(l: CapacityLine, n: u64)
    requires Accounted(l)
    ensures FenceDrain(l, n).1 <==> n <= l.Free() + l.reserved + l.committed
    ensures FenceDrain(l, n).0 == if FenceDrain(l, n).1 then l.(draining := WrapAdd(l.draining, n)) else l
    ensures Accounted(FenceDrain(l, n).0) <==> n <= l.Free() || n > l.Free() + l.reserved + l.committed
  {}

  /** One call keeps the invariant exactly when it does not drain bytes in use. */
  lemma CallKeepsAccountedIff(l: CapacityLine, c: LineCall)
    requires Accounted(l)
    ensures Accounted(PerformOnLine(l, c).0) <==> Covered(l, c)
    ensures !PerformOnLine(l, c).1 ==> PerformOnLine(l, c).0 == l
  {
    match c
    case TakeCall(n) => TakeExact(l, n);
    case SettleCall(n) => SettleExact(l, n);
    case ReturnCall(n) => ReturnExact(l, n);
    case DrainCall(n) => DrainExact(l, n);
  }

  /** On any line, accounted or not, a refused call changes it exactly when a commit overflows the committed bytes. */
  lemma RefusedLineCallIff(l: CapacityLine, c: LineCall)
    requires !PerformOnLine(l, c).1
    ensures PerformOnLine(l, c).0 != l <==> c.SettleCall? && 0 < c.n <= l.reserved && l.committed + c.n > U64_MAX
  {}

  /** Online 8 with 4 committed: draining 8 is accepted, uses 12 of 8 and fails the audit. */
  lemma DrainBreaksAudit()
    ensures var l := CapacityLine(8, 8, 0, 0, 4, 0);
      Accounted(l) && FenceDrain(l, 8).1 && !FenceDrain(l, 8).0.Audit()
  {
    var l := CapacityLine(8, 8, 0, 0, 4, 0);
    assert l.Used() == 4 && l.Free() == 4;
    assert FenceDrain(l, 8) == (l.(draining := 8), true);
    assert l.(draining := 8).Used() == 12;
  }

  function LineAfter(l: CapacityLine, cs: seq<LineCall>): CapacityLine
    decreases |cs|
  {
    if cs == [] then l else LineAfter(PerformOnLine(l, cs[0]).0, cs[1..])
  }

  ghost predicate CoveredRun(l: CapacityLine, cs: seq<LineCall>)
    decreases |cs|
  {
    cs != [] ==> Covered(l, cs[0]) && CoveredRun(PerformOnLine(l, cs[0]).0, cs[1..])
  }

  ghost predicate AccountedThroughout(l: CapacityLine, cs: seq<LineCall>)
    decreases |cs|
  {
    Accounted(l) && (cs != [] ==> AccountedThroughout(PerformOnLine(l, cs[0]).0, cs[1..]))
  }

  /** A line stays accounted over a run exactly when no drain takes bytes in use; the audit is then quiet at the end. */
  lemma {:induction false} LineStaysAccounted(l: CapacityLine, cs: seq<LineCall>)
    requires Accounted(l)
    ensures AccountedThroughout(l, cs) <==> CoveredRun(l, cs)
    ensures CoveredRun(l, cs) ==> Accounted(LineAfter(l, cs)) && LineAfter(l, cs).Audit()
    decreases |cs|
  {
    AuditMeansAccountedIff(l);
    if cs != [] {
      CallKeepsAccountedIff(l, cs[0]);
      if Covered(l, cs[0]) { LineStaysAccounted(PerformOnLine(l, cs[0]).0, cs[1..]); }
    }
  }

  class Line {
    var total: u64
    var online: u64
    var unavailable: u64
    var reserved: u64
    var committed: u64
    var draining: u64

    constructor ()
      ensures Abs() == EMPTY_LINE
    {
      total, online, unavailable, reserved, committed, draining := 0, 0, 0, 0, 0, 0;
    }

    ghost function Abs(): CapacityLine
      reads this
    {
      CapacityLine(total, online, unavailable, reserved, committed, draining)
    }

    method Free() returns (n: u64)
      ensures n == Abs().Free()
    {
      var used := WrapAdd(WrapAdd(WrapAdd(unavailable, reserved), committed), draining);
      n := if online <= used then 0 else online - used;
    }

    method Reserve(n: u64) returns (ok: bool)
      modifies this`reserved
      ensures (Abs(), ok) == Take(old(Abs()), n)
    {
      if n == 0 { return false; }
      var free := Free();
      if n > free { return false; }
      reserved := WrapAdd(reserved, n);
      ok := true;
    }

    method Commit(n: u64) returns (ok: bool)
      modifies this`reserved, this`committed
      ensures (Abs(), ok) == Settle(old(Abs()), n)
    {
      if n == 0 || n > reserved { return false; }
      reserved := reserved - n;
      if committed > U64_MAX - n { return false; }
      committed := committed + n;
      ok := true;
    }

    method Release(n: u64) returns (ok: bool)
      modifies this`reserved, this`committed
      ensures (Abs(), ok) == Return(old(Abs()), n)
    {
      var c, rsv, remaining := committed, reserved, n;
      if remaining > 0 && c > 0 {
        var take := if remaining < c then remaining else c;
        c := c - take;
        remaining := remaining - take;
      }
      if remaining > 0 {
        if remaining > rsv { return false; }
        rsv := rsv - remaining;
      }
      committed := c;
      reserved := rsv;
      ok := true;
    }

    method Fence(n: u64) returns (ok: bool)
      modifies this`draining
      ensures (Abs(), ok) == FenceDrain(old(Abs()), n)
    {
      var free := Free();
      if n > WrapAdd(WrapAdd(free, reserved), committed) { return false; }
      draining := WrapAdd(draining, n);
      ok := true;
    }
  }
}
