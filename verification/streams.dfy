/** Sequential binary output and bounds-checked input, shared by the state file and the control payloads. */
module Streams {
  import opened Base
  import opened Packing

  /** Ok, a refusal the reader reports, or a read that its bounds test let through past the end. */
  datatype Outcome<+T> = Ok(value: T) | Refused | Overran
  {
    predicate IsFailure() {
      !Ok?
    }

    function PropagateFailure<U>(): Outcome<U>
      requires IsFailure()
    {
      if Refused? then Refused else Overran
    }

    function Extract(): T
      requires !IsFailure()
    {
      value
    }
  }

  /** A parsed value and the bytes after it. */
  type Parsed<+T> = Outcome<(T, seq<byte>)>

  const WORDS: nat := 0x1_0000_0000
  const MAX_STRING: nat := 65536

  // ---- the bounds test ----

  /** The getters' test, in the unsigned arithmetic it is written in. */
  predicate GuardPasses(len: u64, pos: u64, n: u64) {
    !(len < pos || pos > WrapSub(len, n))
  }

  /** The test means what it should exactly when the request is no longer than the whole buffer. */
  lemma GuardExactIff(len: u64, pos: u64, n: u64)
    requires pos <= len
    ensures (GuardPasses(len, pos, n) <==> pos + n <= len) <==> n <= len
  {}

  /** Three bytes left of three, four requested: the difference wraps and the test passes. */
  lemma GuardWraps()
    ensures GuardPasses(3, 0, 4) && 0 + 4 > 3
  {}

  /** Reading n bytes when b is what remains of a buffer of len bytes. */
  function Take(len: nat, b: seq<byte>, n: nat): (p: Parsed<seq<byte>>)
    ensures p.Ok? ==> |p.value.0| == n
  {
    if n <= |b| then Ok((b[..n], b[n..]))
    else if n <= len then Refused
    else Overran
  }

  lemma TakeFollowsGuard(len: u64, b: seq<byte>, n: u64)
    requires |b| <= len
    ensures Take(len, b, n).Refused? <==> !GuardPasses(len, len - |b|, n)
    ensures Take(len, b, n).Ok? <==> (len - |b|) + n <= len
  {}

  // ---- writers put a value in front of what follows it; readers take it off again ----

  ghost function WU32(v: u32, tail: seq<byte>): seq<byte> {
    U32Bytes(v) + tail
  }

  ghost function WU64(v: u64, tail: seq<byte>): seq<byte> {
    U64Bytes(v) + tail
  }

  ghost function WFlag(f: bool, tail: seq<byte>): seq<byte> {
    WU32(if f then 1 else 0, tail)
  }

  /** A size, truncated to 32 bits by the cast the writers make. */
  ghost function WSize(n: nat, tail: seq<byte>): seq<byte> {
    WU32(n % WORDS, tail)
  }

  ghost function WStr(s: Str, tail: seq<byte>): seq<byte> {
    WSize(|s|, s + tail)
  }

  function ReadU32(len: nat, b: seq<byte>): Parsed<u32> {
    var (x, b) :- Take(len, b, 4);
    Ok((Load32(x), b))
  }

  function ReadU64(len: nat, b: seq<byte>): Parsed<u64> {
    var (x, b) :- Take(len, b, 8);
    Ok((Load64(x), b))
  }

  function ReadFlag(len: nat, b: seq<byte>): Parsed<bool> {
    var (x, b) :- ReadU32(len, b);
    Ok((x != 0, b))
  }

  function ReadCount(len: nat, b: seq<byte>, bound: nat): Parsed<nat> {
    var (n, b) :- ReadU32(len, b);
    if n > bound then Refused else Ok((n, b))
  }

  function ReadStr(len: nat, b: seq<byte>): Parsed<Str> {
    var (n, b) :- ReadCount(len, b, MAX_STRING);
    Take(len, b, n)
  }

  lemma ReadWrittenU32(len: nat, v: u32, t: seq<byte>)
    ensures ReadU32(len, WU32(v, t)) == Ok((v, t))
  {
    LoadU32(v);
    assert WU32(v, t)[..4] == U32Bytes(v) && WU32(v, t)[4..] == t;
  }

  lemma ReadWrittenU64(len: nat, v: u64, t: seq<byte>)
    ensures ReadU64(len, WU64(v, t)) == Ok((v, t))
  {
    LoadU64(v);
    assert WU64(v, t)[..8] == U64Bytes(v) && WU64(v, t)[8..] == t;
  }

  lemma ReadWrittenFlag(len: nat, f: bool, t: seq<byte>)
    ensures ReadFlag(len, WFlag(f, t)) == Ok((f, t))
  {
    ReadWrittenU32(len, if f then 1 else 0, t);
  }

  /** Any word but zero reads as a set flag. */
  lemma FlagIsNonZero(len: nat, v: u32, t: seq<byte>)
    ensures ReadFlag(len, WU32(v, t)) == Ok((v != 0, t))
  {
    ReadWrittenU32(len, v, t);
  }

  lemma ReadWrittenCount(len: nat, n: nat, t: seq<byte>, bound: nat)
    requires n < WORDS
    ensures ReadCount(len, WSize(n, t), bound) == if n <= bound then Ok((n, t)) else Refused
  {
    ReadWrittenU32(len, n, t);
  }

  lemma ReadWrittenStr(len: nat, s: Str, t: seq<byte>)
    requires |s| < WORDS
    ensures ReadStr(len, WStr(s, t)) == if |s| <= 65536 then Ok((s, t)) else Refused
  {
    ReadWrittenU32(len, |s|, s + t);
    assert (s + t)[..|s|] == s && (s + t)[|s|..] == t;
  }

  // ---- lists ----

  ghost function WList<T>(w: (T, seq<byte>) -> seq<byte>, xs: seq<T>, tail: seq<byte>): seq<byte> {
    if xs == [] then tail else w(xs[0], WList(w, xs[1..], tail))
  }

  /** n more items, after those already read. */
  function ReadList<T>(r: (nat, seq<byte>) -> Parsed<T>, len: nat, n: nat, b: seq<byte>, acc: seq<T>): Parsed<seq<T>>
    decreases n
  {
    if n == 0 then Ok((acc, b))
    else
      var (x, b) :- r(len, b);
      ReadList(r, len, n - 1, b, acc + [x])
  }

  ghost predicate Undoes<T, U>(r: (nat, seq<byte>) -> Parsed<U>, w: (T, seq<byte>) -> seq<byte>,
                               fits: T -> bool, kept: T -> U, len: nat, x: T) {
    forall t :: r(len, w(x, t)) == if fits(x) then Ok((kept(x), t)) else Refused
  }

  function Mapped<T, U>(f: T -> U, xs: seq<T>): (ys: seq<U>)
    ensures |ys| == |xs| && forall i | 0 <= i < |xs| :: ys[i] == f(xs[i])
  {
    seq(|xs|, i requires 0 <= i < |xs| => f(xs[i]))
  }

  function Same<T>(x: T): T {
    x
  }

  lemma MappedSame<T>(xs: seq<T>)
    ensures Mapped(Same<T>, xs) == xs
  {}

  predicate All<T>(f: T -> bool, xs: seq<T>) {
    forall i | 0 <= i < |xs| :: f(xs[i])
  }

  /** A list reads back item by item; the first item that does not fit refuses the whole list. */
  lemma {:induction false} ReadWrittenList<T, U>(
    r: (nat, seq<byte>) -> Parsed<U>, w: (T, seq<byte>) -> seq<byte>, fits: T -> bool, kept: T -> U,
    len: nat, xs: seq<T>, t: seq<byte>, acc: seq<U>)
    requires forall i | 0 <= i < |xs| :: Undoes(r, w, fits, kept, len, xs[i])
    ensures ReadList(r, len, |xs|, WList(w, xs, t), acc) ==
      if All(fits, xs) then Ok((acc + Mapped(kept, xs), t)) else Refused
    decreases |xs|
  {
    if xs == [] {
      assert acc + Mapped(kept, xs) == acc;
    } else {
      var rest := xs[1..];
      assert Undoes(r, w, fits, kept, len, xs[0]);
      ReadWrittenList(r, w, fits, kept, len, rest, t, acc + [kept(xs[0])]);
      assert All(fits, xs) <==> fits(xs[0]) && All(fits, rest) by {
        assert forall i | 0 < i < |xs| :: xs[i] == rest[i - 1];
      }
      assert acc + [kept(xs[0])] + Mapped(kept, rest) == acc + Mapped(kept, xs);
    }
  }

  lemma {:induction false} WListAgrees<T>(w: (T, seq<byte>) -> seq<byte>, xs: seq<T>, ys: seq<T>, t: seq<byte>)
    requires |xs| == |ys| && forall i, u | 0 <= i < |xs| :: w(xs[i], u) == w(ys[i], u)
    ensures WList(w, xs, t) == WList(w, ys, t)
  {
    if xs != [] {
      WListAgrees(w, xs[1..], ys[1..], t);
    }
  }

  // ---- lists, one item at a time ----

  /** From now on, writing the items from i on gives what writing all of them from the start gives. */
  ghost predicate ItemsLeft<T(!new)>(
    w: (T, seq<byte>) -> seq<byte>, xs: seq<T>, start: seq<byte>, i: nat, now: seq<byte>)
  {
    i <= |xs| && forall t :: now + WList(w, xs[i..], t) == start + WList(w, xs, t)
  }

  ghost predicate Wrote<T(!new)>(w: (T, seq<byte>) -> seq<byte>, x: T, before: seq<byte>, after: seq<byte>) {
    forall t :: after + t == before + w(x, t)
  }

  lemma NoItemYet<T(!new)>(w: (T, seq<byte>) -> seq<byte>, xs: seq<T>, start: seq<byte>)
    ensures ItemsLeft(w, xs, start, 0, start)
  {
    assert xs[0..] == xs;
  }

  lemma ItemWritten<T(!new)>(
    w: (T, seq<byte>) -> seq<byte>, xs: seq<T>, start: seq<byte>, i: nat, now: seq<byte>, next: seq<byte>)
    requires ItemsLeft(w, xs, start, i, now) && i < |xs| && Wrote(w, xs[i], now, next)
    ensures ItemsLeft(w, xs, start, i + 1, next)
  {
    assert xs[i..][1..] == xs[i + 1..];
  }

  lemma AllItemsWritten<T(!new)>(w: (T, seq<byte>) -> seq<byte>, xs: seq<T>, start: seq<byte>, end: seq<byte>)
    requires ItemsLeft(w, xs, start, |xs|, end)
    ensures forall t :: end + t == start + WList(w, xs, t)
  {
    forall t ensures end + t == start + WList(w, xs, t) {
      assert WList(w, xs[|xs|..], t) == t;
    }
  }

  /** Reading n items from the start comes to reading k more from here, after acc. */
  ghost predicate ItemsPending<T(!new)>(
    r: (nat, seq<byte>) -> Parsed<T>, len: nat, n: nat, start: seq<byte>, k: nat, rest: seq<byte>, acc: seq<T>)
  {
    forall l: nat | l == len :: ReadList(r, l, n, start, []) == ReadList(r, l, k, rest, acc)
  }

  /** A method's outcome follows the read r; stated over every equal length so that r does not unfold. */
  ghost predicate Follows<T(!new)>(
    r: (nat, seq<byte>) -> Parsed<T>, len: nat, before: seq<byte>, o: Outcome<T>, after: seq<byte>)
  {
    forall l: nat | l == len :: Mirrors(r(l, before), o, after)
  }

  lemma MirrorsFollow<T(!new)>(
    r: (nat, seq<byte>) -> Parsed<T>, len: nat, before: seq<byte>, o: Outcome<T>, after: seq<byte>)
    requires Mirrors(r(len, before), o, after)
    ensures Follows(r, len, before, o, after)
  {}

  /** The same for a list of n items. */
  ghost predicate ListFollows<T(!new)>(
    r: (nat, seq<byte>) -> Parsed<T>, len: nat, n: nat, before: seq<byte>, o: Outcome<seq<T>>, after: seq<byte>)
  {
    forall l: nat | l == len :: Mirrors(ReadList(r, l, n, before, []), o, after)
  }

  lemma NoItemRead<T(!new)>(r: (nat, seq<byte>) -> Parsed<T>, len: nat, n: nat, start: seq<byte>)
    ensures ItemsPending(r, len, n, start, n, start, [])
  {}

  lemma ItemRead<T(!new)>(
    r: (nat, seq<byte>) -> Parsed<T>, len: nat, n: nat, start: seq<byte>, k: nat, j: nat, rest: seq<byte>, acc: seq<T>,
    item: Outcome<T>, after: seq<byte>, more: seq<T>)
    requires ItemsPending(r, len, n, start, k, rest, acc) && k == j + 1 && Follows(r, len, rest, item, after)
    requires item.Ok? && more == acc + [item.value]
    ensures ItemsPending(r, len, n, start, j, after, more)
  {
    assert Mirrors(r(len, rest), item, after);
  }

  lemma ItemFails<T(!new)>(
    r: (nat, seq<byte>) -> Parsed<T>, len: nat, n: nat, start: seq<byte>, k: nat, rest: seq<byte>, acc: seq<T>,
    item: Outcome<T>, after: seq<byte>)
    requires ItemsPending(r, len, n, start, k, rest, acc) && k > 0 && Follows(r, len, rest, item, after) && !item.Ok?
    ensures ListFollows(r, len, n, start, item.PropagateFailure(), after)
  {
    assert Mirrors(r(len, rest), item, after);
  }

  lemma AllItemsRead<T(!new)>(
    r: (nat, seq<byte>) -> Parsed<T>, len: nat, n: nat, start: seq<byte>, rest: seq<byte>, acc: seq<T>)
    requires ItemsPending(r, len, n, start, 0, rest, acc)
    ensures ListFollows(r, len, n, start, Ok(acc), rest)
  {}

  /** What a reader method returns, and where it stops, follow the specification of the read. */
  ghost predicate Mirrors<T>(spec: Parsed<T>, o: Outcome<T>, rest: seq<byte>) {
    match spec
    case Ok(p) => o == Ok(p.0) && rest == p.1
    case Refused => o == Refused
    case Overran => o == Overran
  }

  ghost function WStrs(v: seq<Str>, tail: seq<byte>): seq<byte> {
    WSize(|v|, WList(WStr, v, tail))
  }

  function ReadStrs(len: nat, b: seq<byte>, bound: nat): Parsed<seq<Str>> {
    var (n, b) :- ReadCount(len, b, bound);
    ReadList(ReadStr, len, n, b, [])
  }

  predicate ShortStr(s: Str) {
    |s| <= 65536
  }

  predicate StrsFit(v: seq<Str>, bound: nat) {
    |v| <= bound && All(ShortStr, v)
  }

  /** Lengths that the 32-bit size fields can hold. */
  predicate Sized(v: seq<Str>) {
    |v| < WORDS && forall i | 0 <= i < |v| :: |v[i]| < WORDS
  }

  lemma ReadWrittenStrs(len: nat, v: seq<Str>, t: seq<byte>, bound: nat)
    requires Sized(v)
    ensures ReadStrs(len, WStrs(v, t), bound) == if StrsFit(v, bound) then Ok((v, t)) else Refused
  {
    forall i | 0 <= i < |v| ensures Undoes(ReadStr, WStr, ShortStr, Same, len, v[i]) {
      forall u ensures ReadStr(len, WStr(v[i], u)) == if ShortStr(v[i]) then Ok((v[i], u)) else Refused {
        ReadWrittenStr(len, v[i], u);
      }
    }
    ReadWrittenCount(len, |v|, WList(WStr, v, t), bound);
    ReadWrittenList(ReadStr, WStr, ShortStr, Same, len, v, t, []);
    MappedSame(v);
    assert [] + Mapped(Same<Str>, v) == v;
  }

  lemma ReadWrittenNoStrs(len: nat, t: seq<byte>, bound: nat)
    ensures ReadStrs(len, WStrs([], t), bound) == Ok(([], t))
  {
    ReadWrittenStrs(len, [], t, bound);
  }

  // ---- the byte vector that writers append to ----

  method SplitU32(v: u32) returns (b: seq<byte>)
    ensures b == U32Bytes(v)
  {
    ShiftsOfU32(v);
    b := [v / 0x100_0000, v / 0x1_0000 % 256, v / 256 % 256, v % 256];
  }

  class Sink {
    var bytes: seq<byte>

    constructor ()
      ensures bytes == []
    {
      bytes := [];
    }

    method PutU32(v: u32)
      modifies this
      ensures forall t :: bytes + t == old(bytes) + WU32(v, t)
    {
      var b := SplitU32(v);
      bytes := bytes + b;
    }

    method PutU64(v: u64)
      modifies this
      ensures forall t :: bytes + t == old(bytes) + WU64(v, t)
    {
      ShiftsOfU64(v);
      var high := v / WORDS;
      var b: seq<byte> := [
        high / 0x100_0000 % 256, high / 0x1_0000 % 256, high / 256 % 256, high % 256,
        v / 0x100_0000 % 256, v / 0x1_0000 % 256, v / 256 % 256, v % 256];
      assert b == U64Bytes(v);
      bytes := bytes + b;
    }

    method PutFlag(f: bool)
      modifies this
      ensures forall t :: bytes + t == old(bytes) + WFlag(f, t)
    {
      PutU32(if f then 1 else 0);
    }

    method PutSize(n: nat)
      modifies this
      ensures forall t :: bytes + t == old(bytes) + WSize(n, t)
    {
      PutU32(n % WORDS);
    }

    method PutStr(s: Str)
      modifies this
      ensures forall t :: bytes + t == old(bytes) + WStr(s, t)
    {
      PutSize(|s|);
      ghost var sized := bytes;
      bytes := bytes + s;
      forall t ensures bytes + t == old(bytes) + WStr(s, t) {
        assert bytes + t == sized + (s + t);
      }
    }

    method PutStrs(v: seq<Str>)
      modifies this
      ensures forall t :: bytes + t == old(bytes) + WStrs(v, t)
    {
      PutSize(|v|);
      ghost var start := bytes;
      NoItemYet(WStr, v, start);
      for i := 0 to |v|
        invariant ItemsLeft(WStr, v, start, i, bytes)
      {
        ghost var now := bytes;
        PutStr(v[i]);
        ItemWritten(WStr, v, start, i, now, bytes);
      }
      AllItemsWritten(WStr, v, start, bytes);
    }
  }

  // ---- the bounds-checked reader ----

  class Reader {
    const data: seq<byte>
    var pos: nat

    ghost predicate Valid()
      reads this
    {
      pos <= |data| <= U64_MAX
    }

    ghost function Rest(): seq<byte>
      reads this
      requires Valid()
    {
      data[pos..]
    }

    constructor (data: seq<byte>)
      requires |data| <= U64_MAX
      ensures Valid() && this.data == data && Rest() == data
    {
      this.data := data;
      pos := 0;
    }

    method Bytes(n: u64) returns (o: Outcome<seq<byte>>)
      requires Valid()
      modifies this
      ensures Valid() && Mirrors(Take(|data|, old(Rest()), n), o, Rest())
    {
      if !GuardPasses(|data|, pos, n) { return Refused; }
      if pos + n > |data| { return Overran; }
      o := Ok(data[pos..pos + n]);
      assert data[pos..][..n] == data[pos..pos + n] && data[pos..][n..] == data[pos + n..];
      pos := pos + n;
    }

    method U32() returns (o: Outcome<u32>)
      requires Valid()
      modifies this
      ensures Valid() && Mirrors(ReadU32(|data|, old(Rest())), o, Rest())
    {
      var x :- Bytes(4);
      o := Ok(Load32(x));
    }

    method U64() returns (o: Outcome<u64>)
      requires Valid()
      modifies this
      ensures Valid() && Mirrors(ReadU64(|data|, old(Rest())), o, Rest())
    {
      var x :- Bytes(8);
      o := Ok(Load64(x));
    }

    method Flag() returns (o: Outcome<bool>)
      requires Valid()
      modifies this
      ensures Valid() && Mirrors(ReadFlag(|data|, old(Rest())), o, Rest())
    {
      var x :- U32();
      o := Ok(x != 0);
    }

    method Count(bound: nat) returns (o: Outcome<nat>)
      requires Valid()
      modifies this
      ensures Valid() && Mirrors(ReadCount(|data|, old(Rest()), bound), o, Rest())
    {
      var n :- U32();
      if n > bound { return Refused; }
      o := Ok(n);
    }

    method String() returns (o: Outcome<Str>)
      requires Valid()
      modifies this
      ensures Valid() && Mirrors(ReadStr(|data|, old(Rest())), o, Rest())
    {
      var n :- Count(MAX_STRING);
      o := Bytes(n);
    }

    method StringList(n: nat) returns (o: Outcome<seq<Str>>)
      requires Valid()
      modifies this
      ensures Valid() && ListFollows(ReadStr, |data|, n, old(Rest()), o, Rest())
    {
      var v: seq<Str> := [];
      NoItemRead(ReadStr, |data|, n, Rest());
      ghost var k, rest := n, Rest();
      for i := 0 to n
        invariant Valid() && k == n - i && rest == Rest() && ItemsPending(ReadStr, |data|, n, old(Rest()), k, rest, v)
      {
        var item := String();
        ghost var after := Rest();
        if !item.Ok? {
          ItemFails(ReadStr, |data|, n, old(Rest()), k, rest, v, item, after);
          return item.PropagateFailure();
        }
        ghost var j: nat := k - 1;
        var more := v + [item.value];
        ItemRead(ReadStr, |data|, n, old(Rest()), k, j, rest, v, item, after, more);
        k, rest := j, after;
        v := more;
      }
      AllItemsRead(ReadStr, |data|, n, old(Rest()), Rest(), v);
      o := Ok(v);
    }

    method Strings(bound: nat) returns (o: Outcome<seq<Str>>)
      requires Valid()
      modifies this
      ensures Valid() && Mirrors(ReadStrs(|data|, old(Rest()), bound), o, Rest())
    {
      var n :- Count(bound);
      o := StringList(n);
    }
  }
}
