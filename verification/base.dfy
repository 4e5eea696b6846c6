/** Fixed-width integers, byte strings and the result types shared by every module. */
module Base {

  const U32_MAX: int := 0xFFFF_FFFF
  const U64_MAX: int := 0xFFFF_FFFF_FFFF_FFFF

  type byte = b: int | 0 <= b < 256
  type u16 = n: int | 0 <= n <= 0xFFFF
  type u32 = n: int | 0 <= n <= U32_MAX
  type u64 = n: int | 0 <= n <= U64_MAX

  /** std::string, compared and written byte by byte. */
  type Str = seq<byte>

  datatype Option<+T> = None | Some(value: T)

  /** Unsigned 64-bit addition and subtraction as the machine performs them. */
  function WrapAdd(a: u64, b: u64): u64 {
    if a + b <= U64_MAX then a + b else a + b - U64_MAX - 1
  }

  function WrapSub(a: u64, b: u64): u64 {
    if b <= a then a - b else a - b + U64_MAX + 1
  }

  /** Addition modulo 2^64. */
  lemma WrapIsMod(a: u64, b: u64)
    ensures WrapAdd(a, b) == (a + b) % 0x1_0000_0000_0000_0000
  {}

  function Min(a: int, b: int): int {
    if a < b then a else b
  }
}

/** The byte-wise order of std::string and the iteration order of std::map keys. */
module Order {
  import opened Base

  predicate LexLess(a: Str, b: Str) {
    if b == [] then false
    else if a == [] then true
    else a[0] < b[0] || (a[0] == b[0] && LexLess(a[1..], b[1..]))
  }

  lemma {:induction false} LexTrichotomy(a: Str, b: Str)
    ensures a == b ==> !LexLess(a, b) && !LexLess(b, a)
    ensures a != b ==> LexLess(a, b) != LexLess(b, a)
  {
    if a != [] && b != [] {
      LexTrichotomy(a[1..], b[1..]);
      assert a == [a[0]] + a[1..] && b == [b[0]] + b[1..];
    }
  }

  lemma {:induction false} LexTransitive(a: Str, b: Str, c: Str)
    requires LexLess(a, b) && LexLess(b, c)
    ensures LexLess(a, c)
  {
    if a != [] && a[0] == b[0] && b[0] == c[0] {
      LexTransitive(a[1..], b[1..], c[1..]);
    }
  }

  /** a is a proper prefix of b, or has the smaller byte where they first differ. */
  ghost predicate FirstDifferenceBelow(a: Str, b: Str) {
    exists n: nat :: n <= |a| && n < |b| && a[..n] == b[..n] && (n == |a| || a[n] < b[n])
  }

  lemma {:induction false} LexLessIff(a: Str, b: Str)
    ensures LexLess(a, b) <==> FirstDifferenceBelow(a, b)
  {
    if a != [] && b != [] {
      LexLessIff(a[1..], b[1..]);
      if a[0] == b[0] && FirstDifferenceBelow(a[1..], b[1..]) {
        var n: nat :| n <= |a[1..]| && n < |b[1..]| && a[1..][..n] == b[1..][..n] &&
          (n == |a[1..]| || a[1..][n] < b[1..][n]);
        assert a[..n + 1] == [a[0]] + a[1..][..n] && b[..n + 1] == [b[0]] + b[1..][..n];
      }
      if FirstDifferenceBelow(a, b) {
        var n: nat :| n <= |a| && n < |b| && a[..n] == b[..n] && (n == |a| || a[n] < b[n]);
        if n > 0 {
          assert a[0] == a[..n][0] && b[0] == b[..n][0];
          assert a[1..][..n - 1] == a[..n][1..] && b[1..][..n - 1] == b[..n][1..];
        }
      }
    } else if b != [] {
      assert a[..0] == b[..0];
    }
  }

  predicate IsLeast(k: Str, s: set<Str>) {
    k in s && forall j | j in s && j != k :: LexLess(k, j)
  }

  lemma {:induction false} LeastExists(s: set<Str>)
    requires s != {}
    ensures exists k :: IsLeast(k, s)
    decreases |s|
  {
    var x :| x in s;
    var rest := s - {x};
    if rest == {} {
      assert s == {x};
      assert IsLeast(x, s);
    } else {
      LeastExists(rest);
      var m :| IsLeast(m, rest);
      LexTrichotomy(x, m);
      if LexLess(x, m) {
        forall j | j in s && j != x ensures LexLess(x, j) {
          if j != m { LexTransitive(x, m, j); }
        }
        assert IsLeast(x, s);
      } else {
        assert IsLeast(m, s);
      }
    }
  }

  lemma LeastUnique(s: set<Str>)
    ensures forall j, k | IsLeast(j, s) && IsLeast(k, s) :: j == k
  {
    forall j, k | IsLeast(j, s) && IsLeast(k, s) ensures j == k {
      LexTrichotomy(j, k);
    }
  }

  function Least(s: set<Str>): (k: Str)
    requires s != {}
    ensures IsLeast(k, s)
  {
    LeastExists(s);
    LeastUnique(s);
    var k :| k in s && IsLeast(k, s);
    k
  }

  predicate Ascending(ks: seq<Str>) {
    forall i, j | 0 <= i < j < |ks| :: LexLess(ks[i], ks[j])
  }

  /** The keys of a std::map in the order a range-for visits them. */
  function SortedKeys(s: set<Str>): seq<Str>
    decreases |s|
  {
    if s == {} then []
    else
      var k := Least(s);
      [k] + SortedKeys(s - {k})
  }

  lemma {:induction false} SortedKeysCover(s: set<Str>)
    ensures forall k :: k in SortedKeys(s) <==> k in s
    decreases |s|
  {
    if s != {} { SortedKeysCover(s - {Least(s)}); }
  }

  lemma {:induction false} SortedKeysAscend(s: set<Str>)
    ensures Ascending(SortedKeys(s))
    decreases |s|
  {
    if s != {} {
      var rest := SortedKeys(s - {Least(s)});
      SortedKeysAscend(s - {Least(s)});
      SortedKeysCover(s - {Least(s)});
      assert forall j | 0 <= j < |rest| :: rest[j] in rest;
    }
  }
}

/** Sums of the values of a finite map, independent of any enumeration order. */
module Sums {

  /** ks names every key of w exactly once. */
  ghost predicate Lists<K(!new)>(ks: seq<K>, w: map<K, nat>) {
    && (forall i, j | 0 <= i < j < |ks| :: ks[i] != ks[j])
    && (forall k :: k in ks <==> k in w)
  }

  ghost function SumAlong<K(!new)>(ks: seq<K>, w: map<K, nat>): nat
    requires forall k | k in ks :: k in w
  {
    if ks == [] then 0
    else SumAlong(ks[..|ks| - 1], w) + w[ks[|ks| - 1]]
  }

  ghost predicate IsSum<K(!new)>(w: map<K, nat>, n: nat) {
    exists ks: seq<K> :: Lists(ks, w) && SumAlong(ks, w) == n
  }

  /** The sum along some listing of the keys; SumOfListing shows that any listing gives the same. */
  ghost function Sum<K(!new)>(w: map<K, nat>): nat
  {
    ListingExists(w);
    var n: nat :| IsSum(w, n);
    n
  }

  lemma {:induction false} ListingExists<K(!new)>(w: map<K, nat>)
    ensures exists n: nat :: IsSum(w, n)
    decreases |w|
  {
    if w == map[] {
      assert Lists([], w) && SumAlong([], w) == 0;
      assert IsSum(w, 0);
    } else {
      var k :| k in w;
      ListingExists(w - {k});
      var n: nat :| IsSum(w - {k}, n);
      var ks: seq<K> :| Lists(ks, w - {k}) && SumAlong(ks, w - {k}) == n;
      assert Lists(ks + [k], w);
      assert IsSum(w, SumAlong(ks + [k], w));
    }
  }

  // ---- a recursive total, equal to every listing's sum ----

  ghost function Pick<K(!new)>(w: map<K, nat>): (k: K)
    requires w != map[]
    ensures k in w
  {
    var k :| k in w;
    k
  }

  ghost function Total<K(!new)>(w: map<K, nat>): nat
    decreases |w|
  {
    if w == map[] then 0
    else
      var k := Pick(w);
      w[k] + Total(w - {k})
  }

  lemma {:induction false} TotalRemove<K(!new)>(w: map<K, nat>, k: K)
    requires k in w
    ensures Total(w) == w[k] + Total(w - {k})
    decreases |w|
  {
    var c := Pick(w);
    if c != k {
      TotalRemove(w - {c}, k);
      TotalRemove(w - {k}, c);
      assert w - {c} - {k} == w - {k} - {c};
    }
  }

  lemma {:induction false} SumAlongAgree<K(!new)>(ks: seq<K>, v: map<K, nat>, w: map<K, nat>)
    requires forall k | k in ks :: k in v && k in w && v[k] == w[k]
    ensures SumAlong(ks, v) == SumAlong(ks, w)
  {
    if ks != [] { SumAlongAgree(ks[..|ks| - 1], v, w); }
  }

  lemma {:induction false} SumAlongIsTotal<K(!new)>(ks: seq<K>, w: map<K, nat>)
    requires Lists(ks, w)
    ensures SumAlong(ks, w) == Total(w)
    decreases |ks|
  {
    if ks == [] {
      assert w == map[];
    } else {
      var last := ks[|ks| - 1];
      var init := ks[..|ks| - 1];
      var rest := w - {last};
      assert forall k :: k in init <==> k in rest by {
        forall k ensures k in init <==> k in rest {
          if k in rest { assert k in ks; }
        }
      }
      SumAlongIsTotal(init, rest);
      SumAlongAgree(init, rest, w);
      TotalRemove(w, last);
    }
  }

  /** Any listing of the keys adds up to the sum. */
  lemma SumOfListing<K(!new)>(ks: seq<K>, w: map<K, nat>)
    requires Lists(ks, w)
    ensures SumAlong(ks, w) == Sum(w)
  {
    SumIsTotal(w);
    SumAlongIsTotal(ks, w);
  }

  lemma SumIsTotal<K(!new)>(w: map<K, nat>)
    ensures Sum(w) == Total(w)
  {
    ListingExists(w);
    assert IsSum(w, Sum(w));
    var ks: seq<K> :| Lists(ks, w) && SumAlong(ks, w) == Sum(w);
    SumAlongIsTotal(ks, w);
  }

  // ---- the algebra of sums ----

  lemma SumEmpty<K(!new)>(w: map<K, nat>)
    requires w == map[]
    ensures Sum(w) == 0
  {
    SumIsTotal(w);
  }

  lemma SumRemove<K(!new)>(w: map<K, nat>, k: K)
    requires k in w
    ensures Sum(w) == w[k] + Sum(w - {k})
  {
    SumIsTotal(w);
    SumIsTotal(w - {k});
    TotalRemove(w, k);
  }

  function At<K>(w: map<K, nat>, k: K): nat {
    if k in w then w[k] else 0
  }

  lemma SumUpdate<K(!new)>(w: map<K, nat>, k: K, v: nat)
    ensures Sum(w[k := v]) == Sum(w) - At(w, k) + v
  {
    var u := w[k := v];
    SumRemove(u, k);
    assert u - {k} == w - {k};
    if k in w { SumRemove(w, k); } else { assert w - {k} == w; }
  }

  lemma SumAtMost<K(!new)>(w: map<K, nat>, k: K)
    ensures At(w, k) <= Sum(w)
  {
    if k in w { SumRemove(w, k); }
  }

  lemma {:induction false} SumPointwise<K(!new)>(v: map<K, nat>, w: map<K, nat>)
    requires v.Keys == w.Keys
    requires forall k | k in v :: v[k] <= w[k]
    ensures Sum(v) <= Sum(w)
    decreases |v|
  {
    if v != map[] {
      var k :| k in v;
      SumRemove(v, k);
      SumRemove(w, k);
      SumPointwise(v - {k}, w - {k});
    } else {
      SumEmpty(v);
    }
  }

  lemma {:induction false} SumPlus<K(!new)>(u: map<K, nat>, v: map<K, nat>, w: map<K, nat>)
    requires u.Keys == v.Keys == w.Keys
    requires forall k | k in u :: w[k] == u[k] + v[k]
    ensures Sum(w) == Sum(u) + Sum(v)
    decreases |u|
  {
    if u != map[] {
      var k :| k in u;
      SumRemove(u, k);
      SumRemove(v, k);
      SumRemove(w, k);
      SumPlus(u - {k}, v - {k}, w - {k});
    } else {
      SumEmpty(u);
      SumEmpty(v);
      SumEmpty(w);
    }
  }

  lemma {:induction false} SumZero<K(!new)>(w: map<K, nat>)
    requires forall k | k in w :: w[k] == 0
    ensures Sum(w) == 0
    decreases |w|
  {
    if w != map[] {
      var k :| k in w;
      SumRemove(w, k);
      SumZero(w - {k});
    } else {
      SumEmpty(w);
    }
  }
}

/** std::to_string on unsigned values, as bytes. */
module Decimal {
  import opened Base

  function ToDecimal(n: nat): Str {
    if n < 10 then [48 + n] else ToDecimal(n / 10) + [48 + n % 10]
  }

  function FromDecimal(s: Str): int {
    if s == [] then 0 else 10 * FromDecimal(s[..|s| - 1]) + s[|s| - 1] - 48
  }

  lemma {:induction false} DecimalRoundTrip(n: nat)
    ensures FromDecimal(ToDecimal(n)) == n
  {
    if n >= 10 {
      DecimalRoundTrip(n / 10);
      assert ToDecimal(n)[..|ToDecimal(n)| - 1] == ToDecimal(n / 10);
    } else {
      assert [48 + n][..0] == [];
    }
  }

  lemma DecimalInjective(m: nat, n: nat)
    requires ToDecimal(m) == ToDecimal(n)
    ensures m == n
  {
    DecimalRoundTrip(m);
    DecimalRoundTrip(n);
  }
}
