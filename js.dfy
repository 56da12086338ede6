/** The few JavaScript built-ins the modelled code relies on, written out with
    the ECMAScript semantics the code sees: optional values, thrown errors,
    `substr`/`slice`/`startsWith`/`includes`, the truncating `%` operator and
    the 32-bit integer conversions behind `<<`, `&` and `>>>`. */
module Js {

  datatype Option<+T> = None | Some(value: T)

  /** Kinds of exception the modelled code can throw. */
  datatype JsError =
    | TypeError          // a property read on `undefined`
    | ColorProfileNotFound  // `throw new Error("Color profile not found")`

  /** The result of running a piece of JavaScript: a value, or a thrown error. */
  datatype Outcome<+T> = Ok(value: T) | Thrown(error: JsError) {
    predicate IsFailure() { Thrown? }
    function PropagateFailure<U>(): Outcome<U>
      requires Thrown?
    {
      Thrown(error)
    }
    function Extract(): T
      requires Ok?
    {
      value
    }
  }

  // ---------------------------------------------------------------------------
  // Strings

  function Min(a: int, b: int): int { if a <= b then a else b }
  function Max(a: int, b: int): int { if a <= b then b else a }

  /** `s.substr(start, length)` for non-negative arguments: both are clamped to the string. */
  function Substr<T>(s: seq<T>, start: nat, length: nat): (r: seq<T>)
    ensures |r| == Max(0, Min(|s|, start + length) - start)
    ensures start <= |s| ==> r == s[start..Min(|s|, start + length)]
    ensures start >= |s| ==> r == []
  {
    if start >= |s| then [] else s[start..Min(|s|, start + length)]
  }

  /** `s.substr(start)`: everything from `start` on, or `""` beyond the end. */
  function SubstrFrom<T>(s: seq<T>, start: nat): (r: seq<T>)
    ensures start <= |s| ==> r == s[start..]
    ensures start >= |s| ==> r == []
  {
    if start >= |s| then [] else s[start..]
  }

  /** `s.slice(-n)` for n > 0: the last `n` elements, or all of `s` when it is shorter. */
  function SliceLast<T>(s: seq<T>, n: nat): (r: seq<T>)
    ensures |r| == Min(|s|, n)
    ensures exists k :: 0 <= k <= |s| && s[k..] == r
  {
    if |s| <= n then (assert s[0..] == s; s) else (assert s[|s| - n..] == s[|s| - n..]; s[|s| - n..])
  }

  predicate StartsWith<T(==)>(s: seq<T>, prefix: seq<T>) {
    |prefix| <= |s| && s[..|prefix|] == prefix
  }

  /** `s.includes(part)`. */
  predicate Includes<T(==)>(s: seq<T>, part: seq<T>) {
    exists i :: 0 <= i <= |s| && OccursAt(s, part, i)
  }

  predicate OccursAt<T(==)>(s: seq<T>, part: seq<T>, i: nat) {
    i + |part| <= |s| && s[i..i + |part|] == part
  }

  /** `s.replace(/c/g, "")`: every occurrence of `c` removed. */
  function RemoveAll(s: string, c: char): (r: string)
    ensures c !in r
    ensures |r| <= |s|
    ensures forall x :: x != c ==> (x in r <==> x in s)
  {
    if s == [] then []
    else if s[0] == c then RemoveAll(s[1..], c)
    else [s[0]] + RemoveAll(s[1..], c)
  }

  lemma RemoveAllAppend(a: string, b: string, c: char)
    ensures RemoveAll(a + b, c) == RemoveAll(a, c) + RemoveAll(b, c)
  {
    if a == [] {
      assert a + b == b;
    } else {
      assert (a + b)[1..] == a[1..] + b;
      RemoveAllAppend(a[1..], b, c);
    }
  }

  lemma RemoveAllAbsent(s: string, c: char)
    requires c !in s
    ensures RemoveAll(s, c) == s
  {
    if s != [] {
      RemoveAllAbsent(s[1..], c);
    }
  }

  // ---------------------------------------------------------------------------
  // Numbers

  const TwoTo31: int := 0x8000_0000
  const TwoTo32: int := 0x1_0000_0000

  predicate IsInt32(x: int) { -TwoTo31 <= x < TwoTo31 }

  /** ToInt32 (ECMA-262 section 7.1.6) on an integral number: wrap into [-2^31, 2^31). */
  function ToInt32(x: int): (r: int)
    ensures IsInt32(r)
    ensures (r - x) % TwoTo32 == 0
    ensures IsInt32(x) ==> r == x
  {
    var m := x % TwoTo32;
    if m >= TwoTo31 then m - TwoTo32 else m
  }

  /** ToUint32 (ECMA-262 section 7.1.7) on an integral number, as used by `x >>> 0`. */
  function ToUint32(x: int): (r: nat)
    ensures r < TwoTo32
    ensures (r - x) % TwoTo32 == 0
    ensures 0 <= x < TwoTo32 ==> r == x
  {
    x % TwoTo32
  }

  /** Two integers congruent modulo 2^32 have the same ToInt32. */
  lemma ToInt32Congruent(x: int, y: int)
    requires (x - y) % TwoTo32 == 0
    ensures ToInt32(x) == ToInt32(y)
  {
    var k := (x - y) / TwoTo32;
    assert x == y + k * TwoTo32;
    ModShift(y, k, TwoTo32);
  }

  lemma ModShift(y: int, k: int, m: int)
    requires m > 0
    ensures (y + k * m) % m == y % m
  {
    var q, r := y / m, y % m;
    assert y + k * m == (q + k) * m + r;
    ModUnique(y + k * m, q + k, r, m);
  }

  /** Euclidean division has a unique remainder. */
  lemma ModUnique(n: int, q: int, r: int, m: int)
    requires m > 0 && 0 <= r < m && n == q * m + r
    ensures n % m == r
  {
    var q', r' := n / m, n % m;
    assert n == q' * m + r';
    assert (q - q') * m == r' - r by {
      assert q * m - q' * m == (q - q') * m;
    }
    if q - q' >= 1 {
      MulAtLeast(q - q', m);
    } else if q' - q >= 1 {
      MulAtLeast(q' - q, m);
    }
  }

  lemma MulAtLeast(d: int, m: int)
    requires d >= 1 && m > 0
    ensures d * m >= m
  {
    assert d * m == (d - 1) * m + m;
  }

  /** The JavaScript remainder `a % b` on integers (b > 0): it truncates toward
      zero, so the result takes the sign of the dividend. */
  function RemInt(a: int, b: int): (r: int)
    requires b > 0
    ensures a >= 0 ==> 0 <= r < b && r == a % b
    ensures a <= 0 ==> -b < r <= 0
  {
    if a >= 0 then a % b else -((-a) % b)
  }

  /** Math.trunc on a real number. */
  function Trunc(x: real): (r: int)
    ensures x >= 0.0 ==> 0 <= r && r as real <= x < r as real + 1.0
    ensures x < 0.0 ==> r <= 0 && r as real - 1.0 < x <= r as real
  {
    if x >= 0.0 then x.Floor else -((-x).Floor)
  }

  /** The JavaScript remainder `x % y` on (idealised) real numbers for y > 0:
      x - y * trunc(x / y). */
  function RemReal(x: real, y: real): (r: real)
    requires y > 0.0
    ensures x >= 0.0 ==> 0.0 <= r < y
    ensures x < 0.0 ==> -y < r <= 0.0
    ensures 0.0 <= x < y ==> r == x
  {
    var q := Trunc(x / y);
    TruncQuotient(x, y);
    x - y * q as real
  }

  lemma TruncQuotient(x: real, y: real)
    requires y > 0.0
    ensures x >= 0.0 ==> 0.0 <= x - y * Trunc(x / y) as real < y
    ensures x < 0.0 ==> -y < x - y * Trunc(x / y) as real <= 0.0
    ensures 0.0 <= x < y ==> Trunc(x / y) == 0
  {
    var t := x / y;
    var q := Trunc(t) as real;
    DivBetween(x, y, q);
    if 0.0 <= x < y {
      DivBetween(x, y, 1.0);
    }
  }

  /** Comparing a quotient with a bound is comparing the dividend with the scaled bound. */
  lemma DivBetween(x: real, y: real, q: real)
    requires y > 0.0
    ensures q <= x / y <==> y * q <= x
    ensures x / y < q + 1.0 <==> x < y * q + y
    ensures q - 1.0 < x / y <==> y * q - y < x
    ensures x / y <= q <==> x <= y * q
  {
    DivCompare(x, y, q);
    DivCompare(x, y, q + 1.0);
    DivCompare(x, y, q - 1.0);
  }

  /** One bound at a time. */
  lemma DivCompare(x: real, y: real, b: real)
    requires y > 0.0
    ensures b <= x / y <==> y * b <= x
    ensures x / y < b <==> x < y * b
    ensures b < x / y <==> y * b < x
    ensures x / y <= b <==> x <= y * b
  {
    var t := x / y;
    assert y * t == x;
    MulOrder(y, b, t);
    MulOrder(y, t, b);
  }

  /** Multiplying by a positive number keeps the order of two reals. */
  lemma MulOrder(y: real, a: real, b: real)
    requires y > 0.0
    ensures a <= b <==> y * a <= y * b
    ensures a < b <==> y * a < y * b
  {
    assert y * b - y * a == y * (b - a);
    if a < b {
      assert y * (b - a) > 0.0;
    } else if b < a {
      assert y * (a - b) > 0.0;
      assert y * a - y * b == y * (a - b);
    }
  }

  // ---------------------------------------------------------------------------
  // Arrays

  /** `Array.prototype.filter` with a callback that cannot throw. */
  function Filter<T>(s: seq<T>, keep: T -> bool): (r: seq<T>)
    ensures |r| <= |s|
    ensures forall x :: x in r ==> x in s && keep(x)
    ensures forall i :: 0 <= i < |r| ==> keep(r[i])
  {
    if s == [] then []
    else if keep(s[0]) then [s[0]] + Filter(s[1..], keep)
    else Filter(s[1..], keep)
  }

  /** `filter` keeps the kept elements in their order: it distributes over concatenation. */
  lemma {:induction false} FilterAppend<T>(a: seq<T>, b: seq<T>, keep: T -> bool)
    ensures Filter(a + b, keep) == Filter(a, keep) + Filter(b, keep)
  {
    if a == [] {
      assert a + b == b;
    } else {
      assert (a + b)[1..] == a[1..] + b;
      FilterAppend(a[1..], b, keep);
    }
  }

  /** `filter` keeps every element that passes. */
  lemma {:induction false} FilterKeepsAll<T>(s: seq<T>, keep: T -> bool)
    requires forall x :: x in s ==> keep(x)
    ensures Filter(s, keep) == s
  {
    if s != [] {
      FilterKeepsAll(s[1..], keep);
    }
  }

  /** `Array.prototype.map` with a callback that may throw: the first throw
      (in index order) aborts the whole map. */
  function MapOutcome<T, U>(s: seq<T>, f: T -> Outcome<U>): (r: Outcome<seq<U>>)
  {
    if s == [] then Ok([])
    else match f(s[0])
      case Thrown(e) => Thrown(e)
      case Ok(x) =>
        match MapOutcome(s[1..], f)
        case Thrown(e) => Thrown(e)
        case Ok(rest) => Ok([x] + rest)
  }

  /** The map succeeds exactly when the callback succeeds on every element, and
      then it has one result per element, in order. */
  lemma {:induction false} MapOutcomeOk<T, U>(s: seq<T>, f: T -> Outcome<U>)
    ensures MapOutcome(s, f).Ok? <==> forall i :: 0 <= i < |s| ==> f(s[i]).Ok?
    ensures MapOutcome(s, f).Ok? ==>
      |MapOutcome(s, f).value| == |s| &&
      forall i :: 0 <= i < |s| ==> MapOutcome(s, f).value[i] == f(s[i]).value
  {
    if s != [] {
      MapOutcomeOk(s[1..], f);
      if f(s[0]).Ok? && MapOutcome(s[1..], f).Ok? {
        var r := MapOutcome(s, f).value;
        assert r == [f(s[0]).value] + MapOutcome(s[1..], f).value;
        forall i | 0 <= i < |s| ensures r[i] == f(s[i]).value {
          if i > 0 { assert s[1..][i - 1] == s[i]; }
        }
      }
      if forall i :: 0 <= i < |s| ==> f(s[i]).Ok? {
        assert forall i :: 0 <= i < |s[1..]| ==> f(s[1..][i]).Ok? by {
          forall i | 0 <= i < |s[1..]| ensures f(s[1..][i]).Ok? {
            assert s[1..][i] == s[i + 1];
          }
        }
      } else {
        var j :| 0 <= j < |s| && !f(s[j]).Ok?;
        if j > 0 { assert s[1..][j - 1] == s[j]; }
      }
    }
  }
}
