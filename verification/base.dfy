/** Failures raised by the exporters, and the result types that carry them. */
module Failures {

  datatype Option<+T> = None | Some(value: T)

  /** The exceptions the exporters raise (or, for SelfLoop, the endless relink). */
  datatype Error =
    | AssertionError   // a failed `assert` in the exporter
    | TypeError        // a policy neither LINEAR nor FLOATING, a missing value, or a path that is None
    | AttributeError   // reading the configuration of an operation that is not quantable
    | IndexError       // a list read past its end
    | ValueError       // a tuple unpacked from a list that is too short
    | RuntimeError     // a failing tensor operation, an Ascend offset out of range, or a shape of unsupported rank
    | PermissionError  // a QNN configuration whose state cannot be exported
    | SelfLoop         // relinking a variable onto itself: the source never terminates

  datatype Result<+T> = Ok(value: T) | Fail(error: Error) {
    predicate IsFailure() { Fail? }

    function PropagateFailure<U>(): Result<U>
      requires Fail?
    {
      Fail(error)
    }

    function Extract(): T
      requires Ok?
    {
      value
    }
  }

  /** The result of a method that changes state and returns nothing else. */
  datatype Outcome = Pass | Raise(error: Error) {
    predicate IsFailure() { Raise? }

    function PropagateFailure(): Outcome
      requires Raise?
    {
      this
    }
  }

  /** The outcome a method reports for a specification result. */
  function OutcomeOf<T>(r: Result<T>): Outcome {
    match r
    case Ok(_) => Pass
    case Fail(e) => Raise(e)
  }
}

/**
 * Sequence helpers: occurrence counts, the list edits the graph primitives perform, and
 * the one-dimensional broadcasting of element-wise tensor arithmetic.
 */
module Seqs {
  import opened Failures

  /** Number of occurrences of `x` in `s`. */
  function Count<T(==)>(s: seq<T>, x: T): (n: nat)
    ensures n <= |s|
    ensures n > 0 <==> x in s
  {
    if |s| == 0 then 0 else (if s[0] == x then 1 else 0) + Count(s[1..], x)
  }

  lemma {:induction false} CountConcat<T>(s: seq<T>, t: seq<T>, x: T)
    ensures Count(s + t, x) == Count(s, x) + Count(t, x)
  {
    if |s| == 0 {
      assert s + t == t;
    } else {
      assert (s + t)[1..] == s[1..] + t;
      CountConcat(s[1..], t, x);
    }
  }

  lemma CountSingleton<T>(y: T, x: T)
    ensures Count([y], x) == if x == y then 1 else 0
  {
    assert [y][1..] == [];
  }

  lemma CountTriple<T>(a: T, b: T, c: T, x: T)
    ensures Count([a, b, c], x) == (if x == a then 1 else 0) + (if x == b then 1 else 0) + (if x == c then 1 else 0)
  {
    assert [a, b, c][1..] == [b, c] && [b, c][1..] == [c] && [c][1..] == [];
  }

  /** `s` with its first occurrence of `a` replaced by `b` (Python's `s[s.index(a)] = b`). */
  function ReplaceFirst<T(==)>(s: seq<T>, a: T, b: T): (r: seq<T>)
    ensures |r| == |s|
    ensures forall y :: y in r ==> y in s || y == b
    ensures a in s ==> b in r
    ensures a !in s ==> r == s
  {
    if |s| == 0 then []
    else if s[0] == a then [b] + s[1..]
    else [s[0]] + ReplaceFirst(s[1..], a, b)
  }

  /** Replacing the first occurrence of the value at slot `j`, when no earlier slot holds it, rewrites slot `j` alone. */
  lemma {:induction false} ReplaceFirstAt<T>(s: seq<T>, j: nat, b: T)
    requires j < |s| && s[j] !in s[..j]
    ensures ReplaceFirst(s, s[j], b) == s[j := b]
    decreases j
  {
    if j > 0 {
      assert s[0] in s[..j];
      assert s[1..][j - 1] == s[j] && s[1..][..j - 1] == s[1..j];
      assert forall y :: y in s[1..j] ==> y in s[..j];
      ReplaceFirstAt(s[1..], j - 1, b);
      assert [s[0]] + s[1..][j - 1 := b] == s[j := b];
    } else {
      assert [b] + s[1..] == s[0 := b];
    }
  }

  lemma {:induction false} CountReplaceFirst<T>(s: seq<T>, a: T, b: T, x: T)
    ensures Count(ReplaceFirst(s, a, b), x)
         == Count(s, x) - (if x == a && a in s then 1 else 0) + (if x == b && a in s then 1 else 0)
  {
    if |s| > 0 {
      var r := ReplaceFirst(s, a, b);
      if s[0] == a {
        assert r[1..] == s[1..];
      } else {
        assert r[1..] == ReplaceFirst(s[1..], a, b);
        assert a in s <==> a in s[1..];
        CountReplaceFirst(s[1..], a, b, x);
      }
    }
  }

  /** `s` with every occurrence of `a` replaced by `b`. */
  function ReplaceAll<T(==)>(s: seq<T>, a: T, b: T): (r: seq<T>)
    ensures |r| == |s|
    ensures forall y :: y in r ==> (y in s && y != a) || y == b
  {
    if |s| == 0 then [] else [if s[0] == a then b else s[0]] + ReplaceAll(s[1..], a, b)
  }

  lemma {:induction false} CountReplaceAll<T>(s: seq<T>, a: T, b: T, x: T)
    ensures Count(ReplaceAll(s, a, b), x)
         == if a == b then Count(s, x)
            else if x == a then 0
            else if x == b then Count(s, a) + Count(s, b)
            else Count(s, x)
  {
    if |s| > 0 {
      var r := ReplaceAll(s, a, b);
      assert r[1..] == ReplaceAll(s[1..], a, b);
      CountReplaceAll(s[1..], a, b, x);
    }
  }

  /** Rerouting `a` through a fresh `b` and then `b` to `c` reroutes `a` to `c`. */
  lemma {:induction false} ReplaceFirstTwice<T>(s: seq<T>, a: T, b: T, c: T)
    requires b !in s
    ensures ReplaceFirst(ReplaceFirst(s, a, b), b, c) == ReplaceFirst(s, a, c)
  {
    if |s| > 0 && s[0] != a {
      ReplaceFirstTwice(s[1..], a, b, c);
    }
  }

  lemma {:induction false} ReplaceAllAbsent<T>(s: seq<T>, a: T, b: T)
    requires a !in s
    ensures ReplaceAll(s, a, b) == s
  {
    if |s| > 0 {
      ReplaceAllAbsent(s[1..], a, b);
    }
  }

  lemma {:induction false} ReplaceAllTwice<T>(s: seq<T>, a: T, b: T, c: T)
    requires b !in s
    ensures ReplaceAll(ReplaceAll(s, a, b), b, c) == ReplaceAll(s, a, c)
  {
    if |s| > 0 {
      var r := ReplaceAll(s, a, b);
      assert r[1..] == ReplaceAll(s[1..], a, b);
      ReplaceAllTwice(s[1..], a, b, c);
    }
  }

  /** `s` without any occurrence of `a`. */
  function RemoveAll<T(==)>(s: seq<T>, a: T): (r: seq<T>)
    ensures |r| <= |s|
    ensures forall y :: y in r ==> y in s && y != a
    ensures forall y :: y in s && y != a ==> y in r
  {
    if |s| == 0 then []
    else if s[0] == a then RemoveAll(s[1..], a)
    else [s[0]] + RemoveAll(s[1..], a)
  }

  lemma {:induction false} CountRemoveAll<T>(s: seq<T>, a: T, x: T)
    ensures Count(RemoveAll(s, a), x) == if x == a then 0 else Count(s, x)
  {
    if |s| > 0 {
      var r := RemoveAll(s, a);
      if s[0] != a {
        assert r[1..] == RemoveAll(s[1..], a);
      }
      CountRemoveAll(s[1..], a, x);
    }
  }

  /** The length two one-dimensional tensors broadcast to; a length-1 tensor stretches. */
  function Broadcast(n1: nat, n2: nat): (r: Result<nat>)
    ensures r.Ok? <==> n1 == n2 || n1 == 1 || n2 == 1
    ensures r.Ok? ==> (n1 != 1 ==> r.value == n1) && (n2 != 1 ==> r.value == n2)
    ensures r.Ok? ==> forall k :: 0 <= k < r.value ==> Pick(n1, k) < n1 && Pick(n2, k) < n2
    ensures r.Fail? ==> r.error == RuntimeError
  {
    if n1 == n2 then Ok(n1)
    else if n1 == 1 then Ok(n2)
    else if n2 == 1 then Ok(n1)
    else Fail(RuntimeError)
  }

  /** The element a length-`n` tensor contributes at broadcast position `k`. */
  function Pick(n: nat, k: nat): nat {
    if n == 1 then 0 else k
  }

  /** The smallest entry of a non-empty list (a tensor's `.min()`). */
  function Least(xs: seq<real>): (r: real)
    requires |xs| > 0
    ensures r in xs && forall x :: x in xs ==> r <= x
  {
    if |xs| == 1 then xs[0]
    else
      var m := Least(xs[1..]);
      assert forall x :: x in xs ==> x == xs[0] || x in xs[1..];
      if xs[0] <= m then xs[0] else m
  }

  /** The largest entry of a non-empty list (a tensor's `.max()`). */
  function Greatest(xs: seq<real>): (r: real)
    requires |xs| > 0
    ensures r in xs && forall x :: x in xs ==> x <= r
  {
    if |xs| == 1 then xs[0]
    else
      var m := Greatest(xs[1..]);
      assert forall x :: x in xs ==> x == xs[0] || x in xs[1..];
      if xs[0] >= m then xs[0] else m
  }

  /** Decimal rendering of a natural number, as Python's `str(n)`. */
  function NatToString(n: nat): (r: string)
    ensures |r| > 0
    ensures forall k :: 0 <= k < |r| ==> '0' <= r[k] <= '9'
  {
    if n < 10 then [DigitChar(n)] else NatToString(n / 10) + [DigitChar(n % 10)]
  }

  function DigitChar(d: nat): (c: char)
    requires d < 10
  {
    (48 + d) as char
  }

  /** Python's `str(i)` for an integer. */
  function IntToString(i: int): (r: string)
    ensures |r| > 0
  {
    if i < 0 then "-" + NatToString(-i) else NatToString(i)
  }

  /** Reads back a string of decimal digits. */
  function ParseDigits(s: string): nat
    requires forall k :: 0 <= k < |s| ==> '0' <= s[k] <= '9'
  {
    if |s| == 0 then 0 else 10 * ParseDigits(s[..|s| - 1]) + (s[|s| - 1] as int - 48)
  }

  /** The decimal rendering reads back as the number it renders. */
  lemma {:induction false} NatToStringRoundTrip(n: nat)
    ensures ParseDigits(NatToString(n)) == n
  {
    var r := NatToString(n);
    if n >= 10 {
      assert r[..|r| - 1] == NatToString(n / 10);
      NatToStringRoundTrip(n / 10);
    }
  }
}
