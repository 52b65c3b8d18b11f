/** Shared value types for the model: the error channel that stands for the
    C++ exceptions and Python error returns, and a few sequence helpers. */
module Common {

  /** A computation that either yields a value or fails with the exception
      message GMAT would have thrown. */
  datatype Result<T> = Ok(value: T) | Err(msg: string) {
    predicate IsFailure() { Err? }
    function PropagateFailure<U>(): Result<U>
      requires Err?
    {
      Err(msg)
    }
    function Extract(): T
      requires Ok?
    {
      value
    }
  }

  /** A step that either succeeds without a value or fails with a message. */
  datatype Outcome = Pass | Fail(msg: string) {
    predicate IsFailure() { Fail? }
    function PropagateFailure<U>(): Result<U>
      requires Fail?
    {
      Err(msg)
    }
  }

  datatype Option<T> = None | Some(value: T)

  /** Sum of the integers of a sequence, from the left. */
  function Sum(s: seq<int>): int
  {
    if s == [] then 0 else Sum(s[..|s| - 1]) + s[|s| - 1]
  }

  /** Sum of the reals of a sequence, from the left. */
  function RSum(s: seq<real>): real
  {
    if s == [] then 0.0 else RSum(s[..|s| - 1]) + s[|s| - 1]
  }

  /** The index of the first occurrence of x in s, or |s| when x is absent. */
  function FirstIndex<T(==)>(s: seq<T>, x: T): (i: nat)
    ensures i <= |s|
    ensures i < |s| ==> s[i] == x
    ensures forall j :: 0 <= j < i ==> s[j] != x
  {
    if s == [] then 0
    else if s[0] == x then 0
    else 1 + FirstIndex(s[1..], x)
  }

  /** The index of the last occurrence of x in s, or -1 when x is absent. */
  function LastIndex<T(==)>(s: seq<T>, x: T): (i: int)
    ensures -1 <= i < |s|
    ensures i >= 0 ==> s[i] == x
    ensures forall j :: i < j < |s| ==> s[j] != x
  {
    if s == [] then -1
    else if s[|s| - 1] == x then |s| - 1
    else LastIndex(s[..|s| - 1], x)
  }

  /** s with the element at index i removed. */
  function RemoveAt<T>(s: seq<T>, i: nat): (r: seq<T>)
    requires i < |s|
    ensures |r| == |s| - 1
    ensures forall j :: 0 <= j < i ==> r[j] == s[j]
    ensures forall j :: i <= j < |r| ==> r[j] == s[j + 1]
  {
    s[..i] + s[i + 1..]
  }

  /** s with x inserted so that it lands at index i. */
  function InsertAt<T>(s: seq<T>, i: nat, x: T): (r: seq<T>)
    requires i <= |s|
    ensures |r| == |s| + 1
  {
    s[..i] + [x] + s[i..]
  }

  /** Where everything sits after InsertAt: the earlier entries, then x,
      then the later entries shifted by one. */
  lemma InsertAtIndex<T>(s: seq<T>, i: nat, x: T)
    requires i <= |s|
    ensures InsertAt(s, i, x)[i] == x
    ensures forall j :: 0 <= j < i ==> InsertAt(s, i, x)[j] == s[j]
    ensures forall j :: i < j <= |s| ==> InsertAt(s, i, x)[j] == s[j - 1]
  {
  }

  function Abs(x: real): real { if x < 0.0 then -x else x }

  function Min(a: real, b: real): real { if a <= b then a else b }

  function Max(a: real, b: real): real { if a >= b then a else b }

  /** Two reals are equal within a tolerance (the math utility's IsEqual). */
  predicate IsEqual(a: real, b: real, tol: real) { Abs(a - b) < tol }

  /** The sign of x as +1 or -1; zero counts as positive. */
  function SignOf(x: real): real { if x < 0.0 then -1.0 else 1.0 }

  /** Integer power of a real, x^k. */
  function Pow(x: real, k: nat): real
  {
    if k == 0 then 1.0 else Pow(x, k - 1) * x
  }

  /** The integer sum over an appended element. */
  lemma SumAppend(s: seq<int>, x: int)
    ensures Sum(s + [x]) == Sum(s) + x
  {
    assert (s + [x])[..|s + [x]| - 1] == s;
  }

  lemma RSumAppend(s: seq<real>, x: real)
    ensures RSum(s + [x]) == RSum(s) + x
  {
    assert (s + [x])[..|s + [x]| - 1] == s;
  }

  /** "{}" with only spaces between the braces, the values for which
      GmatStringUtil::RemoveSpaceInBrackets(value, "{}") gives "{}": an empty
      list in a script. */
  predicate IsEmptyList(value: string)
  {
    && |value| >= 2 && value[0] == '{' && value[|value| - 1] == '}'
    && forall i :: 0 < i < |value| - 1 ==> value[i] == ' '
  }

  /** No value occurs twice in s. */
  predicate NoDuplicates<T(==)>(s: seq<T>)
  {
    forall i, j :: 0 <= i < j < |s| ==> s[i] != s[j]
  }

  /** The list with x appended unless it already holds x. */
  function AddIfAbsent<T(==)>(s: seq<T>, x: T): (r: seq<T>)
    ensures x in r
    ensures x in s ==> r == s
    ensures x !in s ==> r == s + [x]
  {
    if x in s then s else s + [x]
  }

  /** Appending only absent values never creates a duplicate, and keeps
      everything that was there. */
  lemma AddIfAbsentKeepsDistinct<T>(s: seq<T>, x: T)
    requires NoDuplicates(s)
    ensures NoDuplicates(AddIfAbsent(s, x))
    ensures forall y :: y in s ==> y in AddIfAbsent(s, x)
  {
    var r := AddIfAbsent(s, x);
    if x !in s {
      forall i, j | 0 <= i < j < |r|
        ensures r[i] != r[j]
      {
        if j == |s| {
          assert r[i] == s[i];
        }
      }
    }
  }

  /** Removing one entry of a list without duplicates leaves a list without
      duplicates holding exactly the other values. */
  lemma RemoveAtDistinct<T>(s: seq<T>, i: nat)
    requires NoDuplicates(s) && i < |s|
    ensures NoDuplicates(RemoveAt(s, i))
    ensures forall y :: y in RemoveAt(s, i) <==> y in s && y != s[i]
  {
    var r := RemoveAt(s, i);
    forall y | y in s && y != s[i]
      ensures y in r
    {
      var k :| 0 <= k < |s| && s[k] == y;
      if k < i {
        assert r[k] == y;
      } else {
        assert r[k - 1] == y;
      }
    }
  }

  /** A positive multiple of m is at least m. */
  lemma MulAtLeast(d: int, m: int)
    requires d >= 1 && m > 0
    ensures d * m >= m
    decreases d
  {
    if d > 1 {
      MulAtLeast(d - 1, m);
      assert d * m == (d - 1) * m + m;
    }
  }
  /** The remainder is the r of any decomposition x == q * m + r with 0 <= r < m. */
  lemma ModUnique(x: int, m: int, q: int, r: int)
    requires m > 0 && 0 <= r < m && x == q * m + r
    ensures x % m == r
  {
    var q' := x / m;
    var r' := x % m;
    assert x == q' * m + r';
    assert (q' - q) * m == r - r' by {
      assert (q' - q) * m == q' * m - q * m;
    }
    if q' > q {
      MulAtLeast(q' - q, m);
    } else if q' < q {
      MulAtLeast(q - q', m);
    }
  }
  /** The remainder steps up by one and wraps to 0 at m. */
  lemma ModNext(a: int, m: int)
    requires m > 0
    ensures (a + 1) % m == (if a % m + 1 == m then 0 else a % m + 1)
  {
    var q := a / m;
    var r := a % m;
    assert a == q * m + r;
    if r + 1 == m {
      assert a + 1 == (q + 1) * m + 0;
      ModUnique(a + 1, m, q + 1, 0);
    } else {
      ModUnique(a + 1, m, q, r + 1);
    }
  }

  /** The character of a decimal digit. */
  function DigitChar(d: nat): (c: char)
    requires d < 10
    ensures '0' <= c <= '9'
  {
    ('0' as int + d) as char
  }

  /** The decimal digits of n, as a stream insertion of an integer writes them. */
  function NatToString(n: nat): (s: string)
    ensures |s| > 0
    ensures forall k :: 0 <= k < |s| ==> '0' <= s[k] <= '9'
  {
    if n < 10 then [DigitChar(n)] else NatToString(n / 10) + [DigitChar(n % 10)]
  }

  /** An integer written in decimal, with a leading '-' when negative. */
  function IntToString(i: int): string
  {
    if i < 0 then "-" + NatToString(-i) else NatToString(i)
  }

  /** The pieces of a message joined in order. */
  function Text(parts: seq<string>): string
    decreases |parts|
  {
    if parts == [] then "" else parts[0] + Text(parts[1..])
  }

  /** A value, or the fault that stopped it. */
  datatype Result2<T, E> = Done(value: T) | Fault(fault: E)
}
