/**
 Section 4 of the study notes: `__call__` makes instances callable. Calling
 an instance of the second `MyClass` that holds a `name` attribute with `x`
 returns `self.name * x`, the name repeated `x` times.
 */
module CallHook {

  /**
   Python's `s * x` for a string `s` and an integer `x`: `s` written `x` times
   in a row, and the empty string when `x` is zero or negative.
   */
  function Repeat(s: string, x: int): (r: string)
    ensures |r| == if x <= 0 then 0 else |s| * x
    decreases x
  {
    if x <= 0 then "" else s + Repeat(s, x - 1)
  }

  /** Character `i` of a repetition is character `i % |s|` of the repeated string. */
  lemma {:induction false} RepeatAt(s: string, x: int, i: nat)
    requires i < |Repeat(s, x)|
    ensures |s| > 0 && Repeat(s, x)[i] == s[i % |s|]
    decreases x
  {
    if i >= |s| {
      RepeatAt(s, x - 1, i - |s|);
      ModSkipsPeriod(i, |s|);
    }
  }

  // Arithmetic helpers for RepeatAt: the remainder by `n` ignores whole periods of `n`.

  lemma MulDiff(n: int, a: int, b: int)
    ensures n * a - n * b == n * (a - b)
  {
  }

  lemma MulAtLeast(n: int, d: int)
    requires n > 0 && d >= 1
    ensures n * d >= n
  {
  }

  lemma ModUnique(a: int, n: int, q: int, r: int)
    requires n > 0 && 0 <= r < n && a == n * q + r
    ensures a % n == r
  {
    var q' := a / n;
    MulDiff(n, q, q');
    if q > q' {
      MulAtLeast(n, q - q');
    } else if q < q' {
      MulDiff(n, q', q);
      MulAtLeast(n, q' - q);
    }
  }

  lemma ModSkipsPeriod(i: int, n: int)
    requires 0 < n <= i
    ensures (i - n) % n == i % n
  {
    var q := (i - n) / n;
    MulDiff(n, q + 1, 1);
    ModUnique(i, n, q + 1, (i - n) % n);
  }

  /** Repeating `a + b` times is repeating `a` times followed by repeating `b` times. */
  lemma {:induction false} RepeatAdd(s: string, a: nat, b: nat)
    ensures Repeat(s, a + b) == Repeat(s, a) + Repeat(s, b)
    decreases a
  {
    if a > 0 {
      RepeatAdd(s, a - 1, b);
      assert Repeat(s, a + b) == s + Repeat(s, a - 1 + b);
    }
  }

  /**
   An instance of the second `MyClass` that already holds `name`, as `__init__`
   would leave it (the ordinary constructor call does not get that far under
   Python 3, because `__new__` passes its arguments on to `object.__new__`).
   */
  datatype MyClass = MyClass(name: string) {

    /**
     `__call__(x)`: the stored name repeated `x` times. The result has
     `|name| * x` characters for positive `x`, none otherwise, and cycles
     through the name character by character.
     */
    function Call(x: int): (r: string)
      ensures |r| == if x <= 0 then 0 else |name| * x
      ensures x <= 0 ==> r == ""
      ensures x == 1 ==> r == name
      ensures forall i :: 0 <= i < |r| ==> |name| > 0 && r[i] == name[i % |name|]
    {
      var r := Repeat(name, x);
      forall i | 0 <= i < |r|
        ensures |name| > 0 && r[i] == name[i % |name|]
      {
        RepeatAt(name, x, i);
      }
      assert x == 1 ==> r == name + "";
      r
    }
  }
}
