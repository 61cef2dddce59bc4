/**
 * Shape arithmetic and the set helpers used by the Vulkan backend
 * (librichard/include/richard/utils.hpp).
 */
module Utils {
  /** A three-dimensional extent (width, height, depth), `Size3` in the library. */
  type Size3 = s: seq<nat> | |s| == 3 witness [0, 0, 0]

  /** Number of elements in a 3-D extent. */
  function CalcProduct(s: Size3): (r: nat)
    ensures r == 0 <==> (s[0] == 0 || s[1] == 0 || s[2] == 0)
    ensures r > 0 ==> s[0] <= r && s[1] <= r && s[2] <= r
  {
    ProductBounds(s[0], s[1], s[2]);
    s[0] * s[1] * s[2]
  }

  /** Sum of the three extents. */
  function CalcSum(s: Size3): (r: nat)
    ensures r == 0 <==> (s[0] == 0 && s[1] == 0 && s[2] == 0)
    ensures s[0] <= r && s[1] <= r && s[2] <= r
  {
    s[0] + s[1] + s[2]
  }

  lemma ProductBounds(a: nat, b: nat, c: nat)
    ensures a * b * c == 0 <==> (a == 0 || b == 0 || c == 0)
    ensures a * b * c > 0 ==> a <= a * b * c && b <= a * b * c && c <= a * b * c
  {
    if a > 0 && b > 0 && c > 0 {
      assert a * b >= a && a * b >= b;
      assert (a * b) * c >= a * b && (a * b) * c >= c;
    }
  }

  /** In-place difference: erases every element of `b` from `a`; returns the new `a`. */
  method SetDifferenceInPlace<T>(a: set<T>, b: set<T>) returns (a': set<T>)
    ensures a' == a - b
  {
    a' := a;
    var rest := b;
    while rest != {}
      invariant rest <= b
      invariant a' == a - (b - rest)
      decreases |rest|
    {
      var x :| x in rest;
      a' := a' - {x};
      rest := rest - {x};
    }
  }

  /** In-place union: inserts every element of `b` into `a`; returns the new `a`. */
  method SetUnionInPlace<T>(a: set<T>, b: set<T>) returns (a': set<T>)
    ensures a' == a + b
  {
    a' := a;
    var rest := b;
    while rest != {}
      invariant rest <= b
      invariant a' == a + (b - rest)
      decreases |rest|
    {
      var x :| x in rest;
      a' := a' + {x};
      rest := rest - {x};
    }
  }

  /**
   * Three-argument difference: inserts the elements of `a` that are not in
   * `b` into `result` (existing elements of `result` are kept).
   */
  method SetDifference<T>(a: set<T>, b: set<T>, result: set<T>) returns (result': set<T>)
    ensures result' == result + (a - b)
  {
    result' := result;
    var rest := a;
    while rest != {}
      invariant rest <= a
      invariant result' == result + ((a - rest) - b)
      decreases |rest|
    {
      var x :| x in rest;
      if x !in b {
        result' := result' + {x};
      }
      rest := rest - {x};
    }
  }

  /** Three-argument union: inserts the elements of `a` and of `b` into `result`. */
  method SetUnion<T>(a: set<T>, b: set<T>, result: set<T>) returns (result': set<T>)
    ensures result' == result + (a + b)
  {
    result' := SetUnionInPlace(result, a);
    result' := SetUnionInPlace(result', b);
  }

  /** Three-argument intersection: inserts the elements common to `a` and `b` into `result`. */
  method SetIntersection<T>(a: set<T>, b: set<T>, result: set<T>) returns (result': set<T>)
    ensures result' == result + (a * b)
  {
    result' := result;
    var rest := a;
    while rest != {}
      invariant rest <= a
      invariant result' == result + ((a - rest) * b)
      decreases |rest|
    {
      var x :| x in rest;
      if x in b {
        result' := result' + {x};
      }
      rest := rest - {x};
    }
  }

  /** Decimal rendering of a number, as `operator<<` writes it into messages. */
  function NatToString(n: nat): (r: string)
    ensures |r| >= 1
    ensures forall i :: 0 <= i < |r| ==> '0' <= r[i] <= '9'
    decreases n
  {
    var digit := ['0' + (n % 10) as char];
    if n < 10 then digit else NatToString(n / 10) + digit
  }

  /** The number a string of decimal digits denotes. */
  function DigitsValue(s: string): nat
    requires forall i :: 0 <= i < |s| ==> '0' <= s[i] <= '9'
  {
    if |s| == 0 then 0 else DigitsValue(s[..|s| - 1]) * 10 + (s[|s| - 1] as int - '0' as int)
  }

  /** Reading the rendered digits back gives the number, and only 0 is rendered with a leading zero. */
  lemma {:induction false} NatToStringValue(n: nat)
    ensures DigitsValue(NatToString(n)) == n
    ensures NatToString(n)[0] == '0' ==> n == 0
    decreases n
  {
    var r := NatToString(n);
    if n >= 10 {
      NatToStringValue(n / 10);
      assert r[..|r| - 1] == NatToString(n / 10);
    } else {
      assert r[..0] == [];
    }
  }
}
