/** Small value types and arithmetic shared by the component models. */
module Common {

  /** A value that may be absent (JavaScript `null` / `undefined`). */
  datatype Option<+T> = None | Some(value: T) {
    function GetOr(default: T): T {
      match this
      case Some(v) => v
      case None => default
    }
  }

  function Min(a: real, b: real): (r: real)
    ensures r <= a && r <= b && (r == a || r == b)
  {
    if a <= b then a else b
  }

  function Max(a: real, b: real): (r: real)
    ensures r >= a && r >= b && (r == a || r == b)
  {
    if a >= b then a else b
  }

  function MinInt(a: int, b: int): (r: int)
    ensures r <= a && r <= b && (r == a || r == b)
  {
    if a <= b then a else b
  }

  function MaxInt(a: int, b: int): (r: int)
    ensures r >= a && r >= b && (r == a || r == b)
  {
    if a >= b then a else b
  }

  /** JavaScript `Math.round(num / den)`: the nearest integer, halves rounded up
      (towards +infinity), i.e. floor(num/den + 1/2). */
  function RoundHalfUp(num: int, den: int): (r: int)
    requires den > 0
    ensures 2 * den * r <= 2 * num + den < 2 * den * r + 2 * den
  {
    (2 * num + den) / (2 * den)
  }

  /** A rounded ratio of a part to its whole, as a percentage, lies in [0, 100]. */
  lemma RoundBounds(num: int, den: int, r: int)
    requires den > 0 && 0 <= num <= 100 * den
    requires 2 * den * r <= 2 * num + den < 2 * den * r + 2 * den
    ensures 0 <= r <= 100
  {
    LessByFactor(-1, r, 2 * den);
    LessByFactor(r, 101, 2 * den);
  }

  lemma LessByFactor(a: int, b: int, d: int)
    requires d > 0 && a * d < b * d
    ensures a < b
  {
  }

  /** Number of elements of `s` satisfying `p`. */
  function CountWhere<T>(s: seq<T>, p: T -> bool): (n: nat)
    ensures n <= |s|
  {
    if s == [] then 0 else CountWhere(s[..|s| - 1], p) + (if p(s[|s| - 1]) then 1 else 0)
  }

  /** Counting distributes over concatenation... */
  lemma {:induction false} CountWhereConcat<T>(a: seq<T>, b: seq<T>, p: T -> bool)
    ensures CountWhere(a + b, p) == CountWhere(a, p) + CountWhere(b, p)
  {
    if b == [] {
      assert a + b == a;
    } else {
      var n := |b| - 1;
      CountWhereConcat(a, b[..n], p);
      assert (a + b)[..|a + b| - 1] == a + b[..n];
    }
  }

  /** ...and a single element counts once exactly when it satisfies `p`. */
  lemma CountWhereSingle<T>(x: T, p: T -> bool)
    ensures CountWhere([x], p) == if p(x) then 1 else 0
  {
    assert [x][..0] == [];
  }

  /** The positions of `s` whose element satisfies `p`. */
  function Positions<T>(s: seq<T>, p: T -> bool): (r: set<int>)
    ensures forall k :: k in r <==> 0 <= k < |s| && p(s[k])
  {
    set k | 0 <= k < |s| && p(s[k])
  }

  /** The count is the number of positions whose element satisfies `p`. */
  lemma {:induction false} CountWhereIndices<T>(s: seq<T>, p: T -> bool)
    ensures CountWhere(s, p) == |Positions(s, p)|
  {
    if s != [] {
      var n := |s| - 1;
      CountWhereIndices(s[..n], p);
      var before := Positions(s[..n], p);
      var all := Positions(s, p);
      assert n !in before;
      if p(s[n]) {
        assert all == before + {n};
      } else {
        assert all == before;
      }
    }
  }
}
