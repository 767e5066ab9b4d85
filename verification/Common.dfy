/** Small shared vocabulary: optional values, trade direction, exact arithmetic. */
module Common {

  datatype Option<+T> = None | Some(value: T)

  datatype Direction = Buy | Sell {
    function Opposite(): Direction {
      if Buy? then Sell else Buy
    }
  }

  function Abs(x: real): real {
    if x < 0.0 then -x else x
  }

  function Max(x: real, y: real): real {
    if x < y then y else x
  }

  function Min(x: real, y: real): real {
    if y < x then y else x
  }

  /** The price move from `from` to `to`, counted in the holder's favour. */
  function Gain(d: Direction, from: real, to: real): real {
    if d.Buy? then to - from else from - to
  }

  /** Python's round(x) to an integer: ties go to the even neighbour. */
  function Round(x: real): int {
    var f := x.Floor;
    var rest := x - f as real;
    if rest < 0.5 then f
    else if rest > 0.5 then f + 1
    else if f % 2 == 0 then f else f + 1
  }

  lemma RoundOfInt(n: int)
    ensures Round(n as real) == n
  {
    assert (n as real).Floor == n;
  }

  lemma MulMono(a: real, b: real, c: real)
    requires a <= b && c >= 0.0
    ensures a * c <= b * c
  {
  }

  lemma MulStrict(a: real, b: real, c: real)
    requires a < b && c > 0.0
    ensures a * c < b * c
  {
  }

  /** The sum of a list of amounts, oldest first. */
  function Sum(xs: seq<real>): real {
    if xs == [] then 0.0 else Sum(xs[..|xs| - 1]) + xs[|xs| - 1]
  }

  /** The members of a set in some order, each once. */
  method ListOf<T(==)>(s: set<T>) returns (r: seq<T>)
    ensures forall x :: x in r <==> x in s
    ensures forall i, j :: 0 <= i < j < |r| ==> r[i] != r[j]
  {
    r := [];
    var left := s;
    while left != {}
      invariant left <= s
      invariant forall x :: x in r <==> x in s - left
      invariant forall i, j :: 0 <= i < j < |r| ==> r[i] != r[j]
      decreases left
    {
      var x :| x in left;
      assert x !in r;
      assert forall i :: 0 <= i < |r| ==> r[i] in r && (r + [x])[i] == r[i];
      r := r + [x];
      left := left - {x};
    }
  }

  lemma {:induction false} SubsetSize<T>(a: set<T>, b: set<T>)
    requires a <= b
    ensures |a| <= |b|
  {
    if a != {} {
      var x :| x in a;
      SubsetSize(a - {x}, b - {x});
    }
  }

  lemma KeysBound<K, V>(a: map<K, V>, b: map<K, V>)
    requires a.Keys <= b.Keys
    ensures |a| <= |b|
  {
    SubsetSize(a.Keys, b.Keys);
    assert |a.Keys| == |a| && |b.Keys| == |b|;
  }
}
