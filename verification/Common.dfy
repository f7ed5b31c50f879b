/** Shared vocabulary: options, ordered removal, counting. */
module Common {

  datatype Option<+T> = None | Some(value: T)

  function Min(a: real, b: real): real {
    if a <= b then a else b
  }

  function Max(a: real, b: real): real {
    if a >= b then a else b
  }

  ghost predicate Ascending(q: seq<nat>) {
    forall i, j :: 0 <= i < j < |q| ==> q[i] < q[j]
  }

  function IndexOf<T(==)>(q: seq<T>, x: T): (r: nat)
    requires x in q
    ensures r < |q| && q[r] == x
    ensures forall i :: 0 <= i < r ==> q[i] != x
  {
    if q[0] == x then 0 else 1 + IndexOf(q[1..], x)
  }

  /** Removal of the first occurrence, as `deque.remove` does it. */
  function Without<T(==)>(q: seq<T>, x: T): seq<T>
    requires x in q
  {
    var i := IndexOf(q, x);
    q[..i] + q[i + 1..]
  }

  lemma WithoutAscending(q: seq<nat>, x: nat)
    requires Ascending(q) && x in q
    ensures Ascending(Without(q, x))
    ensures forall y :: y in Without(q, x) <==> y in q && y != x
  {
    var i := IndexOf(q, x);
    var r := Without(q, x);
    assert forall k :: 0 <= k < |r| ==> r[k] == if k < i then q[k] else q[k + 1];
    forall y | y in q && y != x
      ensures y in r
    {
      var k := IndexOf(q, y);
      assert k < i ==> r[k] == y;
      assert k > i ==> r[k - 1] == y;
    }
  }

  /** Removing another element moves a waiting one forward by at most one place. */
  lemma WithoutMovesForward(q: seq<nat>, x: nat, y: nat)
    requires Ascending(q) && x in q && y in q && x != y
    ensures y in Without(q, x)
    ensures IndexOf(Without(q, x), y) <= IndexOf(q, y)
  {
    WithoutAscending(q, x);
    var i, k := IndexOf(q, x), IndexOf(q, y);
    var r := Without(q, x);
    assert k < i ==> r[k] == y;
    assert k > i ==> r[k - 1] == y;
  }
}
