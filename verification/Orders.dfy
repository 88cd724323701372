/** Strict total orders and the uniqueness of ascending lists. */
module Orders {

  ghost predicate TotalOrder<T(!new)>(before: (T, T) -> bool) {
    && (forall a :: !before(a, a))
    && (forall a, b :: a != b ==> before(a, b) || before(b, a))
    && (forall a, b, c :: before(a, b) && before(b, c) ==> before(a, c))
  }

  ghost predicate Ascending<T>(x: seq<T>, before: (T, T) -> bool) {
    forall i, j :: 0 <= i < j < |x| ==> before(x[i], x[j])
  }

  /** Two ascending lists that contain each other's first element start alike. */
  lemma SameFirst<T(!new)>(x: seq<T>, y: seq<T>, before: (T, T) -> bool)
    requires TotalOrder(before) && Ascending(x, before) && Ascending(y, before) && x != [] && y != [] && x[0] in y
             && y[0] in x
    ensures x[0] == y[0]
  {
    var a, b := x[0], y[0];
    var k :| 0 <= k < |y| && y[k] == a;
    var l :| 0 <= l < |x| && x[l] == b;
    assert (k == 0 || before(b, a)) && (l == 0 || before(a, b));
  }

  lemma TailsHold<T(!new)>(x: seq<T>, y: seq<T>, before: (T, T) -> bool)
    requires TotalOrder(before) && Ascending(x, before) && x != [] && y != [] && x[0] == y[0]
    requires forall n :: n in x ==> n in y
    ensures Ascending(x[1..], before) && forall n :: n in x[1..] ==> n in y[1..]
  {
    forall n | n in x[1..] ensures n in y[1..] {
      var i :| 0 <= i < |x[1..]| && x[1..][i] == n;
      assert before(x[0], x[i + 1]) && x[i + 1] in x;
      var k :| 0 <= k < |y| && y[k] == n;
      assert y[1..][k - 1] == n;
    }
  }

  lemma NoElements<T(!new)>(x: seq<T>)
    requires forall n :: n !in x
    ensures x == []
  {
    forall n ensures multiset(x)[n] == 0 {
      assert n in multiset(x) <==> n in x;
    }
    assert |x| == |multiset(x)|;
  }

  /** Ascending lists with the same elements are equal. */
  lemma {:induction false} AscendingAgree<T(!new)>(x: seq<T>, y: seq<T>, before: (T, T) -> bool)
    requires TotalOrder(before) && Ascending(x, before) && Ascending(y, before)
    requires (forall n :: n in x ==> n in y) && (forall n :: n in y ==> n in x)
    ensures x == y
  {
    if x != [] && y != [] {
      SameFirst(x, y, before);
      TailsHold(x, y, before);
      TailsHold(y, x, before);
      AscendingAgree(x[1..], y[1..], before);
      assert x == [x[0]] + x[1..] && y == [y[0]] + y[1..];
    } else if x == [] {
      NoElements(y);
    } else {
      NoElements(x);
    }
  }
}
