/** The order in which elements first occur. */
module Orders {

  /** `x` occurs in `s` before `y` does. */
  predicate FirstBefore<T(==)>(s: seq<T>, x: T, y: T) {
    exists p :: 0 <= p < |s| && s[p] == x && y !in s[..p + 1]
  }

  /** The elements of `u` come in the order in which `s` first has them; so none comes twice. */
  ghost predicate FirstOrder<T>(u: seq<T>, s: seq<T>) {
    forall i, j :: 0 <= i < j < |u| ==> FirstBefore(s, u[i], u[j])
  }

  /** `u` are the elements of `s`, each once, where it first occurs. */
  ghost predicate FirstsOf<T(!new)>(u: seq<T>, s: seq<T>) {
    FirstOrder(u, s) && forall x :: x in u <==> x in s
  }

  lemma LaterToo<T>(s: seq<T>, last: T, x: T, y: T)
    requires FirstBefore(s, x, y)
    ensures FirstBefore(s + [last], x, y)
  {
    var p :| 0 <= p < |s| && s[p] == x && y !in s[..p + 1];
    assert (s + [last])[..p + 1] == s[..p + 1];
  }

  lemma NewComesLast<T>(s: seq<T>, x: T, last: T)
    requires x in s && last !in s
    ensures FirstBefore(s + [last], x, last)
  {
    var p :| 0 <= p < |s| && s[p] == x;
    assert (s + [last])[..p + 1] == s[..p + 1];
  }

  /** A new element goes to the end, one that is there stays where it is. */
  lemma OrderMore<T>(u: seq<T>, s: seq<T>, last: T, more: seq<T>)
    requires FirstOrder(u, s) && (forall x :: x in u ==> x in s)
    requires more == u || (more == u + [last] && last !in s)
    ensures FirstOrder(more, s + [last])
  {
    forall i, j | 0 <= i < j < |more| ensures FirstBefore(s + [last], more[i], more[j]) {
      if j < |u| {
        LaterToo(s, last, u[i], u[j]);
      } else {
        assert u[i] in u;
        NewComesLast(s, u[i], last);
      }
    }
  }

  lemma FirstPlace<T>(s: seq<T>, x: T) returns (i: nat)
    requires x in s
    ensures i < |s| && s[i] == x && x !in s[..i]
    decreases |s|
  {
    var n := |s| - 1;
    if x in s[..n] {
      i := FirstPlace(s[..n], x);
      assert s[..n][..i] == s[..i];
    } else {
      i := n;
      assert s == s[..n] + [s[n]];
    }
  }

  lemma PlacedBefore<T>(s: seq<T>, x: T, y: T, p: nat, k: nat)
    requires FirstBefore(s, x, y) && p < |s| && s[p] == x && x !in s[..p] && k < |s| && s[k] == y
    ensures p < k
  {
    var q :| 0 <= q < |s| && s[q] == x && y !in s[..q + 1];
    assert k > q by { assert forall i :: 0 <= i <= q ==> s[i] in s[..q + 1]; }
    assert q >= p by { assert forall i :: 0 <= i < p ==> s[i] in s[..p]; }
  }
}
