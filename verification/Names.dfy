/** Segment names in listing order (`list_segments`, crates/storage/src/wal_format.rs). */
module Names {

  ghost predicate IsMax(m: nat, xs: set<nat>) { m in xs && forall x :: x in xs ==> x <= m }

  lemma {:induction false} MaxExists(xs: set<nat>)
    requires xs != {}
    ensures exists m :: m in xs && forall x :: x in xs ==> x <= m
  {
    var x :| x in xs;
    var rest := xs - {x};
    assert forall y :: y in xs <==> y == x || y in rest;
    if rest == {} {
      assert IsMax(x, xs);
    } else {
      MaxExists(rest);
      var m :| m in rest && forall y :: y in rest ==> y <= m;
      assert IsMax(if m < x then x else m, xs);
    }
  }

  /** A set of segment names in increasing order. */
  function Sorted(xs: set<nat>): (r: seq<nat>)
    ensures forall x :: x in r <==> x in xs
    ensures forall i, j :: 0 <= i < j < |r| ==> r[i] < r[j]
  {
    if xs == {} then [] else
    MaxExists(xs);
    var m :| m in xs && forall x :: x in xs ==> x <= m;
    Sorted(xs - {m}) + [m]
  }

  /** The largest name comes last; taking it away, or adding a larger one, changes nothing before it. */
  lemma SortedMax(xs: set<nat>, m: nat)
    requires IsMax(m, xs)
    ensures Sorted(xs) == Sorted(xs - {m}) + [m]
  {
  }

  ghost predicate Ascending(s: seq<nat>) { forall i, j :: 0 <= i < j < |s| ==> s[i] < s[j] }

  lemma EmptyAlike(a: seq<nat>, b: seq<nat>)
    requires forall x :: x in b ==> x in a
    ensures a == [] ==> b == []
  {
    if b != [] {
      assert b[0] in a;
    }
  }

  /** An ascending sequence is determined by its elements. */
  lemma {:induction false} AscendingUnique(a: seq<nat>, b: seq<nat>)
    requires Ascending(a) && Ascending(b) && forall x :: x in a <==> x in b
    ensures a == b
  {
    EmptyAlike(a, b);
    EmptyAlike(b, a);
    if a != [] {
      var m, n := |a| - 1, |b| - 1;
      assert a[m] in b && b[n] in a;
      assert a == a[..m] + [a[m]] && b == b[..n] + [b[n]];
      forall x ensures x in a[..m] <==> x in b[..n] {
        assert x in a <==> x in b;
      }
      AscendingUnique(a[..m], b[..n]);
    }
  }
}
