/** Facts about finite collections that the models share. */
module Collections {
  datatype Option<T> = None | Some(value: T)

  ghost predicate Distinct<T>(s: seq<T>) {
    forall i, j :: 0 <= i < j < |s| ==> s[i] != s[j]
  }

  function SetOf<T>(s: seq<T>): set<T> {
    set x | x in s
  }

  /** The elements of `s` outside `drop`, in order. */
  function Without<T(==)>(s: seq<T>, drop: set<T>): seq<T> {
    if s == [] then []
    else if s[0] in drop then Without(s[1..], drop)
    else [s[0]] + Without(s[1..], drop)
  }

  lemma {:induction false} WithoutKeeps<T>(s: seq<T>, drop: set<T>)
    ensures forall x :: x in Without(s, drop) <==> x in s && x !in drop
    ensures Distinct(s) ==> Distinct(Without(s, drop))
  {
    if s != [] {
      WithoutKeeps(s[1..], drop);
      assert Distinct(s) ==> s[0] !in s[1..];
    }
  }

  lemma {:induction false} SubsetSize<T>(a: set<T>, b: set<T>)
    requires a <= b
    ensures |a| <= |b| && (|a| == |b| ==> a == b)
  {
    if a != {} {
      var x :| x in a;
      SubsetSize(a - {x}, b - {x});
    }
  }

  lemma HeadCount<T>(q: seq<T>, x: T)
    requires q != []
    ensures multiset(q)[x] == multiset(q[1..])[x] + if q[0] == x then 1 else 0
  {
    assert q == [q[0]] + q[1..];
  }

  lemma LastCount<T>(q: seq<T>, x: T, y: T)
    ensures multiset(q + [x])[y] == multiset(q)[y] + if x == y then 1 else 0
  {
  }

  /** Where `x` stands first. */
  lemma {:induction false} FirstOf<T>(s: seq<T>, x: T) returns (i: nat)
    requires x in s
    ensures i < |s| && s[i] == x && x !in s[..i]
  {
    if s[0] == x {
      i := 0;
    } else {
      i := FirstOf(s[1..], x);
      i := i + 1;
      assert s[..i] == [s[0]] + s[1..][..i - 1];
    }
  }
}
