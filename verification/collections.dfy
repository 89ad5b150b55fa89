/**
 What is shared by several modules: optional values, and sizes of sequences and sets.
 */
module Collections {
  datatype Option<+T> = None | Some(value: T)

  ghost function Members<T>(s: seq<T>): set<T> {
    set x | x in s
  }

  ghost predicate Apart<T>(s: seq<T>) {
    forall i, j | 0 <= i < j < |s| :: s[i] != s[j]
  }

  lemma {:induction false} ApartSize<T>(s: seq<T>)
    requires Apart(s)
    ensures |Members(s)| == |s|
    decreases |s|
  {
    if s == [] {
      assert Members(s) == {};
    } else {
      ApartSize(s[1..]);
      assert s[0] !in s[1..];
      assert Members(s) == {s[0]} + Members(s[1..]);
    }
  }

  lemma SubsetSize<T>(a: set<T>, b: set<T>)
    requires a <= b
    ensures |a| + |b - a| == |b|
  {
    assert b == a + (b - a);
  }
}
