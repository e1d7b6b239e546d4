/** The two failure-carrying datatypes, and two facts about sets and strings that several
    modules need. */
module Wrappers {
  datatype Option<+T> = None | Some(value: T)

  datatype Result<+T, +E> = Success(value: T) | Failure(error: E)

  lemma SubsetSize<T>(a: set<T>, b: set<T>)
    requires a <= b
    ensures |a| <= |b|
  {
    assert |b - a| == |b| - |a|;
  }

  /** A string splits in one way only at the first place where it has `d`. */
  lemma {:induction false} SplitAtFirst(d: char, a: string, x: string, b: string, y: string)
    requires d !in a && d !in b && a + [d] + x == b + [d] + y
    ensures a == b && x == y
  {
    var s, t := a + [d] + x, b + [d] + y;
    assert s[0] == (if a == [] then d else a[0]) && t[0] == (if b == [] then d else b[0]);
    if a == [] {
      assert s[1..] == x && t[1..] == y;
    } else {
      assert s[1..] == a[1..] + [d] + x && t[1..] == b[1..] + [d] + y;
      SplitAtFirst(d, a[1..], x, b[1..], y);
      assert a == [a[0]] + a[1..] && b == [b[0]] + b[1..];
    }
  }
}
