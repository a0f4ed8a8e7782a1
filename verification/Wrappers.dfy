/** The failure-compatible types the other modules share. */
module Wrappers {

  datatype Option<+T> = None | Some(value: T)

  datatype Result<+T, +E> = Ok(value: T) | Err(error: E)

  lemma Inhabited<T(!new)>(s: set<T>)
    ensures s == {} || exists x :: x in s
  {
    if !(exists x :: x in s) { assert s == {}; }
  }

  lemma Member<T(!new)>(s: set<T>) returns (x: T)
    requires s != {}
    ensures x in s
  {
    Inhabited(s);
    x :| x in s;
  }

  lemma FewerElements<T>(a: set<T>, b: set<T>)
    requires a <= b
    ensures |a| <= |b|
  {
    assert b == a + (b - a);
  }
}
