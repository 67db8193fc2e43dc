/** What several modules share. */
module Prelude {

  datatype Option<T> = None | Some(value: T)

  lemma CardRemove(a: set<nat>, w: nat)
    ensures |a| == |a - {w}| + (if w in a then 1 else 0)
  {
    if w !in a { assert a - {w} == a; }
  }

  lemma {:induction false} CardSubset<T>(a: set<T>, b: set<T>)
    requires a <= b
    ensures |a| <= |b|
  {
    if a != {} {
      var x :| x in a;
      CardSubset(a - {x}, b - {x});
    }
  }
}
