/** Small datatypes and arithmetic shared by every module of the model. */
module Common {
  datatype Option<+T> = None | Some(value: T)

  function Min(a: int, b: int): (m: int) { if a <= b then a else b }

  function Max(a: int, b: int): (m: int) { if a >= b then a else b }

  predicate Distinct<T(==)>(s: seq<T>) {
    forall i, j :: 0 <= i < j < |s| ==> s[i] != s[j]
  }

  lemma {:induction false} SubsetSize<T>(a: set<T>, b: set<T>)
    requires a <= b
    ensures |a| <= |b|
    ensures |a| == |b| ==> a == b
  {
    if a != {} {
      var x :| x in a;
      SubsetSize(a - {x}, b - {x});
    }
  }

  /** How many more commits a run makes before it is cut off; None if it is not. */
  type Commits = Option<nat>

  function Spend(a: Commits): Commits {
    if a.Some? && a.value > 0 then Some(a.value - 1) else a
  }
}
