/** Small shared vocabulary: optional values, the position of an element in a
    sequence, and duplicate-free sequences. */
module Prelude {

  datatype Option<+T> = None | Some(value: T)

  /** A position of an element; in a duplicate-free sequence it is the only one. */
  ghost function Rank<T>(s: seq<T>, x: T): (r: nat)
    requires x in s
    ensures r < |s| && s[r] == x
  {
    var r :| 0 <= r < |s| && s[r] == x; r
  }

  ghost predicate NoDup<T>(s: seq<T>) {
    forall i :: 0 <= i < |s| ==> Rank(s, s[i]) == i
  }

  ghost predicate Distinct<T>(s: seq<T>) {
    forall i, j :: 0 <= i < j < |s| ==> s[i] != s[j]
  }

  /** The two ways of saying that nothing occurs twice. */
  lemma NoDupMeansDistinct<T>(s: seq<T>)
    ensures NoDup(s) <==> Distinct(s)
  {
    if NoDup(s) {
      forall i, j | 0 <= i < j < |s| ensures s[i] != s[j] {
        assert Rank(s, s[i]) == i && Rank(s, s[j]) == j;
      }
    }
  }
}
