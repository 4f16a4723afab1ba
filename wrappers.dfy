/** Optional values and results with an error. */
module Wrappers {

  datatype Option<T> = None | Some(value: T) {
    function GetOr(default: T): T {
      match this
      case Some(v) => v
      case None => default
    }

    /** The value as a list of at most one element. */
    function ToSeq(): seq<T> {
      if Some? then [value] else []
    }
  }

  datatype Result<T, E> = Ok(value: T) | Err(error: E)

  /** The values of the `Some` elements, in order. */
  function Somes<T>(xs: seq<Option<T>>): seq<T> {
    if xs == [] then [] else Somes(xs[..|xs| - 1]) + xs[|xs| - 1].ToSeq()
  }

  /** `Somes` keeps exactly the `Some` positions, in order: `idx` maps each
      kept value to its position. */
  lemma {:induction false} SomesPositions<T>(xs: seq<Option<T>>) returns (idx: seq<nat>)
    ensures |idx| == |Somes(xs)|
    ensures forall j :: 0 <= j < |idx| ==> idx[j] < |xs| && xs[idx[j]] == Some(Somes(xs)[j])
    ensures forall j, k :: 0 <= j < k < |idx| ==> idx[j] < idx[k]
    ensures forall i :: 0 <= i < |xs| ==> (i in idx <==> xs[i].Some?)
  {
    if xs == [] {
      idx := [];
    } else {
      var n := |xs| - 1;
      var init := xs[..n];
      idx := SomesPositions(init);
      assert forall i :: 0 <= i < n ==> init[i] == xs[i];
      if xs[n].Some? {
        assert Somes(xs) == Somes(init) + [xs[n].value];
        idx := idx + [n];
      } else {
        assert Somes(xs) == Somes(init);
      }
    }
  }
}
