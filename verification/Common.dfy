/** Small types shared by the models. */
module Common {

  datatype Option<+T> = None | Some(value: T)

  /** Ids are UUID strings in the source. They are only minted and compared, so an integer names one. */
  type Uuid = int

  predicate Distinct<T(==)>(s: seq<T>) {
    forall i, j :: 0 <= i < j < |s| ==> s[i] != s[j]
  }

  /** Positions in a list, in order. */
  ghost predicate Increasing(at: seq<nat>) { forall i, j :: 0 <= i < j < |at| ==> at[i] < at[j] }

  /** The same positions, one further on. */
  function Later(at: seq<nat>): (r: seq<nat>)
    ensures |r| == |at| && forall i :: 0 <= i < |r| ==> r[i] == at[i] + 1
    ensures forall k: nat :: k in r <==> k > 0 && k - 1 in at
  {
    var r := seq(|at|, i requires 0 <= i < |at| => at[i] + 1);
    assert forall k: nat :: k > 0 && k - 1 in at ==> k in r by {
      forall k: nat | k > 0 && k - 1 in at ensures k in r {
        var i :| 0 <= i < |at| && at[i] == k - 1;
        assert r[i] == k;
      }
    }
    r
  }

  lemma FirstPlace(at: seq<nat>)
    ensures Increasing(at) ==> Increasing([0] + Later(at))
    ensures forall k: nat :: k in [0] + Later(at) <==> k == 0 || k - 1 in at
  {
  }

  /** A set with nothing in it is the empty set. */
  lemma EmptyOrNot(s: set<Uuid>)
    ensures s == {} || exists x :: x in s
  {
    if forall x :: x !in s { assert s == {}; }
  }
}
