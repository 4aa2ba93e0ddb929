/** Small shared vocabulary: optional values, results, and facts about the
    elements of a sequence that the uniqueness checks of the serializers and
    the key set of the shopping list both rely on. */
module Common {

  datatype Option<T> = None | Some(value: T)

  datatype Result<T, E> = Ok(value: T) | Err(error: E)

  /** No value occurs twice in `s`. */
  predicate Distinct<T(==)>(s: seq<T>) {
    forall i, j :: 0 <= i < j < |s| ==> s[i] != s[j]
  }

  /** The set of values of `s`, as Python's `set(s)` builds it. */
  function Elements(s: seq<int>): (r: set<int>)
    ensures forall x :: x in r <==> x in s
  {
    if s == [] then {}
    else
      var p := s[..|s| - 1];
      assert s == p + [s[|s| - 1]];
      Elements(p) + {s[|s| - 1]}
  }

  /** `len(set(s)) == len(s)` holds exactly when `s` has no repeated value;
      otherwise the set is strictly smaller. */
  lemma {:induction false} ElementsCardinality(s: seq<int>)
    ensures |Elements(s)| <= |s|
    ensures |Elements(s)| == |s| <==> Distinct(s)
  {
    if s != [] {
      var p, x := s[..|s| - 1], s[|s| - 1];
      assert s == p + [x];
      ElementsCardinality(p);
      if x in p {
        var i :| 0 <= i < |p| && p[i] == x;
        assert s[i] == s[|s| - 1];
      } else {
        assert Elements(s) == Elements(p) + {x};
        assert x !in Elements(p);
        assert Distinct(s) <==> Distinct(p);
      }
    }
  }
}
