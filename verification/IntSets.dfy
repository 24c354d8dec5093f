/** Facts about sets of numbers that loops over them need. */
module IntSets {

  lemma NotEmpty(s: set<int>)
    ensures s != {} ==> exists x :: x in s
  {
    var none: set<int> := {};
    assert (forall x :: x in s <==> x in none) ==> s == none;
  }

  lemma NothingLeft(a: set<int>, b: set<int>)
    ensures a - b == {} <==> a <= b
  {
    if a - b == {} {
      forall u | u in a
        ensures u in b
      {
        assert u !in b ==> u in a - b;
      }
    }
  }
}
