/** Iteration over a Java `HashSet`: every element once, in an order the program does not choose. */
module Iteration {

  /** The order in which a for-each loop visits the elements of `s`. */
  method Enumerate<T>(s: set<T>) returns (xs: seq<T>)
    ensures multiset(xs) == multiset(s)
  {
    xs := [];
    var rest := s;
    while rest != {}
      invariant rest <= s
      invariant multiset(xs) + multiset(rest) == multiset(s)
      decreases rest
    {
      var x :| x in rest;
      xs := xs + [x];
      rest := rest - {x};
    }
  }
}
