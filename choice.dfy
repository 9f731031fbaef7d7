/** Taking an arbitrary element of a set, as a loop over an unordered collection does. */
module Choice {
  /** Some element of a non-empty set; which one is left open. */
  method Pick<T>(s: set<T>) returns (x: T)
    requires s != {}
    ensures x in s
  {
    x :| x in s;
  }
}
