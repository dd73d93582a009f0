/** Visiting a set or a dictionary whose order does not matter. */
module Picking {
  /** Any member. */
  method Pick<T(==)>(s: set<T>) returns (x: T)
    requires s != {}
    ensures x in s
  {
    x :| x in s;
  }
}
