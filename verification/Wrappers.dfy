/** Results that may be absent. */
module Wrappers {
  datatype Option<+T> = None | Some(value: T)
}

/** Taking elements out of sets. */
module Sets {
  /** Any element: the next one, for a loop whose order does not matter. */
  method Pick<T>(s: set<T>) returns (x: T)
    requires s != {}
    ensures x in s
  {
    x :| x in s;
  }

  lemma SomeElement<T>(s: set<T>) returns (x: T)
    requires s != {}
    ensures x in s
  {
    x :| x in s;
  }
}
