/** Small shared definitions. */
module Wrappers {
  datatype Option<+T> = None | Some(value: T)

  lemma Regroup<T>(a: seq<T>, b: seq<T>, c: seq<T>)
    ensures a + b + c == a + (b + c)
    ensures a <= a + b <= a + (b + c)
  {
    assert a + b + c == a + (b + c);
    assert a + b <= a + b + c;
  }

  /** Takes some element out of a non-empty set, in no particular order. */
  method Pick<T(==)>(s: set<T>) returns (x: T, rest: set<T>)
    requires s != {}
    ensures x in s && rest == s - {x}
  {
    x :| x in s;
    rest := s - {x};
  }

  lemma Witness<T>(s: set<T>) returns (x: T)
    requires s != {}
    ensures x in s
  {
    x :| x in s;
  }
}
