/** Vocabulary shared by every module: identifiers, optional values and the order in which a hash
    table happens to be walked. */
module Basics {
  datatype Option<+T> = None | Some(value: T)

  // Session ids ("cookies") are strings because the code tests them for emptiness.
  type Id = string
  // A connected local socket; every connection gets its own number.
  type Socket = int
  type Pid = int

  /** No value occurs twice. */
  ghost predicate Distinct<T>(s: seq<T>) {
    forall i, j :: 0 <= i < j < |s| ==> s[i] != s[j]
  }

  /** `order` lists every member of `keys` exactly once: one possible hash iteration order. */
  ghost predicate Enumerates<T(!new)>(order: seq<T>, keys: set<T>) {
    && Distinct(order)
    && (forall x :: x in order <==> x in keys)
  }

  /** `order` without the value at position `i`. */
  function WithoutAt<T>(order: seq<T>, i: nat): seq<T>
    requires i < |order|
  {
    if i == 0 then order[1..] else [order[0]] + WithoutAt(order[1..], i - 1)
  }

  lemma {:induction false} WithoutAtMiddle<T>(a: seq<T>, x: T, b: seq<T>)
    ensures WithoutAt(a + ([x] + b), |a|) == a + b
  {
    var s := a + ([x] + b);
    if a == [] {
      assert s[1..] == a + b;
    } else {
      WithoutAtMiddle(a[1..], x, b);
      assert s[1..] == a[1..] + ([x] + b);
      assert [a[0]] + (a[1..] + b) == a + b;
    }
  }

  function NotIn(order: seq<Socket>): Socket -> bool {
    (s: Socket) => s !in order
  }

  function OtherThan(s: Socket): Socket -> bool {
    (o: Socket) => o != s
  }

  /** The members of `s` that satisfy `keep`, in order. */
  function Filter<T(!new)>(s: seq<T>, keep: T -> bool): (r: seq<T>)
    ensures forall x :: x in r <==> x in s && keep(x)
  {
    if s == [] then []
    else if keep(s[0]) then [s[0]] + Filter(s[1..], keep)
    else Filter(s[1..], keep)
  }

  lemma {:induction false} FilterAppend<T(!new)>(s: seq<T>, t: seq<T>, keep: T -> bool)
    ensures Filter(s + t, keep) == Filter(s, keep) + Filter(t, keep)
  {
    if s == [] {
      assert s + t == t;
    } else {
      assert (s + t)[1..] == s[1..] + t;
      FilterAppend(s[1..], t, keep);
    }
  }

  lemma {:induction false} FilterDistinct<T(!new)>(s: seq<T>, keep: T -> bool)
    requires Distinct(s)
    ensures Distinct(Filter(s, keep))
  {
    if s != [] {
      assert forall x :: x in s[1..] ==> x != s[0];
      FilterDistinct(s[1..], keep);
    }
  }
}
