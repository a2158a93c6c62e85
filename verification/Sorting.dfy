/** OrderBy: a stable sort, as LINQ promises and as the outbox query needs. */
module Sorting {

  ghost predicate TotalPreorder<T(!new)>(le: (T, T) -> bool) {
    && (forall a, b :: le(a, b) || le(b, a))
    && (forall a, b, c :: le(a, b) && le(b, c) ==> le(a, c))
  }

  function Insert<T>(le: (T, T) -> bool, x: T, s: seq<T>): seq<T> {
    if s == [] || le(x, s[0]) then [x] + s else [s[0]] + Insert(le, x, s[1..])
  }

  function OrderBy<T>(le: (T, T) -> bool, s: seq<T>): seq<T> {
    if s == [] then [] else Insert(le, s[0], OrderBy(le, s[1..]))
  }

  predicate Ordered<T>(le: (T, T) -> bool, s: seq<T>) {
    forall i, j :: 0 <= i < j < |s| ==> le(s[i], s[j])
  }

  /** The elements that compare equal to r, in the order in which they stand. */
  function Ties<T>(le: (T, T) -> bool, r: T, s: seq<T>): seq<T> {
    if s == [] then [] else (if le(s[0], r) && le(r, s[0]) then [s[0]] else []) + Ties(le, r, s[1..])
  }

  lemma {:induction false} InsertOrders<T(!new)>(le: (T, T) -> bool, x: T, s: seq<T>)
    requires TotalPreorder(le) && Ordered(le, s)
    ensures Ordered(le, Insert(le, x, s)) && multiset(Insert(le, x, s)) == multiset(s) + multiset{x}
  {
    if s == [] || le(x, s[0]) {
      assert ([x] + s)[1..] == s;
    } else {
      InsertOrders(le, x, s[1..]);
      var t := Insert(le, x, s[1..]);
      assert s == [s[0]] + s[1..];
      forall j | 0 <= j < |t| ensures le(s[0], t[j]) {
        assert t[j] in multiset(t);
        assert t[j] in s[1..] || t[j] == x;
      }
    }
  }

  /** Inserting before everything equal puts x first among its equals. */
  lemma {:induction false} InsertTies<T(!new)>(le: (T, T) -> bool, x: T, s: seq<T>, r: T)
    requires TotalPreorder(le)
    ensures Ties(le, r, Insert(le, x, s)) == Ties(le, r, [x] + s)
  {
    assert ([x] + s)[1..] == s;
    if s == [] || le(x, s[0]) {
    } else {
      var t := Insert(le, x, s[1..]);
      InsertTies(le, x, s[1..], r);
      assert ([s[0]] + t)[1..] == t && ([x] + s[1..])[1..] == s[1..];
    }
  }

  /** OrderBy returns an ordered permutation in which equal elements keep their order. */
  lemma {:induction false} OrderByStable<T(!new)>(le: (T, T) -> bool, s: seq<T>)
    requires TotalPreorder(le)
    ensures Ordered(le, OrderBy(le, s)) && multiset(OrderBy(le, s)) == multiset(s)
    ensures forall r :: Ties(le, r, OrderBy(le, s)) == Ties(le, r, s)
  {
    if s == [] {
    } else {
      var t := OrderBy(le, s[1..]);
      OrderByStable(le, s[1..]);
      InsertOrders(le, s[0], t);
      assert s == [s[0]] + s[1..];
      forall r ensures Ties(le, r, OrderBy(le, s)) == Ties(le, r, s) {
        InsertTies(le, s[0], t, r);
        assert ([s[0]] + t)[1..] == t;
      }
    }
  }
}
