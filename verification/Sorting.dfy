/** Sorting a sequence by a total order. */
module Sorting {

  ghost predicate TotalOrder<T(!new)>(leq: (T, T) -> bool) {
    && (forall a, b :: leq(a, b) || leq(b, a))
    && (forall a, b, c :: leq(a, b) && leq(b, c) ==> leq(a, c))
  }

  ghost predicate Ordered<T>(items: seq<T>, leq: (T, T) -> bool) {
    forall i, j | 0 <= i < j < |items| :: leq(items[i], items[j])
  }

  function Insert<T>(x: T, items: seq<T>, leq: (T, T) -> bool): (sorted: seq<T>)
    ensures multiset(sorted) == multiset{x} + multiset(items)
  {
    if items == [] || leq(x, items[0]) then [x] + items
    else
      assert items == [items[0]] + items[1..];
      [items[0]] + Insert(x, items[1..], leq)
  }

  /** `list.sort` */
  function Sort<T>(items: seq<T>, leq: (T, T) -> bool): (sorted: seq<T>)
    ensures multiset(sorted) == multiset(items)
  {
    if items == [] then []
    else
      assert items == [items[0]] + items[1..];
      Insert(items[0], Sort(items[1..], leq), leq)
  }

  lemma {:induction false} InsertOrders<T(!new)>(x: T, items: seq<T>, leq: (T, T) -> bool)
    requires TotalOrder(leq) && Ordered(items, leq)
    ensures Ordered(Insert(x, items, leq), leq)
  {
    if items != [] && !leq(x, items[0]) {
      InsertOrders(x, items[1..], leq);
      var rest := Insert(x, items[1..], leq);
      forall k | 0 <= k < |rest| ensures leq(items[0], rest[k]) {
        assert rest[k] in multiset(rest);
        assert items[0] == items[0] && leq(items[0], x);
        if rest[k] != x {
          assert rest[k] in multiset(items[1..]);
          var m :| 0 <= m < |items[1..]| && items[1..][m] == rest[k];
          assert leq(items[0], items[m + 1]);
        }
      }
    }
  }

  lemma {:induction false} SortOrders<T(!new)>(items: seq<T>, leq: (T, T) -> bool)
    requires TotalOrder(leq)
    ensures Ordered(Sort(items, leq), leq)
  {
    if items != [] {
      SortOrders(items[1..], leq);
      InsertOrders(items[0], Sort(items[1..], leq), leq);
    }
  }

  predicate NoRepeats<T(==)>(items: seq<T>) {
    forall i, j | 0 <= i < j < |items| :: items[i] != items[j]
  }

  lemma TwiceInSequence<T>(items: seq<T>, a: nat, b: nat)
    requires a < b < |items| && items[a] == items[b]
    ensures multiset(items)[items[a]] >= 2
  {
    assert items == items[..a] + [items[a]] + items[a + 1..b] + [items[b]] + items[b + 1..];
  }

  lemma OnceInSequence<T>(items: seq<T>, x: T)
    requires NoRepeats(items) && x in items
    ensures multiset(items)[x] == 1
  {
    var k :| 0 <= k < |items| && items[k] == x;
    assert items == items[..k] + [x] + items[k + 1..];
    assert x !in items[..k] && x !in items[k + 1..];
  }

  /** Sorting keeps the items, and repeats none that was not repeated. */
  lemma SortPermutes<T(!new)>(items: seq<T>, leq: (T, T) -> bool)
    ensures |Sort(items, leq)| == |items|
    ensures forall x :: x in Sort(items, leq) <==> x in items
    ensures NoRepeats(items) ==> NoRepeats(Sort(items, leq))
  {
    var sorted := Sort(items, leq);
    assert |multiset(sorted)| == |multiset(items)|;
    forall x ensures x in sorted <==> x in items {
      assert x in multiset(sorted) <==> x in multiset(items);
    }
    if NoRepeats(items) {
      forall a, b | 0 <= a < b < |sorted| ensures sorted[a] != sorted[b] {
        OnceInSequence(items, sorted[a]);
        if sorted[a] == sorted[b] {
          TwiceInSequence(sorted, a, b);
        }
      }
    }
  }
}
