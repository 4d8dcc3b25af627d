/** Sorting as the repository uses it through `sort.Slice`: callers may rely on
    order and content only, never on the order of equal elements. */
module Sorting {

  ghost predicate TotalPreorder<T(!new)>(leq: (T, T) -> bool) {
    && (forall a, b :: leq(a, b) || leq(b, a))
    && (forall a, b, c :: leq(a, b) && leq(b, c) ==> leq(a, c))
  }

  ghost predicate SortedBy<T>(leq: (T, T) -> bool, s: seq<T>) {
    forall i, j :: 0 <= i < j < |s| ==> leq(s[i], s[j])
  }

  function Insert<T>(leq: (T, T) -> bool, x: T, s: seq<T>): seq<T> {
    if s == [] then [x]
    else if leq(x, s[0]) then [x] + s
    else [s[0]] + Insert(leq, x, s[1..])
  }

  function Sort<T>(leq: (T, T) -> bool, s: seq<T>): seq<T> {
    if s == [] then [] else Insert(leq, s[0], Sort(leq, s[1..]))
  }

  lemma {:induction false} InsertKeepsContent<T>(leq: (T, T) -> bool, x: T, s: seq<T>)
    ensures multiset(Insert(leq, x, s)) == multiset{x} + multiset(s)
  {
    if s == [] {
    } else {
      assert s == [s[0]] + s[1..];
      if !leq(x, s[0]) { InsertKeepsContent(leq, x, s[1..]); }
    }
  }

  lemma {:induction false} InsertKeepsOrder<T(!new)>(leq: (T, T) -> bool, x: T, s: seq<T>)
    requires TotalPreorder(leq) && SortedBy(leq, s)
    ensures SortedBy(leq, Insert(leq, x, s))
  {
    if s == [] {
    } else if leq(x, s[0]) {
    } else {
      var rest := Insert(leq, x, s[1..]);
      InsertKeepsOrder(leq, x, s[1..]);
      InsertKeepsContent(leq, x, s[1..]);
      forall j | 0 <= j < |rest| ensures leq(s[0], rest[j]) {
        assert rest[j] in multiset(rest);
      }
    }
  }

  /** `Sort` returns a permutation of its input in order. */
  lemma {:induction false} SortSorts<T(!new)>(leq: (T, T) -> bool, s: seq<T>)
    requires TotalPreorder(leq)
    ensures SortedBy(leq, Sort(leq, s))
    ensures multiset(Sort(leq, s)) == multiset(s)
  {
    if s == [] {
    } else {
      SortSorts(leq, s[1..]);
      InsertKeepsOrder(leq, s[0], Sort(leq, s[1..]));
      InsertKeepsContent(leq, s[0], Sort(leq, s[1..]));
      assert s == [s[0]] + s[1..];
    }
  }

  /** Go's `<=` on strings; on valid UTF-8 it is the order of code points. */
  predicate StringLeq(a: string, b: string) {
    if a == "" then true
    else if b == "" then false
    else a[0] < b[0] || (a[0] == b[0] && StringLeq(a[1..], b[1..]))
  }

  lemma {:induction false} StringLeqTotal(a: string, b: string)
    ensures StringLeq(a, b) || StringLeq(b, a)
    ensures StringLeq(a, b) && StringLeq(b, a) ==> a == b
  {
    if a != "" && b != "" && a[0] == b[0] {
      StringLeqTotal(a[1..], b[1..]);
      assert a == [a[0]] + a[1..] && b == [b[0]] + b[1..];
    }
  }

  lemma {:induction false} StringLeqTransitive(a: string, b: string, c: string)
    requires StringLeq(a, b) && StringLeq(b, c)
    ensures StringLeq(a, c)
  {
    if a != "" && a[0] == b[0] == c[0] {
      StringLeqTransitive(a[1..], b[1..], c[1..]);
    }
  }

  /** Strictly before means: not beginning with the other, and smaller by code
      point at the first difference, if there is one. */
  lemma {:induction false} StringOrder(a: string, b: string)
    ensures StringLeq(a, b) && a != b <==>
            !(b <= a) && forall k :: 0 <= k < |a| && k < |b| && a[..k] == b[..k] ==> a[k] as int <= b[k] as int
  {
    if a == "" || b == "" {
    } else if a[0] != b[0] {
      assert a[..0] == b[..0];
      forall k | 0 < k < |a| && k < |b| ensures a[..k] != b[..k] { assert a[..k][0] != b[..k][0]; }
    } else {
      var a', b' := a[1..], b[1..];
      StringOrder(a', b');
      assert a == [a[0]] + a' && b == [b[0]] + b';
      forall k | 0 <= k < |a'| && k < |b'| ensures a'[..k] == b'[..k] <==> a[..k + 1] == b[..k + 1] {
        assert a[..k + 1] == [a[0]] + a'[..k] && b[..k + 1] == [b[0]] + b'[..k];
        assert a'[..k] == a[..k + 1][1..] && b'[..k] == b[..k + 1][1..];
      }
      SameOrder(a, b);
    }
  }

  lemma SameOrder(a: string, b: string)
    requires a != "" && b != "" && a[0] == b[0]
    requires forall k :: 0 <= k < |a[1..]| && k < |b[1..]| ==> (a[1..][..k] == b[1..][..k] <==> a[..k + 1] == b[..k + 1])
    ensures (forall k :: 0 <= k < |a| && k < |b| && a[..k] == b[..k] ==> a[k] as int <= b[k] as int) <==>
            (forall k :: 0 <= k < |a[1..]| && k < |b[1..]| && a[1..][..k] == b[1..][..k] ==> a[1..][k] as int <= b[1..][k] as int)
    ensures b <= a <==> b[1..] <= a[1..]
  {
    if forall k :: 0 <= k < |a[1..]| && k < |b[1..]| && a[1..][..k] == b[1..][..k] ==> a[1..][k] as int <= b[1..][k] as int {
      forall k | 0 <= k < |a| && k < |b| && a[..k] == b[..k] ensures a[k] as int <= b[k] as int {
        if k > 0 {
          var j := k - 1;
          assert a[1..][..j] == b[1..][..j];
        }
      }
    }
    assert a == [a[0]] + a[1..] && b == [b[0]] + b[1..];
  }
}
