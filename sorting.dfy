/**
 * Stable sorting by a key. `Array.prototype.sort` is stable, so with a
 * comparator that is a consistent order it returns exactly what this
 * insertion sort returns; the same function stands for a storage-layer
 * `orderBy`, with the store's own order settling ties.
 *
 * A key is a sequence of atoms compared lexicographically; numbers compare
 * by value, texts by character codes, and a null is above everything (so a
 * null key comes last ascending and first descending).
 */
module Sorting {

  datatype Atom = Num(n: real) | Text(s: string) | Null

  type Key = seq<Atom>

  datatype Direction = Asc | Desc

  predicate TextLess(a: string, b: string)
    decreases |a|
  {
    if a == [] then b != []
    else if b == [] then false
    else a[0] < b[0] || (a[0] == b[0] && TextLess(a[1..], b[1..]))
  }

  function Rank(a: Atom): nat {
    match a
    case Num(_) => 0
    case Text(_) => 1
    case Null => 2
  }

  predicate AtomLess(a: Atom, b: Atom) {
    if Rank(a) != Rank(b) then Rank(a) < Rank(b)
    else
      match a
      case Num(x) => x < b.n
      case Text(x) => TextLess(x, b.s)
      case Null => false
  }

  predicate KeyLess(a: Key, b: Key)
    decreases |a|
  {
    if a == [] then b != []
    else if b == [] then false
    else AtomLess(a[0], b[0]) || (a[0] == b[0] && KeyLess(a[1..], b[1..]))
  }

  /** Key `a` must come strictly before key `b` when sorting in direction `d`. */
  predicate Before(d: Direction, a: Key, b: Key) {
    if d == Asc then KeyLess(a, b) else KeyLess(b, a)
  }

  lemma {:induction false} TextLessIrreflexive(a: string)
    ensures !TextLess(a, a)
  {
    if a != [] { TextLessIrreflexive(a[1..]); }
  }

  lemma {:induction false} TextLessTransitive(a: string, b: string, c: string)
    requires TextLess(a, b) && TextLess(b, c)
    ensures TextLess(a, c)
  {
    if a != [] && b != [] && c != [] && a[0] == b[0] == c[0] {
      TextLessTransitive(a[1..], b[1..], c[1..]);
    }
  }

  lemma AtomLessIrreflexive(a: Atom)
    ensures !AtomLess(a, a)
  {
    if a.Text? { TextLessIrreflexive(a.s); }
  }

  lemma AtomLessTransitive(a: Atom, b: Atom, c: Atom)
    requires AtomLess(a, b) && AtomLess(b, c)
    ensures AtomLess(a, c)
  {
    if a.Text? && b.Text? && c.Text? { TextLessTransitive(a.s, b.s, c.s); }
  }

  lemma {:induction false} KeyLessIrreflexive(a: Key)
    ensures !KeyLess(a, a)
  {
    if a != [] {
      AtomLessIrreflexive(a[0]);
      KeyLessIrreflexive(a[1..]);
    }
  }

  lemma {:induction false} KeyLessTransitive(a: Key, b: Key, c: Key)
    requires KeyLess(a, b) && KeyLess(b, c)
    ensures KeyLess(a, c)
  {
    if a != [] && b != [] && c != [] {
      if AtomLess(a[0], b[0]) && AtomLess(b[0], c[0]) {
        AtomLessTransitive(a[0], b[0], c[0]);
      } else if a[0] == b[0] == c[0] {
        KeyLessTransitive(a[1..], b[1..], c[1..]);
      }
    }
  }

  lemma BeforeIrreflexive(d: Direction, a: Key)
    ensures !Before(d, a, a)
  {
    KeyLessIrreflexive(a);
  }

  lemma BeforeTransitive(d: Direction, a: Key, b: Key, c: Key)
    requires Before(d, a, b) && Before(d, b, c)
    ensures Before(d, a, c)
  {
    if d == Asc { KeyLessTransitive(a, b, c); } else { KeyLessTransitive(c, b, a); }
  }

  /** No element is followed by one that should have come before it. */
  predicate Ordered<T>(s: seq<T>, key: T -> Key, d: Direction) {
    forall i, j :: 0 <= i < j < |s| ==> !Before(d, key(s[j]), key(s[i]))
  }

  /** The elements of `s` whose key is `k`, in their order in `s`. */
  function WithKey<T>(s: seq<T>, key: T -> Key, k: Key): seq<T> {
    if s == [] then [] else (if key(s[0]) == k then [s[0]] else []) + WithKey(s[1..], key, k)
  }

  /** Place `x` after every element of `t` that it need not precede. */
  function Insert<T>(t: seq<T>, x: T, key: T -> Key, d: Direction): seq<T> {
    if t == [] then [x]
    else if Before(d, key(x), key(t[0])) then [x] + t
    else [t[0]] + Insert(t[1..], x, key, d)
  }

  /** `[...s].sort(cmp)` where `cmp` orders by `key` in direction `d`. */
  function Sort<T>(s: seq<T>, key: T -> Key, d: Direction): seq<T> {
    if s == [] then [] else Insert(Sort(s[..|s| - 1], key, d), s[|s| - 1], key, d)
  }

  lemma {:induction false} InsertPermutes<T>(t: seq<T>, x: T, key: T -> Key, d: Direction)
    ensures multiset(Insert(t, x, key, d)) == multiset(t) + multiset{x}
  {
    if t == [] {
    } else if Before(d, key(x), key(t[0])) {
      ConsMultiset(x, t);
    } else {
      InsertPermutes(t[1..], x, key, d);
      ConsMultiset(t[0], Insert(t[1..], x, key, d));
      HeadTailMultiset(t);
    }
  }

  lemma ConsMultiset<T>(x: T, t: seq<T>)
    ensures multiset([x] + t) == multiset(t) + multiset{x}
  {
  }

  lemma HeadTailMultiset<T>(t: seq<T>)
    requires t != []
    ensures multiset(t) == multiset(t[1..]) + multiset{t[0]}
  {
    assert t == [t[0]] + t[1..];
  }

  lemma {:induction false} InsertOrdered<T>(t: seq<T>, x: T, key: T -> Key, d: Direction)
    requires Ordered(t, key, d)
    ensures Ordered(Insert(t, x, key, d), key, d)
  {
    if t == [] {
    } else if Before(d, key(x), key(t[0])) {
      var r := [x] + t;
      forall j | 0 < j < |r| ensures !Before(d, key(r[j]), key(x)) {
        if Before(d, key(r[j]), key(x)) {
          BeforeTransitive(d, key(r[j]), key(x), key(t[0]));
          if j == 1 { BeforeIrreflexive(d, key(t[0])); }
          assert false;
        }
      }
    } else {
      var rest := Insert(t[1..], x, key, d);
      InsertOrdered(t[1..], x, key, d);
      InsertPermutes(t[1..], x, key, d);
      var r := [t[0]] + rest;
      forall j | 0 < j < |r| ensures !Before(d, key(r[j]), key(t[0])) {
        assert r[j] in multiset(rest);
        if r[j] != x {
          assert r[j] in multiset(t[1..]);
          var m :| 0 <= m < |t[1..]| && t[1..][m] == r[j];
          assert t[m + 1] == r[j];
        }
      }
    }
  }

  lemma {:induction false} WithKeyAppend<T>(a: seq<T>, b: seq<T>, key: T -> Key, k: Key)
    ensures WithKey(a + b, key, k) == WithKey(a, key, k) + WithKey(b, key, k)
  {
    if a != [] {
      assert (a + b)[0] == a[0];
      assert (a + b)[1..] == a[1..] + b;
      WithKeyAppend(a[1..], b, key, k);
    } else {
      assert a + b == b;
    }
  }

  lemma {:induction false} WithKeyNone<T>(t: seq<T>, key: T -> Key, k: Key)
    requires forall i :: 0 <= i < |t| ==> key(t[i]) != k
    ensures WithKey(t, key, k) == []
  {
    if t != [] { WithKeyNone(t[1..], key, k); }
  }

  lemma {:induction false} InsertWithKey<T>(t: seq<T>, x: T, key: T -> Key, d: Direction, k: Key)
    requires Ordered(t, key, d)
    ensures WithKey(Insert(t, x, key, d), key, k)
         == WithKey(t, key, k) + (if key(x) == k then [x] else [])
  {
    if t == [] {
      assert Insert(t, x, key, d) == [x] + t;
      WithKeyAppend([x], t, key, k);
    } else if Before(d, key(x), key(t[0])) {
      InsertFrontWithKey(t, x, key, d, k);
    } else {
      OrderedTail(t, key, d);
      InsertWithKey(t[1..], x, key, d, k);
      InsertBehindWithKey(t, x, key, d, k);
    }
  }

  lemma OrderedTail<T>(t: seq<T>, key: T -> Key, d: Direction)
    requires t != [] && Ordered(t, key, d)
    ensures Ordered(t[1..], key, d)
  {
    forall i, j | 0 <= i < j < |t[1..]| ensures !Before(d, key(t[1..][j]), key(t[1..][i])) {
      assert t[1..][j] == t[j + 1] && t[1..][i] == t[i + 1];
    }
  }

  /** `x` goes in front: no element of `t` shares its key. */
  lemma InsertFrontWithKey<T>(t: seq<T>, x: T, key: T -> Key, d: Direction, k: Key)
    requires Ordered(t, key, d) && t != [] && Before(d, key(x), key(t[0]))
    ensures WithKey(Insert(t, x, key, d), key, k)
         == WithKey(t, key, k) + (if key(x) == k then [x] else [])
  {
    assert Insert(t, x, key, d) == [x] + t;
    WithKeyAppend([x], t, key, k);
    if key(x) == k {
      BeforeIrreflexive(d, k);
      forall i | 0 < i < |t| ensures key(t[i]) != k {
        assert !Before(d, key(t[i]), key(t[0]));
      }
      WithKeyNone(t, key, k);
    }
  }

  /** `x` goes after the head of `t`: the head keeps its place before it. */
  lemma InsertBehindWithKey<T>(t: seq<T>, x: T, key: T -> Key, d: Direction, k: Key)
    requires t != [] && !Before(d, key(x), key(t[0]))
    requires WithKey(Insert(t[1..], x, key, d), key, k)
          == WithKey(t[1..], key, k) + (if key(x) == k then [x] else [])
    ensures WithKey(Insert(t, x, key, d), key, k)
         == WithKey(t, key, k) + (if key(x) == k then [x] else [])
  {
    var rest := Insert(t[1..], x, key, d);
    assert Insert(t, x, key, d) == [t[0]] + rest;
    WithKeyAppend([t[0]], rest, key, k);
    assert t == [t[0]] + t[1..];
    WithKeyAppend([t[0]], t[1..], key, k);
  }

  lemma {:induction false} SortPermutes<T>(s: seq<T>, key: T -> Key, d: Direction)
    ensures multiset(Sort(s, key, d)) == multiset(s)
    ensures |Sort(s, key, d)| == |s|
  {
    if s != [] {
      SortPermutes(s[..|s| - 1], key, d);
      InsertPermutes(Sort(s[..|s| - 1], key, d), s[|s| - 1], key, d);
      assert s == s[..|s| - 1] + [s[|s| - 1]];
    }
  }

  lemma {:induction false} SortOrders<T>(s: seq<T>, key: T -> Key, d: Direction)
    ensures Ordered(Sort(s, key, d), key, d)
  {
    if s != [] {
      SortOrders(s[..|s| - 1], key, d);
      InsertOrdered(Sort(s[..|s| - 1], key, d), s[|s| - 1], key, d);
    }
  }

  /** Elements with equal keys keep their relative order. */
  lemma {:induction false} SortStable<T>(s: seq<T>, key: T -> Key, d: Direction, k: Key)
    ensures WithKey(Sort(s, key, d), key, k) == WithKey(s, key, k)
  {
    if s != [] {
      var init, last := s[..|s| - 1], s[|s| - 1];
      SortStable(init, key, d, k);
      SortOrders(init, key, d);
      InsertWithKey(Sort(init, key, d), last, key, d, k);
      assert s == init + [last];
      WithKeyAppend(init, [last], key, k);
    }
  }
}
