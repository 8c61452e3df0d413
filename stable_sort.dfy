/**
 * Collections.sort and Collections.reverse as FileBrowser uses them. Collections.sort
 * is a stable sort; for a comparator that is a total preorder (here: on the entries
 * within its bound) the stable sort of a list is unique, so the insertion sort below
 * yields exactly the list Collections.sort leaves behind.
 */
module StableSort {
  import opened Entries
  import opened Comparators

  /** Puts x in front of the first entry of s that it is not after. */
  function Insert(x: Entry, s: seq<Entry>, k: Comparator): (r: seq<Entry>)
    ensures multiset(r) == multiset(s) + multiset{x}
  {
    if s == [] then [x]
    else if Compare(k, x, s[0]) <= 0 then [x] + s
    else
      assert s == [s[0]] + s[1..];
      [s[0]] + Insert(x, s[1..], k)
  }

  /** Collections.sort(s, comparator k): the head goes in front of its equals among the sorted rest. */
  function Sort(s: seq<Entry>, k: Comparator): (r: seq<Entry>)
    ensures multiset(r) == multiset(s)
  {
    if s == [] then []
    else
      assert s == [s[0]] + s[1..];
      Insert(s[0], Sort(s[1..], k), k)
  }

  lemma {:induction false} InsertKeepsOrder(x: Entry, r: seq<Entry>, k: Comparator, keys: seq<Comparator>)
    requires BoundedFor(k, x) && AllBoundedFor(k, r)
    requires SortedBy(r, [k] + keys)
    requires forall e :: e in r ==> Precedes(keys, x, e)
    ensures SortedBy(Insert(x, r, k), [k] + keys)
  {
    if r == [] {
    } else if Compare(k, x, r[0]) <= 0 {
      InsertInFront(x, r, k, keys);
    } else {
      var rest := r[1..];
      SortedTail(r, [k] + keys);
      InsertKeepsOrder(x, rest, k, keys);
      assert r[0] in r;
      CompareAntisymmetric(k, x, r[0]);
      PrecedesCons(k, keys, r[0], x);
      var u := Insert(x, rest, k);
      forall e | e in u ensures Precedes([k] + keys, r[0], e) {
        assert e in multiset(u);
        if e != x {
          SortedHead(r, [k] + keys, e);
        }
      }
      SortedCons(r[0], u, [k] + keys);
    }
  }

  /** x goes in front: it is not after the head, hence (by transitivity) not after any entry. */
  lemma InsertInFront(x: Entry, r: seq<Entry>, k: Comparator, keys: seq<Comparator>)
    requires BoundedFor(k, x) && AllBoundedFor(k, r)
    requires SortedBy(r, [k] + keys)
    requires forall e :: e in r ==> Precedes(keys, x, e)
    requires r != [] && Compare(k, x, r[0]) <= 0
    ensures SortedBy([x] + r, [k] + keys)
  {
    forall e | e in r ensures Precedes([k] + keys, x, e) {
      if e != r[0] {
        SortedHead(r, [k] + keys, e);
        PrecedesCons(k, keys, r[0], e);
        CompareTransitive(k, x, r[0], e);
      }
      PrecedesCons(k, keys, x, e);
    }
    SortedCons(x, r, [k] + keys);
  }

  lemma SortedTail(s: seq<Entry>, keys: seq<Comparator>)
    requires s != [] && SortedBy(s, keys)
    ensures SortedBy(s[1..], keys)
  {
    var t := s[1..];
    forall i, j | 0 <= i < j < |t| ensures Precedes(keys, t[i], t[j]) {
      assert t[i] == s[i + 1] && t[j] == s[j + 1];
    }
  }

  lemma SortedHead(s: seq<Entry>, keys: seq<Comparator>, e: Entry)
    requires s != [] && SortedBy(s, keys) && e in s[1..]
    ensures Precedes(keys, s[0], e)
  {
    var j :| 0 <= j < |s[1..]| && s[1..][j] == e;
    assert s[j + 1] == e;
  }

  lemma SortedCons(h: Entry, u: seq<Entry>, keys: seq<Comparator>)
    requires SortedBy(u, keys)
    requires forall e :: e in u ==> Precedes(keys, h, e)
    ensures SortedBy([h] + u, keys)
  {
    var t := [h] + u;
    forall i, j | 0 <= i < j < |t| ensures Precedes(keys, t[i], t[j]) {
      if i == 0 {
        assert t[j] == u[j - 1];
        assert t[j] in u;
      } else {
        assert t[i] == u[i - 1] && t[j] == u[j - 1];
      }
    }
  }

  /**
   * Stability, in the form the multi-pass sorts rely on: stably sorting by k a list
   * already ordered by the chain keys orders it by k, then by keys among k-ties.
   */
  lemma {:induction false} SortRefines(s: seq<Entry>, k: Comparator, keys: seq<Comparator>)
    requires AllBoundedFor(k, s)
    requires SortedBy(s, keys)
    ensures SortedBy(Sort(s, k), [k] + keys)
  {
    if s != [] {
      var rest := s[1..];
      assert forall e :: e in rest ==> e in s;
      SortedTail(s, keys);
      SortRefines(rest, k, keys);
      var r := Sort(rest, k);
      forall e | e in r ensures e in s && Precedes(keys, s[0], e) {
        assert e in multiset(r);
        SortedHead(s, keys, e);
      }
      InsertKeepsOrder(s[0], r, k, keys);
    }
  }

  /** Collections.sort(s, k) orders the list by k. */
  lemma SortOrders(s: seq<Entry>, k: Comparator)
    requires AllBoundedFor(k, s)
    ensures SortedBy(Sort(s, k), [k])
  {
    SortRefines(s, k, []);
    assert [k] + [] == [k];
  }

  /** Sorting moves entries without changing them, so it keeps every bound. */
  lemma SortKeepsBound(s: seq<Entry>, k: Comparator, j: Comparator)
    requires AllBoundedFor(j, s)
    ensures AllBoundedFor(j, Sort(s, k))
  {
    forall e | e in Sort(s, k) ensures BoundedFor(j, e) {
      assert e in multiset(Sort(s, k));
    }
  }

  /** A list the comparator already orders is left exactly as it is: no two equal entries swap. */
  lemma {:induction false} SortKeepsOrderedList(s: seq<Entry>, k: Comparator)
    requires SortedBy(s, [k])
    ensures Sort(s, k) == s
  {
    if s != [] {
      var rest := s[1..];
      SortedTail(s, [k]);
      SortKeepsOrderedList(rest, k);
      if rest != [] {
        assert Precedes([k], s[0], s[1]);
        PrecedesCons(k, [], s[0], s[1]);
      }
      assert s == [s[0]] + rest;
    }
  }

  /** Entries whose tag text is null come before all others after a sort by that text. */
  lemma SortPutsNullTagsFirst(s: seq<Entry>, k: Comparator)
    requires IsTagText(k)
    ensures forall i, j :: 0 <= i < j < |Sort(s, k)| && TagText(k, Sort(s, k)[j]).None? ==>
              TagText(k, Sort(s, k)[i]).None?
  {
    var r := Sort(s, k);
    SortOrders(s, k);
    forall i, j | 0 <= i < j < |r| && TagText(k, r[j]).None? ensures TagText(k, r[i]).None? {
      assert r[i] in multiset(s) && r[j] in multiset(s);
      PrecedesCons(k, [], r[i], r[j]);
      CompareMeaning(k, r[i], r[j]);
    }
  }

  /** Collections.reverse. */
  function Reverse(s: seq<Entry>): (r: seq<Entry>)
    ensures multiset(r) == multiset(s)
  {
    if s == [] then []
    else
      assert s == [s[0]] + s[1..];
      Reverse(s[1..]) + [s[0]]
  }

  lemma {:induction false} ReverseAt(s: seq<Entry>, i: int)
    requires 0 <= i < |s|
    ensures |Reverse(s)| == |s| && Reverse(s)[i] == s[|s| - 1 - i]
  {
    assert |multiset(Reverse(s))| == |s|;
    if i < |s| - 1 {
      ReverseAt(s[1..], i);
    }
  }

  /** Reversing a list ordered by keys gives one ordered the other way round. */
  lemma ReverseFlipsOrder(s: seq<Entry>, keys: seq<Comparator>)
    requires SortedBy(s, keys)
    ensures SortedDescendingBy(Reverse(s), keys)
  {
    var r := Reverse(s);
    assert |multiset(r)| == |s|;
    forall i, j | 0 <= i < j < |r| ensures Precedes(keys, r[j], r[i]) {
      ReverseAt(s, i);
      ReverseAt(s, j);
    }
  }
}
