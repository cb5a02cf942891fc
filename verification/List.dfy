/** The doubly linked list with a sentinel at either end, whose elements are part of the records they link. */
module List {

  /** `list_elem` */
  class Elem {
    var prev: Elem?
    var next: Elem?

    constructor ()
    {
      prev, next := null, null;
    }
  }

  /** The elements `s`, sentinels included, are linked in this order and in no other way. */
  ghost predicate Linked(s: seq<Elem>)
    reads s
  {
    && |s| >= 2
    && (forall i, j :: 0 <= i < j < |s| ==> s[i] != s[j])
    && s[0].prev == null && s[|s| - 1].next == null
    && Joined(s)
  }

  /** Neighbours are linked to each other. */
  ghost predicate Joined(s: seq<Elem>)
    reads s
  {
    forall i :: 0 <= i < |s| - 1 ==> s[i].next == s[i + 1] && s[i + 1].prev == s[i]
  }

  predicate IsHead(e: Elem)
    reads e
  {
    e.prev == null && e.next != null
  }

  predicate IsTail(e: Elem)
    reads e
  {
    e.prev != null && e.next == null
  }

  predicate IsInterior(e: Elem)
    reads e
  {
    e.prev != null && e.next != null
  }

  /** What the source tells elements apart by is their place. */
  lemma Places(s: seq<Elem>, i: nat)
    requires Linked(s) && i < |s|
    ensures IsHead(s[i]) <==> i == 0
    ensures IsTail(s[i]) <==> i == |s| - 1
    ensures IsInterior(s[i]) <==> 0 < i < |s| - 1
  {
    if 0 < i {
      assert s[i - 1].next == s[i];
    }
    if i < |s| - 1 {
      assert s[i].next == s[i + 1];
    }
  }

  /** `list_insert`: `elem` comes before element `k`. */
  method Insert(before: Elem, elem: Elem, ghost s: seq<Elem>, ghost k: nat)
    requires Linked(s) && 1 <= k < |s| && s[k] == before && elem !in s
    modifies s, elem
    ensures Linked(s[..k] + [elem] + s[k..])
  {
    ghost var t := s[..k] + [elem] + s[k..];
    Woven(s, [elem], k);
    Before(s, k);
    elem.prev := before.prev;
    elem.next := before;
    before.prev.next := elem;
    before.prev := elem;
    forall i | 0 <= i < |t| - 1
      ensures t[i].next == t[i + 1] && t[i + 1].prev == t[i]
    {
      assert i < k - 1 ==> old(s[i].next) == s[i + 1] && old(s[i + 1].prev) == s[i];
      assert k < i ==> old(s[i - 1].next) == s[i] && old(s[i].prev) == s[i - 1];
    }
  }

  /** `list_remove`: element `k`, which is no sentinel, is linked no more; returns the one after it. */
  method Remove(elem: Elem, ghost s: seq<Elem>, ghost k: nat) returns (after: Elem)
    requires Linked(s) && 0 < k < |s| - 1 && s[k] == elem
    modifies s
    ensures Linked(s[..k] + s[k + 1..]) && after == s[k + 1]
  {
    ghost var t := s[..k] + s[k + 1..];
    assert s[k - 1].next == elem && elem.prev == s[k - 1] && elem.next == s[k + 1];
    elem.prev.next := elem.next;
    elem.next.prev := elem.prev;
    after := elem.next;
    assert forall i :: 0 <= i < |t| - 1 ==> t[i].next == t[i + 1] && t[i + 1].prev == t[i];
  }

  /** Takes the run from `first` to `last` out: the first half of `list_splice`. */
  method Unlink(first: Elem, last: Elem, ghost a: seq<Elem>, ghost f: seq<Elem>, ghost b: seq<Elem>)
    requires Linked(a + f + b) && a != [] && f != [] && b != [] && first == f[0] && last == f[|f| - 1]
    modifies a[|a| - 1], b[0]
    ensures Linked(a + b) && Joined(f)
    ensures forall e :: e in f ==> e.next == old(e.next) && e.prev == old(e.prev)
  {
    ghost var s, t, n, m := a + f + b, a + b, |a|, |a| + |f|;
    Parted(a, f, b);
    assert s[n - 1].next == s[n] && s[n].prev == s[n - 1] && s[m - 1].next == s[m];
    first.prev.next := last.next;
    last.next.prev := first.prev;
    forall i | 0 <= i < |t| - 1
      ensures t[i].next == t[i + 1] && t[i + 1].prev == t[i]
    {
      var j := if i < n then i else i + |f|;
      assert i != n - 1 ==> old(s[j].next) == s[j + 1] && old(s[j + 1].prev) == s[j];
    }
    forall i | 0 <= i < |f| - 1
      ensures f[i].next == f[i + 1] && f[i + 1].prev == f[i]
    {
      assert old(s[n + i].next) == s[n + i + 1] && old(s[n + i + 1].prev) == s[n + i];
    }
  }

  /** Where the elements are after `f` was taken out from between `a` and `b`. */
  lemma Parted(a: seq<Elem>, f: seq<Elem>, b: seq<Elem>)
    ensures var s, t := a + f + b, a + b;
      && (forall i :: 0 <= i < |a| ==> s[i] == t[i] == a[i])
      && (forall i :: 0 <= i < |f| ==> s[|a| + i] == f[i])
      && (forall i :: |a| <= i < |t| ==> t[i] == s[i + |f|] == b[i - |a|])
  {
  }

  /** Where the elements are after `f` was put before element `k` of `t`, and that they differ. */
  lemma Woven(t: seq<Elem>, f: seq<Elem>, k: nat)
    requires k <= |t| && (forall i, j :: 0 <= i < j < |t| ==> t[i] != t[j]) && (forall i, j :: 0 <= i < j < |f| ==> f[i] != f[j])
    requires forall e :: e in f ==> e !in t
    ensures var u := t[..k] + f + t[k..];
      && |u| == |t| + |f|
      && (forall i :: 0 <= i < k ==> u[i] == t[i])
      && (forall i :: k <= i < k + |f| ==> u[i] == f[i - k])
      && (forall i :: k + |f| <= i < |u| ==> u[i] == t[i - |f|])
      && (forall i, j :: 0 <= i < j < |u| ==> u[i] != u[j])
  {
    forall i, j | 0 <= i < |f| && 0 <= j < |t|
      ensures f[i] != t[j]
    {
      assert f[i] in f;
    }
  }

  /** Puts a run of elements before element `k` of another list: the second half of `list_splice`. */
  method Link(before: Elem, first: Elem, last: Elem, ghost f: seq<Elem>, ghost t: seq<Elem>, ghost k: nat)
    requires Linked(t) && 1 <= k < |t| && t[k] == before && f != [] && Joined(f) && first == f[0] && last == f[|f| - 1]
    requires (forall i, j :: 0 <= i < j < |f| ==> f[i] != f[j]) && forall e :: e in f ==> e !in t
    modifies first, last, t[k - 1], before
    ensures Linked(t[..k] + f + t[k..])
  {
    ghost var u, m := t[..k] + f + t[k..], k + |f|;
    Woven(t, f, k);
    assert before.prev == t[k - 1];
    assert u[k - 1] == t[k - 1] && u[k] == first && u[m - 1] == last && u[m] == before;
    first.prev := before.prev;
    last.next := before;
    before.prev.next := first;
    before.prev := last;
    assert u[0].prev == null && u[|u| - 1].next == null;
    forall i | 0 <= i < |u| - 1
      ensures u[i].next == u[i + 1] && u[i + 1].prev == u[i]
    {
      if k <= i < m - 1 {
        assert old(f[i - k].next) == f[i - k + 1] && old(f[i - k + 1].prev) == f[i - k];
      }
    }
  }

  /**
   * `list_splice`: moves the elements `f`, which come between `a` and `b` in one list, before element `k` of `t`.
   * That is the same list without `f`, or a different one.
   */
  method Splice(before: Elem, first: Elem, last: Elem,
                ghost a: seq<Elem>, ghost f: seq<Elem>, ghost b: seq<Elem>, ghost t: seq<Elem>, ghost k: nat)
    requires Linked(a + f + b) && a != [] && b != [] && last == b[0] && first == (f + b)[0]
    requires t == a + b || (Linked(t) && forall e :: e in t ==> e !in a + f + b)
    requires 1 <= k < |t| && t[k] == before
    modifies a, f, b, t
    ensures Linked(t[..k] + f + t[k..])
    ensures t != a + b ==> Linked(a + b)
  {
    hide Joined;
    ghost var s, n := a + f + b, |a|;
    assert s[n] == first && s[n + |f|] == last;
    if first == last {
      assert f == [];
      assert a + f + b == a + b && t[..k] + f + t[k..] == t;
      return;
    }
    FarApart(a, f, b);
    Separate(a, f, b, t);
    Before(s, n + |f|);
    assert s[n + |f| - 1] == f[|f| - 1];
    var end := last.prev;
    assert t != a + b ==> a[n - 1] !in t && b[0] !in t;
    Unlink(first, end, a, f, b);
    assert Linked(t);
    assert t != a + b ==> first !in a + b && end !in a + b && t[k - 1] !in a + b && before !in a + b;
    Link(before, first, end, f, t, k);
  }

  lemma Before(s: seq<Elem>, i: nat)
    requires Joined(s) && 0 < i < |s|
    ensures s[i].prev == s[i - 1]
  {
    assert s[i - 1 + 1].prev == s[i - 1];
  }

  lemma Separate(a: seq<Elem>, f: seq<Elem>, b: seq<Elem>, t: seq<Elem>)
    requires t == a + b || forall e :: e in t ==> e !in a + f + b
    requires forall e :: e in f ==> e !in a + b
    ensures forall e :: e in f ==> e !in t && e !in a && e !in b
    ensures t != a + b ==> (forall e :: e in t ==> e !in a && e !in b) && forall e :: e in a + b ==> e !in f && e !in t
  {
  }

  lemma FarApart(a: seq<Elem>, f: seq<Elem>, b: seq<Elem>)
    requires Linked(a + f + b)
    ensures forall e :: e in f ==> e !in a + b
    ensures forall i, j :: 0 <= i < j < |f| ==> f[i] != f[j]
  {
    var s := a + f + b;
    assert forall i :: 0 <= i < |f| ==> f[i] == s[|a| + i];
    forall i, j | 0 <= i < |f| && 0 <= j < |a + b|
      ensures f[i] != (a + b)[j]
    {
      var m := if j < |a| then j else j + |f|;
      assert s[|a| + i] == f[i] && s[m] == (a + b)[j];
    }
  }

  /** A splice neither loses nor duplicates an element, in one list or in two. */
  lemma SpliceKeepsElements(a: seq<Elem>, f: seq<Elem>, b: seq<Elem>, t: seq<Elem>, k: nat)
    requires k <= |t|
    ensures multiset(t[..k] + f + t[k..]) + multiset(a + b) == multiset(t) + multiset(a + f + b)
    ensures t == a + b ==> multiset(t[..k] + f + t[k..]) == multiset(a + f + b)
  {
    assert t == t[..k] + t[k..];
    assert multiset(t[..k] + f + t[k..]) == multiset(t) + multiset(f);
    assert multiset(a + f + b) == multiset(a + b) + multiset(f);
  }

  /** `list` */
  class List {
    const head: Elem
    const tail: Elem

    /** The list holds the elements `s`. */
    ghost predicate Holds(s: seq<Elem>)
      reads [head] + s + [tail]
    {
      Linked([head] + s + [tail])
    }

    /** `list_init` */
    constructor ()
      ensures Holds([]) && fresh(head) && fresh(tail)
    {
      var h := new Elem();
      var t := new Elem();
      h.next := t;
      h.prev := null;
      t.next := null;
      t.prev := h;
      head, tail := h, t;
    }

    /** `list_push_front` */
    method PushFront(elem: Elem, ghost s: seq<Elem>)
      requires Holds(s) && elem !in [head] + s + [tail]
      modifies head, s, tail, elem
      ensures Holds([elem] + s)
    {
      ghost var t := [head] + s + [tail];
      ghost var u := [head] + ([elem] + s) + [tail];
      assert t[0] == head && head.next == t[1];
      elem.next := head.next;
      head.next.prev := elem;
      head.next := elem;
      elem.prev := head;
      assert forall i :: 2 <= i < |u| ==> u[i] == t[i - 1];
      assert forall i :: 0 <= i < |u| - 1 ==> u[i].next == u[i + 1] && u[i + 1].prev == u[i];
    }

    /** `list_push_back` */
    method PushBack(elem: Elem, ghost s: seq<Elem>)
      requires Holds(s) && elem !in [head] + s + [tail]
      modifies head, s, tail, elem
      ensures Holds(s + [elem])
    {
      ghost var t := [head] + s + [tail];
      ghost var u := [head] + (s + [elem]) + [tail];
      assert t[|s| + 1] == tail && tail.prev == t[|s|];
      elem.next := tail;
      elem.prev := tail.prev;
      tail.prev.next := elem;
      tail.prev := elem;
      assert forall i :: 0 <= i <= |s| ==> u[i] == t[i];
      assert forall i :: 0 <= i < |u| - 1 ==> u[i].next == u[i + 1] && u[i + 1].prev == u[i];
    }

    /** `list_pop_front` */
    method PopFront(ghost s: seq<Elem>) returns (front: Elem)
      requires Holds(s) && s != []
      modifies head, s, tail
      ensures front == s[0] && Holds(s[1..])
    {
      ghost var t := [head] + s + [tail];
      ghost var u := [head] + s[1..] + [tail];
      assert t[0] == head && t[1] == s[0] && head.next == t[1] && t[1].next == t[2];
      front := head.next;
      front.next.prev := head;
      head.next := front.next;
      assert forall i :: 1 <= i < |u| ==> u[i] == t[i + 1];
      assert forall i :: 0 <= i < |u| - 1 ==> u[i].next == u[i + 1] && u[i + 1].prev == u[i];
    }

    /** `list_pop_back` */
    method PopBack(ghost s: seq<Elem>) returns (back: Elem)
      requires Holds(s) && s != []
      modifies head, s, tail
      ensures back == s[|s| - 1] && Holds(s[..|s| - 1])
    {
      ghost var t := [head] + s + [tail];
      ghost var n := |s|;
      ghost var u := [head] + s[..n - 1] + [tail];
      assert t[n + 1] == tail && t[n] == s[n - 1] && tail.prev == t[n] && t[n].prev == t[n - 1];
      back := tail.prev;
      back.prev.next := tail;
      tail.prev := back.prev;
      assert forall i :: 0 <= i < n ==> u[i] == t[i];
      assert forall i :: 0 <= i < |u| - 1 ==> u[i].next == u[i + 1] && u[i + 1].prev == u[i];
    }

    /** `list_front` and `list_back` */
    method Ends(ghost s: seq<Elem>) returns (front: Elem, back: Elem)
      requires Holds(s) && s != []
      ensures front == s[0] && back == s[|s| - 1]
    {
      ghost var t := [head] + s + [tail];
      assert t[0].next == t[1] && t[|s| + 1].prev == t[|s|];
      front, back := head.next, tail.prev;
    }

    /** `list_size`: the walk ends, at the number of elements. */
    method Size(ghost s: seq<Elem>) returns (size: nat)
      requires Holds(s)
      ensures size == |s|
    {
      ghost var t := [head] + s + [tail];
      assert t[0].next == t[1];
      var e := head.next;
      size := 0;
      while e != tail
        invariant size <= |s| && e == t[size + 1]
        decreases |s| - size
      {
        assert e != t[|s| + 1] && t[size + 1].next == t[size + 2];
        e := e.next;
        size := size + 1;
      }
      assert t[size + 1] == t[|s| + 1];
    }

    /** `list_empty` */
    method Empty(ghost s: seq<Elem>) returns (empty: bool)
      requires Holds(s)
      ensures empty <==> s == []
    {
      ghost var t := [head] + s + [tail];
      assert t[0].next == t[1] && t[|s| + 1].prev == t[|s|];
      empty := head.next == tail && tail.prev == head;
      if s != [] {
        assert t[1] != t[|s| + 1];
      }
    }
  }
}
