/** Circular doubly linked lists, as evdns keeps its requests and nameservers. */
module Rings {
  import opened Lists

  datatype Link = NULL | To(n: nat)

  datatype Links = Links(next: map<nat, Link>, prev: map<nat, Link>)

  ghost function After(s: seq<nat>, i: nat): nat
    requires i < |s|
  {
    if i + 1 == |s| then s[0] else s[i + 1]
  }

  ghost function Before(s: seq<nat>, i: nat): nat
    requires i < |s|
  {
    if i == 0 then s[|s| - 1] else s[i - 1]
  }

  ghost predicate Joined(l: Links, s: seq<nat>, i: nat)
    requires i < |s|
  {
    && s[i] in l.next && l.next[s[i]] == To(After(s, i))
    && s[i] in l.prev && l.prev[s[i]] == To(Before(s, i))
  }

  /** From the head, the ring runs through `s` and back. */
  ghost predicate Ring(l: Links, head: Link, s: seq<nat>) {
    && Distinct(s)
    && head == (if s == [] then NULL else To(s[0]))
    && forall i :: 0 <= i < |s| ==> Joined(l, s, i)
  }

  /** Every node but those in `s` is linked as before. */
  ghost predicate Elsewhere(l0: Links, l: Links, s: seq<nat>) {
    && (forall x :: x in l0.next && x !in s ==> x in l.next && l.next[x] == l0.next[x])
    && (forall x :: x in l0.prev && x !in s ==> x in l.prev && l.prev[x] == l0.prev[x])
  }

  lemma RingFrame(l0: Links, l: Links, head: Link, s: seq<nat>, changed: seq<nat>)
    requires Ring(l0, head, s) && Elsewhere(l0, l, changed) && forall x :: x in s ==> x !in changed
    ensures Ring(l, head, s)
  {
    forall i | 0 <= i < |s| ensures Joined(l, s, i) {
      assert Joined(l0, s, i);
    }
  }

  /** evdns_request_insert: at the end. */
  method Insert(l0: Links, head0: Link, e: nat, ghost s: seq<nat>) returns (l: Links, head: Link)
    requires Ring(l0, head0, s) && e !in s
    ensures Ring(l, head, s + [e]) && Elsewhere(l0, l, s + [e])
  {
    l, head := l0, head0;
    if head == NULL {
      head := To(e);
      l := Links(l.next[e := To(e)], l.prev[e := To(e)]);
      assert s + [e] == [e];
      assert Joined(l, [e], 0);
    } else {
      var first := head.n;
      assert Joined(l0, s, 0);
      var last := l.prev[first].n;
      assert last == s[|s| - 1];
      l := l.(prev := l.prev[e := To(last)]);
      l := l.(next := l.next[last := To(e)]);
      l := l.(next := l.next[e := To(first)]);
      l := l.(prev := l.prev[first := To(e)]);
      InsertRing(l0, head, e, s, l);
    }
  }

  lemma InsertRing(l0: Links, head: Link, e: nat, s: seq<nat>, l: Links)
    requires Ring(l0, head, s) && e !in s && s != []
    requires l.next == l0.next[s[|s| - 1] := To(e)][e := To(s[0])]
    requires l.prev == l0.prev[e := To(s[|s| - 1])][s[0] := To(e)]
    ensures Ring(l, head, s + [e]) && Elsewhere(l0, l, s + [e])
  {
    var t := s + [e];
    assert forall x :: x in t <==> x in s || x == e;
    forall i | 0 <= i < |t| ensures Joined(l, t, i) {
      if i < |s| {
        assert Joined(l0, s, i);
        assert s[i] == s[0] ==> i == 0;
        assert s[i] == s[|s| - 1] ==> i == |s| - 1;
      }
    }
  }

  /** evdns_request_remove */
  method Remove(l0: Links, head0: Link, e: nat, ghost s: seq<nat>) returns (l: Links, head: Link)
    requires Ring(l0, head0, s) && e in s
    ensures Ring(l, head, Less(s, e)) && Elsewhere(l0, l, s)
    ensures l.next.Keys == l0.next.Keys && l.prev.Keys == l0.prev.Keys
    ensures e in l.next && e in l.prev && l.next[e] == NULL && l.prev[e] == NULL
  {
    hide Less;
    ghost var k :| 0 <= k < |s| && s[k] == e;
    assert Joined(l0, s, k);
    l, head := l0, head0;
    if l.next[e] == To(e) {
      head := NULL;
      Single(l0, head0, s, k);
      l := Links(l.next[e := NULL], l.prev[e := NULL]);
      LessFirst(s, e);
    } else {
      var after, before := l.next[e].n, l.prev[e].n;
      Neighbours(l0, head0, s, k);
      l := l.(prev := l.prev[after := To(before)]);
      l := l.(next := l.next[before := To(after)]);
      if head == To(e) {
        head := To(after);
      }
      l := Links(l.next[e := NULL], l.prev[e := NULL]);
      RemoveRing(l0, head0, s, k, l);
      LessAt(s, k);
    }
  }

  lemma Single(l: Links, head: Link, s: seq<nat>, k: nat)
    requires Ring(l, head, s) && k < |s| && Joined(l, s, k) && After(s, k) == s[k]
    ensures s == [s[k]]
  {
  }

  lemma Neighbours(l: Links, head: Link, s: seq<nat>, k: nat)
    requires Ring(l, head, s) && k < |s| && After(s, k) != s[k]
    ensures |s| > 1 && Before(s, k) in l.next && After(s, k) in l.prev && After(s, k) in s && Before(s, k) in s
  {
    assert Joined(l, s, if k == 0 then |s| - 1 else k - 1);
    assert Joined(l, s, if k + 1 == |s| then 0 else k + 1);
  }

  lemma {:induction false} LessAt(s: seq<nat>, k: nat)
    requires Distinct(s) && k < |s|
    ensures Less(s, s[k]) == s[..k] + s[k + 1..]
  {
    if k > 0 {
      assert Distinct(s[1..]) && s[1..][k - 1] == s[k];
      LessAt(s[1..], k - 1);
      assert s[0] != s[k];
    }
  }

  lemma RemoveRing(l0: Links, head0: Link, s: seq<nat>, k: nat, l: Links)
    requires Ring(l0, head0, s) && k < |s| && |s| > 1
    requires l.next == l0.next[Before(s, k) := To(After(s, k))][s[k] := NULL]
    requires l.prev == l0.prev[After(s, k) := To(Before(s, k))][s[k] := NULL]
    ensures Ring(l, if head0 == To(s[k]) then To(After(s, k)) else head0, s[..k] + s[k + 1..])
    ensures Elsewhere(l0, l, s)
  {
    var t := s[..k] + s[k + 1..];
    assert s[k] in s;
    Neighbours1(s, k);
    forall i | 0 <= i < |t| ensures Joined(l, t, i) {
      RemovedAt(l0, head0, s, k, l, i);
    }
    forall i, j | 0 <= i < j < |t| ensures t[i] != t[j] {
      assert t[i] == s[if i < k then i else i + 1] && t[j] == s[if j < k then j else j + 1];
    }
  }

  lemma Neighbours1(s: seq<nat>, k: nat)
    requires k < |s|
    ensures After(s, k) in s && Before(s, k) in s
  {
  }

  lemma RemovedAt(l0: Links, head0: Link, s: seq<nat>, k: nat, l: Links, i: nat)
    requires Ring(l0, head0, s) && k < |s| && |s| > 1 && i < |s| - 1
    requires l.next == l0.next[Before(s, k) := To(After(s, k))][s[k] := NULL]
    requires l.prev == l0.prev[After(s, k) := To(Before(s, k))][s[k] := NULL]
    ensures Joined(l, s[..k] + s[k + 1..], i)
  {
    var t := s[..k] + s[k + 1..];
    var j := if i < k then i else i + 1;
    assert t[i] == s[j] && j != k;
    assert Joined(l0, s, j);
    assert s[j] != s[k];
    var b, a := if k == 0 then |s| - 1 else k - 1, if k + 1 == |s| then 0 else k + 1;
    assert Before(s, k) == s[b] && After(s, k) == s[a];
    assert s[j] == s[b] <==> j == b;
    assert s[j] == s[a] <==> j == a;
  }

  /** Moving the head on turns the ring. */
  lemma RingTurns(l: Links, head: Link, s: seq<nat>)
    requires Ring(l, head, s) && s != []
    ensures s[0] in l.next && Ring(l, l.next[s[0]], s[1..] + [s[0]])
  {
    var t := s[1..] + [s[0]];
    assert Joined(l, s, 0);
    forall i | 0 <= i < |t| ensures Joined(l, t, i) {
      assert Joined(l, s, if i + 1 == |s| then 0 else i + 1);
    }
    forall i, j | 0 <= i < j < |t| ensures t[i] != t[j] {
      assert t[i] == s[i + 1];
      assert t[j] == if j + 1 == |s| then s[0] else s[j + 1];
    }
  }
}
