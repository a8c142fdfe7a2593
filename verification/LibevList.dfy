/** libev's singly linked watcher lists: a head and the watchers' `next`. */
module LibevList {
  import opened Lists

  datatype Ptr = NULL | To(w: nat)

  type Links = map<nat, Ptr>

  /** From p, the links run through exactly `s`. */
  ghost predicate Linked(next: Links, p: Ptr, s: seq<nat>)
    decreases s
  {
    if s == [] then p == NULL
    else p == To(s[0]) && s[0] in next && Linked(next, next[s[0]], s[1..])
  }

  lemma {:induction false} LinkedFrame(next: Links, next1: Links, p: Ptr, s: seq<nat>)
    requires Linked(next, p, s)
    requires forall w :: w in s ==> w in next1 && w in next && next1[w] == next[w]
    ensures Linked(next1, p, s)
    decreases s
  {
    if s != [] {
      LinkedFrame(next, next1, next[s[0]], s[1..]);
    }
  }

  lemma {:induction false} LinkedKnown(next: Links, p: Ptr, s: seq<nat>)
    requires Linked(next, p, s)
    ensures forall w :: w in s ==> w in next
    decreases s
  {
    if s != [] {
      LinkedKnown(next, next[s[0]], s[1..]);
      assert s == [s[0]] + s[1..];
    }
  }

  lemma {:induction false} LinkedUnique(next: Links, p: Ptr, s: seq<nat>, t: seq<nat>)
    requires Linked(next, p, s) && Linked(next, p, t)
    ensures s == t
    decreases s
  {
    if s != [] && t != [] {
      LinkedUnique(next, next[s[0]], s[1..], t[1..]);
      assert s == [s[0]] + s[1..] && t == [t[0]] + t[1..];
    }
  }

  method WlistAdd(next0: Links, head0: Ptr, elem: nat, ghost s: seq<nat>) returns (next: Links, head: Ptr)
    requires Linked(next0, head0, s) && elem !in s
    ensures next == next0[elem := head0]
    ensures Linked(next, head, [elem] + s)
  {
    next := next0[elem := head0];
    head := To(elem);
    LinkedKnown(next0, head0, s);
    LinkedFrame(next0, next, head0, s);
    assert ([elem] + s)[1..] == s;
  }

  /** Where wlist_del stands: at the list head or at the `next` of a watcher. */
  datatype Spot = Head | NextOf(w: nat)

  /** The list before the spot, and the one that starts there. */
  ghost predicate At(next: Links, head: Ptr, spot: Spot, done: seq<nat>, rest: seq<nat>) {
    && Linked(next, head, done + rest)
    && (spot == Head <==> done == [])
    && (spot.NextOf? ==> spot.w in next && spot.w == done[|done| - 1])
  }

  lemma {:induction false} LinkedAfter(next: Links, p: Ptr, done: seq<nat>, rest: seq<nat>)
    requires Linked(next, p, done + rest) && done != []
    ensures done[|done| - 1] in next && Linked(next, next[done[|done| - 1]], rest)
    decreases done
  {
    assert (done + rest)[1..] == done[1..] + rest;
    if |done| == 1 {
      assert done[1..] + rest == rest;
    } else {
      LinkedAfter(next, next[done[0]], done[1..], rest);
    }
  }

  /** Storing through the spot replaces the list from there on. */
  lemma {:induction false} LinkedSplice(next: Links, p: Ptr, done: seq<nat>, rest: seq<nat>, q: Ptr, rest1: seq<nat>)
    requires Linked(next, p, done + rest) && done != [] && Distinct(done + rest)
    requires Linked(next, q, rest1) && forall w :: w in rest1 ==> w in rest
    ensures Linked(next[done[|done| - 1] := q], p, done + rest1)
    decreases done
  {
    var next1 := next[done[|done| - 1] := q];
    assert (done + rest)[1..] == done[1..] + rest;
    assert (done + rest1)[1..] == done[1..] + rest1;
    assert (done + rest)[0] == done[0];
    if |done| == 1 {
      assert done[1..] + rest1 == rest1;
      LinkedKnown(next, q, rest1);
      forall w | w in rest1 ensures w != done[0] {
        var i :| 0 <= i < |rest| && rest[i] == w;
        assert (done + rest)[1 + i] == w;
      }
      LinkedFrame(next, next1, q, rest1);
    } else {
      assert Distinct(done[1..] + rest);
      LinkedSplice(next, next[done[0]], done[1..], rest, q, rest1);
      assert done[|done| - 1] == (done + rest)[|done| - 1];
      assert next1[done[0]] == next[done[0]];
    }
  }

  /** Unlinks elem, if it is there, by a walk over the pointers to watchers. */
  method WlistDel(next0: Links, head0: Ptr, elem: nat, ghost s: seq<nat>) returns (next: Links, head: Ptr)
    requires Linked(next0, head0, s) && Distinct(s)
    ensures Linked(next, head, Less(s, elem))
    ensures next.Keys == next0.Keys
    ensures forall w :: w in next0 && w !in s ==> next[w] == next0[w]
  {
    hide Less;
    next, head := next0, head0;
    var spot := Head;
    ghost var done, rest: seq<nat> := [], s;
    assert done + rest == s;
    while (if spot == Head then head else next[spot.w]) != NULL
      invariant next == next0 && head == head0
      invariant done + rest == s && At(next, head, spot, done, rest) && elem !in done
      decreases |rest|
    {
      var here := (if spot == Head then head else next[spot.w]).w;
      HereIs(next, head, spot, done, rest);
      if here == elem {
        LinkedKnown(next, head, s);
        LessSplit(done, rest, elem);
        LessFirst(rest, elem);
        if spot == Head {
          head := next[elem];
          assert done + Less(rest, elem) == rest[1..];
        } else {
          LinkedSplice(next, head, done, rest, next[elem], rest[1..]);
          next := next[spot.w := next[elem]];
          assert spot.w == s[|done| - 1];
        }
        return;
      }
      done, rest := done + [rest[0]], rest[1..];
      spot := NextOf(here);
    }
    HereIs(next, head, spot, done, rest);
    assert s == done;
    LessAbsent(s, elem);
  }

  lemma HereIs(next: Links, head: Ptr, spot: Spot, done: seq<nat>, rest: seq<nat>)
    requires At(next, head, spot, done, rest)
    ensures Linked(next, if spot == Head then head else next[spot.w], rest)
    ensures rest != [] ==> rest[0] in next && Linked(next, next[rest[0]], rest[1..])
  {
    if spot != Head {
      LinkedAfter(next, head, done, rest);
    } else {
      assert done + rest == rest;
    }
  }
}
