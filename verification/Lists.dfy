/** Sequences without repetition, and taking an element out of one. */
module Lists {
  ghost predicate Distinct<T>(s: seq<T>) {
    forall i, j :: 0 <= i < j < |s| ==> s[i] != s[j]
  }

  /** Where x first is; the length if it is nowhere. */
  ghost function IndexOf(s: seq<nat>, x: nat): (i: nat)
    ensures x in s ==> i < |s| && s[i] == x
  {
    if s == [] || s[0] == x then 0 else 1 + IndexOf(s[1..], x)
  }

  ghost function Less(s: seq<nat>, w: nat): seq<nat> {
    if s == [] then [] else if s[0] == w then s[1..] else [s[0]] + Less(s[1..], w)
  }

  lemma {:induction false} LessIn(s: seq<nat>, w: nat)
    requires Distinct(s)
    ensures Distinct(Less(s, w))
    ensures forall x :: x in Less(s, w) <==> x in s && x != w
  {
    if s != [] {
      assert s == [s[0]] + s[1..];
      assert Distinct(s[1..]);
      LessIn(s[1..], w);
      if s[0] == w {
        assert w !in s[1..];
      } else {
        var t := Less(s[1..], w);
        assert forall x :: x in [s[0]] + t <==> x == s[0] || x in t;
        assert s[0] !in s[1..];
      }
    }
  }

  lemma {:induction false} LessSplit(done: seq<nat>, rest: seq<nat>, w: nat)
    requires w !in done
    ensures Less(done + rest, w) == done + Less(rest, w)
  {
    if done == [] {
      assert done + rest == rest;
    } else {
      assert (done + rest)[1..] == done[1..] + rest;
      LessSplit(done[1..], rest, w);
    }
  }

  lemma {:induction false} LessAbsent(s: seq<nat>, w: nat)
    requires w !in s
    ensures Less(s, w) == s
  {
    if s != [] {
      LessAbsent(s[1..], w);
    }
  }

  lemma LessFirst(s: seq<nat>, w: nat)
    requires s != [] && s[0] == w
    ensures Less(s, w) == s[1..]
  {
  }

  /** TAILQ_REMOVE */
  method TailqRemove(q: seq<nat>, e: nat) returns (r: seq<nat>)
    requires e in q
    ensures r == Less(q, e)
  {
    hide Less;
    var i := 0;
    while q[i] != e
      invariant 0 <= i < |q| && e !in q[..i]
      invariant e in q[i..]
      decreases |q| - i
    {
      assert q[i..] == [q[i]] + q[i + 1..];
      assert q[..i + 1] == q[..i] + [q[i]];
      i := i + 1;
    }
    assert q == q[..i] + q[i..];
    LessSplit(q[..i], q[i..], e);
    LessFirst(q[i..], e);
    assert q[i..][1..] == q[i + 1..];
    return q[..i] + q[i + 1..];
  }
}
