/** evdns's nameservers: a ring that is turned as servers are picked, some of
    whose servers are thought to be down. */
module DnsServers {
  import opened Lists
  import opened Rings

  /** `next` and `prev`, server_head, `state` and global_good_nameservers. */
  datatype Servers = Servers(links: Links, head: Link, up: map<nat, bool>, good: int)

  ghost function Good(up: map<nat, bool>, s: seq<nat>): set<nat> {
    set x | x in s && x in up && up[x]
  }

  /** `s` are the servers from the head on. */
  ghost predicate Inv(v: Servers, s: seq<nat>) {
    && Ring(v.links, v.head, s)
    && (forall x :: x in s ==> x in v.up)
    && v.good == |Good(v.up, s)|
  }

  lemma GoodTurned(up: map<nat, bool>, s: seq<nat>)
    requires s != []
    ensures Good(up, s[1..] + [s[0]]) == Good(up, s)
  {
    assert s == [s[0]] + s[1..];
    assert forall x :: x in s[1..] + [s[0]] <==> x in s;
  }

  /** server_head = server_head->next */
  method Turn(v0: Servers, ghost s: seq<nat>) returns (v: Servers)
    requires Inv(v0, s) && s != []
    ensures v == v0.(head := v.head) && Inv(v, s[1..] + [s[0]])
  {
    RingTurns(v0.links, v0.head, s);
    GoodTurned(v0.up, s);
    v := v0.(head := v0.links.next[v0.head.n]);
    assert s == [s[0]] + s[1..];
  }

  lemma GoodSome(up: map<nat, bool>, s: seq<nat>, k: nat)
    requires FirstUp(up, s, k)
    ensures |Good(up, s)| > 0
  {
    assert s[k] in Good(up, s);
  }

  lemma NoneGood(up: map<nat, bool>, s: seq<nat>)
    requires forall x :: x in s ==> x in up && !up[x]
    ensures Good(up, s) == {}
  {
  }

  /** The first server from the head on that is up was picked, and the ring turned
      past it; with none up, the ring turned by one. */
  ghost predicate TurnedPast(v: Servers, s0: seq<nat>, picked: Link, s: seq<nat>) {
    if v.good > 0 then
      exists k :: 0 <= k < |s0| && FirstUp(v.up, s0, k) && picked == To(s0[k]) && s == s0[k + 1..] + s0[..k + 1]
    else if s0 == [] then s == [] && picked == NULL
    else s == s0[1..] + [s0[0]] && picked == To(s[0])
  }

  ghost predicate FirstUp(up: map<nat, bool>, s: seq<nat>, k: nat) {
    k < |s| && s[k] in up && up[s[k]] && forall i :: 0 <= i < k ==> s[i] in up && !up[s[i]]
  }

  /** nameserver_pick: a server that is up whenever there is one; NULL only if
      there are no servers. The ring ends up turned past the one picked. */
  method Pick(v0: Servers, ghost s0: seq<nat>) returns (v: Servers, picked: Link, ghost s: seq<nat>)
    requires Inv(v0, s0)
    ensures Inv(v, s) && v == v0.(head := v.head) && (forall x :: x in s <==> x in s0) && |s| == |s0|
    ensures picked == NULL <==> s0 == []
    ensures picked != NULL ==> picked.n in s0
    ensures v0.good > 0 ==> picked != NULL && v0.up[picked.n]
    ensures TurnedPast(v0, s0, picked, s)
  {
    hide Ring, Good;
    v, picked, s := v0, NULL, s0;
    HeadIs(v0, s0);
    if v.head == NULL {
      NoneGood(v.up, s);
      return;
    }
    if v.good == 0 {
      v := Turn(v, s);
      s := s[1..] + [s[0]];
      Turned(s0);
      HeadIs(v, s);
      picked := v.head;
      return;
    }
    var startedAt := v.head;
    ghost var k := 0;
    assert s0[0..] + s0[..0] == s0;
    while true
      invariant 0 <= k < |s0| && s == s0[k..] + s0[..k] && Inv(v, s) && v == v0.(head := v.head)
      invariant forall i :: 0 <= i < k ==> !v0.up[s0[i]]
      decreases |s0| - k
    {
      HeadIs(v, s);
      Rotated(s0, k);
      if v.up[v.head.n] {
        picked := v.head;
        v := Turn(v, s);
        Turned(s);
        s := s[1..] + [s[0]];
        assert FirstUp(v0.up, s0, k);
        GoodSome(v0.up, s0, k);
        return;
      }
      v := Turn(v, s);
      s := s[1..] + [s[0]];
      k := k + 1;
      HeadIs(v, s);
      if k == |s0| {
        assert forall i :: 0 <= i < |s0| ==> !v0.up[s0[i]];
        NoneGood(v0.up, s0);
        assert false;
      }
      HeadMoved(v0, s0, k);
      Rotated(s0, k);
      if v.head == startedAt {
        assert false;
      }
    }
  }

  lemma HeadIs(v: Servers, s: seq<nat>)
    requires Inv(v, s)
    ensures v.head == (if s == [] then NULL else To(s[0])) && Distinct(s)
  {
  }

  lemma Turned(s: seq<nat>)
    requires s != []
    ensures forall x :: x in s[1..] + [s[0]] <==> x in s
  {
    assert s == [s[0]] + s[1..];
  }

  lemma Rotated(s: seq<nat>, k: nat)
    requires k < |s|
    ensures var t := s[k..] + s[..k];
      t[0] == s[k] && (forall x :: x in t <==> x in s) && t[1..] + [t[0]] == s[k + 1..] + s[..k + 1]
  {
    var t := s[k..] + s[..k];
    assert s == s[..k] + s[k..];
    assert s[..k + 1] == s[..k] + [s[k]];
  }

  lemma HeadMoved(v0: Servers, s0: seq<nat>, k: nat)
    requires Inv(v0, s0) && 0 < k < |s0|
    ensures s0[k] != s0[0]
  {
  }

  lemma GoodOff(up: map<nat, bool>, s: seq<nat>, x: nat)
    requires x in s && x in up && up[x]
    ensures Good(up[x := false], s) == Good(up, s) - {x} && |Good(up[x := false], s)| == |Good(up, s)| - 1
  {
    assert Good(up[x := false], s) == Good(up, s) - {x};
  }

  lemma GoodOn(up: map<nat, bool>, s: seq<nat>, x: nat)
    requires x in s && x in up && !up[x]
    ensures Good(up[x := true], s) == Good(up, s) + {x} && |Good(up[x := true], s)| == |Good(up, s)| + 1
  {
    assert Good(up[x := true], s) == Good(up, s) + {x};
  }

  /** The accounting of nameserver_failed and nameserver_up. */
  method Down(v0: Servers, x: nat, ghost s: seq<nat>) returns (v: Servers)
    requires Inv(v0, s) && x in s
    ensures Inv(v, s) && v.up == v0.up[x := false] && v.links == v0.links && v.head == v0.head
    ensures x in v0.up && v.good == v0.good - if v0.up[x] then 1 else 0
  {
    hide Ring;
    v := v0;
    if !v.up[x] {
      assert v.up[x := false] == v.up;
      return;
    }
    GoodOff(v.up, s, x);
    v := v.(good := v.good - 1, up := v.up[x := false]);
  }

  method Up(v0: Servers, x: nat, ghost s: seq<nat>) returns (v: Servers)
    requires Inv(v0, s) && x in s
    ensures Inv(v, s) && v.up == v0.up[x := true] && v.links == v0.links && v.head == v0.head
    ensures x in v0.up && v.good == v0.good + if v0.up[x] then 0 else 1
  {
    hide Ring;
    v := v0;
    if v.up[x] {
      assert v.up[x := true] == v.up;
      return;
    }
    GoodOn(v.up, s, x);
    v := v.(up := v.up[x := true], good := v.good + 1);
  }
}
