/** evdns's requests: rings of inflight requests, by transaction id, and a ring
    of those that wait, with the counters that stand for their lengths. */
module DnsRequests {
  import opened Lists
  import opened Rings
  import V = DnsServers

  const NO_ID := 0xffff

  /** req_heads and req_waiting_head; `trans_id`, `ns`, `tx_count`, `next` and
      `prev` of every request; the two counters and the limit. */
  datatype Reqs = Reqs(
    heads: seq<Link>,
    waitingHead: Link,
    transId: map<nat, nat>,
    ns: map<nat, Link>,
    txCount: map<nat, nat>,
    links: Links,
    inflight: int,
    waiting: int,
    max: int)

  /** The rings as sequences. */
  datatype Shadow = Shadow(buckets: seq<seq<nat>>, waiting: seq<nat>)

  ghost predicate Known(q: Reqs, r: nat) {
    r in q.transId && r in q.ns && r in q.txCount
  }

  /** REQ_HEAD */
  function Bucket(q: Reqs, r: nat): (i: nat)
    requires r in q.transId && q.heads != []
    ensures i < |q.heads| && (q.transId[r] < |q.heads| ==> i == q.transId[r])
  {
    q.transId[r] % |q.heads|
  }

  /** An inflight request is in the bucket of its id, which is a real one, and has
      a nameserver. */
  ghost predicate InflightOk(q: Reqs, r: nat, i: nat)
    requires q.heads != []
  {
    Known(q, r) && Bucket(q, r) == i && q.transId[r] < NO_ID && q.ns[r] != NULL
  }

  ghost predicate WaitingOk(q: Reqs, r: nat) {
    Known(q, r) && q.ns[r] == NULL
  }

  ghost predicate BucketOk(q: Reqs, g: Shadow, i: nat)
    requires i < |q.heads| == |g.buckets|
  {
    Ring(q.links, q.heads[i], g.buckets[i]) && forall r :: r in g.buckets[i] ==> InflightOk(q, r, i)
  }

  ghost predicate RingsOk(q: Reqs, g: Shadow) {
    && 0 < |q.heads| == |g.buckets|
    && (forall i :: 0 <= i < |q.heads| ==> BucketOk(q, g, i))
    && Ring(q.links, q.waitingHead, g.waiting)
    && (forall r :: r in g.waiting ==> WaitingOk(q, r))
  }

  ghost function Total(buckets: seq<seq<nat>>): nat {
    if buckets == [] then 0 else |buckets[0]| + Total(buckets[1..])
  }

  ghost predicate Counted(q: Reqs, g: Shadow) {
    q.inflight == Total(g.buckets) && q.waiting == |g.waiting|
  }

  /** r is in some bucket. */
  ghost predicate IsInflight(g: Shadow, r: nat) {
    exists i :: 0 <= i < |g.buckets| && r in g.buckets[i]
  }

  /** A request inflight has this id. */
  ghost predicate Taken(transId: map<nat, nat>, g: Shadow, id: nat) {
    exists r :: IsInflight(g, r) && r in transId && transId[r] == id
  }

  /** No two requests inflight have the same id. */
  ghost predicate Unique(transId: map<nat, nat>, g: Shadow) {
    forall x, y :: IsInflight(g, x) && IsInflight(g, y) && x in transId && y in transId && transId[x] == transId[y] ==> x == y
  }

  ghost predicate Inv(q: Reqs, g: Shadow) {
    RingsOk(q, g) && Counted(q, g) && q.max >= 1 && |q.heads| == (q.max + 4) / 5 && Unique(q.transId, g)
  }

  /** A request that is in no ring. */
  ghost predicate Loose(q: Reqs, g: Shadow, r: nat)
    requires RingsOk(q, g)
  {
    Known(q, r) && r !in g.waiting && forall i :: 0 <= i < |g.buckets| ==> r !in g.buckets[i]
  }

  lemma {:induction false} TotalUpdate(buckets: seq<seq<nat>>, i: nat, s: seq<nat>)
    requires i < |buckets|
    ensures Total(buckets[i := s]) == Total(buckets) - |buckets[i]| + |s|
  {
    if i == 0 {
      assert buckets[0 := s][1..] == buckets[1..];
    } else {
      TotalUpdate(buckets[1..], i - 1, s);
      assert buckets[i := s][1..] == buckets[1..][i - 1 := s];
    }
  }

  /** What changes when a request goes into or out of a ring: its own fields and
      the links of that ring. */
  ghost predicate Touched(q0: Reqs, q: Reqs, r: nat, s: seq<nat>) {
    && |q.heads| == |q0.heads|
    && Elsewhere(q0.links, q.links, s)
    && forall x :: x != r ==> SameRequest(q0, q, x)
  }

  ghost predicate SameRequest(q0: Reqs, q: Reqs, x: nat) {
    Known(q0, x) ==> Known(q, x) && q.transId[x] == q0.transId[x] && q.ns[x] == q0.ns[x] && q.txCount[x] == q0.txCount[x]
  }

  /** A bucket that shares no request with what changed stays in order. */
  lemma BucketStays(q0: Reqs, g: Shadow, q: Reqs, r: nat, s: seq<nat>, g1: Shadow, i: nat)
    requires i < |q0.heads| == |g.buckets| && BucketOk(q0, g, i) && Touched(q0, q, r, s)
    requires r in s && forall x :: x in g.buckets[i] ==> x !in s
    requires q.heads[i] == q0.heads[i] && |g1.buckets| == |g.buckets| && g1.buckets[i] == g.buckets[i]
    ensures BucketOk(q, g1, i)
  {
    RingFrame(q0.links, q.links, q0.heads[i], g.buckets[i], s);
    forall x | x in g.buckets[i] ensures InflightOk(q, x, i) {
      assert InflightOk(q0, x, i) && SameRequest(q0, q, x);
    }
  }

  lemma WaitingStays(q0: Reqs, g: Shadow, q: Reqs, r: nat, s: seq<nat>)
    requires Ring(q0.links, q0.waitingHead, g.waiting) && (forall x :: x in g.waiting ==> WaitingOk(q0, x)) &&
      Touched(q0, q, r, s)
    requires r in s && forall x :: x in g.waiting ==> x !in s
    requires q.waitingHead == q0.waitingHead
    ensures Ring(q.links, q.waitingHead, g.waiting) && forall x :: x in g.waiting ==> WaitingOk(q, x)
  {
    RingFrame(q0.links, q.links, q0.waitingHead, g.waiting, s);
    forall x | x in g.waiting ensures WaitingOk(q, x) {
      assert WaitingOk(q0, x) && SameRequest(q0, q, x);
    }
  }

  /** Different rings share no request. */
  lemma Apart(q: Reqs, g: Shadow, i: nat, j: nat, x: nat)
    requires RingsOk(q, g) && i < |g.buckets| && j < |g.buckets| && x in g.buckets[i]
    ensures x in g.buckets[j] ==> i == j
    ensures x !in g.waiting
  {
    hide Ring;
    assert BucketOk(q, g, i) && BucketOk(q, g, j);
    assert InflightOk(q, x, i);
    if x in g.buckets[j] {
      assert InflightOk(q, x, j);
    }
    assert x in g.waiting ==> WaitingOk(q, x);
  }

  /** Into the bucket of its id. */
  method InsertBucket(q0: Reqs, r: nat, ghost g: Shadow) returns (q: Reqs, ghost g1: Shadow)
    requires RingsOk(q0, g) && Loose(q0, g, r) && q0.transId[r] < NO_ID && q0.ns[r] != NULL
    ensures RingsOk(q, g1) && q == q0.(heads := q.heads, links := q.links) && |q.heads| == |q0.heads|
    ensures var i := Bucket(q0, r); g1 == g.(buckets := g.buckets[i := g.buckets[i] + [r]])
    ensures Elsewhere(q0.links, q.links, g.buckets[Bucket(q0, r)] + [r])
  {
    hide Ring;
    var i := Bucket(q0, r);
    assert BucketOk(q0, g, i);
    var links, head := Insert(q0.links, q0.heads[i], r, g.buckets[i]);
    q := q0.(links := links, heads := q0.heads[i := head]);
    g1 := g.(buckets := g.buckets[i := g.buckets[i] + [r]]);
    PutRings(q0, g, r, q, g1);
  }

  /** The same, and the counter. */
  method PutInflight(q0: Reqs, r: nat, ghost g: Shadow) returns (q: Reqs, ghost g1: Shadow)
    requires RingsOk(q0, g) && Counted(q0, g) && Loose(q0, g, r) && q0.transId[r] < NO_ID && q0.ns[r] != NULL
    ensures RingsOk(q, g1) && Counted(q, g1)
    ensures q == q0.(heads := q.heads, links := q.links, inflight := q0.inflight + 1) && |q.heads| == |q0.heads|
    ensures var i := Bucket(q0, r); g1 == g.(buckets := g.buckets[i := g.buckets[i] + [r]])
  {
    hide Ring;
    TotalUpdate(g.buckets, Bucket(q0, r), g.buckets[Bucket(q0, r)] + [r]);
    q, g1 := InsertBucket(q0, r, g);
    ghost var q1 := q;
    q := q.(inflight := q.inflight + 1);
    SameRings(q1, g1, q);
  }

  lemma SameRings(q0: Reqs, g: Shadow, q: Reqs)
    requires RingsOk(q0, g) && q == q0.(inflight := q.inflight, waiting := q.waiting, max := q.max)
    ensures RingsOk(q, g)
  {
    hide Ring;
    forall j | 0 <= j < |q.heads| ensures BucketOk(q, g, j) {
      assert BucketOk(q0, g, j);
      forall x | x in g.buckets[j] ensures InflightOk(q, x, j) {
        assert InflightOk(q0, x, j);
      }
    }
    forall x | x in g.waiting ensures WaitingOk(q, x) {
      assert WaitingOk(q0, x);
    }
  }

  lemma PutRings(q0: Reqs, g: Shadow, r: nat, q: Reqs, g1: Shadow)
    requires RingsOk(q0, g) && Loose(q0, g, r) && q0.transId[r] < NO_ID && q0.ns[r] != NULL
    requires q == q0.(heads := q.heads, links := q.links, inflight := q.inflight)
    requires var i := Bucket(q0, r); var s := g.buckets[i] + [r];
      && |q.heads| == |q0.heads| && q.heads == q0.heads[i := q.heads[i]]
      && g1 == g.(buckets := g.buckets[i := s])
      && Ring(q.links, q.heads[i], s) && Elsewhere(q0.links, q.links, s)
    ensures RingsOk(q, g1)
  {
    hide Ring, Elsewhere;
    var i := Bucket(q0, r);
    var s := g.buckets[i] + [r];
    assert forall x :: x in s <==> x in g.buckets[i] || x == r;
    assert Touched(q0, q, r, s);
    forall j | 0 <= j < |q.heads| ensures BucketOk(q, g1, j) {
      assert BucketOk(q0, g, j);
      if j != i {
        forall x | x in g.buckets[j] ensures x !in s {
          Apart(q0, g, j, i, x);
        }
        BucketStays(q0, g, q, r, s, g1, j);
      } else {
        forall x | x in s ensures InflightOk(q, x, i) {
          assert x != r ==> InflightOk(q0, x, i);
        }
      }
    }
    forall x | x in g.waiting ensures x !in s {
      if x in g.buckets[i] {
        Apart(q0, g, i, i, x);
      }
    }
    WaitingStays(q0, g, q, r, s);
  }

  /** Out of its bucket. */
  method RemoveBucket(q0: Reqs, r: nat, ghost g: Shadow) returns (q: Reqs, ghost g1: Shadow)
    requires RingsOk(q0, g) && Known(q0, r) && r in g.buckets[Bucket(q0, r)]
    ensures RingsOk(q, g1) && Loose(q, g1, r) && q == q0.(heads := q.heads, links := q.links) && |q.heads| == |q0.heads|
    ensures var i := Bucket(q0, r); g1 == g.(buckets := g.buckets[i := Less(g.buckets[i], r)])
    ensures Elsewhere(q0.links, q.links, g.buckets[Bucket(q0, r)])
  {
    hide Ring, Less;
    var i := Bucket(q0, r);
    assert BucketOk(q0, g, i);
    var links, head := Remove(q0.links, q0.heads[i], r, g.buckets[i]);
    q := q0.(links := links, heads := q0.heads[i := head]);
    g1 := g.(buckets := g.buckets[i := Less(g.buckets[i], r)]);
    TakeRings(q0, g, r, q, g1);
  }

  /** The same, and the counter. */
  method TakeInflight(q0: Reqs, r: nat, ghost g: Shadow) returns (q: Reqs, ghost g1: Shadow)
    requires RingsOk(q0, g) && Counted(q0, g) && Known(q0, r) && r in g.buckets[Bucket(q0, r)]
    ensures RingsOk(q, g1) && Counted(q, g1) && Loose(q, g1, r)
    ensures q == q0.(heads := q.heads, links := q.links, inflight := q0.inflight - 1) && |q.heads| == |q0.heads|
    ensures var i := Bucket(q0, r); g1 == g.(buckets := g.buckets[i := Less(g.buckets[i], r)])
  {
    hide Ring, Less;
    var i := Bucket(q0, r);
    LessLength(g.buckets[i], r);
    TotalUpdate(g.buckets, i, Less(g.buckets[i], r));
    q, g1 := RemoveBucket(q0, r, g);
    ghost var q1 := q;
    q := q.(inflight := q.inflight - 1);
    SameRings(q1, g1, q);
  }

  lemma RingDistinct(l: Links, head: Link, s: seq<nat>)
    requires Ring(l, head, s)
    ensures Distinct(s) && head == if s == [] then NULL else To(s[0])
  {
  }

  lemma {:induction false} LessLength(s: seq<nat>, x: nat)
    requires x in s
    ensures |Less(s, x)| == |s| - 1
  {
    if s[0] != x {
      assert s == [s[0]] + s[1..];
      LessLength(s[1..], x);
    }
  }

  lemma TakeRings(q0: Reqs, g: Shadow, r: nat, q: Reqs, g1: Shadow)
    requires RingsOk(q0, g) && Known(q0, r) && r in g.buckets[Bucket(q0, r)]
    requires q == q0.(heads := q.heads, links := q.links, inflight := q.inflight)
    requires var i := Bucket(q0, r); var s := g.buckets[i];
      && |q.heads| == |q0.heads| && q.heads == q0.heads[i := q.heads[i]]
      && g1 == g.(buckets := g.buckets[i := Less(s, r)])
      && Ring(q.links, q.heads[i], Less(s, r)) && Elsewhere(q0.links, q.links, s)
    ensures RingsOk(q, g1) && Loose(q, g1, r)
  {
    hide Ring, Elsewhere, Less;
    var i := Bucket(q0, r);
    var s := g.buckets[i];
    assert BucketOk(q0, g, i);
    RingDistinct(q0.links, q0.heads[i], s);
    LessIn(s, r);
    assert Touched(q0, q, r, s);
    forall j | 0 <= j < |q.heads| ensures BucketOk(q, g1, j) && r !in g1.buckets[j] {
      assert BucketOk(q0, g, j);
      if j != i {
        forall x | x in s ensures x !in g.buckets[j] {
          Apart(q0, g, i, j, x);
        }
        BucketStays(q0, g, q, r, s, g1, j);
      } else {
        forall x | x in Less(s, r) ensures InflightOk(q, x, i) {
          assert InflightOk(q0, x, i);
        }
      }
    }
    forall x | x in s ensures x !in g.waiting {
      Apart(q0, g, i, i, x);
    }
    WaitingStays(q0, g, q, r, s);
  }

  /** To the end of the waiting ring. */
  method PutWaiting(q0: Reqs, r: nat, ghost g: Shadow) returns (q: Reqs, ghost g1: Shadow)
    requires RingsOk(q0, g) && Counted(q0, g) && Loose(q0, g, r) && q0.ns[r] == NULL
    ensures RingsOk(q, g1) && Counted(q, g1)
    ensures q == q0.(waitingHead := q.waitingHead, links := q.links, waiting := q0.waiting + 1)
    ensures g1 == g.(waiting := g.waiting + [r])
  {
    hide Ring;
    var links, head := Insert(q0.links, q0.waitingHead, r, g.waiting);
    q := q0.(links := links, waitingHead := head, waiting := q0.waiting + 1);
    g1 := g.(waiting := g.waiting + [r]);
    WaitRings(q0, g, r, q, g1, g.waiting + [r]);
  }

  /** Out of the waiting ring. */
  method TakeWaiting(q0: Reqs, r: nat, ghost g: Shadow) returns (q: Reqs, ghost g1: Shadow)
    requires RingsOk(q0, g) && Counted(q0, g) && r in g.waiting
    ensures RingsOk(q, g1) && Counted(q, g1) && Loose(q, g1, r)
    ensures q == q0.(waitingHead := q.waitingHead, links := q.links, waiting := q0.waiting - 1)
    ensures g1 == g.(waiting := Less(g.waiting, r))
  {
    hide Ring, Less;
    var links, head := Remove(q0.links, q0.waitingHead, r, g.waiting);
    q := q0.(links := links, waitingHead := head, waiting := q0.waiting - 1);
    g1 := g.(waiting := Less(g.waiting, r));
    RingDistinct(q0.links, q0.waitingHead, g.waiting);
    LessLength(g.waiting, r);
    LessIn(g.waiting, r);
    assert WaitingOk(q0, r);
    WaitRings(q0, g, r, q, g1, g.waiting);
    forall i | 0 <= i < |g1.buckets| ensures r !in g1.buckets[i] {
      if r in g.buckets[i] {
        Apart(q0, g, i, i, r);
      }
    }
  }

  lemma WaitRings(q0: Reqs, g: Shadow, r: nat, q: Reqs, g1: Shadow, s: seq<nat>)
    requires RingsOk(q0, g) && WaitingOk(q0, r) && r in s && Elsewhere(q0.links, q.links, s)
    requires q == q0.(waitingHead := q.waitingHead, links := q.links, waiting := q.waiting)
    requires g1 == g.(waiting := g1.waiting) && Ring(q.links, q.waitingHead, g1.waiting)
    requires forall x :: x in s ==> x in g.waiting || x == r
    requires forall x :: x in g1.waiting ==> x in s
    ensures RingsOk(q, g1)
  {
    hide Ring, Elsewhere;
    assert Touched(q0, q, r, s);
    forall j | 0 <= j < |q.heads| ensures BucketOk(q, g1, j) {
      assert BucketOk(q0, g, j);
      forall x | x in g.buckets[j] ensures x !in s {
        Apart(q0, g, j, j, x);
        assert InflightOk(q0, x, j);
      }
      BucketStays(q0, g, q, r, s, g1, j);
    }
    forall x | x in g1.waiting ensures WaitingOk(q, x) {
      assert x != r ==> WaitingOk(q0, x);
    }
  }

  /** A request that is in no ring may change. */
  lemma LooseChanges(q0: Reqs, g: Shadow, r: nat, q: Reqs)
    requires RingsOk(q0, g) && Loose(q0, g, r)
    requires q.heads == q0.heads && q.waitingHead == q0.waitingHead && q.links == q0.links
    requires forall x :: x != r ==> SameRequest(q0, q, x)
    ensures RingsOk(q, g) && (Known(q, r) ==> Loose(q, g, r))
  {
    hide Ring;
    forall j | 0 <= j < |q.heads| ensures BucketOk(q, g, j) {
      assert BucketOk(q0, g, j);
      forall x | x in g.buckets[j] ensures InflightOk(q, x, j) {
        assert InflightOk(q0, x, j) && SameRequest(q0, q, x);
      }
    }
    forall x | x in g.waiting ensures WaitingOk(q, x) {
      assert WaitingOk(q0, x) && SameRequest(q0, q, x);
    }
  }

  /** The k requests that waited longest went inflight. */
  ghost predicate Promoted(g0: Shadow, g: Shadow, k: int) {
    && 0 <= k <= |g0.waiting| && g.waiting == g0.waiting[k..]
    && forall x :: IsInflight(g, x) <==> IsInflight(g0, x) || x in g0.waiting[..k]
  }

  /** r went inflight, and that is all. */
  ghost predicate Joins(g0: Shadow, g: Shadow, r: nat) {
    g.waiting == g0.waiting && forall x :: IsInflight(g, x) <==> IsInflight(g0, x) || x == r
  }

  /** r left, and the k requests that waited longest went inflight. */
  ghost predicate Leaves(g0: Shadow, g: Shadow, r: nat, wasInflight: bool, k: int) {
    var w := if wasInflight then g0.waiting else Less(g0.waiting, r);
    && 0 <= k <= |w| && g.waiting == w[k..]
    && forall x :: IsInflight(g, x) <==> (IsInflight(g0, x) && x != r) || x in w[..k]
  }

  lemma PromotedNone(g: Shadow)
    ensures Promoted(g, g, 0)
  {
  }

  lemma PromotedMore(g0: Shadow, g: Shadow, k: int, r: nat, i: nat, g1: Shadow)
    requires Promoted(g0, g, k) && g.waiting != [] && r == g.waiting[0] && i < |g.buckets|
    requires g1 == Shadow(g.buckets[i := g.buckets[i] + [r]], Less(g.waiting, r))
    ensures Promoted(g0, g1, k + 1)
  {
    var gw := g.(waiting := g1.waiting);
    OneMore(gw, r, i, g1);
    assert g0.waiting[..k + 1] == g0.waiting[..k] + [r];
    forall x ensures IsInflight(gw, x) <==> IsInflight(g, x) {
      assert gw.buckets == g.buckets;
    }
    hide IsInflight;
  }

  lemma JoinsOne(g0: Shadow, r: nat, i: nat, g: Shadow)
    requires i < |g0.buckets| && g == g0.(buckets := g0.buckets[i := g0.buckets[i] + [r]])
    ensures Joins(g0, g, r)
  {
    hide IsInflight;
    OneMore(g0, r, i, g);
  }

  /** After r has left the rings, and some requests have been promoted. */
  lemma LeftThenPromoted(q0: Reqs, g0: Shadow, r: nat, wasInflight: bool, q1: Reqs, g1: Shadow, g: Shadow, k: int)
    requires RingsOk(q0, g0) && Known(q0, r) && RingsOk(q1, g1) && Loose(q1, g1, r) && Promoted(g1, g, k)
    requires wasInflight ==>
      Bucket(q0, r) < |g0.buckets| && r in g0.buckets[Bucket(q0, r)]
      && g1 == g0.(buckets := g0.buckets[Bucket(q0, r) := Less(g0.buckets[Bucket(q0, r)], r)])
    requires !wasInflight ==> g1 == g0.(waiting := Less(g0.waiting, r))
    ensures Leaves(g0, g, r, wasInflight, k)
  {
    hide RingsOk, Less;
    if wasInflight {
      hide IsInflight;
      OneLess(q0, g0, r, Bucket(q0, r), g1);
    } else {
      forall x ensures IsInflight(g1, x) <==> IsInflight(g0, x) && x != r {
        assert g1.buckets == g0.buckets;
      }
    }
  }

  // Transaction ids.

  /** request_find_from_trans_id, with which a reply is matched to its request. */
  method RequestFind(q: Reqs, id: nat, ghost g: Shadow) returns (req: Link)
    requires RingsOk(q, g)
    ensures req == NULL <==> !Taken(q.transId, g, id)
    ensures req != NULL ==> IsInflight(g, req.n) && Known(q, req.n) && q.transId[req.n] == id
    ensures Unique(q.transId, g) ==>
      forall r :: IsInflight(g, r) && r in q.transId && q.transId[r] == id ==> req == To(r)
  {
    hide Ring, RingsOk, IsInflight;
    LengthOk(q, g);
    var i := id % |q.heads|;
    req := q.heads[i];
    var startedAt := req;
    HeadOf(q, g, i);
    if req != NULL {
      ghost var k := 0;
      while true
        invariant 0 <= k < |g.buckets[i]| && req == To(g.buckets[i][k])
        invariant forall j :: 0 <= j < k ==> HasNot(q.transId, g.buckets[i][j], id)
        decreases |g.buckets[i]| - k
      {
        NextOf(q, g, i, k);
        IsOne(g, i, req.n);
        if q.transId[req.n] == id {
          return;
        }
        req := q.links.next[req.n];
        k := k + 1;
        if req == startedAt {
          break;
        }
      }
    }
    NotTaken(q, g, id);
    return NULL;
  }

  ghost predicate HasNot(transId: map<nat, nat>, r: nat, id: nat) {
    r in transId && transId[r] != id
  }

  lemma NotTaken(q: Reqs, g: Shadow, id: nat)
    requires RingsOk(q, g)
    requires forall r :: r in g.buckets[id % |q.heads|] ==> HasNot(q.transId, r, id)
    ensures !Taken(q.transId, g, id)
  {
    hide Ring;
    forall r | IsInflight(g, r) && r in q.transId ensures q.transId[r] != id {
      var j :| 0 <= j < |g.buckets| && r in g.buckets[j];
      assert BucketOk(q, g, j);
      assert InflightOk(q, r, j);
    }
  }

  /** transaction_id_pick. The ids are drawn in any order; drawing one again
      changes nothing. With every id in use the code does not come back. */
  method TransactionIdPick(q: Reqs, ghost g: Shadow) returns (id: nat)
    requires RingsOk(q, g) && Counted(q, g) && q.inflight < NO_ID
    ensures id < NO_ID && !Taken(q.transId, g, id)
  {
    hide RingsOk, Counted, Taken;
    var drawn: set<nat> := {};
    while true
      invariant forall i :: i in drawn ==> i < NO_ID && Taken(q.transId, g, i)
      decreases NO_ID - |drawn|
    {
      SomeUnused(q, g);
      id :| id < NO_ID && id !in drawn;
      var req := RequestFind(q, id, g);
      if req == NULL {
        return;
      }
      drawn := drawn + {id};
      AtMostBound(drawn, NO_ID);
    }
  }

  lemma {:induction false} AtMostBound(ids: set<nat>, n: nat)
    requires forall i :: i in ids ==> i < n
    ensures |ids| <= n
  {
    if n == 0 {
      assert ids == {};
    } else {
      AtMostBound(ids - {n - 1}, n - 1);
      assert n - 1 in ids ==> |ids - {n - 1}| == |ids| - 1;
      assert n - 1 !in ids ==> ids - {n - 1} == ids;
    }
  }

  /** With fewer requests inflight than there are ids, one is unused. */
  lemma SomeUnused(q: Reqs, g: Shadow)
    requires RingsOk(q, g) && Counted(q, g) && q.inflight < NO_ID
    ensures exists id: nat :: id < NO_ID && !Taken(q.transId, g, id)
  {
    hide RingsOk, Taken;
    if forall id: nat :: id < NO_ID ==> Taken(q.transId, g, id) {
      var rs := Holders(q.transId, g, NO_ID);
      AtMostTotal(g.buckets, rs);
    }
  }

  /** The first n ids in use are in use by n requests. */
  lemma {:induction false} Holders(transId: map<nat, nat>, g: Shadow, n: nat) returns (rs: set<nat>)
    requires forall id: nat :: id < n ==> Taken(transId, g, id)
    ensures |rs| == n && forall r :: r in rs ==> IsInflight(g, r) && r in transId && transId[r] < n
  {
    if n == 0 {
      rs := {};
    } else {
      var below := Holders(transId, g, n - 1);
      assert Taken(transId, g, n - 1);
      var r :| IsInflight(g, r) && r in transId && transId[r] == n - 1;
      rs := below + {r};
    }
  }

  lemma {:induction false} AtMostTotal(buckets: seq<seq<nat>>, rs: set<nat>)
    requires forall r :: r in rs ==> exists i :: 0 <= i < |buckets| && r in buckets[i]
    ensures |rs| <= Total(buckets)
  {
    if buckets == [] {
      assert rs == {};
    } else {
      var first := set r | r in rs && r in buckets[0];
      AtMostLength(buckets[0], first);
      forall r | r in rs - first ensures exists i :: 0 <= i < |buckets[1..]| && r in buckets[1..][i] {
        var i :| 0 <= i < |buckets| && r in buckets[i];
        assert r in buckets[1..][i - 1];
      }
      AtMostTotal(buckets[1..], rs - first);
      assert rs == first + (rs - first);
    }
  }

  lemma {:induction false} AtMostLength(s: seq<nat>, rs: set<nat>)
    requires forall r :: r in rs ==> r in s
    ensures |rs| <= |s|
  {
    if s == [] {
      assert rs == {};
    } else {
      forall r | r in rs - {s[0]} ensures r in s[1..] {
        assert s == [s[0]] + s[1..];
      }
      AtMostLength(s[1..], rs - {s[0]});
      assert s[0] !in rs ==> rs - {s[0]} == rs;
      assert s[0] in rs ==> |rs - {s[0]}| == |rs| - 1;
    }
  }

  /** A request whose id is not in use goes inflight. */
  lemma UniqueMore(transId: map<nat, nat>, g0: Shadow, r: nat, id: nat, g: Shadow)
    requires Unique(transId, g0) && !Taken(transId, g0, id)
    requires forall x :: IsInflight(g, x) <==> IsInflight(g0, x) || x == r
    ensures Unique(transId[r := id], g)
  {
    hide IsInflight;
  }

  /** One that is in no ring has any id. */
  lemma UniqueNew(transId: map<nat, nat>, q: Reqs, g: Shadow, r: nat, id: nat)
    requires Unique(transId, g) && RingsOk(q, g) && Loose(q, g, r)
    ensures Unique(transId[r := id], g)
  {
    hide RingsOk;
    assert !IsInflight(g, r);
    hide IsInflight;
  }

  /** One left the rings and is gone. */
  lemma UniqueLess(q0: Reqs, g0: Shadow, r: nat, wasInflight: bool, g: Shadow)
    requires RingsOk(q0, g0) && Unique(q0.transId, g0) && Known(q0, r)
    requires wasInflight ==>
      Bucket(q0, r) < |g0.buckets| && r in g0.buckets[Bucket(q0, r)]
      && g == g0.(buckets := g0.buckets[Bucket(q0, r) := Less(g0.buckets[Bucket(q0, r)], r)])
    requires !wasInflight ==> g.buckets == g0.buckets
    ensures Unique(q0.transId - {r}, g)
  {
    hide RingsOk, Less;
    if wasInflight {
      OneLess(q0, g0, r, Bucket(q0, r), g);
    } else {
      UniqueWaiting(q0.transId, g0, g);
    }
    hide IsInflight;
  }

  lemma UniqueWaiting(transId: map<nat, nat>, g0: Shadow, g: Shadow)
    requires Unique(transId, g0) && g.buckets == g0.buckets
    ensures Unique(transId, g)
  {
    forall x ensures IsInflight(g, x) <==> IsInflight(g0, x) {
    }
    hide IsInflight;
  }

  // The base.

  datatype Base = Base(reqs: Reqs, servers: V.Servers)

  /** The invariant; nothing is inflight without nameservers. */
  ghost predicate BaseInv(b: Base, g: Shadow, s: seq<nat>) {
    Inv(b.reqs, g) && V.Inv(b.servers, s) && (s == [] ==> b.reqs.inflight == 0)
  }

  /** No request waits while there is room, a nameserver and an unused id. */
  predicate Pumped(b: Base) {
    b.reqs.waiting > 0 ==> b.reqs.inflight >= b.reqs.max || b.servers.head == NULL || b.reqs.inflight >= NO_ID
  }

  /** The first k of these requests are for servers that are up. */
  ghost predicate SentUp(q: Reqs, up: map<nat, bool>, waiting: seq<nat>, k: int) {
    0 <= k <= |waiting| && forall i :: 0 <= i < k ==> ForUp(q, up, waiting[i])
  }

  ghost predicate ForUp(q: Reqs, up: map<nat, bool>, r: nat) {
    r in q.ns && q.ns[r] != NULL && q.ns[r].n in up && up[q.ns[r].n]
  }

  lemma SentUpNone(q: Reqs, up: map<nat, bool>, waiting: seq<nat>)
    ensures SentUp(q, up, waiting, 0)
  {
  }

  lemma SentUpMore(q1: Reqs, up: map<nat, bool>, g0: Shadow, g1: Shadow, k: int, r: nat, q: Reqs)
    requires SentUp(q1, up, g0.waiting, k) && Promoted(g0, g1, k) && g1.waiting != [] && r == g1.waiting[0]
    requires r in q.ns && q.ns == q1.ns[r := q.ns[r]] && ForUp(q, up, r)
    ensures SentUp(q, up, g0.waiting, k + 1)
  {
    hide IsInflight;
    forall i | 0 <= i < k + 1 ensures ForUp(q, up, g0.waiting[i]) {
      assert i < k ==> ForUp(q1, up, g0.waiting[i]);
    }
  }

  /** evdns_requests_pump_waiting_queue. Stops where the code would draw ids for
      ever. */
  method Pump(b0: Base, ghost g0: Shadow, ghost s0: seq<nat>) returns (b: Base, ghost g: Shadow, ghost s: seq<nat>)
    requires BaseInv(b0, g0, s0)
    ensures BaseInv(b, g, s) && Pumped(b)
    ensures b.reqs.max == b0.reqs.max && b.servers == b0.servers.(head := b.servers.head) &&
      (forall x :: x in s <==> x in s0)
    ensures b.reqs.inflight + b.reqs.waiting == b0.reqs.inflight + b0.reqs.waiting
    ensures Promoted(g0, g, b.reqs.inflight - b0.reqs.inflight)
    ensures b.reqs.inflight <= b.reqs.max || b.reqs.inflight == b0.reqs.inflight
    ensures forall x :: x !in g0.waiting ==> SameRequest(b0.reqs, b.reqs, x)
    ensures b0.servers.good > 0 ==> SentUp(b.reqs, b0.servers.up, g0.waiting, b.reqs.inflight - b0.reqs.inflight)
  {
    hide SentUp, RingsOk, Counted, V.Inv, Promoted, SameRequest, Less, Unique, Taken, IsInflight;
    b, g, s := b0, g0, s0;
    PromotedNone(g0);
    SameAll(b0.reqs);
    SentUpNone(b0.reqs, b0.servers.up, g0.waiting);
    while b.reqs.inflight < b.reqs.max && b.reqs.waiting > 0
      invariant BaseInv(b, g, s)
      invariant b.reqs.max == b0.reqs.max && b.servers == b0.servers.(head := b.servers.head)
      invariant forall x :: x in s <==> x in s0
      invariant b.reqs.inflight + b.reqs.waiting == b0.reqs.inflight + b0.reqs.waiting
      invariant Promoted(g0, g, b.reqs.inflight - b0.reqs.inflight)
      invariant forall x :: x !in g0.waiting ==> SameRequest(b0.reqs, b.reqs, x)
      invariant b.reqs.inflight <= b.reqs.max || b.reqs.inflight == b0.reqs.inflight
      invariant b0.servers.good > 0 ==> SentUp(b.reqs, b0.servers.up, g0.waiting, b.reqs.inflight - b0.reqs.inflight)
      decreases b.reqs.waiting
    {
      var servers, picked;
      ghost var s1;
      V.HeadIs(b.servers, s);
      servers, picked, s1 := V.Pick(b.servers, s);
      V.HeadIs(servers, s1);
      b := b.(servers := servers);
      SameEmpty(s, s1);
      s := s1;
      FirstWaiting(b.reqs, g);
      var r := b.reqs.waitingHead.n;
      if picked == NULL || b.reqs.inflight >= NO_ID {
        return;
      }
      var q;
      ghost var b1, g1 := b, g;
      q, g := TakeWaiting(b.reqs, r, g);
      var id := TransactionIdPick(q, g);
      ghost var q1, g2 := q, g;
      LooseKnown(q, g, r);
      q := q.(ns := q.ns[r := picked], transId := q.transId[r := id]);
      SameElse(q1, q, r);
      LooseChanges(q1, g, r, q);
      CountedSame(q1, g, q);
      LengthOk(q, g);
      ghost var i := Bucket(q, r);
      q, g := PutInflight(q, r, g);
      b := b.(reqs := q);
      UniqueWaiting(q1.transId, g1, g2);
      OneMore(g2, r, i, g);
      UniqueMore(q1.transId, g2, r, id, g);
      PromotedMore(g0, g1, b1.reqs.inflight - b0.reqs.inflight, r, i, g);
      if b0.servers.good > 0 {
        SentUpMore(b1.reqs, b0.servers.up, g0, g1, b1.reqs.inflight - b0.reqs.inflight, r, q);
      }
      SameBut(b0.reqs, b1.reqs, q, r, g0, g1, b1.reqs.inflight - b0.reqs.inflight);
    }
  }

  lemma SameAll(q: Reqs)
    ensures forall x :: SameRequest(q, q, x)
  {
  }

  lemma SameElse(q0: Reqs, q: Reqs, r: nat)
    requires r in q.transId && r in q.ns
    requires q.transId == q0.transId[r := q.transId[r]] && q.ns == q0.ns[r := q.ns[r]] && q.txCount == q0.txCount
    ensures forall x :: x != r ==> SameRequest(q0, q, x)
  {
  }

  lemma SameBut(q0: Reqs, q1: Reqs, q: Reqs, r: nat, g0: Shadow, g1: Shadow, k: int)
    requires (forall x :: x !in g0.waiting ==> SameRequest(q0, q1, x)) && Promoted(g0, g1, k)
    requires g1.waiting != [] && r == g1.waiting[0] && r in q.transId && r in q.ns
    requires q.transId == q1.transId[r := q.transId[r]] && q.ns == q1.ns[r := q.ns[r]] && q.txCount == q1.txCount
    ensures forall x :: x !in g0.waiting ==> SameRequest(q0, q, x)
  {
    hide IsInflight;
    forall x | x !in g0.waiting ensures SameRequest(q0, q, x) {
      assert r in g0.waiting;
      assert SameRequest(q0, q1, x);
    }
  }

  lemma SameEmpty(s: seq<nat>, s1: seq<nat>)
    requires |s1| == |s|
    ensures s1 == [] <==> s == []
  {
  }

  lemma FirstWaiting(q: Reqs, g: Shadow)
    requires RingsOk(q, g) && Counted(q, g) && q.waiting > 0
    ensures q.waitingHead != NULL && g.waiting != [] && q.waitingHead.n == g.waiting[0]
  {
  }

  lemma LooseKnown(q: Reqs, g: Shadow, r: nat)
    requires RingsOk(q, g) && Loose(q, g, r)
    ensures Known(q, r)
  {
  }

  lemma CountedSame(q0: Reqs, g: Shadow, q: Reqs)
    requires Counted(q0, g) && q.inflight == q0.inflight && q.waiting == q0.waiting
    ensures Counted(q, g)
  {
  }

  /** request_new and request_submit, for a request `r` not in use: inflight at
      once if there is room and a nameserver, else waiting. */
  method Submit(b0: Base, r: nat, ghost g0: Shadow, ghost s0: seq<nat>)
      returns (b: Base, ghost g: Shadow, ghost s: seq<nat>)
    requires BaseInv(b0, g0, s0) && r !in b0.reqs.transId && r !in b0.reqs.ns && r !in b0.reqs.txCount
    requires b0.reqs.inflight < b0.reqs.max ==> b0.reqs.inflight < NO_ID
    ensures BaseInv(b, g, s) && (Pumped(b0) ==> Pumped(b)) && b.reqs.max == b0.reqs.max
    ensures b0.reqs.inflight < b0.reqs.max && s0 != [] ==>
      b.reqs.inflight == b0.reqs.inflight + 1 && b.reqs.waiting == b0.reqs.waiting && Joins(g0, g, r)
    ensures b0.reqs.inflight >= b0.reqs.max || s0 == [] ==>
      b.reqs.inflight == b0.reqs.inflight && g == g0.(waiting := g0.waiting + [r])
    ensures forall x :: x != r ==> SameRequest(b0.reqs, b.reqs, x)
    ensures r in b.reqs.ns && r in b.reqs.txCount && b.reqs.txCount[r] == 0
    ensures r in b.reqs.transId && (b0.reqs.inflight >= b0.reqs.max ==> b.reqs.transId[r] == NO_ID)
    ensures b0.reqs.inflight < b0.reqs.max ==> V.TurnedPast(b0.servers, s0, b.reqs.ns[r], s)
    ensures b0.reqs.inflight >= b0.reqs.max ==> b.servers == b0.servers && s == s0
  {
    hide V.TurnedPast, RingsOk, Counted, V.Inv, Joins, IsInflight, Unique, Taken;
    b, g, s := b0, g0, s0;
    var q := b.reqs;
    var issuing := q.inflight < q.max;
    var id: nat := NO_ID;
    if issuing {
      id := TransactionIdPick(q, g);
    }
    var picked := NULL;
    V.HeadIs(b.servers, s);
    if issuing {
      var servers;
      servers, picked, s := V.Pick(b.servers, s);
      V.HeadIs(servers, s);
      b := b.(servers := servers);
    }
    q := q.(transId := q.transId[r := id], txCount := q.txCount[r := 0], ns := q.ns[r := picked]);
    NewLoose(b0.reqs, g0, r, q);
    CountedSame(b0.reqs, g0, q);
    if picked != NULL {
      ghost var i := Bucket(q, r);
      LengthOk(q, g);
      q, g := PutInflight(q, r, g);
      JoinsOne(g0, r, i, g);
      OneMore(g0, r, i, g);
      UniqueMore(b0.reqs.transId, g0, r, id, g);
    } else {
      UniqueNew(b0.reqs.transId, q, g, r, id);
      q, g := PutWaiting(q, r, g);
      UniqueWaiting(q.transId, g0, g);
    }
    b := b.(reqs := q);
  }

  lemma NewLoose(q0: Reqs, g: Shadow, r: nat, q: Reqs)
    requires RingsOk(q0, g) && !Known(q0, r) && Known(q, r)
    requires q.heads == q0.heads && q.waitingHead == q0.waitingHead && q.links == q0.links
    requires forall x :: x != r ==> SameRequest(q0, q, x)
    ensures RingsOk(q, g) && Loose(q, g, r)
  {
    hide Ring;
    forall j | 0 <= j < |q.heads| ensures BucketOk(q, g, j) && r !in g.buckets[j] {
      assert BucketOk(q0, g, j);
      forall x | x in g.buckets[j] ensures InflightOk(q, x, j) && x != r {
        assert InflightOk(q0, x, j) && SameRequest(q0, q, x);
      }
    }
    forall x | x in g.waiting ensures WaitingOk(q, x) && x != r {
      assert WaitingOk(q0, x) && SameRequest(q0, q, x);
    }
  }

  /** request_finished, on a request in a ring: it is freed, and room it leaves
      is used. */
  method Finished(b0: Base, r: nat, ghost g0: Shadow, ghost s0: seq<nat>, wasInflight: bool)
    returns (b: Base, ghost g: Shadow, ghost s: seq<nat>)
    requires BaseInv(b0, g0, s0) && Known(b0.reqs, r)
    requires if wasInflight then r in g0.buckets[Bucket(b0.reqs, r)] else r in g0.waiting
    ensures BaseInv(b, g, s) && Pumped(b) && b.reqs.max == b0.reqs.max
    ensures b.servers == b0.servers.(head := b.servers.head) && (forall x :: x in s <==> x in s0)
    ensures b.reqs.inflight + b.reqs.waiting == b0.reqs.inflight + b0.reqs.waiting - 1
    ensures Leaves(g0, g, r, wasInflight, b.reqs.inflight - b0.reqs.inflight + if wasInflight then 1 else 0)
    ensures b.reqs.inflight <= b.reqs.max || b.reqs.inflight == b0.reqs.inflight - if wasInflight then 1 else 0
    ensures b0.servers.good > 0 ==>
      SentUp(b.reqs, b0.servers.up, if wasInflight then g0.waiting else Less(g0.waiting, r),
             b.reqs.inflight - b0.reqs.inflight + if wasInflight then 1 else 0)
  {
    hide SentUp, RingsOk, Counted, V.Inv, Leaves, Promoted, IsInflight, Less, SameRequest, Unique;
    b, g, s := b0, g0, s0;
    var q;
    if wasInflight {
      NotNone(b0.reqs, g0, r);
      q, g := TakeInflight(b.reqs, r, g);
    } else {
      q, g := TakeWaiting(b.reqs, r, g);
    }
    ghost var q1, g1 := q, g;
    q := q.(transId := q.transId - {r}, ns := q.ns - {r}, txCount := q.txCount - {r});
    SameGone(q1, q, r);
    LengthOk(b0.reqs, g0);
    UniqueLess(b0.reqs, g0, r, wasInflight, g);
    LooseChanges(q1, g, r, q);
    CountedSame(q1, g, q);
    b := b.(reqs := q);
    b, g, s := Pump(b, g, s);
    LeftThenPromoted(b0.reqs, g0, r, wasInflight, q1, g1, g, b.reqs.inflight - q1.inflight);
  }

  lemma SameGone(q0: Reqs, q: Reqs, r: nat)
    requires q == q0.(transId := q0.transId - {r}, ns := q0.ns - {r}, txCount := q0.txCount - {r})
    ensures forall x :: x != r ==> SameRequest(q0, q, x)
  {
  }

  lemma NotNone(q: Reqs, g: Shadow, r: nat)
    requires RingsOk(q, g) && Counted(q, g) && Known(q, r) && r in g.buckets[Bucket(q, r)]
    ensures q.inflight > 0
  {
    TotalUpdate(g.buckets, Bucket(q, r), []);
  }

  /** A probe of a nameserver goes inflight whether or not there is room. */
  method SendProbe(b0: Base, r: nat, server: nat, ghost g0: Shadow, ghost s0: seq<nat>)
    returns (b: Base, ghost g: Shadow, ghost s: seq<nat>)
    requires BaseInv(b0, g0, s0) && server in s0
    requires r !in b0.reqs.transId && r !in b0.reqs.ns && r !in b0.reqs.txCount && b0.reqs.inflight < NO_ID
    ensures BaseInv(b, g, s) && (Pumped(b0) ==> Pumped(b)) && b.reqs.max == b0.reqs.max
    ensures b.reqs.inflight == b0.reqs.inflight + 1 && b.reqs.waiting == b0.reqs.waiting
    ensures Joins(g0, g, r) && r in b.reqs.ns && b.reqs.ns[r] == To(server)
    ensures r in b.reqs.txCount && b.reqs.txCount[r] == 0
    ensures b0.reqs.inflight >= b0.reqs.max ==> b.servers == b0.servers && s == s0
    ensures b0.reqs.inflight < b0.reqs.max ==> exists picked :: V.TurnedPast(b0.servers, s0, picked, s)
    ensures forall x :: x != r ==> SameRequest(b0.reqs, b.reqs, x)
  {
    hide V.TurnedPast, RingsOk, Counted, V.Inv, Joins, IsInflight, Unique, Taken;
    b, g, s := b0, g0, s0;
    var q := b.reqs;
    V.HeadIs(b.servers, s);
    if q.inflight < q.max {
      var servers, _, s1 := V.Pick(b.servers, s);
      V.HeadIs(servers, s1);
      b := b.(servers := servers);
      s := s1;
    }
    var id := TransactionIdPick(q, g);
    q := q.(transId := q.transId[r := id], txCount := q.txCount[r := 0], ns := q.ns[r := To(server)]);
    NewLoose(b0.reqs, g0, r, q);
    CountedSame(b0.reqs, g0, q);
    ghost var i := Bucket(q, r);
    LengthOk(q, g);
    q, g := PutInflight(q, r, g);
    JoinsOne(g0, r, i, g);
    OneMore(g0, r, i, g);
    UniqueMore(b0.reqs.transId, g0, r, id, g);
    b := b.(reqs := q);
  }

  /** Rings elsewhere stay as they are. */
  lemma RingsStay(q0: Reqs, g: Shadow, links: Links, s: seq<nat>)
    requires RingsOk(q0, g) && Elsewhere(q0.links, links, s)
    requires forall x :: x in s ==> x !in g.waiting && !IsInflight(g, x)
    ensures RingsOk(q0.(links := links), g)
  {
    hide Elsewhere;
    var q := q0.(links := links);
    forall j | 0 <= j < |q.heads| ensures BucketOk(q, g, j) {
      assert BucketOk(q0, g, j);
      RingFrame(q0.links, links, q0.heads[j], g.buckets[j], s);
      forall x | x in g.buckets[j] ensures InflightOk(q, x, j) {
        assert InflightOk(q0, x, j);
      }
    }
    RingFrame(q0.links, links, q0.waitingHead, g.waiting, s);
    forall x | x in g.waiting ensures WaitingOk(q, x) {
      assert WaitingOk(q0, x);
    }
  }

  /** While requests move from the old buckets to the new ones. */
  ghost predicate Moving(g0: Shadow, old_: Reqs, go: Shadow, new_: Reqs, gn: Shadow) {
    && RingsOk(old_, go) && RingsOk(new_, gn)
    && new_ == old_.(heads := new_.heads) && go.waiting == gn.waiting
    && (forall x :: IsInflight(go, x) ==> !IsInflight(gn, x))
    && (forall x :: IsInflight(g0, x) <==> IsInflight(go, x) || IsInflight(gn, x))
  }

  /** One request moves. */
  method Rehash(old0: Reqs, new0: Reqs, i: nat, ghost g0: Shadow, ghost go0: Shadow, ghost gn0: Shadow)
    returns (old_: Reqs, new_: Reqs, ghost go: Shadow, ghost gn: Shadow)
    requires Moving(g0, old0, go0, new0, gn0) && i < |old0.heads| && old0.heads[i] != NULL
    ensures Moving(g0, old_, go, new_, gn) && |old_.heads| == |old0.heads| && |new_.heads| == |new0.heads|
    ensures old_ == old0.(heads := old_.heads, links := old_.links)
    ensures |go.buckets| == |go0.buckets| && |go.buckets[i]| < |go0.buckets[i]| &&
      forall j :: 0 <= j < |go.buckets| && j != i ==> go.buckets[j] == go0.buckets[j]
    ensures Total(go.buckets) + Total(gn.buckets) == Total(go0.buckets) + Total(gn0.buckets) &&
      go.waiting == go0.waiting
  {
    hide Ring, RingsOk, Elsewhere, Less, Loose, IsInflight;
    FirstOf(old0, go0, i);
    var r := old0.heads[i].n;
    ghost var s := go0.buckets[i];
    old_, go := RemoveBucket(old0, r, go0);
    MovedOut(g0, old0, go0, new0, gn0, r, old_.links);
    new_ := new0.(links := old_.links);
    ghost var new1, old1 := new_, old_;
    LengthOk(new1, gn0);
    OneLess(old0, go0, r, i, go);
    new_, gn := InsertBucket(new_, r, gn0);
    MovedIn(go0, old1, go, new1, gn0, gn, r, new_.links);
    old_ := old_.(links := new_.links);
    LessLength(s, r);
    TotalUpdate(go0.buckets, i, Less(s, r));
    TotalUpdate(gn0.buckets, Bucket(new1, r), gn0.buckets[Bucket(new1, r)] + [r]);
    OneMore(gn0, r, Bucket(new1, r), gn);
    IsOne(go0, i, r);
  }

  lemma FirstOf(q: Reqs, g: Shadow, i: nat)
    requires RingsOk(q, g) && i < |q.heads| && q.heads[i] != NULL
    ensures i < |g.buckets| && g.buckets[i] != [] && q.heads[i].n in g.buckets[i]
    ensures Known(q, q.heads[i].n) && q.heads != [] && Bucket(q, q.heads[i].n) == i &&
      q.transId[q.heads[i].n] < NO_ID && q.ns[q.heads[i].n] != NULL
  {
    assert BucketOk(q, g, i);
    assert InflightOk(q, g.buckets[i][0], i);
  }

  lemma IsOne(g: Shadow, i: nat, r: nat)
    requires i < |g.buckets| && r in g.buckets[i]
    ensures IsInflight(g, r)
  {
  }

  lemma MovedOut(g0: Shadow, old0: Reqs, go0: Shadow, new0: Reqs, gn0: Shadow, r: nat, links: Links)
    requires Moving(g0, old0, go0, new0, gn0) && Known(old0, r) && old0.heads != [] && Bucket(old0, r) < |go0.buckets|
    requires r in go0.buckets[Bucket(old0, r)] && old0.ns[r] != NULL
    requires Elsewhere(old0.links, links, go0.buckets[Bucket(old0, r)])
    ensures RingsOk(new0.(links := links), gn0) && Loose(new0.(links := links), gn0, r)
  {
    hide Ring, Elsewhere;
    var i := Bucket(old0, r);
    var s := go0.buckets[i];
    forall x | x in s ensures x !in gn0.waiting && !IsInflight(gn0, x) {
      Apart(old0, go0, i, i, x);
      assert IsInflight(go0, x);
    }
    RingsStay(new0, gn0, links, s);
    assert !IsInflight(gn0, r);
  }

  lemma MovedIn(go0: Shadow, old1: Reqs, go: Shadow, new1: Reqs, gn0: Shadow, gn: Shadow, r: nat, links: Links)
    requires RingsOk(old1, go) && RingsOk(new1, gn0) && Loose(old1, go, r) && Loose(new1, gn0, r)
    requires go.waiting == gn0.waiting && forall x :: IsInflight(go, x) ==> !IsInflight(gn0, x)
    requires Elsewhere(old1.links, links, gn0.buckets[Bucket(new1, r)] + [r])
    ensures RingsOk(old1.(links := links), go)
  {
    hide Ring, Elsewhere;
    var s := gn0.buckets[Bucket(new1, r)] + [r];
    forall x | x in s ensures x !in go.waiting && !IsInflight(go, x) {
      if x != r {
        assert x in gn0.buckets[Bucket(new1, r)];
        Apart(new1, gn0, Bucket(new1, r), Bucket(new1, r), x);
        assert IsInflight(gn0, x);
      }
    }
    RingsStay(old1, go, links, s);
  }

  /** Which requests are inflight after one left, or joined. */
  lemma OneLess(q: Reqs, g0: Shadow, r: nat, i: nat, g: Shadow)
    requires RingsOk(q, g0) && i < |g0.buckets| && r in g0.buckets[i] &&
      g == g0.(buckets := g0.buckets[i := Less(g0.buckets[i], r)])
    ensures forall x :: IsInflight(g, x) <==> IsInflight(g0, x) && x != r
  {
    hide Ring, Less;
    assert BucketOk(q, g0, i);
    RingDistinct(q.links, q.heads[i], g0.buckets[i]);
    LessIn(g0.buckets[i], r);
    forall x ensures IsInflight(g, x) <==> IsInflight(g0, x) && x != r {
      if IsInflight(g0, x) && x != r {
        var j :| 0 <= j < |g0.buckets| && x in g0.buckets[j];
        assert x in g.buckets[j];
      }
      if IsInflight(g, x) {
        var j :| 0 <= j < |g.buckets| && x in g.buckets[j];
        assert x in g0.buckets[j];
        if x == r {
          Apart(q, g0, i, j, r);
        }
      }
    }
  }

  lemma OneMore(g0: Shadow, r: nat, i: nat, g: Shadow)
    requires i < |g0.buckets| && g == g0.(buckets := g0.buckets[i := g0.buckets[i] + [r]])
    ensures forall x :: IsInflight(g, x) <==> IsInflight(g0, x) || x == r
  {
    forall x ensures IsInflight(g, x) <==> IsInflight(g0, x) || x == r {
      if IsInflight(g0, x) {
        var j :| 0 <= j < |g0.buckets| && x in g0.buckets[j];
        assert x in g.buckets[j];
      }
      assert r in g.buckets[i];
      if IsInflight(g, x) {
        var j :| 0 <= j < |g.buckets| && x in g.buckets[j];
        assert x != r ==> x in g0.buckets[j];
      }
    }
  }

  /** evdns_base_set_max_requests_inflight: the same requests are inflight, in
      the buckets that the new number of buckets makes theirs. Requests that
      wait are not looked at. */
  method SetMax(b0: Base, maxinflight: int, ghost g0: Shadow, ghost s: seq<nat>) returns (b: Base, ghost g: Shadow)
    requires BaseInv(b0, g0, s)
    ensures BaseInv(b, g, s) && b.servers == b0.servers
    ensures b.reqs.max == (if maxinflight < 1 then 1 else maxinflight)
    ensures b.reqs == b0.reqs.(heads := b.reqs.heads, links := b.reqs.links, max := b.reqs.max) &&
      g.waiting == g0.waiting
    ensures forall x :: IsInflight(g, x) <==> IsInflight(g0, x)
  {
    hide Ring, RingsOk, V.Inv, Counted, IsInflight;
    var max := if maxinflight < 1 then 1 else maxinflight;
    var n := (max + 4) / 5;
    var old_ := b0.reqs;
    var new_ := old_.(heads := seq(n, _ => NULL));
    ghost var go := g0;
    g := Shadow(seq(n, _ => []), g0.waiting);
    EmptyHeads(old_, g0, new_, g);
    LengthOk(old_, g0);
    for i := 0 to |old_.heads|
      invariant Moving(g0, old_, go, new_, g) && |old_.heads| == |b0.reqs.heads| == |go.buckets| && |new_.heads| == n
      invariant Total(go.buckets) + Total(g.buckets) == Total(g0.buckets)
      invariant forall j :: 0 <= j < i ==> go.buckets[j] == []
      invariant old_ == b0.reqs.(heads := old_.heads, links := old_.links)
      invariant go.waiting == g0.waiting
    {
      while old_.heads[i] != NULL
        invariant Moving(g0, old_, go, new_, g) && |old_.heads| == |b0.reqs.heads| == |go.buckets| && |new_.heads| == n
        invariant Total(go.buckets) + Total(g.buckets) == Total(g0.buckets)
        invariant forall j :: 0 <= j < i ==> go.buckets[j] == []
        invariant old_ == b0.reqs.(heads := old_.heads, links := old_.links)
        invariant go.waiting == g0.waiting
        decreases |go.buckets[i]|
      {
        old_, new_, go, g := Rehash(old_, new_, i, g0, go, g);
      }
      EmptyBucket(old_, go, i);
    }
    AllEmpty(go);
    ghost var q1 := new_;
    new_ := new_.(max := max);
    SameRings(q1, g, new_);
    LengthOk(new_, g);
    CountedMoved(b0.reqs, g0, new_, g);
    b := b0.(reqs := new_);
  }

  lemma LengthOk(q: Reqs, g: Shadow)
    requires RingsOk(q, g)
    ensures 0 < |q.heads| == |g.buckets|
  {
  }

  lemma CountedMoved(q0: Reqs, g0: Shadow, q: Reqs, g: Shadow)
    requires Counted(q0, g0) && q.inflight == q0.inflight && q.waiting == q0.waiting && g.waiting == g0.waiting
    requires Total(g.buckets) == Total(g0.buckets)
    ensures Counted(q, g)
  {
  }

  lemma EmptyBucket(q: Reqs, g: Shadow, i: nat)
    requires RingsOk(q, g) && i < |q.heads| && q.heads[i] == NULL
    ensures i < |g.buckets| && g.buckets[i] == []
  {
    assert BucketOk(q, g, i);
  }

  lemma {:induction false} AllEmptyTotal(buckets: seq<seq<nat>>)
    requires forall j :: 0 <= j < |buckets| ==> buckets[j] == []
    ensures Total(buckets) == 0
  {
    if buckets != [] {
      AllEmptyTotal(buckets[1..]);
    }
  }

  lemma AllEmpty(g: Shadow)
    requires forall j :: 0 <= j < |g.buckets| ==> g.buckets[j] == []
    ensures Total(g.buckets) == 0 && forall x :: !IsInflight(g, x)
  {
    AllEmptyTotal(g.buckets);
  }

  lemma EmptyHeads(old_: Reqs, g0: Shadow, new_: Reqs, g: Shadow)
    requires RingsOk(old_, g0) && new_ == old_.(heads := new_.heads) && |new_.heads| > 0 && |g.buckets| == |new_.heads|
    requires g.waiting == g0.waiting
    requires forall j :: 0 <= j < |g.buckets| ==> g.buckets[j] == [] && new_.heads[j] == NULL
    ensures Moving(g0, old_, g0, new_, g) && Total(g.buckets) == 0
  {
    AllEmpty(g);
    forall j | 0 <= j < |new_.heads| ensures BucketOk(new_, g, j) {
    }
    forall x | x in g.waiting ensures WaitingOk(new_, x) {
      assert WaitingOk(old_, x);
    }
  }

  /** nameserver_failed: the server is down, and what was still to be sent to it
      goes to others, if there are any. */
  method NameserverFailed(b0: Base, x: nat, ghost g: Shadow, ghost s0: seq<nat>) returns (b: Base, ghost s: seq<nat>)
    requires BaseInv(b0, g, s0) && x in s0
    ensures BaseInv(b, g, s) && b.reqs == b0.reqs.(ns := b.reqs.ns) && (forall y :: y in s <==> y in s0)
    ensures x in b0.servers.up && b.servers.up == b0.servers.up[x := false]
    ensures b.servers.good == b0.servers.good - if b0.servers.up[x] then 1 else 0
    ensures b0.servers.up[x] && b.servers.good > 0 ==>
      forall r :: IsInflight(g, r) ==> Reassigned(b0, b, x, r)
  {
    hide Ring, RingsOk, V.Inv, Counted, IsInflight, Reassigned;
    b, s := b0, s0;
    V.HeadIs(b.servers, s);
    ServerKnown(b.servers, s, x);
    var up := b.servers.up[x];
    var servers := V.Down(b.servers, x, s);
    b := b.(servers := servers);
    ServerKnown(b.servers, s, x);
    if !up {
      return;
    }
    if b.servers.good == 0 {
      return;
    }
    ghost var done: set<nat> := {};
    LengthOk(b.reqs, g);
    for i := 0 to |b.reqs.heads|
      invariant Reassigning(b0, b, g, s0, s, x, done)
      invariant forall j, r :: 0 <= j < i && r in g.buckets[j] ==> r in done
    {
      var req := b.reqs.heads[i];
      var startedAt := req;
      HeadOf(b.reqs, g, i);
      if req != NULL {
        ghost var k := 0;
        while true
          invariant Reassigning(b0, b, g, s0, s, x, done)
          invariant forall j, r :: 0 <= j < i && r in g.buckets[j] ==> r in done
          invariant 0 <= k < |g.buckets[i]| && req == To(g.buckets[i][k])
          invariant forall j :: 0 <= j < k ==> g.buckets[i][j] in done
          decreases |g.buckets[i]| - k
        {
          var r := req.n;
          NextOf(b.reqs, g, i, k);
          b, s := Reassign(b, r, i, x, g, s, b0, s0, done);
          done := done + {r};
          req := b.reqs.links.next[r];
          k := k + 1;
          if req == startedAt {
            break;
          }
        }
      }
      assert forall r :: r in g.buckets[i] ==> r in done;
    }
    LengthOk(b.reqs, g);
    AllReassigned(b0, b, g, s0, s, x, done);
  }

  /** nameserver_up: the probe of a server that was down, if one is inflight, is
      cancelled before the server is up. */
  method NameserverUp(b0: Base, x: nat, probe: Link, ghost g0: Shadow, ghost s0: seq<nat>)
    returns (b: Base, ghost g: Shadow, ghost s: seq<nat>)
    requires BaseInv(b0, g0, s0) && x in s0
    requires probe != NULL ==> Known(b0.reqs, probe.n) && probe.n in g0.buckets[Bucket(b0.reqs, probe.n)]
    ensures BaseInv(b, g, s) && x in b0.servers.up && b.servers.up == b0.servers.up[x := true]
    ensures b.servers.good == b0.servers.good + if b0.servers.up[x] then 0 else 1
    ensures b0.servers.up[x] || probe == NULL ==> b.reqs == b0.reqs && g == g0
    ensures !b0.servers.up[x] && probe != NULL ==>
      && Pumped(b) && Leaves(g0, g, probe.n, true, b.reqs.inflight - b0.reqs.inflight + 1)
      && (b.reqs.inflight <= b.reqs.max || b.reqs.inflight == b0.reqs.inflight - 1)
      && b.reqs.inflight + b.reqs.waiting == b0.reqs.inflight + b0.reqs.waiting - 1
  {
    hide RingsOk, Counted, V.Inv, Leaves, Ring;
    b, g, s := b0, g0, s0;
    ServerKnown(b.servers, s, x);
    if b.servers.up[x] {
      assert b.servers.up[x := true] == b.servers.up;
      return;
    }
    if probe != NULL {
      b, g, s := Finished(b, probe.n, g, s, true);
    }
    var servers := V.Up(b.servers, x, s);
    b := b.(servers := servers);
  }

  lemma ServerKnown(v: V.Servers, s: seq<nat>, x: nat)
    requires V.Inv(v, s) && x in s
    ensures x in v.up && v.good >= 0
  {
  }
  /** A request not sent yet does not stay with the failed server x, but goes to
      one that is up; any other stays. */
  ghost predicate Reassigned(b0: Base, b: Base, x: nat, r: nat) {
    Known(b0.reqs, r) && r in b.reqs.ns &&
    if b0.reqs.txCount[r] == 0 && b0.reqs.ns[r] == To(x)
    then b.reqs.ns[r] != NULL && b.reqs.ns[r].n in b.servers.up && b.servers.up[b.reqs.ns[r].n]
    else b.reqs.ns[r] == b0.reqs.ns[r]
  }

  /** In the middle of nameserver_failed: those in `done` were looked at. */
  ghost predicate Reassigning(b0: Base, b: Base, g: Shadow, s0: seq<nat>, s: seq<nat>, x: nat, done: set<nat>) {
    && BaseInv(b, g, s) && BaseInv(b0, g, s0) && b.reqs == b0.reqs.(ns := b.reqs.ns)
    && b.servers == b0.servers.(head := b.servers.head, up := b.servers.up, good := b.servers.good)
    && x in b.servers.up && b.servers.up == b0.servers.up[x := false] && b.servers.good > 0
    && b.servers.good == b0.servers.good - 1
    && (forall y :: y in s <==> y in s0)
    && (forall r :: r in done ==> Reassigned(b0, b, x, r))
    && (forall r :: r !in done && r in b0.reqs.ns ==> r in b.reqs.ns && b.reqs.ns[r] == b0.reqs.ns[r])
  }

  method Reassign(b1: Base, r: nat, i: nat, x: nat, ghost g: Shadow, ghost s1: seq<nat>,
                  ghost b0: Base, ghost s0: seq<nat>, ghost done: set<nat>)
    returns (b: Base, ghost s: seq<nat>)
    requires Reassigning(b0, b1, g, s0, s1, x, done) && i < |g.buckets| && r in g.buckets[i]
    requires Known(b1.reqs, r) && s1 != []
    ensures Reassigning(b0, b, g, s0, s, x, done + {r}) && b.reqs == b1.reqs.(ns := b.reqs.ns)
  {
    hide Ring, RingsOk, V.Inv, Counted;
    b, s := b1, s1;
    InBucketKnown(b0.reqs, g, i, r);
    assert r in done ==> Reassigned(b0, b1, x, r);
    if b.reqs.txCount[r] == 0 && b.reqs.ns[r] == To(x) {
      var servers, picked;
      servers, picked, s := V.Pick(b.servers, s);
      ServerKnown(servers, s, picked.n);
      ghost var q := b.reqs;
      b := b.(servers := servers, reqs := b.reqs.(ns := b.reqs.ns[r := picked]));
      NsChanges(q, g, r, i, b.reqs);
      CountedSame(q, g, b.reqs);
    }
    assert Reassigned(b0, b, x, r);
    forall y | y in done ensures Reassigned(b0, b, x, y) {
      assert Reassigned(b0, b1, x, y);
    }
  }

  lemma InBucketKnown(q: Reqs, g: Shadow, i: nat, r: nat)
    requires RingsOk(q, g) && i < |g.buckets| && r in g.buckets[i]
    ensures Known(q, r)
  {
    hide Ring;
    assert BucketOk(q, g, i);
    assert InflightOk(q, r, i);
  }

  lemma NsChanges(q0: Reqs, g: Shadow, r: nat, i: nat, q: Reqs)
    requires RingsOk(q0, g) && i < |g.buckets| && r in g.buckets[i]
    requires r in q.ns && q.ns[r] != NULL && q == q0.(ns := q0.ns[r := q.ns[r]])
    ensures RingsOk(q, g)
  {
    hide Ring;
    forall j | 0 <= j < |q.heads| ensures BucketOk(q, g, j) {
      assert BucketOk(q0, g, j);
      forall x | x in g.buckets[j] ensures InflightOk(q, x, j) {
        assert InflightOk(q0, x, j);
      }
    }
    Apart(q0, g, i, i, r);
    forall x | x in g.waiting ensures WaitingOk(q, x) {
      assert WaitingOk(q0, x);
    }
  }

  lemma HeadOf(q: Reqs, g: Shadow, i: nat)
    requires RingsOk(q, g) && i < |q.heads|
    ensures i < |g.buckets| && q.heads[i] == if g.buckets[i] == [] then NULL else To(g.buckets[i][0])
  {
    assert BucketOk(q, g, i);
  }

  lemma NextOf(q: Reqs, g: Shadow, i: nat, k: nat)
    requires RingsOk(q, g) && i < |q.heads| && i < |g.buckets| && k < |g.buckets[i]|
    ensures var r := g.buckets[i][k];
      && Known(q, r) && r in q.links.next && q.links.next[r] == To(After(g.buckets[i], k))
      && (q.links.next[r] == q.heads[i] <==> k + 1 == |g.buckets[i]|)
  {
    assert BucketOk(q, g, i);
    assert Joined(q.links, g.buckets[i], k);
    assert InflightOk(q, g.buckets[i][k], i);
  }

  lemma AllReassigned(b0: Base, b: Base, g: Shadow, s0: seq<nat>, s: seq<nat>, x: nat, done: set<nat>)
    requires Reassigning(b0, b, g, s0, s, x, done)
    requires forall j, r :: 0 <= j < |g.buckets| && r in g.buckets[j] ==> r in done
    ensures forall r :: IsInflight(g, r) ==> Reassigned(b0, b, x, r)
  {
    hide BaseInv, Reassigned;
  }
}
