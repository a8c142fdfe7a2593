/** The evdns_base object and the calls that change its requests and
    nameservers. */
module DnsBase {
  import opened Rings
  import V = DnsServers
  import R = DnsRequests

  class EvdnsBase {
    var base: R.Base
    ghost var rings: R.Shadow        // the requests, ring by ring
    ghost var servers: seq<nat>      // the nameservers from server_head on

    ghost predicate Valid()
      reads this
    {
      R.BaseInv(base, rings, servers)
    }

    /** The requests inflight, and the ones that wait. */
    ghost predicate IsInflight(r: nat)
      reads this
    {
      R.IsInflight(rings, r)
    }

    ghost function Waiting(): seq<nat>
      reads this
    {
      rings.waiting
    }

    /** No requests, and these nameservers, all up. */
    constructor (links: Links, head: Link, ghost s: seq<nat>, up: map<nat, bool>, good: int)
      requires V.Inv(V.Servers(links, head, up, good), s)
      ensures Valid() && Waiting() == [] && (forall r :: !IsInflight(r)) && servers == s
    {
      base := R.Base(R.Reqs(seq(13, _ => NULL), NULL, map[], map[], map[], Links(map[], map[]), 0, 0, 64),
                     V.Servers(links, head, up, good));
      rings := R.Shadow(seq(13, _ => []), []);
      servers := s;
      new;
      R.AllEmpty(rings);
      forall i | 0 <= i < |base.reqs.heads| ensures R.BucketOk(base.reqs, rings, i) {
        assert rings.buckets[i] == [];
      }
    }

    method Submit(r: nat)
      requires Valid() && r !in base.reqs.transId && r !in base.reqs.ns && r !in base.reqs.txCount
      requires base.reqs.inflight < base.reqs.max ==> base.reqs.inflight < R.NO_ID
      modifies this
      ensures Valid() && (R.Pumped(old(base)) ==> R.Pumped(base))
      ensures old(base.reqs.inflight) < base.reqs.max && old(servers) != [] ==>
        base.reqs.inflight == old(base.reqs.inflight) + 1 && R.Joins(old(rings), rings, r)
      ensures old(base.reqs.inflight) >= base.reqs.max || old(servers) == [] ==>
        rings == old(rings).(waiting := old(Waiting()) + [r])
      ensures r in base.reqs.ns
      ensures old(base.reqs.inflight) < base.reqs.max ==>
        V.TurnedPast(old(base.servers), old(servers), base.reqs.ns[r], servers)
    {
      hide V.TurnedPast, R.RingsOk, R.Counted, V.Inv, R.Joins, R.SameRequest;
      base, rings, servers := R.Submit(base, r, rings, servers);
    }

    method Finished(r: nat, wasInflight: bool)
      requires Valid() && R.Known(base.reqs, r)
      requires if wasInflight then r in rings.buckets[R.Bucket(base.reqs, r)] else r in rings.waiting
      modifies this
      ensures Valid() && R.Pumped(base)
      ensures base.reqs.inflight + base.reqs.waiting == old(base.reqs.inflight + base.reqs.waiting) - 1
      ensures R.Leaves(old(rings), rings, r, wasInflight,
                       base.reqs.inflight - old(base.reqs.inflight) + if wasInflight then 1 else 0)
    {
      hide R.RingsOk, R.Counted, V.Inv, R.Leaves, R.SameRequest;
      base, rings, servers := R.Finished(base, r, rings, servers, wasInflight);
    }

    /** The request that a reply with this id is for: no other inflight has it. */
    method RequestFind(id: nat) returns (req: Link)
      requires Valid()
      ensures req == NULL <==> forall r :: IsInflight(r) && r in base.reqs.transId ==> base.reqs.transId[r] != id
      ensures forall r :: IsInflight(r) && r in base.reqs.transId && base.reqs.transId[r] == id ==> req == To(r)
      ensures req != NULL ==> IsInflight(req.n) && R.Known(base.reqs, req.n) && base.reqs.transId[req.n] == id
    {
      hide R.RingsOk, R.Counted, V.Inv, R.IsInflight;
      req := R.RequestFind(base.reqs, id, rings);
    }

    method SetMaxRequestsInflight(maxinflight: int)
      requires Valid()
      modifies this
      ensures Valid() && base.reqs.max == if maxinflight < 1 then 1 else maxinflight
      ensures Waiting() == old(Waiting()) && servers == old(servers)
      ensures forall r :: IsInflight(r) <==> old(IsInflight(r))
    {
      hide R.RingsOk, R.Counted, V.Inv, R.IsInflight;
      base, rings := R.SetMax(base, maxinflight, rings, servers);
    }

    method NameserverFailed(x: nat)
      requires Valid() && x in servers
      modifies this
      ensures Valid() && x in old(base.servers.up) && base.servers.up == old(base.servers.up)[x := false]
      ensures old(base.servers.up)[x] && base.servers.good > 0 ==>
        forall r :: IsInflight(r) ==> R.Reassigned(old(base), base, x, r)
    {
      hide R.RingsOk, R.Counted, V.Inv, R.IsInflight, R.Reassigned;
      base, servers := R.NameserverFailed(base, x, rings, servers);
    }

    /** nameserver_up; `probe` is the probe request of the server, if it has one
        that is inflight. */
    method NameserverUp(x: nat, probe: Link)
      requires Valid() && x in servers
      requires probe != NULL ==> R.Known(base.reqs, probe.n) && probe.n in rings.buckets[R.Bucket(base.reqs, probe.n)]
      modifies this
      ensures Valid() && x in old(base.servers.up) && base.servers.up == old(base.servers.up)[x := true]
      ensures old(base.servers.up)[x] || probe == NULL ==> base.reqs == old(base.reqs) && rings == old(rings)
      ensures !old(base.servers.up)[x] && probe != NULL ==>
        R.Pumped(base) && R.Leaves(old(rings), rings, probe.n, true, base.reqs.inflight - old(base.reqs.inflight) + 1)
    {
      hide R.RingsOk, R.Counted, V.Inv, R.Leaves;
      base, rings, servers := R.NameserverUp(base, x, probe, rings, servers);
    }

    /** Picks a server that is up, whenever the count of good ones is positive. */
    method PickNameserver() returns (picked: Link)
      requires Valid()
      modifies this
      ensures Valid() && base.reqs == old(base.reqs)
      ensures picked == NULL <==> old(servers) == []
      ensures base.servers.good > 0 ==> picked != NULL && picked.n in base.servers.up && base.servers.up[picked.n]
    {
      hide R.RingsOk, R.Counted, V.Inv;
      var v;
      ghost var s0, b0 := servers, base;
      v, picked, servers := V.Pick(base.servers, servers);
      base := base.(servers := v);
      if picked != NULL {
        R.ServerKnown(b0.servers, s0, picked.n);
      }
      V.HeadIs(v, servers);
    }
  }
}
