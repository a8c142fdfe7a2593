/** The pending timeouts of a libevent event base: a min-heap, and one sorted
    queue for each common timeout. */
module EventTimes {
  import opened Lists

  /** EVLIST_TIMEOUT, ev_timeout and the index it carries, of every event; the
      heap as the set of its events; the common timeout queues. Times are in
      microseconds; index -1 stands for no magic in tv_usec. */
  datatype Times = Times(
    on: map<nat, bool>,
    at: map<nat, int>,
    common: map<nat, int>,
    heap: set<nat>,
    queues: seq<seq<nat>>)

  ghost predicate Keys(t: Times) {
    t.on.Keys == t.at.Keys == t.common.Keys
  }

  predicate IsCommon(t: Times, c: int) {
    0 <= c < |t.queues|
  }

  /** Where a pending event is. */
  ghost predicate Placed(t: Times, e: nat)
    requires Keys(t) && e in t.on
  {
    && (t.on[e] ==> if IsCommon(t, t.common[e]) then e in t.queues[t.common[e]] else e in t.heap)
    && (e in t.heap ==> t.on[e] && !IsCommon(t, t.common[e]))
  }

  ghost predicate Sorted(at: map<nat, int>, q: seq<nat>) {
    && (forall i :: 0 <= i < |q| ==> q[i] in at)
    && forall i, j {:trigger NotAfter(at, q[i], q[j])} :: 0 <= i < j < |q| ==> NotAfter(at, q[i], q[j])
  }

  ghost predicate NotAfter(at: map<nat, int>, x: nat, y: nat) {
    x in at && y in at && at[x] <= at[y]
  }

  ghost predicate QueueOk(t: Times, i: nat)
    requires Keys(t) && i < |t.queues|
  {
    && Distinct(t.queues[i]) && Sorted(t.at, t.queues[i])
    && forall e :: e in t.queues[i] ==> e in t.on && t.on[e] && t.common[e] == i
  }

  ghost predicate Inv(t: Times) {
    && Keys(t) && t.heap <= t.on.Keys
    && (forall e :: e in t.on ==> Placed(t, e))
    && (forall i :: 0 <= i < |t.queues| ==> QueueOk(t, i))
  }

  /** When each pending event is due: the meaning of heap and queues. */
  ghost function Due(t: Times): map<nat, int>
    requires Keys(t)
  {
    map e | e in t.on && t.on[e] :: t.at[e]
  }

  /** event_queue_remove for EVLIST_TIMEOUT */
  method Remove(t0: Times, e: nat) returns (t: Times)
    requires Inv(t0) && e in t0.on && t0.on[e]
    ensures Inv(t) && Keys(t) && t.on == t0.on[e := false] && t.at == t0.at && t.common == t0.common
    ensures t.heap == t0.heap - {e} && |t.queues| == |t0.queues|
    ensures forall i :: 0 <= i < |t.queues| ==>
      t.queues[i] == if i == t0.common[e] then Less(t0.queues[i], e) else t0.queues[i]
    ensures Due(t) == Due(t0) - {e}
  {
    hide Less, Sorted, Distinct;
    t := t0.(on := t0.on[e := false]);
    var c := t.common[e];
    assert Placed(t0, e);
    if IsCommon(t, c) {
      var q := TailqRemove(t.queues[c], e);
      t := t.(queues := t.queues[c := q]);
    } else {
      t := t.(heap := t.heap - {e});
    }
    RemoveInv(t0, e, t);
    DueRemoved(t0, e, t);
  }

  lemma DueRemoved(t0: Times, e: nat, t: Times)
    requires Keys(t0) && t.on == t0.on[e := false] && t.at == t0.at && t.common == t0.common && e in t0.on
    ensures Due(t) == Due(t0) - {e}
  {
  }

  lemma SortedSuffix(at: map<nat, int>, q: seq<nat>)
    requires Sorted(at, q) && q != []
    ensures Sorted(at, q[1..])
  {
    forall i, j | 0 <= i < j < |q[1..]| ensures NotAfter(at, q[1..][i], q[1..][j]) {
      assert NotAfter(at, q[i + 1], q[j + 1]);
    }
  }

  lemma FirstNotAfter(at: map<nat, int>, q: seq<nat>, x: nat)
    requires Sorted(at, q) && x in q
    ensures NotAfter(at, q[0], x)
  {
    var j :| 0 <= j < |q| && q[j] == x;
    assert j > 0 ==> NotAfter(at, q[0], q[j]);
  }

  lemma {:induction false} LessSorted(at: map<nat, int>, q: seq<nat>, e: nat)
    requires Sorted(at, q) && Distinct(q)
    ensures Sorted(at, Less(q, e))
  {
    if q != [] {
      SortedSuffix(at, q);
    }
    if q != [] && q[0] != e {
      assert q == [q[0]] + q[1..];
      SortedSuffix(at, q);
      LessSorted(at, q[1..], e);
      LessIn(q[1..], e);
      var r := Less(q[1..], e);
      forall i, j | 0 <= i < j < |[q[0]] + r| ensures NotAfter(at, ([q[0]] + r)[i], ([q[0]] + r)[j]) {
        assert ([q[0]] + r)[j] == r[j - 1] && r[j - 1] in q[1..];
        if i > 0 {
          assert NotAfter(at, r[i - 1], r[j - 1]);
        } else {
          FirstNotAfter(at, q, r[j - 1]);
        }
      }
    }
  }

  lemma RemoveInv(t0: Times, e: nat, t: Times)
    requires Inv(t0) && e in t0.on && t0.on[e]
    requires t.on == t0.on[e := false] && t.at == t0.at && t.common == t0.common && |t.queues| == |t0.queues|
    requires t.heap == t0.heap - {e}
    requires forall i :: 0 <= i < |t.queues| ==>
      t.queues[i] == if i == t0.common[e] then Less(t0.queues[i], e) else t0.queues[i]
    ensures Inv(t)
  {
    forall i | 0 <= i < |t.queues| ensures QueueOk(t, i) {
      assert QueueOk(t0, i);
      LessIn(t0.queues[i], e);
      LessSorted(t0.at, t0.queues[i], e);
    }
    forall x | x in t.on ensures Placed(t, x) {
      assert Placed(t0, x);
      if x != e && t.on[x] && IsCommon(t, t.common[x]) {
        assert QueueOk(t0, t.common[x]);
        LessIn(t0.queues[t.common[x]], e);
      }
    }
  }

  lemma SortedKeys(at: map<nat, int>, q: seq<nat>)
    requires Sorted(at, q)
    ensures forall i :: 0 <= i < |q| ==> q[i] in at
  {
  }

  /** insert_common_timeout_inorder: after the last event that is not later. */
  method InsertInOrder(at: map<nat, int>, q0: seq<nat>, e: nat) returns (q: seq<nat>)
    requires Sorted(at, q0) && e in at && e !in q0 && Distinct(q0)
    ensures Sorted(at, q) && Distinct(q)
    ensures forall x :: x in q <==> x in q0 || x == e
    ensures q != [] && (q[0] == e || (q0 != [] && q[0] == q0[0]))
  {
    hide Sorted, Distinct;
    SortedKeys(at, q0);
    var i := |q0|;
    while i > 0 && !(at[e] >= at[q0[i - 1]])
      invariant 0 <= i <= |q0|
      invariant i < |q0| ==> at[e] < at[q0[i]]
    {
      i := i - 1;
    }
    q := q0[..i] + [e] + q0[i..];
    InsertedSorted(at, q0, e, i);
  }

  lemma InsertedSorted(at: map<nat, int>, q0: seq<nat>, e: nat, i: nat)
    requires Sorted(at, q0) && e in at && e !in q0 && Distinct(q0) && i <= |q0|
    requires i > 0 ==> at[e] >= at[q0[i - 1]]
    requires i < |q0| ==> at[e] < at[q0[i]]
    ensures var q := q0[..i] + [e] + q0[i..];
      Sorted(at, q) && Distinct(q) && forall x :: x in q <==> x in q0 || x == e
  {
    hide NotAfter;
    var q := q0[..i] + [e] + q0[i..];
    assert q0 == q0[..i] + q0[i..];
    assert forall x :: x in q <==> x in q0 || x == e;
    forall j, k | 0 <= j < k < |q| ensures NotAfter(at, q[j], q[k]) && q[j] != q[k] {
      InsertedPair(at, q0, e, i, j, k);
    }
  }

  lemma InsertedPair(at: map<nat, int>, q0: seq<nat>, e: nat, i: nat, j: nat, k: nat)
    requires Sorted(at, q0) && e in at && e !in q0 && Distinct(q0) && i <= |q0|
    requires i > 0 ==> at[e] >= at[q0[i - 1]]
    requires i < |q0| ==> at[e] < at[q0[i]]
    requires j < k <= |q0|
    ensures var q := q0[..i] + [e] + q0[i..];
      NotAfter(at, q[j], q[k]) && q[j] != q[k]
  {
    var q := q0[..i] + [e] + q0[i..];
    if j == i {
      assert q[k] == q0[k - 1];
      assert k - 1 > i ==> NotAfter(at, q0[i], q0[k - 1]);
    } else if k == i {
      assert q[j] == q0[j];
      assert j < i - 1 ==> NotAfter(at, q0[j], q0[i - 1]);
    } else {
      var j0, k0 := if j < i then j else j - 1, if k < i then k else k - 1;
      assert q[j] == q0[j0] && q[k] == q0[k0];
      assert NotAfter(at, q0[j0], q0[k0]);
    }
  }

  /** event_queue_insert for EVLIST_TIMEOUT, with ev_timeout set. */
  method Insert(t0: Times, e: nat, at: int, common: int) returns (t: Times)
    requires Inv(t0) && e in t0.on && !t0.on[e]
    ensures Inv(t) && Keys(t) && t.on == t0.on[e := true] && t.at == t0.at[e := at] &&
      t.common == t0.common[e := common]
    ensures t.heap == if IsCommon(t0, common) then t0.heap else t0.heap + {e}
    ensures |t.queues| == |t0.queues|
    ensures forall i :: 0 <= i < |t.queues| && i != common ==> t.queues[i] == t0.queues[i]
    ensures IsCommon(t0, common) ==>
      && (forall x :: x in t.queues[common] <==> x in t0.queues[common] || x == e)
      && t.queues[common] != []
      && (t.queues[common][0] == e || (t0.queues[common] != [] && t.queues[common][0] == t0.queues[common][0]))
    ensures Due(t) == Due(t0)[e := at]
  {
    hide Sorted, Distinct;
    t := t0.(on := t0.on[e := true], at := t0.at[e := at], common := t0.common[e := common]);
    if IsCommon(t, common) {
      assert QueueOk(t0, common);
      SortedElsewhere(t0.at, t0.queues[common], e, at);
      var q := InsertInOrder(t.at, t.queues[common], e);
      t := t.(queues := t.queues[common := q]);
    } else {
      t := t.(heap := t.heap + {e});
    }
    InsertInv(t0, e, at, common, t);
    DueInserted(t0, e, at, t);
  }

  lemma DueInserted(t0: Times, e: nat, at: int, t: Times)
    requires Keys(t0) && t.on == t0.on[e := true] && t.at == t0.at[e := at] && t.common.Keys == t.on.Keys
    ensures Due(t) == Due(t0)[e := at]
  {
  }

  lemma InsertInv(t0: Times, e: nat, at: int, common: int, t: Times)
    requires Inv(t0) && e in t0.on && !t0.on[e]
    requires t.on == t0.on[e := true] && t.at == t0.at[e := at] && t.common == t0.common[e := common]
    requires t.heap == if IsCommon(t0, common) then t0.heap else t0.heap + {e}
    requires |t.queues| == |t0.queues|
    requires forall i :: 0 <= i < |t.queues| && i != common ==> t.queues[i] == t0.queues[i]
    requires IsCommon(t0, common) ==>
      && Distinct(t.queues[common]) && Sorted(t.at, t.queues[common])
      && forall x :: x in t.queues[common] <==> x in t0.queues[common] || x == e
    ensures Inv(t)
  {
    hide Sorted, Distinct;
    forall i | 0 <= i < |t.queues| ensures QueueOk(t, i) {
      assert QueueOk(t0, i);
      if i != common {
        assert e !in t0.queues[i];
        SortedElsewhere(t0.at, t0.queues[i], e, at);
      }
    }
    forall x | x in t.on ensures Placed(t, x) {
      assert Placed(t0, x);
    }
  }

  /** Another event's time does not matter. */
  lemma SortedElsewhere(at: map<nat, int>, q: seq<nat>, e: nat, v: int)
    requires Sorted(at, q) && e !in q
    ensures Sorted(at[e := v], q)
  {
    forall i, j | 0 <= i < j < |q| ensures NotAfter(at[e := v], q[i], q[j]) {
      assert NotAfter(at, q[i], q[j]);
    }
  }

  lemma {:induction false} TopExists(t: Times, s: set<nat>) returns (e: nat)
    requires Keys(t) && s <= t.on.Keys && s != {}
    ensures e in s && forall x :: x in s ==> t.at[e] <= t.at[x]
    decreases |s|
  {
    e :| e in s;
    if s != {e} {
      var f := TopExists(t, s - {e});
      if t.at[f] < t.at[e] {
        e := f;
      }
    }
  }
}
