/** Sizes of finite sets and sums over finite maps. */
module Counting {
  import opened Base

  lemma SubsetSize<T>(a: set<T>, b: set<T>)
    requires a <= b
    ensures |a| <= |b|
    ensures |a| == |b| ==> a == b
  {
    assert b == a + (b - a);
  }

  ghost function Sum(m: map<Uuid, nat>): nat {
    if m == map[] then 0 else
      var k :| k in m;
      m[k] + Sum(m - {k})
  }

  lemma {:induction false} SumRemove(m: map<Uuid, nat>, k: Uuid)
    requires k in m
    ensures Sum(m) == m[k] + Sum(m - {k})
  {
    var j :| j in m && Sum(m) == m[j] + Sum(m - {j});
    if j != k {
      SumRemove(m - {j}, k);
      SumRemove(m - {k}, j);
      assert m - {j} - {k} == m - {k} - {j};
    }
  }

  /** A map whose values never grow loses at least one per value that changed. */
  lemma {:induction false} SumDecrease(a: map<Uuid, nat>, b: map<Uuid, nat>, changed: set<Uuid>)
    requires a.Keys == b.Keys && changed <= a.Keys
    requires forall k | k in a :: b[k] <= a[k] && (k in changed ==> b[k] < a[k])
    ensures Sum(b) + |changed| <= Sum(a)
    decreases |a|
  {
    if a == map[] {
      assert b == map[] && changed == {};
    } else {
      var k :| k in a;
      SumRemove(a, k);
      SumRemove(b, k);
      SumDecrease(a - {k}, b - {k}, changed - {k});
    }
  }

  lemma {:induction false} FreshId(used: set<Uuid>) returns (id: Uuid)
    ensures id !in used
    ensures forall u | u in used :: u < id
  {
    if used == {} {
      id := 0;
    } else {
      var u :| u in used;
      var above := FreshId(used - {u});
      id := Max(above, u + 1);
      assert forall v | v in used :: v == u || v in used - {u};
    }
  }

  lemma {:induction false} LeastBy(ids: set<Uuid>, key: Uuid -> int) returns (least: Uuid)
    requires ids != {}
    ensures least in ids && forall id | id in ids :: key(least) <= key(id)
  {
    var one :| one in ids;
    least := one;
    if ids != {one} {
      assert ids - {one} != {} by {
        assert ids == (ids - {one}) + {one};
      }
      var other := LeastBy(ids - {one}, key);
      least := if key(one) <= key(other) then one else other;
      assert forall id | id in ids :: id == one || id in ids - {one};
    }
  }
}
