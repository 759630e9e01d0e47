/** Totals over finite maps. */
module Sums {
  ghost function Sum<K>(m: map<K, nat>): nat {
    if m == map[] then 0
    else
      var k :| k in m;
      m[k] + Sum(m - {k})
  }

  /** Any entry may be counted first. */
  lemma {:induction false} SumWithout<K>(m: map<K, nat>, k: K)
    requires k in m
    ensures Sum(m) == m[k] + Sum(m - {k})
    decreases |m|
  {
    var first :| first in m && Sum(m) == m[first] + Sum(m - {first});
    if first != k {
      assert |m - {first}| < |m| by {
        assert (m - {first}).Keys == m.Keys - {first};
      }
      assert |m - {k}| < |m| by {
        assert (m - {k}).Keys == m.Keys - {k};
      }
      SumWithout(m - {first}, k);
      SumWithout(m - {k}, first);
      assert m - {first} - {k} == m - {k} - {first};
    }
  }

  /** Setting an entry changes the total by the difference. */
  lemma SumSet<K>(m: map<K, nat>, k: K, value: nat)
    ensures Sum(m[k := value]) == Sum(m) + value - (if k in m then m[k] else 0)
  {
    SumWithout(m[k := value], k);
    if k in m {
      SumWithout(m, k);
      assert m[k := value] - {k} == m - {k};
    } else {
      assert m[k := value] - {k} == m;
    }
  }

  lemma {:induction false} AllZero<K>(m: map<K, nat>)
    requires forall k :: k in m ==> m[k] == 0
    ensures Sum(m) == 0
    decreases |m|
  {
    if m != map[] {
      var k :| k in m;
      SumWithout(m, k);
      assert (m - {k}).Keys == m.Keys - {k};
      AllZero(m - {k});
    }
  }
}
