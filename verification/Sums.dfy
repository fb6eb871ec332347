/** Sums of the values of a map, for measures over a set of things that comes and goes. */
module Sums {
  ghost function Sum(m: map<nat, nat>): nat
    decreases |m|
  {
    if m == map[] then 0
    else
      var k :| k in m;
      Fewer(m, k);
      m[k] + Sum(m - {k})
  }

  lemma Fewer(m: map<nat, nat>, k: nat)
    requires k in m
    ensures |m - {k}| < |m|
  {
    assert (m - {k}).Keys == m.Keys - {k};
  }

  lemma {:induction false} SumWithout(m: map<nat, nat>, k: nat)
    requires k in m
    ensures Sum(m) == m[k] + Sum(m - {k})
    decreases |m|
  {
    var i :| i in m && Sum(m) == m[i] + Sum(m - {i});
    if i != k {
      Fewer(m, i);
      Fewer(m, k);
      SumWithout(m - {i}, k);
      SumWithout(m - {k}, i);
      assert m - {i} - {k} == m - {k} - {i};
    }
  }

  lemma SumChanged(f: map<nat, nat>, g: map<nat, nat>, k: nat)
    requires k in f && g.Keys == f.Keys && forall i :: i in f && i != k ==> g[i] == f[i]
    ensures Sum(g) + f[k] == Sum(f) + g[k]
  {
    SumWithout(f, k);
    SumWithout(g, k);
    assert f - {k} == g - {k};
  }

  lemma SumChangedTwice(f: map<nat, nat>, g: map<nat, nat>, k: nat, l: nat)
    requires k in f && l in f && k != l && g.Keys == f.Keys && forall i :: i in f && i != k && i != l ==> g[i] == f[i]
    ensures Sum(g) + f[k] + f[l] == Sum(f) + g[k] + g[l]
  {
    var h := f[k := g[k]];
    SumChanged(f, h, k);
    SumChanged(h, g, l);
  }

  lemma {:induction false} SumLower(f: map<nat, nat>, g: map<nat, nat>)
    requires g.Keys == f.Keys && forall i :: i in f ==> g[i] <= f[i]
    ensures Sum(g) <= Sum(f)
    decreases |f|
  {
    if f == map[] {
      assert g == map[];
    } else {
      var k :| k in f;
      Fewer(f, k);
      SumWithout(f, k);
      SumWithout(g, k);
      SumLower(f - {k}, g - {k});
    }
  }

  lemma SumFalls(f: map<nat, nat>, g: map<nat, nat>, k: nat)
    requires k in f && g.Keys == f.Keys && forall i :: i in f ==> g[i] <= f[i]
    ensures Sum(g) + f[k] <= Sum(f) + g[k]
  {
    SumWithout(f, k);
    SumWithout(g, k);
    SumLower(f - {k}, g - {k});
  }

  lemma SumAdded(m: map<nat, nat>, k: nat, v: nat)
    requires k !in m
    ensures Sum(m[k := v]) == Sum(m) + v
  {
    SumWithout(m[k := v], k);
    assert m[k := v] - {k} == m;
  }

  lemma {:induction false} SumBounded(m: map<nat, nat>, c: nat)
    requires forall k :: k in m ==> m[k] <= c
    ensures Sum(m) <= c * |m|
    decreases |m|
  {
    if m != map[] {
      var k :| k in m;
      SumWithout(m, k);
      assert (m - {k}).Keys == m.Keys - {k} && |m - {k}| == |m| - 1;
      SumBounded(m - {k}, c);
      assert c * |m| == c * (|m| - 1) + c;
    }
  }

  lemma {:induction false} SumOfZeros(m: map<nat, nat>)
    requires forall k :: k in m ==> m[k] == 0
    ensures Sum(m) == 0
    decreases |m|
  {
    if m != map[] {
      var k :| k in m;
      Fewer(m, k);
      SumWithout(m, k);
      SumOfZeros(m - {k});
    }
  }
}
