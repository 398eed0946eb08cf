/** Grouped sums: the `map[k] = (map[k] || 0) + v` loops of the ledger and the reports,
    stated once over a list of (key, amount) entries. */
module Tally {

  /** `m[k] || 0`: an absent key reads as 0. */
  function Bucket<K>(m: map<K, real>, k: K): real {
    if k in m then m[k] else 0.0
  }

  /** The map after adding every entry's amount into its key's bucket, in order. */
  function Accumulate<K>(es: seq<(K, real)>): map<K, real> {
    if es == [] then map[]
    else
      var m := Accumulate(es[..|es| - 1]);
      var e := es[|es| - 1];
      m[e.0 := Bucket(m, e.0) + e.1]
  }

  /** The sum of all amounts. */
  function Total<K>(es: seq<(K, real)>): real {
    if es == [] then 0.0 else Total(es[..|es| - 1]) + es[|es| - 1].1
  }

  /** One more entry adds its amount to its own bucket and to the total. */
  lemma AccumulateSnoc<K>(es: seq<(K, real)>, e: (K, real))
    ensures Accumulate(es + [e]) == Accumulate(es)[e.0 := Bucket(Accumulate(es), e.0) + e.1]
    ensures Total(es + [e]) == Total(es) + e.1
  {
    assert (es + [e])[..|es|] == es;
  }

  /** The sum of the amounts entered under `k`. */
  function KeySum<K(==)>(es: seq<(K, real)>, k: K): real {
    if es == [] then 0.0
    else KeySum(es[..|es| - 1], k) + (if es[|es| - 1].0 == k then es[|es| - 1].1 else 0.0)
  }

  /** The keys entered, in order of first appearance, each once. */
  function Keys<K(==)>(es: seq<(K, real)>): (ks: seq<K>)
    ensures forall i, j :: 0 <= i < j < |ks| ==> ks[i] != ks[j]
  {
    if es == [] then []
    else
      var ks := Keys(es[..|es| - 1]);
      if es[|es| - 1].0 in ks then ks else ks + [es[|es| - 1].0]
  }

  /** A key has a bucket, and is listed by `Keys`, exactly when some entry carries it. */
  lemma {:induction false} AccumulateDomain<K>(es: seq<(K, real)>, k: K)
    ensures k in Accumulate(es) <==> exists i :: 0 <= i < |es| && es[i].0 == k
    ensures k in Keys(es) <==> k in Accumulate(es)
  {
    if es != [] {
      var init := es[..|es| - 1];
      AccumulateDomain(init, k);
      if k in Accumulate(init) {
        var i :| 0 <= i < |init| && init[i].0 == k;
        assert es[i] == init[i];
      } else if k != es[|es| - 1].0 {
        forall i | 0 <= i < |es| ensures es[i].0 != k {
          if i < |init| {
            assert es[i] == init[i];
          }
        }
      }
    }
  }

  /** Each bucket holds the sum of the amounts entered under its key. */
  lemma {:induction false} AccumulateValue<K>(es: seq<(K, real)>, k: K)
    ensures Bucket(Accumulate(es), k) == KeySum(es, k)
  {
    if es != [] {
      AccumulateValue(es[..|es| - 1], k);
    }
  }

  /** The values of `m` under `keys`, added up. */
  function SumValues<K>(m: map<K, real>, keys: seq<K>): real {
    if keys == [] then 0.0
    else SumValues(m, keys[..|keys| - 1]) + Bucket(m, keys[|keys| - 1])
  }

  /** Changing the value of a key not listed leaves the sum alone. */
  lemma {:induction false} SumValuesIgnores<K>(m: map<K, real>, keys: seq<K>, k: K, v: real)
    requires k !in keys
    ensures SumValues(m[k := v], keys) == SumValues(m, keys)
  {
    if keys != [] {
      SumValuesIgnores(m, keys[..|keys| - 1], k, v);
    }
  }

  /** Adding `c` to the bucket of a key listed once adds `c` to the sum. */
  lemma {:induction false} SumValuesBump<K>(m: map<K, real>, keys: seq<K>, k: K, c: real)
    requires forall i, j :: 0 <= i < j < |keys| ==> keys[i] != keys[j]
    requires k in keys
    ensures SumValues(m[k := Bucket(m, k) + c], keys) == SumValues(m, keys) + c
  {
    var init := keys[..|keys| - 1];
    if keys[|keys| - 1] == k {
      forall i | 0 <= i < |init| ensures init[i] != k {
        assert init[i] == keys[i];
      }
      SumValuesIgnores(m, init, k, Bucket(m, k) + c);
    } else {
      var i :| 0 <= i < |keys| && keys[i] == k;
      assert init[i] == k;
      SumValuesBump(m, init, k, c);
    }
  }

  /** Every entry lands in exactly one bucket: the buckets add up to the total. */
  lemma {:induction false} BucketsSumToTotal<K>(es: seq<(K, real)>)
    ensures SumValues(Accumulate(es), Keys(es)) == Total(es)
  {
    if es != [] {
      var init := es[..|es| - 1];
      var e := es[|es| - 1];
      var m := Accumulate(init);
      BucketsSumToTotal(init);
      AccumulateDomain(init, e.0);
      if e.0 in Keys(init) {
        SumValuesBump(m, Keys(init), e.0, e.1);
      } else {
        var ks := Keys(init) + [e.0];
        assert ks[..|ks| - 1] == Keys(init);
        SumValuesIgnores(m, Keys(init), e.0, Bucket(m, e.0) + e.1);
      }
    }
  }
}
