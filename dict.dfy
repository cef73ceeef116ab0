/** A plain JavaScript object used as a dictionary, as the chart helpers use
    `categoryData`, `dailyData` and `monthlyData`: entries in the order their
    keys were first assigned, so that `Object.values` and `Object.entries`
    read them in that order. Assigning to a key already present keeps its
    place. */
module Dict {

  datatype Entry<V> = Entry(key: string, value: V)

  /** The position of `k`, or -1. */
  function IndexOf<V>(es: seq<Entry<V>>, k: string): (i: int)
    ensures -1 <= i < |es|
    ensures i >= 0 ==> es[i].key == k && forall j :: 0 <= j < i ==> es[j].key != k
    ensures i < 0 ==> forall j :: 0 <= j < |es| ==> es[j].key != k
  {
    if es == [] then -1
    else if es[0].key == k then 0
    else
      var i := IndexOf(es[1..], k);
      assert forall j :: 1 <= j < |es| ==> es[j] == es[1..][j - 1];
      if i < 0 then -1 else i + 1
  }

  predicate Has<V>(es: seq<Entry<V>>, k: string) {
    IndexOf(es, k) >= 0
  }

  /** `obj[k]`, or `d` when the key is missing. */
  function Lookup<V>(es: seq<Entry<V>>, k: string, d: V): V {
    var i := IndexOf(es, k);
    if i >= 0 then es[i].value else d
  }

  /** Every key is stored once. */
  predicate DistinctKeys<V>(es: seq<Entry<V>>) {
    forall i, j :: 0 <= i < j < |es| ==> es[i].key != es[j].key
  }

  /** `obj[k] = f(obj[k] ?? init)`: the value in place when present, a new
      entry at the end otherwise. */
  function Upsert<V>(es: seq<Entry<V>>, k: string, init: V, f: V -> V): (r: seq<Entry<V>>)
    ensures Has(es, k) ==> |r| == |es|
    ensures !Has(es, k) ==> |r| == |es| + 1 && r[..|es|] == es
  {
    var i := IndexOf(es, k);
    if i >= 0 then es[i := Entry(k, f(es[i].value))] else es + [Entry(k, f(init))]
  }

  /** After the assignment the key is present with its new value, and every
      other key reads as before. */
  lemma UpsertLookup<V>(es: seq<Entry<V>>, k: string, init: V, f: V -> V, k': string, d: V)
    ensures Has(Upsert(es, k, init, f), k') <==> k' == k || Has(es, k')
    ensures Lookup(Upsert(es, k, init, f), k', d)
            == if k' == k then f(Lookup(es, k, init)) else Lookup(es, k', d)
  {
    var r := Upsert(es, k, init, f);
    var i := IndexOf(es, k);
    var i' := IndexOf(es, k');
    if i >= 0 {
      assert forall j :: 0 <= j < |r| ==> r[j].key == es[j].key;
      assert IndexOf(r, k') == i';
    } else {
      assert forall j :: 0 <= j < |es| ==> r[j] == es[j];
      if k' == k {
        assert r[|es|].key == k;
        assert IndexOf(r, k') == |es|;
      } else {
        assert IndexOf(r, k') == i';
      }
    }
  }

  /** The assignment never stores a key twice. */
  lemma UpsertDistinct<V>(es: seq<Entry<V>>, k: string, init: V, f: V -> V)
    requires DistinctKeys(es)
    ensures DistinctKeys(Upsert(es, k, init, f))
  {
    var r := Upsert(es, k, init, f);
    if IndexOf(es, k) >= 0 {
      assert forall j :: 0 <= j < |r| ==> r[j].key == es[j].key;
    } else {
      assert forall j :: 0 <= j < |es| ==> r[j] == es[j];
    }
  }

  /** `Object.values(obj)`. */
  function Values<V>(es: seq<Entry<V>>): (vs: seq<V>)
    ensures |vs| == |es|
    ensures forall i :: 0 <= i < |es| ==> vs[i] == es[i].value
  {
    if es == [] then [] else Values(es[..|es| - 1]) + [es[|es| - 1].value]
  }

  /** The sum of one numeric field over all entries. */
  function SumOver<V>(es: seq<Entry<V>>, p: V -> int): int {
    if es == [] then 0 else SumOver(es[..|es| - 1], p) + p(es[|es| - 1].value)
  }

  lemma {:induction false} SumOverUpdate<V>(es: seq<Entry<V>>, i: nat, e: Entry<V>, p: V -> int)
    requires i < |es|
    ensures SumOver(es[i := e], p) == SumOver(es, p) - p(es[i].value) + p(e.value)
    decreases |es|
  {
    var n := |es| - 1;
    if i < n {
      assert es[i := e][..n] == es[..n][i := e];
      SumOverUpdate(es[..n], i, e, p);
    } else {
      assert es[i := e][..n] == es[..n];
    }
  }

  /** An assignment changes the sum by the change in the one value. */
  lemma UpsertSum<V>(es: seq<Entry<V>>, k: string, init: V, f: V -> V, p: V -> int)
    ensures SumOver(Upsert(es, k, init, f), p)
            == SumOver(es, p) - (if Has(es, k) then p(Lookup(es, k, init)) else 0)
               + p(f(Lookup(es, k, init)))
  {
    var i := IndexOf(es, k);
    if i >= 0 {
      SumOverUpdate(es, i, Entry(k, f(es[i].value)), p);
    } else {
      var r := Upsert(es, k, init, f);
      assert r[..|r| - 1] == es;
    }
  }
}
