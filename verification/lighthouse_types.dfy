/** The audit engine's raw result and the dictionary and rounding primitives the formatters use. */
module LighthouseTypes {
  import opened Wrappers
  import opened Seqs

  /** The keys of a dictionary, in insertion order. */
  function Keys<V>(m: seq<(string, V)>): (ks: seq<string>)
    ensures |ks| == |m|
    ensures forall i :: 0 <= i < |m| ==> ks[i] == m[i].0
  {
    if m == [] then [] else Keys(m[..|m| - 1]) + [m[|m| - 1].0]
  }

  /** No key occurs twice. */
  predicate DistinctKeys<V>(m: seq<(string, V)>) {
    forall i, j :: 0 <= i < j < |m| ==> m[i].0 != m[j].0
  }

  /** Distinct keys are the same as a duplicate-free key list. */
  lemma DistinctKeysIff<V>(m: seq<(string, V)>)
    ensures DistinctKeys(m) <==> Distinct(Keys(m))
  {
  }

  /** A JavaScript object used as a dictionary: its entries in insertion order, each key once. */
  type Dict<V> = m: seq<(string, V)> | DistinctKeys(m) witness []

  /** `m[key]`, where an absent key gives `undefined`. */
  function Lookup<V>(m: seq<(string, V)>, key: string): (r: Option<V>)
    ensures r.Some? <==> key in Keys(m)
    ensures r.Some? ==> (key, r.value) in m
  {
    if m == [] then None
    else if m[|m| - 1].0 == key then Some(m[|m| - 1].1)
    else Lookup(m[..|m| - 1], key)
  }

  /** In a dictionary, the entry stored under a key is what looking the key up gives. */
  lemma {:induction false} LookupEntry<V>(m: Dict<V>, i: nat)
    requires i < |m|
    ensures Lookup(m, m[i].0) == Some(m[i].1)
    decreases |m|
  {
    if i < |m| - 1 {
      var pre := m[..|m| - 1];
      assert m[|m| - 1].0 != m[i].0;
      LookupEntry(pre, i);
    }
  }

  /** Walking a dictionary in order, the next key has not been seen yet. */
  lemma NextKeyIsNew<V>(m: Dict<V>, i: nat)
    requires i < |m|
    ensures m[..i + 1] == m[..i] + [m[i]]
    ensures m[i].0 !in Keys(m[..i])
  {
  }

  /** `m[key] = value`: overwrites the entry of an existing key in place, appends a new key. */
  function Put<V>(m: Dict<V>, key: string, value: V): (r: Dict<V>)
    ensures Keys(r) == if key in Keys(m) then Keys(m) else Keys(m) + [key]
    ensures Lookup(r, key) == Some(value)
    ensures key !in Keys(m) ==> r == m + [(key, value)]
  {
    if key in Keys(m) then
      var i := FirstIndex(Keys(m), key);
      var r := m[i := (key, value)];
      assert Keys(r) == Keys(m);
      assert DistinctKeys(r) by { assert forall j :: 0 <= j < |m| ==> r[j].0 == m[j].0; }
      LookupEntry(r, i);
      r
    else
      var r := m + [(key, value)];
      assert Keys(r) == Keys(m) + [key];
      assert forall j :: 0 <= j < |m| ==> r[j].0 == Keys(m)[j];
      r
  }

  /** Overwriting an existing key changes that entry alone and keeps every position. */
  lemma PutExisting<V>(m: Dict<V>, key: string, value: V)
    requires key in Keys(m)
    ensures |Put(m, key, value)| == |m|
    ensures forall i :: 0 <= i < |m| ==> Put(m, key, value)[i] == if m[i].0 == key then (key, value) else m[i]
  {
  }

  /** Writing one key leaves what every other key looks up to unchanged. */
  lemma LookupPutOther<V>(m: Dict<V>, key: string, value: V, other: string)
    requires other != key
    ensures Lookup(Put(m, key, value), other) == Lookup(m, other)
  {
    if key in Keys(m) {
      PutExisting(m, key, value);
      LookupSameEntries(m, Put(m, key, value), other);
    } else {
      assert Put(m, key, value)[..|m|] == m;
    }
  }

  /** Two entry lists that agree at every position holding `key` look it up alike. */
  lemma {:induction false} LookupSameEntries<V>(m: seq<(string, V)>, r: seq<(string, V)>, key: string)
    requires |m| == |r|
    requires forall i :: 0 <= i < |m| && (m[i].0 == key || r[i].0 == key) ==> r[i] == m[i]
    ensures Lookup(r, key) == Lookup(m, key)
    decreases |m|
  {
    if m != [] {
      LookupSameEntries(m[..|m| - 1], r[..|r| - 1], key);
    }
  }

  /** The keys of two entry lists placed one after the other. */
  lemma {:induction false} KeysAppend<V>(a: seq<(string, V)>, b: seq<(string, V)>)
    ensures Keys(a + b) == Keys(a) + Keys(b)
  {
    assert |Keys(a + b)| == |Keys(a) + Keys(b)|;
    forall i | 0 <= i < |a + b| ensures Keys(a + b)[i] == (Keys(a) + Keys(b))[i] {
      if i >= |a| {
        assert (a + b)[i] == b[i - |a|];
      }
    }
  }

  /** Looking a key up in two entry lists placed one after the other: the later list wins. */
  lemma {:induction false} LookupAppend<V>(a: seq<(string, V)>, b: seq<(string, V)>, key: string)
    ensures Lookup(a + b, key) == if Lookup(b, key).Some? then Lookup(b, key) else Lookup(a, key)
    decreases |b|
  {
    if b == [] {
      assert a + b == a;
    } else {
      var pre := b[..|b| - 1];
      LookupAppend(a, pre, key);
      assert (a + b)[..|a + b| - 1] == a + pre;
    }
  }

  /** `Math.round`: the nearest integer, halves rounded up. */
  function Round(x: real): (n: int)
    ensures x - 0.5 < n as real <= x + 0.5
  {
    (x + 0.5).Floor
  }

  /** Rounding is monotonic. */
  lemma RoundMonotonic(x: real, y: real)
    requires x <= y
    ensures Round(x) <= Round(y)
  {
  }

  /** A fraction in [0, 1] rescaled to a percentage rounds to an integer in 0..100. */
  lemma RoundPercentBounds(s: real)
    requires 0.0 <= s <= 1.0
    ensures 0 <= Round(s * 100.0) <= 100
  {
    RoundMonotonic(0.0, s * 100.0);
    RoundMonotonic(s * 100.0, 100.0);
  }

  /** One category of the raw result (`LighthouseCategory`); `score` is `None` when null or missing. */
  datatype Category = Category(
    title: string,
    score: Option<real>,
    description: string,
    auditRefs: Option<seq<string>>)

  /** One entry of `details.items`; every field is optional. */
  datatype Item = Item(
    url: Option<string>,
    totalBytes: Option<real>,
    wastedBytes: Option<real>,
    transferSize: Option<real>,
    resourceSize: Option<real>,
    mimeType: Option<string>,
    resourceType: Option<string>)

  datatype Details = Details(items: Option<seq<Item>>)

  /** One audit of the raw result (`LighthouseAudit`); `score` is `None` when null. */
  datatype Audit = Audit(
    title: string,
    description: Option<string>,
    numericValue: Option<real>,
    displayValue: Option<string>,
    score: Option<real>,
    scoreDisplayMode: Option<string>,
    details: Option<Details>)

  /** The raw result of one audit run (`LighthouseResult["lhr"]`). */
  datatype Lhr = Lhr(
    finalDisplayedUrl: string,
    fetchTime: string,
    lighthouseVersion: string,
    userAgent: string,
    categories: Dict<Category>,
    audits: Dict<Audit>)
}
