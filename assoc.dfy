/** JavaScript plain objects as ordered lists of (key, value) entries. Key order matters to
    the site: `Object.keys(o)[0]`, `Object.keys(o).find(...)` and `Object.entries(o)` all
    follow insertion order, and `{ ...o, [k]: v }` keeps an existing key in place and
    appends a new one at the end. JavaScript lists integer-like keys ("0", "42") first, in
    ascending order, ahead of the others; every key the site uses (section ids and field
    names) is an identifier, so insertion order is the whole story here. */
module Assoc {
  import opened Wrappers

  type Assoc<V> = seq<(string, V)>

  /** `Object.keys(m)`. */
  function Keys<V>(m: Assoc<V>): (ks: seq<string>)
    ensures |ks| == |m|
    ensures forall i :: 0 <= i < |m| ==> ks[i] == m[i].0
  {
    if |m| == 0 then [] else [m[0].0] + Keys(m[1..])
  }

  /** No key occurs twice, which every JavaScript object guarantees. */
  predicate UniqueKeys<V>(m: Assoc<V>)
  {
    forall i, j :: 0 <= i < j < |m| ==> m[i].0 != m[j].0
  }

  /** `m[k]`, with `None` for `undefined`. */
  function Get<V>(m: Assoc<V>, k: string): (r: Option<V>)
    ensures r.None? <==> k !in Keys(m)
  {
    if |m| == 0 then None
    else if m[0].0 == k then Some(m[0].1)
    else Get(m[1..], k)
  }

  /** With unique keys, `Get` returns the value of the one entry holding the key. */
  lemma {:induction false} GetAt<V>(m: Assoc<V>, i: nat)
    requires UniqueKeys(m) && i < |m|
    ensures Get(m, m[i].0) == Some(m[i].1)
  {
    if i > 0 {
      assert m[0].0 != m[i].0;
      assert m[1..][i - 1] == m[i];
      GetAt(m[1..], i - 1);
    }
  }

  /** `{ ...m, [k]: v }`: `k` now maps to `v` and every other key keeps its value. */
  function Set<V>(m: Assoc<V>, k: string, v: V): (r: Assoc<V>)
    ensures Get(r, k) == Some(v)
    ensures forall k' :: k' != k ==> Get(r, k') == Get(m, k')
  {
    if |m| == 0 then [(k, v)]
    else if m[0].0 == k then [(k, v)] + m[1..]
    else [m[0]] + Set(m[1..], k, v)
  }

  /** Setting keeps the key order, except that a new key goes last. */
  lemma {:induction false} SetKeys<V>(m: Assoc<V>, k: string, v: V)
    ensures Keys(Set(m, k, v)) == if k in Keys(m) then Keys(m) else Keys(m) + [k]
  {
    if |m| > 0 && m[0].0 != k {
      SetKeys(m[1..], k, v);
      assert Keys(m) == [m[0].0] + Keys(m[1..]);
    }
  }

  /** Setting never introduces a duplicate key. */
  lemma SetUnique<V>(m: Assoc<V>, k: string, v: V)
    requires UniqueKeys(m)
    ensures UniqueKeys(Set(m, k, v))
  {
    SetKeys(m, k, v);
    var r := Set(m, k, v);
    assert Keys(r) == if k in Keys(m) then Keys(m) else Keys(m) + [k];
    forall i, j | 0 <= i < j < |r| ensures r[i].0 != r[j].0 {
      assert Keys(r)[i] == r[i].0 && Keys(r)[j] == r[j].0;
      if k !in Keys(m) && j == |m| {
        assert r[i].0 == Keys(m)[i];
      } else {
        assert Keys(m)[i] == m[i].0 && Keys(m)[j] == m[j].0;
      }
    }
  }

  /** The keys of `patch` that `m` does not have yet, in `patch` order. */
  function NewKeys(patch: seq<string>, m: seq<string>): seq<string>
  {
    if |patch| == 0 then []
    else (if patch[0] in m then [] else [patch[0]]) + NewKeys(patch[1..], m)
  }

  /** `{ ...prev, ...patch }`: a key of `patch` takes `patch`'s value, any other key keeps
      `prev`'s. */
  function Merge<V>(prev: Assoc<V>, patch: Assoc<V>): (r: Assoc<V>)
    requires UniqueKeys(patch)
    ensures forall k :: Get(r, k) == if k in Keys(patch) then Get(patch, k) else Get(prev, k)
    decreases |patch|
  {
    if |patch| == 0 then prev
    else
      var r := Merge(Set(prev, patch[0].0, patch[0].1), patch[1..]);
      assert Keys(patch) == [patch[0].0] + Keys(patch[1..]);
      r
  }

  lemma {:induction false} NewKeysSkip(patch: seq<string>, m: seq<string>, k: string)
    requires k !in patch
    ensures NewKeys(patch, if k in m then m else m + [k]) == NewKeys(patch, m)
  {
    if |patch| > 0 {
      NewKeysSkip(patch[1..], m, k);
    }
  }

  lemma CombineKeys(kp: seq<string>, ks: seq<string>, k: string, pk: seq<string>, rk: seq<string>, out: seq<string>)
    requires pk == [k] + rk && k !in rk
    requires ks == if k in kp then kp else kp + [k]
    requires out == ks + NewKeys(rk, ks)
    ensures out == kp + NewKeys(pk, kp)
  {
    NewKeysSkip(rk, kp, k);
    assert pk[0] == k && pk[1..] == rk;
    if k !in kp {
      assert kp + [k] + NewKeys(rk, kp) == kp + ([k] + NewKeys(rk, kp));
    }
  }

  /** `prev`'s keys keep their places and `patch`'s new keys follow, in `patch` order. */
  lemma {:induction false} MergeKeys<V>(prev: Assoc<V>, patch: Assoc<V>)
    requires UniqueKeys(patch)
    ensures Keys(Merge(prev, patch)) == Keys(prev) + NewKeys(Keys(patch), Keys(prev))
    decreases |patch|
  {
    if |patch| > 0 {
      var k := patch[0].0;
      var step := Set(prev, k, patch[0].1);
      var rest := patch[1..];
      assert UniqueKeys(rest);
      assert k !in Keys(rest) by {
        forall i | 0 <= i < |rest| ensures Keys(rest)[i] != k {
          assert rest[i] == patch[i + 1];
        }
      }
      assert Keys(patch) == [k] + Keys(rest);
      SetKeys(prev, k, patch[0].1);
      MergeKeys(step, rest);
      assert Merge(prev, patch) == Merge(step, rest);
      CombineKeys(Keys(prev), Keys(step), k, Keys(patch), Keys(rest), Keys(Merge(step, rest)));
    }
  }

  /** Merging two objects never duplicates a key. */
  lemma {:induction false} MergeUnique<V>(prev: Assoc<V>, patch: Assoc<V>)
    requires UniqueKeys(patch) && UniqueKeys(prev)
    ensures UniqueKeys(Merge(prev, patch))
    decreases |patch|
  {
    if |patch| > 0 {
      SetUnique(prev, patch[0].0, patch[0].1);
      assert UniqueKeys(patch[1..]);
      MergeUnique(Set(prev, patch[0].0, patch[0].1), patch[1..]);
    }
  }
}
