/**
 * PostMeta: a post's multi-valued meta (key to the sequence of its values, in
 * insertion order) and the filtered copy the plugin makes of it.
 */
module PostMeta {

  type MetaKey = string

  /** Values are opaque here: maybe_unserialize and the re-serialisation on write are not modelled. */
  type MetaValue = string

  /** What get_post_meta($id) returns: every key with all its values. */
  type MetaMap = map<MetaKey, seq<MetaValue>>

  /** Keys that describe the source instance and are never copied. */
  const ExcludedKeys: set<MetaKey> := {"_wp_old_slug", "_edit_lock", "_edit_last"}

  /**
   * Keys add_metadata refuses without writing: the empty string, and "0",
   * which PHP turns into the integer array key 0 when get_post_meta returns it.
   */
  predicate FalsyKey(k: MetaKey)
  {
    k == "" || k == "0"
  }

  /** Keys whose values reach a duplicate: neither excluded by the plugin nor refused by add_metadata. */
  predicate Copyable(k: MetaKey)
  {
    k !in ExcludedKeys && !FalsyKey(k)
  }

  /** The values stored under `k`, none when the key is absent. */
  function Values(m: MetaMap, k: MetaKey): seq<MetaValue>
  {
    if k in m then m[k] else []
  }

  /** The effect of one add_post_meta call: `v` becomes the last value under `k`, unless the key is falsy. */
  function AddMeta(m: MetaMap, k: MetaKey, v: MetaValue): (r: MetaMap)
    ensures FalsyKey(k) ==> r == m
    ensures !FalsyKey(k) ==> r.Keys == m.Keys + {k} && Values(r, k) == Values(m, k) + [v]
    ensures forall j :: j != k ==> Values(r, j) == Values(m, j)
  {
    if FalsyKey(k) then m else m[k := Values(m, k) + [v]]
  }

  /**
   * The inner loop over one key's values, as a sequence of calls: each value is
   * skipped when the key is excluded and otherwise added with AddMeta.
   */
  function CopyValues(m: MetaMap, k: MetaKey, vals: seq<MetaValue>): MetaMap
  {
    if vals == [] then m
    else
      var prev := CopyValues(m, k, vals[..|vals| - 1]);
      if k in ExcludedKeys then prev else AddMeta(prev, k, vals[|vals| - 1])
  }

  /**
   * Copying one key's values appends all of them, in order, unless the key is
   * excluded or falsy; no other key changes, and a key with no values is not
   * created.
   */
  lemma {:induction false} CopyValuesAppends(m: MetaMap, k: MetaKey, vals: seq<MetaValue>)
    ensures CopyValues(m, k, vals) ==
      if !Copyable(k) || vals == [] then m else m[k := Values(m, k) + vals]
  {
    if vals != [] {
      var init := vals[..|vals| - 1];
      CopyValuesAppends(m, k, init);
      if Copyable(k) && init != [] {
        assert Values(m, k) + init + [vals[|vals| - 1]] == Values(m, k) + vals;
      }
      if init == [] {
        assert vals == [vals[0]];
      }
    }
  }

  /** True when key `k` of `src` is one the copy writes once the outer loop has visited the keys in `done`. */
  predicate Copies(src: MetaMap, done: set<MetaKey>, k: MetaKey)
  {
    k in done && k in src && Copyable(k) && src[k] != []
  }

  /**
   * The destination meta after the outer loop has visited the keys in `done` of
   * the source snapshot `src`: each such non-excluded key has the source's
   * values appended after what the destination already held.
   */
  function CopyKeys(dst: MetaMap, src: MetaMap, done: set<MetaKey>): MetaMap
  {
    map k | k in dst.Keys + src.Keys && (k in dst || Copies(src, done, k)) ::
      Values(dst, k) + (if Copies(src, done, k) then src[k] else [])
  }

  /** Before any key is visited nothing has been written. */
  lemma CopyKeysNone(dst: MetaMap, src: MetaMap)
    ensures CopyKeys(dst, src, {}) == dst
  {
    var r := CopyKeys(dst, src, {});
    assert r.Keys == dst.Keys;
    forall k | k in dst ensures r[k] == dst[k] {
      assert Values(dst, k) + [] == dst[k];
    }
  }

  /** Visiting a key whose values are not copied leaves the destination as it was. */
  lemma CopyKeysSkip(dst: MetaMap, src: MetaMap, done: set<MetaKey>, k: MetaKey)
    requires k in src && (!Copyable(k) || src[k] == [])
    ensures CopyKeys(dst, src, done + {k}) == CopyKeys(dst, src, done)
  {
    var before, after := CopyKeys(dst, src, done), CopyKeys(dst, src, done + {k});
    assert !Copies(src, done + {k}, k) && !Copies(src, done, k);
    forall j | j != k ensures Copies(src, done + {k}, j) == Copies(src, done, j) {}
    assert after.Keys == before.Keys;
    forall j | j in after ensures after[j] == before[j] {}
  }

  /** Visiting a copied key not yet visited appends its values to the destination's. */
  lemma CopyKeysAppend(dst: MetaMap, src: MetaMap, done: set<MetaKey>, k: MetaKey)
    requires k in src && k !in done && Copyable(k) && src[k] != []
    ensures CopyKeys(dst, src, done + {k}) == CopyKeys(dst, src, done)[k := Values(dst, k) + src[k]]
  {
    var before, after := CopyKeys(dst, src, done), CopyKeys(dst, src, done + {k});
    var expected := before[k := Values(dst, k) + src[k]];
    assert Copies(src, done + {k}, k) && !Copies(src, done, k);
    forall j | j != k ensures Copies(src, done + {k}, j) == Copies(src, done, j) {}
    assert after.Keys == expected.Keys;
    forall j | j in after ensures after[j] == expected[j] {}
  }

  /** Visiting one more key is exactly the inner loop over that key's values. */
  lemma CopyKeysStep(dst: MetaMap, src: MetaMap, done: set<MetaKey>, k: MetaKey)
    requires k in src && k !in done
    ensures CopyValues(CopyKeys(dst, src, done), k, src[k]) == CopyKeys(dst, src, done + {k})
  {
    var before := CopyKeys(dst, src, done);
    CopyValuesAppends(before, k, src[k]);
    if !Copyable(k) || src[k] == [] {
      CopyKeysSkip(dst, src, done, k);
    } else {
      assert Values(before, k) == Values(dst, k);
      CopyKeysAppend(dst, src, done, k);
    }
  }

  /** The reference definition: the source's meta without the excluded and the falsy keys. */
  function WithoutExcluded(src: MetaMap): MetaMap
  {
    map k | k in src && Copyable(k) && src[k] != [] :: src[k]
  }

  /** Copying every key into a post that has no meta yet yields the source's meta without the excluded and falsy keys. */
  lemma CopyIntoEmpty(src: MetaMap)
    ensures CopyKeys(map[], src, src.Keys) == WithoutExcluded(src)
  {
    var r, w := CopyKeys(map[], src, src.Keys), WithoutExcluded(src);
    assert r.Keys == w.Keys;
    forall k | k in w ensures r[k] == w[k] {
      assert [] + src[k] == src[k];
    }
  }

  /**
   * What the copy does key by key: an excluded or falsy key keeps the
   * destination's values even when the source has some; any other key gets
   * every source value appended, in source order.
   */
  lemma CopyKeysValues(dst: MetaMap, src: MetaMap, k: MetaKey)
    ensures !Copyable(k) ==> Values(CopyKeys(dst, src, src.Keys), k) == Values(dst, k)
    ensures Copyable(k) ==> Values(CopyKeys(dst, src, src.Keys), k) == Values(dst, k) + Values(src, k)
  {
  }

  /**
   * The lock, last-editor and old-slug keys never reach the copy, nor do the
   * keys add_metadata refuses; every other non-empty key arrives with all its values.
   */
  lemma WithoutExcludedDropsInstanceKeys(src: MetaMap)
    ensures "_wp_old_slug" !in WithoutExcluded(src)
    ensures "_edit_lock" !in WithoutExcluded(src)
    ensures "_edit_last" !in WithoutExcluded(src)
    ensures "" !in WithoutExcluded(src) && "0" !in WithoutExcluded(src)
    ensures forall k :: k in src && Copyable(k) && src[k] != [] ==> k in WithoutExcluded(src) && WithoutExcluded(src)[k] == src[k]
  {
  }
}
