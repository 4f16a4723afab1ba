/** Python dictionaries as association lists that keep insertion order:
    assigning to a present key replaces its value where it stands, assigning to
    a new key appends it. Also the order-keeping de-duplication of a list. */
module OrderedMaps {
  import opened Wrappers

  predicate Distinct<T(==)>(s: seq<T>) {
    forall i, j :: 0 <= i < j < |s| ==> s[i] != s[j]
  }

  /** The keys of a dictionary, in iteration order. */
  function Keys<K, V>(m: seq<(K, V)>): (ks: seq<K>)
    ensures |ks| == |m|
    ensures forall i :: 0 <= i < |m| ==> ks[i] == m[i].0
  {
    if m == [] then [] else Keys(m[..|m| - 1]) + [m[|m| - 1].0]
  }

  /** `m.get(k)`: the value stored under the first entry with key `k`. */
  function Get<K(==), V>(m: seq<(K, V)>, k: K): Option<V>
    decreases |m|
  {
    if m == [] then None
    else if m[0].0 == k then Some(m[0].1)
    else Get(m[1..], k)
  }

  /** `m[k] = v`. */
  function Put<K(==), V>(m: seq<(K, V)>, k: K, v: V): seq<(K, V)>
    decreases |m|
  {
    if m == [] then [(k, v)]
    else if m[0].0 == k then [(k, v)] + m[1..]
    else [m[0]] + Put(m[1..], k, v)
  }

  /** `for k, v in pairs: m[k] = v`, as done by a dict comprehension. */
  function PutAll<K(==), V>(m: seq<(K, V)>, pairs: seq<(K, V)>): seq<(K, V)>
  {
    if pairs == [] then m
    else
      var last := pairs[|pairs| - 1];
      Put(PutAll(m, pairs[..|pairs| - 1]), last.0, last.1)
  }

  /** The value of the last pair in `pairs` whose key is `k`. */
  function LastValue<K(==), V>(pairs: seq<(K, V)>, k: K): Option<V>
  {
    if pairs == [] then None
    else if pairs[|pairs| - 1].0 == k then Some(pairs[|pairs| - 1].1)
    else LastValue(pairs[..|pairs| - 1], k)
  }

  /** `acc` followed by the elements of `xs` that are new, in order of their
      first occurrence. */
  function AddNew<T(==)>(acc: seq<T>, xs: seq<T>): seq<T>
  {
    if xs == [] then acc
    else
      var init := AddNew(acc, xs[..|xs| - 1]);
      if xs[|xs| - 1] in init then init else init + [xs[|xs| - 1]]
  }

  /** The elements of `xs`, each once, in order of first occurrence. */
  function Dedup<T(==)>(xs: seq<T>): seq<T> {
    AddNew([], xs)
  }

  /** De-duplicating a list without repeats leaves it as it is. */
  lemma {:induction false} DedupDistinct<T>(xs: seq<T>)
    requires Distinct(xs)
    ensures Dedup(xs) == xs
  {
    if xs != [] {
      var n := |xs| - 1;
      DedupDistinct(xs[..n]);
      assert xs[n] !in xs[..n];
      assert xs == xs[..n] + [xs[n]];
    }
  }

  lemma {:induction false} GetIffKey<K, V>(m: seq<(K, V)>, k: K)
    ensures Get(m, k).Some? <==> k in Keys(m)
    decreases |m|
  {
    if m != [] {
      GetIffKey(m[1..], k);
      assert Keys(m) == [m[0].0] + Keys(m[1..]);
    }
  }

  /** A value read from a dictionary is stored in one of its entries. */
  lemma {:induction false} GetEntry<K, V>(m: seq<(K, V)>, k: K)
    ensures Get(m, k).Some? ==> (k, Get(m, k).value) in m
    decreases |m|
  {
    if m != [] && m[0].0 != k {
      GetEntry(m[1..], k);
    }
  }

  /** In a dictionary whose keys are distinct, every entry is what its key
      reads. */
  lemma {:induction false} GetDistinct<K, V>(m: seq<(K, V)>, i: nat)
    requires i < |m| && Distinct(Keys(m))
    ensures Get(m, m[i].0) == Some(m[i].1)
    decreases |m|
  {
    if i > 0 {
      assert Keys(m)[0] != Keys(m)[i];
      assert Keys(m[1..]) == Keys(m)[1..];
      GetDistinct(m[1..], i - 1);
    }
  }

  /** Assigning to a key moves no other key and adds the key at the end when
      it was absent. */
  lemma {:induction false} PutKeys<K, V>(m: seq<(K, V)>, k: K, v: V)
    ensures Keys(Put(m, k, v)) == if k in Keys(m) then Keys(m) else Keys(m) + [k]
    decreases |m|
  {
    if m != [] {
      PutKeys(m[1..], k, v);
      assert Keys(m) == [m[0].0] + Keys(m[1..]);
      if m[0].0 != k {
        assert Keys(Put(m, k, v)) == [m[0].0] + Keys(Put(m[1..], k, v));
      }
    }
  }

  /** Assigning to an absent key appends it. */
  lemma {:induction false} PutAbsent<K, V>(m: seq<(K, V)>, k: K, v: V)
    requires k !in Keys(m)
    ensures Put(m, k, v) == m + [(k, v)]
    decreases |m|
  {
    if m != [] {
      assert Keys(m) == [m[0].0] + Keys(m[1..]);
      PutAbsent(m[1..], k, v);
    }
  }

  /** A second assignment to the same key overrides the first. */
  lemma {:induction false} PutPut<K, V>(m: seq<(K, V)>, k: K, v1: V, v2: V)
    ensures Put(Put(m, k, v1), k, v2) == Put(m, k, v2)
    decreases |m|
  {
    if m != [] && m[0].0 != k {
      PutPut(m[1..], k, v1, v2);
    }
  }

  /** Reading a dictionary with an entry appended: the first entry wins. */
  lemma {:induction false} GetAppend<K, V>(m: seq<(K, V)>, entry: (K, V), k: K)
    ensures Get(m + [entry], k) == if Get(m, k).Some? then Get(m, k) else if entry.0 == k then Some(entry.1) else None
    decreases |m|
  {
    if m != [] {
      assert (m + [entry])[1..] == m[1..] + [entry];
      GetAppend(m[1..], entry, k);
    }
  }

  /** Reading after an assignment. */
  lemma {:induction false} PutGet<K, V>(m: seq<(K, V)>, k: K, v: V, k': K)
    ensures Get(Put(m, k, v), k') == if k' == k then Some(v) else Get(m, k')
    decreases |m|
  {
    if m != [] && m[0].0 != k {
      PutGet(m[1..], k, v, k');
    }
  }

  lemma {:induction false} AddNewGrows<T>(acc: seq<T>, xs: seq<T>)
    ensures forall x :: x in AddNew(acc, xs) <==> x in acc || x in xs
    ensures |acc| <= |AddNew(acc, xs)| && AddNew(acc, xs)[..|acc|] == acc
    ensures Distinct(acc) ==> Distinct(AddNew(acc, xs))
  {
    if xs != [] {
      var init := xs[..|xs| - 1];
      AddNewGrows(acc, init);
      assert xs == init + [xs[|xs| - 1]];
    }
  }

  /** The keys of a dictionary filled by a sequence of assignments: the old
      keys, then the new ones in order of their first assignment. */
  lemma {:induction false} PutAllKeys<K, V>(m: seq<(K, V)>, pairs: seq<(K, V)>)
    ensures Keys(PutAll(m, pairs)) == AddNew(Keys(m), Keys(pairs))
  {
    if pairs != [] {
      var init := pairs[..|pairs| - 1];
      var last := pairs[|pairs| - 1];
      PutAllKeys(m, init);
      PutKeys(PutAll(m, init), last.0, last.1);
      assert Keys(pairs)[..|pairs| - 1] == Keys(init);
    }
  }

  /** Last write wins: after a sequence of assignments a key holds the value
      of its last assignment, and a key never assigned keeps its old value. */
  lemma {:induction false} PutAllGet<K, V>(m: seq<(K, V)>, pairs: seq<(K, V)>, k: K)
    ensures Get(PutAll(m, pairs), k) == if LastValue(pairs, k).Some? then LastValue(pairs, k) else Get(m, k)
  {
    if pairs != [] {
      var init := pairs[..|pairs| - 1];
      var last := pairs[|pairs| - 1];
      PutAllGet(m, init, k);
      PutGet(PutAll(m, init), last.0, last.1, k);
    }
  }

  /** A dictionary built from `pairs` has each key of `pairs` exactly once, at
      the position of its first occurrence, holding the value of its last. */
  lemma DictFromPairs<K, V>(pairs: seq<(K, V)>)
    ensures Keys(PutAll([], pairs)) == Dedup(Keys(pairs))
    ensures Distinct(Keys(PutAll([], pairs)))
    ensures forall k :: k in Keys(PutAll([], pairs)) <==> k in Keys(pairs)
    ensures forall k :: Get(PutAll([], pairs), k) == LastValue(pairs, k)
  {
    PutAllKeys([], pairs);
    assert Keys<K, V>([]) == [];
    AddNewGrows([], Keys(pairs));
    forall k ensures Get(PutAll([], pairs), k) == LastValue(pairs, k) {
      PutAllGet([], pairs, k);
    }
  }

  /** The value of the last pair for a key is that pair's value. */
  lemma {:induction false} LastValueAt<K, V>(pairs: seq<(K, V)>, i: nat)
    requires i < |pairs|
    requires forall j :: i < j < |pairs| ==> pairs[j].0 != pairs[i].0
    ensures LastValue(pairs, pairs[i].0) == Some(pairs[i].1)
  {
    var n := |pairs| - 1;
    if i < n {
      assert pairs[..n][i] == pairs[i];
      LastValueAt(pairs[..n], i);
    }
  }

  /** Every entry of the dictionary after assignments is an old entry or one
      of the assigned pairs. */
  lemma {:induction false} PutAllEntries<K, V>(m: seq<(K, V)>, pairs: seq<(K, V)>)
    ensures forall e :: e in PutAll(m, pairs) ==> e in m || e in pairs
  {
    if pairs != [] {
      var init := pairs[..|pairs| - 1];
      var last := pairs[|pairs| - 1];
      PutAllEntries(m, init);
      PutEntries(PutAll(m, init), last.0, last.1);
    }
  }

  lemma {:induction false} PutEntries<K, V>(m: seq<(K, V)>, k: K, v: V)
    ensures forall e :: e in Put(m, k, v) ==> e in m || e == (k, v)
    decreases |m|
  {
    if m != [] && m[0].0 != k {
      PutEntries(m[1..], k, v);
    }
  }
}
