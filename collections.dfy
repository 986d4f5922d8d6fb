/** The list operations the slice reducers share. Every entity the reducers keep
    (transaction, recurring rule, account) is found by its string `id`, so each
    operation takes the entity's key function. */
module Collections {

  /** `a` is `b` with some elements deleted, the rest in their order. */
  ghost predicate IsSubseq<T>(a: seq<T>, b: seq<T>)
    decreases |b|
  {
    if b == [] then a == []
    else (a != [] && a[0] == b[0] && IsSubseq(a[1..], b[1..])) || IsSubseq(a, b[1..])
  }

  /** `xs.findIndex(x => key(x) === k)`: the first index whose key is `k`, or -1. */
  function IndexOfKey<T>(xs: seq<T>, key: T -> string, k: string): (i: int)
    ensures -1 <= i < |xs|
    ensures i == -1 <==> forall j :: 0 <= j < |xs| ==> key(xs[j]) != k
    ensures 0 <= i ==> key(xs[i]) == k && forall j :: 0 <= j < i ==> key(xs[j]) != k
  {
    if xs == [] then -1
    else if key(xs[0]) == k then 0
    else
      var i := IndexOfKey(xs[1..], key, k);
      if i == -1 then -1 else i + 1
  }

  /** The edit merge: `idx = findIndex(e => e.id === x.id); if (idx !== -1) xs[idx] = x`. */
  function ReplaceFirstByKey<T>(xs: seq<T>, key: T -> string, x: T): (r: seq<T>)
    ensures |r| == |xs|
    // an unknown id leaves the list as it was
    ensures (forall j :: 0 <= j < |xs| ==> key(xs[j]) != key(x)) ==> r == xs
    // a known id puts `x` at its first occurrence ...
    ensures forall j :: 0 <= j < |xs| && key(xs[j]) == key(x) ==>
              x in r[..j + 1]
    // ... and that is the only index that can change
    ensures forall j :: 0 <= j < |xs| && r[j] != xs[j] ==>
              r[j] == x && key(xs[j]) == key(x) && forall m :: 0 <= m < j ==> key(xs[m]) != key(x)
  {
    var i := IndexOfKey(xs, key, key(x));
    if i == -1 then xs
    else
      var r := xs[i := x];
      assert forall j :: 0 <= j < |xs| && key(xs[j]) == key(x) ==> i <= j && r[..j + 1][i] == x;
      r
  }

  /** The delete merge: `xs.filter(e => !ks.includes(key(e)))`. */
  function WithoutKeys<T>(xs: seq<T>, key: T -> string, ks: seq<string>): (r: seq<T>)
    ensures |r| <= |xs|
    ensures forall j :: 0 <= j < |r| ==> r[j] in xs && key(r[j]) !in ks
    ensures forall j :: 0 <= j < |xs| && key(xs[j]) !in ks ==> xs[j] in r
  {
    if xs == [] then []
    else
      assert xs == [xs[0]] + xs[1..];
      (if key(xs[0]) in ks then [] else [xs[0]]) + WithoutKeys(xs[1..], key, ks)
  }

  /** The survivors keep their relative order. */
  lemma {:induction false} WithoutKeysKeepsOrder<T>(xs: seq<T>, key: T -> string, ks: seq<string>)
    ensures IsSubseq(WithoutKeys(xs, key, ks), xs)
  {
    if xs != [] {
      WithoutKeysKeepsOrder(xs[1..], key, ks);
      var rest := WithoutKeys(xs[1..], key, ks);
      if key(xs[0]) in ks {
        assert WithoutKeys(xs, key, ks) == rest;
      } else {
        var r := WithoutKeys(xs, key, ks);
        assert r == [xs[0]] + rest;
        assert r[0] == xs[0] && r[1..] == rest;
      }
    }
  }

  /** Deleting an empty id list changes nothing. */
  lemma {:induction false} WithoutNoKeys<T>(xs: seq<T>, key: T -> string)
    ensures WithoutKeys(xs, key, []) == xs
  {
    if xs != [] {
      WithoutNoKeys(xs[1..], key);
    }
  }

  /** Filtering distributes over concatenation: each part is filtered in place. */
  lemma {:induction false} WithoutKeysAppend<T>(a: seq<T>, b: seq<T>, key: T -> string, ks: seq<string>)
    ensures WithoutKeys(a + b, key, ks) == WithoutKeys(a, key, ks) + WithoutKeys(b, key, ks)
  {
    if a != [] {
      assert (a + b)[0] == a[0] && (a + b)[1..] == a[1..] + b;
      WithoutKeysAppend(a[1..], b, key, ks);
      var head: seq<T> := if key(a[0]) in ks then [] else [a[0]];
      assert WithoutKeys(a + b, key, ks) == head + WithoutKeys(a[1..] + b, key, ks);
      assert WithoutKeys(a, key, ks) == head + WithoutKeys(a[1..], key, ks);
    } else {
      assert a + b == b;
    }
  }

  /** Deleting the same ids a second time changes nothing. */
  lemma {:induction false} WithoutKeysIdempotent<T>(xs: seq<T>, key: T -> string, ks: seq<string>)
    ensures WithoutKeys(WithoutKeys(xs, key, ks), key, ks) == WithoutKeys(xs, key, ks)
  {
    if xs != [] {
      WithoutKeysIdempotent(xs[1..], key, ks);
      var rest := WithoutKeys(xs[1..], key, ks);
      if key(xs[0]) in ks {
        assert WithoutKeys(xs, key, ks) == rest;
      } else {
        var r := WithoutKeys(xs, key, ks);
        assert r == [xs[0]] + rest;
        assert r[0] == xs[0] && r[1..] == rest;
      }
    }
  }
}
