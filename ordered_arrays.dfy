/** PHP's ordered arrays with string keys, as the pool and its configuration use them:
    insertion-ordered key/value slots with unique keys. */
module OrderedArrays {
  import opened Wrappers

  /** One `key => value` slot of a PHP array. */
  datatype Entry<V> = Entry(key: string, value: V)

  /** `array_keys($a)`. */
  function Keys<V>(a: seq<Entry<V>>): (ks: seq<string>)
    ensures |ks| == |a|
    ensures forall i :: 0 <= i < |a| ==> ks[i] == a[i].key
  {
    seq(|a|, i requires 0 <= i < |a| => a[i].key)
  }

  predicate NoDups<T(==)>(s: seq<T>) {
    forall i, j :: 0 <= i < j < |s| ==> s[i] != s[j]
  }

  /** Every PHP array has unique keys. */
  predicate UniqueKeys<V>(a: seq<Entry<V>>) {
    NoDups(Keys(a))
  }

  /** `isset($a[$k]) ? $a[$k] : null`, for a key that holds a non-null value. */
  function Get<V>(a: seq<Entry<V>>, k: string): Option<V> {
    if a == [] then None
    else if a[0].key == k then Some(a[0].value)
    else Get(a[1..], k)
  }

  /** A lookup finds something exactly when the key is one of the array's keys... */
  lemma {:induction false} GetFound<V>(a: seq<Entry<V>>, k: string)
    ensures Get(a, k).Some? <==> k in Keys(a)
  {
    if a != [] {
      KeysOfTail(a);
      GetFound(a[1..], k);
    }
  }

  /** ...and what it finds is the value of a slot holding that key. */
  lemma {:induction false} GetSlot<V>(a: seq<Entry<V>>, k: string) returns (i: nat)
    requires Get(a, k).Some?
    ensures i < |a| && a[i] == Entry(k, Get(a, k).value)
  {
    if a[0].key == k {
      i := 0;
    } else {
      var j := GetSlot(a[1..], k);
      i := j + 1;
    }
  }

  lemma {:induction false} KeysOfTail<V>(a: seq<Entry<V>>)
    requires a != []
    ensures Keys(a) == [a[0].key] + Keys(a[1..])
  {
  }

  lemma {:induction false} UniqueKeysTail<V>(a: seq<Entry<V>>)
    requires a != [] && UniqueKeys(a)
    ensures UniqueKeys(a[1..]) && a[0].key !in Keys(a[1..])
  {
    KeysOfTail(a);
  }

  /** In a PHP array, the value stored under the key of slot `i` is that slot's value. */
  lemma {:induction false} GetAt<V>(a: seq<Entry<V>>, i: nat)
    requires UniqueKeys(a) && i < |a|
    ensures Get(a, a[i].key) == Some(a[i].value)
  {
    if i > 0 {
      assert Keys(a)[0] != Keys(a)[i];
      UniqueKeysTail(a);
      GetAt(a[1..], i - 1);
    }
  }

  /** Looking a key up in a concatenation finds it in the left part first. */
  lemma {:induction false} GetAppend<V>(a: seq<Entry<V>>, b: seq<Entry<V>>, k: string)
    ensures Get(a + b, k) == if k in Keys(a) then Get(a, k) else Get(b, k)
  {
    if a == [] {
      assert a + b == b;
    } else {
      assert (a + b)[0] == a[0] && (a + b)[1..] == a[1..] + b;
      KeysOfTail(a);
      GetAppend(a[1..], b, k);
      if a[0].key != k {
        assert Get(a + b, k) == Get(a[1..] + b, k);
      }
    }
  }

  lemma {:induction false} KeysAppend<V>(a: seq<Entry<V>>, b: seq<Entry<V>>)
    ensures Keys(a + b) == Keys(a) + Keys(b)
  {
  }

  /** The slots of `r` whose key is not in `ks`, in their order. */
  function Missing<V>(r: seq<Entry<V>>, ks: seq<string>): (m: seq<Entry<V>>)
    ensures forall k :: k in Keys(m) ==> k in Keys(r) && k !in ks
  {
    if r == [] then []
    else
      KeysOfTail(r);
      var rest := Missing(r[1..], ks);
      if r[0].key in ks then rest
      else
        KeysAppend([r[0]], rest);
        [r[0]] + rest
  }

  lemma {:induction false} GetMissing<V>(r: seq<Entry<V>>, ks: seq<string>, k: string)
    requires k !in ks
    ensures Get(Missing(r, ks), k) == Get(r, k)
  {
    if r != [] {
      GetMissing(r[1..], ks, k);
      if r[0].key !in ks {
        GetAppend([r[0]], Missing(r[1..], ks), k);
      }
    }
  }

  lemma {:induction false} KeysMissing<V>(r: seq<Entry<V>>, ks: seq<string>, k: string)
    requires k in Keys(r) && k !in ks
    ensures k in Keys(Missing(r, ks))
  {
    KeysOfTail(r);
    if r[0].key != k {
      KeysMissing(r[1..], ks, k);
      if r[0].key !in ks {
        KeysAppend([r[0]], Missing(r[1..], ks));
      }
    } else {
      var m := Missing(r, ks);
      assert m == [r[0]] + Missing(r[1..], ks);
      assert Keys(m)[0] == k;
    }
  }

  lemma {:induction false} MissingUnique<V>(r: seq<Entry<V>>, ks: seq<string>)
    requires UniqueKeys(r)
    ensures UniqueKeys(Missing(r, ks))
  {
    if r != [] {
      UniqueKeysTail(r);
      MissingUnique(r[1..], ks);
      var rest := Missing(r[1..], ks);
      if r[0].key !in ks {
        KeysAppend([r[0]], rest);
        assert r[0].key !in Keys(rest);
        NoDupsCons(r[0].key, Keys(rest));
      }
    }
  }

  lemma NoDupsCons<T>(x: T, s: seq<T>)
    requires x !in s && NoDups(s)
    ensures NoDups([x] + s)
  {
    var t := [x] + s;
    forall i, j | 0 <= i < j < |t| ensures t[i] != t[j] {
      if i > 0 { assert t[i] == s[i - 1] && t[j] == s[j - 1]; } else { assert t[j] == s[j - 1]; }
    }
  }

  lemma NoDupsAppend<T>(a: seq<T>, b: seq<T>)
    requires NoDups(a) && NoDups(b) && forall x :: x in a ==> x !in b
    ensures NoDups(a + b)
  {
    var t := a + b;
    forall i, j | 0 <= i < j < |t| ensures t[i] != t[j] {
      if j < |a| {
      } else if i >= |a| {
        assert t[i] == b[i - |a|] && t[j] == b[j - |a|];
      } else {
        assert t[i] in a && t[j] == b[j - |a|];
      }
    }
  }

  /** PHP's array union `$l + $r`: every slot of `$l`, then the slots of `$r` whose key `$l` lacks. */
  function Union<V>(l: seq<Entry<V>>, r: seq<Entry<V>>): seq<Entry<V>> {
    l + Missing(r, Keys(l))
  }

  /** `$l + $r` is left-biased: a key of `$l` keeps `$l`'s value, any other key of `$r` keeps
      `$r`'s; the keys are those of either side, and a union of PHP arrays is a PHP array. */
  lemma {:induction false} UnionLookup<V>(l: seq<Entry<V>>, r: seq<Entry<V>>, k: string)
    ensures Get(Union(l, r), k) == if k in Keys(l) then Get(l, k) else Get(r, k)
    ensures k in Keys(Union(l, r)) <==> k in Keys(l) || k in Keys(r)
    ensures UniqueKeys(l) && UniqueKeys(r) ==> UniqueKeys(Union(l, r))
  {
    var m := Missing(r, Keys(l));
    GetAppend(l, m, k);
    KeysAppend(l, m);
    if k !in Keys(l) {
      GetMissing(r, Keys(l), k);
      if k in Keys(r) { KeysMissing(r, Keys(l), k); }
    }
    if UniqueKeys(l) && UniqueKeys(r) {
      MissingUnique(r, Keys(l));
      NoDupsAppend(Keys(l), Keys(m));
    }
  }

  /** `array_unique`: the first occurrence of every element, in order. */
  function Dedup(s: seq<string>): (r: seq<string>)
    ensures NoDups(r)
    ensures forall x :: x in r <==> x in s
  {
    if s == [] then []
    else
      var init, last := s[..|s| - 1], s[|s| - 1];
      assert s == init + [last];
      var d := Dedup(init);
      if last in d then d
      else
        NoDupsAppend(d, [last]);
        d + [last]
  }

  /** `array_unique` leaves a duplicate-free list as it is. */
  lemma {:induction false} DedupOfDistinct(s: seq<string>)
    requires NoDups(s)
    ensures Dedup(s) == s
  {
    if s != [] {
      var init := s[..|s| - 1];
      assert NoDups(init);
      DedupOfDistinct(init);
      assert s[|s| - 1] !in init;
      assert s == init + [s[|s| - 1]];
    }
  }

  /** `array_slice($s, 0, $n)` for `$n >= 0`: the first `n` elements, or all of them. */
  function Take<T>(s: seq<T>, n: nat): (r: seq<T>)
    ensures r <= s && |r| == if n < |s| then n else |s|
  {
    if n < |s| then s[..n] else s
  }
}
