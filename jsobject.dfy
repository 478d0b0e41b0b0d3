/**
 * The enumeration order of the keys of a plain JavaScript object, which the stores
 * use as the display order of their records. An object is modelled as a sequence of
 * distinct keys (the order `Object.keys` reports) beside a map holding the values.
 * Keys are assumed never to look like array indices, which JavaScript would list first.
 */
module JsObject {
  import opened Common

  /** `keys` lists every key of `m`, each exactly once. */
  ghost predicate KeyOrder<V>(keys: seq<string>, m: map<string, V>) {
    Distinct(keys) && forall k :: k in keys <==> k in m
  }

  /** The keys left, in their order, once `k` is deleted from the object. */
  function Without(keys: seq<string>, k: string): (r: seq<string>)
    ensures forall x :: x in r <==> x in keys && x != k
    ensures Distinct(keys) ==> Distinct(r)
    ensures |r| <= |keys|
  {
    if keys == [] then []
    else if keys[0] == k then Without(keys[1..], k)
    else
      var rest := Without(keys[1..], k);
      assert Distinct(keys) ==> keys[0] !in keys[1..];
      if Distinct(keys) then DistinctCons(keys[0], rest); [keys[0]] + rest
      else [keys[0]] + rest
  }

  /**
   * The key order of `{ [k]: v, ...obj }`: the literal's own key is created first and
   * keeps that place even when the spread then overwrites its value.
   */
  function PutFirst(keys: seq<string>, k: string): (r: seq<string>)
    ensures |r| > 0 && r[0] == k
    ensures forall x :: x in r <==> x == k || x in keys
    ensures Distinct(keys) ==> Distinct(r)
    ensures k !in keys ==> r == [k] + keys
    ensures Distinct(keys) ==> forall i :: 0 <= i < |keys| && keys[i] == k ==> r == [k] + (keys[..i] + keys[i + 1..])
  {
    var rest := Without(keys, k);
    WithoutOrder(keys, k);
    if Distinct(keys) then DistinctCons(k, rest); [k] + rest
    else [k] + rest
  }

  /** The other keys keep their order when `k` is deleted, whether or not it is there. */
  lemma WithoutOrder(keys: seq<string>, k: string)
    ensures k !in keys ==> Without(keys, k) == keys
    ensures Distinct(keys) ==> forall i :: 0 <= i < |keys| && keys[i] == k ==> Without(keys, k) == keys[..i] + keys[i + 1..]
  {
    if k !in keys {
      WithoutAbsent(keys, k);
    }
    if Distinct(keys) {
      forall i | 0 <= i < |keys| && keys[i] == k
        ensures Without(keys, k) == keys[..i] + keys[i + 1..]
      {
        WithoutAt(keys, i);
      }
    }
  }

  /** Deleting a key keeps every other key in its place relative to the rest. */
  lemma {:induction false} WithoutAt(keys: seq<string>, i: nat)
    requires Distinct(keys) && i < |keys|
    ensures Without(keys, keys[i]) == keys[..i] + keys[i + 1..]
  {
    var tail := keys[1..];
    assert Distinct(tail) by {
      forall a, b | 0 <= a < b < |tail| ensures tail[a] != tail[b] {
        assert tail[a] == keys[a + 1] && tail[b] == keys[b + 1];
      }
    }
    if i == 0 {
      assert keys[0] !in tail by {
        forall b | 0 <= b < |tail| ensures tail[b] != keys[0] {
          assert tail[b] == keys[b + 1];
        }
      }
      WithoutAbsent(tail, keys[0]);
    } else {
      assert keys[0] != keys[i];
      assert Without(keys, keys[i]) == [keys[0]] + Without(tail, tail[i - 1]);
      WithoutAt(tail, i - 1);
      assert tail[..i - 1] == keys[1..i] && tail[i..] == keys[i + 1..];
      assert [keys[0]] + keys[1..i] == keys[..i];
    }
  }

  /** Deleting a key the object does not have changes nothing. */
  lemma {:induction false} WithoutAbsent(keys: seq<string>, k: string)
    requires k !in keys
    ensures Without(keys, k) == keys
  {
    if keys != [] {
      WithoutAbsent(keys[1..], k);
    }
  }

  /** `Object.values(obj)`: the values in key order. */
  function Values<V>(keys: seq<string>, m: map<string, V>): (vs: seq<V>)
    requires forall k :: k in keys ==> k in m
    ensures |vs| == |keys|
    ensures forall i :: 0 <= i < |keys| ==> vs[i] == m[keys[i]]
  {
    seq(|keys|, i requires 0 <= i < |keys| => m[keys[i]])
  }
}
