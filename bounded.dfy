/** Python's `deque(maxlen=cap)` as a value: appending at the right end
    drops from the left once `cap` items are held, and `cap == 0` keeps
    nothing. Also the lazily created entries of a `defaultdict` of such
    buffers. */
module Bounded {
  import opened Common

  /** The newest `n` items of `s`, oldest first. */
  function LastN<T>(s: seq<T>, n: nat): (r: seq<T>)
    ensures |r| == if |s| <= n then |s| else n
    ensures r == s[|s| - |r|..]
  {
    if |s| <= n then s else s[|s| - n..]
  }

  /** `buf.append(x)` on a deque with `maxlen=cap`. */
  function BoundedAppend<T>(buf: seq<T>, x: T, cap: nat): (r: seq<T>)
    ensures |r| <= cap
  {
    LastN(buf + [x], cap)
  }

  /** An append keeps the newest items: with room left the buffer grows by
      one, otherwise the oldest item goes; the new item is last. */
  lemma BoundedAppendShape<T>(buf: seq<T>, x: T, cap: nat)
    ensures var r := BoundedAppend(buf, x, cap);
      && (|buf| <= cap ==> |r| == if |buf| < cap then |buf| + 1 else cap)
      && (cap > 0 ==> |r| > 0 && r[|r| - 1] == x && r[..|r| - 1] == buf[|buf| + 1 - |r|..])
      && (cap == 0 ==> r == [])
  {
    var s := buf + [x];
    var r := LastN(s, cap);
    if cap > 0 {
      var k := |s| - |r|;
      assert r == s[k..];
      assert r[|r| - 1] == s[|s| - 1] == x;
      assert r[..|r| - 1] == buf[k..] by {
        assert s[..|buf|] == buf;
        assert r[..|r| - 1] == s[k..|buf|];
      }
    }
  }

  /** Appending to a buffer that holds the newest `cap` items of `xs` gives
      the newest `cap` items of `xs + [x]`. */
  lemma AppendKeepsNewest<T>(xs: seq<T>, x: T, cap: nat)
    ensures BoundedAppend(LastN(xs, cap), x, cap) == LastN(xs + [x], cap)
  {
    var w := LastN(xs, cap);
    var s := xs + [x];
    if |xs| >= cap {
      assert w + [x] == s[|s| - cap - 1..];
    } else {
      assert w + [x] == s;
    }
  }

  /** The buffer after appending the items of `xs` one by one. */
  function AppendAll<T>(buf: seq<T>, xs: seq<T>, cap: nat): seq<T>
    decreases |xs|
  {
    if |xs| == 0 then buf else BoundedAppend(AppendAll(buf, xs[..|xs| - 1], cap), xs[|xs| - 1], cap)
  }

  /** A buffer filled from empty holds exactly the newest `cap` items
      appended, oldest first. */
  lemma {:induction false} AppendAllNewest<T>(xs: seq<T>, cap: nat)
    ensures AppendAll([], xs, cap) == LastN(xs, cap)
    decreases |xs|
  {
    if |xs| > 0 {
      var p := xs[..|xs| - 1];
      AppendAllNewest(p, cap);
      AppendKeepsNewest(p, xs[|xs| - 1], cap);
      assert p + [xs[|xs| - 1]] == xs;
    }
  }

  /** A `defaultdict(deque)` read: a missing key stands for an empty buffer. */
  function GetOrEmpty<K, T>(m: map<K, seq<T>>, k: K): (r: seq<T>)
    ensures k in m ==> r == m[k]
    ensures k !in m ==> r == []
  {
    if k in m then m[k] else []
  }

  /** A `defaultdict` of bounded buffers after visiting each key of `keys`
      in turn and, when `vals` has a value for it, appending that value to
      the key's buffer, creating a missing buffer empty. */
  function AppendChannels<K, T>(m: map<K, seq<T>>, keys: seq<K>, vals: map<K, T>, cap: nat): map<K, seq<T>>
    decreases |keys|
  {
    if |keys| == 0 then m
    else
      var prev := AppendChannels(m, keys[..|keys| - 1], vals, cap);
      var k := keys[|keys| - 1];
      if k in vals then prev[k := BoundedAppend(GetOrEmpty(prev, k), vals[k], cap)] else prev
  }

  /** One more key appends that key's value to the buffers built so far. */
  lemma AppendChannelsStep<K, T>(m: map<K, seq<T>>, keys: seq<K>, i: nat, vals: map<K, T>, cap: nat)
    requires i < |keys|
    ensures var prev := AppendChannels(m, keys[..i], vals, cap);
      AppendChannels(m, keys[..i + 1], vals, cap)
      == if keys[i] in vals then prev[keys[i] := BoundedAppend(GetOrEmpty(prev, keys[i]), vals[keys[i]], cap)]
         else prev
  {
    assert keys[..i + 1][..i] == keys[..i];
  }

  /** A key that is not visited, or has no value, keeps its buffer (or its
      absence). */
  lemma {:induction false} AppendChannelsSkips<K, T>(m: map<K, seq<T>>, keys: seq<K>, vals: map<K, T>,
                                                     cap: nat, k: K)
    requires k !in keys || k !in vals
    ensures (k in AppendChannels(m, keys, vals, cap) <==> k in m)
    ensures k in m ==> AppendChannels(m, keys, vals, cap)[k] == m[k]
    decreases |keys|
  {
    if |keys| > 0 {
      var init := keys[..|keys| - 1];
      assert k in init ==> k in keys;
      AppendChannelsSkips(m, init, vals, cap, k);
    }
  }

  /** A key visited once that has a value gets exactly that value
      appended to its buffer. */
  lemma {:induction false} AppendChannelsAt<K, T>(m: map<K, seq<T>>, keys: seq<K>, vals: map<K, T>,
                                                  cap: nat, k: K)
    requires Distinct(keys) && k in keys && k in vals
    ensures k in AppendChannels(m, keys, vals, cap)
    ensures AppendChannels(m, keys, vals, cap)[k] == BoundedAppend(GetOrEmpty(m, k), vals[k], cap)
    decreases |keys|
  {
    var init := keys[..|keys| - 1];
    var last := keys[|keys| - 1];
    assert keys == init + [last];
    if last == k {
      assert k !in init;
      AppendChannelsSkips(m, init, vals, cap, k);
    } else {
      assert Distinct(init);
      AppendChannelsAt(m, init, vals, cap, k);
    }
  }

  /** With distinct keys, every listed key that has a value gets exactly
      that value appended at the end of its buffer and every other buffer
      is left as it was. */
  lemma AppendChannelsEffect<K, T>(m: map<K, seq<T>>, keys: seq<K>, vals: map<K, T>, cap: nat)
    requires Distinct(keys)
    ensures var r := AppendChannels(m, keys, vals, cap);
      && (forall k :: k in keys && k in vals ==>
            k in r && r[k] == BoundedAppend(GetOrEmpty(m, k), vals[k], cap))
      && (forall k :: !(k in keys && k in vals) ==> (k in r <==> k in m) && (k in m ==> r[k] == m[k]))
  {
    forall k | k in keys && k in vals
      ensures k in AppendChannels(m, keys, vals, cap)
      ensures AppendChannels(m, keys, vals, cap)[k] == BoundedAppend(GetOrEmpty(m, k), vals[k], cap)
    {
      AppendChannelsAt(m, keys, vals, cap, k);
    }
    forall k | !(k in keys && k in vals)
      ensures (k in AppendChannels(m, keys, vals, cap) <==> k in m)
      ensures k in m ==> AppendChannels(m, keys, vals, cap)[k] == m[k]
    {
      AppendChannelsSkips(m, keys, vals, cap, k);
    }
  }

  /** When every key with a value is listed once, exactly the keys with a
      value get it appended, and all other buffers stay as they were. */
  lemma AppendChannelsCovers<K, T>(m: map<K, seq<T>>, keys: seq<K>, vals: map<K, T>, cap: nat)
    requires Distinct(keys)
    requires forall k :: k in vals ==> k in keys
    ensures forall k :: k in vals ==>
      k in AppendChannels(m, keys, vals, cap)
      && AppendChannels(m, keys, vals, cap)[k] == BoundedAppend(GetOrEmpty(m, k), vals[k], cap)
    ensures forall k :: k !in vals ==>
      (k in AppendChannels(m, keys, vals, cap) <==> k in m)
      && (k in m ==> AppendChannels(m, keys, vals, cap)[k] == m[k])
  {
    AppendChannelsEffect(m, keys, vals, cap);
  }

  /** Appending never lets a buffer exceed the capacity. */
  lemma {:induction false} AppendChannelsBounded<K, T>(m: map<K, seq<T>>, keys: seq<K>, vals: map<K, T>, cap: nat)
    requires forall k :: k in m ==> |m[k]| <= cap
    ensures forall k :: k in AppendChannels(m, keys, vals, cap) ==> |AppendChannels(m, keys, vals, cap)[k]| <= cap
    decreases |keys|
  {
    if |keys| > 0 {
      var prev := AppendChannels(m, keys[..|keys| - 1], vals, cap);
      AppendChannelsBounded(m, keys[..|keys| - 1], vals, cap);
      var k := keys[|keys| - 1];
      if k in vals {
        var nb := BoundedAppend(GetOrEmpty(prev, k), vals[k], cap);
        assert |nb| <= cap;
        var r := prev[k := nb];
        forall j | j in r ensures |r[j]| <= cap {
          if j == k {
            assert r[j] == nb;
          } else {
            assert j in prev && r[j] == prev[j];
          }
        }
      }
    }
  }
}
