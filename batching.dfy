/**
 * `chunk(array, size)`: the batching helper the sync client and the writer's
 * items and pairs routes each define, with the same body. The loop steps `i`
 * by `size` and pushes `array.slice(i, i + size)`, and `slice` cuts the end
 * off at the length of the array.
 */
module Batching {

  function Min(a: int, b: int): int {
    if a <= b then a else b
  }

  /** The chunks of `s`: the first `size` elements, then the chunks of the rest. */
  function Chunks<T>(s: seq<T>, size: nat): seq<seq<T>>
    requires size > 0
    decreases |s|
  {
    if s == [] then []
    else if |s| <= size then [s]
    else [s[..size]] + Chunks(s[size..], size)
  }

  /** The chunks, one after the other. */
  function Concat<T>(css: seq<seq<T>>): seq<T>
    decreases |css|
  {
    if css == [] then [] else css[0] + Concat(css[1..])
  }

  /** `chunk(items, size)`, for a positive `size`. */
  method Chunk<T>(items: seq<T>, size: nat) returns (chunks: seq<seq<T>>)
    requires size > 0
    ensures chunks == Chunks(items, size)
  {
    chunks := [];
    var i := 0;
    while i < |items|
      invariant 0 <= i
      invariant chunks + Chunks(items[Min(i, |items|)..], size) == Chunks(items, size)
      decreases |items| - i
    {
      var rest := items[i..];
      assert rest[Min(size, |rest|)..] == items[Min(i + size, |items|)..];
      if |rest| > size {
        assert rest[..size] == items[i..i + size];
        assert rest[size..] == items[i + size..];
        assert Chunks(rest, size) == [items[i..i + size]] + Chunks(items[i + size..], size);
      } else {
        assert rest == items[i..|items|];
        assert Chunks(rest, size) == [rest];
        assert Chunks(items[|items|..], size) == [];
      }
      chunks := chunks + [items[i..Min(i + size, |items|)]];
      i := i + size;
    }
  }

  /** Concatenating the chunks gives back the input. */
  lemma {:induction false} ChunksConcat<T>(s: seq<T>, size: nat)
    requires size > 0
    ensures Concat(Chunks(s, size)) == s
    decreases |s|
  {
    if |s| > size {
      ChunksConcat(s[size..], size);
      assert s == s[..size] + s[size..];
    } else if s != [] {
      assert Concat(Chunks(s, size)) == s + Concat([]);
    }
  }

  lemma {:induction false} ConcatAppend<T>(a: seq<seq<T>>, b: seq<seq<T>>)
    ensures Concat(a + b) == Concat(a) + Concat(b)
    decreases |a|
  {
    if a == [] {
      assert a + b == b;
    } else {
      assert (a + b)[1..] == a[1..] + b;
      ConcatAppend(a[1..], b);
    }
  }

  /** The chunks up to `b`, then chunk `b`. */
  lemma ConcatPrefix<T>(css: seq<seq<T>>, b: nat)
    requires b < |css|
    ensures Concat(css[..b + 1]) == Concat(css[..b]) + css[b]
  {
    ConcatAppend(css[..b], [css[b]]);
    assert css[..b + 1] == css[..b] + [css[b]];
    assert Concat([css[b]]) == css[b] + Concat([]);
  }

  /** The chunks from `b` to `e` are chunk `b` followed by those after it. */
  lemma ConcatSlice<T>(css: seq<seq<T>>, b: nat, e: nat)
    requires b < e <= |css|
    ensures Concat(css[b..e]) == css[b] + Concat(css[b + 1..e])
  {
    assert css[b..e][1..] == css[b + 1..e];
  }

  /** Every chunk holds between one and `size` elements. */
  lemma {:induction false} ChunkSizes<T>(s: seq<T>, size: nat)
    requires size > 0
    ensures forall c :: c in Chunks(s, size) ==> 1 <= |c| <= size
    decreases |s|
  {
    if |s| > size {
      ChunkSizes(s[size..], size);
    }
  }

  /** There are `⌈n / size⌉` chunks: the fewest whose capacity covers the input. */
  lemma {:induction false} ChunkCount<T>(s: seq<T>, size: nat)
    requires size > 0
    ensures var n := |Chunks(s, size)|;
      && (n == 0 <==> s == [])
      && n * size >= |s|
      && (n > 0 ==> (n - 1) * size < |s|)
    decreases |s|
  {
    if |s| > size {
      var m := |Chunks(s[size..], size)|;
      ChunkCount(s[size..], size);
      assert (m + 1) * size == m * size + size;
    }
  }

  /** Chunk `k` starts at element `k * size`. */
  lemma {:induction false} ChunkAt<T>(s: seq<T>, size: nat, k: nat)
    requires size > 0 && k < |Chunks(s, size)|
    ensures k * size < |s| && Chunks(s, size)[k] == s[k * size..Min((k + 1) * size, |s|)]
    decreases k
  {
    if k > 0 {
      ChunkAt(s[size..], size, k - 1);
      assert s[size..][(k - 1) * size..Min(k * size, |s| - size)] == s[k * size..Min((k + 1) * size, |s|)];
    }
  }
}
