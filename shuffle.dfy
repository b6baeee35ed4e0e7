/**
 * Seeded, reproducible Fisher–Yates shuffle over a Mulberry32 generator
 * (apps/scraper/src/crawler/shuffle.ts).
 *
 * The generator's state is a 32-bit pattern. `(state + 0x6d2b79f5) | 0`,
 * `^`, `|`, `>>>` and `Math.imul` all depend only on the 32-bit patterns of
 * their operands, so the model works on `bv32`; the final `>>> 0` reads the
 * pattern as an unsigned number.
 */
module Shuffle {

  /** The seed used when the caller gives none. */
  const DefaultSeed: bv32 := 42

  /** 2^32: the divisor that turns a 32-bit output into a number in [0, 1). */
  const TwoTo32: int := 0x1_0000_0000

  // ---------------------------------------------------------------------------
  // Mulberry32
  // ---------------------------------------------------------------------------

  /** `state = (state + 0x6d2b79f5) | 0`: the state advance, wrapping at 32 bits. */
  function Advance(state: bv32): bv32 {
    state + 0x6d2b79f5
  }

  /** `Math.imul(a, b)`: the low 32 bits of the product. */
  function Imul(a: bv32, b: bv32): bv32 {
    a * b
  }

  /** The 32-bit word one call mixes out of the advanced state (`>>` on bv32 is `>>>`). */
  function Mix(state: bv32): bv32 {
    var t := Imul(state ^ (state >> 15), 1 | state);
    var t' := (t + Imul(t ^ (t >> 7), 61 | t)) ^ t;
    t' ^ (t' >> 14)
  }

  /** `u >>> 0`: the word read as an unsigned number in [0, 2^32). */
  function Word(u: bv32): (w: nat)
    ensures w < TwoTo32
  {
    u as nat
  }

  /** The number returned for an unsigned word: `w / 2^32`, always in [0, 1). */
  function ValueOf(w: nat): (x: real)
    requires w < TwoTo32
    ensures 0.0 <= x < 1.0
  {
    (w as real) / (TwoTo32 as real)
  }

  /** The state after `n` calls of a generator created with `seed`. */
  function StateAfter(seed: bv32, n: nat): bv32 {
    if n == 0 then seed else Advance(StateAfter(seed, n - 1))
  }

  /** The number the `n`-th call (counting from 1) of a generator created with `seed` returns. */
  function NthValue(seed: bv32, n: nat): (x: real)
    requires n >= 1
  {
    ValueOf(Word(Mix(StateAfter(seed, n))))
  }

  /** The numbers the first `n` calls of a generator created with `seed` return. */
  function Values(seed: bv32, n: nat): (xs: seq<real>)
    ensures |xs| == n
  {
    if n == 0 then [] else Values(seed, n - 1) + [NthValue(seed, n)]
  }

  /** Every number the generator returns lies in [0, 1). */
  lemma {:induction false} ValuesInRange(seed: bv32, n: nat)
    ensures forall k :: 0 <= k < n ==> 0.0 <= Values(seed, n)[k] < 1.0
  {
    if n > 0 {
      ValuesInRange(seed, n - 1);
      assert Values(seed, n) == Values(seed, n - 1) + [NthValue(seed, n)];
    }
  }

  /** The generator returned by `createSeededRandom(seed)`: a closure over a mutable state. */
  class SeededRandom {
    var state: bv32
    ghost const seed: bv32
    ghost var calls: nat

    ghost predicate Valid()
      reads this
    {
      state == StateAfter(seed, calls)
    }

    constructor (seed: bv32)
      ensures Valid() && this.seed == seed && calls == 0 && state == seed
    {
      state := seed;
      this.seed := seed;
      calls := 0;
    }

    /**
     * One call of the generator: advance the state, mix the word `u` out of
     * it and return `x = u / 2^32`.
     */
    method Next() returns (u: bv32, x: real)
      requires Valid()
      modifies this
      ensures Valid() && calls == old(calls) + 1
      ensures state == Advance(old(state))
      ensures u == Mix(state) && x == ValueOf(Word(u))
    {
      state := Advance(state);
      calls := calls + 1;
      u := Mix(state);
      x := ValueOf(Word(u));
    }
  }

  /** A call's number extends the numbers of the calls before it. */
  lemma ValuesSnoc(seed: bv32, k: nat, x: real)
    requires x == NthValue(seed, k + 1)
    ensures Values(seed, k) + [x] == Values(seed, k + 1)
  {
  }

  /** Two generators created with the same seed return the same numbers, call for call. */
  method SameSeedSameValues(seed: bv32, n: nat) returns (xs: seq<real>, ys: seq<real>)
    ensures xs == ys == Values(seed, n)
  {
    var g := new SeededRandom(seed);
    var h := new SeededRandom(seed);
    xs, ys := [], [];
    while |xs| < n
      invariant |xs| <= n && |ys| == |xs|
      invariant g.Valid() && h.Valid() && g.seed == h.seed == seed
      invariant g.calls == h.calls == |xs|
      invariant xs == ys == Values(seed, |xs|)
    {
      var _, x := g.Next();
      var _, y := h.Next();
      ValuesSnoc(seed, |xs|, x);
      xs, ys := xs + [x], ys + [y];
    }
  }

  // ---------------------------------------------------------------------------
  // The swap partner
  // ---------------------------------------------------------------------------

  /** `w * n`, by repeated addition, so that proofs about the shuffle stay linear. */
  function Scaled(w: nat, n: nat): (p: nat)
    decreases n
  {
    if n == 0 then 0 else Scaled(w, n - 1) + w
  }

  lemma {:induction false} ScaledIsProduct(w: nat, n: nat)
    ensures Scaled(w, n) == w * n
    decreases n
  {
    if n > 0 {
      ScaledIsProduct(w, n - 1);
    }
  }

  lemma {:induction false} ScaledBelow(w: nat, n: nat)
    requires w < TwoTo32 && n >= 1
    ensures Scaled(w, n) < TwoTo32 * n
    decreases n
  {
    if n > 1 {
      ScaledBelow(w, n - 1);
    }
  }

  /**
   * `Math.floor(rng() * (i + 1))` for the unsigned word `w`, computed exactly
   * as `(w * (i + 1)) / 2^32`; the partner of index `i` is never past `i`.
   */
  function SwapIndex(w: nat, i: nat): (j: nat)
    requires w < TwoTo32
    ensures j <= i
  {
    ScaledBelow(w, i + 1);
    Scaled(w, i + 1) / TwoTo32
  }

  /**
   * The integer form agrees with flooring the real product `w / 2^32 * (i + 1)`
   * that the generator's number feeds into `Math.floor`.
   */
  lemma SwapIndexIsFloor(w: nat, i: nat)
    requires w < TwoTo32
    ensures (SwapIndex(w, i) as real) <= ValueOf(w) * ((i + 1) as real)
    ensures ValueOf(w) * ((i + 1) as real) < ((SwapIndex(w, i) + 1) as real)
  {
    var n := Scaled(w, i + 1);
    var q := n / TwoTo32;
    assert SwapIndex(w, i) == q;
    ScaledIsProduct(w, i + 1);
    ValueTimes(w, i + 1, n);
    FloorBounds(ValueOf(w) * ((i + 1) as real), n);
  }

  /** A real equal to `n / 2^32` lies between the integer quotient and its successor. */
  lemma FloorBounds(x: real, n: nat)
    requires x == (n as real) / (TwoTo32 as real)
    ensures ((n / TwoTo32) as real) <= x < ((n / TwoTo32 + 1) as real)
  {
    DivBounds(n);
    FloorOfQuotient(n, n / TwoTo32);
  }

  lemma DivBounds(n: nat)
    ensures (n / TwoTo32) * TwoTo32 <= n < (n / TwoTo32 + 1) * TwoTo32
  {
  }

  /** `w / 2^32 * m` is the product `w * m` over 2^32. */
  lemma ValueTimes(w: nat, m: nat, n: nat)
    requires w < TwoTo32 && n == w * m
    ensures ValueOf(w) * (m as real) == (n as real) / (TwoTo32 as real)
  {
    RealProduct(w, m);
    RealDivAssoc(w as real, m as real);
  }

  lemma RealProduct(a: nat, b: nat)
    ensures (a * b) as real == (a as real) * (b as real)
  {
  }

  lemma RealDivAssoc(x: real, m: real)
    ensures (x / (TwoTo32 as real)) * m == (x * m) / (TwoTo32 as real)
  {
  }

  lemma FloorOfQuotient(n: nat, q: nat)
    requires q * TwoTo32 <= n < (q + 1) * TwoTo32
    ensures (q as real) <= (n as real) / (TwoTo32 as real) < ((q + 1) as real)
  {
    RealProduct(q, TwoTo32);
    RealProduct(q + 1, TwoTo32);
  }

  /** The partner of index `i` when the call advances the generator to `state`. */
  function Partner(state: bv32, i: nat): (j: nat)
    ensures j <= i
  {
    SwapIndex(Word(Mix(state)), i)
  }

  // ---------------------------------------------------------------------------
  // The shuffle
  // ---------------------------------------------------------------------------

  /** `[array[i], array[j]] = [array[j], array[i]]` on a sequence. */
  function Swap<T>(s: seq<T>, i: nat, j: nat): (r: seq<T>)
    requires i < |s| && j < |s|
    ensures |r| == |s|
  {
    s[i := s[j]][j := s[i]]
  }

  lemma SwapPermutes<T>(s: seq<T>, i: nat, j: nat)
    requires i < |s| && j < |s|
    ensures multiset(Swap(s, i, j)) == multiset(s)
  {
  }

  /**
   * Steps `i`, `i - 1`, ..., 1 of the descending loop on `s`, starting with
   * the generator in `state`: each step advances the generator once and swaps
   * its index with the partner drawn.
   */
  function ShuffleFrom<T>(s: seq<T>, i: nat, state: bv32): seq<T>
    requires i < |s|
    decreases i
  {
    if i == 0 then s
    else
      var next := Advance(state);
      ShuffleFrom(Swap(s, i, Partner(next, i)), i - 1, next)
  }

  /** What `shuffleWithSeed(array, seed)` leaves in an array holding `s`. */
  function Shuffled<T>(s: seq<T>, seed: bv32): seq<T> {
    if |s| == 0 then s else ShuffleFrom(s, |s| - 1, seed)
  }

  lemma {:induction false} ShuffleFromPermutes<T>(s: seq<T>, i: nat, state: bv32)
    requires i < |s|
    ensures |ShuffleFrom(s, i, state)| == |s|
    ensures multiset(ShuffleFrom(s, i, state)) == multiset(s)
    decreases i
  {
    if i > 0 {
      var next := Advance(state);
      SwapPermutes(s, i, Partner(next, i));
      ShuffleFromPermutes(Swap(s, i, Partner(next, i)), i - 1, next);
    }
  }

  /** The shuffle is a permutation: same length, same multiset of elements. */
  lemma ShuffledIsPermutation<T>(s: seq<T>, seed: bv32)
    ensures |Shuffled(s, seed)| == |s|
    ensures multiset(Shuffled(s, seed)) == multiset(s)
  {
    if |s| > 0 {
      ShuffleFromPermutes(s, |s| - 1, seed);
    }
  }

  /** Empty and one-element arrays come back unchanged whatever the seed. */
  lemma ShortInputUnchanged<T>(s: seq<T>, seed: bv32)
    requires |s| <= 1
    ensures Shuffled(s, seed) == s
  {
  }

  /** One turn of the loop: the call that advances `state` draws the word `u`, and `j` is its partner for `i`. */
  lemma ShuffleFromStep<T>(s: seq<T>, i: nat, state: bv32, u: bv32, j: nat)
    requires 0 < i < |s|
    requires u == Mix(Advance(state)) && j == SwapIndex(Word(u), i)
    ensures j <= i
    ensures ShuffleFrom(s, i, state) == ShuffleFrom(Swap(s, i, j), i - 1, Advance(state))
  {
  }

  /**
   * One turn of the `shuffleWithSeed` loop: draw the next number and swap
   * `a[i]` with its partner; what is left to do is the shuffle from `i - 1`.
   */
  method SwapWithDrawn<T>(a: array<T>, i: int, rng: SeededRandom, ghost target: seq<T>)
    requires 0 < i < a.Length
    requires rng.Valid() && target == ShuffleFrom(a[..], i, rng.state)
    modifies a, rng
    ensures rng.Valid()
    ensures target == ShuffleFrom(a[..], i - 1, rng.state)
  {
    ghost var before := a[..];
    ghost var state := rng.state;
    var u, _ := rng.Next();
    var j := SwapIndex(Word(u), i);
    ShuffleFromStep(before, i, state, u, j);
    a[i], a[j] := a[j], a[i];
    assert a[..] == Swap(before, i, j);
  }

  /**
   * `shuffleWithSeed(array, seed)`: Fisher–Yates from the last index down to 1,
   * in place; the same array is returned.
   */
  method ShuffleWithSeed<T>(a: array<T>, seed: bv32) returns (r: array<T>)
    modifies a
    ensures r == a
    ensures a[..] == Shuffled(old(a[..]), seed)
    ensures multiset(a[..]) == multiset(old(a[..]))
  {
    var rng := new SeededRandom(seed);
    ghost var target := Shuffled(a[..], seed);
    var i := a.Length - 1;
    while i > 0
      invariant -1 <= i < a.Length
      invariant i < 0 ==> a.Length == 0 && a[..] == target
      invariant rng.Valid() && fresh(rng)
      invariant i >= 0 ==> target == ShuffleFrom(a[..], i, rng.state)
    {
      SwapWithDrawn(a, i, rng, target);
      i := i - 1;
    }
    ShuffledIsPermutation(old(a[..]), seed);
    r := a;
  }
}
