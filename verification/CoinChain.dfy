/** The arithmetic of coin hashes: complexity, difficulty, golden hashes, and
    what they say about a chain of mined coins. */
module CoinChain {

  /** A hexadecimal digit. */
  type Digit = d: nat | d < 16

  type Hash = seq<Digit>

  /** The digits below simplification at the front of a hash. */
  function Complexity(h: Hash, simplification: nat): (c: nat)
    ensures c <= |h|
  {
    if h == [] || h[0] >= simplification then 0 else 1 + Complexity(h[1..], simplification)
  }

  /** c digits are below simplification, and the next one, if any, is not. */
  ghost predicate Prefix(h: Hash, simplification: nat, c: nat) {
    c <= |h| && (forall i :: 0 <= i < c ==> h[i] < simplification) && (c < |h| ==> h[c] >= simplification)
  }

  lemma {:induction false} ComplexityExact(h: Hash, simplification: nat, c: nat)
    ensures c == Complexity(h, simplification) <==> Prefix(h, simplification, c)
  {
    if h != [] && h[0] < simplification && c > 0 {
      ComplexityExact(h[1..], simplification, c - 1);
      assert Prefix(h[1..], simplification, c - 1) ==> forall i :: 0 < i < c ==> h[i] == h[1..][i-1];
    }
  }

  /** The first n digits all are d. */
  predicate Repeats(h: Hash, d: nat, n: nat) {
    n <= |h| && forall i :: 0 <= i < n ==> h[i] == d
  }

  /** Some digit below simplification makes up the first n digits. */
  predicate Uniform(h: Hash, simplification: nat, n: nat) {
    exists d: nat :: d < simplification && Repeats(h, d, n)
  }

  /** The longest uniform prefix. */
  function Difficulty(h: Hash, simplification: nat): (n: nat)
    requires simplification >= 1
    ensures Uniform(h, simplification, n) && !Uniform(h, simplification, n + 1)
  {
    assert Repeats(h, 0, 0);
    LongestUniform(h, simplification, 0)
  }

  function LongestUniform(h: Hash, simplification: nat, n: nat): (r: nat)
    requires Uniform(h, simplification, n)
    ensures r >= n && Uniform(h, simplification, r) && !Uniform(h, simplification, r + 1)
    decreases |h| - n
  {
    if Uniform(h, simplification, n + 1) then LongestUniform(h, simplification, n + 1) else n
  }

  lemma UniformShorter(h: Hash, simplification: nat, n: nat, m: nat)
    requires Uniform(h, simplification, n) && m <= n
    ensures Uniform(h, simplification, m)
  {
    var d: nat :| d < simplification && Repeats(h, d, n);
    assert Repeats(h, d, m);
  }

  lemma DifficultyUnique(h: Hash, simplification: nat, n: nat)
    requires simplification >= 1 && Uniform(h, simplification, n) && !Uniform(h, simplification, n + 1)
    ensures Difficulty(h, simplification) == n
  {
    var r := Difficulty(h, simplification);
    if r < n {
      UniformShorter(h, simplification, n, r + 1);
    } else if n < r {
      UniformShorter(h, simplification, r, n + 1);
    }
  }

  predicate Golden(h: Hash, simplification: nat)
    requires simplification >= 1
  {
    Difficulty(h, simplification) == Complexity(h, simplification)
  }

  /** Difficulty never exceeds complexity; the two agree exactly if the prefix of
      digits below simplification is one digit repeated. */
  lemma DifficultyBound(h: Hash, simplification: nat)
    requires simplification >= 1
    ensures Difficulty(h, simplification) <= Complexity(h, simplification)
    ensures Golden(h, simplification)
      <==> forall i :: 0 <= i < Complexity(h, simplification) ==> h[i] == h[0]
  {
    var c, n := Complexity(h, simplification), Difficulty(h, simplification);
    ComplexityExact(h, simplification, c);
    var d: nat :| d < simplification && Repeats(h, d, n);
    if forall i :: 0 <= i < c ==> h[i] == h[0] {
      assert Repeats(h, if c > 0 then h[0] else 0, c);
      if n < c {
        UniformShorter(h, simplification, c, n + 1);
      }
    }
  }

  /** The complexity demanded of the coin that follows a hash. */
  function Demand(prev: Hash, simplification: nat): nat
    requires simplification >= 1
  {
    Complexity(prev, simplification) + if Golden(prev, simplification) then 1 else 0
  }

  /** A chain of hashes that starts with the empty one, each mined on the last. */
  ghost predicate Chain(hs: seq<Hash>, simplification: nat)
    requires simplification >= 1
  {
    && hs != [] && hs[0] == []
    && forall k :: 0 < k < |hs| ==> Complexity(hs[k], simplification) == Demand(hs[k-1], simplification)
  }

  function GoldenBefore(hs: seq<Hash>, simplification: nat, n: nat): nat
    requires simplification >= 1 && n <= |hs|
  {
    if n == 0 then 0
    else GoldenBefore(hs, simplification, n - 1) + if Golden(hs[n-1], simplification) then 1 else 0
  }

  /** The complexity of coin n is the number of golden hashes before it, so it
      never falls, never rises by more than one, and is at most n. */
  lemma {:induction false} ChainLaw(hs: seq<Hash>, simplification: nat, n: nat)
    requires simplification >= 1 && Chain(hs, simplification) && n < |hs|
    ensures Complexity(hs[n], simplification) == GoldenBefore(hs, simplification, n) <= n
    ensures forall k :: 0 <= k <= n ==> Complexity(hs[k], simplification) <= Complexity(hs[n], simplification)
  {
    hide Golden;
    if n > 0 {
      ChainLaw(hs, simplification, n - 1);
    }
  }

  /** A chain of hashes of one length runs dry: once as many golden hashes as a
      hash has digits lie before a coin, that coin is golden by a full-length
      repetition at best, and no coin can follow such a hash. */
  lemma ChainRunsDry(hs: seq<Hash>, simplification: nat, length: nat, n: nat)
    requires simplification >= 1 && Chain(hs, simplification) && n < |hs|
    requires forall k :: 0 < k < |hs| ==> |hs[k]| == length
    ensures GoldenBefore(hs, simplification, n) <= length
    ensures 0 < n && GoldenBefore(hs, simplification, n) == length && Golden(hs[n], simplification) ==> n == |hs| - 1
  {
    ChainLaw(hs, simplification, n);
    if n + 1 < |hs| {
      ChainLaw(hs, simplification, n + 1);
    }
  }
}
