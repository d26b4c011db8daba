/**
 * The candidate pools of the Ruby generators:
 *
 *   pool = seed.shuffle if pool.empty?
 *   value = pool.shift
 *
 * Array#shuffle is an input: the k-th reshuffle of a pool returns
 * shuffle(k, seed), any permutation of seed.
 */
module Pools {
  import opened Wrappers
  import opened Quota

  /** f returns a permutation of its array argument on every call. */
  ghost predicate IsShuffle<T(!new)>(f: (nat, seq<T>) -> seq<T>)
  {
    forall k, s :: multiset(f(k, s)) == multiset(s)
  }

  /** The first k shuffles of seed, one after another. */
  function Rounds<T>(shuffle: (nat, seq<T>) -> seq<T>, seed: seq<T>, k: nat): seq<T>
  {
    if k == 0 then [] else Rounds(shuffle, seed, k - 1) + shuffle(k - 1, seed)
  }

  lemma {:induction false} RoundsLength<T(!new)>(shuffle: (nat, seq<T>) -> seq<T>, seed: seq<T>, k: nat)
    requires IsShuffle(shuffle)
    ensures |Rounds(shuffle, seed, k)| == k * |seed|
  {
    if k > 0 {
      RoundsLength(shuffle, seed, k - 1);
      assert |shuffle(k - 1, seed)| == |multiset(shuffle(k - 1, seed))| == |seed|;
    }
  }

  lemma {:induction false} RoundsPrefix<T>(shuffle: (nat, seq<T>) -> seq<T>, seed: seq<T>, a: nat, b: nat)
    requires a <= b
    ensures Rounds(shuffle, seed, a) <= Rounds(shuffle, seed, b)
    decreases b
  {
    if a < b {
      RoundsPrefix(shuffle, seed, a, b - 1);
    }
  }

  /** Pass p of the rounds is exactly the p-th shuffle. */
  lemma {:induction false} RoundsSegment<T(!new)>(shuffle: (nat, seq<T>) -> seq<T>, seed: seq<T>, k: nat, p: nat)
    requires IsShuffle(shuffle) && p < k
    ensures |Rounds(shuffle, seed, k)| == k * |seed|
    ensures (p + 1) * |seed| <= k * |seed|
    ensures Rounds(shuffle, seed, k)[p * |seed|..(p + 1) * |seed|] == shuffle(p, seed)
  {
    RoundsLength(shuffle, seed, k);
    RoundsLength(shuffle, seed, k - 1);
    MulMonotone(p + 1, k, |seed|);
    if p < k - 1 {
      RoundsSegment(shuffle, seed, k - 1, p);
      MulMonotone(p + 1, k - 1, |seed|);
    }
  }

  /** The first q values a pool of seed yields, when seed is not empty. */
  function PoolDraws<T(!new)>(shuffle: (nat, seq<T>) -> seq<T>, seed: seq<T>, q: nat): (d: seq<T>)
    requires IsShuffle(shuffle) && seed != []
    ensures |d| == q
  {
    RoundsLength(shuffle, seed, q);
    MulMonotone(1, |seed|, q);
    Rounds(shuffle, seed, q)[..q]
  }

  /**
   * Between two reshuffles the pool yields a prefix of one shuffle of the
   * seed: the values drawn in pass p are shuffle(p, seed) cut to what was
   * drawn, and a pass that was drawn to its end is the whole shuffle.
   */
  lemma PassOfPoolDraws<T(!new)>(shuffle: (nat, seq<T>) -> seq<T>, seed: seq<T>, q: nat, p: nat)
    requires IsShuffle(shuffle) && seed != [] && p * |seed| < q
    ensures var end := if q < (p + 1) * |seed| then q else (p + 1) * |seed|;
      PoolDraws(shuffle, seed, q)[p * |seed|..end] <= shuffle(p, seed)
  {
    MulMonotone(1, |seed|, p);
    RoundsSegment(shuffle, seed, q, p);
  }

  /** A complete pass yields every seed value exactly as often as the seed holds it. */
  lemma CompletePassIsPermutation<T(!new)>(shuffle: (nat, seq<T>) -> seq<T>, seed: seq<T>, q: nat, p: nat)
    requires IsShuffle(shuffle) && seed != [] && (p + 1) * |seed| <= q
    ensures (p + 1) * |seed| <= |PoolDraws(shuffle, seed, q)|
    ensures multiset(PoolDraws(shuffle, seed, q)[p * |seed|..(p + 1) * |seed|]) == multiset(seed)
  {
    var n := |seed|;
    assert (p + 1) * n == p * n + n;
    PassOfPoolDraws(shuffle, seed, q, p);
    var pass := shuffle(p, seed);
    assert |pass| == |multiset(pass)| == n;
    var segment := PoolDraws(shuffle, seed, q)[p * n..(p + 1) * n];
    assert segment <= pass && |segment| == |pass|;
    assert segment == pass;
  }

  /** Within one pass, a seed without duplicates never yields a value twice. */
  lemma PassHasNoRepeats<T(!new)>(shuffle: (nat, seq<T>) -> seq<T>, seed: seq<T>, q: nat, p: nat, i: nat, j: nat)
    requires IsShuffle(shuffle) && seed != [] && p * |seed| < q
    requires forall a, b :: 0 <= a < b < |seed| ==> seed[a] != seed[b]
    requires p * |seed| <= i < j < q && j < (p + 1) * |seed|
    ensures PoolDraws(shuffle, seed, q)[i] != PoolDraws(shuffle, seed, q)[j]
  {
    var start := p * |seed|;
    PassOfPoolDraws(shuffle, seed, q, p);
    var pass := shuffle(p, seed);
    assert |pass| == |multiset(pass)| == |seed|;
    assert PoolDraws(shuffle, seed, q)[i] == pass[i - start];
    assert PoolDraws(shuffle, seed, q)[j] == pass[j - start];
    DistinctPermutation(seed, pass, i - start, j - start);
  }

  /** A permutation of a sequence without duplicates has none either. */
  lemma DistinctPermutation<T>(seed: seq<T>, perm: seq<T>, a: nat, b: nat)
    requires multiset(perm) == multiset(seed)
    requires forall x, y :: 0 <= x < y < |seed| ==> seed[x] != seed[y]
    requires a < b < |perm|
    ensures perm[a] != perm[b]
  {
    DistinctCount(seed, perm[a]);
    if perm[a] == perm[b] {
      RepeatCount(perm, a, b);
      assert false;
    }
  }

  lemma RepeatCount<T>(s: seq<T>, a: nat, b: nat)
    requires a < b < |s| && s[a] == s[b]
    ensures multiset(s)[s[a]] >= 2
  {
    assert s == s[..b] + s[b..];
    assert s[a] in s[..b] && s[b] in s[b..];
  }

  lemma {:induction false} DistinctCount<T>(s: seq<T>, v: T)
    requires forall x, y :: 0 <= x < y < |s| ==> s[x] != s[y]
    ensures multiset(s)[v] <= 1
  {
    if s != [] {
      DistinctCount(s[1..], v);
      assert s == [s[0]] + s[1..];
      if s[0] == v {
        assert v !in s[1..];
      }
    }
  }

  /** Every value a pool yields is one of its seed values. */
  lemma PoolDrawsFromSeed<T(!new)>(shuffle: (nat, seq<T>) -> seq<T>, seed: seq<T>, q: nat, i: nat)
    requires IsShuffle(shuffle) && seed != [] && i < q
    ensures PoolDraws(shuffle, seed, q)[i] in seed
  {
    RoundsLength(shuffle, seed, q);
    MulMonotone(1, |seed|, q);
    RoundsFromSeed(shuffle, seed, q, Rounds(shuffle, seed, q)[i]);
  }

  lemma {:induction false} RoundsFromSeed<T(!new)>(shuffle: (nat, seq<T>) -> seq<T>, seed: seq<T>, k: nat, x: T)
    requires IsShuffle(shuffle)
    ensures x in Rounds(shuffle, seed, k) ==> x in seed
  {
    if k > 0 {
      RoundsFromSeed(shuffle, seed, k - 1, x);
      if x in shuffle(k - 1, seed) {
        assert x in multiset(shuffle(k - 1, seed));
      }
    }
  }

  /** A shuffle-on-empty pool over a fixed seed. */
  class Pool<T(==, !new)> {
    const seed: seq<T>
    const shuffle: (nat, seq<T>) -> seq<T>
    /** What is left of the current pass. */
    var pool: seq<T>
    /** How many times the pool has been refilled. */
    var passes: nat
    /** Every value taken so far. */
    ghost var drawn: seq<T>

    ghost predicate Valid()
      reads this
    {
      IsShuffle(shuffle) && drawn + pool == Rounds(shuffle, seed, passes)
    }

    /** `pool = []`. */
    constructor (seed: seq<T>, shuffle: (nat, seq<T>) -> seq<T>)
      requires IsShuffle(shuffle)
      ensures Valid() && this.seed == seed && this.shuffle == shuffle
      ensures pool == [] && passes == 0 && drawn == []
    {
      this.seed := seed;
      this.shuffle := shuffle;
      pool := [];
      passes := 0;
      drawn := [];
    }

    /** `pool = seed.shuffle if pool.empty?; pool.shift`. */
    method Take() returns (x: Option<T>)
      requires Valid()
      modifies this
      ensures Valid()
      ensures old(pool) != [] ==> passes == old(passes) && x == Some(old(pool)[0]) && pool == old(pool)[1..]
      ensures old(pool) == [] ==> passes == old(passes) + 1
      ensures old(pool) == [] && shuffle(old(passes), seed) == [] ==> x == None && pool == []
      ensures old(pool) == [] && shuffle(old(passes), seed) != [] ==>
        x == Some(shuffle(old(passes), seed)[0]) && pool == shuffle(old(passes), seed)[1..]
      ensures x.None? <==> seed == []
      ensures drawn == if x.Some? then old(drawn) + [x.value] else old(drawn)
      ensures seed != [] ==> drawn == PoolDraws(shuffle, seed, |drawn|)
    {
      if pool == [] {
        assert drawn == Rounds(shuffle, seed, passes);
        pool := shuffle(passes, seed);
        passes := passes + 1;
        assert drawn + pool == Rounds(shuffle, seed, passes);
        assert multiset(pool) == multiset(seed);
      }
      if pool == [] {
        x := None;
      } else {
        ShiftKeeps(drawn, pool);
        x := Some(pool[0]);
        drawn := drawn + [pool[0]];
        pool := pool[1..];
      }
      if seed != [] {
        DrawnArePoolDraws();
      } else {
        assert |multiset(old(pool))| == 0 by { EmptySeedRounds(shuffle, seed, old(passes)); }
      }
    }

    /** What has been drawn is a prefix of the rounds, so it is the pool's first draws. */
    lemma DrawnArePoolDraws()
      requires Valid() && seed != []
      ensures drawn == PoolDraws(shuffle, seed, |drawn|)
    {
      var q := |drawn|;
      var m := if q < passes then passes else q;
      RoundsPrefix(shuffle, seed, passes, m);
      RoundsPrefix(shuffle, seed, q, m);
      RoundsLength(shuffle, seed, q);
      MulMonotone(1, |seed|, q);
      assert drawn == Rounds(shuffle, seed, m)[..q];
    }
  }

  /** Moving the head of the pool to the end of what was drawn keeps their concatenation. */
  lemma ShiftKeeps<T>(drawn: seq<T>, pool: seq<T>)
    requires pool != []
    ensures drawn + [pool[0]] + pool[1..] == drawn + pool
  {
    assert [pool[0]] + pool[1..] == pool;
  }

  /** An empty seed only ever shuffles to an empty pool. */
  lemma {:induction false} EmptySeedRounds<T(!new)>(shuffle: (nat, seq<T>) -> seq<T>, seed: seq<T>, k: nat)
    requires IsShuffle(shuffle) && seed == []
    ensures Rounds(shuffle, seed, k) == []
  {
    RoundsLength(shuffle, seed, k);
  }
}
