/**
 * What the two Discovery generators (front end and API) do alike: drop
 * problematic keywords, check that there is enough seed data, and collect
 * bib ids ("bnums") by searching for keywords until there are enough.
 */
module Discovery {
  import opened Wrappers
  import opened Text
  import opened Quota
  import opened Pools

  /** Searches skipped until the many-item-bib bug is fixed (matched exactly, case-sensitive). */
  const ExcludedKeywords: seq<string> :=
    ["new york times", "new yorker", "new york daily news", "san francisco chronicle", "Times-Picayune", "Times Picayune"]

  /** Why a generator stops with an exception. */
  datatype ScriptError =
    | TooFewKeywords(wanted: int, have: nat)
    | TooFewSubjectHeadings(wanted: int, have: nat)
      /** CGI.escape(nil): the keyword pool was empty. */
    | NilKeyword
      /** nil.first: the subject-heading pool was empty. */
    | NilSubjectHeading

  /**
   * What a run sees from outside the script: each Array#shuffle (the k-th
   * call on an array s returns f(k, s)), the `@id`s of the page each search
   * returned, and the positions sample(20) picked from each page.
   */
  datatype Inputs = Inputs(
    keywordOrder: (nat, seq<string>) -> seq<string>,
    pages: nat -> seq<string>,
    picks: nat -> seq<nat>,
    searchShuffle: (nat, seq<string>) -> seq<string>,
    bibShuffle: (nat, seq<string>) -> seq<string>,
    finalShuffle: (nat, seq<string>) -> seq<string>)

  ghost predicate ValidInputs(inputs: Inputs)
  {
    && IsShuffle(inputs.keywordOrder)
    && IsShuffle(inputs.searchShuffle)
    && IsShuffle(inputs.bibShuffle)
    && IsShuffle(inputs.finalShuffle)
    && ValidSamples(inputs.pages, inputs.picks)
  }

  /**
   * The state a successful run ends in: the bnums collected from the first
   * `fetched` searches, the `paths` array as the loops built it, and the
   * same array after `paths.shuffle!`.
   */
  datatype Generated = Generated(bnums: seq<string>, fetched: nat, built: seq<string>, paths: seq<string>)

  /** `keywords.filter { |k| !EXCLUDED.include? k }`. */
  function FilterKeywords(keywords: seq<string>): (kept: seq<string>)
    ensures |kept| <= |keywords|
    ensures forall k :: multiset(kept)[k] == if k in ExcludedKeywords then 0 else multiset(keywords)[k]
  {
    if keywords == [] then []
    else
      var rest := FilterKeywords(keywords[1..]);
      assert keywords == [keywords[0]] + keywords[1..];
      if keywords[0] in ExcludedKeywords then rest else [keywords[0]] + rest
  }

  /** No excluded title survives the filter. */
  lemma FilterRemovesExcluded(keywords: seq<string>, k: string)
    requires k in FilterKeywords(keywords)
    ensures k !in ExcludedKeywords && k in keywords
  {
    assert multiset(FilterKeywords(keywords))[k] > 0;
  }

  /** The filter keeps the order of the keywords: filtering a concatenation filters each part. */
  lemma {:induction false} FilterKeywordsAppend(a: seq<string>, b: seq<string>)
    ensures FilterKeywords(a + b) == FilterKeywords(a) + FilterKeywords(b)
  {
    if a != [] {
      var ab := a + b;
      assert ab[0] == a[0] && ab[1..] == a[1..] + b;
      FilterKeywordsAppend(a[1..], b);
      if a[0] in ExcludedKeywords {
        assert FilterKeywords(ab) == FilterKeywords(ab[1..]);
        assert FilterKeywords(a) == FilterKeywords(a[1..]);
      } else {
        assert FilterKeywords(ab) == [a[0]] + FilterKeywords(ab[1..]);
        assert FilterKeywords(a) == [a[0]] + FilterKeywords(a[1..]);
      }
    } else {
      assert a + b == b;
    }
  }

  /**
   * `raise ... if size < (p * n).to_i` with p == pct / 100: the seed check
   * passes when at least the truncated target is available.
   */
  predicate EnoughSeeds(size: nat, n: int, pct: nat)
  {
    !(size < TruncDiv(n * pct, 100))
  }

  /**
   * The seed check passes exactly when one more seed than there is would
   * exceed the exact share: size >= floor(n * p) for n * p >= 0, and always
   * for a negative share.
   */
  lemma EnoughSeedsExact(size: nat, n: int, pct: nat)
    ensures EnoughSeeds(size, n, pct) <==> (size + 1) * 100 > n * pct
  {
    var q := TruncDiv(n * pct, 100);
    if size < q {
      MulMonotone(size + 1, q, 100);
    } else {
      MulMonotone(q, size, 100);
    }
  }

  /** `bnums.size > n * p` with p == pct / 100. */
  predicate Enough(size: nat, n: int, pct: nat)
  {
    size * 100 > n * pct
  }

  /** `id.sub(/res:/, '')`: an `@id` such as `res:b12345678` becomes `b12345678`. */
  function StripRes(id: string): (bnum: string)
    ensures |bnum| <= |id|
  {
    RemoveFirst(id, "res:")
  }

  lemma StripResOfPrefixed(bnum: string)
    ensures StripRes("res:" + bnum) == bnum
  {
    RemoveFirstOfPrefixed("res:", bnum);
  }

  /**
   * `ids.sample(20)`: the positions picked are distinct, inside the page,
   * and there are min(20, |page|) of them.
   */
  predicate ValidSample(pick: seq<nat>, size: nat)
  {
    && |pick| == (if size < 20 then size else 20)
    && (forall i :: 0 <= i < |pick| ==> pick[i] < size)
    && (forall i, j :: 0 <= i < j < |pick| ==> pick[i] != pick[j])
  }

  /** The bnums one search contributes: the picked `@id`s with `res:` removed. */
  function Sample(page: seq<string>, pick: seq<nat>): (bnums: seq<string>)
    requires forall i :: 0 <= i < |pick| ==> pick[i] < |page|
    ensures |bnums| == |pick|
  {
    seq(|pick|, i requires 0 <= i < |pick| => StripRes(page[pick[i]]))
  }

  /** Ruby's sample(20) over each page: every pick is valid for its page. */
  ghost predicate ValidSamples(pages: nat -> seq<string>, picks: nat -> seq<nat>)
  {
    forall k :: ValidSample(picks(k), |pages(k)|)
  }

  /** The bnums gathered from the first k searches. */
  function Collected(pages: nat -> seq<string>, picks: nat -> seq<nat>, k: nat): (bnums: seq<string>)
    requires ValidSamples(pages, picks)
    ensures |bnums| <= 20 * k
  {
    if k == 0 then [] else Collected(pages, picks, k - 1) + Sample(pages(k - 1), picks(k - 1))
  }

  /** Each collected bnum is a `res:`-stripped id from the page of one of the searches. */
  lemma {:induction false} CollectedFromPages(pages: nat -> seq<string>, picks: nat -> seq<nat>, k: nat, b: string)
    requires ValidSamples(pages, picks)
    ensures b in Collected(pages, picks, k) ==>
      exists j, i :: 0 <= j < k && 0 <= i < |pages(j)| && b == StripRes(pages(j)[i])
  {
    if k > 0 {
      CollectedFromPages(pages, picks, k - 1, b);
      var last := Sample(pages(k - 1), picks(k - 1));
      if b in last {
        var x :| 0 <= x < |last| && last[x] == b;
        assert b == StripRes(pages(k - 1)[picks(k - 1)[x]]);
      }
    }
  }

  /**
   * How the bnum loop ends: after `fetched` searches (at least the first one
   * when there are keywords), stopping right after the first one that brought
   * the total over the threshold, or when the keywords ran out.
   */
  ghost predicate StopsAfter(n: int, pct: nat, keywordCount: nat, pages: nat -> seq<string>, picks: nat -> seq<nat>, fetched: nat)
    requires ValidSamples(pages, picks)
  {
    && fetched <= keywordCount
    && (keywordCount > 0 ==> fetched > 0)
    && (fetched == keywordCount || Enough(|Collected(pages, picks, fetched)|, n, pct))
    && (forall j :: 0 < j < fetched ==> !Enough(|Collected(pages, picks, j)|, n, pct))
  }

  /**
   * The loop
   *
   *   keywords.shuffle.each do |keyword|
   *     bnums += <ids found for keyword, res: removed>.sample(20)
   *     break if bnums.size > n * p
   *   end
   *
   * where `order` is the shuffled keyword list and the k-th search returned
   * pages(k), of which picks(k) were sampled.
   */
  method CollectBnums(n: int, pct: nat, order: seq<string>, pages: nat -> seq<string>, picks: nat -> seq<nat>)
    returns (bnums: seq<string>, fetched: nat)
    requires ValidSamples(pages, picks)
    ensures bnums == Collected(pages, picks, fetched)
    ensures StopsAfter(n, pct, |order|, pages, picks, fetched)
    ensures |bnums| <= 20 * fetched
  {
    bnums, fetched := [], 0;
    while fetched < |order|
      invariant fetched <= |order|
      invariant bnums == Collected(pages, picks, fetched)
      invariant forall j :: 0 < j <= fetched ==> !Enough(|Collected(pages, picks, j)|, n, pct)
    {
      bnums := bnums + Sample(pages(fetched), picks(fetched));
      fetched := fetched + 1;
      if Enough(|bnums|, n, pct) {
        break;
      }
    }
    CollectedFromPages(pages, picks, fetched, "");
  }

  /**
   * A bib path under `base` (the catalog's bib page or the API's bib
   * resource); a nil bnum (the bnum pool was empty) interpolates as nothing.
   */
  function BibPath(base: string, bnum: Option<string>): (path: string)
    ensures |base| <= |path| && path[..|base|] == base
    ensures bnum.None? ==> path == base
    ensures bnum.Some? ==> path[|base|..] == bnum.value
  {
    match bnum
    case Some(b) => base + b
    case None => base
  }

  function BibPaths(base: string, bnums: seq<string>): (paths: seq<string>)
    ensures |paths| == |bnums|
  {
    seq(|bnums|, i requires 0 <= i < |bnums| => BibPath(base, Some(bnums[i])))
  }

  lemma BibPathsSnoc(base: string, bnums: seq<string>, bnum: string)
    ensures BibPaths(base, bnums + [bnum]) == BibPaths(base, bnums) + [BibPath(base, Some(bnum))]
  {
    var a, b := BibPaths(base, bnums + [bnum]), BibPaths(base, bnums) + [BibPath(base, Some(bnum))];
    forall i | 0 <= i < |a| ensures a[i] == b[i] {
      assert (bnums + [bnum])[i] == if i < |bnums| then bnums[i] else bnum;
    }
  }

  /** The bib paths of k iterations that found no bnum. */
  function NilBibPaths(base: string, k: nat): (paths: seq<string>)
    ensures |paths| == k
  {
    seq(k, _ => BibPath(base, None))
  }

  lemma NilBibPathsSnoc(base: string, k: nat)
    ensures NilBibPaths(base, k + 1) == NilBibPaths(base, k) + [BibPath(base, None)]
  {
  }

  /** The bib loop's paths: one per bnum the pool yields, or nil ones when there are no bnums. */
  function BibSpec(n: int, pct: nat, base: string, bnums: seq<string>, shuffle: (nat, seq<string>) -> seq<string>): (paths: seq<string>)
    requires IsShuffle(shuffle)
    ensures |paths| == LoopQuota(n, pct, 100)
  {
    if bnums == [] then NilBibPaths(base, LoopQuota(n, pct, 100))
    else BibPaths(base, PoolDraws(shuffle, bnums, LoopQuota(n, pct, 100)))
  }

  /** Every bib path names one of the collected bnums, or none when none were collected. */
  lemma BibPathsUseCollectedBnums(n: int, pct: nat, base: string, bnums: seq<string>,
                                  shuffle: (nat, seq<string>) -> seq<string>, i: nat)
    requires IsShuffle(shuffle) && i < LoopQuota(n, pct, 100)
    ensures bnums == [] ==> BibSpec(n, pct, base, bnums, shuffle)[i] == BibPath(base, None)
    ensures bnums != [] ==> exists b :: b in bnums && BibSpec(n, pct, base, bnums, shuffle)[i] == BibPath(base, Some(b))
  {
    if bnums != [] {
      PoolDrawsFromSeed(shuffle, bnums, LoopQuota(n, pct, 100), i);
    }
  }

  /**
   * Gather bib paths: `while page_counts[:bib] < n * p` with p == pct / 100;
   * the counter moves on even for a nil bnum.
   */
  method BibLoop(n: int, pct: nat, base: string, bnums: seq<string>, shuffle: (nat, seq<string>) -> seq<string>)
    returns (paths: seq<string>)
    requires IsShuffle(shuffle)
    ensures |paths| == LoopQuota(n, pct, 100) && paths == BibSpec(n, pct, base, bnums, shuffle)
  {
    var pool := new Pool(bnums, shuffle);
    paths := [];
    var count: nat := 0;
    while count * 100 < n * pct
      invariant pool.Valid() && pool.seed == bnums && pool.shuffle == shuffle
      invariant count <= LoopQuota(n, pct, 100)
      invariant bnums == [] ==> paths == NilBibPaths(base, count)
      invariant bnums != [] ==> |pool.drawn| == count && pool.drawn == PoolDraws(shuffle, bnums, count)
      invariant bnums != [] ==> paths == BibPaths(base, pool.drawn)
      decreases LoopQuota(n, pct, 100) - count
    {
      LoopQuotaIsExit(n, pct, 100, count);
      ghost var before := pool.drawn;
      var bnum := pool.Take();
      if bnums != [] {
        BibPathsSnoc(base, before, bnum.value);
      } else {
        NilBibPathsSnoc(base, count);
      }
      paths := paths + [BibPath(base, bnum)];
      count := count + 1;
    }
    LoopQuotaIsExit(n, pct, 100, count);
  }
}
