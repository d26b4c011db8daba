/**
 * The Discovery API generator: search paths (a resources query and its
 * aggregations, two per keyword) and bib paths, in the shares of `makeup`,
 * then shuffled.
 */
module ApiPaths {
  import opened Wrappers
  import opened Text
  import opened Quota
  import opened PercentEncoding
  import opened Pools
  import opened Discovery

  /** `makeup`, in percent of the total. */
  const SearchPct: nat := 61
  const BibPct: nat := 39

  /** How many times each category's loop runs for a total of n. */
  function SearchQuota(n: int): nat { LoopQuota(n, SearchPct, 100) }
  function BibQuota(n: int): nat { LoopQuota(n, BibPct, 100) }

  const ResourcesBase := "/api/v0.1/discovery/resources"
  /** Where the bib resources live: `<ResourcesBase>/<bnum>`. */
  const BibBase := ResourcesBase + "/"

  /** The two paths one search iteration appends, in this order. */
  function SearchPair(keyword: string): (paths: seq<string>)
    ensures |paths| == 2
  {
    [ ResourcesBase + "?q=" + CgiEscape(keyword),
      ResourcesBase + "/aggregations?q=" + CgiEscape(keyword) ]
  }

  /** The search pairs of the given keywords, in order. */
  function SearchPaths(keywords: seq<string>): (paths: seq<string>)
    ensures |paths| == 2 * |keywords|
  {
    ChunkedLength(SearchPair, 2, keywords);
    Chunked(SearchPair, keywords)
  }

  lemma SearchPathsSnoc(keywords: seq<string>, keyword: string)
    ensures SearchPaths(keywords + [keyword]) == SearchPaths(keywords) + SearchPair(keyword)
  {
    ChunkedSnoc(SearchPair, keywords, keyword);
  }

  /** Paths 2i and 2i+1 query the same keyword: the resources, then their aggregations. */
  lemma SearchPathsAt(keywords: seq<string>, i: nat)
    requires i < |keywords|
    ensures SearchPaths(keywords)[2 * i] == ResourcesBase + "?q=" + CgiEscape(keywords[i])
    ensures SearchPaths(keywords)[2 * i + 1] == ResourcesBase + "/aggregations?q=" + CgiEscape(keywords[i])
  {
    ChunkedAt(SearchPair, 2, keywords, i);
    var all := Chunked(SearchPair, keywords);
    assert all[2 * i] == all[2 * i..2 * i + 2][0];
    assert all[2 * i + 1] == all[2 * i..2 * i + 2][1];
  }

  /** The search loop's paths: a pair per keyword the pool yields. */
  function SearchSpec(n: int, keywords: seq<string>, shuffle: (nat, seq<string>) -> seq<string>): (paths: seq<string>)
    requires IsShuffle(shuffle)
    ensures keywords != [] ==> |paths| == 2 * SearchQuota(n)
    ensures keywords == [] ==> paths == []
  {
    if keywords == [] then [] else SearchPaths(PoolDraws(shuffle, keywords, SearchQuota(n)))
  }

  /** Gather search paths: `while page_counts[:search] < n * 0.61`, two paths per keyword. */
  method SearchLoop(n: int, keywords: seq<string>, shuffle: (nat, seq<string>) -> seq<string>)
    returns (r: Result<seq<string>, ScriptError>)
    requires IsShuffle(shuffle)
    ensures r.Err? <==> keywords == [] && SearchQuota(n) > 0
    ensures r.Err? ==> r.error == NilKeyword
    ensures r.Ok? ==> |r.value| == 2 * SearchQuota(n) && r.value == SearchSpec(n, keywords, shuffle)
  {
    var pool := new Pool(keywords, shuffle);
    var paths: seq<string> := [];
    var count: nat := 0;
    while count * 100 < n * SearchPct
      invariant pool.Valid() && pool.seed == keywords && pool.shuffle == shuffle
      invariant count <= SearchQuota(n) && |pool.drawn| == count
      invariant keywords == [] ==> count == 0
      invariant keywords != [] ==> pool.drawn == PoolDraws(shuffle, keywords, count)
      invariant paths == SearchPaths(pool.drawn)
      decreases SearchQuota(n) - count
    {
      LoopQuotaIsExit(n, SearchPct, 100, count);
      ghost var before := pool.drawn;
      var keyword := pool.Take();
      if keyword.None? {
        return Err(NilKeyword);
      }
      SearchPathsSnoc(before, keyword.value);
      paths := paths + SearchPair(keyword.value);
      count := count + 1;
    }
    LoopQuotaIsExit(n, SearchPct, 100, count);
    assert count == SearchQuota(n);
    r := Ok(paths);
  }

  /** How many paths a successful run builds for n. */
  function BuiltCount(n: int): nat
  {
    2 * SearchQuota(n) + BibQuota(n)
  }

  /** Two paths per search make the output longer than the total asked for. */
  lemma BuiltCountExceedsTotal(n: int)
    requires n > 0
    ensures BuiltCount(n) > n
    ensures BuiltCount(n) * 100 >= n * (2 * SearchPct + BibPct)
  {
  }

  /** What a run that passed the precheck ends in. */
  ghost predicate BuiltFrom(g: Generated, n: int, keywords: seq<string>, inputs: Inputs)
    requires ValidInputs(inputs)
  {
    && g.bnums == Collected(inputs.pages, inputs.picks, g.fetched)
    && StopsAfter(n, BibPct, |keywords|, inputs.pages, inputs.picks, g.fetched)
    && g.built == SearchSpec(n, keywords, inputs.searchShuffle) + BibSpec(n, BibPct, BibBase, g.bnums, inputs.bibShuffle)
    && |g.built| == BuiltCount(n)
    && g.paths == inputs.finalShuffle(0, g.built)
    && multiset(g.paths) == multiset(g.built)
  }

  /** Everything after the precheck: collect bnums, run the two loops, shuffle. */
  method Build(n: int, keywords: seq<string>, inputs: Inputs) returns (r: Result<Generated, ScriptError>)
    requires ValidInputs(inputs)
    ensures r.Err? <==> keywords == [] && SearchQuota(n) > 0
    ensures r.Err? ==> r.error == NilKeyword
    ensures r.Ok? ==> BuiltFrom(r.value, n, keywords, inputs)
  {
    var order := inputs.keywordOrder(0, keywords);
    assert |order| == |keywords| by {
      assert multiset(order) == multiset(keywords);
      assert |multiset(order)| == |multiset(keywords)|;
    }
    var bnums, fetched := CollectBnums(n, BibPct, order, inputs.pages, inputs.picks);
    var search := SearchLoop(n, keywords, inputs.searchShuffle);
    if search.Err? {
      return Err(search.error);
    }
    var bib := BibLoop(n, BibPct, BibBase, bnums, inputs.bibShuffle);
    var built := search.value + bib;
    var paths := inputs.finalShuffle(0, built);
    assert multiset(paths) == multiset(built);
    r := Ok(Generated(bnums, fetched, built, paths));
  }

  /** The whole script for a total of n: the keyword precheck (floor of 0.61 n), then `Build`. */
  method Generate(n: int, csvKeywords: seq<string>, inputs: Inputs) returns (r: Result<Generated, ScriptError>)
    requires ValidInputs(inputs)
    ensures var keywords := FilterKeywords(csvKeywords);
      !EnoughSeeds(|keywords|, n, SearchPct) ==>
        r == Err(TooFewKeywords(TruncDiv(n * SearchPct, 100), |keywords|))
    ensures var keywords := FilterKeywords(csvKeywords);
      EnoughSeeds(|keywords|, n, SearchPct) && keywords == [] && SearchQuota(n) > 0 ==> r == Err(NilKeyword)
    ensures var keywords := FilterKeywords(csvKeywords);
      r.Ok? <==> EnoughSeeds(|keywords|, n, SearchPct) && !(keywords == [] && SearchQuota(n) > 0)
    ensures r.Ok? ==> BuiltFrom(r.value, n, FilterKeywords(csvKeywords), inputs)
  {
    var keywords := FilterKeywords(csvKeywords);
    if !EnoughSeeds(|keywords|, n, SearchPct) {
      return Err(TooFewKeywords(TruncDiv(n * SearchPct, 100), |keywords|));
    }
    r := Build(n, keywords, inputs);
  }
}
