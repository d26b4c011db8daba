/**
 * The catalog front-end generator: page paths for search results, bib
 * pages, the home page and subject-heading navigations, in the shares of
 * `makeup`, then shuffled.
 */
module FrontEndPaths {
  import opened Wrappers
  import opened Text
  import opened Quota
  import opened PercentEncoding
  import opened Pools
  import opened Discovery

  /** `makeup`, in percent of the total. The hold share has no loop, so no hold paths are built. */
  const SearchPct: nat := 36
  const HoldPct: nat := 26
  const BibPct: nat := 23
  const HomepagePct: nat := 13
  const SubjectHeadingsPct: nat := 1

  const CatalogBase := "/research/collections/shared-collection-catalog/"
  /** Where the bib pages live: `<CatalogBase>bib/<bnum>`. */
  const BibBase := CatalogBase + "bib/"

  /** How many times each category's loop runs for a total of n. */
  function SearchQuota(n: int): nat { LoopQuota(n, SearchPct, 100) }
  function BibQuota(n: int): nat { LoopQuota(n, BibPct, 100) }
  function HomepageQuota(n: int): nat { LoopQuota(n, HomepagePct, 100) }
  function SubjectHeadingQuota(n: int): nat { LoopQuota(n, SubjectHeadingsPct, 100) }

  /** A catalog search whose escaped keyword cannot end the query or start another parameter. */
  function SearchPath(keyword: string): (path: string)
    ensures var front := CatalogBase + "search?q=";
      |front| <= |path| && path[..|front|] == front && AllQuerySafe(path[|front|..])
  {
    var front := CatalogBase + "search?q=";
    CgiEscapeSafe(keyword);
    assert (front + CgiEscape(keyword))[|front|..] == CgiEscape(keyword);
    front + CgiEscape(keyword)
  }

  function SearchPaths(keywords: seq<string>): (paths: seq<string>)
    ensures |paths| == |keywords|
  {
    seq(|keywords|, i requires 0 <= i < |keywords| => SearchPath(keywords[i]))
  }

  lemma SearchPathsSnoc(keywords: seq<string>, keyword: string)
    ensures SearchPaths(keywords + [keyword]) == SearchPaths(keywords) + [SearchPath(keyword)]
  {
    var a, b := SearchPaths(keywords + [keyword]), SearchPaths(keywords) + [SearchPath(keyword)];
    forall i | 0 <= i < |a| ensures a[i] == b[i] {
      assert (keywords + [keyword])[i] == if i < |keywords| then keywords[i] else keyword;
    }
  }

  const HomepagePath := CatalogBase

  const HeadingMarker := "subject_headings/"
  const LabelMarker := "?label="

  /** The longest prefix of s without the character c. */
  function RunWithout(s: string, c: char): (k: nat)
    ensures k <= |s| && (forall i :: 0 <= i < k ==> s[i] != c) && (k == |s| || s[k] == c)
  {
    if s == [] || s[0] == c then 0 else 1 + RunWithout(s[1..], c)
  }

  lemma RunWithoutIs(s: string, c: char, k: nat)
    requires k <= |s| && (forall i :: 0 <= i < k ==> s[i] != c) && (k == |s| || s[k] == c)
    ensures RunWithout(s, c) == k
  {
  }

  /**
   * A match of /subject_headings\/([^\?]+)\?label=(.+)/ starting at i, with
   * the literal parts `subject_headings/` and `?label=` given as `head` and
   * `tag`: the first group runs up to the first '?', which must start `tag`;
   * the second takes everything up to a newline and must not be empty.
   */
  function MatchAt(s: string, i: nat, head: string, tag: string): (m: Option<(string, string)>)
    requires i <= |s|
    ensures m.Some? ==> OccursAt(s, head, i) && Captures(m.value)
  {
    if !OccursAt(s, head, i) then None
    else
      var j := i + |head|;
      var k := j + RunWithout(s[j..], '?');
      if k == j || !OccursAt(s, tag, k) then None
      else
        var m := k + |tag|;
        var l := m + RunWithout(s[m..], '\n');
        if l == m then None else Some((s[j..k], s[m..l]))
  }

  /** What the two groups capture: a non-empty run without '?', then a non-empty run without a newline. */
  predicate Captures(groups: (string, string))
  {
    && groups.0 != [] && (forall t :: 0 <= t < |groups.0| ==> groups.0[t] != '?')
    && groups.1 != [] && (forall t :: 0 <= t < |groups.1| ==> groups.1[t] != '\n')
  }

  /** The leftmost match at or after i. */
  function MatchFrom(s: string, i: nat, head: string, tag: string): (m: Option<(string, string)>)
    requires i <= |s|
    ensures m.Some? ==> Captures(m.value)
    decreases |s| - i
  {
    if MatchAt(s, i, head, tag).Some? then MatchAt(s, i, head, tag)
    else if i == |s| then None
    else MatchFrom(s, i + 1, head, tag)
  }

  /**
   * The (uuid, caption) pair the regex captures in a subject-heading URL,
   * if it matches: the uuid has no '?' and the caption no newline, and the
   * match starts at an occurrence of `subject_headings/`.
   */
  function ParseSubjectHeading(term: string): (m: Option<(string, string)>)
    ensures m.Some? ==> Captures(m.value)
  {
    MatchFrom(term, 0, HeadingMarker, LabelMarker)
  }

  /**
   * MatchFrom is the leftmost match: it is the match at some j >= i where
   * none starts in between, and when there is none no position matches.
   */
  lemma {:induction false} MatchFromLeftmost(s: string, i: nat, head: string, tag: string)
    requires i <= |s|
    ensures var m := MatchFrom(s, i, head, tag);
      m.Some? ==> exists j :: i <= j <= |s| && m == MatchAt(s, j, head, tag) && NoMatchBetween(s, i, j, head, tag)
    ensures MatchFrom(s, i, head, tag).None? ==> NoMatchBetween(s, i, |s| + 1, head, tag)
    decreases |s| - i
  {
    var here := MatchAt(s, i, head, tag);
    if here.Some? {
      assert MatchFrom(s, i, head, tag) == here;
      assert NoMatchBetween(s, i, i, head, tag);
    } else if i == |s| {
      assert NoMatchBetween(s, i, |s| + 1, head, tag);
    } else {
      MatchFromLeftmost(s, i + 1, head, tag);
      var m := MatchFrom(s, i + 1, head, tag);
      assert MatchFrom(s, i, head, tag) == m;
      if m.Some? {
        var j :| i + 1 <= j <= |s| && m == MatchAt(s, j, head, tag) && NoMatchBetween(s, i + 1, j, head, tag);
        assert NoMatchBetween(s, i, j, head, tag);
      }
    }
  }

  predicate NoMatchBetween(s: string, i: nat, j: nat, head: string, tag: string)
  {
    forall t :: i <= t < j && t <= |s| ==> MatchAt(s, t, head, tag).None?
  }

  lemma {:induction false} MatchFromSkips(s: string, i: nat, j: nat, head: string, tag: string)
    requires i <= j <= |s|
    requires forall t :: i <= t < j ==> !OccursAt(s, head, t)
    ensures MatchFrom(s, i, head, tag) == MatchFrom(s, j, head, tag)
    decreases j - i
  {
    if i < j {
      MatchFromSkips(s, i + 1, j, head, tag);
    }
  }

  /** A suffix that starts with a + b holds a at its front and b right after it. */
  lemma SplitAt(s: string, i: nat, a: string, b: string)
    requires i <= |s| && s[i..] == a + b
    ensures i + |a| <= |s| && s[i..i + |a|] == a && s[i + |a|..] == b
  {
    assert s[i..i + |a|] == (a + b)[..|a|];
    assert s[i + |a|..] == (a + b)[|a|..];
  }

  lemma RunWithoutUpTo(a: string, b: string, c: char)
    requires (forall t :: 0 <= t < |a| ==> a[t] != c) && b != [] && b[0] == c
    ensures RunWithout(a + b, c) == |a|
  {
    RunWithoutIs(a + b, c, |a|);
  }

  /** MatchAt when both groups are found: a '?'-free run `group` right after head, then tag, then a line `rest`. */
  lemma MatchAtFound(s: string, i: nat, head: string, tag: string, group: string, rest: string)
    requires i + |head| + |group| + |tag| + |rest| <= |s| && group != [] && rest != []
    requires OccursAt(s, head, i) && RunWithout(s[i + |head|..], '?') == |group|
    requires s[i + |head|..i + |head| + |group|] == group
    requires OccursAt(s, tag, i + |head| + |group|)
    requires RunWithout(s[i + |head| + |group| + |tag|..], '\n') == |rest|
    requires s[i + |head| + |group| + |tag|..i + |head| + |group| + |tag| + |rest|] == rest
    ensures MatchAt(s, i, head, tag) == Some((group, rest))
  {
  }

  /** Where the four parts of a suffix a + (b + (c + d)) lie in s. */
  lemma Pieces(s: string, i: nat, a: string, b: string, c: string, d: string)
    requires i <= |s| && s[i..] == a + (b + (c + d))
    ensures var j := i + |a|; var k := j + |b|; var m := k + |c|;
      && m + |d| == |s| && s[i..j] == a && s[j..] == b + (c + d)
      && s[j..k] == b && s[k..m] == c && s[m..] == d && s[m..m + |d|] == d
  {
    SplitAt(s, i, a, b + (c + d));
    SplitAt(s, i + |a|, b, c + d);
    SplitAt(s, i + |a| + |b|, c, d);
  }

  /** At the start of `<head><uuid><tag><caption>`, where tag begins with '?', the pattern captures uuid and caption. */
  lemma MatchAtWellFormed(s: string, i: nat, head: string, tag: string, uuid: string, caption: string)
    requires tag != [] && tag[0] == '?'
    requires uuid != [] && forall t :: 0 <= t < |uuid| ==> uuid[t] != '?'
    requires caption != [] && forall t :: 0 <= t < |caption| ==> caption[t] != '\n'
    requires i <= |s| && s[i..] == head + (uuid + (tag + caption))
    ensures MatchAt(s, i, head, tag) == Some((uuid, caption))
  {
    Pieces(s, i, head, uuid, tag, caption);
    RunWithoutUpTo(uuid, tag + caption, '?');
    RunWithoutIs(caption, '\n', |caption|);
    MatchAtFound(s, i, head, tag, uuid, caption);
  }

  lemma AfterPrefix(p: string, a: string, b: string, c: string, d: string)
    ensures (p + a + b + c + d)[|p|..] == a + (b + (c + d))
  {
    assert p + a + b + c + d == p + (a + (b + (c + d)));
  }

  /** The leftmost match in `<prefix><head><uuid><tag><caption>` when head does not occur inside prefix. */
  lemma MatchFromWellFormed(prefix: string, head: string, tag: string, uuid: string, caption: string)
    requires tag != [] && tag[0] == '?'
    requires uuid != [] && forall i :: 0 <= i < |uuid| ==> uuid[i] != '?'
    requires caption != [] && forall i :: 0 <= i < |caption| ==> caption[i] != '\n'
    requires forall t :: 0 <= t < |prefix| ==> !OccursAt(prefix + head + uuid + tag + caption, head, t)
    ensures MatchFrom(prefix + head + uuid + tag + caption, 0, head, tag) == Some((uuid, caption))
  {
    var s := prefix + head + uuid + tag + caption;
    MatchFromSkips(s, 0, |prefix|, head, tag);
    AfterPrefix(prefix, head, uuid, tag, caption);
    MatchAtWellFormed(s, |prefix|, head, tag, uuid, caption);
  }

  /** A well-formed URL `<prefix>subject_headings/<uuid>?label=<caption>` yields its uuid and caption. */
  lemma ParseWellFormed(prefix: string, uuid: string, caption: string)
    requires uuid != [] && forall i :: 0 <= i < |uuid| ==> uuid[i] != '?'
    requires caption != [] && forall i :: 0 <= i < |caption| ==> caption[i] != '\n'
    requires forall t :: 0 <= t < |prefix| ==> !OccursAt(prefix + HeadingMarker + uuid + LabelMarker + caption, HeadingMarker, t)
    ensures ParseSubjectHeading(prefix + HeadingMarker + uuid + LabelMarker + caption) == Some((uuid, caption))
  {
    MatchFromWellFormed(prefix, HeadingMarker, LabelMarker, uuid, caption);
  }

  /** The three paths of one subject-heading navigation, all for the captured uuid. */
  function SubjectHeadingTriple(term: string): (paths: seq<string>)
    ensures |paths| == 3
  {
    var (uuid, caption) := match ParseSubjectHeading(term) case Some(p) => p case None => ("", "");
    [ CatalogBase + "subject_headings/" + uuid + "?label=" + caption,
      CatalogBase + "api/subjectHeadings/subject_headings/" + uuid + "/context",
      CatalogBase + "api/subjectHeadings/subject_headings/" + uuid + "/related" ]
  }

  /** Once the pattern captures (uuid, caption), the three paths are built from exactly those. */
  lemma TripleOfParsed(term: string, uuid: string, caption: string)
    requires ParseSubjectHeading(term) == Some((uuid, caption))
    ensures SubjectHeadingTriple(term) == [
      CatalogBase + "subject_headings/" + uuid + "?label=" + caption,
      CatalogBase + "api/subjectHeadings/subject_headings/" + uuid + "/context",
      CatalogBase + "api/subjectHeadings/subject_headings/" + uuid + "/related" ]
  {
  }

  /**
   * A well-formed URL `<prefix>subject_headings/<uuid>?label=<caption>` is
   * navigated as the catalog's own page for that heading and its two API calls.
   */
  lemma SubjectHeadingNavigation(prefix: string, uuid: string, caption: string)
    requires uuid != [] && forall i :: 0 <= i < |uuid| ==> uuid[i] != '?'
    requires caption != [] && forall i :: 0 <= i < |caption| ==> caption[i] != '\n'
    requires forall t :: 0 <= t < |prefix| ==> !OccursAt(prefix + HeadingMarker + uuid + LabelMarker + caption, HeadingMarker, t)
    ensures SubjectHeadingTriple(prefix + HeadingMarker + uuid + LabelMarker + caption) == [
      CatalogBase + "subject_headings/" + uuid + "?label=" + caption,
      CatalogBase + "api/subjectHeadings/subject_headings/" + uuid + "/context",
      CatalogBase + "api/subjectHeadings/subject_headings/" + uuid + "/related" ]
  {
    ParseWellFormed(prefix, uuid, caption);
    TripleOfParsed(prefix + HeadingMarker + uuid + LabelMarker + caption, uuid, caption);
  }

  /** The triples of the given terms, in order. */
  function SubjectHeadingPaths(terms: seq<string>): (paths: seq<string>)
    ensures |paths| == 3 * |terms|
  {
    ChunkedLength(SubjectHeadingTriple, 3, terms);
    Chunked(SubjectHeadingTriple, terms)
  }

  /** Paths 3i, 3i+1 and 3i+2 are the navigation of the i-th term. */
  lemma SubjectHeadingPathsAt(terms: seq<string>, i: nat)
    requires i < |terms|
    ensures SubjectHeadingPaths(terms)[3 * i..3 * i + 3] == SubjectHeadingTriple(terms[i])
  {
    ChunkedAt(SubjectHeadingTriple, 3, terms, i);
  }

  lemma SubjectHeadingPathsSnoc(terms: seq<string>, term: string)
    ensures SubjectHeadingPaths(terms + [term]) == SubjectHeadingPaths(terms) + SubjectHeadingTriple(term)
  {
    ChunkedSnoc(SubjectHeadingTriple, terms, term);
  }

  /** The search loop's paths: one per keyword the pool yields. */
  function SearchSpec(n: int, keywords: seq<string>, shuffle: (nat, seq<string>) -> seq<string>): (paths: seq<string>)
    requires IsShuffle(shuffle)
    ensures keywords != [] ==> |paths| == SearchQuota(n)
    ensures keywords == [] ==> paths == []
  {
    if keywords == [] then [] else SearchPaths(PoolDraws(shuffle, keywords, SearchQuota(n)))
  }

  /** The home-page loop's paths: the catalog's home path, once per iteration. */
  function HomepageSpec(n: int): (paths: seq<string>)
    ensures |paths| == HomepageQuota(n) && forall i :: 0 <= i < |paths| ==> paths[i] == HomepagePath
  {
    seq(HomepageQuota(n), _ => HomepagePath)
  }

  /** The subject-heading loop's paths: three per URL the pool yields. */
  function SubjectHeadingSpec(n: int, urls: seq<string>, shuffle: (nat, seq<string>) -> seq<string>): (paths: seq<string>)
    requires IsShuffle(shuffle)
    ensures urls != [] ==> |paths| == 3 * SubjectHeadingQuota(n)
    ensures urls == [] ==> paths == []
  {
    if urls == [] then [] else SubjectHeadingPaths(PoolDraws(shuffle, urls, SubjectHeadingQuota(n)))
  }

  /** Gather search paths: `while page_counts[:search] < n * 0.36`. */
  method SearchLoop(n: int, keywords: seq<string>, shuffle: (nat, seq<string>) -> seq<string>)
    returns (r: Result<seq<string>, ScriptError>)
    requires IsShuffle(shuffle)
    ensures r.Err? <==> keywords == [] && SearchQuota(n) > 0
    ensures r.Err? ==> r.error == NilKeyword
    ensures r.Ok? ==> |r.value| == SearchQuota(n) && r.value == SearchSpec(n, keywords, shuffle)
  {
    var pool := new Pool(keywords, shuffle);
    var paths: seq<string> := [];
    var count: nat := 0;
    while count * 100 < n * SearchPct
      invariant pool.Valid() && pool.seed == keywords && pool.shuffle == shuffle
      invariant count <= SearchQuota(n) && |pool.drawn| == count
      invariant keywords == [] ==> count == 0
      invariant keywords != [] ==> pool.drawn == PoolDraws(shuffle, keywords, count)
      invariant paths == SearchPaths(pool.drawn)
      decreases SearchQuota(n) - count
    {
      LoopQuotaIsExit(n, SearchPct, 100, count);
      ghost var before := pool.drawn;
      var keyword := pool.Take();
      if keyword.None? {
        return Err(NilKeyword);
      }
      SearchPathsSnoc(before, keyword.value);
      paths := paths + [SearchPath(keyword.value)];
      count := count + 1;
    }
    LoopQuotaIsExit(n, SearchPct, 100, count);
    assert count == SearchQuota(n);
    r := Ok(paths);
  }

  /** Gather home-page paths: `while page_counts[:homepage] < n * 0.13`. */
  method HomepageLoop(n: int) returns (paths: seq<string>)
    ensures |paths| == HomepageQuota(n) && forall i :: 0 <= i < |paths| ==> paths[i] == HomepagePath
  {
    paths := [];
    var count: nat := 0;
    while count * 100 < n * HomepagePct
      invariant count <= HomepageQuota(n) && |paths| == count
      invariant forall i :: 0 <= i < |paths| ==> paths[i] == HomepagePath
      decreases HomepageQuota(n) - count
    {
      LoopQuotaIsExit(n, HomepagePct, 100, count);
      paths := paths + [HomepagePath];
      count := count + 1;
    }
    LoopQuotaIsExit(n, HomepagePct, 100, count);
  }

  /** Gather subject-heading navigations: three paths and one count per URL drawn. */
  method SubjectHeadingLoop(n: int, urls: seq<string>, shuffle: (nat, seq<string>) -> seq<string>)
    returns (r: Result<seq<string>, ScriptError>)
    requires IsShuffle(shuffle)
    ensures r.Err? <==> urls == [] && SubjectHeadingQuota(n) > 0
    ensures r.Err? ==> r.error == NilSubjectHeading
    ensures r.Ok? ==> |r.value| == 3 * SubjectHeadingQuota(n) && r.value == SubjectHeadingSpec(n, urls, shuffle)
  {
    var pool := new Pool(urls, shuffle);
    var paths: seq<string> := [];
    var count: nat := 0;
    while count * 100 < n * SubjectHeadingsPct
      invariant pool.Valid() && pool.seed == urls && pool.shuffle == shuffle
      invariant count <= SubjectHeadingQuota(n) && |pool.drawn| == count
      invariant urls == [] ==> count == 0
      invariant urls != [] ==> pool.drawn == PoolDraws(shuffle, urls, count)
      invariant paths == SubjectHeadingPaths(pool.drawn)
      decreases SubjectHeadingQuota(n) - count
    {
      LoopQuotaIsExit(n, SubjectHeadingsPct, 100, count);
      ghost var before := pool.drawn;
      var term := pool.Take();
      if term.None? {
        return Err(NilSubjectHeading);
      }
      assert pool.drawn == before + [term.value];
      SubjectHeadingPathsSnoc(before, term.value);
      paths := paths + SubjectHeadingTriple(term.value);
      count := count + 1;
    }
    LoopQuotaIsExit(n, SubjectHeadingsPct, 100, count);
    assert count == SubjectHeadingQuota(n);
    if urls == [] {
      assert pool.drawn == [];
    }
    r := Ok(paths);
  }

  /** How many paths a successful run builds for n; the hold share contributes none. */
  function BuiltCount(n: int): nat
  {
    SearchQuota(n) + BibQuota(n) + HomepageQuota(n) + 3 * SubjectHeadingQuota(n)
  }

  /** Every category's share of a run for n, in paths. */
  lemma BuiltCountShares(n: int)
    ensures BuiltCount(n) * 100 >= n * (SearchPct + BibPct + HomepagePct + 3 * SubjectHeadingsPct)
    ensures n > 0 ==> BuiltCount(n) * 100 < n * (SearchPct + BibPct + HomepagePct + 3 * SubjectHeadingsPct) + 600
  {
  }

  /** What a run that passed both prechecks ends in. */
  ghost predicate BuiltFrom(g: Generated, n: int, keywords: seq<string>, urls: seq<string>, inputs: Inputs,
                            termShuffle: (nat, seq<string>) -> seq<string>)
    requires ValidInputs(inputs) && IsShuffle(termShuffle)
  {
    && g.bnums == Collected(inputs.pages, inputs.picks, g.fetched)
    && StopsAfter(n, BibPct, |keywords|, inputs.pages, inputs.picks, g.fetched)
    && g.built == SearchSpec(n, keywords, inputs.searchShuffle) + BibSpec(n, BibPct, BibBase, g.bnums, inputs.bibShuffle)
                  + HomepageSpec(n) + SubjectHeadingSpec(n, urls, termShuffle)
    && |g.built| == BuiltCount(n)
    && g.paths == inputs.finalShuffle(0, g.built)
    && multiset(g.paths) == multiset(g.built)
  }

  /** The four loops in order, appending to one `paths` array. */
  method RunLoops(n: int, keywords: seq<string>, bnums: seq<string>, urls: seq<string>, inputs: Inputs,
                  termShuffle: (nat, seq<string>) -> seq<string>)
    returns (r: Result<seq<string>, ScriptError>)
    requires ValidInputs(inputs) && IsShuffle(termShuffle)
    ensures r.Err? <==> (keywords == [] && SearchQuota(n) > 0) || (urls == [] && SubjectHeadingQuota(n) > 0)
    ensures r.Err? && keywords == [] && SearchQuota(n) > 0 ==> r.error == NilKeyword
    ensures r.Err? && !(keywords == [] && SearchQuota(n) > 0) ==> r.error == NilSubjectHeading
    ensures r.Ok? ==> r.value == SearchSpec(n, keywords, inputs.searchShuffle) + BibSpec(n, BibPct, BibBase, bnums, inputs.bibShuffle)
                                 + HomepageSpec(n) + SubjectHeadingSpec(n, urls, termShuffle)
    ensures r.Ok? ==> |r.value| == BuiltCount(n)
  {
    var search := SearchLoop(n, keywords, inputs.searchShuffle);
    if search.Err? {
      return Err(search.error);
    }
    var bib := BibLoop(n, BibPct, BibBase, bnums, inputs.bibShuffle);
    var homepage := HomepageLoop(n);
    assert homepage == HomepageSpec(n);
    var subjects := SubjectHeadingLoop(n, urls, termShuffle);
    if subjects.Err? {
      return Err(subjects.error);
    }
    r := Ok(search.value + bib + homepage + subjects.value);
  }

  /** Everything after the prechecks: collect bnums, run the four loops, shuffle. */
  method Build(n: int, keywords: seq<string>, urls: seq<string>, inputs: Inputs,
               termShuffle: (nat, seq<string>) -> seq<string>)
    returns (r: Result<Generated, ScriptError>)
    requires ValidInputs(inputs) && IsShuffle(termShuffle)
    ensures r.Err? <==> (keywords == [] && SearchQuota(n) > 0) || (urls == [] && SubjectHeadingQuota(n) > 0)
    ensures r.Err? && keywords == [] && SearchQuota(n) > 0 ==> r.error == NilKeyword
    ensures r.Err? && !(keywords == [] && SearchQuota(n) > 0) ==> r.error == NilSubjectHeading
    ensures r.Ok? ==> BuiltFrom(r.value, n, keywords, urls, inputs, termShuffle)
  {
    var order := inputs.keywordOrder(0, keywords);
    assert |order| == |keywords| by {
      assert multiset(order) == multiset(keywords);
      assert |multiset(order)| == |multiset(keywords)|;
    }
    var bnums, fetched := CollectBnums(n, BibPct, order, inputs.pages, inputs.picks);
    var built := RunLoops(n, keywords, bnums, urls, inputs, termShuffle);
    if built.Err? {
      return Err(built.error);
    }
    var paths := inputs.finalShuffle(0, built.value);
    assert multiset(paths) == multiset(built.value);
    r := Ok(Generated(bnums, fetched, built.value, paths));
  }

  /**
   * The whole script for a total of n: the keyword and subject-heading
   * prechecks (floor of n times the share), then `Build`. The subject-heading
   * CSV is given as the first cell of each row; `termShuffle` is the
   * subject-heading pool's Array#shuffle.
   */
  method Generate(n: int, csvKeywords: seq<string>, subjectHeadingUrls: seq<string>, inputs: Inputs,
                  termShuffle: (nat, seq<string>) -> seq<string>)
    returns (r: Result<Generated, ScriptError>)
    requires ValidInputs(inputs) && IsShuffle(termShuffle)
    ensures var keywords := FilterKeywords(csvKeywords);
      !EnoughSeeds(|keywords|, n, SearchPct) ==>
        r == Err(TooFewKeywords(TruncDiv(n * SearchPct, 100), |keywords|))
    ensures var keywords := FilterKeywords(csvKeywords);
      EnoughSeeds(|keywords|, n, SearchPct) && !EnoughSeeds(|subjectHeadingUrls|, n, SubjectHeadingsPct) ==>
        r == Err(TooFewSubjectHeadings(TruncDiv(n * SubjectHeadingsPct, 100), |subjectHeadingUrls|))
    ensures var keywords := FilterKeywords(csvKeywords);
      EnoughSeeds(|keywords|, n, SearchPct) && EnoughSeeds(|subjectHeadingUrls|, n, SubjectHeadingsPct)
      && keywords == [] && SearchQuota(n) > 0 ==>
        r == Err(NilKeyword)
    ensures var keywords := FilterKeywords(csvKeywords);
      r.Ok? <==>
        && EnoughSeeds(|keywords|, n, SearchPct)
        && EnoughSeeds(|subjectHeadingUrls|, n, SubjectHeadingsPct)
        && !(keywords == [] && SearchQuota(n) > 0)
        && !(subjectHeadingUrls == [] && SubjectHeadingQuota(n) > 0)
    ensures var keywords := FilterKeywords(csvKeywords);
      EnoughSeeds(|keywords|, n, SearchPct) && EnoughSeeds(|subjectHeadingUrls|, n, SubjectHeadingsPct)
      && !(keywords == [] && SearchQuota(n) > 0) && subjectHeadingUrls == [] && SubjectHeadingQuota(n) > 0 ==>
        r == Err(NilSubjectHeading)
    ensures r.Err? && r.error == NilSubjectHeading ==> subjectHeadingUrls == [] && SubjectHeadingQuota(n) > 0
    ensures r.Ok? ==> BuiltFrom(r.value, n, FilterKeywords(csvKeywords), subjectHeadingUrls, inputs, termShuffle)
  {
    var keywords := FilterKeywords(csvKeywords);
    if !EnoughSeeds(|keywords|, n, SearchPct) {
      return Err(TooFewKeywords(TruncDiv(n * SearchPct, 100), |keywords|));
    }
    if !EnoughSeeds(|subjectHeadingUrls|, n, SubjectHeadingsPct) {
      return Err(TooFewSubjectHeadings(TruncDiv(n * SubjectHeadingsPct, 100), |subjectHeadingUrls|));
    }
    r := Build(n, keywords, subjectHeadingUrls, inputs, termShuffle);
  }
}
