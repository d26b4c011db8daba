/**
 * The Sierra API path generator: per record type and query type, a count
 * of paths (a ceiling of the total times the shares), built from random
 * date windows or from ids found by an updatedDate query; the merged list
 * is shuffled, trimmed to the total and shuffled again.
 */
module SierraPaths {
  import opened Text
  import opened Quota
  import opened IsoDate
  import opened PercentEncoding
  import opened JsRandom

  datatype RecordType = Bibs | Items | Holdings | Holds | Patrons

  /** The record types whose paths `buildBibItemHoldingsPaths` builds. */
  predicate IsCatalogRecord(rt: RecordType)
  {
    rt.Bibs? || rt.Items? || rt.Holdings?
  }

  function Name(rt: RecordType): string
  {
    match rt
    case Bibs => "bibs"
    case Items => "items"
    case Holdings => "holdings"
    case Holds => "holds"
    case Patrons => "patrons"
  }

  /** OVERALL_MAKEUP, in percent. */
  function MakeupPct(rt: RecordType): nat
  {
    match rt
    case Bibs => 30
    case Items => 30
    case Holdings => 10
    case Holds => 10
    case Patrons => 20
  }

  datatype QueryType = UpdatedDate | DeletedDate | Identity

  /** QUERY_TYPES, in percent. */
  function QueryPct(qt: QueryType): nat
  {
    match qt
    case UpdatedDate => 60
    case DeletedDate => 10
    case Identity => 30
  }

  /** `Math.ceil(argv.count * OVERALL_MAKEUP[rt] * QUERY_TYPES[qt])`, on exact fractions. */
  function QueryCount(count: int, rt: RecordType, qt: QueryType): (c: int)
    ensures (c - 1) * 10000 < count * MakeupPct(rt) * QueryPct(qt) <= c * 10000
  {
    CeilDiv(count * MakeupPct(rt) * QueryPct(qt), 10000)
  }

  /** `Math.ceil(argv.count * OVERALL_MAKEUP[rt])`, for patrons and holds. */
  function RecordCount(count: int, rt: RecordType): (c: int)
    ensures (c - 1) * 100 < count * MakeupPct(rt) <= c * 100
  {
    CeilDiv(count * MakeupPct(rt), 100)
  }

  /** The `fields` each builder asks for. */
  function Fields(rt: RecordType): string
    requires !rt.Holds?
  {
    match rt
    case Bibs => "default,fixedFields,varFields,normTitle,normAuthor,orders,locations"
    case Items => "default,fixedFields,varFields"
    case Holdings => "id,bibIds,bibIdLinks,itemIds,itemIdLinks,inheritLocation,allocationRule,accountingUnit,labelCode,serialCode1,serialCode2,serialCode3,serialCode4,claimOnDate,receivingLocationCode,vendorCode,updateCount,pieceCount,eCheckInCode,mediaTypeCode,updatedDate,createdDate,deletedDate,deleted,suppressed,fixedFields,varFields"
    case Patrons => "id,names,barcodes,expirationDate,emails,patronType,homeLibraryCode,phones,moneyOwed,fixedFields"
  }

  const ApiBase := "/iii/sierra-api/v6/"

  /**
   * The Math.random values and the HTTP page one loop iteration consumes:
   * two for randomDateRange, one for randomOffset, the ids of the entries
   * the updatedDate query returned, and randomSelection's sort keys.
   */
  datatype Draws = Draws(first: real, second: real, offset: real, page: seq<string>, sortKey: nat -> real)

  predicate ValidDraws(d: Draws)
  {
    IsRandom(d.first) && IsRandom(d.second) && IsRandom(d.offset)
  }

  ghost predicate ValidStream(stream: nat -> Draws)
  {
    forall i :: ValidDraws(stream(i))
  }

  /** Every query returned at least one entry; otherwise a lookup loop never ends. */
  ghost predicate PagesNonEmpty(stream: nat -> Draws)
  {
    forall i :: stream(i).page != []
  }

  /** A window inside `dateRange`. */
  predicate InBounds(w: Window)
  {
    DateRangeStart <= w.start <= w.end <= DateRangeEnd
  }

  /** `'[' + [a, b].join(',') + ']'`: two values in brackets, separated by a comma. */
  function Bracketed(a: string, b: string): string
  {
    "[" + a + "," + b + "]"
  }

  /** The ISO strings of a window's two ends, in order. */
  predicate IsoRangeOf(range: seq<string>, w: Window)
    requires InBounds(w)
  {
    range == [ToIsoString(w.start), ToIsoString(w.end)]
  }

  /** The updatedDate or deletedDate value of a `randomDateRange()` result, before encodeURIComponent. */
  function RangeValue(qt: QueryType, range: seq<string>): string
    requires qt != Identity && |range| == 2
  {
    if qt == UpdatedDate then Bracketed(range[0], range[1]) else Bracketed(DropFromT(range[0]), DropFromT(range[1]))
  }

  /**
   * In two bracketed 24-character timestamps, the first ten characters of
   * each sit at positions 1..11 and 26..36.
   */
  lemma BracketedDates(a: string, b: string)
    requires |a| == 24 && |b| == 24
    ensures var u := Bracketed(a, b); |u| == 51 && u[1..11] == a[..10] && u[26..36] == b[..10]
  {
    var u := Bracketed(a, b);
    assert u[1..25] == a;
    assert u[26..50] == b;
  }

  /** The deletedDate value holds just the dates of the window's two instants. */
  lemma DeletedRangeIsDates(w: Window, range: seq<string>)
    requires InBounds(w) && IsoRangeOf(range, w)
    ensures var del := RangeValue(DeletedDate, range);
      && del == Bracketed(IsoDatePart(w.start), IsoDatePart(w.end))
      && |del| == 23 && NoT(del)
  {
    var a, b := range[0], range[1];
    assert RangeValue(DeletedDate, range) == Bracketed(DropFromT(a), DropFromT(b));
    DateOnlyOfIso(w.start);
    DateOnlyOfIso(w.end);
    BracketedNoT(DropFromT(a), DropFromT(b), IsoDatePart(w.start), IsoDatePart(w.end));
  }

  lemma BracketedNoT(a: string, b: string, da: string, db: string)
    requires a == da && b == db && NoT(da) && NoT(db)
    ensures Bracketed(a, b) == Bracketed(da, db)
    ensures |Bracketed(a, b)| == |a| + |b| + 3 && NoT(Bracketed(a, b))
  {
    NoTConcat("[", a);
    NoTConcat("[" + a, ",");
    NoTConcat("[" + a + ",", b);
    NoTConcat("[" + a + "," + b, "]");
  }

  /** Those dates are the first ten characters of each timestamp in the updatedDate value. */
  lemma DeletedRangeIsDatesOfUpdated(w: Window, range: seq<string>)
    requires InBounds(w) && IsoRangeOf(range, w)
    ensures var u, del := RangeValue(UpdatedDate, range), RangeValue(DeletedDate, range);
      && |u| == 51 && |del| == 23
      && del == "[" + u[1..11] + "," + u[26..36] + "]"
  {
    var a, b := range[0], range[1];
    DeletedRangeIsDates(w, range);
    DateOnlyOfIso(w.start);
    DateOnlyOfIso(w.end);
    BracketedDates(a, b);
  }

  /** The query parameter each date query type filters on. */
  function DateParam(qt: QueryType): string
  {
    if qt == UpdatedDate then "updatedDate" else "deletedDate"
  }

  /** The largest offset each date query type draws. */
  function MaxOffset(qt: QueryType): nat
  {
    if qt == UpdatedDate then 30 else 4
  }

  /**
   * `/iii/sierra-api/v6/<rt>?fields=…&offset=…&<param>=…&limit=200`: a query
   * of the record type's endpoint that asks for a 200-record page.
   */
  function QueryPath(rt: RecordType, fields: string, param: string, offset: nat, value: string): (p: string)
    ensures var front := ApiBase + Name(rt) + "?fields=";
      |p| >= |front| + 10 && p[..|front|] == front && p[|p| - 10..] == "&limit=200"
  {
    var front := ApiBase + Name(rt) + "?fields=";
    var middle := EncodeUriComponent(fields) + "&offset=" + NatToString(offset)
      + "&" + param + "=" + EncodeUriComponent(value);
    Affixes(front, middle, "&limit=200");
    front + middle + "&limit=200"
  }

  /** Where the three parts of front + middle + back lie. */
  lemma Affixes(front: string, middle: string, back: string)
    ensures var s := front + middle + back;
      |s| >= |front| + |back| && s[..|front|] == front && s[|s| - |back|..] == back
  {
    var s := front + middle + back;
    assert s[..|front|] == front;
    assert s[|front + middle|..] == back;
  }

  /** The range one iteration's `randomDateRange()` gives, as the query type writes it. */
  function DrawnRange(qt: QueryType, d: Draws): string
    requires qt != Identity && ValidDraws(d)
  {
    RangeValue(qt, RandomDateRange(d.first, d.second))
  }

  /** A deletedDate path asks for the dates of the random window: ordered, inside `dateRange`, no time left. */
  lemma DrawnDeletedRange(d: Draws)
    requires ValidDraws(d)
    ensures var w := RandomWindow(d.first, d.second);
      && InBounds(w)
      && DrawnRange(DeletedDate, d) == Bracketed(IsoDatePart(w.start), IsoDatePart(w.end))
      && NoT(DrawnRange(DeletedDate, d))
  {
    DeletedRangeIsDates(RandomWindow(d.first, d.second), RandomDateRange(d.first, d.second));
  }

  /** One updatedDate or deletedDate path: a query of the record type asking for a 200-record page. */
  function DatePath(rt: RecordType, fields: string, qt: QueryType, d: Draws): (p: string)
    requires qt != Identity && ValidDraws(d)
    ensures var front := ApiBase + Name(rt) + "?fields=";
      |p| >= |front| + 10 && p[..|front|] == front && p[|p| - 10..] == "&limit=200"
  {
    QueryPath(rt, fields, DateParam(qt), RandomOffset(0, MaxOffset(qt), d.offset), DrawnRange(qt, d))
  }

  /** The paths of the first k iterations of a loop whose iteration i builds next(i), in order. */
  function Rendered(next: nat -> string, k: nat): (paths: seq<string>)
    ensures |paths| == k
  {
    if k == 0 then [] else Rendered(next, k - 1) + [next(k - 1)]
  }

  /** Path i is the one iteration i built. */
  lemma {:induction false} RenderedAt(next: nat -> string, k: nat, i: nat)
    requires i < k
    ensures Rendered(next, k)[i] == next(i)
  {
    if i < k - 1 {
      RenderedAt(next, k - 1, i);
    }
  }

  /** Iteration i of a date query loop builds the path of its own draws. */
  function DateRender(rt: RecordType, fields: string, qt: QueryType, stream: nat -> Draws): nat -> string
    requires qt != Identity && ValidStream(stream)
  {
    (i: nat) => DatePath(rt, fields, qt, stream(i))
  }

  /** The first k updatedDate or deletedDate paths of a stream. */
  function DatePaths(rt: RecordType, fields: string, qt: QueryType, stream: nat -> Draws, k: nat): (paths: seq<string>)
    requires qt != Identity && ValidStream(stream)
    ensures |paths| == k
  {
    Rendered(DateRender(rt, fields, qt, stream), k)
  }

  /** Date path i is built from iteration i's draws. */
  lemma DatePathsAt(rt: RecordType, fields: string, qt: QueryType, stream: nat -> Draws, k: nat, i: nat)
    requires qt != Identity && ValidStream(stream) && i < k
    ensures DatePaths(rt, fields, qt, stream, k)[i] == DatePath(rt, fields, qt, stream(i))
  {
    RenderedAt(DateRender(rt, fields, qt, stream), k, i);
  }

  /** Which path an id found by an updatedDate query becomes. */
  datatype Lookup = RecordLookup(rt: RecordType, fields: string) | HoldsLookup

  /** A lookup path names its id right after the endpoint it queries. */
  function LookupPath(l: Lookup, id: string): (p: string)
    ensures l.RecordLookup? ==> var front := ApiBase + Name(l.rt) + "?id=" + id; |front| <= |p| && p[..|front|] == front
    ensures l.HoldsLookup? ==> var front := ApiBase + "patrons/" + id;
      |p| >= |front| + 20 && p[..|front|] == front && p[|p| - 20..] == "/holds?expand=record"
  {
    match l
    case RecordLookup(rt, fields) =>
      Affixes(ApiBase + Name(rt) + "?id=" + id, "&fields=", EncodeUriComponent(fields));
      ApiBase + Name(rt) + "?id=" + id + "&fields=" + EncodeUriComponent(fields)
    case HoldsLookup =>
      Affixes(ApiBase + "patrons/" + id, "", "/holds?expand=record");
      assert ApiBase + "patrons/" + id + "" == ApiBase + "patrons/" + id;
      ApiBase + "patrons/" + id + "/holds?expand=record"
  }

  function LookupPaths(l: Lookup, ids: seq<string>): (paths: seq<string>)
    ensures |paths| == |ids|
  {
    seq(|ids|, i requires 0 <= i < |ids| => LookupPath(l, ids[i]))
  }

  lemma LookupPathsAppend(l: Lookup, a: seq<string>, b: seq<string>)
    ensures LookupPaths(l, a + b) == LookupPaths(l, a) + LookupPaths(l, b)
  {
    var whole, parts := LookupPaths(l, a + b), LookupPaths(l, a) + LookupPaths(l, b);
    forall i | 0 <= i < |whole| ensures whole[i] == parts[i] {
      if i < |a| {
        assert (a + b)[i] == a[i];
      } else {
        assert (a + b)[i] == b[i - |a|];
      }
    }
  }

  /** `randomSelection(ids, 10)` of one iteration's page. */
  function SelectedIds(d: Draws): (ids: seq<string>)
    ensures |ids| == if |d.page| < 10 then |d.page| else 10
    ensures multiset(ids) <= multiset(d.page)
  {
    RandomSelection(d.page, 10, d.sortKey)
  }

  /** The ids each iteration of a lookup loop selects. */
  function Selections(stream: nat -> Draws): nat -> seq<string>
  {
    (i: nat) => SelectedIds(stream(i))
  }

  /** What every selection holds when the pages do. */
  ghost predicate Selective(sel: nat -> seq<string>)
  {
    forall i :: 0 < |sel(i)| <= 10
  }

  lemma SelectionsOfPages(stream: nat -> Draws)
    requires PagesNonEmpty(stream)
    ensures Selective(Selections(stream))
  {
    forall i: nat ensures 0 < |Selections(stream)(i)| <= 10 {
      assert stream(i).page != [];
    }
  }

  /** Each selected id is an entry of that iteration's page. */
  lemma SelectionFromPage(stream: nat -> Draws, i: nat, id: string)
    requires id in Selections(stream)(i)
    ensures id in stream(i).page
  {
    var ids := SelectedIds(stream(i));
    assert multiset(ids)[id] > 0;
    assert multiset(ids) <= multiset(stream(i).page);
  }

  /** The ids the first k iterations of a lookup loop selected, in order. */
  function LookupIds(sel: nat -> seq<string>, k: nat): (ids: seq<string>)
  {
    if k == 0 then [] else LookupIds(sel, k - 1) + sel(k - 1)
  }

  /** At most ten ids per iteration, each from that iteration's selection. */
  lemma {:induction false} LookupIdsFromSelections(sel: nat -> seq<string>, k: nat, id: string)
    requires Selective(sel)
    ensures |LookupIds(sel, k)| <= 10 * k
    ensures id in LookupIds(sel, k) ==> exists j :: 0 <= j < k && id in sel(j)
  {
    if k > 0 {
      LookupIdsFromSelections(sel, k - 1, id);
      assert |sel(k - 1)| <= 10;
    }
  }

  /** Each iteration adds at least one id. */
  lemma LookupIdsGrow(sel: nat -> seq<string>, k: nat)
    requires Selective(sel)
    ensures |LookupIds(sel, k + 1)| > |LookupIds(sel, k)|
  {
    assert |sel(k)| > 0;
  }

  /** The number of iterations a lookup loop runs before it has at least `count` ids. */
  function LookupIterations(count: int, sel: nat -> seq<string>, k: nat): nat
    requires Selective(sel)
    decreases count - |LookupIds(sel, k)|
  {
    if |LookupIds(sel, k)| >= count then k
    else
      LookupIdsGrow(sel, k);
      LookupIterations(count, sel, k + 1)
  }

  /** The loop stops at the first iteration that reaches `count`. */
  lemma {:induction false} LookupIterationsStop(count: int, sel: nat -> seq<string>, k: nat)
    requires Selective(sel)
    ensures var m := LookupIterations(count, sel, k);
      && m >= k && |LookupIds(sel, m)| >= count
      && (forall j :: k <= j < m ==> |LookupIds(sel, j)| < count)
    decreases count - |LookupIds(sel, k)|
  {
    if |LookupIds(sel, k)| < count {
      LookupIdsGrow(sel, k);
      LookupIterationsStop(count, sel, k + 1);
    }
  }

  /** One more iteration of a lookup loop that has fewer than `count` ids. */
  lemma LookupStep(l: Lookup, count: int, sel: nat -> seq<string>, k: nat)
    requires Selective(sel) && |LookupIds(sel, k)| < count
    ensures LookupPaths(l, LookupIds(sel, k + 1)) == LookupPaths(l, LookupIds(sel, k)) + LookupPaths(l, sel(k))
    ensures LookupIterations(count, sel, k + 1) == LookupIterations(count, sel, k)
    ensures |LookupIds(sel, k + 1)| > |LookupIds(sel, k)|
  {
    LookupIdsGrow(sel, k);
    LookupPathsAppend(l, LookupIds(sel, k), sel(k));
  }

  /** The paths a lookup loop for `count` ends with: it stops once it has at least `count`. */
  function LookupSpec(l: Lookup, count: int, stream: nat -> Draws): (paths: seq<string>)
    requires PagesNonEmpty(stream)
    ensures |paths| >= count
  {
    SelectionsOfPages(stream);
    var sel := Selections(stream);
    LookupIterationsStop(count, sel, 0);
    LookupPaths(l, LookupIds(sel, LookupIterations(count, sel, 0)))
  }

  /** A lookup loop overshoots `count` by at most nine and builds nothing for count <= 0. */
  lemma LookupSpecBounds(l: Lookup, count: int, stream: nat -> Draws)
    requires PagesNonEmpty(stream)
    ensures count <= 0 ==> LookupSpec(l, count, stream) == []
    ensures count > 0 ==> count <= |LookupSpec(l, count, stream)| <= count + 9
  {
    SelectionsOfPages(stream);
    var sel := Selections(stream);
    var m := LookupIterations(count, sel, 0);
    LookupIterationsStop(count, sel, 0);
    if m > 0 {
      assert |LookupIds(sel, m - 1)| < count;
      assert |sel(m - 1)| <= 10;
    }
  }

  /** Every lookup path is built from an id that one of the loop's queries returned. */
  lemma LookupSpecFromPages(l: Lookup, count: int, stream: nat -> Draws, i: nat)
    requires PagesNonEmpty(stream)
    requires i < |LookupSpec(l, count, stream)|
    ensures exists j: nat, id ::
              && j < LookupIterations(count, Selections(stream), 0)
              && id in stream(j).page
              && LookupSpec(l, count, stream)[i] == LookupPath(l, id)
  {
    SelectionsOfPages(stream);
    var sel := Selections(stream);
    var m := LookupIterations(count, sel, 0);
    var ids := LookupIds(sel, m);
    var id := ids[i];
    LookupIdsFromSelections(sel, m, id);
    var j :| 0 <= j < m && id in sel(j);
    SelectionFromPage(stream, j, id);
    var paths := LookupPaths(l, ids);
    assert LookupSpec(l, count, stream) == paths;
    assert paths[i] == LookupPath(l, id);
  }

  /** What one `buildBibItemHoldingsPaths(rt, qt, count, fields)` call returns. */
  function QueryTypePaths(rt: RecordType, fields: string, qt: QueryType, count: int, stream: nat -> Draws): seq<string>
    requires ValidStream(stream) && (qt == Identity ==> PagesNonEmpty(stream))
  {
    if qt == Identity then LookupSpec(RecordLookup(rt, fields), count, stream)
    else DatePaths(rt, fields, qt, stream, if count > 0 then count else 0)
  }

  /**
   * The updatedDate and deletedDate branches of buildBibItemHoldingsPaths:
   * while fewer than `count` paths, add the one iteration k builds.
   */
  method DateQueryLoop(count: int, next: nat -> string) returns (paths: seq<string>)
    ensures paths == Rendered(next, if count > 0 then count else 0)
  {
    paths := [];
    var k: nat := 0;
    while |paths| < count
      invariant k <= (if count > 0 then count else 0) && paths == Rendered(next, k)
      decreases count - |paths|
    {
      paths := paths + [next(k)];
      k := k + 1;
    }
  }

  /**
   * buildBibItemHoldingsPaths(rt, qt, count, fields). The query type does
   * not change inside its loop, so the branch is taken once: date queries
   * add one path per iteration, identity queries up to ten id lookups.
   */
  method BuildRecordPaths(rt: RecordType, fields: string, qt: QueryType, count: int, stream: nat -> Draws)
    returns (paths: seq<string>)
    requires ValidStream(stream)
    requires qt == Identity ==> PagesNonEmpty(stream)
    ensures paths == QueryTypePaths(rt, fields, qt, count, stream)
  {
    if qt == Identity {
      paths := LookupLoop(RecordLookup(rt, fields), count, stream);
    } else {
      paths := DateQueryLoop(count, DateRender(rt, fields, qt, stream));
    }
  }

  /**
   * buildPatronsPaths and buildHoldsPaths: while fewer than `count` paths,
   * query patrons updated in a random window and add up to ten lookups of
   * the ids it returned.
   */
  method LookupLoop(l: Lookup, count: int, stream: nat -> Draws) returns (paths: seq<string>)
    requires PagesNonEmpty(stream)
    ensures paths == LookupSpec(l, count, stream)
  {
    SelectionsOfPages(stream);
    paths := SelectionLoop(l, count, Selections(stream));
  }

  /** The same loop, where iteration k queries and selects the ids sel(k). */
  method SelectionLoop(l: Lookup, count: int, sel: nat -> seq<string>) returns (paths: seq<string>)
    requires Selective(sel)
    ensures paths == LookupPaths(l, LookupIds(sel, LookupIterations(count, sel, 0)))
  {
    paths := [];
    var k: nat := 0;
    while |paths| < count
      invariant paths == LookupPaths(l, LookupIds(sel, k))
      invariant LookupIterations(count, sel, k) == LookupIterations(count, sel, 0)
      decreases count - |paths|
    {
      var ids := sel(k);
      LookupStep(l, count, sel, k);
      paths := paths + LookupPaths(l, ids);
      k := k + 1;
    }
  }

  /** The draws and pages one run consumes: a stream per builder loop, and the keys of the two final sorts. */
  datatype RunDraws = RunDraws(
    streams: (RecordType, QueryType) -> (nat -> Draws),
    shuffleKey: nat -> real,
    outputKey: nat -> real)

  ghost predicate ValidRunDraws(draws: RunDraws)
  {
    && (forall rt, qt :: ValidStream(draws.streams(rt, qt)))
    && (forall rt :: PagesNonEmpty(draws.streams(rt, Identity)))
  }

  /** The paths buildBibsPaths, buildItemsPaths or buildHoldingsPaths adds, one query type after another. */
  function RecordTypePaths(count: int, rt: RecordType, draws: RunDraws): seq<string>
    requires IsCatalogRecord(rt) && ValidRunDraws(draws)
  {
    QueryTypePaths(rt, Fields(rt), UpdatedDate, QueryCount(count, rt, UpdatedDate), draws.streams(rt, UpdatedDate))
    + QueryTypePaths(rt, Fields(rt), DeletedDate, QueryCount(count, rt, DeletedDate), draws.streams(rt, DeletedDate))
    + QueryTypePaths(rt, Fields(rt), Identity, QueryCount(count, rt, Identity), draws.streams(rt, Identity))
  }

  function PatronsPaths(count: int, draws: RunDraws): seq<string>
    requires ValidRunDraws(draws)
  {
    LookupSpec(RecordLookup(Patrons, Fields(Patrons)), RecordCount(count, Patrons), draws.streams(Patrons, Identity))
  }

  function HoldsPaths(count: int, draws: RunDraws): seq<string>
    requires ValidRunDraws(draws)
  {
    LookupSpec(HoldsLookup, RecordCount(count, Holds), draws.streams(Holds, Identity))
  }

  /**
   * Everything the five builders add to `allPaths`, in the order `run`
   * awaits them. The builders round up, so together they never fall short
   * of `count`.
   */
  function Merged(count: int, draws: RunDraws): (merged: seq<string>)
    requires ValidRunDraws(draws)
    ensures |merged| >= count
  {
    RecordTypePathsCover(count, Bibs, draws);
    RecordTypePathsCover(count, Items, draws);
    RecordTypePathsCover(count, Holdings, draws);
    LookupCover(RecordLookup(Patrons, Fields(Patrons)), Patrons, count, draws.streams(Patrons, Identity));
    LookupCover(HoldsLookup, Holds, count, draws.streams(Holds, Identity));
    SharesCover(count, RecordTypePaths(count, Bibs, draws), RecordTypePaths(count, Items, draws),
      RecordTypePaths(count, Holdings, draws), PatronsPaths(count, draws), HoldsPaths(count, draws));
    RecordTypePaths(count, Bibs, draws) + RecordTypePaths(count, Items, draws) + RecordTypePaths(count, Holdings, draws)
    + PatronsPaths(count, draws) + HoldsPaths(count, draws)
  }

  /**
   * The lines `run` writes: shuffle, keep the first `count`, shuffle again.
   * That is min(|merged|, count) lines, all taken from the merged list.
   */
  function Output(merged: seq<string>, count: int, shuffleKey: nat -> real, outputKey: nat -> real): (lines: seq<string>)
    ensures count >= 0 ==> |lines| == if count < |merged| then count else |merged|
    ensures multiset(lines) <= multiset(merged)
  {
    var shuffled := RandomSort(merged, shuffleKey);
    var kept := SlicePrefix(shuffled, count);
    PrefixSubMultiset(shuffled, |kept|);
    RandomSort(kept, outputKey)
  }

  /** A query type's builder returns at least `count` paths. */
  lemma QueryTypePathsCover(rt: RecordType, fields: string, qt: QueryType, count: int, stream: nat -> Draws)
    requires ValidStream(stream) && (qt == Identity ==> PagesNonEmpty(stream))
    ensures |QueryTypePaths(rt, fields, qt, count, stream)| >= count
  {
  }

  /** The three query types' shares (60 + 10 + 30 percent) cover the record type's share. */
  lemma QueryTypesCover(count: int, rt: RecordType, updated: seq<string>, deleted: seq<string>, identity: seq<string>)
    requires |updated| >= QueryCount(count, rt, UpdatedDate) && |deleted| >= QueryCount(count, rt, DeletedDate)
    requires |identity| >= QueryCount(count, rt, Identity)
    ensures |updated + deleted + identity| * 100 >= count * MakeupPct(rt)
  {
    var u, d, i := QueryCount(count, rt, UpdatedDate), QueryCount(count, rt, DeletedDate), QueryCount(count, rt, Identity);
    var m := MakeupPct(rt);
    assert u * 10000 >= count * m * 60 && d * 10000 >= count * m * 10 && i * 10000 >= count * m * 30;
    assert (u + d + i) * 10000 >= count * m * 100;
  }

  lemma RecordTypePathsCover(count: int, rt: RecordType, draws: RunDraws)
    requires IsCatalogRecord(rt) && ValidRunDraws(draws)
    ensures |RecordTypePaths(count, rt, draws)| * 100 >= count * MakeupPct(rt)
  {
    var fields := Fields(rt);
    var u, d, i := QueryCount(count, rt, UpdatedDate), QueryCount(count, rt, DeletedDate), QueryCount(count, rt, Identity);
    var su, sd, si := draws.streams(rt, UpdatedDate), draws.streams(rt, DeletedDate), draws.streams(rt, Identity);
    QueryTypePathsCover(rt, fields, UpdatedDate, u, su);
    QueryTypePathsCover(rt, fields, DeletedDate, d, sd);
    QueryTypePathsCover(rt, fields, Identity, i, si);
    QueryTypesCover(count, rt, QueryTypePaths(rt, fields, UpdatedDate, u, su), QueryTypePaths(rt, fields, DeletedDate, d, sd),
      QueryTypePaths(rt, fields, Identity, i, si));
  }

  /** The makeup shares add up to the whole: 30 + 30 + 10 + 20 + 10 percent. */
  lemma SharesCover(count: int, bibs: seq<string>, items: seq<string>, holdings: seq<string>,
                    patrons: seq<string>, holds: seq<string>)
    requires |bibs| * 100 >= count * MakeupPct(Bibs) && |items| * 100 >= count * MakeupPct(Items)
    requires |holdings| * 100 >= count * MakeupPct(Holdings)
    requires |patrons| * 100 >= count * MakeupPct(Patrons) && |holds| * 100 >= count * MakeupPct(Holds)
    ensures |bibs + items + holdings + patrons + holds| >= count
  {
  }

  lemma LookupCover(l: Lookup, rt: RecordType, count: int, stream: nat -> Draws)
    requires PagesNonEmpty(stream)
    ensures |LookupSpec(l, RecordCount(count, rt), stream)| * 100 >= count * MakeupPct(rt)
  {
    LookupSpecBounds(l, RecordCount(count, rt), stream);
  }

  /** The lines `run` writes are a reordering of a prefix of the shuffled list. */
  lemma OutputIsShuffledPrefix(merged: seq<string>, count: int, shuffleKey: nat -> real, outputKey: nat -> real)
    ensures var lines := Output(merged, count, shuffleKey, outputKey);
      multiset(lines) == multiset(RandomSort(merged, shuffleKey)[..|lines|])
  {
    var shuffled := RandomSort(merged, shuffleKey);
    var kept := SlicePrefix(shuffled, count);
    assert kept == shuffled[..|kept|];
  }

  /** A run for a non-negative count writes exactly `count` lines. */
  lemma RunWritesCount(count: int, draws: RunDraws)
    requires ValidRunDraws(draws) && count >= 0
    ensures |Output(Merged(count, draws), count, draws.shuffleKey, draws.outputKey)| == count
  {
  }

  /** The same for `run` as the script starts it, with `allPaths` empty. */
  lemma RunWritesCountFrom(start: seq<string>, count: int, draws: RunDraws)
    requires ValidRunDraws(draws)
    ensures start == [] && count >= 0 ==>
      |RandomSort(SlicePrefix(RandomSort(start + Merged(count, draws), draws.shuffleKey), count), draws.outputKey)| == count
  {
    if start == [] && count >= 0 {
      assert start + Merged(count, draws) == Merged(count, draws);
      RunWritesCount(count, draws);
    }
  }

  lemma AppendThree(o: seq<string>, a: seq<string>, b: seq<string>, c: seq<string>)
    ensures o + a + b + c == o + (a + b + c)
  {
  }

  lemma AppendFive(o: seq<string>, a: seq<string>, b: seq<string>, c: seq<string>, d: seq<string>, e: seq<string>)
    ensures o + a + b + c + d + e == o + (a + b + c + d + e)
  {
  }

  /** The script's module state: `argv.count` and the `allPaths` array the builders extend. */
  class SierraRun {
    const count: int
    var allPaths: seq<string>

    constructor(count: int)
      ensures this.count == count && allPaths == []
    {
      this.count := count;
      allPaths := [];
    }

    /** buildBibsPaths, buildItemsPaths and buildHoldingsPaths: one record type's three query types. */
    method BuildRecordTypePaths(rt: RecordType, draws: RunDraws)
      requires IsCatalogRecord(rt) && ValidRunDraws(draws)
      modifies this
      ensures allPaths == old(allPaths) + RecordTypePaths(count, rt, draws)
    {
      var fields := Fields(rt);
      var updated := BuildRecordPaths(rt, fields, UpdatedDate, QueryCount(count, rt, UpdatedDate), draws.streams(rt, UpdatedDate));
      allPaths := allPaths + updated;
      var deleted := BuildRecordPaths(rt, fields, DeletedDate, QueryCount(count, rt, DeletedDate), draws.streams(rt, DeletedDate));
      allPaths := allPaths + deleted;
      var identity := BuildRecordPaths(rt, fields, Identity, QueryCount(count, rt, Identity), draws.streams(rt, Identity));
      allPaths := allPaths + identity;
      AppendThree(old(allPaths), updated, deleted, identity);
    }

    method BuildPatronsPaths(draws: RunDraws)
      requires ValidRunDraws(draws)
      modifies this
      ensures allPaths == old(allPaths) + PatronsPaths(count, draws)
    {
      var paths := LookupLoop(RecordLookup(Patrons, Fields(Patrons)), RecordCount(count, Patrons), draws.streams(Patrons, Identity));
      allPaths := allPaths + paths;
    }

    method BuildHoldsPaths(draws: RunDraws)
      requires ValidRunDraws(draws)
      modifies this
      ensures allPaths == old(allPaths) + HoldsPaths(count, draws)
    {
      var paths := LookupLoop(HoldsLookup, RecordCount(count, Holds), draws.streams(Holds, Identity));
      allPaths := allPaths + paths;
    }

    /** run(): the five builders, then shuffle, trim to `count`, and shuffle the lines written. */
    method Run(draws: RunDraws) returns (lines: seq<string>)
      requires ValidRunDraws(draws)
      modifies this
      ensures allPaths == SlicePrefix(RandomSort(old(allPaths) + Merged(count, draws), draws.shuffleKey), count)
      ensures lines == RandomSort(allPaths, draws.outputKey)
      ensures old(allPaths) == [] && count >= 0 ==> |lines| == count
    {
      ghost var start := allPaths;
      BuildRecordTypePaths(Bibs, draws);
      BuildRecordTypePaths(Items, draws);
      BuildRecordTypePaths(Holdings, draws);
      BuildPatronsPaths(draws);
      BuildHoldsPaths(draws);
      AppendFive(old(allPaths), RecordTypePaths(count, Bibs, draws), RecordTypePaths(count, Items, draws),
        RecordTypePaths(count, Holdings, draws), PatronsPaths(count, draws), HoldsPaths(count, draws));
      allPaths := RandomSort(allPaths, draws.shuffleKey);
      allPaths := SlicePrefix(allPaths, count);
      lines := RandomSort(allPaths, draws.outputKey);
      RunWritesCountFrom(start, count, draws);
    }
  }
}
