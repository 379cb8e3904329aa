/** The driver of the individual-statements script: the year arguments, the
    statement URLs of a year, the split of those URLs into batches, and the
    per-year run that fetches, parses, combines and pivots.

    Downloads are a function from URL to content; a failed fetch is
    `NoContent`. A date column is read by `yearOf`, `None` standing for a
    date pandas cannot read. */
module Statements {
  import opened Json
  import opened Text
  import opened Xbrl

  // ---------------------------------------------------------------------
  // Year arguments

  /** `list(range(start, end + 1))` */
  function YearSpan(start: int, end: int): (ys: seq<int>)
    requires start <= end
    ensures |ys| == end - start + 1 && ys[0] == start && ys[|ys| - 1] == end
    ensures forall i :: 0 <= i < |ys| ==> ys[i] == start + i
  {
    seq(end - start + 1, i => start + i)
  }

  /** The years `--years` selects; `None` where the parser exits with an
      error. */
  function YearsArg(years: seq<int>): Option<seq<int>> {
    if |years| == 1 then Some(YearSpan(years[0], years[0]))
    else if |years| == 2 && years[0] <= years[1] then Some(YearSpan(years[0], years[1]))
    else None
  }

  /** One year gives itself; two give every year between them inclusive,
      in increasing order; a reversed pair or any other count is refused. */
  lemma YearsArgRule(years: seq<int>)
    ensures |years| == 1 ==> YearsArg(years) == Some([years[0]])
    ensures |years| == 2 && years[0] <= years[1] ==>
      YearsArg(years).Some? && |YearsArg(years).value| == years[1] - years[0] + 1
      && (forall y :: y in YearsArg(years).value <==> years[0] <= y <= years[1])
      && (forall i, j :: 0 <= i < j < |YearsArg(years).value| ==> YearsArg(years).value[i] < YearsArg(years).value[j])
    ensures YearsArg(years).None? <==> |years| != 1 && !(|years| == 2 && years[0] <= years[1])
  {
    if |years| == 1 {
      assert YearSpan(years[0], years[0]) == [years[0]];
    }
    if |years| == 2 && years[0] <= years[1] {
      var ys := YearSpan(years[0], years[1]);
      forall y ensures y in ys <==> years[0] <= y <= years[1] {
        if years[0] <= y <= years[1] {
          assert ys[y - years[0]] == y;
        }
      }
    }
  }

  // ---------------------------------------------------------------------
  // The statement URLs of a year

  /** A row of the financial-statements table: its accounting period's end
      date and its `AARSRAPPORT_xml` URL, either possibly null. */
  datatype StatementRow = StatementRow(endDate: Option<string>, xmlUrl: Option<string>)

  /** The financial-statements table as read from its parquet file: whether
      it has the `regnskabsperiode_slutDato` and `AARSRAPPORT_xml` columns,
      and its rows (whose fields are null where a column is absent). */
  datatype StatementTable = StatementTable(hasEndDate: bool, hasXmlUrl: bool, rows: seq<StatementRow>)

  /** Every non-null end date reads through `yearOf`; where one does not,
      the model takes `pd.to_datetime` on the column to raise. pandas reads
      an empty string or "NaT" as a missing date without raising, and that
      row then matches no year; `yearOf` cannot say so (see README). */
  predicate DatesRead(rows: seq<StatementRow>, yearOf: string -> Option<int>) {
    forall i :: 0 <= i < |rows| ==> rows[i].endDate.Some? ==> yearOf(rows[i].endDate.value).Some?
  }

  predicate Wanted(r: StatementRow, year: int, yearOf: string -> Option<int>) {
    r.endDate.Some? && yearOf(r.endDate.value) == Some(year) && r.xmlUrl.Some?
  }

  /** The URLs of the rows of `year`, in row order, repeats included. */
  function Candidates(rows: seq<StatementRow>, year: int, yearOf: string -> Option<int>): seq<string> {
    if rows == [] then []
    else
      var r := rows[|rows| - 1];
      Candidates(rows[..|rows| - 1], year, yearOf) + (if Wanted(r, year, yearOf) then [r.xmlUrl.value] else [])
  }

  /** `unique()`: first occurrences, in order. */
  function Unique(s: seq<string>): seq<string> {
    if s == [] then []
    else
      var u := Unique(s[..|s| - 1]);
      if s[|s| - 1] in u then u else u + [s[|s| - 1]]
  }

  /** `get_xml_urls_by_year`; `None` where it raises: a missing column
      (`KeyError`) or a date the conversion cannot read. */
  function UrlsByYear(table: StatementTable, year: int, yearOf: string -> Option<int>): Option<seq<string>> {
    if !table.hasEndDate || !DatesRead(table.rows, yearOf) || !table.hasXmlUrl then None
    else Some(Unique(Candidates(table.rows, year, yearOf)))
  }

  /** The first index of `x` in `s`. */
  function FirstIndex(s: seq<string>, x: string): (k: nat)
    requires x in s
    ensures k < |s| && s[k] == x && forall i :: 0 <= i < k ==> s[i] != x
  {
    if s[0] == x then 0 else 1 + FirstIndex(s[1..], x)
  }

  lemma FirstIndexPrefix(s: seq<string>, x: string, n: nat)
    requires n <= |s| && x in s[..n]
    ensures x in s && FirstIndex(s, x) == FirstIndex(s[..n], x)
  {
    var k := FirstIndex(s[..n], x);
    assert s[k] == x;
    var m := FirstIndex(s, x);
    assert s[..n][m] == s[m] by { if m >= k { } }
  }

  /** `unique()` keeps every value once, and orders values by their first
      occurrence. */
  lemma {:induction false} UniqueSpec(s: seq<string>)
    ensures forall x :: x in Unique(s) <==> x in s
    ensures forall i, j :: 0 <= i < j < |Unique(s)| ==> Unique(s)[i] != Unique(s)[j]
    ensures forall i, j :: 0 <= i < j < |Unique(s)| ==>
      Unique(s)[i] in s && Unique(s)[j] in s && FirstIndex(s, Unique(s)[i]) < FirstIndex(s, Unique(s)[j])
    decreases |s|
  {
    if s != [] {
      var init := s[..|s| - 1];
      var x := s[|s| - 1];
      UniqueSpec(init);
      var u := Unique(init);
      assert s == init + [x];
      forall i | 0 <= i < |u| ensures FirstIndex(s, u[i]) == FirstIndex(init, u[i]) {
        FirstIndexPrefix(s, u[i], |init|);
      }
      if x !in u {
        assert x !in init;
        assert FirstIndex(s, x) == |init|;
        forall i | 0 <= i < |u| ensures FirstIndex(s, u[i]) < |init| {
          FirstIndexPrefix(s, u[i], |init|);
        }
      }
    }
  }

  /** The rows kept are exactly those of `year` with a URL. */
  lemma {:induction false} CandidatesExactly(rows: seq<StatementRow>, year: int, yearOf: string -> Option<int>, url: string)
    ensures url in Candidates(rows, year, yearOf)
        <==> exists i :: 0 <= i < |rows| && Wanted(rows[i], year, yearOf) && rows[i].xmlUrl.value == url
    decreases |rows|
  {
    if rows != [] {
      var init := rows[..|rows| - 1];
      CandidatesExactly(init, year, yearOf, url);
      if exists i :: 0 <= i < |init| && Wanted(init[i], year, yearOf) && init[i].xmlUrl.value == url {
        var i :| 0 <= i < |init| && Wanted(init[i], year, yearOf) && init[i].xmlUrl.value == url;
        assert rows[i] == init[i];
      }
      if exists i :: 0 <= i < |rows| && Wanted(rows[i], year, yearOf) && rows[i].xmlUrl.value == url {
        var i :| 0 <= i < |rows| && Wanted(rows[i], year, yearOf) && rows[i].xmlUrl.value == url;
        if i < |init| {
          assert init[i] == rows[i];
        }
      }
    }
  }

  /** The URLs of a year: without repeats, each the URL of a row whose
      period ends in that year, and every such URL present. */
  lemma UrlsByYearSpec(table: StatementTable, year: int, yearOf: string -> Option<int>, url: string)
    requires UrlsByYear(table, year, yearOf).Some?
    ensures var us := UrlsByYear(table, year, yearOf).value;
      var rows := table.rows;
      (url in us <==> exists i :: 0 <= i < |rows| && Wanted(rows[i], year, yearOf) && rows[i].xmlUrl.value == url)
      && (forall i, j :: 0 <= i < j < |us| ==> us[i] != us[j])
  {
    UniqueSpec(Candidates(table.rows, year, yearOf));
    CandidatesExactly(table.rows, year, yearOf, url);
  }

  /** The URL lookup raises exactly when the table lacks one of its two
      columns or holds an end date that does not read. */
  lemma UrlsByYearRaises(table: StatementTable, year: int, yearOf: string -> Option<int>)
    ensures UrlsByYear(table, year, yearOf).None?
      <==> !table.hasEndDate || !table.hasXmlUrl || !DatesRead(table.rows, yearOf)
  {
  }

  // ---------------------------------------------------------------------
  // Batches

  function Min(a: int, b: int): int {
    if a <= b then a else b
  }

  /** `(total + batch_size - 1) // batch_size` */
  function BatchCount(total: nat, batchSize: nat): nat
    requires batchSize >= 1
  {
    (total + batchSize - 1) / batchSize
  }

  /** The batch count is the ceiling of the quotient: enough batches to hold
      every URL, and no empty one. */
  lemma BatchCountCeil(total: nat, batchSize: nat)
    requires batchSize >= 1
    ensures var n := BatchCount(total, batchSize);
      total <= n * batchSize && (n > 0 ==> (n - 1) * batchSize < total) && (n == 0 <==> total == 0)
  {
    var n := BatchCount(total, batchSize);
    var q := total + batchSize - 1;
    var r := q % batchSize;
    assert q == n * batchSize + r && 0 <= r < batchSize;
    if n > 0 {
      assert (n - 1) * batchSize == n * batchSize - batchSize;
    }
    if total == 0 {
      assert q < batchSize;
    }
  }

  lemma MulLe(a: nat, b: nat, c: nat)
    requires a <= b
    ensures a * c <= b * c
  {
  }

  /** Batch `i` starts inside the URL list. */
  lemma BatchStart(total: nat, batchSize: nat, i: nat)
    requires batchSize >= 1 && i < BatchCount(total, batchSize)
    ensures i * batchSize < total && (i + 1) * batchSize == i * batchSize + batchSize
  {
    var n := BatchCount(total, batchSize);
    BatchCountCeil(total, batchSize);
    MulLe(i, n - 1, batchSize);
  }

  /** Batch `i`: `urls[i*bs : min((i+1)*bs, total)]`. */
  function Batch(urls: seq<string>, batchSize: nat, i: nat): seq<string>
    requires batchSize >= 1 && i < BatchCount(|urls|, batchSize)
  {
    BatchStart(|urls|, batchSize, i);
    urls[i * batchSize..Min((i + 1) * batchSize, |urls|)]
  }

  /** Each batch holds between one and `batch_size` URLs. */
  lemma BatchSize(urls: seq<string>, batchSize: nat, i: nat)
    requires batchSize >= 1 && i < BatchCount(|urls|, batchSize)
    ensures 1 <= |Batch(urls, batchSize, i)| <= batchSize
  {
    BatchStart(|urls|, batchSize, i);
  }

  /** The first `k` batches, one after the other, are the URLs up to
      `min(k*bs, total)`: the batches are disjoint, in order, and together
      cover every URL. */
  lemma {:induction false} BatchesCover(urls: seq<string>, batchSize: nat, k: nat)
    requires batchSize >= 1 && k <= BatchCount(|urls|, batchSize)
    ensures BatchesUpTo(urls, batchSize, k) == urls[..Min(k * batchSize, |urls|)]
    ensures k == BatchCount(|urls|, batchSize) ==> BatchesUpTo(urls, batchSize, k) == urls
    decreases k
  {
    if k > 0 {
      BatchesCover(urls, batchSize, k - 1);
      BatchStart(|urls|, batchSize, k - 1);
      var lo := (k - 1) * batchSize;
      var hi := Min(k * batchSize, |urls|);
      assert Batch(urls, batchSize, k - 1) == urls[lo..hi];
      assert urls[..lo] + urls[lo..hi] == urls[..hi];
    }
    if k == BatchCount(|urls|, batchSize) {
      BatchCountCeil(|urls|, batchSize);
      assert urls[..|urls|] == urls;
    }
  }

  /** The concatenation of the first `k` batches. */
  function BatchesUpTo(urls: seq<string>, batchSize: nat, k: nat): seq<string>
    requires batchSize >= 1 && k <= BatchCount(|urls|, batchSize)
  {
    if k == 0 then [] else BatchesUpTo(urls, batchSize, k - 1) + Batch(urls, batchSize, k - 1)
  }

  // ---------------------------------------------------------------------
  // Fetching and parsing

  /** The concatenation of a list of fact lists. */
  function Concat(batches: seq<seq<Fact>>): seq<Fact> {
    if batches == [] then [] else Concat(batches[..|batches| - 1]) + batches[|batches| - 1]
  }

  lemma ConcatAppend(batches: seq<seq<Fact>>, batch: seq<Fact>)
    ensures Concat(batches + [batch]) == Concat(batches) + batch
  {
    assert (batches + [batch])[..|batches|] == batches;
  }

  lemma {:induction false} ConcatJoin(a: seq<seq<Fact>>, b: seq<seq<Fact>>)
    ensures Concat(a + b) == Concat(a) + Concat(b)
    decreases |b|
  {
    if b == [] {
      assert a + b == a;
    } else {
      var init := b[..|b| - 1];
      var last := b[|b| - 1];
      ConcatJoin(a, init);
      assert (a + b)[..|a + b| - 1] == a + init;
      assert (a + b)[|a + b| - 1] == last;
      calc {
        Concat(a + b);
        Concat(a + init) + last;
        (Concat(a) + Concat(init)) + last;
        Concat(a) + (Concat(init) + last);
        Concat(a) + Concat(b);
      }
    }
  }

  /** The parse result of each URL's download. */
  function Parsed(fetch: string -> Content, urls: seq<string>): (docs: seq<seq<Fact>>)
    ensures |docs| == |urls|
  {
    seq(|urls|, i requires 0 <= i < |urls| => ParsedFacts(fetch(urls[i])))
  }

  /** The facts of a list of URLs, document after document; a failed fetch
      or a document without facts contributes nothing. */
  function UrlFacts(fetch: string -> Content, urls: seq<string>): seq<Fact> {
    Concat(Parsed(fetch, urls))
  }

  lemma UrlFactsAppend(fetch: string -> Content, a: seq<string>, b: seq<string>)
    ensures UrlFacts(fetch, a + b) == UrlFacts(fetch, a) + UrlFacts(fetch, b)
  {
    assert Parsed(fetch, a + b) == Parsed(fetch, a) + Parsed(fetch, b);
    ConcatJoin(Parsed(fetch, a), Parsed(fetch, b));
  }

  /** `process_urls_async`, one document at a time: skip a failed fetch,
      parse, keep a non-empty result. */
  method ProcessUrls(fetch: string -> Content, urlsBatch: seq<string>) returns (facts: seq<Fact>)
    ensures facts == UrlFacts(fetch, urlsBatch)
  {
    facts := [];
    var i := 0;
    while i < |urlsBatch|
      invariant i <= |urlsBatch| && facts == UrlFacts(fetch, urlsBatch[..i])
    {
      var xmlContent := fetch(urlsBatch[i]);
      if !xmlContent.NoContent? {
        var dfCompany := ParseXmlContent(xmlContent);
        if dfCompany != [] {
          facts := facts + dfCompany;
        }
      }
      assert Parsed(fetch, urlsBatch[..i + 1]) == Parsed(fetch, urlsBatch[..i]) + [ParsedFacts(xmlContent)];
      ConcatAppend(Parsed(fetch, urlsBatch[..i]), ParsedFacts(xmlContent));
      i := i + 1;
    }
    assert urlsBatch[..i] == urlsBatch;
  }

  // ---------------------------------------------------------------------
  // One year

  /** How `download_and_process_year` ends: it raised, found no URLs, got
      no facts, got an empty wide table, or saved the table. */
  datatype YearOutcome = YearRaised | NoUrls | NoFacts | NoWideData | Saved(file: string, table: WideTable)

  function OutputFile(outputName: string, year: int): string {
    outputName + "_" + IntText(year) + ".parquet"
  }

  function YearOutcomeOf(table: StatementTable, year: int, yearOf: string -> Option<int>,
                         fetch: string -> Content, outputName: string): YearOutcome {
    match UrlsByYear(table, year, yearOf)
    case None => YearRaised
    case Some(urls) =>
      if urls == [] then NoUrls
      else
        var facts := UrlFacts(fetch, urls);
        if facts == [] then NoFacts
        else
          match Transform(facts, year, yearOf)
          case TransformRaised => YearRaised
          case EmptyFrame => NoWideData
          case Wide(t) => if t.rows == map[] then NoWideData else Saved(OutputFile(outputName, year), t)
  }

  /** One turn of the batch loop extends the combined facts by those of
      the next batch. */
  lemma BatchStep(fetch: string -> Content, urls: seq<string>, batchSize: nat, i: nat,
                  dfs: seq<seq<Fact>>, dfBatch: seq<Fact>)
    requires batchSize >= 1 && i < BatchCount(|urls|, batchSize)
    requires Concat(dfs) == UrlFacts(fetch, BatchesUpTo(urls, batchSize, i))
    requires dfBatch == UrlFacts(fetch, Batch(urls, batchSize, i))
    ensures Concat(if dfBatch != [] then dfs + [dfBatch] else dfs) == UrlFacts(fetch, BatchesUpTo(urls, batchSize, i + 1))
  {
    UrlFactsAppend(fetch, BatchesUpTo(urls, batchSize, i), Batch(urls, batchSize, i));
    ConcatAppend(dfs, dfBatch);
  }

  /** One turn of the batch loop: slice batch `i` and fetch and parse it. */
  method ProcessBatch(fetch: string -> Content, xmlUrls: seq<string>, batchSize: nat, i: nat)
    returns (dfBatch: seq<Fact>)
    requires batchSize >= 1 && i < BatchCount(|xmlUrls|, batchSize)
    ensures dfBatch == UrlFacts(fetch, Batch(xmlUrls, batchSize, i))
  {
    BatchStart(|xmlUrls|, batchSize, i);
    var startIndex := i * batchSize;
    var endIndex := Min((i + 1) * batchSize, |xmlUrls|);
    var currentBatchUrls := xmlUrls[startIndex..endIndex];
    dfBatch := ProcessUrls(fetch, currentBatchUrls);
  }

  /** The batch loop of `download_and_process_year`: the non-empty batch
      results, which combined are the facts of every URL in order. */
  method ProcessBatches(fetch: string -> Content, xmlUrls: seq<string>, batchSize: nat)
    returns (allBatchDfs: seq<seq<Fact>>)
    requires batchSize >= 1
    ensures Concat(allBatchDfs) == UrlFacts(fetch, xmlUrls)
    ensures allBatchDfs == [] <==> UrlFacts(fetch, xmlUrls) == []
  {
    var totalUrls := |xmlUrls|;
    var numBatches := (totalUrls + batchSize - 1) / batchSize;
    allBatchDfs := [];
    var i := 0;
    while i < numBatches
      invariant i <= numBatches == BatchCount(totalUrls, batchSize)
      invariant Concat(allBatchDfs) == UrlFacts(fetch, BatchesUpTo(xmlUrls, batchSize, i))
      invariant allBatchDfs == [] <==> Concat(allBatchDfs) == []
    {
      var dfBatch := ProcessBatch(fetch, xmlUrls, batchSize, i);
      BatchStep(fetch, xmlUrls, batchSize, i, allBatchDfs, dfBatch);
      if dfBatch != [] {
        allBatchDfs := allBatchDfs + [dfBatch];
      }
      i := i + 1;
    }
    BatchesCover(xmlUrls, batchSize, i);
  }

  /** `download_and_process_year`: the outcome does not depend on the batch
      size, since the batches' facts combined are the facts of all URLs in
      order. */
  method DownloadAndProcessYear(table: StatementTable, year: int, yearOf: string -> Option<int>,
                                fetch: string -> Content, outputName: string, batchSize: nat)
    returns (outcome: YearOutcome)
    requires batchSize >= 1
    ensures outcome == YearOutcomeOf(table, year, yearOf, fetch, outputName)
  {
    var found := UrlsByYear(table, year, yearOf);
    if found.None? {
      return YearRaised;
    }
    var xmlUrls := found.value;
    if |xmlUrls| == 0 {
      return NoUrls;
    }
    var allBatchDfs := ProcessBatches(fetch, xmlUrls, batchSize);
    if allBatchDfs == [] {
      return NoFacts;
    }
    var dfCombined := Concat(allBatchDfs);
    var dfWide := TransformToWideFormat(dfCombined, year, yearOf);
    match dfWide
    case TransformRaised =>
      outcome := YearRaised;
    case EmptyFrame =>
      outcome := NoWideData;
    case Wide(t) =>
      if t.rows == map[] {
        outcome := NoWideData;
      } else {
        outcome := Saved(OutputFile(outputName, year), t);
      }
  }

  /** A year with no statement URLs, or whose URLs yield no facts, writes
      nothing; a saved table is stamped with its year and named after it. */
  lemma YearOutcomeSpec(table: StatementTable, year: int, yearOf: string -> Option<int>,
                        fetch: string -> Content, outputName: string)
    requires UrlsByYear(table, year, yearOf).Some?
    ensures UrlsByYear(table, year, yearOf).value == [] ==> YearOutcomeOf(table, year, yearOf, fetch, outputName) == NoUrls
    ensures (forall u :: u in UrlsByYear(table, year, yearOf).value ==> fetch(u).NoContent?) ==>
      !YearOutcomeOf(table, year, yearOf, fetch, outputName).Saved?
    ensures YearOutcomeOf(table, year, yearOf, fetch, outputName).Saved? ==>
      YearOutcomeOf(table, year, yearOf, fetch, outputName).table.year == year
      && YearOutcomeOf(table, year, yearOf, fetch, outputName).table.rows != map[]
      && YearOutcomeOf(table, year, yearOf, fetch, outputName).file == OutputFile(outputName, year)
  {
    var urls := UrlsByYear(table, year, yearOf).value;
    if forall u :: u in urls ==> fetch(u).NoContent? {
      NoFetchNoFacts(fetch, urls);
    }
  }

  /** The output file is `<name>_<year>.parquet`, the year read back from
      the name. */
  lemma OutputFileYear(outputName: string, year: int)
    ensures var file := OutputFile(outputName, year);
      var t := |IntText(year)|;
      |file| == |outputName| + 1 + t + 8 && file[..|outputName|] == outputName && file[|outputName|] == '_'
      && ParseInt(file[|outputName| + 1..|outputName| + 1 + t]) == Some(year)
      && file[|outputName| + 1 + t..] == ".parquet"
  {
    IntTextRoundTrip(year);
    var file := OutputFile(outputName, year);
    assert file[|outputName| + 1..|outputName| + 1 + |IntText(year)|] == IntText(year);
  }

  /** URLs whose fetch failed contribute no facts. */
  lemma NoFetchNoFacts(fetch: string -> Content, urls: seq<string>)
    requires forall u :: u in urls ==> fetch(u).NoContent?
    ensures UrlFacts(fetch, urls) == []
  {
    var docs := Parsed(fetch, urls);
    forall k | 0 <= k < |docs| ensures docs[k] == [] {
      assert urls[k] in urls;
    }
    ConcatEmpty(docs);
  }

  lemma {:induction false} ConcatEmpty(docs: seq<seq<Fact>>)
    requires forall k :: 0 <= k < |docs| ==> docs[k] == []
    ensures Concat(docs) == []
  {
    if docs != [] {
      ConcatEmpty(docs[..|docs| - 1]);
    }
  }

  // ---------------------------------------------------------------------
  // All years

  /** The outcome of each year in turn. */
  function Outcomes(table: StatementTable, years: seq<int>, yearOf: string -> Option<int>,
                    fetch: string -> Content, outputName: string): (os: seq<YearOutcome>)
    ensures |os| == |years|
  {
    seq(|years|, i requires 0 <= i < |years| => YearOutcomeOf(table, years[i], yearOf, fetch, outputName))
  }

  lemma OutcomesAppend(table: StatementTable, years: seq<int>, year: int, yearOf: string -> Option<int>,
                       fetch: string -> Content, outputName: string)
    ensures Outcomes(table, years + [year], yearOf, fetch, outputName)
         == Outcomes(table, years, yearOf, fetch, outputName) + [YearOutcomeOf(table, year, yearOf, fetch, outputName)]
  {
  }

  /** `main`: `None` when the arguments are refused, otherwise one outcome
      per selected year; a year that raises is logged and skipped. */
  method Run(years: seq<int>, table: StatementTable, yearOf: string -> Option<int>,
             fetch: string -> Content, outputName: string, batchSize: nat)
    returns (outcomes: Option<seq<YearOutcome>>)
    requires batchSize >= 1
    ensures outcomes.None? <==> YearsArg(years).None?
    ensures outcomes.Some? ==> outcomes.value == Outcomes(table, YearsArg(years).value, yearOf, fetch, outputName)
  {
    var args := YearsArg(years);
    if args.None? {
      return None;
    }
    var selected := args.value;
    var done: seq<YearOutcome> := [];
    var i := 0;
    while i < |selected|
      invariant i <= |selected| && done == Outcomes(table, selected[..i], yearOf, fetch, outputName)
    {
      var outcome := DownloadAndProcessYear(table, selected[i], yearOf, fetch, outputName, batchSize);
      assert selected[..i + 1] == selected[..i] + [selected[i]];
      OutcomesAppend(table, selected[..i], selected[i], yearOf, fetch, outputName);
      done := done + [outcome];
      i := i + 1;
    }
    assert selected[..i] == selected;
    outcomes := Some(done);
  }
}
