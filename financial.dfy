/** `flatten_financial_data` of the financial-statements script.

    Each hit's `_source` is copied, its `dokumenter` list is taken out, and
    every document whose type is set and whose MIME type is one of four known
    ones adds a column `<dokumentType>_<format>` holding its URL; a later
    document with the same column overwrites an earlier one. The processed
    sources are then flattened, and the hits' metadata columns are put in
    front. Sources are values here, so the copy leaves the hit itself as it
    was by construction. */
module Financial {
  import opened Json
  import opened Text
  import opened Frames
  import opened MainTable
  import opened Scroll
  import opened Queries

  /** A value `format_map.get` can look up: lists and dicts are unhashable
      in Python and make it raise. */
  predicate Hashable(j: Json) {
    !j.JList? && !j.JDict?
  }

  /** `format_map.get(mime_type, "unknown")` */
  function MimeFormat(mime: Json): string
    requires Hashable(mime)
  {
    if mime == JStr("application/xhtml+xml") then "html"
    else if mime == JStr("application/pdf") then "pdf"
    else if mime == JStr("application/xml") then "xml"
    else if mime == JStr("image/tiff") then "tiff"
    else "unknown"
  }

  /** A value an f-string renders without Python's `repr` of a container. */
  predicate Renderable(j: Json) {
    j.JStr? || j.JNum? || j.JBool?
  }

  /** `f"{v}"` for a renderable value. */
  function Render(j: Json): string
    requires Renderable(j)
  {
    match j
    case JStr(s) => s
    case JNum(n) => IntText(n)
    case JBool(b) => if b then "True" else "False"
  }

  /** `doc.get("dokumentType", "UNKNOWN")` */
  function DocType(doc: Json): Json
    requires doc.JDict?
  {
    Get(doc, "dokumentType", JStr("UNKNOWN"))
  }

  /** `doc.get("dokumentMimeType", "")` */
  function DocMime(doc: Json): Json
    requires doc.JDict?
  {
    Get(doc, "dokumentMimeType", JStr(""))
  }

  /** `doc.get("dokumentUrl", "")` */
  function DocUrl(doc: Json): Json
    requires doc.JDict?
  {
    Get(doc, "dokumentUrl", JStr(""))
  }

  /** A document the loop body handles without raising. */
  predicate DocSafe(doc: Json) {
    doc.JDict? && Hashable(DocMime(doc)) && (Truthy(DocType(doc)) ==> Renderable(DocType(doc)))
  }

  predicate AllDocsSafe(docs: seq<Json>) {
    forall i :: 0 <= i < |docs| ==> DocSafe(docs[i])
  }

  /** The column a document adds, with its URL: only for a truthy type and a
      known MIME type. */
  function DocColumn(doc: Json): Option<(string, Json)>
    requires DocSafe(doc)
  {
    var format := MimeFormat(DocMime(doc));
    if Truthy(DocType(doc)) && format != "unknown" then Some((Render(DocType(doc)) + "_" + format, DocUrl(doc)))
    else None
  }

  /** Whether a column, if any, is named `name`. */
  predicate Assigns(col: Option<(string, Json)>, name: string) {
    col.Some? && col.value.0 == name
  }

  /** The column each document adds, if any, in document order. */
  function DocColumns(docs: seq<Json>): (cols: seq<Option<(string, Json)>>)
    requires AllDocsSafe(docs)
    ensures |cols| == |docs|
  {
    seq(|docs|, i requires 0 <= i < |docs| && AllDocsSafe(docs) => DocColumn(docs[i]))
  }

  /** The fields after assigning each column in turn. */
  function Assign(fields: map<string, Json>, cols: seq<Option<(string, Json)>>): map<string, Json> {
    if cols == [] then fields
    else
      var before := Assign(fields, cols[..|cols| - 1]);
      var col := cols[|cols| - 1];
      if col.Some? then before[col.value.0 := col.value.1] else before
  }

  /** The fields after the loop over `docs`. */
  function WithDocs(fields: map<string, Json>, docs: seq<Json>): map<string, Json>
    requires AllDocsSafe(docs)
  {
    Assign(fields, DocColumns(docs))
  }

  /** A `_source` the function handles: a dict whose `dokumenter` (default
      empty) can be walked and holds only safe documents. */
  predicate SourceSafe(source: Json) {
    source.JDict? && Iterable(Get(source, "dokumenter", EmptyList))
    && AllDocsSafe(Elements(Get(source, "dokumenter", EmptyList)))
  }

  function Documents(source: Json): seq<Json>
    requires source.JDict?
  {
    Elements(Get(source, "dokumenter", EmptyList))
  }

  /** The processed copy of one `_source`. */
  function ProcessedSource(source: Json): Json
    requires SourceSafe(source)
  {
    JDict(WithDocs(source.fields - {"dokumenter"}, Documents(source)))
  }

  /** The body of the loop over sources: copy, drop `dokumenter`, add a
      column per document. */
  method ProcessSource(source: Json) returns (processed: Json)
    requires SourceSafe(source)
    ensures processed == ProcessedSource(source)
  {
    var fields := source.fields;
    var dokumenter := Get(source, "dokumenter", EmptyList);
    if "dokumenter" in fields {
      fields := fields - {"dokumenter"};
    }
    assert fields == source.fields - {"dokumenter"};
    var docs := Elements(dokumenter);
    var i := 0;
    while i < |docs|
      invariant i <= |docs|
      invariant fields == Assign(source.fields - {"dokumenter"}, DocColumns(docs)[..i])
    {
      var doc := docs[i];
      var docType := Get(doc, "dokumentType", JStr("UNKNOWN"));
      var mimeType := Get(doc, "dokumentMimeType", JStr(""));
      var docUrl := Get(doc, "dokumentUrl", JStr(""));
      var formatName := MimeFormat(mimeType);
      if Truthy(docType) && formatName != "unknown" {
        var colName := Render(docType) + "_" + formatName;
        fields := fields[colName := docUrl];
      }
      assert DocColumns(docs)[..i + 1][..i] == DocColumns(docs)[..i];
      i := i + 1;
    }
    assert DocColumns(docs)[..i] == DocColumns(docs);
    processed := JDict(fields);
  }

  predicate AllSourcesSafe(hits: seq<Json>)
    requires AllDicts(hits)
  {
    forall i :: 0 <= i < |hits| ==> SourceSafe(Get(hits[i], "_source", EmptyDict))
  }

  /** The processed sources of the hits, flattened. */
  function ProcessedRecords(hits: seq<Json>, flatten: Json -> FlatRecord): (rs: seq<FlatRecord>)
    requires AllDicts(hits) && AllSourcesSafe(hits)
    ensures |rs| == |hits|
  {
    seq(|hits|, i requires 0 <= i < |hits| && AllDicts(hits) && AllSourcesSafe(hits) =>
      flatten(ProcessedSource(Get(hits[i], "_source", EmptyDict))))
  }

  /** The financial table: the metadata columns in their own order, then
      the flattened processed sources. */
  function FinancialFrame(hits: seq<Json>, flatten: Json -> FlatRecord): Frame
    requires AllDicts(hits) && AllSourcesSafe(hits)
  {
    Frame(|hits|, MetadataColumns(MetaFrame(hits, flatten).columns) + Normalize(ProcessedRecords(hits, flatten)).columns)
  }

  /** The loop over the hits: each `_source` processed, in order. */
  method ProcessSources(hits: seq<Json>) returns (processedSources: seq<Json>)
    requires AllDicts(hits) && AllSourcesSafe(hits)
    ensures |processedSources| == |hits|
    ensures forall k :: 0 <= k < |hits| ==> processedSources[k] == ProcessedSource(Get(hits[k], "_source", EmptyDict))
  {
    processedSources := [];
    var i := 0;
    while i < |hits|
      invariant i <= |hits| && |processedSources| == i
      invariant forall k :: 0 <= k < i ==> processedSources[k] == ProcessedSource(Get(hits[k], "_source", EmptyDict))
    {
      var processedSource := ProcessSource(Get(hits[i], "_source", EmptyDict));
      processedSources := processedSources + [processedSource];
      i := i + 1;
    }
  }

  /** `flatten_financial_data` */
  method FlattenFinancialData(hits: seq<Json>, flatten: Json -> FlatRecord) returns (df: Frame)
    requires AllDicts(hits) && AllSourcesSafe(hits)
    ensures df == FinancialFrame(hits, flatten)
  {
    var processedSources := ProcessSources(hits);
    var records := seq(|processedSources|, k requires 0 <= k < |processedSources| => flatten(processedSources[k]));
    assert records == ProcessedRecords(hits, flatten);
    var dfFlattened := Normalize(records);
    var metadataDf := Normalize(HitRecords(hits, flatten));
    PathsSpec(HitRecords(hits, flatten));
    var metas := MetadataColumns(metadataDf.columns);
    var metadataCols := Names(metas);
    if metadataCols != [] {
      SelectOwnNames(metadataDf.columns, metas);
      df := Frame(|hits|, Select(metadataDf.columns, metadataCols) + dfFlattened.columns);
    } else {
      df := Frame(|hits|, dfFlattened.columns);
    }
  }

  // ---------------------------------------------------------------------
  // Properties

  /** The MIME map is total: four known types give their format, anything
      else (other strings, numbers, null) gives `unknown`. */
  lemma MimeFormatTotal(mime: Json)
    requires Hashable(mime)
    ensures MimeFormat(mime) in {"html", "pdf", "xml", "tiff", "unknown"}
    ensures MimeFormat(mime) != "unknown"
        <==> mime in {JStr("application/xhtml+xml"), JStr("application/pdf"), JStr("application/xml"), JStr("image/tiff")}
  {
  }

  /** A column name is the document type, `_` and a known format. */
  lemma DocColumnName(doc: Json)
    requires DocSafe(doc) && DocColumn(doc).Some?
    ensures var name := DocColumn(doc).value.0;
      var t := Render(DocType(doc));
      |name| > |t| && name[..|t|] == t && name[|t|] == '_'
      && name[|t| + 1..] in {"html", "pdf", "xml", "tiff"}
  {
    var name := DocColumn(doc).value.0;
    var t := Render(DocType(doc));
    assert name[|t| + 1..] == MimeFormat(DocMime(doc));
  }

  /** A document without `dokumentType` is filed as `UNKNOWN`, and one
      without `dokumentUrl` gets the empty URL. */
  lemma MissingTypeAndUrl(doc: Json)
    requires doc.JDict? && "dokumentType" !in doc.fields && "dokumentUrl" !in doc.fields
    requires DocMime(doc) == JStr("application/pdf")
    ensures DocSafe(doc) && DocColumn(doc) == Some(("UNKNOWN_pdf", JStr("")))
  {
    assert DocType(doc) == JStr("UNKNOWN") && DocUrl(doc) == JStr("");
    assert "UNKNOWN" + "_" + "pdf" == "UNKNOWN_pdf";
  }

  /** Whether the document adds a column named `name`. */
  predicate AddsColumn(doc: Json, name: string)
    requires DocSafe(doc)
  {
    Assigns(DocColumn(doc), name)
  }

  /** Assigning columns keeps every key no column names, with its value,
      and adds exactly the named keys. */
  lemma {:induction false} AssignKeys(fields: map<string, Json>, cols: seq<Option<(string, Json)>>, k: string)
    ensures k in Assign(fields, cols) <==> k in fields || exists j :: 0 <= j < |cols| && Assigns(cols[j], k)
    ensures (forall j :: 0 <= j < |cols| ==> !Assigns(cols[j], k)) && k in fields ==>
      Assign(fields, cols)[k] == fields[k]
    decreases |cols|
  {
    if cols != [] {
      var init := cols[..|cols| - 1];
      AssignKeys(fields, init, k);
      if exists j :: 0 <= j < |init| && Assigns(init[j], k) {
        var j :| 0 <= j < |init| && Assigns(init[j], k);
        assert cols[j] == init[j];
      }
      if exists j :: 0 <= j < |cols| && Assigns(cols[j], k) {
        var j :| 0 <= j < |cols| && Assigns(cols[j], k);
        if j < |init| {
          assert init[j] == cols[j];
        }
      }
      if forall j :: 0 <= j < |cols| ==> !Assigns(cols[j], k) {
        forall j | 0 <= j < |init| ensures !Assigns(init[j], k) {
          assert init[j] == cols[j];
        }
      }
    }
  }

  /** The last column with a name decides its value. */
  lemma {:induction false} AssignLastWins(fields: map<string, Json>, cols: seq<Option<(string, Json)>>, j: nat)
    requires j < |cols| && cols[j].Some?
    requires forall l :: j < l < |cols| ==> !Assigns(cols[l], cols[j].value.0)
    ensures cols[j].value.0 in Assign(fields, cols) && Assign(fields, cols)[cols[j].value.0] == cols[j].value.1
    decreases |cols|
  {
    if j < |cols| - 1 {
      var init := cols[..|cols| - 1];
      assert init[j] == cols[j];
      forall l | j < l < |init| ensures !Assigns(init[l], init[j].value.0) {
        assert init[l] == cols[l];
      }
      AssignLastWins(fields, init, j);
    }
  }

  /** The document loop keeps every key no document column names, with its
      value, and adds exactly the document columns. */
  lemma WithDocsKeys(fields: map<string, Json>, docs: seq<Json>, k: string)
    requires AllDocsSafe(docs)
    ensures k in WithDocs(fields, docs) <==> k in fields || exists j :: 0 <= j < |docs| && AddsColumn(docs[j], k)
    ensures (forall j :: 0 <= j < |docs| ==> !AddsColumn(docs[j], k)) && k in fields ==>
      WithDocs(fields, docs)[k] == fields[k]
  {
    var cols := DocColumns(docs);
    AssignKeys(fields, cols, k);
    assert forall j :: 0 <= j < |docs| ==> (AddsColumn(docs[j], k) <==> Assigns(cols[j], k));
  }

  /** The last document that adds a column decides its URL: a later document
      with the same type and format overwrites the earlier URL. */
  lemma LaterDocumentWins(fields: map<string, Json>, docs: seq<Json>, j: nat)
    requires AllDocsSafe(docs) && j < |docs| && DocColumn(docs[j]).Some?
    requires forall l :: j < l < |docs| ==> !AddsColumn(docs[l], DocColumn(docs[j]).value.0)
    ensures DocColumn(docs[j]).value.0 in WithDocs(fields, docs)
    ensures WithDocs(fields, docs)[DocColumn(docs[j]).value.0] == DocColumn(docs[j]).value.1
  {
    var cols := DocColumns(docs);
    assert cols[j] == DocColumn(docs[j]);
    forall l | j < l < |cols| ensures !Assigns(cols[l], cols[j].value.0) {
      assert cols[l] == DocColumn(docs[l]);
    }
    AssignLastWins(fields, cols, j);
  }

  /** A column name always holds `_`, so no document column is named
      `dokumenter`. */
  lemma NoDocumentColumnIsDokumenter(doc: Json)
    requires DocSafe(doc)
    ensures !AddsColumn(doc, "dokumenter")
  {
    if DocColumn(doc).Some? {
      DocColumnName(doc);
    }
  }

  /** The processed source has no `dokumenter` key; every other key of the
      source that no document column overwrites is kept with its value, and
      the only new keys are document columns. */
  lemma ProcessedSourceKeys(source: Json, k: string)
    requires SourceSafe(source)
    ensures "dokumenter" !in ProcessedSource(source).fields
    ensures k in ProcessedSource(source).fields
        <==> (k in source.fields && k != "dokumenter")
             || exists j :: 0 <= j < |Documents(source)| && AddsColumn(Documents(source)[j], k)
    ensures k in source.fields && k != "dokumenter"
            && (forall j :: 0 <= j < |Documents(source)| ==> !AddsColumn(Documents(source)[j], k))
        ==> ProcessedSource(source).fields[k] == source.fields[k]
  {
    var docs := Documents(source);
    var base := source.fields - {"dokumenter"};
    WithDocsKeys(base, docs, k);
    WithDocsKeys(base, docs, "dokumenter");
    forall j | 0 <= j < |docs| ensures !AddsColumn(docs[j], "dokumenter") {
      NoDocumentColumnIsDokumenter(docs[j]);
    }
  }

  /** The financial table has one row per hit, and its metadata columns come
      first, followed by the columns of the processed sources. */
  lemma FinancialFrameShape(hits: seq<Json>, flatten: Json -> FlatRecord)
    requires AllDicts(hits) && AllSourcesSafe(hits)
    ensures FinancialFrame(hits, flatten).height == |hits|
    ensures WellFormed(FinancialFrame(hits, flatten))
    ensures var m := |MetadataNames(hits, flatten)|;
      var cols := FinancialFrame(hits, flatten).columns;
      m <= |cols|
      && Names(cols[..m]) == MetadataNames(hits, flatten)
      && (forall i :: 0 <= i < m ==> IsMetadataName(cols[i].name))
      && Names(cols[m..]) == Paths(ProcessedRecords(hits, flatten))
  {
    var f := FinancialFrame(hits, flatten);
    var metas := MetadataColumns(MetaFrame(hits, flatten).columns);
    var data := Normalize(ProcessedRecords(hits, flatten)).columns;
    assert f.columns[..|metas|] == metas;
    assert f.columns[|metas|..] == data;
    forall i | 0 <= i < |metas| ensures IsMetadataName(f.columns[i].name) {
      assert metas[i] in metas;
    }
    forall c | c in f.columns ensures |c.cells| == |hits| {
      if c in metas {
        assert c in MetaFrame(hits, flatten).columns;
      } else {
        assert c in data;
      }
    }
  }

  // ---------------------------------------------------------------------
  // The script's `main`

  /** `c.lower()` for an ASCII letter; other characters are kept. */
  function LowerChar(c: char): (r: char)
    ensures 'A' <= c <= 'Z' ==> r as int == c as int + 32
    ensures !('A' <= c <= 'Z') ==> r == c
  {
    if 'A' <= c <= 'Z' then (c as int + 32) as char else c
  }

  /** `s.lower()` over ASCII. */
  function Lower(s: string): (r: string)
    ensures |r| == |s| && forall i :: 0 <= i < |s| ==> r[i] == LowerChar(s[i])
  {
    seq(|s|, i requires 0 <= i < |s| => LowerChar(s[i]))
  }

  /** What is written: the flattened table as `<base>.parquet`, or the raw
      hits as `<base>.json` for any other format. */
  datatype Saved = Parquet(file: string, frame: Frame) | JsonDump(file: string, results: seq<Json>)

  /** The end of `main`: `None` when the first search fails (`Failed`),
      otherwise the flattened table and what is saved. */
  datatype FinancialOutcome = Crashed | Failed | Flattened(frame: Frame, saved: Saved)

  function SavedAs(baseName: string, saveFormat: string, df: Frame, results: seq<Json>): (s: Saved)
    ensures Lower(saveFormat) == "parquet" <==> s.Parquet?
  {
    if Lower(saveFormat) == "parquet" then Parquet(baseName + ".parquet", df)
    else JsonDump(baseName + ".json", results)
  }

  predicate FetchSafe(fetch: Fetch) {
    fetch.Fetched? ==> AllDicts(fetch.results) && AllSourcesSafe(fetch.results)
  }

  function FinancialOutcomeOf(script: seq<Attempt>, baseName: string, saveFormat: string, flatten: Json -> FlatRecord): FinancialOutcome
    requires FetchSafe(PlainScrollSession(script).fetch)
  {
    match PlainScrollSession(script).fetch
    case Raised => Crashed
    case NoData => Failed
    case Fetched(results) =>
      var df := FinancialFrame(results, flatten);
      Flattened(df, SavedAs(baseName, saveFormat, df, results))
  }

  /** The financial script's `main`: search with the period query (keep-alive
      `1m`), scroll until an empty page or a failed reply, flatten, save. */
  method FinancialDownload(script: seq<Attempt>, name: string, size: int, year: Option<int>, saveFormat: string,
                           flatten: Json -> FlatRecord)
    returns (query: SearchBody, baseName: string, outcome: FinancialOutcome, requests: seq<Request>)
    requires FetchSafe(PlainScrollSession(script).fetch)
    ensures query == FinancialQuery(size, year) && baseName == OutputBaseName(name, year)
    ensures requests == PlainScrollSession(script).requests
    ensures outcome == FinancialOutcomeOf(script, baseName, saveFormat, flatten)
  {
    query := FinancialQuery(size, year);
    baseName := OutputBaseName(name, year);
    var fetch;
    fetch, requests := PlainScroll(script);
    if fetch.Raised? {
      return query, baseName, Crashed, requests;
    }
    if fetch.NoData? {
      return query, baseName, Failed, requests;
    }
    var dfFlattened := FlattenFinancialData(fetch.results, flatten);
    var saved;
    if Lower(saveFormat) == "parquet" {
      saved := Parquet(baseName + ".parquet", dfFlattened);
    } else {
      saved := JsonDump(baseName + ".json", fetch.results);
    }
    outcome := Flattened(dfFlattened, saved);
  }

  /** `main` returns nothing exactly when the first search is not answered
      with a scroll id; otherwise it returns a table with a row per hit
      collected, even when the scroll stopped early, and never clears the
      scroll. */
  lemma FinancialDownloadOutcome(script: seq<Attempt>, baseName: string, saveFormat: string, flatten: Json -> FlatRecord)
    requires FetchSafe(PlainScrollSession(script).fetch)
    ensures AttemptAt(script, 0).Answered? ==>
      (FinancialOutcomeOf(script, baseName, saveFormat, flatten).Failed? <==> !Starts(AttemptAt(script, 0)))
    ensures FinancialOutcomeOf(script, baseName, saveFormat, flatten).Flattened? ==>
      FinancialOutcomeOf(script, baseName, saveFormat, flatten).frame.height == |PlainScrollSession(script).fetch.results|
    ensures NoClear(PlainScrollSession(script).requests)
  {
    PlainNeverClears(script);
    var fetch := PlainScrollSession(script).fetch;
    if fetch.Fetched? {
      FinancialFrameShape(fetch.results, flatten);
    }
  }

  /** Upper or mixed case `PARQUET` still selects parquet. */
  lemma SaveFormatCaseInsensitive(baseName: string, df: Frame, results: seq<Json>)
    ensures SavedAs(baseName, "PARQUET", df, results) == Parquet(baseName + ".parquet", df)
    ensures SavedAs(baseName, "Parquet", df, results) == Parquet(baseName + ".parquet", df)
    ensures SavedAs(baseName, "json", df, results) == JsonDump(baseName + ".json", results)
  {
    assert Lower("PARQUET") == "parquet";
    assert Lower("Parquet") == "parquet";
    assert Lower("json") != "parquet" by { assert Lower("json")[0] == 'j'; }
  }
}
