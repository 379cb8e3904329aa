/** The `main` of the two company-data scripts: post the query, scroll
    through the hits, and turn them into either the panel tables or one wide
    table.

    The newer script returns 22 named tables in panel mode; the older one
    returns 11, its single address table always built from
    `beliggenhedsadresse`. File writing and logging are left out; what `main`
    returns, the query it posts and the base name it would write under are
    kept. */
module Company {
  import opened Json
  import opened Frames
  import opened Panel
  import opened Nested
  import opened MainTable
  import opened Scroll
  import opened Queries

  /** One single-level panel table: its name, the list field it explodes
      and how an element becomes a row. */
  datatype Entry = Entry(table: string, listField: string, rule: Rule) {
    /** The field the call reads: `explode_virksomhedsform` and
        `explode_livsforloeb` take no field argument and read their own. */
    function field(): string {
      match rule
      case LegalForm => "virksomhedsform"
      case Lifecycle => "livsforloeb"
      case _ => listField
    }
  }

  /** The single-level tables of the newer script, in return order; `main`
      comes before them and the two nested tables after them. */
  const PanelPlan: seq<Entry> := [
    Entry("navne", "navne", Temporal(["navn"])),
    Entry("binavne", "binavne", Temporal(["navn"])),
    Entry("beliggenhedsadresse", "beliggenhedsadresse", Address),
    Entry("postadresse", "postadresse", Address),
    Entry("hovedbranche", "hovedbranche", Branch),
    Entry("bibranche1", "bibranche1", Branch),
    Entry("bibranche2", "bibranche2", Branch),
    Entry("bibranche3", "bibranche3", Branch),
    Entry("aarsbeskaeftigelse", "aarsbeskaeftigelse", Employment),
    Entry("kvartalsbeskaeftigelse", "kvartalsbeskaeftigelse", Employment),
    Entry("maanedsbeskaeftigelse", "maanedsbeskaeftigelse", Employment),
    Entry("virksomhedsstatus", "virksomhedsstatus", Temporal(["status"])),
    Entry("telefonNummer", "telefonNummer", Temporal(["kontaktoplysning"])),
    Entry("telefaxNummer", "telefaxNummer", Temporal(["kontaktoplysning"])),
    Entry("elektroniskPost", "elektroniskPost", Temporal(["kontaktoplysning"])),
    Entry("hjemmeside", "hjemmeside", Temporal(["kontaktoplysning"])),
    Entry("virksomhedsform", "virksomhedsform", LegalForm),
    Entry("regNummer", "regNummer", Temporal(["regnummer"])),
    Entry("livsforloeb", "livsforloeb", Lifecycle)]

  /** The single-level tables of the older script, after `main`. */
  const LegacyPanelPlan: seq<Entry> := [
    Entry("navne", "navne", Temporal(["navn"])),
    Entry("binavne", "binavne", Temporal(["navn"])),
    Entry("addresses", "beliggenhedsadresse", Address),
    Entry("hovedbranche", "hovedbranche", Branch),
    Entry("bibranche1", "bibranche1", Branch),
    Entry("bibranche2", "bibranche2", Branch),
    Entry("bibranche3", "bibranche3", Branch),
    Entry("aarsbeskaeftigelse", "aarsbeskaeftigelse", Employment),
    Entry("kvartalsbeskaeftigelse", "kvartalsbeskaeftigelse", Employment),
    Entry("maanedsbeskaeftigelse", "maanedsbeskaeftigelse", Employment)]

  type Table = (string, Frame)

  function TableNames(ts: seq<Table>): (ns: seq<string>)
    ensures |ns| == |ts|
    ensures forall k :: 0 <= k < |ts| ==> ns[k] == ts[k].0
  {
    seq(|ts|, k requires 0 <= k < |ts| => ts[k].0)
  }

  /** Every single-level table of a plan can be built from the hits. */
  predicate PlanSafe(hits: seq<Json>, plan: seq<Entry>) {
    forall k :: 0 <= k < |plan| ==> BatchSafe(hits, plan[k].field(), plan[k].rule)
  }

  /** The table an entry gives. */
  function EntryTable(hits: seq<Json>, e: Entry): Table
    requires BatchSafe(hits, e.field(), e.rule)
  {
    (e.table, Normalize(FlatRows(hits, e.field(), e.rule)))
  }

  /** The single-level tables a plan gives. */
  function PlanTables(hits: seq<Json>, plan: seq<Entry>): (ts: seq<Table>)
    requires PlanSafe(hits, plan)
    ensures |ts| == |plan|
  {
    seq(|plan|, k requires 0 <= k < |plan| && PlanSafe(hits, plan) => EntryTable(hits, plan[k]))
  }

  /** What the newer script needs of the hits to build its panel tables
      without a fault. */
  predicate PanelSafe(hits: seq<Json>, flatten: Json -> FlatRecord) {
    AllDicts(hits) && NoMetadataClash(hits, flatten) && PlanSafe(hits, PanelPlan)
    && BatchRelationsSafe(hits) && BatchAttributesSafe(hits)
  }

  predicate LegacyPanelSafe(hits: seq<Json>, flatten: Json -> FlatRecord) {
    AllDicts(hits) && NoMetadataClash(hits, flatten) && PlanSafe(hits, LegacyPanelPlan)
  }

  /** The newer script's panel tables. */
  function PanelTables(hits: seq<Json>, flatten: Json -> FlatRecord): seq<Table>
    requires PanelSafe(hits, flatten)
  {
    [("main", MainFrame(hits, flatten))] + PlanTables(hits, PanelPlan)
    + [("deltagerRelation", Normalize(DeltagerRows(hits))), ("attributter", Normalize(AttributterRows(hits)))]
  }

  /** The older script's panel tables. */
  function LegacyPanelTables(hits: seq<Json>, flatten: Json -> FlatRecord): seq<Table>
    requires LegacyPanelSafe(hits, flatten)
  {
    [("main", MainFrame(hits, flatten))] + PlanTables(hits, LegacyPanelPlan)
  }

  /** One single-level table: the `explode_*` call its rule selects, on its
      field. */
  method BuildEntry(hits: seq<Json>, e: Entry) returns (t: Table)
    requires BatchSafe(hits, e.field(), e.rule)
    ensures t == EntryTable(hits, e)
  {
    var df: Frame;
    match e.rule {
      case Temporal(valueCols) => df := ExplodeTemporalField(hits, e.listField, valueCols);
      case Address => df := ExplodeAddresses(hits, e.listField);
      case Branch => df := ExplodeBranches(hits, e.listField);
      case Employment => df := ExplodeEmployment(hits, e.listField);
      case LegalForm => df := ExplodeVirksomhedsform(hits);
      case Lifecycle => df := ExplodeLivsforloeb(hits);
    }
    t := (e.table, df);
  }

  /** Panel mode of the newer script: each table built by its own call, in
      the order the script returns them. */
  method BuildPanel(hits: seq<Json>, flatten: Json -> FlatRecord) returns (tables: seq<Table>)
    requires PanelSafe(hits, flatten)
    ensures tables == PanelTables(hits, flatten)
  {
    var dfMain := CreateMainDataframe(hits, flatten);
    var single := BuildPlan(hits, PanelPlan);
    var dfDeltagerRelation := ExplodeDeltagerRelation(hits);
    var dfAttributter := ExplodeAttributter(hits);
    tables := [("main", dfMain)] + single
      + [("deltagerRelation", dfDeltagerRelation), ("attributter", dfAttributter)];
  }

  /** Panel mode of the older script. */
  method BuildLegacyPanel(hits: seq<Json>, flatten: Json -> FlatRecord) returns (tables: seq<Table>)
    requires LegacyPanelSafe(hits, flatten)
    ensures tables == LegacyPanelTables(hits, flatten)
  {
    var dfMain := CreateMainDataframe(hits, flatten);
    var single := BuildPlan(hits, LegacyPanelPlan);
    tables := [("main", dfMain)] + single;
  }

  /** The single-level `explode_*` calls of `main`, one per entry of the
      plan, in the plan's order. */
  method BuildPlan(hits: seq<Json>, p: seq<Entry>) returns (single: seq<Table>)
    requires PlanSafe(hits, p)
    ensures single == PlanTables(hits, p)
  {
    single := [];
    var k := 0;
    while k < |p|
      invariant k <= |p|
      invariant single == PlanTables(hits, p)[..k]
    {
      var t := BuildEntry(hits, p[k]);
      single := single + [t];
      k := k + 1;
    }
  }

  /** The table names of the newer script, in return order. */
  const PanelNames: seq<string> := ["main", "navne", "binavne", "beliggenhedsadresse",
    "postadresse", "hovedbranche", "bibranche1", "bibranche2", "bibranche3",
    "aarsbeskaeftigelse", "kvartalsbeskaeftigelse", "maanedsbeskaeftigelse",
    "virksomhedsstatus", "telefonNummer", "telefaxNummer", "elektroniskPost",
    "hjemmeside", "virksomhedsform", "regNummer", "livsforloeb", "deltagerRelation",
    "attributter"]

  /** The table names of the older script, in return order. */
  const LegacyPanelNames: seq<string> := ["main", "navne", "binavne", "addresses",
    "hovedbranche", "bibranche1", "bibranche2", "bibranche3", "aarsbeskaeftigelse",
    "kvartalsbeskaeftigelse", "maanedsbeskaeftigelse"]

  /** Each table of a plan carries its entry's name and has one row per
      element of the entry's list field over all hits. */
  lemma PlanTablesShape(hits: seq<Json>, plan: seq<Entry>)
    requires PlanSafe(hits, plan)
    ensures forall k :: 0 <= k < |plan| ==>
      PlanTables(hits, plan)[k].0 == plan[k].table
      && PlanTables(hits, plan)[k].1.height == ItemCount(hits, plan[k].field())
  {
    forall k | 0 <= k < |plan|
      ensures PlanTables(hits, plan)[k].1.height == ItemCount(hits, plan[k].field())
    {
      FlatRowsCount(hits, plan[k].field(), plan[k].rule);
    }
  }

  /** The newer script returns `main` with one row per hit, then a table
      per plan entry with one row per element of that entry's list field
      over all hits, then the two nested tables. */
  lemma PanelShape(hits: seq<Json>, flatten: Json -> FlatRecord)
    requires PanelSafe(hits, flatten)
    ensures var ts := PanelTables(hits, flatten);
      |ts| == |PanelPlan| + 3 && ts[0].0 == "main" && ts[0].1.height == |hits|
      && ts[|PanelPlan| + 1].0 == "deltagerRelation" && ts[|PanelPlan| + 2].0 == "attributter"
      && forall k :: 0 <= k < |PanelPlan| ==>
           ts[k + 1].0 == PanelPlan[k].table && ts[k + 1].1.height == ItemCount(hits, PanelPlan[k].field())
  {
    var single := PlanTables(hits, PanelPlan);
    var nested := [("deltagerRelation", Normalize(DeltagerRows(hits))), ("attributter", Normalize(AttributterRows(hits)))];
    MainFrameShape(hits, flatten);
    PlanTablesShape(hits, PanelPlan);
    Placed(("main", MainFrame(hits, flatten)), single, nested);
  }

  /** Where each table lands when `main` is followed by the plan's tables
      and then further tables. */
  lemma Placed(main: Table, single: seq<Table>, rest: seq<Table>)
    ensures var ts := [main] + single + rest;
      |ts| == 1 + |single| + |rest| && ts[0] == main
      && (forall k :: 0 <= k < |single| ==> ts[k + 1] == single[k])
      && forall k :: 0 <= k < |rest| ==> ts[1 + |single| + k] == rest[k]
  {
  }

  /** The older script returns `main`, then a table per plan entry. */
  lemma LegacyPanelShape(hits: seq<Json>, flatten: Json -> FlatRecord)
    requires LegacyPanelSafe(hits, flatten)
    ensures var ts := LegacyPanelTables(hits, flatten);
      |ts| == |LegacyPanelPlan| + 1 && ts[0].0 == "main" && ts[0].1.height == |hits|
      && forall k :: 0 <= k < |LegacyPanelPlan| ==>
           ts[k + 1].0 == LegacyPanelPlan[k].table && ts[k + 1].1.height == ItemCount(hits, LegacyPanelPlan[k].field())
  {
    MainFrameShape(hits, flatten);
    PlanTablesShape(hits, LegacyPanelPlan);
  }

  /** The older script's only address table explodes `beliggenhedsadresse`. */
  lemma LegacyAddressTable(hits: seq<Json>, flatten: Json -> FlatRecord)
    requires LegacyPanelSafe(hits, flatten)
    ensures BatchSafe(hits, "beliggenhedsadresse", Address)
    ensures LegacyPanelTables(hits, flatten)[3] == ("addresses", Normalize(FlatRows(hits, "beliggenhedsadresse", Address)))
  {
    var e := LegacyPanelPlan[2];
    assert e == Entry("addresses", "beliggenhedsadresse", Address);
    assert LegacyPanelTables(hits, flatten)[3] == PlanTables(hits, LegacyPanelPlan)[2];
  }

  /** The table names of a plan, in order. */
  function PlanNames(plan: seq<Entry>): (ns: seq<string>)
    ensures |ns| == |plan|
    ensures forall k :: 0 <= k < |plan| ==> ns[k] == plan[k].table
  {
    seq(|plan|, k requires 0 <= k < |plan| => plan[k].table)
  }

  lemma PlanNamesListed()
    ensures ["main"] + PlanNames(PanelPlan) + ["deltagerRelation", "attributter"] == PanelNames
    ensures ["main"] + PlanNames(LegacyPanelPlan) == LegacyPanelNames
  {
  }

  lemma TableNamesAppend(a: seq<Table>, b: seq<Table>)
    ensures TableNames(a + b) == TableNames(a) + TableNames(b)
  {
  }

  lemma PlanTableNames(hits: seq<Json>, plan: seq<Entry>)
    requires PlanSafe(hits, plan)
    ensures TableNames(PlanTables(hits, plan)) == PlanNames(plan)
  {
  }

  lemma PanelTableNames(hits: seq<Json>, flatten: Json -> FlatRecord)
    requires PanelSafe(hits, flatten)
    ensures |PanelTables(hits, flatten)| == 22
    ensures TableNames(PanelTables(hits, flatten)) == PanelNames
  {
    var ts := PanelTables(hits, flatten);
    var main := [("main", MainFrame(hits, flatten))];
    var single := PlanTables(hits, PanelPlan);
    var nested := [("deltagerRelation", Normalize(DeltagerRows(hits))), ("attributter", Normalize(AttributterRows(hits)))];
    TableNamesAppend(main, single);
    TableNamesAppend(main + single, nested);
    PlanTableNames(hits, PanelPlan);
    assert TableNames(main) == ["main"];
    assert TableNames(nested) == ["deltagerRelation", "attributter"];
    PlanNamesListed();
  }

  lemma LegacyPanelTableNames(hits: seq<Json>, flatten: Json -> FlatRecord)
    requires LegacyPanelSafe(hits, flatten)
    ensures |LegacyPanelTables(hits, flatten)| == 11
    ensures TableNames(LegacyPanelTables(hits, flatten)) == LegacyPanelNames
  {
    var main := [("main", MainFrame(hits, flatten))];
    TableNamesAppend(main, PlanTables(hits, LegacyPanelPlan));
    PlanTableNames(hits, LegacyPanelPlan);
    assert TableNames(main) == ["main"];
    PlanNamesListed();
  }

  /** What `main` returns: nothing (the scroll gave no result), the panel
      tables, or the wide table. */
  datatype Output = NoOutput | PanelOutput(tables: seq<Table>) | WideOutput(frame: Frame)

  /** What the newer script needs of whatever the scroll returns. */
  predicate ResultSafe(results: Option<seq<Json>>, mode: string, flatten: Json -> FlatRecord) {
    results.Some? ==> if mode == "panel" then PanelSafe(results.value, flatten) else AllDicts(results.value)
  }

  function DownloadOutput(script: seq<Attempt>, mode: string, flatten: Json -> FlatRecord): Output
    requires ResultSafe(RetrySession(script).results, mode, flatten)
  {
    var results := RetrySession(script).results;
    if results.None? then NoOutput
    else if mode == "panel" then PanelOutput(PanelTables(results.value, flatten))
    else WideOutput(WideFrame(results.value, flatten))
  }

  /** The newer script's `main`: the query and base name for `year`, the
      scroll with retries and cleanup, then panel or wide output. */
  method Download(script: seq<Attempt>, name: string, size: int, year: Option<int>, mode: string, flatten: Json -> FlatRecord)
    returns (query: SearchBody, baseName: string, out: Output, requests: seq<Request>)
    requires ResultSafe(RetrySession(script).results, mode, flatten)
    ensures query == CompanyQuery(size, year) && baseName == OutputBaseName(name, year)
    ensures requests == RetrySession(script).requests
    ensures out == DownloadOutput(script, mode, flatten)
  {
    query := CompanyQuery(size, year);
    baseName := OutputBaseName(name, year);
    var results;
    results, requests := ScrollWithRetry(script);
    if results.None? {
      return query, baseName, NoOutput, requests;
    }
    if mode == "panel" {
      var tables := BuildPanel(results.value, flatten);
      out := PanelOutput(tables);
    } else {
      var df := FlattenPermanentDataWide(results.value, flatten);
      out := WideOutput(df);
    }
  }

  /** What the older script's `main` ends with: an exception out of a
      failed request, or its output. */
  datatype LegacyOutcome = RaisedOut | Returned(out: Output)

  predicate LegacyResultSafe(fetch: Fetch, mode: string, flatten: Json -> FlatRecord) {
    fetch.Fetched? ==> if mode == "panel" then LegacyPanelSafe(fetch.results, flatten) else AllDicts(fetch.results)
  }

  function LegacyDownloadOutcome(script: seq<Attempt>, mode: string, flatten: Json -> FlatRecord): LegacyOutcome
    requires LegacyResultSafe(PlainScrollSession(script).fetch, mode, flatten)
  {
    var fetch := PlainScrollSession(script).fetch;
    match fetch
    case Raised => RaisedOut
    case NoData => Returned(NoOutput)
    case Fetched(results) =>
      if mode == "panel" then Returned(PanelOutput(LegacyPanelTables(results, flatten)))
      else Returned(WideOutput(WideFrame(results, flatten)))
  }

  /** The older script's `main`. */
  method LegacyDownload(script: seq<Attempt>, name: string, size: int, year: Option<int>, mode: string, flatten: Json -> FlatRecord)
    returns (query: SearchBody, baseName: string, outcome: LegacyOutcome, requests: seq<Request>)
    requires LegacyResultSafe(PlainScrollSession(script).fetch, mode, flatten)
    ensures query == LegacyCompanyQuery(size, year) && baseName == OutputBaseName(name, year)
    ensures requests == PlainScrollSession(script).requests
    ensures outcome == LegacyDownloadOutcome(script, mode, flatten)
  {
    query := LegacyCompanyQuery(size, year);
    baseName := OutputBaseName(name, year);
    var fetch;
    fetch, requests := PlainScroll(script);
    if fetch.Raised? {
      return query, baseName, RaisedOut, requests;
    }
    if fetch.NoData? {
      return query, baseName, Returned(NoOutput), requests;
    }
    if mode == "panel" {
      var tables := BuildLegacyPanel(fetch.results, flatten);
      outcome := Returned(PanelOutput(tables));
    } else {
      var df := FlattenPermanentDataWide(fetch.results, flatten);
      outcome := Returned(WideOutput(df));
    }
  }

  /** A download whose first search fails returns nothing in either mode,
      and a scroll that does return gives 22 panel tables or one wide table
      with a row per hit. */
  lemma DownloadOutputShape(script: seq<Attempt>, mode: string, flatten: Json -> FlatRecord)
    requires ResultSafe(RetrySession(script).results, mode, flatten)
    ensures DownloadOutput(script, mode, flatten).NoOutput? <==> !Starts(AttemptAt(script, 0))
    ensures mode == "panel" && Starts(AttemptAt(script, 0)) ==>
      TableNames(DownloadOutput(script, mode, flatten).tables) == PanelNames
    ensures mode != "panel" && Starts(AttemptAt(script, 0)) ==>
      DownloadOutput(script, mode, flatten).frame.height == |RetrySession(script).results.value|
  {
    var results := RetrySession(script).results;
    if results.Some? {
      if mode == "panel" {
        PanelTableNames(results.value, flatten);
      } else {
        WideFrameShape(results.value, flatten);
      }
    }
  }
}
