/** The main company table and the wide flat table of the company script
    (`create_main_dataframe` and `flatten_permanent_data_wide`, identical in
    both variants of the script).

    Both start from the hits of the search: the `_source` of each hit is
    flattened for the data columns, the whole hit for the metadata columns.
    The flattening itself is pandas' and comes in as the parameter `flatten`. */
module MainTable {
  import opened Json
  import opened Frames

  predicate AllDicts(hits: seq<Json>) {
    forall i :: 0 <= i < |hits| ==> hits[i].JDict?
  }

  /** `[record.get("_source", {}) for record in json_data]`, flattened */
  function SourceRecords(hits: seq<Json>, flatten: Json -> FlatRecord): (rs: seq<FlatRecord>)
    requires AllDicts(hits)
    ensures |rs| == |hits|
  {
    seq(|hits|, i requires 0 <= i < |hits| => flatten(Get(hits[i], "_source", EmptyDict)))
  }

  /** `pd.json_normalize(json_data, sep='_')`: the whole hits, flattened */
  function HitRecords(hits: seq<Json>, flatten: Json -> FlatRecord): (rs: seq<FlatRecord>)
    ensures |rs| == |hits|
  {
    seq(|hits|, i requires 0 <= i < |hits| => flatten(hits[i]))
  }

  function SourceFrame(hits: seq<Json>, flatten: Json -> FlatRecord): Frame
    requires AllDicts(hits)
  {
    Normalize(SourceRecords(hits, flatten))
  }

  function MetaFrame(hits: seq<Json>, flatten: Json -> FlatRecord): Frame {
    Normalize(HitRecords(hits, flatten))
  }

  /** The names of the metadata columns of the hits' frame. */
  function MetadataNames(hits: seq<Json>, flatten: Json -> FlatRecord): seq<string> {
    Names(MetadataColumns(MetaFrame(hits, flatten).columns))
  }

  /** The columns that hold no list in any row, in frame order. */
  function ScalarColumns(cols: seq<Column>): (ks: seq<Column>)
    ensures forall c :: c in ks <==> c in cols && !HoldsList(c)
  {
    if cols == [] then []
    else
      var last := cols[|cols| - 1];
      ScalarColumns(cols[..|cols| - 1]) + (if HoldsList(last) then [] else [last])
  }

  function Reverse<T>(s: seq<T>): (r: seq<T>)
    ensures |r| == |s|
    ensures forall i :: 0 <= i < |s| ==> r[i] == s[|s| - 1 - i]
  {
    if s == [] then [] else [s[|s| - 1]] + Reverse(s[..|s| - 1])
  }

  /** `df_main.insert(0, col, ...)` raises when the frame already has the
      column: no metadata name may also be a scalar data path. */
  predicate NoMetadataClash(hits: seq<Json>, flatten: Json -> FlatRecord)
    requires AllDicts(hits)
  {
    forall n :: n in MetadataNames(hits, flatten) ==> n !in Names(ScalarColumns(SourceFrame(hits, flatten).columns))
  }

  /** The main table: the metadata columns, each inserted at the front in
      turn, then the scalar data columns. */
  function MainFrame(hits: seq<Json>, flatten: Json -> FlatRecord): Frame
    requires AllDicts(hits)
  {
    Frame(|hits|, Reverse(MetadataColumns(MetaFrame(hits, flatten).columns))
                  + ScalarColumns(SourceFrame(hits, flatten).columns))
  }

  /** `create_main_dataframe`: a first pass over the flattened columns picks
      those without lists, then the metadata columns are inserted at
      position 0 one after the other. */
  method CreateMainDataframe(hits: seq<Json>, flatten: Json -> FlatRecord) returns (df: Frame)
    requires AllDicts(hits)
    requires NoMetadataClash(hits, flatten)
    ensures df == MainFrame(hits, flatten)
  {
    var rs := SourceRecords(hits, flatten);
    var flat := Normalize(rs);
    PathsSpec(rs);
    var simpleCols := SimpleColumnNames(flat.columns);
    SelectOwnNames(flat.columns, ScalarColumns(flat.columns));
    var dfCols := Select(flat.columns, simpleCols);

    var metadataDf := Normalize(HitRecords(hits, flatten));
    PathsSpec(HitRecords(hits, flatten));
    dfCols := InsertMetadataColumns(metadataDf.columns, dfCols);
    df := Frame(flat.height, dfCols);
  }

  /** The names of the columns without lists, in frame order. */
  method SimpleColumnNames(cols: seq<Column>) returns (simpleCols: seq<string>)
    ensures simpleCols == Names(ScalarColumns(cols))
  {
    simpleCols := [];
    var i := 0;
    while i < |cols|
      invariant 0 <= i <= |cols|
      invariant simpleCols == Names(ScalarColumns(cols[..i]))
    {
      ScalarColumnsStep(cols, i);
      if !HoldsList(cols[i]) {
        simpleCols := simpleCols + [cols[i].name];
      }
      i := i + 1;
    }
    assert cols[..i] == cols;
  }

  /** Inserts each metadata column of `metaCols` at the front of `base`, in
      the order they appear in `metaCols`. */
  method InsertMetadataColumns(metaCols: seq<Column>, base: seq<Column>) returns (dfCols: seq<Column>)
    requires Distinct(Names(metaCols))
    ensures dfCols == Reverse(MetadataColumns(metaCols)) + base
  {
    var metas := MetadataColumns(metaCols);
    var metadataCols := Names(metas);
    dfCols := base;
    var k := 0;
    while k < |metadataCols|
      invariant 0 <= k <= |metadataCols|
      invariant dfCols == Reverse(metas[..k]) + base
    {
      var col := metadataCols[k];
      InsertStep(metaCols, base, k);
      dfCols := [Column(col, ColumnNamed(metaCols, col).cells)] + dfCols;
      k := k + 1;
    }
    assert metas[..k] == metas;
  }

  /** One insertion at the front extends the reversed prefix by one column. */
  lemma InsertStep(metaCols: seq<Column>, base: seq<Column>, k: nat)
    requires Distinct(Names(metaCols)) && k < |MetadataColumns(metaCols)|
    ensures var metas := MetadataColumns(metaCols);
      var n := Names(metas)[k];
      n in Names(metaCols)
      && [Column(n, ColumnNamed(metaCols, n).cells)] + (Reverse(metas[..k]) + base) == Reverse(metas[..k + 1]) + base
  {
    var metas := MetadataColumns(metaCols);
    MetadataColumnFound(metaCols, k);
    ReverseStep(metas, k);
    ConsAppend(metas[k], Reverse(metas[..k]), base, Reverse(metas[..k + 1]));
  }

  lemma ConsAppend<T>(x: T, a: seq<T>, b: seq<T>, r: seq<T>)
    requires r == [x] + a
    ensures [x] + (a + b) == r + b
  {
  }

  /** Looking a metadata column up by its name finds that column. */
  lemma MetadataColumnFound(metaCols: seq<Column>, k: nat)
    requires Distinct(Names(metaCols)) && k < |MetadataColumns(metaCols)|
    ensures var m := MetadataColumns(metaCols)[k];
      m.name in Names(metaCols) && Column(m.name, ColumnNamed(metaCols, m.name).cells) == m
  {
    var metas := MetadataColumns(metaCols);
    assert metas[k] in metas;
    ColumnNamedFinds(metaCols, metas[k]);
  }

  lemma ScalarColumnsStep(cols: seq<Column>, i: nat)
    requires i < |cols|
    ensures ScalarColumns(cols[..i + 1]) == ScalarColumns(cols[..i]) + (if HoldsList(cols[i]) then [] else [cols[i]])
  {
    assert cols[..i + 1][..i] == cols[..i];
  }

  lemma ReverseStep<T>(s: seq<T>, k: nat)
    requires k < |s|
    ensures Reverse(s[..k + 1]) == [s[k]] + Reverse(s[..k])
  {
    assert s[..k + 1][..k] == s[..k];
  }

  /** The main table has one row per hit and every column is complete. */
  lemma MainFrameShape(hits: seq<Json>, flatten: Json -> FlatRecord)
    requires AllDicts(hits)
    ensures MainFrame(hits, flatten).height == |hits|
    ensures WellFormed(MainFrame(hits, flatten))
  {
    var f := MainFrame(hits, flatten);
    var metas := MetadataColumns(MetaFrame(hits, flatten).columns);
    forall c | c in f.columns ensures |c.cells| == |hits| {
      if c in Reverse(metas) {
        var i :| 0 <= i < |metas| && Reverse(metas)[i] == c;
        assert metas[|metas| - 1 - i] in metas;
      }
    }
  }

  /** Picking the scalar columns of a frame with distinct names keeps the
      names distinct. */
  lemma {:induction false} ScalarColumnsDistinct(cols: seq<Column>)
    requires Distinct(Names(cols))
    ensures Distinct(Names(ScalarColumns(cols)))
    decreases |cols|
  {
    if cols != [] {
      var init := cols[..|cols| - 1];
      var last := cols[|cols| - 1];
      assert Distinct(Names(init)) by {
        assert forall j :: 0 <= j < |init| ==> Names(init)[j] == Names(cols)[j];
      }
      ScalarColumnsDistinct(init);
      var ks := ScalarColumns(init);
      forall j | 0 <= j < |ks| ensures ks[j].name != last.name {
        assert ks[j] in init;
        var m :| 0 <= m < |init| && init[m] == ks[j];
        assert Names(cols)[m] != Names(cols)[|cols| - 1];
      }
    }
  }

  /** Over a batch of flat records: a path gives a scalar column exactly when
      some record has it and no record holds a list there. */
  lemma ScalarPathsOf(rs: seq<FlatRecord>, p: string)
    ensures p in Names(ScalarColumns(Normalize(rs).columns))
      <==> (exists i :: 0 <= i < |rs| && Lookup(rs[i], p) != Missing)
           && (forall i :: 0 <= i < |rs| ==> !IsListCell(Lookup(rs[i], p)))
  {
    if p in Names(ScalarColumns(Normalize(rs).columns)) {
      ScalarPathHeld(rs, p);
    }
    if (exists i :: 0 <= i < |rs| && Lookup(rs[i], p) != Missing)
       && (forall i :: 0 <= i < |rs| ==> !IsListCell(Lookup(rs[i], p))) {
      ScalarPathKept(rs, p);
    }
  }

  /** A scalar column's path is one some record has, and no record holds a
      list there. */
  lemma ScalarPathHeld(rs: seq<FlatRecord>, p: string)
    requires p in Names(ScalarColumns(Normalize(rs).columns))
    ensures exists i :: 0 <= i < |rs| && Lookup(rs[i], p) != Missing
    ensures forall i :: 0 <= i < |rs| ==> !IsListCell(Lookup(rs[i], p))
  {
    var cols := Normalize(rs).columns;
    PathsSpec(rs);
    var ks := ScalarColumns(cols);
    var j :| 0 <= j < |ks| && ks[j].name == p;
    assert ks[j] in cols;
    var m :| 0 <= m < |cols| && cols[m] == ks[j];
    assert Paths(rs)[m] == p;
    assert p in Paths(rs);
    forall i | 0 <= i < |rs| ensures !IsListCell(Lookup(rs[i], p)) {
      assert cols[m].cells[i] == Lookup(rs[i], p);
    }
  }

  /** A path some record has and none holds a list at gives a scalar
      column. */
  lemma ScalarPathKept(rs: seq<FlatRecord>, p: string)
    requires exists i :: 0 <= i < |rs| && Lookup(rs[i], p) != Missing
    requires forall i :: 0 <= i < |rs| ==> !IsListCell(Lookup(rs[i], p))
    ensures p in Names(ScalarColumns(Normalize(rs).columns))
  {
    var cols := Normalize(rs).columns;
    PathsSpec(rs);
    var ks := ScalarColumns(cols);
    assert p in Paths(rs);
    var m :| 0 <= m < |Paths(rs)| && Paths(rs)[m] == p;
    assert cols[m] == ColumnFor(rs, p);
    assert cols[m] in ks;
    var j :| 0 <= j < |ks| && ks[j] == cols[m];
    assert Names(ks)[j] == p;
  }

  /** Over a batch of flat records: the scalar column named `p` holds the
      records' values at `p`, row by row. */
  lemma ScalarColumnContent(rs: seq<FlatRecord>, p: string)
    requires p in Names(ScalarColumns(Normalize(rs).columns))
    ensures ColumnNamed(ScalarColumns(Normalize(rs).columns), p) == ColumnFor(rs, p)
  {
    var cols := Normalize(rs).columns;
    PathsSpec(rs);
    var ks := ScalarColumns(cols);
    var j :| 0 <= j < |ks| && ks[j].name == p;
    assert ks[j] in cols;
    var m :| 0 <= m < |cols| && cols[m] == ks[j];
    assert cols[m] == ColumnFor(rs, p);
    ScalarColumnsDistinct(cols);
    ColumnNamedFinds(ks, ks[j]);
  }

  /** A source path gives a main-table data column exactly when some hit has
      it and no hit holds a list there; that column's cells are the hits'
      values at that path, row by row. */
  lemma MainKeepsScalarPaths(hits: seq<Json>, flatten: Json -> FlatRecord, p: string)
    requires AllDicts(hits)
    ensures var rs := SourceRecords(hits, flatten);
      (p in Names(ScalarColumns(SourceFrame(hits, flatten).columns))
       <==> (exists i :: 0 <= i < |rs| && Lookup(rs[i], p) != Missing)
            && (forall i :: 0 <= i < |rs| ==> !IsListCell(Lookup(rs[i], p))))
    ensures p in Names(ScalarColumns(SourceFrame(hits, flatten).columns)) ==>
      ColumnNamed(ScalarColumns(SourceFrame(hits, flatten).columns), p) == ColumnFor(SourceRecords(hits, flatten), p)
  {
    var rs := SourceRecords(hits, flatten);
    ScalarPathsOf(rs, p);
    if p in Names(ScalarColumns(Normalize(rs).columns)) {
      ScalarColumnContent(rs, p);
    }
  }

  /** The metadata columns come first, in the reverse of their order among
      the hits' columns, because each is inserted at position 0. */
  lemma MetadataFirstReversed(hits: seq<Json>, flatten: Json -> FlatRecord)
    requires AllDicts(hits)
    ensures var m := |MetadataNames(hits, flatten)|;
      m <= |MainFrame(hits, flatten).columns|
      && Names(MainFrame(hits, flatten).columns[..m]) == Reverse(MetadataNames(hits, flatten))
      && forall j :: 0 <= j < m ==> IsMetadataName(MainFrame(hits, flatten).columns[j].name)
  {
    var metas := MetadataColumns(MetaFrame(hits, flatten).columns);
    var rev := Reverse(metas);
    var f := MainFrame(hits, flatten);
    assert f.columns == rev + ScalarColumns(SourceFrame(hits, flatten).columns);
    assert f.columns[..|metas|] == rev;
    NamesReverse(metas);
    ReverseKeepsMetadata(metas);
  }

  lemma NamesReverse(cols: seq<Column>)
    ensures Names(Reverse(cols)) == Reverse(Names(cols))
  {
  }

  lemma ReverseKeepsMetadata(ms: seq<Column>)
    requires forall c :: c in ms ==> IsMetadataName(c.name)
    ensures forall j :: 0 <= j < |ms| ==> IsMetadataName(Reverse(ms)[j].name)
  {
    forall j | 0 <= j < |ms| ensures IsMetadataName(Reverse(ms)[j].name) {
      assert ms[|ms| - 1 - j] in ms;
    }
  }

  /** `json.dumps(x) if isinstance(x, list) else x` */
  function EncodeCell(c: Cell): Cell {
    if IsListCell(c) then Dumped(c.v) else c
  }

  function EncodeColumn(col: Column): Column {
    Column(col.name, seq(|col.cells|, k requires 0 <= k < |col.cells| => EncodeCell(col.cells[k])))
  }

  /** The data columns of the wide table: a column that holds a list anywhere
      has its list cells replaced by their JSON text; other columns are kept. */
  function EncodeLists(cols: seq<Column>): (es: seq<Column>)
    ensures |es| == |cols|
  {
    seq(|cols|, i requires 0 <= i < |cols| => if HoldsList(cols[i]) then EncodeColumn(cols[i]) else cols[i])
  }

  /** The wide table: metadata columns in their own order, then the data
      columns with list cells encoded. */
  function WideFrame(hits: seq<Json>, flatten: Json -> FlatRecord): Frame
    requires AllDicts(hits)
  {
    Frame(|hits|, MetadataColumns(MetaFrame(hits, flatten).columns) + EncodeLists(SourceFrame(hits, flatten).columns))
  }

  /** `flatten_permanent_data_wide`: rewrites, column by column, the columns
      that hold a list, then puts the metadata columns in front. */
  method FlattenPermanentDataWide(hits: seq<Json>, flatten: Json -> FlatRecord) returns (df: Frame)
    requires AllDicts(hits)
    ensures df == WideFrame(hits, flatten)
  {
    var flattened := Normalize(SourceRecords(hits, flatten));
    var cols := flattened.columns;
    var i := 0;
    while i < |cols|
      invariant 0 <= i <= |cols| == |flattened.columns|
      invariant forall j :: 0 <= j < i ==> cols[j] == EncodeLists(flattened.columns)[j]
      invariant forall j :: i <= j < |cols| ==> cols[j] == flattened.columns[j]
    {
      if HoldsList(cols[i]) {
        cols := cols[i := EncodeColumn(cols[i])];
      }
      i := i + 1;
    }
    assert cols == EncodeLists(flattened.columns);
    var metadataDf := Normalize(HitRecords(hits, flatten));
    PathsSpec(HitRecords(hits, flatten));
    var metas := MetadataColumns(metadataDf.columns);
    var metadataCols := Names(metas);
    if metadataCols != [] {
      SelectOwnNames(metadataDf.columns, metas);
      df := Frame(|hits|, Select(metadataDf.columns, metadataCols) + cols);
    } else {
      df := Frame(|hits|, cols);
    }
  }

  /** Only list-holding columns change: names stay, a column without lists is
      kept as it is, and in a column with lists exactly the list cells become
      their JSON text. */
  lemma WideChangesOnlyListColumns(cols: seq<Column>, i: nat)
    requires i < |cols|
    ensures EncodeLists(cols)[i].name == cols[i].name
    ensures |EncodeLists(cols)[i].cells| == |cols[i].cells|
    ensures !HoldsList(cols[i]) ==> EncodeLists(cols)[i] == cols[i]
    ensures forall k :: 0 <= k < |cols[i].cells| ==>
      EncodeLists(cols)[i].cells[k] == (if IsListCell(cols[i].cells[k]) then Dumped(cols[i].cells[k].v) else cols[i].cells[k])
  {
  }

  /** Encoding leaves no list behind, so it is idempotent; on list-free data
      it is the identity. */
  lemma WideEncodingIdempotent(cols: seq<Column>)
    ensures forall i :: 0 <= i < |cols| ==> !HoldsList(EncodeLists(cols)[i])
    ensures EncodeLists(EncodeLists(cols)) == EncodeLists(cols)
    ensures (forall i :: 0 <= i < |cols| ==> !HoldsList(cols[i])) ==> EncodeLists(cols) == cols
  {
  }

  /** The wide table has one row per hit and its metadata columns precede
      the data columns. */
  lemma WideFrameShape(hits: seq<Json>, flatten: Json -> FlatRecord)
    requires AllDicts(hits)
    ensures WideFrame(hits, flatten).height == |hits|
    ensures WellFormed(WideFrame(hits, flatten))
    ensures var m := |MetadataNames(hits, flatten)|;
      Names(WideFrame(hits, flatten).columns[..m]) == MetadataNames(hits, flatten)
      && Names(WideFrame(hits, flatten).columns[m..]) == Names(SourceFrame(hits, flatten).columns)
  {
    var f := WideFrame(hits, flatten);
    var metas := MetadataColumns(MetaFrame(hits, flatten).columns);
    var src := SourceFrame(hits, flatten).columns;
    assert f.columns[..|metas|] == metas;
    assert f.columns[|metas|..] == EncodeLists(src);
    forall c | c in f.columns ensures |c.cells| == |hits| {
      if c in EncodeLists(src) {
        var i :| 0 <= i < |src| && EncodeLists(src)[i] == c;
        assert src[i] in src;
      }
    }
  }
}
