/** Data frames over path-joined flattened records.

    `pd.json_normalize(records, sep='_')` turns each nested dict into one flat
    record of (column path, leaf value) pairs; how it walks the nesting is
    pandas' business and is not modelled: a caller passes the flattening in as
    a function. What is modelled is how flat records become a frame: the
    columns are the paths in order of first appearance across the records, and
    a record without a path has a missing (NaN) cell there. */
module Frames {
  import opened Json

  /** One record after flattening: (column path, leaf value) pairs. */
  type FlatRecord = seq<(string, Json)>

  /** A frame cell: missing (NaN), a leaf value, or the `json.dumps` text of a
      list value, kept symbolically as the list it encodes. */
  datatype Cell = Missing | Val(v: Json) | Dumped(list: Json)

  datatype Column = Column(name: string, cells: seq<Cell>)

  datatype Frame = Frame(height: nat, columns: seq<Column>)

  /** Every column has one cell per row. */
  predicate WellFormed(f: Frame) {
    forall c :: c in f.columns ==> |c.cells| == f.height
  }

  function Names(cols: seq<Column>): (ns: seq<string>)
    ensures |ns| == |cols|
    ensures forall i :: 0 <= i < |cols| ==> ns[i] == cols[i].name
  {
    seq(|cols|, i requires 0 <= i < |cols| => cols[i].name)
  }

  predicate Distinct(s: seq<string>) {
    forall i, j :: 0 <= i < j < |s| ==> s[i] != s[j]
  }

  /** The cell a flat record gives a column: the value of its first pair with
      that path, or missing. The row dicts the scripts build have distinct
      keys, so the first pair is the only one. Where flattening makes two
      paths collide (a key "a.b" beside a nested "a": {"b": ..}), a Python
      dict keeps the last value instead; that case is left to `flatten`. */
  function Lookup(r: FlatRecord, path: string): Cell {
    if r == [] then Missing
    else if r[0].0 == path then Val(r[0].1)
    else Lookup(r[1..], path)
  }

  /** `seen` extended with the paths of `r` it lacks, in order. */
  function AddPaths(seen: seq<string>, r: FlatRecord): seq<string>
    decreases |r|
  {
    if r == [] then seen
    else AddPaths(if r[0].0 in seen then seen else seen + [r[0].0], r[1..])
  }

  /** Looking a path up in two records laid end to end finds it in the first
      when it is there, else in the second. */
  lemma {:induction false} LookupAppend(a: FlatRecord, b: FlatRecord, path: string)
    ensures Lookup(a + b, path) == if Lookup(a, path) != Missing then Lookup(a, path) else Lookup(b, path)
    decreases |a|
  {
    if a == [] {
      assert a + b == b;
    } else {
      assert (a + b)[0] == a[0];
      assert (a + b)[1..] == a[1..] + b;
      LookupAppend(a[1..], b, path);
    }
  }

  /** The cell of the first pair with a given path. */
  lemma {:induction false} LookupAt(r: FlatRecord, j: nat, path: string)
    requires j < |r| && r[j].0 == path
    requires forall i :: 0 <= i < j ==> r[i].0 != path
    ensures Lookup(r, path) == Val(r[j].1)
    decreases j
  {
    if j > 0 {
      LookupAt(r[1..], j - 1, path);
    }
  }

  /** A path no pair has is missing. */
  lemma {:induction false} LookupAbsent(r: FlatRecord, path: string)
    requires forall i :: 0 <= i < |r| ==> r[i].0 != path
    ensures Lookup(r, path) == Missing
    decreases |r|
  {
    if r != [] {
      LookupAbsent(r[1..], path);
    }
  }

  /** The column paths of a batch of flat records, in order of first appearance. */
  function Paths(rs: seq<FlatRecord>): seq<string> {
    if rs == [] then [] else AddPaths(Paths(rs[..|rs| - 1]), rs[|rs| - 1])
  }

  lemma {:induction false} AddPathsSpec(seen: seq<string>, r: FlatRecord)
    requires Distinct(seen)
    ensures Distinct(AddPaths(seen, r))
    ensures forall p :: p in AddPaths(seen, r) <==> p in seen || Lookup(r, p) != Missing
    decreases |r|
  {
    if r != [] {
      var seen' := if r[0].0 in seen then seen else seen + [r[0].0];
      AddPathsSpec(seen', r[1..]);
    }
  }

  /** The frame's columns are exactly the paths some record has, each once. */
  lemma {:induction false} PathsSpec(rs: seq<FlatRecord>)
    ensures Distinct(Paths(rs))
    ensures forall p :: p in Paths(rs) <==> exists i :: 0 <= i < |rs| && Lookup(rs[i], p) != Missing
    decreases |rs|
  {
    if rs != [] {
      var init := rs[..|rs| - 1];
      PathsSpec(init);
      AddPathsSpec(Paths(init), rs[|rs| - 1]);
      forall p ensures p in Paths(rs) <==> exists i :: 0 <= i < |rs| && Lookup(rs[i], p) != Missing {
        if p in Paths(rs) && Lookup(rs[|rs| - 1], p) == Missing {
          var i :| 0 <= i < |init| && Lookup(init[i], p) != Missing;
          assert rs[i] == init[i];
        }
        if exists i :: 0 <= i < |rs| && Lookup(rs[i], p) != Missing {
          var i :| 0 <= i < |rs| && Lookup(rs[i], p) != Missing;
          if i < |init| {
            assert init[i] == rs[i];
          }
        }
      }
    }
  }

  /** The column `path` of a batch: one cell per record. */
  function ColumnFor(rs: seq<FlatRecord>, path: string): Column {
    Column(path, seq(|rs|, i requires 0 <= i < |rs| => Lookup(rs[i], path)))
  }

  /** The frame `json_normalize` builds from already-flattened records. */
  function Normalize(rs: seq<FlatRecord>): (f: Frame)
    ensures WellFormed(f) && f.height == |rs|
    ensures Names(f.columns) == Paths(rs)
  {
    var ps := Paths(rs);
    Frame(|rs|, seq(|ps|, j requires 0 <= j < |ps| => ColumnFor(rs, ps[j])))
  }

  /** `df[name]`: the first column with that name. */
  function ColumnNamed(cols: seq<Column>, name: string): Column
    requires name in Names(cols)
  {
    if cols[0].name == name then cols[0] else ColumnNamed(cols[1..], name)
  }

  /** `df[names]`: the columns with the given names, in the order of `names`. */
  function Select(cols: seq<Column>, names: seq<string>): seq<Column>
    requires forall n :: n in names ==> n in Names(cols)
  {
    seq(|names|, i requires 0 <= i < |names| => ColumnNamed(cols, names[i]))
  }

  lemma {:induction false} ColumnNamedFinds(cols: seq<Column>, c: Column)
    requires Distinct(Names(cols)) && c in cols
    ensures c.name in Names(cols) && ColumnNamed(cols, c.name) == c
    decreases |cols|
  {
    if cols[0] != c {
      assert Names(cols[1..]) == Names(cols)[1..];
      ColumnNamedFinds(cols[1..], c);
    }
  }

  /** Selecting by name a sub-list of columns of a frame with distinct names
      gives back that sub-list. */
  lemma SelectOwnNames(cols: seq<Column>, keep: seq<Column>)
    requires Distinct(Names(cols))
    requires forall c :: c in keep ==> c in cols
    ensures forall n :: n in Names(keep) ==> n in Names(cols)
    ensures Select(cols, Names(keep)) == keep
  {
    forall i | 0 <= i < |keep| ensures keep[i].name in Names(cols) && ColumnNamed(cols, keep[i].name) == keep[i] {
      ColumnNamedFinds(cols, keep[i]);
    }
  }

  predicate StartsWith(s: string, prefix: string) {
    |prefix| <= |s| && s[..|prefix|] == prefix
  }

  /** The server's metadata fields of a hit (`_id`, `_score`, ...): a name
      starting with `_` but not with `_source`. */
  predicate IsMetadataName(name: string) {
    StartsWith(name, "_") && !StartsWith(name, "_source")
  }

  /** The metadata columns of a frame, in frame order. */
  function MetadataColumns(cols: seq<Column>): (ms: seq<Column>)
    ensures forall c :: c in ms ==> c in cols && IsMetadataName(c.name)
    ensures forall c :: c in cols && IsMetadataName(c.name) ==> c in ms
  {
    if cols == [] then []
    else
      var last := cols[|cols| - 1];
      MetadataColumns(cols[..|cols| - 1]) + (if IsMetadataName(last.name) then [last] else [])
  }

  /** A cell holding a list value. */
  predicate IsListCell(c: Cell) {
    c.Val? && c.v.JList?
  }

  /** `df[col].apply(lambda x: isinstance(x, list)).any()` */
  predicate HoldsList(c: Column) {
    exists k :: 0 <= k < |c.cells| && IsListCell(c.cells[k])
  }
}
