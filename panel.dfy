/** The panel ("explode") normalisers of the company script: each walks the
    hits of a search and emits one flat row per element of a list field of the
    company document `_source.Vrvirksomhed`, every row led by the company's
    entity key (`cvrNummer`, `enhedsNummer`).

    The six single-level normalisers differ only in the row they build from
    one list element, so they share one rule-driven loop; participant
    relations and attributes nest deeper and emit placeholder rows. A row is a
    Python dict, kept as an ordered list of (key, value) pairs; the table is
    `pd.DataFrame(records)`, whose columns are the keys in order of first
    appearance, which is what `Normalize` builds. */
module Panel {
  import opened Json
  import opened Frames

  type Row = FlatRecord

  // ---------------------------------------------------------------------
  // Reading a hit

  /** `record.get("_source", {}).get("Vrvirksomhed", {})` does not raise. */
  predicate HasCompany(rec: Json) {
    rec.JDict? && DictOrAbsent(rec, "_source") && DictOrAbsent(Get(rec, "_source", EmptyDict), "Vrvirksomhed")
  }

  function Company(rec: Json): (c: Json)
    requires HasCompany(rec)
    ensures c.JDict?
  {
    Get(Get(rec, "_source", EmptyDict), "Vrvirksomhed", EmptyDict)
  }

  function CvrNummer(rec: Json): Json
    requires HasCompany(rec)
  {
    Get(Company(rec), "cvrNummer", JNull)
  }

  function EnhedsNummer(rec: Json): Json
    requires HasCompany(rec)
  {
    Get(Company(rec), "enhedsNummer", JNull)
  }

  /** The two leading columns of every panel row. */
  function EntityKey(rec: Json): Row
    requires HasCompany(rec)
  {
    [("cvrNummer", CvrNummer(rec)), ("enhedsNummer", EnhedsNummer(rec))]
  }

  /** The elements walked for `field`: only a list is walked
      (`isinstance(v, list) and len(v) > 0`); a missing field or any other
      value gives nothing. */
  function ListField(rec: Json, field: string): seq<Json>
    requires HasCompany(rec)
  {
    var v := Get(Company(rec), field, EmptyList);
    if v.JList? then v.items else []
  }

  /** The number of elements of `field` over a batch. */
  function ItemCount(records: seq<Json>, field: string): nat
    requires forall i :: 0 <= i < |records| ==> HasCompany(records[i])
  {
    if records == [] then 0
    else ItemCount(records[..|records| - 1], field) + |ListField(records[|records| - 1], field)|
  }

  // ---------------------------------------------------------------------
  // Building rows

  /** `[(n, item.get(n)) for n in names]` */
  function Fields(item: Json, names: seq<string>): (r: Row)
    requires item.JDict?
    ensures |r| == |names|
    ensures forall i :: 0 <= i < |names| ==> r[i] == (names[i], Get(item, names[i], JNull))
  {
    seq(|names|, i requires 0 <= i < |names| => (names[i], Get(item, names[i], JNull)))
  }

  /** `item.get('periode', {}).get('gyldigFra' / 'gyldigTil')` */
  function Period(item: Json): Row
    requires item.JDict? && DictOrAbsent(item, "periode")
  {
    var p := Get(item, "periode", EmptyDict);
    [("gyldigFra", Get(p, "gyldigFra", JNull)), ("gyldigTil", Get(p, "gyldigTil", JNull))]
  }

  /** `row[k] = v` on a dict: an existing key keeps its place and takes the
      new value, a new key goes last. */
  function Put(row: Row, k: string, v: Json): (r: Row)
    ensures Lookup(r, k) == Val(v)
    ensures forall p :: p != k ==> Lookup(r, p) == Lookup(row, p)
  {
    if row == [] then [(k, v)]
    else if row[0].0 == k then [(k, v)] + row[1..]
    else [row[0]] + Put(row[1..], k, v)
  }

  /** `for col in value_cols: row[col] = item.get(col)` */
  function PutAll(row: Row, item: Json, cols: seq<string>): Row
    requires item.JDict?
    decreases |cols|
  {
    if cols == [] then row
    else PutAll(Put(row, cols[0], Get(item, cols[0], JNull)), item, cols[1..])
  }

  const AddressFields: seq<string> := [
    "landekode", "fritekst", "vejkode", "vejnavn", "husnummerFra", "husnummerTil",
    "bogstavFra", "bogstavTil", "etage", "sidedoer", "conavn", "postboks",
    "postnummer", "postdistrikt", "bynavn", "adresseId", "sidstValideret"]

  const BranchFields: seq<string> := ["branchekode", "branchetekst"]

  const EmploymentFields: seq<string> := [
    "aar", "kvartal", "maaned", "antalInklusivEjere", "antalAarsvaerk", "antalAnsatte",
    "intervalKodeAntalInklusivEjere", "intervalKodeAntalAarsvaerk", "intervalKodeAntalAnsatte",
    "sidstOpdateret"]

  const LegalFormFields: seq<string> := ["kortBeskrivelse", "langBeskrivelse", "ansvarligDataleverandoer"]

  /** How one list element becomes one row. */
  datatype Rule =
    | Temporal(valueCols: seq<string>)  // explode_temporal_field
    | Address                           // explode_addresses
    | Branch                            // explode_branches
    | Employment                        // explode_employment
    | LegalForm                         // explode_virksomhedsform
    | Lifecycle                         // explode_livsforloeb

  /** The municipality of an address: its code and name when `kommune` is a
      dict, nulls otherwise. */
  function Kommune(addr: Json): Row
    requires addr.JDict?
  {
    var k := Get(addr, "kommune", EmptyDict);
    if k.JDict? then [("kommuneKode", Get(k, "kommuneKode", JNull)), ("kommuneNavn", Get(k, "kommuneNavn", JNull))]
    else [("kommuneKode", JNull), ("kommuneNavn", JNull)]
  }

  /** The element is a dict and the reads of the rule do not raise. */
  predicate ItemSafe(rule: Rule, item: Json) {
    item.JDict?
    && (!rule.Employment? ==> DictOrAbsent(item, "periode"))
    && (rule.Address? && Get(item, "kommune", EmptyDict).JDict? ==>
          DictOrAbsent(Get(item, "kommune", EmptyDict), "periode"))
  }

  /** The row a rule builds for one element of one hit. */
  function BuildRow(rule: Rule, rec: Json, item: Json): Row
    requires HasCompany(rec) && ItemSafe(rule, item)
  {
    var last := [("sidstOpdateret", Get(item, "sidstOpdateret", JNull))];
    match rule
    case Temporal(cols) =>
      var p := Get(item, "periode", EmptyDict);
      Put(Put(Put(PutAll(EntityKey(rec), item, cols),
        "gyldigFra", Get(p, "gyldigFra", JNull)),
        "gyldigTil", Get(p, "gyldigTil", JNull)),
        "sidstOpdateret", Get(item, "sidstOpdateret", JNull))
    case Address => EntityKey(rec) + Fields(item, AddressFields) + Kommune(item) + Period(item) + last
    case Branch => EntityKey(rec) + Fields(item, BranchFields) + Period(item) + last
    case Employment => EntityKey(rec) + Fields(item, EmploymentFields)
    case LegalForm => EntityKey(rec) + Fields(item, LegalFormFields) + Period(item) + last
    case Lifecycle => EntityKey(rec) + Period(item) + last
  }

  predicate RecordSafe(rec: Json, field: string, rule: Rule) {
    HasCompany(rec) && forall x :: x in ListField(rec, field) ==> ItemSafe(rule, x)
  }

  predicate BatchSafe(records: seq<Json>, field: string, rule: Rule) {
    forall i :: 0 <= i < |records| ==> RecordSafe(records[i], field, rule)
  }

  /** The rows of one hit, one per element of its list field, in order. */
  function RecordRows(rec: Json, field: string, rule: Rule): (rows: seq<Row>)
    requires RecordSafe(rec, field, rule)
    ensures |rows| == |ListField(rec, field)|
  {
    var items := ListField(rec, field);
    seq(|items|, j requires 0 <= j < |items| => BuildRow(rule, rec, items[j]))
  }

  /** The rows of a batch: the hits' rows, hit after hit. */
  function FlatRows(records: seq<Json>, field: string, rule: Rule): seq<Row>
    requires BatchSafe(records, field, rule)
  {
    if records == [] then []
    else FlatRows(records[..|records| - 1], field, rule) + RecordRows(records[|records| - 1], field, rule)
  }

  // ---------------------------------------------------------------------
  // The single-level normalisers

  /** The temporal row, with its `for col in value_cols` loop. */
  method TemporalRow(rec: Json, item: Json, valueCols: seq<string>) returns (row: Row)
    requires HasCompany(rec) && ItemSafe(Temporal(valueCols), item)
    ensures row == BuildRow(Temporal(valueCols), rec, item)
  {
    row := EntityKey(rec);
    var c := 0;
    while c < |valueCols|
      invariant 0 <= c <= |valueCols|
      invariant PutAll(row, item, valueCols[c..]) == PutAll(EntityKey(rec), item, valueCols)
    {
      assert valueCols[c..][1..] == valueCols[c + 1..];
      row := Put(row, valueCols[c], Get(item, valueCols[c], JNull));
      c := c + 1;
    }
    var periode := Get(item, "periode", EmptyDict);
    row := Put(row, "gyldigFra", Get(periode, "gyldigFra", JNull));
    row := Put(row, "gyldigTil", Get(periode, "gyldigTil", JNull));
    row := Put(row, "sidstOpdateret", Get(item, "sidstOpdateret", JNull));
  }

  /** The loop the six single-level normalisers share: for each hit whose
      field is a non-empty list, append one row per element. */
  method ExplodeList(records: seq<Json>, field: string, rule: Rule) returns (rows: seq<Row>)
    requires BatchSafe(records, field, rule)
    ensures rows == FlatRows(records, field, rule)
  {
    rows := [];
    var i := 0;
    while i < |records|
      invariant 0 <= i <= |records|
      invariant rows == FlatRows(records[..i], field, rule)
    {
      assert records[..i + 1][..i] == records[..i];
      var recordRows := ExplodeRecord(records[i], field, rule);
      rows := rows + recordRows;
      i := i + 1;
    }
    assert records[..i] == records;
  }

  /** The inner loop of the normalisers: one row per element of one hit's
      list field. */
  method ExplodeRecord(rec: Json, field: string, rule: Rule) returns (rows: seq<Row>)
    requires RecordSafe(rec, field, rule)
    ensures rows == RecordRows(rec, field, rule)
  {
    rows := [];
    var v := Get(Company(rec), field, EmptyList);
    if v.JList? && |v.items| > 0 {
      assert ListField(rec, field) == v.items;
      var j := 0;
      while j < |v.items|
        invariant 0 <= j <= |v.items|
        invariant |rows| == j
        invariant forall k :: 0 <= k < j ==> rows[k] == BuildRow(rule, rec, v.items[k])
      {
        assert v.items[j] in ListField(rec, field);
        var row := ItemRow(rule, rec, v.items[j]);
        rows := rows + [row];
        j := j + 1;
      }
    }
  }

  /** The row of one element: the temporal rule runs its column loop, the
      others build their row directly. */
  method ItemRow(rule: Rule, rec: Json, item: Json) returns (row: Row)
    requires HasCompany(rec) && ItemSafe(rule, item)
    ensures row == BuildRow(rule, rec, item)
  {
    if rule.Temporal? {
      row := TemporalRow(rec, item, rule.valueCols);
    } else {
      row := BuildRow(rule, rec, item);
    }
  }

  /** `explode_temporal_field(json_data, field_name, value_cols)` */
  method ExplodeTemporalField(records: seq<Json>, fieldName: string, valueCols: seq<string>) returns (df: Frame)
    requires BatchSafe(records, fieldName, Temporal(valueCols))
    ensures df == Normalize(FlatRows(records, fieldName, Temporal(valueCols)))
    ensures df.height == ItemCount(records, fieldName)
  {
    var rows := ExplodeList(records, fieldName, Temporal(valueCols));
    FlatRowsCount(records, fieldName, Temporal(valueCols));
    df := Normalize(rows);
  }

  /** `explode_addresses(json_data, address_field)` */
  method ExplodeAddresses(records: seq<Json>, addressField: string) returns (df: Frame)
    requires BatchSafe(records, addressField, Address)
    ensures df == Normalize(FlatRows(records, addressField, Address))
    ensures df.height == ItemCount(records, addressField)
  {
    var rows := ExplodeList(records, addressField, Address);
    FlatRowsCount(records, addressField, Address);
    df := Normalize(rows);
  }

  /** `explode_branches(json_data, branch_field)` */
  method ExplodeBranches(records: seq<Json>, branchField: string) returns (df: Frame)
    requires BatchSafe(records, branchField, Branch)
    ensures df == Normalize(FlatRows(records, branchField, Branch))
    ensures df.height == ItemCount(records, branchField)
  {
    var rows := ExplodeList(records, branchField, Branch);
    FlatRowsCount(records, branchField, Branch);
    df := Normalize(rows);
  }

  /** `explode_employment(json_data, employment_field)` */
  method ExplodeEmployment(records: seq<Json>, employmentField: string) returns (df: Frame)
    requires BatchSafe(records, employmentField, Employment)
    ensures df == Normalize(FlatRows(records, employmentField, Employment))
    ensures df.height == ItemCount(records, employmentField)
  {
    var rows := ExplodeList(records, employmentField, Employment);
    FlatRowsCount(records, employmentField, Employment);
    df := Normalize(rows);
  }

  /** `explode_virksomhedsform(json_data)` */
  method ExplodeVirksomhedsform(records: seq<Json>) returns (df: Frame)
    requires BatchSafe(records, "virksomhedsform", LegalForm)
    ensures df == Normalize(FlatRows(records, "virksomhedsform", LegalForm))
    ensures df.height == ItemCount(records, "virksomhedsform")
  {
    var rows := ExplodeList(records, "virksomhedsform", LegalForm);
    FlatRowsCount(records, "virksomhedsform", LegalForm);
    df := Normalize(rows);
  }

  /** `explode_livsforloeb(json_data)` */
  method ExplodeLivsforloeb(records: seq<Json>) returns (df: Frame)
    requires BatchSafe(records, "livsforloeb", Lifecycle)
    ensures df == Normalize(FlatRows(records, "livsforloeb", Lifecycle))
    ensures df.height == ItemCount(records, "livsforloeb")
  {
    var rows := ExplodeList(records, "livsforloeb", Lifecycle);
    FlatRowsCount(records, "livsforloeb", Lifecycle);
    df := Normalize(rows);
  }

  // ---------------------------------------------------------------------
  // Properties of the single-level normalisers

  /** One row per list element: the table's row count is the total length
      of the field's lists; a hit whose field is missing, not a list or empty
      adds nothing. */
  lemma {:induction false} FlatRowsCount(records: seq<Json>, field: string, rule: Rule)
    requires BatchSafe(records, field, rule)
    ensures |FlatRows(records, field, rule)| == ItemCount(records, field)
    decreases |records|
  {
    if records != [] {
      FlatRowsCount(records[..|records| - 1], field, rule);
    }
  }

  lemma BatchSafeAppend(a: seq<Json>, b: seq<Json>, field: string, rule: Rule)
    requires BatchSafe(a, field, rule) && BatchSafe(b, field, rule)
    ensures BatchSafe(a + b, field, rule)
  {
    forall i | 0 <= i < |a + b| ensures RecordSafe((a + b)[i], field, rule) {
      if i >= |a| { assert (a + b)[i] == b[i - |a|]; }
    }
  }

  /** Exploding two batches one after the other gives the rows of exploding
      them together. */
  lemma {:induction false} FlatRowsAppend(a: seq<Json>, b: seq<Json>, field: string, rule: Rule)
    requires BatchSafe(a, field, rule) && BatchSafe(b, field, rule)
    ensures BatchSafe(a + b, field, rule)
    ensures FlatRows(a + b, field, rule) == FlatRows(a, field, rule) + FlatRows(b, field, rule)
    decreases |b|
  {
    BatchSafeAppend(a, b, field, rule);
    if b == [] {
      assert a + b == a;
    } else {
      var init := b[..|b| - 1];
      var last := b[|b| - 1];
      assert (a + b)[..|a + b| - 1] == a + init;
      assert (a + b)[|a + b| - 1] == last;
      FlatRowsAppend(a, init, field, rule);
      calc {
        FlatRows(a + b, field, rule);
        FlatRows(a + init, field, rule) + RecordRows(last, field, rule);
        FlatRows(a, field, rule) + FlatRows(init, field, rule) + RecordRows(last, field, rule);
      }
    }
  }

  /** Record-then-element order: the rows of hit `i` come right after those
      of the hits before it, element `j` of its list giving row number
      (rows of earlier hits) + `j`. */
  lemma RowOrder(records: seq<Json>, field: string, rule: Rule, i: nat, j: nat)
    requires BatchSafe(records, field, rule)
    requires i < |records| && j < |ListField(records[i], field)|
    ensures BatchSafe(records[..i], field, rule)
    ensures |FlatRows(records[..i], field, rule)| + j < |FlatRows(records, field, rule)|
    ensures FlatRows(records, field, rule)[|FlatRows(records[..i], field, rule)| + j]
            == BuildRow(rule, records[i], ListField(records[i], field)[j])
  {
    var pre := records[..i];
    var rest := records[i..];
    assert records == pre + rest;
    assert rest == [records[i]] + records[i + 1..];
    FlatRowsAppend(pre, rest, field, rule);
    FlatRowsAppend([records[i]], records[i + 1..], field, rule);
    FlatRowsSingle(records[i], field, rule);
    IndexInMiddle(FlatRows(pre, field, rule), RecordRows(records[i], field, rule), FlatRows(records[i + 1..], field, rule), j);
  }

  lemma FlatRowsSingle(rec: Json, field: string, rule: Rule)
    requires RecordSafe(rec, field, rule)
    ensures BatchSafe([rec], field, rule)
    ensures FlatRows([rec], field, rule) == RecordRows(rec, field, rule)
  {
    assert [rec][..0] == [];
  }

  lemma IndexInMiddle<T>(a: seq<T>, b: seq<T>, c: seq<T>, j: nat)
    requires j < |b|
    ensures |a| + j < |a + (b + c)| && (a + (b + c))[|a| + j] == b[j]
  {
  }

  /** The rule never overwrites the entity key (for a temporal field: unless
      a value column is itself named `cvrNummer` or `enhedsNummer`). */
  predicate KeepsKey(rule: Rule) {
    rule.Temporal? ==> "cvrNummer" !in rule.valueCols && "enhedsNummer" !in rule.valueCols
  }

  lemma {:induction false} PutAllKeeps(row: Row, item: Json, cols: seq<string>, p: string)
    requires item.JDict? && p !in cols
    ensures Lookup(PutAll(row, item, cols), p) == Lookup(row, p)
    decreases |cols|
  {
    if cols != [] {
      PutAllKeeps(Put(row, cols[0], Get(item, cols[0], JNull)), item, cols[1..], p);
    }
  }

  lemma {:induction false} PutAllSets(row: Row, item: Json, cols: seq<string>, p: string)
    requires item.JDict? && p in cols
    ensures Lookup(PutAll(row, item, cols), p) == Val(Get(item, p, JNull))
    decreases |cols|
  {
    var next := Put(row, cols[0], Get(item, cols[0], JNull));
    if p in cols[1..] {
      PutAllSets(next, item, cols[1..], p);
    } else {
      PutAllKeeps(next, item, cols[1..], p);
    }
  }

  /** Every row a rule builds carries its hit's `cvrNummer` and
      `enhedsNummer`. */
  lemma BuildRowKey(rule: Rule, rec: Json, item: Json)
    requires HasCompany(rec) && ItemSafe(rule, item) && KeepsKey(rule)
    ensures Lookup(BuildRow(rule, rec, item), "cvrNummer") == Val(CvrNummer(rec))
    ensures Lookup(BuildRow(rule, rec, item), "enhedsNummer") == Val(EnhedsNummer(rec))
  {
    if rule.Temporal? {
      PutAllKeeps(EntityKey(rec), item, rule.valueCols, "cvrNummer");
      PutAllKeeps(EntityKey(rec), item, rule.valueCols, "enhedsNummer");
    } else {
      var row := BuildRow(rule, rec, item);
      assert row[..2] == EntityKey(rec);
      LookupAppend(EntityKey(rec), row[2..], "cvrNummer");
      LookupAppend(EntityKey(rec), row[2..], "enhedsNummer");
      assert row == EntityKey(rec) + row[2..];
    }
  }

  /** Every row of a table carries the entity key of a hit of the batch. */
  lemma RowsCarryKeys(records: seq<Json>, field: string, rule: Rule, k: nat)
    requires BatchSafe(records, field, rule) && KeepsKey(rule)
    requires k < |FlatRows(records, field, rule)|
    ensures exists i :: (0 <= i < |records|
      && Lookup(FlatRows(records, field, rule)[k], "cvrNummer") == Val(CvrNummer(records[i]))
      && Lookup(FlatRows(records, field, rule)[k], "enhedsNummer") == Val(EnhedsNummer(records[i])))
  {
    var i, j := RowOrigin(records, field, rule, k);
    BuildRowKey(rule, records[i], ListField(records[i], field)[j]);
  }

  /** The hit and element a row comes from. */
  lemma {:induction false} RowOrigin(records: seq<Json>, field: string, rule: Rule, k: nat) returns (i: nat, j: nat)
    requires BatchSafe(records, field, rule)
    requires k < |FlatRows(records, field, rule)|
    ensures i < |records| && j < |ListField(records[i], field)|
    ensures FlatRows(records, field, rule)[k] == BuildRow(rule, records[i], ListField(records[i], field)[j])
    decreases |records|
  {
    var init := records[..|records| - 1];
    var pre := FlatRows(init, field, rule);
    if k < |pre| {
      i, j := RowOrigin(init, field, rule, k);
      assert records[i] == init[i];
    } else {
      i, j := |records| - 1, k - |pre|;
    }
  }

  /** A temporal row holds the value columns read from the element (a
      missing key reading as null), the element's period and its
      `sidstOpdateret`; a missing `periode` gives null dates. */
  lemma TemporalRowContent(rec: Json, item: Json, valueCols: seq<string>)
    requires HasCompany(rec) && ItemSafe(Temporal(valueCols), item)
    ensures var row := BuildRow(Temporal(valueCols), rec, item);
      (forall c :: c in valueCols && c !in ["gyldigFra", "gyldigTil", "sidstOpdateret"] ==>
         Lookup(row, c) == Val(Get(item, c, JNull)))
      && Lookup(row, "sidstOpdateret") == Val(Get(item, "sidstOpdateret", JNull))
      && ("periode" !in item.fields ==>
            Lookup(row, "gyldigFra") == Val(JNull) && Lookup(row, "gyldigTil") == Val(JNull))
  {
    var p := Get(item, "periode", EmptyDict);
    var r0 := PutAll(EntityKey(rec), item, valueCols);
    var r1 := Put(r0, "gyldigFra", Get(p, "gyldigFra", JNull));
    var r2 := Put(r1, "gyldigTil", Get(p, "gyldigTil", JNull));
    var r3 := Put(r2, "sidstOpdateret", Get(item, "sidstOpdateret", JNull));
    assert BuildRow(Temporal(valueCols), rec, item) == r3;
    forall c | c in valueCols && c !in ["gyldigFra", "gyldigTil", "sidstOpdateret"]
      ensures Lookup(r3, c) == Val(Get(item, c, JNull))
    {
      PutAllSets(EntityKey(rec), item, valueCols, c);
    }
  }

  /** An address row takes the municipality's code and name only from a
      `kommune` dict; a missing, null or other `kommune` gives nulls. */
  lemma AddressKommune(rec: Json, addr: Json)
    requires HasCompany(rec) && ItemSafe(Address, addr)
    ensures var row := BuildRow(Address, rec, addr);
      var k := Get(addr, "kommune", EmptyDict);
      Lookup(row, "kommuneKode") == Val(if k.JDict? then Get(k, "kommuneKode", JNull) else JNull)
      && Lookup(row, "kommuneNavn") == Val(if k.JDict? then Get(k, "kommuneNavn", JNull) else JNull)
  {
    var head := EntityKey(rec) + Fields(addr, AddressFields);
    var tail := Period(addr) + [("sidstOpdateret", Get(addr, "sidstOpdateret", JNull))];
    assert BuildRow(Address, rec, addr) == head + (Kommune(addr) + tail);
    NotInFields(addr, AddressFields, "kommuneKode");
    NotInFields(addr, AddressFields, "kommuneNavn");
    LookupAppend(EntityKey(rec), Fields(addr, AddressFields), "kommuneKode");
    LookupAppend(EntityKey(rec), Fields(addr, AddressFields), "kommuneNavn");
    LookupAppend(head, Kommune(addr) + tail, "kommuneKode");
    LookupAppend(head, Kommune(addr) + tail, "kommuneNavn");
    LookupAppend(Kommune(addr), tail, "kommuneKode");
    LookupAppend(Kommune(addr), tail, "kommuneNavn");
  }

  lemma {:induction false} NotInFields(item: Json, names: seq<string>, p: string)
    requires item.JDict? && p !in names
    ensures Lookup(Fields(item, names), p) == Missing
    decreases |names|
  {
    if names != [] {
      assert Fields(item, names)[1..] == Fields(item, names[1..]);
      NotInFields(item, names[1..], p);
    }
  }

  lemma {:induction false} InFields(item: Json, names: seq<string>, p: string)
    requires item.JDict? && p in names
    ensures Lookup(Fields(item, names), p) == Val(Get(item, p, JNull))
    decreases |names|
  {
    if names[0] != p {
      assert Fields(item, names)[1..] == Fields(item, names[1..]);
      InFields(item, names[1..], p);
    }
  }

  /** Branch, employment and legal-form rows hold each of the rule's
      attributes as read from the element, an absent one as null. */
  lemma AttributeColumns(rule: Rule, rec: Json, item: Json, p: string)
    requires rule.Branch? || rule.Employment? || rule.LegalForm?
    requires HasCompany(rec) && ItemSafe(rule, item)
    requires p in (match rule case Branch => BranchFields case Employment => EmploymentFields case _ => LegalFormFields)
    ensures Lookup(BuildRow(rule, rec, item), p) == Val(Get(item, p, JNull))
    ensures p !in item.fields ==> Lookup(BuildRow(rule, rec, item), p) == Val(JNull)
  {
    var last := [("sidstOpdateret", Get(item, "sidstOpdateret", JNull))];
    KeyNotAttribute();
    match rule
    case Branch =>
      AttributeAfterKey(rec, item, BranchFields, Period(item) + last, p);
      assert BuildRow(rule, rec, item) == EntityKey(rec) + (Fields(item, BranchFields) + (Period(item) + last));
    case Employment =>
      AttributeAfterKey(rec, item, EmploymentFields, [], p);
      assert BuildRow(rule, rec, item) == EntityKey(rec) + (Fields(item, EmploymentFields) + []);
    case LegalForm =>
      AttributeAfterKey(rec, item, LegalFormFields, Period(item) + last, p);
      assert BuildRow(rule, rec, item) == EntityKey(rec) + (Fields(item, LegalFormFields) + (Period(item) + last));
  }

  /** No attribute list names a key column. */
  lemma KeyNotAttribute()
    ensures "cvrNummer" !in BranchFields && "enhedsNummer" !in BranchFields
    ensures "cvrNummer" !in EmploymentFields && "enhedsNummer" !in EmploymentFields
    ensures "cvrNummer" !in LegalFormFields && "enhedsNummer" !in LegalFormFields
  {
  }

  /** An attribute column that follows the entity key holds the element's
      value. */
  lemma AttributeAfterKey(rec: Json, item: Json, names: seq<string>, tail: Row, p: string)
    requires HasCompany(rec) && item.JDict? && p in names && p != "cvrNummer" && p != "enhedsNummer"
    ensures Lookup(EntityKey(rec) + (Fields(item, names) + tail), p) == Val(Get(item, p, JNull))
  {
    InFields(item, names, p);
    LookupAppend(EntityKey(rec), Fields(item, names) + tail, p);
    LookupAppend(Fields(item, names), tail, p);
  }
}
