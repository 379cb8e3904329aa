/** `parse_xml_content` and `transform_to_wide_format` of the
    individual-statements script.

    An XBRL instance is taken as already parsed: the `xbrli:context` children
    of the root, and every element in document order with its tag, text and
    attributes. Parsing extracts one fact per element that carries
    `contextRef`, joined with the fields of the context it names. The wide
    format keeps the facts of the target year and pivots them to one row per
    entity identifier and one column per tag, the first value winning. */
module Xbrl {
  import opened Json

  /** An `xbrli:period`: the text of its `startDate`, `endDate` and
      `instant` children, `None` where a child is missing. */
  datatype Period = Period(startDate: Option<string>, endDate: Option<string>, instant: Option<string>)

  /** An `xbrli:entity`: `None` when it has no `xbrli:identifier` child,
      `Some(None)` when that child has no text. */
  datatype Entity = Entity(identifier: Option<Option<string>>)

  /** An `xbrli:context` child of the root, with its `id` attribute and its
      `period` and `entity` children when present. */
  datatype ContextElem = ContextElem(id: Option<string>, period: Option<Period>, entity: Option<Entity>)

  /** Any element, as `root.iter()` yields it. */
  datatype Element = Element(tag: string, text: Option<string>, attrib: map<string, string>)

  datatype Xml = Xml(contexts: seq<ContextElem>, elements: seq<Element>)

  /** What a download hands to the parser: nothing (a failed fetch), bytes
      that are not XML, or a parsed document. */
  datatype Content = NoContent | Malformed | Wellformed(doc: Xml)

  /** The four fields a context contributes to each of its facts. */
  datatype ContextFields = ContextFields(identifier: Option<string>, startDate: string, endDate: string, instant: string)

  /** One row of the long table; `context` is `None` when `contextRef` names
      no known context, so the row has no context columns. */
  datatype Fact = Fact(tag: string, value: Option<string>, contextRef: string, unitRef: string, decimals: string,
                       context: Option<ContextFields>)

  // ---------------------------------------------------------------------
  // Parsing

  /** `findtext(..., default="")` */
  function FindText(t: Option<string>): string {
    if t.Some? then t.value else ""
  }

  /** A context with both children; any other makes the loop raise, which
      the parser catches. */
  predicate Complete(c: ContextElem) {
    c.period.Some? && c.entity.Some?
  }

  predicate AllComplete(cs: seq<ContextElem>) {
    forall i :: 0 <= i < |cs| ==> Complete(cs[i])
  }

  function Fields(c: ContextElem): ContextFields
    requires Complete(c)
  {
    var identifier := if c.entity.value.identifier.Some? then c.entity.value.identifier.value else Some("");
    ContextFields(identifier, FindText(c.period.value.startDate), FindText(c.period.value.endDate),
                  FindText(c.period.value.instant))
  }

  /** The `contexts` dict after the first loop: each context stored under its
      id in turn. */
  function ContextTable(cs: seq<ContextElem>): map<Option<string>, ContextFields>
    requires AllComplete(cs)
  {
    if cs == [] then map[]
    else ContextTable(cs[..|cs| - 1])[cs[|cs| - 1].id := Fields(cs[|cs| - 1])]
  }

  /** `tag.split("}")[-1]`: the longest suffix without `}`. */
  function LocalName(tag: string): (r: string)
    ensures |r| <= |tag| && r == tag[|tag| - |r|..]
    ensures forall i :: 0 <= i < |r| ==> r[i] != '}'
    ensures |r| < |tag| ==> tag[|tag| - |r| - 1] == '}'
  {
    if tag == [] || tag[|tag| - 1] == '}' then []
    else LocalName(tag[..|tag| - 1]) + [tag[|tag| - 1]]
  }

  /** `elem.attrib.get(k, '')` */
  function Attr(e: Element, k: string): string {
    if k in e.attrib then e.attrib[k] else ""
  }

  function FactOf(e: Element, table: map<Option<string>, ContextFields>): Fact
    requires "contextRef" in e.attrib
  {
    var ref := e.attrib["contextRef"];
    Fact(LocalName(e.tag), e.text, ref, Attr(e, "unitRef"), Attr(e, "decimals"),
         if Some(ref) in table then Some(table[Some(ref)]) else None)
  }

  /** The `records` list after the second loop. */
  function FactsOf(els: seq<Element>, table: map<Option<string>, ContextFields>): seq<Fact> {
    if els == [] then []
    else
      var e := els[|els| - 1];
      FactsOf(els[..|els| - 1], table) + (if "contextRef" in e.attrib then [FactOf(e, table)] else [])
  }

  /** The parser's result: nothing for missing or malformed content or an
      incomplete context, otherwise the facts. */
  function ParsedFacts(content: Content): seq<Fact> {
    match content
    case NoContent => []
    case Malformed => []
    case Wellformed(doc) =>
      if AllComplete(doc.contexts) then FactsOf(doc.elements, ContextTable(doc.contexts)) else []
  }

  /** The first loop of `parse_xml_content`: the `contexts` dict, or `None`
      where an incomplete context makes the loop raise. */
  method ReadContexts(cs: seq<ContextElem>) returns (contexts: Option<map<Option<string>, ContextFields>>)
    ensures AllComplete(cs) ==> contexts == Some(ContextTable(cs))
    ensures !AllComplete(cs) ==> contexts.None?
  {
    var table: map<Option<string>, ContextFields> := map[];
    var i := 0;
    while i < |cs|
      invariant i <= |cs| && AllComplete(cs[..i])
      invariant table == ContextTable(cs[..i])
    {
      var context := cs[i];
      if context.period.None? || context.entity.None? {
        return None;
      }
      var entity := context.entity.value;
      var period := context.period.value;
      var identifier := if entity.identifier.Some? then entity.identifier.value else Some("");
      table := table[context.id := ContextFields(identifier, FindText(period.startDate),
                                                 FindText(period.endDate), FindText(period.instant))];
      assert cs[..i + 1][..i] == cs[..i];
      i := i + 1;
    }
    assert cs[..i] == cs;
    contexts := Some(table);
  }

  /** `parse_xml_content` */
  method ParseXmlContent(content: Content) returns (records: seq<Fact>)
    ensures records == ParsedFacts(content)
  {
    if content.NoContent? || content.Malformed? {
      return [];
    }
    var root := content.doc;
    var found := ReadContexts(root.contexts);
    if found.None? {
      return [];
    }
    var contexts := found.value;
    records := [];
    var j := 0;
    while j < |root.elements|
      invariant j <= |root.elements|
      invariant records == FactsOf(root.elements[..j], contexts)
    {
      var elem := root.elements[j];
      if "contextRef" in elem.attrib {
        var contextRef := elem.attrib["contextRef"];
        var context := if Some(contextRef) in contexts then Some(contexts[Some(contextRef)]) else None;
        records := records + [Fact(LocalName(elem.tag), elem.text, contextRef, Attr(elem, "unitRef"),
                                   Attr(elem, "decimals"), context)];
      }
      assert root.elements[..j + 1][..j] == root.elements[..j];
      j := j + 1;
    }
    assert root.elements[..j] == root.elements;
  }

  // ---------------------------------------------------------------------
  // Properties of parsing

  /** A namespaced tag `{ns}name` yields `name`. */
  lemma {:induction false} LocalNameOfQualified(ns: string, name: string)
    requires forall i :: 0 <= i < |name| ==> name[i] != '}'
    ensures LocalName("{" + ns + "}" + name) == name
    decreases |name|
  {
    var tag := "{" + ns + "}" + name;
    if name == [] {
      assert tag[|tag| - 1] == '}';
    } else {
      var init := name[..|name| - 1];
      LocalNameOfQualified(ns, init);
      assert tag[..|tag| - 1] == "{" + ns + "}" + init;
      assert tag[|tag| - 1] == name[|name| - 1];
      assert init + [name[|name| - 1]] == name;
    }
  }

  /** Facts come in document order: the facts of a document split in two
      are those of the first part followed by those of the second. */
  lemma {:induction false} FactsOfAppend(a: seq<Element>, b: seq<Element>, table: map<Option<string>, ContextFields>)
    ensures FactsOf(a + b, table) == FactsOf(a, table) + FactsOf(b, table)
    decreases |b|
  {
    if b == [] {
      assert a + b == a;
    } else {
      var init := b[..|b| - 1];
      FactsOfAppend(a, init, table);
      assert (a + b)[..|a + b| - 1] == a + init;
    }
  }

  /** The number of elements carrying `contextRef`. */
  function RefCount(els: seq<Element>): nat {
    if els == [] then 0
    else RefCount(els[..|els| - 1]) + (if "contextRef" in els[|els| - 1].attrib then 1 else 0)
  }

  /** One fact per element carrying `contextRef`, each naming its element's
      `contextRef` and holding its context's fields exactly when that
      context is known. */
  lemma {:induction false} FactsOfContent(els: seq<Element>, table: map<Option<string>, ContextFields>)
    ensures |FactsOf(els, table)| == RefCount(els)
    ensures forall k :: 0 <= k < |FactsOf(els, table)| ==>
      var f := FactsOf(els, table)[k];
      (Some(f.contextRef) in table ==> f.context == Some(table[Some(f.contextRef)]))
      && (Some(f.contextRef) !in table ==> f.context.None?)
    decreases |els|
  {
    if els != [] {
      FactsOfContent(els[..|els| - 1], table);
    }
  }

  /** An element carrying `contextRef` gives its local name, text and
      `contextRef`, with `unitRef` and `decimals` defaulting to the empty
      string. */
  lemma FactOfElement(e: Element, table: map<Option<string>, ContextFields>)
    requires "contextRef" in e.attrib
    ensures FactsOf([e], table) == [FactOf(e, table)]
    ensures FactOf(e, table).tag == LocalName(e.tag) && FactOf(e, table).value == e.text
    ensures "unitRef" !in e.attrib ==> FactOf(e, table).unitRef == ""
    ensures "decimals" !in e.attrib ==> FactOf(e, table).decimals == ""
  {
    assert [e][..0] == [];
  }

  /** Every id read is in the table, and the last context with an id
      decides its fields. */
  lemma {:induction false} LaterContextWins(cs: seq<ContextElem>, j: nat)
    requires AllComplete(cs) && j < |cs|
    requires forall l :: j < l < |cs| ==> cs[l].id != cs[j].id
    ensures cs[j].id in ContextTable(cs) && ContextTable(cs)[cs[j].id] == Fields(cs[j])
    decreases |cs|
  {
    if j < |cs| - 1 {
      var init := cs[..|cs| - 1];
      assert init[j] == cs[j];
      forall l | j < l < |init| ensures init[l].id != init[j].id {
        assert init[l] == cs[l];
      }
      LaterContextWins(init, j);
    }
  }

  /** The table holds exactly the ids of the contexts. */
  lemma {:induction false} ContextTableKeys(cs: seq<ContextElem>, id: Option<string>)
    requires AllComplete(cs)
    ensures id in ContextTable(cs) <==> exists j :: 0 <= j < |cs| && cs[j].id == id
    decreases |cs|
  {
    if cs != [] {
      var init := cs[..|cs| - 1];
      ContextTableKeys(init, id);
      if exists j :: 0 <= j < |init| && init[j].id == id {
        var j :| 0 <= j < |init| && init[j].id == id;
        assert cs[j] == init[j];
      }
      if exists j :: 0 <= j < |cs| && cs[j].id == id {
        var j :| 0 <= j < |cs| && cs[j].id == id;
        if j < |init| {
          assert init[j] == cs[j];
        }
      }
    }
  }

  // ---------------------------------------------------------------------
  // The wide format

  /** The pivot: entity identifier to tag to value, for the target year. */
  datatype WideTable = WideTable(year: int, rows: map<string, map<string, string>>)

  /** `transform_to_wide_format` raises when no fact has context columns
      (`df["end_date"]` is then missing), returns an empty frame, or the
      pivot. */
  datatype Transformed = TransformRaised | EmptyFrame | Wide(table: WideTable)

  predicate IsSpace(c: char) {
    c == ' ' || c == '\t' || c == '\n' || c == '\r' || c == '\U{B}' || c == '\U{C}'
  }

  /** `s.strip()` over ASCII whitespace. */
  function Strip(s: string): (r: string)
    ensures |r| <= |s|
    ensures r != [] ==> !IsSpace(r[0]) && !IsSpace(r[|r| - 1])
    decreases |s|
  {
    if s == [] then []
    else if IsSpace(s[0]) then Strip(s[1..])
    else if IsSpace(s[|s| - 1]) then Strip(s[..|s| - 1])
    else s
  }

  /** A fact of the target year: its context's end date or instant is a
      date in `year`. `yearOf` reads one date at a time, `None` standing for
      `NaT`; `pd.to_datetime` with `errors="coerce"` infers one format for
      the whole column, which a function of one string does not capture. */
  predicate InYear(f: Fact, year: int, yearOf: string -> Option<int>) {
    f.context.Some? && (yearOf(f.context.value.endDate) == Some(year) || yearOf(f.context.value.instant) == Some(year))
  }

  /** The filter `df[cond]`, keeping order. */
  function Selected(facts: seq<Fact>, year: int, yearOf: string -> Option<int>): seq<Fact> {
    if facts == [] then []
    else
      var f := facts[|facts| - 1];
      Selected(facts[..|facts| - 1], year, yearOf) + (if InYear(f, year, yearOf) then [f] else [])
  }

  /** A fact that fills a pivot cell: an identifier (the index drops nulls)
      and a value (`first` skips nulls). */
  predicate Contributes(f: Fact) {
    f.context.Some? && f.context.value.identifier.Some? && f.value.Some?
  }

  function IdOf(f: Fact): string
    requires Contributes(f)
  {
    f.context.value.identifier.value
  }

  /** The pivot cell a fact lands in: its identifier and stripped tag. */
  predicate Lands(f: Fact, id: string, tag: string) {
    Contributes(f) && IdOf(f) == id && Strip(f.tag) == tag
  }

  /** `pivot_table(index="identifier", columns="tag", values="value",
      aggfunc="first")`, built fact by fact. */
  function PivotOf(facts: seq<Fact>): map<string, map<string, string>> {
    if facts == [] then map[]
    else
      var rows := PivotOf(facts[..|facts| - 1]);
      var f := facts[|facts| - 1];
      if Contributes(f) then
        var row := if IdOf(f) in rows then rows[IdOf(f)] else map[];
        if Strip(f.tag) in row then rows else rows[IdOf(f) := row[Strip(f.tag) := f.value.value]]
      else rows
  }

  predicate HasContext(facts: seq<Fact>) {
    exists i :: 0 <= i < |facts| && facts[i].context.Some?
  }

  function Transform(facts: seq<Fact>, year: int, yearOf: string -> Option<int>): Transformed {
    if facts == [] then EmptyFrame
    else if !HasContext(facts) then TransformRaised
    else
      var kept := Selected(facts, year, yearOf);
      if kept == [] then EmptyFrame else Wide(WideTable(year, PivotOf(kept)))
  }

  /** `transform_to_wide_format` */
  method TransformToWideFormat(df: seq<Fact>, year: int, yearOf: string -> Option<int>) returns (r: Transformed)
    ensures r == Transform(df, year, yearOf)
  {
    if df == [] {
      return EmptyFrame;
    }
    if !exists i :: 0 <= i < |df| && df[i].context.Some? {
      return TransformRaised;
    }
    var kept: seq<Fact> := [];
    var i := 0;
    while i < |df|
      invariant i <= |df| && kept == Selected(df[..i], year, yearOf)
    {
      if InYear(df[i], year, yearOf) {
        kept := kept + [df[i]];
      }
      assert df[..i + 1][..i] == df[..i];
      i := i + 1;
    }
    assert df[..i] == df;
    if kept == [] {
      return EmptyFrame;
    }
    var pivot: map<string, map<string, string>> := map[];
    var k := 0;
    while k < |kept|
      invariant k <= |kept| && pivot == PivotOf(kept[..k])
    {
      var f := kept[k];
      if f.context.Some? && f.context.value.identifier.Some? && f.value.Some? {
        var id := f.context.value.identifier.value;
        var tag := Strip(f.tag);
        var row := if id in pivot then pivot[id] else map[];
        if tag !in row {
          pivot := pivot[id := row[tag := f.value.value]];
        }
      }
      assert kept[..k + 1][..k] == kept[..k];
      k := k + 1;
    }
    assert kept[..k] == kept;
    r := Wide(WideTable(year, pivot));
  }

  // ---------------------------------------------------------------------
  // Properties of the wide format

  /** The filter keeps exactly the facts of the target year. */
  lemma {:induction false} SelectedExactly(facts: seq<Fact>, year: int, yearOf: string -> Option<int>, f: Fact)
    ensures f in Selected(facts, year, yearOf) <==> f in facts && InYear(f, year, yearOf)
    decreases |facts|
  {
    if facts != [] {
      var init := facts[..|facts| - 1];
      SelectedExactly(init, year, yearOf, f);
      assert facts == init + [facts[|facts| - 1]];
    }
  }

  /** One step of the pivot: the last fact adds its row and cell if it
      contributes, and nothing else changes. */
  lemma PivotStep(facts: seq<Fact>, id: string, tag: string)
    requires facts != []
    ensures var before := PivotOf(facts[..|facts| - 1]);
      var f := facts[|facts| - 1];
      (id in PivotOf(facts) <==> id in before || (Contributes(f) && IdOf(f) == id))
      && (id in PivotOf(facts) ==>
           (tag in PivotOf(facts)[id] <==> (id in before && tag in before[id]) || Lands(f, id, tag)))
  {
  }

  /** The pivot has a row for exactly the identifiers with a value. */
  lemma {:induction false} PivotRows(facts: seq<Fact>, id: string)
    ensures id in PivotOf(facts) <==> exists j :: 0 <= j < |facts| && Contributes(facts[j]) && IdOf(facts[j]) == id
    decreases |facts|
  {
    if facts != [] {
      var init := facts[..|facts| - 1];
      PivotRows(init, id);
      PivotStep(facts, id, "");
      if exists j :: 0 <= j < |init| && Contributes(init[j]) && IdOf(init[j]) == id {
        var j :| 0 <= j < |init| && Contributes(init[j]) && IdOf(init[j]) == id;
        assert facts[j] == init[j];
      }
      if exists j :: 0 <= j < |facts| && Contributes(facts[j]) && IdOf(facts[j]) == id {
        var j :| 0 <= j < |facts| && Contributes(facts[j]) && IdOf(facts[j]) == id;
        if j < |init| {
          assert init[j] == facts[j];
        }
      }
    }
  }

  /** In a row, the pivot has a cell for exactly the tags that identifier has
      a value for. */
  lemma {:induction false} PivotCells(facts: seq<Fact>, id: string, tag: string)
    requires id in PivotOf(facts)
    ensures tag in PivotOf(facts)[id] <==> exists j :: 0 <= j < |facts| && Lands(facts[j], id, tag)
    decreases |facts|
  {
    var init := facts[..|facts| - 1];
    PivotStep(facts, id, tag);
    if id in PivotOf(init) {
      PivotCells(init, id, tag);
    } else {
      PivotRows(init, id);
      forall j | 0 <= j < |init| ensures !Lands(init[j], id, tag) {
        assert !(Contributes(init[j]) && IdOf(init[j]) == id);
      }
    }
    if exists j :: 0 <= j < |init| && Lands(init[j], id, tag) {
      var j :| 0 <= j < |init| && Lands(init[j], id, tag);
      assert facts[j] == init[j];
    }
    if exists j :: 0 <= j < |facts| && Lands(facts[j], id, tag) {
      var j :| 0 <= j < |facts| && Lands(facts[j], id, tag);
      if j < |init| {
        assert init[j] == facts[j];
      }
    }
  }

  /** First value wins: a cell holds the value of the first fact landing in
      it. */
  lemma {:induction false} FirstValueWins(facts: seq<Fact>, j: nat)
    requires j < |facts| && Contributes(facts[j])
    requires forall i :: 0 <= i < j ==> !Lands(facts[i], IdOf(facts[j]), Strip(facts[j].tag))
    ensures IdOf(facts[j]) in PivotOf(facts)
    ensures Strip(facts[j].tag) in PivotOf(facts)[IdOf(facts[j])]
    ensures PivotOf(facts)[IdOf(facts[j])][Strip(facts[j].tag)] == facts[j].value.value
    decreases |facts|
  {
    var id := IdOf(facts[j]);
    var tag := Strip(facts[j].tag);
    var init := facts[..|facts| - 1];
    if j < |facts| - 1 {
      assert init[j] == facts[j];
      forall i | 0 <= i < j ensures !Lands(init[i], id, tag) {
        assert init[i] == facts[i];
      }
      FirstValueWins(init, j);
    } else {
      PivotStep(facts, id, tag);
      if id in PivotOf(init) {
        PivotCells(init, id, tag);
        forall i | 0 <= i < |init| ensures !Lands(init[i], id, tag) {
          assert init[i] == facts[i];
        }
      }
    }
  }

  /** A non-empty wide result is stamped with the target year and holds
      only values of facts of that year. */
  lemma WideResult(facts: seq<Fact>, year: int, yearOf: string -> Option<int>)
    requires Transform(facts, year, yearOf).Wide?
    ensures Transform(facts, year, yearOf).table.year == year
    ensures Transform(facts, year, yearOf).table.rows == PivotOf(Selected(facts, year, yearOf))
    ensures forall f :: f in Selected(facts, year, yearOf) ==> f in facts && InYear(f, year, yearOf)
    ensures Transform(facts, year, yearOf).table.rows != map[] <==>
      exists j :: 0 <= j < |Selected(facts, year, yearOf)| && Contributes(Selected(facts, year, yearOf)[j])
  {
    var kept := Selected(facts, year, yearOf);
    forall f | f in kept ensures f in facts && InYear(f, year, yearOf) {
      SelectedExactly(facts, year, yearOf, f);
    }
    if exists j :: 0 <= j < |kept| && Contributes(kept[j]) {
      var j :| 0 <= j < |kept| && Contributes(kept[j]);
      PivotRows(kept, IdOf(kept[j]));
    }
    if PivotOf(kept) != map[] {
      var id :| id in PivotOf(kept);
      PivotRows(kept, id);
    }
  }
}
