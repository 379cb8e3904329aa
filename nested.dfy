/** The two nested normalisers of the company script:
    `explode_deltager_relation` (participant relation -> organisation ->
    member -> attribute, one row per attribute, or a placeholder row for an
    organisation without member data) and `explode_attributter` (attribute ->
    value, one row per value, or a placeholder row for an attribute without
    values). */
module Nested {
  import opened Json
  import opened Frames
  import opened Panel

  // ---------------------------------------------------------------------
  // Participant relations: reading one relation

  /** `rel.get('deltager') or {}` is a dict, so the participant's `.get`s
      in a row do not raise. */
  predicate ParticipantSafe(rel: Json)
    requires rel.JDict?
  {
    var d := Get(rel, "deltager", JNull);
    Truthy(d) ==> d.JDict?
  }

  /** `rel.get('deltager') or {}`: a missing, null or otherwise falsy
      participant reads as an empty dict; a truthy one is kept as it is,
      and only a row built from it reads its fields. */
  function Participant(rel: Json): (d: Json)
    requires rel.JDict?
    ensures d.JDict? <==> ParticipantSafe(rel)
    ensures !Truthy(Get(rel, "deltager", JNull)) ==> d == EmptyDict
  {
    var d := Get(rel, "deltager", JNull);
    if Truthy(d) then d else EmptyDict
  }

  /** `org_navne[0].get('navn')` does not raise when `org_navne` is truthy. */
  predicate NameSafe(org: Json)
    requires org.JDict?
  {
    var ns := Get(org, "organisationsNavn", EmptyList);
    Truthy(ns) ==> ns.JList? && ns.items[0].JDict?
  }

  /** `org_navne[0].get('navn') if org_navne else None` */
  function OrgName(org: Json): Json
    requires org.JDict? && NameSafe(org)
  {
    var ns := Get(org, "organisationsNavn", EmptyList);
    if Truthy(ns) then Get(ns.items[0], "navn", JNull) else JNull
  }

  /** `attr.get('vaerdier', [{}])[0].get('vaerdi')` does not raise when
      `attr.get('vaerdier')` is truthy. */
  predicate FirstValueSafe(attr: Json)
    requires attr.JDict?
  {
    var vs := Get(attr, "vaerdier", JNull);
    Truthy(vs) ==> vs.JList? && vs.items[0].JDict?
  }

  /** `attr.get('vaerdier', [{}])[0].get('vaerdi') if attr.get('vaerdier') else None` */
  function FirstValue(attr: Json): Json
    requires attr.JDict? && FirstValueSafe(attr)
  {
    var vs := Get(attr, "vaerdier", JNull);
    if Truthy(vs) then Get(vs.items[0], "vaerdi", JNull) else JNull
  }

  /** `org.get('periode')` is a dict whenever it is truthy. */
  predicate OrgPeriodSafe(org: Json)
    requires org.JDict?
  {
    var p := Get(org, "periode", JNull);
    Truthy(p) ==> p.JDict?
  }

  /** `org.get('periode', {}).get(k) if org.get('periode') else None` */
  function OrgPeriod(org: Json, k: string): Json
    requires org.JDict? && OrgPeriodSafe(org)
  {
    var p := Get(org, "periode", JNull);
    if Truthy(p) then Get(p, k, JNull) else JNull
  }

  function MemberData(org: Json): Json
    requires org.JDict?
  {
    Get(org, "medlemsData", EmptyList)
  }

  function Members(org: Json): seq<Json>
    requires org.JDict?
  {
    Elements(MemberData(org))
  }

  function Attributes(member: Json): seq<Json>
    requires member.JDict?
  {
    Elements(Get(member, "attributter", EmptyList))
  }

  function Organisations(rel: Json): seq<Json>
    requires rel.JDict?
  {
    Elements(Get(rel, "organisationer", EmptyList))
  }

  predicate AttrSafe(attr: Json) {
    attr.JDict? && DictOrAbsent(attr, "periode") && FirstValueSafe(attr)
  }

  predicate AllAttrSafe(attrs: seq<Json>) {
    forall i :: 0 <= i < |attrs| ==> AttrSafe(attrs[i])
  }

  predicate MemberSafe(member: Json) {
    member.JDict? && Iterable(Get(member, "attributter", EmptyList)) && AllAttrSafe(Attributes(member))
  }

  predicate AllMemberSafe(members: seq<Json>) {
    forall i :: 0 <= i < |members| ==> MemberSafe(members[i])
  }

  predicate OrgSafe(org: Json) {
    org.JDict? && NameSafe(org) && Iterable(MemberData(org)) && AllMemberSafe(Members(org))
    && (!Truthy(MemberData(org)) ==> OrgPeriodSafe(org))
  }

  predicate AllOrgSafe(orgs: seq<Json>) {
    forall i :: 0 <= i < |orgs| ==> OrgSafe(orgs[i])
  }

  /** No member of the list has an attribute. */
  predicate NoAttributes(members: seq<Json>)
    requires AllMemberSafe(members)
  {
    forall i :: 0 <= i < |members| ==> Attributes(members[i]) == []
  }

  /** An organisation that emits no row: it has member data, and none of
      its members has an attribute. */
  predicate Silent(org: Json)
    requires OrgSafe(org)
  {
    Truthy(MemberData(org)) && NoAttributes(Members(org))
  }

  predicate AllSilent(orgs: seq<Json>)
    requires AllOrgSafe(orgs)
  {
    forall i :: 0 <= i < |orgs| ==> Silent(orgs[i])
  }

  /** The participant is read only when some organisation emits a row, so a
      truthy non-dict `deltager` raises only then. */
  predicate RelSafe(rel: Json) {
    rel.JDict? && Iterable(Get(rel, "organisationer", EmptyList))
    && AllOrgSafe(Organisations(rel))
    && (ParticipantSafe(rel) || AllSilent(Organisations(rel)))
  }

  predicate AllRelSafe(rels: seq<Json>) {
    forall i :: 0 <= i < |rels| ==> RelSafe(rels[i])
  }

  predicate RelationsSafe(rec: Json) {
    HasCompany(rec) && AllRelSafe(ListField(rec, "deltagerRelation"))
  }

  predicate BatchRelationsSafe(records: seq<Json>) {
    forall i :: 0 <= i < |records| ==> RelationsSafe(records[i])
  }

  // ---------------------------------------------------------------------
  // Participant relations: rows

  /** The columns every relation row shares: entity key, participant and
      organisation. */
  function RelationHead(rec: Json, d: Json, org: Json): Row
    requires HasCompany(rec) && d.JDict? && org.JDict? && NameSafe(org)
  {
    EntityKey(rec) + [
      ("deltagerEnhedsNummer", Get(d, "enhedsNummer", JNull)),
      ("deltagerEnhedstype", Get(d, "enhedstype", JNull)),
      ("deltagerForretningsnoegle", Get(d, "forretningsnoegle", JNull)),
      ("organisationHovedtype", Get(org, "hovedtype", JNull)),
      ("organisationNavn", OrgName(org))]
  }

  /** The row of one attribute of one member. */
  function RelationRow(rec: Json, d: Json, org: Json, attr: Json): Row
    requires HasCompany(rec) && d.JDict? && org.JDict? && NameSafe(org) && AttrSafe(attr)
  {
    RelationHead(rec, d, org) + [
      ("attributType", Get(attr, "type", JNull)),
      ("attributVapitype", Get(attr, "vapitype", JNull)),
      ("attributSekvensnr", Get(attr, "sekvensnr", JNull)),
      ("attributVaerdi", FirstValue(attr))]
    + Period(attr) + [("sidstOpdateret", Get(attr, "sidstOpdateret", JNull))]
  }

  /** The row of an organisation without member data. */
  function Placeholder(rec: Json, d: Json, org: Json): Row
    requires HasCompany(rec) && d.JDict? && org.JDict? && NameSafe(org) && OrgPeriodSafe(org)
  {
    RelationHead(rec, d, org) + [
      ("attributType", JNull),
      ("attributVapitype", JNull),
      ("attributSekvensnr", JNull),
      ("attributVaerdi", JNull),
      ("gyldigFra", OrgPeriod(org, "gyldigFra")),
      ("gyldigTil", OrgPeriod(org, "gyldigTil")),
      ("sidstOpdateret", Get(org, "sidstOpdateret", JNull))]
  }

  function AttrRows(rec: Json, d: Json, org: Json, attrs: seq<Json>): (rows: seq<Row>)
    requires HasCompany(rec) && (d.JDict? || attrs == []) && org.JDict? && NameSafe(org)
    requires AllAttrSafe(attrs)
    ensures |rows| == |attrs|
  {
    seq(|attrs|, k requires 0 <= k < |attrs| => RelationRow(rec, d, org, attrs[k]))
  }

  function MembersRows(rec: Json, d: Json, org: Json, members: seq<Json>): seq<Row>
    requires HasCompany(rec) && org.JDict? && NameSafe(org)
    requires AllMemberSafe(members) && (d.JDict? || NoAttributes(members))
  {
    if members == [] then []
    else
      var last := members[|members| - 1];
      MembersRows(rec, d, org, members[..|members| - 1]) + AttrRows(rec, d, org, Attributes(last))
  }

  /** The rows of one organisation: its members' attribute rows, then a
      placeholder if it has no member data. */
  function OrgRows(rec: Json, d: Json, org: Json): seq<Row>
    requires HasCompany(rec) && OrgSafe(org) && (d.JDict? || Silent(org))
  {
    MembersRows(rec, d, org, Members(org))
    + (if !Truthy(MemberData(org)) then [Placeholder(rec, d, org)] else [])
  }

  function OrgsRows(rec: Json, d: Json, orgs: seq<Json>): seq<Row>
    requires HasCompany(rec)
    requires AllOrgSafe(orgs) && (d.JDict? || AllSilent(orgs))
  {
    if orgs == [] then []
    else OrgsRows(rec, d, orgs[..|orgs| - 1]) + OrgRows(rec, d, orgs[|orgs| - 1])
  }

  /** The rows of one participant relation. */
  function RelRows(rec: Json, rel: Json): seq<Row>
    requires HasCompany(rec) && RelSafe(rel)
  {
    OrgsRows(rec, Participant(rel), Organisations(rel))
  }

  function RelsRows(rec: Json, rels: seq<Json>): seq<Row>
    requires HasCompany(rec)
    requires AllRelSafe(rels)
  {
    if rels == [] then []
    else RelsRows(rec, rels[..|rels| - 1]) + RelRows(rec, rels[|rels| - 1])
  }

  /** The rows of the participant-relation table of a batch. */
  function DeltagerRows(records: seq<Json>): seq<Row>
    requires BatchRelationsSafe(records)
  {
    if records == [] then []
    else
      var rec := records[|records| - 1];
      DeltagerRows(records[..|records| - 1]) + RelsRows(rec, ListField(rec, "deltagerRelation"))
  }

  // ---------------------------------------------------------------------
  // Participant relations: the loops

  /** `explode_deltager_relation(json_data)` */
  method ExplodeDeltagerRelation(records: seq<Json>) returns (df: Frame)
    requires BatchRelationsSafe(records)
    ensures df == Normalize(DeltagerRows(records))
  {
    var rows: seq<Row> := [];
    var i := 0;
    while i < |records|
      invariant 0 <= i <= |records|
      invariant rows == DeltagerRows(records[..i])
    {
      var rec := records[i];
      assert records[..i + 1][..i] == records[..i];
      var relations := Get(Company(rec), "deltagerRelation", EmptyList);
      var relRows: seq<Row> := [];
      if relations.JList? && |relations.items| > 0 {
        relRows := ExplodeRelations(rec, relations.items);
      }
      rows := rows + relRows;
      i := i + 1;
    }
    assert records[..i] == records;
    df := Normalize(rows);
  }

  /** The relation loop of one hit. */
  method ExplodeRelations(rec: Json, rels: seq<Json>) returns (rows: seq<Row>)
    requires HasCompany(rec) && AllRelSafe(rels)
    ensures rows == RelsRows(rec, rels)
  {
    rows := [];
    var r := 0;
    while r < |rels|
      invariant 0 <= r <= |rels|
      invariant rows == RelsRows(rec, rels[..r])
    {
      assert rels[..r + 1][..r] == rels[..r];
      var relRows := ExplodeRelation(rec, rels[r]);
      rows := rows + relRows;
      r := r + 1;
    }
    assert rels[..r] == rels;
  }

  /** The organisation loop of one relation. */
  method ExplodeRelation(rec: Json, rel: Json) returns (rows: seq<Row>)
    requires HasCompany(rec) && RelSafe(rel)
    ensures rows == RelRows(rec, rel)
  {
    var deltager := Participant(rel);
    var organisationer := Organisations(rel);
    rows := [];
    var o := 0;
    while o < |organisationer|
      invariant 0 <= o <= |organisationer|
      invariant rows == OrgsRows(rec, deltager, organisationer[..o])
    {
      assert organisationer[..o + 1][..o] == organisationer[..o];
      var orgRows := ExplodeOrganisation(rec, deltager, organisationer[o]);
      rows := rows + orgRows;
      o := o + 1;
    }
    assert organisationer[..o] == organisationer;
  }

  /** The member and attribute loops of one organisation, and its
      placeholder row. */
  method ExplodeOrganisation(rec: Json, deltager: Json, org: Json) returns (rows: seq<Row>)
    requires HasCompany(rec) && OrgSafe(org) && (deltager.JDict? || Silent(org))
    ensures rows == OrgRows(rec, deltager, org)
  {
    var medlemsdata := MemberData(org);
    var members := Elements(medlemsdata);
    rows := [];
    var m := 0;
    while m < |members|
      invariant 0 <= m <= |members|
      invariant rows == MembersRows(rec, deltager, org, members[..m])
    {
      assert members[..m + 1][..m] == members[..m];
      var attributter := Attributes(members[m]);
      ghost var before := rows;
      var a := 0;
      while a < |attributter|
        invariant 0 <= a <= |attributter|
        invariant rows == before + AttrRows(rec, deltager, org, attributter)[..a]
      {
        assert AttrRows(rec, deltager, org, attributter)[..a + 1]
            == AttrRows(rec, deltager, org, attributter)[..a] + [RelationRow(rec, deltager, org, attributter[a])];
        rows := rows + [RelationRow(rec, deltager, org, attributter[a])];
        a := a + 1;
      }
      assert AttrRows(rec, deltager, org, attributter)[..a] == AttrRows(rec, deltager, org, attributter);
      m := m + 1;
    }
    assert members[..m] == members;
    if !Truthy(medlemsdata) {
      rows := rows + [Placeholder(rec, deltager, org)];
    }
  }

  // ---------------------------------------------------------------------
  // Participant relations: properties

  /** The number of attributes over a list of members. */
  function AttrTotal(members: seq<Json>): nat
    requires AllMemberSafe(members)
  {
    if members == [] then 0
    else AttrTotal(members[..|members| - 1]) + |Attributes(members[|members| - 1])|
  }

  lemma {:induction false} MembersRowsCount(rec: Json, d: Json, org: Json, members: seq<Json>)
    requires HasCompany(rec) && org.JDict? && NameSafe(org)
    requires AllMemberSafe(members) && (d.JDict? || NoAttributes(members))
    ensures |MembersRows(rec, d, org, members)| == AttrTotal(members)
    decreases |members|
  {
    if members != [] {
      MembersRowsCount(rec, d, org, members[..|members| - 1]);
    }
  }

  /** An organisation gives exactly one placeholder row when it has no
      member data, and otherwise one row per attribute of its members, so a
      member without attributes adds nothing. */
  lemma OrgRowsCount(rec: Json, d: Json, org: Json)
    requires HasCompany(rec) && OrgSafe(org) && (d.JDict? || Silent(org))
    ensures |OrgRows(rec, d, org)| == if Truthy(MemberData(org)) then AttrTotal(Members(org)) else 1
  {
    FalsyIffNoElements(MemberData(org));
    MembersRowsCount(rec, d, org, Members(org));
  }

  /** The placeholder of an organisation without member data has null
      attribute columns, the organisation's own period (null when it has
      none) and the organisation's `sidstOpdateret`. */
  lemma PlaceholderRow(rec: Json, d: Json, org: Json)
    requires HasCompany(rec) && d.JDict? && OrgSafe(org)
    requires !Truthy(MemberData(org))
    ensures |OrgRows(rec, d, org)| == 1
    ensures var row := OrgRows(rec, d, org)[0];
      var p := Get(org, "periode", JNull);
      Lookup(row, "attributType") == Val(JNull)
      && Lookup(row, "attributVapitype") == Val(JNull)
      && Lookup(row, "attributSekvensnr") == Val(JNull)
      && Lookup(row, "attributVaerdi") == Val(JNull)
      && Lookup(row, "gyldigFra") == Val(if p.JDict? && p.fields != map[] then Get(p, "gyldigFra", JNull) else JNull)
      && Lookup(row, "gyldigTil") == Val(if p.JDict? && p.fields != map[] then Get(p, "gyldigTil", JNull) else JNull)
      && Lookup(row, "sidstOpdateret") == Val(Get(org, "sidstOpdateret", JNull))
  {
    FalsyIffNoElements(MemberData(org));
    assert Members(org) == [];
    assert OrgRows(rec, d, org) == [Placeholder(rec, d, org)];
    PlaceholderNulls(rec, d, org);
    PlaceholderDates(rec, d, org);
  }

  /** The attribute columns of a placeholder are null. */
  lemma PlaceholderNulls(rec: Json, d: Json, org: Json)
    requires HasCompany(rec) && d.JDict? && org.JDict? && NameSafe(org) && OrgPeriodSafe(org)
    ensures var row := Placeholder(rec, d, org);
      Lookup(row, "attributType") == Val(JNull)
      && Lookup(row, "attributVapitype") == Val(JNull)
      && Lookup(row, "attributSekvensnr") == Val(JNull)
      && Lookup(row, "attributVaerdi") == Val(JNull)
  {
    var row := Placeholder(rec, d, org);
    assert |row| == 14;
    LookupAt(row, 7, "attributType");
    LookupAt(row, 8, "attributVapitype");
    LookupAt(row, 9, "attributSekvensnr");
    LookupAt(row, 10, "attributVaerdi");
  }

  /** The period and update columns of a placeholder come from the
      organisation. */
  lemma PlaceholderDates(rec: Json, d: Json, org: Json)
    requires HasCompany(rec) && d.JDict? && org.JDict? && NameSafe(org) && OrgPeriodSafe(org)
    ensures var row := Placeholder(rec, d, org);
      Lookup(row, "gyldigFra") == Val(OrgPeriod(org, "gyldigFra"))
      && Lookup(row, "gyldigTil") == Val(OrgPeriod(org, "gyldigTil"))
      && Lookup(row, "sidstOpdateret") == Val(Get(org, "sidstOpdateret", JNull))
  {
    var row := Placeholder(rec, d, org);
    assert |row| == 14;
    LookupAt(row, 11, "gyldigFra");
    LookupAt(row, 12, "gyldigTil");
    LookupAt(row, 13, "sidstOpdateret");
  }

  /** A relation with no organisations adds no rows. */
  lemma NoOrganisationsNoRows(rec: Json, rel: Json)
    requires HasCompany(rec) && RelSafe(rel)
    requires !Truthy(Get(rel, "organisationer", EmptyList))
    ensures RelRows(rec, rel) == []
  {
    FalsyIffNoElements(Get(rel, "organisationer", EmptyList));
  }

  lemma {:induction false} AttrTotalZero(members: seq<Json>)
    requires AllMemberSafe(members)
    ensures AttrTotal(members) == 0 <==> NoAttributes(members)
    decreases |members|
  {
    if members != [] {
      var init := members[..|members| - 1];
      AttrTotalZero(init);
      if NoAttributes(members) {
        assert NoAttributes(init) by {
          forall i | 0 <= i < |init| ensures Attributes(init[i]) == [] {
            assert init[i] == members[i];
          }
        }
      }
      if AttrTotal(members) == 0 {
        forall i | 0 <= i < |members| ensures Attributes(members[i]) == [] {
          if i < |init| { assert init[i] == members[i]; }
        }
      }
    }
  }

  /** An organisation adds no rows exactly when it is silent: it has member
      data and none of its members has an attribute. */
  lemma OrgRowsEmpty(rec: Json, d: Json, org: Json)
    requires HasCompany(rec) && OrgSafe(org) && (d.JDict? || Silent(org))
    ensures OrgRows(rec, d, org) == [] <==> Silent(org)
  {
    OrgRowsCount(rec, d, org);
    AttrTotalZero(Members(org));
  }

  /** The raw row count of a list of organisations is zero exactly when
      all of them are silent. */
  lemma {:induction false} OrgsRowCountZero(orgs: seq<Json>)
    requires AllOrgSafe(orgs)
    ensures OrgsRowCount(orgs) == 0 <==> AllSilent(orgs)
    decreases |orgs|
  {
    if orgs != [] {
      var init := orgs[..|orgs| - 1];
      var last := orgs[|orgs| - 1];
      OrgsRowCountZero(init);
      AttrTotalZero(Members(last));
      assert OrgRowCount(last) == 0 <==> Silent(last);
      if AllSilent(orgs) {
        assert AllSilent(init) by {
          forall i | 0 <= i < |init| ensures Silent(init[i]) {
            assert init[i] == orgs[i];
          }
        }
      }
      if AllSilent(init) && Silent(last) {
        forall i | 0 <= i < |orgs| ensures Silent(orgs[i]) {
          if i < |init| { assert init[i] == orgs[i]; }
        }
      }
    }
  }

  /** A relation adds no rows exactly when all of its organisations are
      silent; only then may its `deltager` be a truthy non-dict. */
  lemma RelationNoRows(rec: Json, rel: Json)
    requires HasCompany(rec) && RelSafe(rel)
    ensures RelRows(rec, rel) == [] <==> AllSilent(Organisations(rel))
    ensures !ParticipantSafe(rel) ==> RelRows(rec, rel) == []
  {
    OrgsRowsCount(rec, Participant(rel), Organisations(rel));
    OrgsRowCountZero(Organisations(rel));
  }

  /** The content of an attribute row: the participant's fields (all null
      for a missing or null `deltager`), the name of the organisation's first
      `organisationsNavn` entry (null when there is none), and the first
      `vaerdier` entry's value (null when there is none). */
  lemma RelationRowContent(rec: Json, rel: Json, org: Json, attr: Json)
    requires HasCompany(rec) && rel.JDict? && ParticipantSafe(rel) && org.JDict? && NameSafe(org) && AttrSafe(attr)
    ensures var row := RelationRow(rec, Participant(rel), org, attr);
      var dv := Get(rel, "deltager", JNull);
      var ns := Get(org, "organisationsNavn", EmptyList);
      var vs := Get(attr, "vaerdier", JNull);
      (dv == JNull ==> Lookup(row, "deltagerEnhedsNummer") == Val(JNull)
                       && Lookup(row, "deltagerEnhedstype") == Val(JNull)
                       && Lookup(row, "deltagerForretningsnoegle") == Val(JNull))
      && (Truthy(dv) ==> Lookup(row, "deltagerEnhedsNummer") == Val(Get(dv, "enhedsNummer", JNull)))
      && Lookup(row, "organisationNavn") == Val(if ns.JList? && ns.items != [] then Get(ns.items[0], "navn", JNull) else JNull)
      && Lookup(row, "attributVaerdi") == Val(if vs.JList? && vs.items != [] then Get(vs.items[0], "vaerdi", JNull) else JNull)
  {
    RelationParticipant(rec, Participant(rel), org, attr);
    RelationNameAndValue(rec, Participant(rel), org, attr);
  }

  /** The participant columns of an attribute row come from `d`. */
  lemma RelationParticipant(rec: Json, d: Json, org: Json, attr: Json)
    requires HasCompany(rec) && d.JDict? && org.JDict? && NameSafe(org) && AttrSafe(attr)
    ensures var row := RelationRow(rec, d, org, attr);
      Lookup(row, "deltagerEnhedsNummer") == Val(Get(d, "enhedsNummer", JNull))
      && Lookup(row, "deltagerEnhedstype") == Val(Get(d, "enhedstype", JNull))
      && Lookup(row, "deltagerForretningsnoegle") == Val(Get(d, "forretningsnoegle", JNull))
  {
    var row := RelationRow(rec, d, org, attr);
    assert |row| == 14;
    LookupAt(row, 2, "deltagerEnhedsNummer");
    LookupAt(row, 3, "deltagerEnhedstype");
    LookupAt(row, 4, "deltagerForretningsnoegle");
  }

  /** The organisation name and value columns of an attribute row. */
  lemma RelationNameAndValue(rec: Json, d: Json, org: Json, attr: Json)
    requires HasCompany(rec) && d.JDict? && org.JDict? && NameSafe(org) && AttrSafe(attr)
    ensures var row := RelationRow(rec, d, org, attr);
      Lookup(row, "organisationNavn") == Val(OrgName(org))
      && Lookup(row, "attributVaerdi") == Val(FirstValue(attr))
  {
    var row := RelationRow(rec, d, org, attr);
    assert |row| == 14;
    LookupAt(row, 6, "organisationNavn");
    LookupAt(row, 10, "attributVaerdi");
  }

  // ---------------------------------------------------------------------
  // Company attributes

  predicate AttributeSafe(attr: Json) {
    attr.JDict? && DictOrAbsent(attr, "periode") && DictList(Get(attr, "vaerdier", EmptyList))
  }

  predicate AllAttributeSafe(attrs: seq<Json>) {
    forall i :: 0 <= i < |attrs| ==> AttributeSafe(attrs[i])
  }

  predicate AttributesSafe(rec: Json) {
    HasCompany(rec) && AllAttributeSafe(ListField(rec, "attributter"))
  }

  predicate BatchAttributesSafe(records: seq<Json>) {
    forall i :: 0 <= i < |records| ==> AttributesSafe(records[i])
  }

  /** `attr.get('vaerdier', [])` */
  function Values(attr: Json): seq<Json>
    requires attr.JDict?
  {
    Elements(Get(attr, "vaerdier", EmptyList))
  }

  /** The row of one value of one attribute (`vaerdi` null for the
      placeholder). */
  function AttributeRow(rec: Json, attr: Json, vaerdi: Json): Row
    requires HasCompany(rec) && AttributeSafe(attr)
  {
    EntityKey(rec) + [
      ("type", Get(attr, "type", JNull)),
      ("vapitype", Get(attr, "vapitype", JNull)),
      ("sekvensnr", Get(attr, "sekvensnr", JNull)),
      ("vaerdi", vaerdi)]
    + Period(attr) + [("sidstOpdateret", Get(attr, "sidstOpdateret", JNull))]
  }

  /** The rows of one attribute: one per value, then a placeholder if
      `vaerdier` is falsy. */
  function AttributeRows(rec: Json, attr: Json): seq<Row>
    requires HasCompany(rec) && AttributeSafe(attr)
  {
    var vs := Values(attr);
    seq(|vs|, k requires 0 <= k < |vs| => AttributeRow(rec, attr, Get(vs[k], "vaerdi", JNull)))
    + (if !Truthy(Get(attr, "vaerdier", EmptyList)) then [AttributeRow(rec, attr, JNull)] else [])
  }

  function CompanyAttributeRows(rec: Json, attrs: seq<Json>): seq<Row>
    requires HasCompany(rec)
    requires AllAttributeSafe(attrs)
  {
    if attrs == [] then []
    else CompanyAttributeRows(rec, attrs[..|attrs| - 1]) + AttributeRows(rec, attrs[|attrs| - 1])
  }

  /** The rows of the attribute table of a batch. */
  function AttributterRows(records: seq<Json>): seq<Row>
    requires BatchAttributesSafe(records)
  {
    if records == [] then []
    else
      var rec := records[|records| - 1];
      AttributterRows(records[..|records| - 1]) + CompanyAttributeRows(rec, ListField(rec, "attributter"))
  }

  /** `explode_attributter(json_data)` */
  method ExplodeAttributter(records: seq<Json>) returns (df: Frame)
    requires BatchAttributesSafe(records)
    ensures df == Normalize(AttributterRows(records))
  {
    var rows: seq<Row> := [];
    var i := 0;
    while i < |records|
      invariant 0 <= i <= |records|
      invariant rows == AttributterRows(records[..i])
    {
      var rec := records[i];
      assert records[..i + 1][..i] == records[..i];
      var attributter := Get(Company(rec), "attributter", EmptyList);
      var attrRows: seq<Row> := [];
      if attributter.JList? && |attributter.items| > 0 {
        attrRows := ExplodeCompanyAttributes(rec, attributter.items);
      }
      rows := rows + attrRows;
      i := i + 1;
    }
    assert records[..i] == records;
    df := Normalize(rows);
  }

  /** The attribute loop of one hit. */
  method ExplodeCompanyAttributes(rec: Json, attrs: seq<Json>) returns (rows: seq<Row>)
    requires HasCompany(rec) && AllAttributeSafe(attrs)
    ensures rows == CompanyAttributeRows(rec, attrs)
  {
    rows := [];
    var a := 0;
    while a < |attrs|
      invariant 0 <= a <= |attrs|
      invariant rows == CompanyAttributeRows(rec, attrs[..a])
    {
      assert attrs[..a + 1][..a] == attrs[..a];
      var attrRows := ExplodeAttribute(rec, attrs[a]);
      rows := rows + attrRows;
      a := a + 1;
    }
    assert attrs[..a] == attrs;
  }

  /** The value loop of one attribute, and its placeholder row. */
  method ExplodeAttribute(rec: Json, attr: Json) returns (rows: seq<Row>)
    requires HasCompany(rec) && AttributeSafe(attr)
    ensures rows == AttributeRows(rec, attr)
  {
    var vaerdier := Get(attr, "vaerdier", EmptyList);
    var vs := Elements(vaerdier);
    rows := [];
    var k := 0;
    while k < |vs|
      invariant 0 <= k <= |vs|
      invariant |rows| == k
      invariant forall j :: 0 <= j < k ==> rows[j] == AttributeRow(rec, attr, Get(vs[j], "vaerdi", JNull))
    {
      assert vs[k] in vs;
      rows := rows + [AttributeRow(rec, attr, Get(vs[k], "vaerdi", JNull))];
      k := k + 1;
    }
    if !Truthy(vaerdier) {
      rows := rows + [AttributeRow(rec, attr, JNull)];
    }
  }

  /** An attribute gives `max(1, |vaerdier|)` rows: one per value, or one
      placeholder with a null `vaerdi` when it has none. */
  lemma AttributeRowsCount(rec: Json, attr: Json)
    requires HasCompany(rec) && AttributeSafe(attr)
    ensures |AttributeRows(rec, attr)| == if |Values(attr)| == 0 then 1 else |Values(attr)|
    ensures Values(attr) == [] ==> Lookup(AttributeRows(rec, attr)[0], "vaerdi") == Val(JNull)
    ensures forall k :: 0 <= k < |Values(attr)| ==>
      Lookup(AttributeRows(rec, attr)[k], "vaerdi") == Val(Get(Values(attr)[k], "vaerdi", JNull))
  {
    FalsyIffNoElements(Get(attr, "vaerdier", EmptyList));
    forall v: Json ensures Lookup(AttributeRow(rec, attr, v), "vaerdi") == Val(v) {
      LookupAt(AttributeRow(rec, attr, v), 5, "vaerdi");
    }
  }

  // ---------------------------------------------------------------------
  // Row counts of whole batches

  /** The rows one organisation gives, read off the raw record. */
  function OrgRowCount(org: Json): nat
    requires OrgSafe(org)
  {
    if Truthy(MemberData(org)) then AttrTotal(Members(org)) else 1
  }

  function OrgsRowCount(orgs: seq<Json>): nat
    requires AllOrgSafe(orgs)
  {
    if orgs == [] then 0
    else OrgsRowCount(orgs[..|orgs| - 1]) + OrgRowCount(orgs[|orgs| - 1])
  }

  function RelsRowCount(rels: seq<Json>): nat
    requires AllRelSafe(rels)
  {
    if rels == [] then 0
    else RelsRowCount(rels[..|rels| - 1]) + OrgsRowCount(Organisations(rels[|rels| - 1]))
  }

  function DeltagerRowCount(records: seq<Json>): nat
    requires BatchRelationsSafe(records)
  {
    if records == [] then 0
    else
      var rec := records[|records| - 1];
      DeltagerRowCount(records[..|records| - 1]) + RelsRowCount(ListField(rec, "deltagerRelation"))
  }

  lemma {:induction false} OrgsRowsCount(rec: Json, d: Json, orgs: seq<Json>)
    requires HasCompany(rec) && AllOrgSafe(orgs) && (d.JDict? || AllSilent(orgs))
    ensures |OrgsRows(rec, d, orgs)| == OrgsRowCount(orgs)
    decreases |orgs|
  {
    if orgs != [] {
      OrgsRowsCount(rec, d, orgs[..|orgs| - 1]);
      OrgRowsCount(rec, d, orgs[|orgs| - 1]);
    }
  }

  lemma {:induction false} RelsRowsCount(rec: Json, rels: seq<Json>)
    requires HasCompany(rec) && AllRelSafe(rels)
    ensures |RelsRows(rec, rels)| == RelsRowCount(rels)
    decreases |rels|
  {
    if rels != [] {
      var last := rels[|rels| - 1];
      RelsRowsCount(rec, rels[..|rels| - 1]);
      OrgsRowsCount(rec, Participant(last), Organisations(last));
    }
  }

  /** The participant-relation table of a batch has one row per attribute
      of every member of every organisation of every relation, plus one
      placeholder per organisation without member data. */
  lemma {:induction false} DeltagerRowsCount(records: seq<Json>)
    requires BatchRelationsSafe(records)
    ensures |DeltagerRows(records)| == DeltagerRowCount(records)
    decreases |records|
  {
    if records != [] {
      var rec := records[|records| - 1];
      DeltagerRowsCount(records[..|records| - 1]);
      RelsRowsCount(rec, ListField(rec, "deltagerRelation"));
    }
  }

  /** The rows one attribute gives, read off the raw record. */
  function AttributeRowCount(attr: Json): nat
    requires AttributeSafe(attr)
  {
    if |Values(attr)| == 0 then 1 else |Values(attr)|
  }

  function AttributesRowCount(attrs: seq<Json>): nat
    requires AllAttributeSafe(attrs)
  {
    if attrs == [] then 0
    else AttributesRowCount(attrs[..|attrs| - 1]) + AttributeRowCount(attrs[|attrs| - 1])
  }

  function AttributterRowCount(records: seq<Json>): nat
    requires BatchAttributesSafe(records)
  {
    if records == [] then 0
    else
      var rec := records[|records| - 1];
      AttributterRowCount(records[..|records| - 1]) + AttributesRowCount(ListField(rec, "attributter"))
  }

  lemma {:induction false} CompanyAttributeRowsCount(rec: Json, attrs: seq<Json>)
    requires HasCompany(rec) && AllAttributeSafe(attrs)
    ensures |CompanyAttributeRows(rec, attrs)| == AttributesRowCount(attrs)
    decreases |attrs|
  {
    if attrs != [] {
      CompanyAttributeRowsCount(rec, attrs[..|attrs| - 1]);
      AttributeRowsCount(rec, attrs[|attrs| - 1]);
    }
  }

  /** The attribute table of a batch has `max(1, |vaerdier|)` rows per
      attribute of every company. */
  lemma {:induction false} AttributterRowsCount(records: seq<Json>)
    requires BatchAttributesSafe(records)
    ensures |AttributterRows(records)| == AttributterRowCount(records)
    decreases |records|
  {
    if records != [] {
      var rec := records[|records| - 1];
      AttributterRowsCount(records[..|records| - 1]);
      CompanyAttributeRowsCount(rec, ListField(rec, "attributter"));
    }
  }
}
