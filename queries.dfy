/** The search bodies the download scripts post, the output base name a year
    filter gives, and what a year filter selects.

    A query is kept as the structure the scripts write (a match-all, a date
    range with its two bound strings, or a `bool.should` of ranges), and its
    meaning is given by `Matches` over a document's date fields: a range
    bound is read back from its text, as the server does, and compared as a
    calendar date. */
module Queries {
  import opened Json
  import opened Text

  datatype Date = Date(year: int, month: int, day: int)

  /** A calendar-shaped date: the month and day are in range. */
  predicate ValidDate(d: Date) {
    1 <= d.month <= 12 && 1 <= d.day <= 31
  }

  predicate DateLe(a: Date, b: Date) {
    a.year < b.year
    || (a.year == b.year && (a.month < b.month || (a.month == b.month && a.day <= b.day)))
  }

  /** Reads `<year>-MM-DD`, the year optionally signed. */
  function ParseDate(s: string): Option<Date> {
    if |s| >= 7 && s[|s| - 6] == '-' && s[|s| - 3] == '-'
       && AllDigits(s[|s| - 5..|s| - 3]) && AllDigits(s[|s| - 2..])
    then
      match ParseInt(s[..|s| - 6])
      case Some(y) => Some(Date(y, ParseNat(s[|s| - 5..|s| - 3]), ParseNat(s[|s| - 2..])))
      case None => None
    else None
  }

  datatype Query =
    | MatchAll
    | Range(field: string, gte: string, lte: string)
    | Should(clauses: seq<Query>, minimumShouldMatch: nat)

  /** The posted body: page size, `sort: ["_doc"]`, `track_total_hits` and
      the query. */
  datatype SearchBody = SearchBody(size: int, sortByDoc: bool, trackTotalHits: bool, query: Query)

  const LastUpdated := "Vrvirksomhed.sidstOpdateret"
  const PeriodStart := "regnskab.regnskabsperiode.startDato"
  const PeriodEnd := "regnskab.regnskabsperiode.slutDato"

  /** The scroll keep-alive of the newer company script, and of the older
      company script and the financial-statements script. */
  const KeepAlive := "5m"
  const LegacyKeepAlive := "1m"

  /** The URL of the first search: the endpoint with `?scroll=<keep-alive>`. */
  function ScrollUrl(endpoint: string, keepAlive: string): string {
    endpoint + "?scroll=" + keepAlive
  }

  function YearStart(year: int): string { IntText(year) + "-01-01" }

  function YearEnd(year: int): string { IntText(year) + "-12-31" }

  /** A range on `field` from `year-01-01` to `year-12-31`, both inclusive. */
  function YearRange(field: string, year: int): Query {
    Range(field, YearStart(year), YearEnd(year))
  }

  /** The newer company script's query: sorted by `_doc`, with the total hit
      count tracked, over every company or those updated in `year`. */
  function CompanyQuery(size: int, year: Option<int>): (b: SearchBody)
    ensures b.size == size && b.sortByDoc && b.trackTotalHits
  {
    SearchBody(size, true, true, if year.Some? then YearRange(LastUpdated, year.value) else MatchAll)
  }

  /** The older company script's query: the same filter, no sort and no
      total count. */
  function LegacyCompanyQuery(size: int, year: Option<int>): (b: SearchBody)
    ensures b.size == size && !b.sortByDoc && !b.trackTotalHits
  {
    SearchBody(size, false, false, if year.Some? then YearRange(LastUpdated, year.value) else MatchAll)
  }

  /** The financial-statements query: an accounting period that starts or
      ends in `year`, or everything. */
  function FinancialQuery(size: int, year: Option<int>): (b: SearchBody)
    ensures b.size == size && !b.sortByDoc && !b.trackTotalHits
  {
    SearchBody(size, false, false,
      if year.Some? then Should([YearRange(PeriodStart, year.value), YearRange(PeriodEnd, year.value)], 1)
      else MatchAll)
  }

  /** The output base name: `<name>_<year>` with a year filter, else `name`. */
  function OutputBaseName(name: string, year: Option<int>): (r: string)
    ensures year.None? ==> r == name
    ensures year.Some? ==> |r| > |name| + 1 && r[..|name|] == name && r[|name|] == '_'
                           && ParseInt(r[|name| + 1..]) == Some(year.value)
  {
    if year.Some? then
      var r := name + "_" + IntText(year.value);
      assert r[|name| + 1..] == IntText(year.value);
      IntTextRoundTrip(year.value);
      r
    else name
  }

  /** Whether a document, given by its date fields, satisfies a query. A
      range needs the field and two readable bounds. */
  function Matches(q: Query, doc: map<string, Date>): bool
    decreases q, 1
  {
    match q
    case MatchAll => true
    case Range(f, gte, lte) =>
      f in doc && ParseDate(gte).Some? && ParseDate(lte).Some?
      && DateLe(ParseDate(gte).value, doc[f]) && DateLe(doc[f], ParseDate(lte).value)
    case Should(cs, m) => MatchCount(cs, doc) >= m
  }

  /** How many of the clauses a document satisfies. */
  function MatchCount(cs: seq<Query>, doc: map<string, Date>): nat
    decreases cs, 0
  {
    if cs == [] then 0 else (if Matches(cs[0], doc) then 1 else 0) + MatchCount(cs[1..], doc)
  }

  /** A year followed by a two-digit month and day reads back as that date. */
  lemma DateText(t: string, mm: string, dd: string)
    requires ParseInt(t).Some? && |mm| == 2 && |dd| == 2 && AllDigits(mm) && AllDigits(dd)
    ensures ParseDate(t + ['-'] + mm + ['-'] + dd) == Some(Date(ParseInt(t).value, ParseNat(mm), ParseNat(dd)))
  {
    var s := t + ['-'] + mm + ['-'] + dd;
    assert s[..|s| - 6] == t;
    assert s[|s| - 5..|s| - 3] == mm;
    assert s[|s| - 2..] == dd;
  }

  /** The year bounds read back as the first and last day of the year. */
  lemma YearBoundsParse(year: int)
    ensures ParseDate(YearStart(year)) == Some(Date(year, 1, 1))
    ensures ParseDate(YearEnd(year)) == Some(Date(year, 12, 31))
  {
    IntTextRoundTrip(year);
    var t := IntText(year);
    BoundDigits();
    BoundsText(t);
    DateText(t, "01", "01");
    DateText(t, "12", "31");
  }

  /** The bound suffixes split into their dash, month, dash and day. */
  lemma BoundsText(t: string)
    ensures t + "-01-01" == t + ['-'] + "01" + ['-'] + "01"
    ensures t + "-12-31" == t + ['-'] + "12" + ['-'] + "31"
  {
    assert "-01-01" == ['-'] + "01" + ['-'] + "01";
    assert "-12-31" == ['-'] + "12" + ['-'] + "31";
  }

  /** The month and day digits of the year bounds. */
  lemma BoundDigits()
    ensures AllDigits("01") && AllDigits("12") && AllDigits("31")
    ensures ParseNat("01") == 1 && ParseNat("12") == 12 && ParseNat("31") == 31
  {
    assert ParseNat("01") == 1 by { assert "01"[..1] == "0"; assert "0"[..0] == ""; }
    assert ParseNat("12") == 12 by { assert "12"[..1] == "1"; assert "1"[..0] == ""; }
    assert ParseNat("31") == 31 by { assert "31"[..1] == "3"; assert "3"[..0] == ""; }
  }

  /** A year range selects exactly the documents whose date in that field
      falls in the year. */
  lemma YearRangeMatches(field: string, year: int, doc: map<string, Date>)
    requires field in doc ==> ValidDate(doc[field])
    ensures Matches(YearRange(field, year), doc) <==> field in doc && doc[field].year == year
  {
    YearBoundsParse(year);
  }

  /** Without a year every company is asked for; with one, exactly those
      last updated in that year. */
  lemma CompanyQuerySelects(size: int, year: Option<int>, doc: map<string, Date>)
    requires LastUpdated in doc ==> ValidDate(doc[LastUpdated])
    ensures Matches(CompanyQuery(size, year).query, doc)
        <==> year.None? || (LastUpdated in doc && doc[LastUpdated].year == year.value)
    ensures LegacyCompanyQuery(size, year).query == CompanyQuery(size, year).query
  {
    if year.Some? {
      YearRangeMatches(LastUpdated, year.value, doc);
    }
  }

  /** With a year, a statement is asked for when its accounting period
      starts or ends in that year (either clause suffices). */
  lemma FinancialQuerySelects(size: int, year: Option<int>, doc: map<string, Date>)
    requires PeriodStart in doc ==> ValidDate(doc[PeriodStart])
    requires PeriodEnd in doc ==> ValidDate(doc[PeriodEnd])
    ensures Matches(FinancialQuery(size, year).query, doc)
        <==> year.None?
             || (PeriodStart in doc && doc[PeriodStart].year == year.value)
             || (PeriodEnd in doc && doc[PeriodEnd].year == year.value)
  {
    if year.Some? {
      var y := year.value;
      YearRangeMatches(PeriodStart, y, doc);
      YearRangeMatches(PeriodEnd, y, doc);
      var cs := [YearRange(PeriodStart, y), YearRange(PeriodEnd, y)];
      assert cs[1..][1..] == [];
      assert MatchCount(cs[1..], doc) == (if Matches(cs[1], doc) then 1 else 0) + MatchCount(cs[1..][1..], doc);
      assert MatchCount(cs, doc)
          == (if Matches(cs[0], doc) then 1 else 0) + (if Matches(cs[1], doc) then 1 else 0);
    }
  }
}
