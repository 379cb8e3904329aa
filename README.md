# CVR extraction scripts, modelled in Dafny

This project models the data-extraction core of a pipeline that downloads
Danish company data (CVR) and financial statements from the Virk
Elasticsearch distribution and turns them into tables:

- **The company download**, in two variants: the newer script
  `data_extraction/src/virksomhed_api_call.py` and the older one
  `src/virksomhed_api_call.py`. Each posts a search (all companies, or
  those last updated in a given year), pages through the hits with the
  scroll API, and then does one of two things:
  - **panel mode** ("explode") builds one main table of scalar fields plus
    one table per list field. Every row of a list-field table is led by the
    company's `cvrNummer` and `enhedsNummer`. The newer script returns 22
    tables; the older one returns 11.
  - **wide mode** builds one flat table in which list cells are
    JSON-encoded.
- **The financial-statements download**
  (`data_extraction/src/financial_statements_api_call.py`). It pages through
  statement metadata the same way. Each document list becomes one URL
  column per document type and format.
- **The individual-statements driver**
  (`data_extraction/src/individual_statements_api_call.py`). For each
  requested year it:
  - selects the XBRL instance URLs of that year;
  - fetches and parses them in batches, one fact per element that carries a
    `contextRef`;
  - pivots the year's facts to one row per entity and one column per tag.

What the model keeps and what it takes as parameters:

- **JSON values** are a datatype. Python's `dict.get` becomes `Get`, and
  truthiness becomes `Truthy`.
- **`pd.json_normalize`** is a parameter `flatten` that maps a value to its
  flat (path, leaf) record. The model fixes the rest of the frame: the
  columns are the paths in order of first appearance, and a missing path
  gives a missing cell.
- **The search server** is a scripted list of attempts, consumed one per
  POST. Every request the client sends is logged, so the contracts speak
  about cursor cleanup as well as about the hits returned.
- **Parsing dates** with pandas is a parameter `yearOf`.
- **Downloading an XBRL document** is a parameter `fetch`.

Each method that loops in the source is a Dafny `method` with loop
invariants. It is proved equal to a recursive specification function, and
the lemmas state what that function promises.

## Model

| member | source | states |
|---|---|---|
| Json.FalsyIffNoElements | data_extraction/src/virksomhed_api_call.py:329-354 | For any value the scripts iterate, it is falsy exactly when the loop over it runs zero times. So `if not medlemsdata` fires exactly when no attribute row was emitted. |
| Text.NatText | data_extraction/src/individual_statements_api_call.py:271 | The decimal text of a natural number is non-empty and made of digits only. |
| Text.NatTextRoundTrip | data_extraction/src/individual_statements_api_call.py:271 | Reading back the decimal text of a natural number gives the number. |
| Text.IntTextRoundTrip | data_extraction/src/virksomhed_api_call.py:510-517 | Reading back `f"{year}"` gives the year, negative years included. This makes year-derived names and date bounds unambiguous. |
| Frames.LookupAppend | data_extraction/src/virksomhed_api_call.py:335-351 | In a record built from two parts, a key is found in the first part if it is there, and otherwise in the second. |
| Frames.LookupAt | data_extraction/src/virksomhed_api_call.py:335-351 | A key's value in a record is the one at the key's first position. |
| Frames.LookupAbsent | data_extraction/src/virksomhed_api_call.py:335-351 | A key that occurs nowhere in a record reads as missing (NaN). |
| Frames.AddPathsSpec | data_extraction/src/virksomhed_api_call.py:373 | Adding one record's keys to the column list keeps the names distinct. The result holds exactly the old names plus the record's keys. |
| Frames.PathsSpec | data_extraction/src/virksomhed_api_call.py:373 | The columns of `pd.DataFrame(records)` are distinct. A name is a column exactly when some record has that key. |
| Frames.Normalize | data_extraction/src/virksomhed_api_call.py:373 | The frame has one row per record. Every column has that height, and the column names are the records' keys in order of first appearance. |
| Frames.ColumnNamedFinds | data_extraction/src/financial_statements_api_call.py:81 | When names are distinct, selecting a column by its name yields that very column. |
| Frames.SelectOwnNames | data_extraction/src/financial_statements_api_call.py:79-81 | Selecting a frame by the names of some of its own columns yields exactly those columns, in the order asked. |
| Frames.MetadataColumns | data_extraction/src/virksomhed_api_call.py:47 | The metadata columns are exactly the columns whose name starts with `_` but not with `_source`. |
| MainTable.SourceRecords | data_extraction/src/virksomhed_api_call.py:31-34 | One flattened `_source` record per hit. A hit without `_source` flattens `{}`. |
| MainTable.HitRecords | data_extraction/src/virksomhed_api_call.py:46 | One flattened record per whole hit. |
| MainTable.ScalarColumns | data_extraction/src/virksomhed_api_call.py:36-43 | A column is kept exactly when none of its cells holds a list. |
| MainTable.Reverse | data_extraction/src/virksomhed_api_call.py:49-51 | Position i of the result holds position n-1-i of the input. This is the order that repeated `insert(0, ...)` produces. |
| MainTable.CreateMainDataframe | data_extraction/src/virksomhed_api_call.py:23-53 | The loops build the main table: the metadata columns inserted at the front one by one, then the scalar `_source` columns. |
| MainTable.SimpleColumnNames | data_extraction/src/virksomhed_api_call.py:37-41 | The loop collects exactly the names of the list-free columns, in column order. |
| MainTable.InsertMetadataColumns | data_extraction/src/virksomhed_api_call.py:49-51 | After the insert loop, the metadata columns come first, in reverse order, followed by the original columns. |
| MainTable.MainFrameShape | data_extraction/src/virksomhed_api_call.py:23-53 | The main table has one row per hit, and every column has that height. |
| MainTable.ScalarColumnsDistinct | data_extraction/src/virksomhed_api_call.py:43 | Keeping only scalar columns keeps the column names distinct. |
| MainTable.ScalarPathsOf | data_extraction/src/virksomhed_api_call.py:34-43 | A path is a main-table data column exactly when some record has it and no record holds a list there (both directions). |
| MainTable.ScalarPathHeld | data_extraction/src/virksomhed_api_call.py:34-43 | A kept data column is present in some record and holds no list in any record. |
| MainTable.ScalarPathKept | data_extraction/src/virksomhed_api_call.py:34-43 | A path that is present somewhere and never a list is kept. |
| MainTable.ScalarColumnContent | data_extraction/src/virksomhed_api_call.py:43 | A kept column holds, row by row, each record's own value at that path. |
| MainTable.MainKeepsScalarPaths | data_extraction/src/virksomhed_api_call.py:31-43 | Over the hits' `_source` dicts: the main table's data columns are exactly the never-list paths, with each hit's value in its own row. |
| MainTable.MetadataFirstReversed | data_extraction/src/virksomhed_api_call.py:45-51 | The main table starts with the metadata columns in reverse order, and all of them are `_`-prefixed non-`_source` names. |
| MainTable.ReverseKeepsMetadata | data_extraction/src/virksomhed_api_call.py:47-51 | Reversing metadata columns leaves every one of them a metadata name. |
| MainTable.EncodeLists | data_extraction/src/virksomhed_api_call.py:446-448 | Encoding keeps the number of columns. |
| MainTable.FlattenPermanentDataWide | data_extraction/src/virksomhed_api_call.py:430-464 | The loop builds the wide table: the metadata columns in their own order, then the `_source` columns with list cells JSON-encoded. |
| MainTable.WideChangesOnlyListColumns | data_extraction/src/virksomhed_api_call.py:446-448 | Encoding keeps each column's name and height. It leaves list-free columns untouched. Within a column it replaces exactly the list cells by their encoding. |
| MainTable.WideEncodingIdempotent | data_extraction/src/virksomhed_api_call.py:446-448 | After encoding, no column holds a list. Encoding twice equals encoding once, and a list-free frame is unchanged. |
| MainTable.WideFrameShape | data_extraction/src/virksomhed_api_call.py:450-464 | The wide table has one row per hit. It is made of the metadata columns in their order followed by all `_source` columns, and the empty-metadata branch is included. |
| Panel.Fields | data_extraction/src/virksomhed_api_call.py:88-89 | Each listed column is read with `.get`, so an absent key gives `None`. |
| Panel.Put | data_extraction/src/virksomhed_api_call.py:93-95 | Dict assignment: the key now reads the new value and every other key is unchanged. |
| Panel.RecordRows | data_extraction/src/virksomhed_api_call.py:80-97 | One row per element of the company's list field. A missing or empty field gives no rows. |
| Panel.TemporalRow | data_extraction/src/virksomhed_api_call.py:82-95 | The loop builds a temporal row: key, value columns, then `gyldigFra`, `gyldigTil` and `sidstOpdateret` assigned in turn. |
| Panel.ExplodeList | data_extraction/src/virksomhed_api_call.py:72-97 | The nested loop emits exactly the specified rows, company by company and element by element. |
| Panel.ExplodeRecord | data_extraction/src/virksomhed_api_call.py:80-97 | The inner loop emits exactly one company's rows. |
| Panel.ItemRow | data_extraction/src/virksomhed_api_call.py:82-95 | Builds exactly the row that the element's rule prescribes. |
| Panel.ExplodeTemporalField | data_extraction/src/virksomhed_api_call.py:56-99 | The table of a temporal field has one row per element over all companies. |
| Panel.ExplodeAddresses | data_extraction/src/virksomhed_api_call.py:102-161 | The address table of the given field has one row per address over all companies. |
| Panel.ExplodeBranches | data_extraction/src/virksomhed_api_call.py:164-193 | The branch table of the given field has one row per element. |
| Panel.ExplodeEmployment | data_extraction/src/virksomhed_api_call.py:196-230 | The employment table of the given field has one row per element. |
| Panel.ExplodeVirksomhedsform | data_extraction/src/virksomhed_api_call.py:233-263 | The legal-form table has one row per `virksomhedsform` element. |
| Panel.ExplodeLivsforloeb | data_extraction/src/virksomhed_api_call.py:266-293 | The lifecycle table has one row per `livsforloeb` element. |
| Panel.FlatRowsCount | data_extraction/src/virksomhed_api_call.py:72-97 | The number of rows is the total number of list elements over all companies. |
| Panel.FlatRowsAppend | data_extraction/src/virksomhed_api_call.py:72-97 | Exploding two batches of hits gives the rows of the first batch followed by those of the second. |
| Panel.RowOrder | data_extraction/src/virksomhed_api_call.py:72-97 | Element j of company i lands at the position just after all rows of the earlier companies, plus j. |
| Panel.PutAllKeeps | data_extraction/src/virksomhed_api_call.py:88-89 | Assigning the value columns leaves every other key unchanged. |
| Panel.PutAllSets | data_extraction/src/virksomhed_api_call.py:88-89 | Each value column reads the element's `.get` of that column. |
| Panel.BuildRowKey | data_extraction/src/virksomhed_api_call.py:82-85 | In every rule, a row's `cvrNummer` and `enhedsNummer` are those of its company. |
| Panel.RowsCarryKeys | data_extraction/src/virksomhed_api_call.py:76-85 | Every row of a list-field table carries the entity key of some company in the batch. |
| Panel.RowOrigin | data_extraction/src/virksomhed_api_call.py:72-97 | Every row is the rule's row for some element of some company: there are no rows from nowhere. |
| Panel.TemporalRowContent | data_extraction/src/virksomhed_api_call.py:87-95 | A temporal row holds each value column's `.get`, the element's `sidstOpdateret`, and `None` dates when the element has no `periode`. |
| Panel.AddressKommune | data_extraction/src/virksomhed_api_call.py:120-131 | `kommuneKode` and `kommuneNavn` are read from `kommune` when it is a dict, and are `None` otherwise. |
| Panel.NotInFields | data_extraction/src/virksomhed_api_call.py:88-89 | A key that is not listed is absent from the row. |
| Panel.InFields | data_extraction/src/virksomhed_api_call.py:88-89 | A listed key reads the element's `.get`. |
| Panel.AttributeColumns | data_extraction/src/virksomhed_api_call.py:164-263 | In branch, employment and legal-form rows, each attribute column holds the element's `.get`, which is `None` when the key is absent. |
| Panel.AttributeAfterKey | data_extraction/src/virksomhed_api_call.py:182-188 | The key columns do not shadow a listed attribute column that follows them. |
| Nested.AttrRows | data_extraction/src/virksomhed_api_call.py:334-351 | One relation row per attribute. |
| Nested.ExplodeDeltagerRelation | data_extraction/src/virksomhed_api_call.py:296-373 | The loop over companies builds exactly the participant-relation table. |
| Nested.ExplodeRelations | data_extraction/src/virksomhed_api_call.py:313-371 | The loop over one company's relations emits exactly their rows. |
| Nested.ExplodeRelation | data_extraction/src/virksomhed_api_call.py:314-371 | The loop over a relation's organisations emits exactly their rows. |
| Nested.ExplodeOrganisation | data_extraction/src/virksomhed_api_call.py:320-371 | The member and attribute loops emit one row per attribute, or the placeholder when there is no member data. |
| Nested.MembersRowsCount | data_extraction/src/virksomhed_api_call.py:329-351 | The rows of the members are as many as their attributes in total. |
| Nested.OrgRowsCount | data_extraction/src/virksomhed_api_call.py:329-371 | An organisation gives one row per attribute of its members when it has member data, and exactly one row otherwise. |
| Nested.PlaceholderRow | data_extraction/src/virksomhed_api_call.py:353-371 | Without member data, the single row has `None` attribute fields. Its dates come from the organisation's non-empty `periode` or are `None`, and `sidstOpdateret` comes from the organisation. |
| Nested.PlaceholderNulls | data_extraction/src/virksomhed_api_call.py:363-366 | The placeholder's four attribute columns are `None`. |
| Nested.PlaceholderDates | data_extraction/src/virksomhed_api_call.py:367-369 | The placeholder's dates and `sidstOpdateret` are the organisation's. |
| Nested.NoOrganisationsNoRows | data_extraction/src/virksomhed_api_call.py:319-320 | A relation without organisations contributes no row. |
| Nested.OrgRowsEmpty | data_extraction/src/virksomhed_api_call.py:329-371 | An organisation contributes no row exactly when it has member data and none of its members has an attribute. |
| Nested.OrgsRowCountZero | data_extraction/src/virksomhed_api_call.py:319-371 | A relation's organisations give no rows exactly when every one of them is such a silent organisation. |
| Nested.RelationNoRows | data_extraction/src/virksomhed_api_call.py:316-371 | A relation contributes no row exactly when all its organisations are silent. A truthy `deltager` that is not a dict is accepted only then, because only a built row reads it. |
| Nested.RelationRowContent | data_extraction/src/virksomhed_api_call.py:316-346 | A null participant gives `None` participant columns. `organisationNavn` and `attributVaerdi` are the first name and first value, or `None` when the list is empty. |
| Nested.RelationParticipant | data_extraction/src/virksomhed_api_call.py:338-340 | The participant columns are the participant's `.get`s. |
| Nested.RelationNameAndValue | data_extraction/src/virksomhed_api_call.py:342-346 | The organisation name and attribute value columns hold the first-element lookups. |
| Nested.ExplodeAttributter | data_extraction/src/virksomhed_api_call.py:376-427 | The loop over companies builds exactly the attribute table. |
| Nested.ExplodeCompanyAttributes | data_extraction/src/virksomhed_api_call.py:393-425 | The loop over one company's attributes emits exactly their rows. |
| Nested.ExplodeAttribute | data_extraction/src/virksomhed_api_call.py:396-425 | The loop over an attribute's values emits one row per value, or one placeholder. |
| Nested.AttributeRowsCount | data_extraction/src/virksomhed_api_call.py:396-425 | An attribute gives one row per value, or one row with `vaerdi` `None` when it has no values. Row k holds value k's `vaerdi`. |
| Nested.OrgsRowsCount | data_extraction/src/virksomhed_api_call.py:319-371 | A relation's rows are as many as its organisations' counts: attributes of the members, or 1 without member data. |
| Nested.RelsRowsCount | data_extraction/src/virksomhed_api_call.py:313-371 | A company's relation rows sum those counts over its relations. |
| Nested.DeltagerRowsCount | data_extraction/src/virksomhed_api_call.py:296-373 | The participant-relation table of a batch has the row count read off the raw records, summed over every company, relation and organisation. |
| Nested.CompanyAttributeRowsCount | data_extraction/src/virksomhed_api_call.py:393-425 | A company's attribute rows sum `max(1, number of values)` over its attributes. |
| Nested.AttributterRowsCount | data_extraction/src/virksomhed_api_call.py:376-427 | The attribute table of a batch has that count summed over every company. |
| Scroll.Continues | data_extraction/src/virksomhed_api_call.py:582-604 | A run of n continuation requests, all with the same cursor. |
| Scroll.Retry | data_extraction/src/virksomhed_api_call.py:578-604 | A continuation makes at least one and at most three attempts. An answer is never read past the end of the script. |
| Scroll.ScrollWithRetry | data_extraction/src/virksomhed_api_call.py:533-639 | The loops of the newer script produce exactly the specified results and request log. |
| Scroll.RetryBound | data_extraction/src/virksomhed_api_call.py:578-604 | A continuation gives up exactly when three consecutive attempts all fail in transport. Otherwise it returns the first answer, and every attempt before it failed. |
| Scroll.RetryInitialFailure | data_extraction/src/virksomhed_api_call.py:533-554 | A failed, non-200 or cursor-less first search returns `None` after that single request, with no cleanup. |
| Scroll.PagesSendNoClear | data_extraction/src/virksomhed_api_call.py:569-623 | The scroll loop itself only sends searches and continuations, and it only appends to the log. |
| Scroll.CleanupOnEveryExit | data_extraction/src/virksomhed_api_call.py:624-639 | Once the loop has started, it is followed by exactly one cleanup, for the last cursor, whenever that cursor is not null. No cleanup is sent otherwise. |
| Scroll.ContinuesOf | data_extraction/src/virksomhed_api_call.py:570-620 | One continuation per good page, with the cursor from the preceding page. |
| Scroll.RetryGoodRun | data_extraction/src/virksomhed_api_call.py:570-620 | Over a run of non-empty 200 pages, the loop accumulates all their hits and sends one continuation per page. |
| Scroll.RetryWellBehavedServer | data_extraction/src/virksomhed_api_call.py:533-639 | A server that pages normally and ends with an empty page: the client returns all hits, sends search, continuations and one cleanup of the final cursor. |
| Scroll.RetryStopsMidStream | data_extraction/src/virksomhed_api_call.py:582-639 | A server that fails mid-stream: the client keeps the hits so far, having retried three times on transport failure and once otherwise, then clears the last good cursor. |
| Scroll.PlainScroll | src/virksomhed_api_call.py:321-365 | The loop of the older script and the financial script produces exactly the specified outcome and request log. |
| Scroll.PlainPagesNoClear | src/virksomhed_api_call.py:341-365 | The plain loop never clears a cursor. It sends at most one request per scripted attempt, and once it has started it never reports "no data". |
| Scroll.PlainNeverClears | src/virksomhed_api_call.py:321-365 | The plain scroll never clears its cursor and sends at most one request more than the script has attempts. It returns nothing exactly when the first answer is non-200 or has no cursor. |
| Scroll.PlainGoodRun | src/virksomhed_api_call.py:341-365 | Over a run of good pages, the plain loop accumulates all hits with one continuation per page. |
| Scroll.PlainStops | src/virksomhed_api_call.py:341-365 | After the good pages, a transport failure raises. A bad, empty or cursor-less answer stops the loop with all hits so far. |
| Queries.CompanyQuery | data_extraction/src/virksomhed_api_call.py:500-529 | The newer company search has the requested size, sorts by `_doc` and tracks total hits. |
| Queries.LegacyCompanyQuery | src/virksomhed_api_call.py:295-319 | The older company search has the requested size, with neither sort nor hit tracking. |
| Queries.FinancialQuery | data_extraction/src/financial_statements_api_call.py:111-149 | The financial search has the requested size, with neither sort nor hit tracking. |
| Queries.OutputBaseName | data_extraction/src/virksomhed_api_call.py:517 | Without a year the base name is unchanged. With a year it is the name, `_`, then text that reads back as the year. |
| Queries.DateText | data_extraction/src/virksomhed_api_call.py:510-511 | A bound `YYYY-MM-DD` built from text reads back as that calendar date. |
| Queries.YearBoundsParse | data_extraction/src/virksomhed_api_call.py:510-511 | The bounds `{year}-01-01` and `{year}-12-31` read back as 1 January and 31 December of the year. |
| Queries.YearRangeMatches | data_extraction/src/virksomhed_api_call.py:508-513 | A year range matches a document exactly when the field's date lies in that year. |
| Queries.CompanyQuerySelects | data_extraction/src/virksomhed_api_call.py:500-529 | The company search selects every company without a year, and with one exactly those whose `sidstOpdateret` is in that year. The older script selects the same. |
| Queries.FinancialQuerySelects | data_extraction/src/financial_statements_api_call.py:111-149 | The financial search with a year selects exactly the statements whose period starts or ends in that year (`minimum_should_match: 1`). |
| Company.PlanTables | data_extraction/src/virksomhed_api_call.py:652-678 | One table per planned explode call. |
| Company.BuildEntry | data_extraction/src/virksomhed_api_call.py:652-678 | One explode call builds exactly its named table. |
| Company.BuildPanel | data_extraction/src/virksomhed_api_call.py:644-758 | Panel mode builds exactly the 22 specified tables. |
| Company.BuildLegacyPanel | src/virksomhed_api_call.py:370-434 | The older panel mode builds exactly its 11 specified tables. |
| Company.BuildPlan | data_extraction/src/virksomhed_api_call.py:652-678 | The sequence of explode calls builds exactly the planned tables, in call order. |
| Company.PlanTablesShape | data_extraction/src/virksomhed_api_call.py:652-678 | Each planned table carries its name and has one row per element of its list field. |
| Company.PanelShape | data_extraction/src/virksomhed_api_call.py:644-758 | The panel has `main` with one row per hit, then the single-level tables in call order with their row counts, then `deltagerRelation` and `attributter`. |
| Company.LegacyPanelShape | src/virksomhed_api_call.py:370-434 | The older panel has `main` with one row per hit, then its ten single-level tables with their row counts. |
| Company.LegacyAddressTable | src/virksomhed_api_call.py:380 | The older script's `addresses` table is always the exploded `beliggenhedsadresse`. |
| Company.PlanNamesListed | data_extraction/src/virksomhed_api_call.py:735-758 | The explode calls' names, framed by `main`, `deltagerRelation` and `attributter`, are exactly the returned keys. |
| Company.PlanTableNames | data_extraction/src/virksomhed_api_call.py:652-678 | Building a plan yields tables named after its entries. |
| Company.PanelTableNames | data_extraction/src/virksomhed_api_call.py:735-758 | Panel mode returns exactly the 22 named tables, in the script's order. |
| Company.LegacyPanelTableNames | src/virksomhed_api_call.py:422-434 | The older panel mode returns exactly the 11 named tables. |
| Company.Download | data_extraction/src/virksomhed_api_call.py:468-778 | `main` posts the specified query, derives the base name, sends exactly the scroll's requests, and returns the specified output. |
| Company.LegacyDownload | src/virksomhed_api_call.py:270-454 | The older `main` does the same with its own query and plain scroll, and may raise. |
| Company.DownloadOutputShape | data_extraction/src/virksomhed_api_call.py:533-778 | `main` returns nothing exactly when the first search fails. Otherwise panel mode returns the 22 named tables and wide mode a table with one row per hit. |
| Financial.DocColumns | data_extraction/src/financial_statements_api_call.py:51-68 | One column decision per document. |
| Financial.ProcessSource | data_extraction/src/financial_statements_api_call.py:39-70 | The loop over documents builds exactly the processed source. |
| Financial.ProcessedRecords | data_extraction/src/financial_statements_api_call.py:35-73 | One flattened processed record per hit. |
| Financial.ProcessSources | data_extraction/src/financial_statements_api_call.py:35-70 | One processed source per hit, processed from that hit's `_source` (or `{}`). |
| Financial.FlattenFinancialData | data_extraction/src/financial_statements_api_call.py:28-89 | The function builds exactly the financial table. |
| Financial.MimeFormatTotal | data_extraction/src/financial_statements_api_call.py:57-63 | The format is one of html, pdf, xml, tiff or unknown. It is known exactly for the four listed MIME types. |
| Financial.DocColumnName | data_extraction/src/financial_statements_api_call.py:65-68 | An added column is named `<type>_<format>` with a known format. |
| Financial.MissingTypeAndUrl | data_extraction/src/financial_statements_api_call.py:52-54 | A PDF document without type or URL adds `UNKNOWN_pdf` holding `""`. |
| Financial.AssignKeys | data_extraction/src/financial_statements_api_call.py:66-68 | After the assignments, a key is present exactly when it was already there or some document assigned it. A key no document assigns keeps its value. |
| Financial.AssignLastWins | data_extraction/src/financial_statements_api_call.py:66-68 | A column holds the URL of the last document that assigns it. |
| Financial.WithDocsKeys | data_extraction/src/financial_statements_api_call.py:51-68 | The processed source gains exactly the document columns, and leaves untouched every other field. |
| Financial.LaterDocumentWins | data_extraction/src/financial_statements_api_call.py:51-68 | With several documents of one type and format, the last one's URL is kept. |
| Financial.NoDocumentColumnIsDokumenter | data_extraction/src/financial_statements_api_call.py:47-68 | No document column is named `dokumenter`, so the deleted field stays deleted. |
| Financial.ProcessedSourceKeys | data_extraction/src/financial_statements_api_call.py:41-70 | The processed source has no `dokumenter`. Its keys are the source's other keys plus the document columns, and a field no document overwrites keeps its value. |
| Financial.FinancialFrameShape | data_extraction/src/financial_statements_api_call.py:72-89 | One row per hit, made of the metadata columns first and then the processed sources' paths. |
| Financial.LowerChar | data_extraction/src/financial_statements_api_call.py:204 | ASCII upper-case letters map to lower case, and every other character is unchanged. |
| Financial.Lower | data_extraction/src/financial_statements_api_call.py:204 | Lower-casing maps each character in place. |
| Financial.SavedAs | data_extraction/src/financial_statements_api_call.py:203-213 | The table is written to parquet exactly when the format lower-cases to `parquet`. Otherwise the raw results go to JSON. |
| Financial.FinancialDownload | data_extraction/src/financial_statements_api_call.py:93-216 | `main` posts the specified query, derives the base name, sends exactly the plain scroll's requests, and has the specified outcome. |
| Financial.FinancialDownloadOutcome | data_extraction/src/financial_statements_api_call.py:152-198 | Given an answered first search, `main` returns `None` exactly when that search fails. A flattened table has one row per result, and no cleanup is ever sent. |
| Financial.SaveFormatCaseInsensitive | data_extraction/src/financial_statements_api_call.py:204-213 | `PARQUET` and `Parquet` write parquet under `<base>.parquet`, and `json` writes `<base>.json`. |
| Xbrl.LocalName | data_extraction/src/individual_statements_api_call.py:139 | The local name is the suffix of the tag after its last `}`, and contains no `}`. |
| Xbrl.ReadContexts | data_extraction/src/individual_statements_api_call.py:115-133 | The context loop builds the context table when every context has its period and entity, and fails otherwise. |
| Xbrl.ParseXmlContent | data_extraction/src/individual_statements_api_call.py:97-158 | Parsing yields exactly the specified facts. Missing content, malformed XML or an incomplete context yield none. |
| Xbrl.LocalNameOfQualified | data_extraction/src/individual_statements_api_call.py:139 | `{ns}name` gives `name`. |
| Xbrl.FactsOfAppend | data_extraction/src/individual_statements_api_call.py:137-151 | The facts of consecutive elements are the facts of each part, in order. |
| Xbrl.FactsOfContent | data_extraction/src/individual_statements_api_call.py:136-151 | There is one fact per element with `contextRef`. Each carries its context's fields when that context is known, and none otherwise. |
| Xbrl.FactOfElement | data_extraction/src/individual_statements_api_call.py:138-151 | A fact has the local tag and the text. A missing `unitRef` or `decimals` reads as `""`. |
| Xbrl.LaterContextWins | data_extraction/src/individual_statements_api_call.py:128-133 | With repeated context ids, the last context's fields are kept. |
| Xbrl.ContextTableKeys | data_extraction/src/individual_statements_api_call.py:116-133 | The table has an entry exactly for each id that occurs. |
| Xbrl.Strip | data_extraction/src/individual_statements_api_call.py:182 | Stripping never lengthens a tag, and the result neither starts nor ends with whitespace. |
| Xbrl.TransformToWideFormat | data_extraction/src/individual_statements_api_call.py:174-207 | The wide transform yields exactly the specified table, or empty, or raises. |
| Xbrl.SelectedExactly | data_extraction/src/individual_statements_api_call.py:186-188 | A fact is kept exactly when it is a fact whose end date or instant falls in the year. |
| Xbrl.PivotRows | data_extraction/src/individual_statements_api_call.py:195-200 | The pivot has a row exactly for each identifier of a fact with an identifier and a value. |
| Xbrl.PivotCells | data_extraction/src/individual_statements_api_call.py:195-200 | A row has a cell for a tag exactly when some fact with that identifier and stripped tag has a value. |
| Xbrl.FirstValueWins | data_extraction/src/individual_statements_api_call.py:195-200 | Each cell holds the value of the first fact that lands in it (`aggfunc="first"`). |
| Xbrl.WideResult | data_extraction/src/individual_statements_api_call.py:186-207 | A wide result carries the year. It pivots exactly the year's facts, and it has rows exactly when some kept fact has an identifier and a value. |
| Statements.YearSpan | data_extraction/src/individual_statements_api_call.py:61 | The span runs from the start year to the end year, one year per step. |
| Statements.YearsArgRule | data_extraction/src/individual_statements_api_call.py:52-63 | One year gives that year. Two ordered years give the inclusive increasing range. Any other input is refused. |
| Statements.FirstIndex | data_extraction/src/individual_statements_api_call.py:79 | The first position of a URL. |
| Statements.UniqueSpec | data_extraction/src/individual_statements_api_call.py:79 | `unique()` keeps each URL once, in order of first occurrence. |
| Statements.CandidatesExactly | data_extraction/src/individual_statements_api_call.py:76-79 | A URL is a candidate exactly when some row's end date falls in the year and its XML URL is that URL. |
| Statements.UrlsByYearSpec | data_extraction/src/individual_statements_api_call.py:73-80 | The year's URLs are exactly the candidates, without repeats. |
| Statements.UrlsByYearRaises | data_extraction/src/individual_statements_api_call.py:73-80 | The URL lookup raises exactly when the table lacks the end-date or the XML-URL column, or holds an end date that does not read. |
| Statements.BatchCountCeil | data_extraction/src/individual_statements_api_call.py:235 | The batch count is the ceiling of total over batch size. It is zero exactly for no URLs. |
| Statements.BatchStart | data_extraction/src/individual_statements_api_call.py:239-240 | Every batch starts inside the URL list. |
| Statements.BatchSize | data_extraction/src/individual_statements_api_call.py:239-241 | Every batch holds between one URL and the batch size. |
| Statements.BatchesCover | data_extraction/src/individual_statements_api_call.py:235-241 | The first k batches are the URL prefix of length min(k·size, total), and all batches together are the whole list. |
| Statements.Parsed | data_extraction/src/individual_statements_api_call.py:165-170 | One parse result per URL. |
| Statements.UrlFactsAppend | data_extraction/src/individual_statements_api_call.py:161-171 | The facts of two URL lists, in order, are the facts of the joined list. |
| Statements.ProcessUrls | data_extraction/src/individual_statements_api_call.py:161-171 | A batch yields the concatenated facts of its URLs. |
| Statements.BatchStep | data_extraction/src/individual_statements_api_call.py:245-251 | Appending a batch's non-empty facts extends the accumulated facts to the next prefix of URLs. |
| Statements.ProcessBatch | data_extraction/src/individual_statements_api_call.py:239-245 | A batch run yields the facts of exactly that batch's URLs. |
| Statements.ProcessBatches | data_extraction/src/individual_statements_api_call.py:235-256 | The batch loop yields, once joined, the facts of all URLs. It keeps no batch exactly when there are no facts at all. |
| Statements.DownloadAndProcessYear | data_extraction/src/individual_statements_api_call.py:210-274 | The per-year run has exactly the specified outcome. |
| Statements.YearOutcomeSpec | data_extraction/src/individual_statements_api_call.py:225-271 | No URLs gives an early return. If every fetch fails, nothing is saved. A saved table is the year's, non-empty, and goes to `<name>_<year>.parquet`. |
| Statements.OutputFileYear | data_extraction/src/individual_statements_api_call.py:271 | The output file is the name, `_`, text reading back as the year, and `.parquet`. |
| Statements.NoFetchNoFacts | data_extraction/src/individual_statements_api_call.py:165-171 | URLs whose downloads all fail yield no facts. |
| Statements.Outcomes | data_extraction/src/individual_statements_api_call.py:286-291 | One outcome per requested year. |
| Statements.Run | data_extraction/src/individual_statements_api_call.py:278-295 | Bad year arguments stop the run. Otherwise every year is processed in order, and a year that raises does not stop the others. |

## Left out

- HTTP transport, authentication, timeouts and the endpoint URLs are left out. The server is a scripted list of attempts, and the DELETE of the cursor cleanup consumes none of them, since its outcome is ignored.
- `asyncio` concurrency is modelled sequentially. `fetch_xml`'s error handling is folded into the `fetch` parameter: a failed download is `NoContent`. The order of `gather` results is the URL order.
- pandas internals are left out:
  - `json_normalize`'s walk of nested dicts is the parameter `flatten`;
  - dtypes, `reset_index`, and the sorting that `pivot_table` applies to rows and columns are not modelled;
  - the wide XBRL table is a map from identifier to a tag-to-value map, and its `Year` column is the table's `year` field.
- JSON objects are maps, so the key order of a source dict is not kept. Row dicts, which the scripts build in a fixed order, are kept as ordered lists.
- XML parsing is left out. A document comes pre-parsed as its context elements and its other elements, in document order.
- `str.lower` and `str.strip` are modelled for ASCII letters and ASCII whitespace only.
- These are not modelled:
  - file writing, `os.path.join` and the folder paths;
  - `print` and `print_durations`;
  - `dotenv`;
  - `argparse`'s exit (a refused argument list is `None`);
  - `get_xml_dataframe`'s read of the parquet file: the table (its column flags and its rows) is given as a parameter;
  - `utils/translations.py`, which is not part of this model.
- Company.Download: the result does not depend on `save_format`. In both company scripts, panel mode returns the tables whatever the format, and only the files written differ.
- Company.BuildPanel: the explode calls of `main` are modelled as a walk over a constant plan of (table, field, row rule) entries in call order, not as unrolled calls.
- MainTable.CreateMainDataframe: requires that no metadata column name is also a scalar `_source` column. `DataFrame.insert` raises on a duplicate name, and that raise is not modelled.
- Panel.ExplodeList: requires that every visited value is a dict or list where the source calls `.get` on it or iterates it. On any other shape the source raises, and that raise is not modelled. The same holds for the other explode methods and for Financial.ProcessSource. In `explode_deltager_relation` the participant is read only when a row is built. So a truthy non-dict `deltager` is required away only when some organisation of its relation emits a row.
- Financial.Render: JSON numbers are integers in the model. A JSON float such as `1.0` would be rendered by Python's `str` as "1.0", and `0.0` is falsy; neither case is modelled. The same holds for Json.Truthy and for every value copied into a row.
- Scroll.ScrollWithRetry, Scroll.PlainScroll, Company.Download, Financial.FinancialDownload: a reply is either a transport failure or an answer with a status, a cursor and a list of hits. An answer whose body is not JSON, or that lacks `hits.hits`, is not represented. Neither is a `RequestException` other than a timeout or a connection error. In the newer script these propagate after the `finally` cleanup; in the older and financial scripts they raise.
- Statements.UrlsByYearSpec, Statements.DownloadAndProcessYear: an end date that `yearOf` cannot read is taken to make `pd.to_datetime` raise. In pandas, an empty string or "NaT" becomes a missing date without raising, and that row matches no year. pandas 2 also infers one date format for the whole column; `yearOf` reads each date on its own. The statement table carries whether it has the `regnskabsperiode_slutDato` and `AARSRAPPORT_xml` columns, and a missing one raises `KeyError`, which ends the year as raised; which column names the parquet file actually holds depends on the flattening of the financial script and is not modelled.
- Xbrl.TransformToWideFormat: a fact whose tag is `identifier` makes `reset_index` raise in the source, and `main` then skips the year, while the model returns a table. A fact whose tag is `Year` becomes a column that `pivot["Year"] = year` overwrites; the model keeps it beside the table's `year` field. pandas 2 reads the `end_date` and `instant` columns with one inferred format each, turning dates that do not match it into `NaT`; `yearOf` reads each date on its own.
- Financial.DocColumn: a `dokumentType` that is itself a list or dict is not rendered. Its Python `repr` in the column name is not modelled.
- Statements.ProcessBatches: requires a batch size of at least 1. A size of 0 divides by zero in the source, and a negative size processes nothing.
- Integer widths do not matter here: Python integers are unbounded, as in the model.
