# CVE ingestion core, modelled in Dafny

This project models the ingestion path of a vulnerability-tracking service.

- **Parser.** `CVEParser` turns one CVE JSON 5.x record into one of three things:
  - a flat normalized record (description, CVSS data, CWEs, affected packages, fix version, references, timeline, credits, SSVC data, embeddings);
  - a rejection tombstone;
  - `{}` when anything raises.
- **Storage.** `SQLiteManager` keeps three SQLite tables:
  - `cve_summary`, keyed by `cve_id`;
  - `affected_packages`, the child rows;
  - `sync_tracking`, the audit log.

  It upserts records one at a time or in batches, and answers the read queries.
- **Full sync.** `run_full_sync` parses every file of a downloaded year archive, upserts the batch and logs the run.
- **Package upload.** The admin upload of a host's package list turns CSV-like text into `(host_id, package_name, installed_date)` rows.

Modules:

- `PyStr` covers the Python string built-ins the code relies on: `strip`, `split`, `join`, `splitlines`, `lower`/`upper`, string order, `unquote`.
- `PyJson` models a `json.load` value and the dict/list operations applied to it:
  - `get`, subscripting, `in`, iteration, truthiness, `str`/`repr`, `update`;
  - exceptions as a `Result`;
  - generic loop shapes: `for` loops that may raise, `append` loops, filtering comprehensions.
- `CveParser` defines `parse_cpe` and `extract_cve_data` as functions, one per block of the source. It then computes the same result with the source's loops, as methods proved equal to those functions. `CveParserProps` proves what the parser promises.
- `CveSqlite` models the tables as sequences of rows in rowid order:
  - a function `Upsert` on table values gives the effect of `upsert_cve`;
  - a class `SqliteManager` whose methods change its table fields is proved to agree with `Upsert`;
  - the queries are filter / sort / limit pipelines.

  `CveSqliteProps` proves the storage properties: the primary key, children keep their parent, the counts, read-after-write, and the query results.
- `CveSyncSqlite` models `run_full_sync`.
- `HostAdmin` models the upload parser.

## Model

| member | source | states |
|---|---|---|
| CveParser.ParseCpe | dataSync/cveSync/cveBase.py:67-77 | the CPE dict is empty exactly when the string has fewer than 7 colon-separated parts, otherwise it has exactly the keys type, vendor, product, version |
| CveParserProps.ParseCpeOfParts | dataSync/cveSync/cveBase.py:69-76 | a CPE string joined from at least 7 colon-free parts parses back to part 2 as type and the percent-decoded parts 3, 4, 5 as vendor, product, version |
| CveParser.ComponentOf | dataSync/cveSync/cveBase.py:123-126 | reading a component's vendor, product, versions and defaultStatus succeeds only on a dict |
| CveParser.ExtendText | dataSync/cveSync/cveBase.py:154 | appending one rendered status line keeps the text equal to the description followed by all rendered lines |
| CveParser.SelectCvss | dataSync/cveSync/cveBase.py:100-105 | the loop over the metrics computes the CVSS data the specification function defines |
| CveParser.CollectCwes | dataSync/cveSync/cveBase.py:107-115 | the nested problem-type loop computes the CWE list the specification function defines, raising where it raises |
| CveParser.MergeCpes | dataSync/cveSync/cveBase.py:140-142 | the CPE loop computes the row the loop specification gives |
| CveParser.AppendVersionRows | dataSync/cveSync/cveBase.py:128-144 | the version loop appends the rows the specification function gives, or raises as it does |
| CveParser.AddComponent | dataSync/cveSync/cveBase.py:122-156 | one component iteration computes the specified step and adds exactly one description line after the earlier ones |
| CveParser.CollectAffected | dataSync/cveSync/cveBase.py:117-156 | the affected loop yields the specified rows, package names and extended description |
| CveParser.MergeOptions | dataSync/cveSync/cveBase.py:187-188 | merging the SSVC options in order equals the specified dict-update loop |
| CveParser.PairOf | dataSync/cveSync/cveBase.py:187-188 | an option-list element yields a key/value pair only when it is iterable |
| CveParser.UpdateFrom | dataSync/cveSync/cveBase.py:187-188 | `update` with a dict binds its members, and raises TypeError for None, a boolean or a number |
| CveParser.ScanMetrics | dataSync/cveSync/cveBase.py:179-189 | scanning one container's metrics stops at the first SSVC metric, as specified |
| CveParser.SelectSsvc | dataSync/cveSync/cveBase.py:177-189 | the loop over the ADP containers computes the specified SSVC dict |
| CveParser.Analyze | dataSync/cveSync/cveBase.py:92-156 | description, CVSS, CWEs and affected packages computed with the loops equal their specification |
| CveParser.ParseBody | dataSync/cveSync/cveBase.py:82-219 | the `try` body computes the specified outcome or exception |
| CveParser.ExtractCveData | dataSync/cveSync/cveBase.py:80-223 | `extract_cve_data` equals `Extract`; any exception becomes `{}` |
| CveParserProps.LastCpe | dataSync/cveSync/cveBase.py:140-142 | the CPE a row ends with is none exactly when no CPE string parses; otherwise it has the four CPE keys |
| CveParserProps.LastCpeWins | dataSync/cveSync/cveBase.py:140-142 | after the CPE loop the row holds the fields of the last CPE string that parses; strings that do not parse change nothing |
| CveParserProps.CpesKeepBounds | dataSync/cveSync/cveBase.py:140-142 | CPE merging never changes status, bounds or version type; with no CPE parsed, vendor, product and version are untouched |
| CveParserProps.VersionRowFields | dataSync/cveSync/cveBase.py:129-137 | a version row takes status (default: the component's defaultStatus), bounds and version type from its version entry, and vendor/product from the component unless a CPE parsed |
| CveParserProps.OneRowPerVersion | dataSync/cveSync/cveBase.py:128-144 | the version loop appends exactly one row per version entry, in order, after the existing rows |
| CveParserProps.PackageNamesAppend | dataSync/cveSync/cveBase.py:155-156 | the kept package names of two component lists are the two lists of names concatenated |
| CveParserProps.StepShape | dataSync/cveSync/cveBase.py:122-156 | one component keeps earlier rows and lines, adds exactly one line, and keeps its package name when truthy |
| CveParserProps.StepLine | dataSync/cveSync/cveBase.py:146-154 | after one component `v` is bound to its last version entry, or keeps its old binding; the new line is read from that entry |
| CveParserProps.ComponentLoopShape | dataSync/cveSync/cveBase.py:122-156 | the whole component loop keeps earlier results, adds one line per component and the truthy package names in order, and ends with `v` bound to the last version entry seen |
| CveParserProps.LinesAndBound | dataSync/cveSync/cveBase.py:122-156 | the component loop adds one line per component and leaves `v` bound to the last version entry seen |
| CveParserProps.LastBoundAppend | dataSync/cveSync/cveBase.py:128 | the loop variable's final binding over two lists is the second list's, starting from the first list's |
| CveParserProps.LineOfComponent | dataSync/cveSync/cveBase.py:146-154 | the description line of component k is built from the version entry `v` holds after component k, which may come from an earlier component |
| CveParserProps.LinesFollowSteps | dataSync/cveSync/cveBase.py:146-154 | for any loop body that adds one line per step, line k is read from the entry bound after step k |
| CveParserProps.FirstComponentWithoutVersions | dataSync/cveSync/cveBase.py:146-149 | when the first component lists no versions, `v` is unbound and the loop raises UnboundLocalError |
| CveParserProps.MinStringLeast | dataSync/cveSync/cveBase.py:159-162 | the first element of the sorted candidates exists exactly when there are candidates, and is one of them with no smaller one in Python's string order |
| CveParserProps.FixCandidatesMembers | dataSync/cveSync/cveBase.py:159-161 | a string is a fix candidate exactly when it is `"> " + bound` for some row with a truthy lessThanOrEqual |
| CveParserProps.FixVersionIsSmallestBound | dataSync/cveSync/cveBase.py:158-162 | there is a fix version exactly when some row has a truthy lessThanOrEqual; it is the string-order least of the `"> " + bound` candidates |
| CveParserProps.UrlsAppend | dataSync/cveSync/cveBase.py:165 | the reference comprehension over a concatenation is the concatenation of the two results, raising as the first raises |
| CveParserProps.UrlsOfOne | dataSync/cveSync/cveBase.py:165 | one reference contributes its url exactly when it has a `url` key |
| CveParserProps.TimelineAppend | dataSync/cveSync/cveBase.py:168-171 | the timeline comprehension over a concatenation is the concatenation of the results |
| CveParserProps.TimelineOfOne | dataSync/cveSync/cveBase.py:168-171 | one timeline entry is kept exactly when it has both time and value |
| CveParserProps.CreditsAppend | dataSync/cveSync/cveBase.py:174 | the credits comprehension over a concatenation is the concatenation of the results |
| CveParserProps.CreditsOfOne | dataSync/cveSync/cveBase.py:174 | one credit is kept exactly when its lang is "en" |
| CveParserProps.LastSsvcContainerWins | dataSync/cveSync/cveBase.py:177-189 | the SSVC data is that of the last container holding an SSVC metric; the `break` only ends that container's metric loop |
| CveParserProps.FirstSsvcMetricWins | dataSync/cveSync/cveBase.py:179-189 | within one `adp` container the first metric whose `other.type` is "ssvc" gives the data, read from its `other.content` (`{}` when absent); later metrics are not read |
| CveParserProps.NoSsvcMetric | dataSync/cveSync/cveBase.py:179-189 | a container with no SSVC metric gives no SSVC data |
| CveParserProps.LaterOptionWins | dataSync/cveSync/cveBase.py:182-188 | after merging the options, each key holds the value from the last option that binds it, as a dict member or a key/value pair, else the role/version/exploitStatus base |
| CveParserProps.UpdateFromBindings | dataSync/cveSync/cveBase.py:187-188 | unfolding step used by LaterOptionWins: a successful `update` binds exactly the option's members or key/value pairs, in order |
| CveParserProps.PairListOption | dataSync/cveSync/cveBase.py:187-188 | an option `[[k, v]]` binds k to v |
| CveParserProps.TwoCharacterOption | dataSync/cveSync/cveBase.py:187-188 | an option `["ab"]` binds "a" to "b" |
| CveParserProps.StringOptionRaises | dataSync/cveSync/cveBase.py:187-188 | a non-empty string option raises ValueError, each character being a one-element sequence |
| CveParserProps.TombstoneExactlyWhenRejected | dataSync/cveSync/cveBase.py:83-90 | the outcome is a tombstone exactly when the header reads and its upper-cased state is REJECTED; a tombstone carries that state and the id |
| CveParserProps.AssembleFields | dataSync/cveSync/cveBase.py:191-219 | unfolding step used by TombstoneExactlyWhenRejected, ParsedRecordPieces and NoCvssMeansNoScore: the record's id, state, fulltext, text, vectors, rows, fix version, CWEs, references, SSVC data and CVSS fields come from their inputs |
| CveParserProps.ParsedParts | dataSync/cveSync/cveBase.py:82-219 | unfolding step used by ParsedRecordPieces and NoCvssMeansNoScore: a parsed record comes from a non-rejected header, a successful analysis and extras |
| CveParserProps.AnalysisParts | dataSync/cveSync/cveBase.py:92-156 | unfolding step used by ParsedRecordPieces and NoCvssMeansNoScore: a successful analysis has its CVSS data, rows and names from their blocks, and its text is the description followed by the status lines |
| CveParserProps.ParsedRecordPieces | dataSync/cveSync/cveBase.py:195-219 | a parsed record carries the document's id, upper-cased state and the document itself; its rows, fix version, text and embeddings come from the affected loop |
| CveParserProps.AffectedFailureFailsParse | dataSync/cveSync/cveBase.py:221-223 | an exception in the affected loop turns the whole parse into `{}` |
| CveParserProps.AnalysisFailsWithAffected | dataSync/cveSync/cveBase.py:117-156 | unfolding step used by AffectedFailureFailsParse: an exception in the affected loop makes the analysis raise |
| CveParserProps.NoCvssMeansNoScore | dataSync/cveSync/cveBase.py:100-105 | with no `cvssV3_1` metric, a parsed record's score, vector and severity are all None |
| CveParserProps.NoCvssMetric | dataSync/cveSync/cveBase.py:100-105 | metrics without `cvssV3_1` leave the CVSS data `{}` |
| CveParserProps.FirstCvssMetricWins | dataSync/cveSync/cveBase.py:102-105 | the first metric holding `cvssV3_1` gives the CVSS data; later metrics are not read |
| CveParserProps.NoEnglishDescription | dataSync/cveSync/cveBase.py:93-96 | when every description is a dict and none is English, the description is "" |
| CveParserProps.FirstEnglishDescriptionWins | dataSync/cveSync/cveBase.py:93-96 | the first English description gives its `value` (None when absent); later entries are not read |
| CveParserProps.NonDictBeforeEnglishRaises | dataSync/cveSync/cveBase.py:93-96 | a non-dict entry met before any English one makes `.get` raise AttributeError |
| CveParserProps.EnglishCwesAppend | dataSync/cveSync/cveBase.py:110-115 | the English CWEs of two concatenated description lists are the two lists' CWEs concatenated |
| CveParserProps.CweStepOfOne | dataSync/cveSync/cveBase.py:111-115 | one description succeeds exactly when it is a dict, and appends its cweId and description exactly when it is English |
| CveParserProps.CweLoop | dataSync/cveSync/cveBase.py:110-115 | the inner loop succeeds exactly when every description is a dict, and then appends the English CWEs in order |
| CveParserProps.ProblemTypeCwesAppend | dataSync/cveSync/cveBase.py:109-115 | the CWEs of two concatenated problem-type lists are the two lists' CWEs concatenated |
| CveParserProps.ProblemTypeStepOfOne | dataSync/cveSync/cveBase.py:110-115 | one problem type succeeds exactly when it is a dict whose descriptions are iterable dicts, and appends its English CWEs |
| CveParserProps.ProblemTypeLoop | dataSync/cveSync/cveBase.py:109-115 | the outer loop succeeds exactly when every problem type does, and then appends their English CWEs in problem-type order |
| CveParserProps.CwesFromEnglish | dataSync/cveSync/cveBase.py:108-115 | the `cwes` list is exactly the cweId and description of every English description, problem type by problem type, raising exactly when some problem type cannot be read |
| CveSqlite.BindText | dataSync/cveSync/cveSqlite.py:81-95 | binding a TEXT parameter raises exactly for lists, dicts and integers outside signed 64 bits (the latter with OverflowError), and gives NULL exactly for None |
| CveSqlite.BindReal | dataSync/cveSync/cveSqlite.py:92 | binding the cvss_score parameter raises exactly for lists, dicts and integers outside signed 64 bits (the latter with OverflowError), and gives NULL exactly for None |
| CveSqlite.VersionConstraint | dataSync/cveSync/cveSqlite.py:101-105 | the constraint is empty exactly when neither lessThanOrEqual nor lessThan is truthy |
| CveSqlite.Upsert | dataSync/cveSync/cveSqlite.py:69-128 | a skipped record leaves the tables as they were and returns True; a failed upsert leaves the tables as they were |
| CveSqlite.InsertByScore | dataSync/cveSync/cveSqlite.py:203 | inserting a row into the sorted rows adds exactly that row |
| CveSqlite.SortByScore | dataSync/cveSync/cveSqlite.py:203 | `ORDER BY cvss_score DESC` permutes the rows |
| CveSqlite.Limit | dataSync/cveSync/cveSqlite.py:204 | `LIMIT n` gives the first min(n, len) rows; a negative n gives all of them |
| CveSqlite.LastUpdatedValues | dataSync/cveSync/cveSqlite.py:148 | the non-NULL last_updated values are exactly those some row holds |
| CveSqlite.LastSyncDate | dataSync/cveSync/cveSqlite.py:172-181 | None exactly when no audit row matches; otherwise the date of the latest matching row |
| CveSqlite.FindRow | dataSync/cveSync/cveSqlite.py:227-232 | a found row is in the table with the key; None exactly when no row has the key |
| CveSqlite.UniqueKeysSnoc | dataSync/cveSync/cveSqlite.py:25 | appending a row whose key no row has keeps the primary key |
| CveSqlite.UniqueKeysTail | dataSync/cveSync/cveSqlite.py:25 | the rows after the first keep unique keys, none equal to the first's |
| CveSqlite.UniqueKeysFilter | dataSync/cveSync/cveSqlite.py:25 | deleting rows keeps the primary key |
| CveSqlite.ReplaceKeepsUniqueKeys | dataSync/cveSync/cveSqlite.py:81-95 | `INSERT OR REPLACE` keeps the primary key |
| CveSqlite.UpsertKeepsUniqueKeys | dataSync/cveSync/cveSqlite.py:69-128 | every upsert keeps the primary key |
| CveSqlite.SqliteManager.constructor | dataSync/cveSync/cveSqlite.py:13-15 | the manager holds the database's tables, which already satisfy the primary key |
| CveSqlite.SqliteManager.UpsertCve | dataSync/cveSync/cveSqlite.py:69-128 | the new tables and the return value are those of `Upsert`; the primary key holds and the audit log is untouched |
| CveSqlite.SqliteManager.InsertPackages | dataSync/cveSync/cveSqlite.py:100-118 | the insert loop succeeds exactly when every package binds, and then appends exactly the built child rows in order |
| CveSqlite.SqliteManager.BulkUpsertCves | dataSync/cveSync/cveSqlite.py:130-141 | the tables and the success/failure counts are those of `Bulk`; the primary key holds |
| CveSqlite.SqliteManager.GetMaxUpdatedTimestamp | dataSync/cveSync/cveSqlite.py:143-152 | the result is a non-empty last_updated value that some row holds and no row exceeds; None exactly when every non-NULL value is empty |
| CveSqlite.SqliteManager.LogSync | dataSync/cveSync/cveSqlite.py:154-165 | appends one audit row; afterwards get_last_sync_date for that pair gives `now`, other pairs and the CVE tables are unchanged |
| CveSqlite.SqliteManager.SearchCves | dataSync/cveSync/cveSqlite.py:194-219 | returns the projection of the rows `SearchRows` selects (see SearchSpec) |
| CveSqlite.SqliteManager.GetCveById | dataSync/cveSync/cveSqlite.py:221-264 | None exactly when no row has the id; otherwise that row with its child rows |
| CveSqlite.SqliteManager.GetCvesByProduct | dataSync/cveSync/cveSqlite.py:266-291 | returns the projection of the rows `ProductRows` selects (see ProductSpec) |
| CveSqlite.SqliteManager.GetHighSeverityCves | dataSync/cveSync/cveSqlite.py:293-317 | returns the projection of the rows `HighSeverityRows` selects (see HighSeveritySpec) |
| CveSqlite.MaxTextIsGreatest | dataSync/cveSync/cveSqlite.py:148 | `MAX` exists exactly for a non-empty list, and is an element no element exceeds |
| CveSqliteProps.PackageRowsOk | dataSync/cveSync/cveSqlite.py:100-118 | building the child rows succeeds exactly when every package's values bind |
| CveSqliteProps.UpsertSucceedsIff | dataSync/cveSync/cveSqlite.py:69-128 | upsert_cve returns True exactly for skipped records and records whose values all bind (no list, dict or integer outside signed 64 bits); on False the tables are rolled back |
| CveSqliteProps.UpsertSkipsExactlyUnparsed | dataSync/cveSync/cveSqlite.py:71-72 | of the parser's outcomes, upsert skips exactly the non-records (`{}` and tombstones), leaving the tables unchanged |
| CveSqliteProps.PackageRowsKeyed | dataSync/cveSync/cveSqlite.py:100-118 | one child row per package, each with the record's key and the package's version constraint |
| CveSqliteProps.UpsertThenRead | dataSync/cveSync/cveSqlite.py:81-118 | after writing key k, exactly one summary row has k (the written one), and the children of k are exactly the new package rows, in order |
| CveSqliteProps.UpsertKeepsOtherKeys | dataSync/cveSync/cveSqlite.py:81-118 | an upsert leaves the summary row and child rows of every other key unchanged |
| CveSqliteProps.AtMostOneRowPerKey | dataSync/cveSync/cveSqlite.py:25 | under the primary key, a key has one row if present and none otherwise |
| CveSqliteProps.UpsertCount | dataSync/cveSync/cveSqlite.py:183-192 | get_cve_count grows by one exactly when an upsert writes a new (or NULL) key; replaces, skips and failures keep it |
| CveSqliteProps.UpsertKeepsParents | dataSync/cveSync/cveSqlite.py:98-118 | every child row keeps a parent summary row through an upsert |
| CveSqliteProps.BulkCounts | dataSync/cveSync/cveSqlite.py:130-141 | success + failure equals the batch size |
| CveSqliteProps.BulkFailures | dataSync/cveSync/cveSqlite.py:130-141 | the failure count is exactly the number of records in the batch that cannot be written |
| CveSqliteProps.TallyFailures | dataSync/cveSync/cveSqlite.py:135-140 | one record adds one failure exactly when it cannot be written |
| CveSqliteProps.BulkAppend | dataSync/cveSync/cveSqlite.py:130-141 | running two batches in turn is running their concatenation, and the counts add up |
| CveSqliteProps.BulkKeepsInvariants | dataSync/cveSync/cveSqlite.py:130-141 | a batch keeps the primary key and every child's parent |
| CveSqliteProps.ScoreBelowIrreflexive | dataSync/cveSync/cveSqlite.py:203 | no score sorts below itself |
| CveSqliteProps.ScoreBelowTransitive | dataSync/cveSync/cveSqlite.py:203 | the score order is transitive |
| CveSqliteProps.SortedCons | dataSync/cveSync/cveSqlite.py:203 | a row not below any row of a sorted list may lead it |
| CveSqliteProps.InsertKeepsSorted | dataSync/cveSync/cveSqlite.py:203 | inserting into a descending-score list keeps it sorted |
| CveSqliteProps.SortByScoreSorted | dataSync/cveSync/cveSqlite.py:203 | the result is sorted by descending score |
| CveSqliteProps.SelectSpec | dataSync/cveSync/cveSqlite.py:199-205 | a WHERE/ORDER BY/LIMIT query returns matching table rows, highest score first, at most `limit`, and all matches when the limit does not bite |
| CveSqliteProps.SelectTopK | dataSync/cveSync/cveSqlite.py:203-204 | a limited query leaves out no match that scores higher than a returned row |
| CveSqliteProps.LikePercent | dataSync/cveSync/cveSqlite.py:202-205 | `%` matches every string |
| CveSqliteProps.LikeSkips | dataSync/cveSync/cveSqlite.py:202-205 | a leading `%` may skip any prefix |
| CveSqliteProps.LikeLiteral | dataSync/cveSync/cveSqlite.py:202-205 | a wildcard-free pattern prefix matches itself |
| CveSqliteProps.LikeFindsSubstring | dataSync/cveSync/cveSqlite.py:202-205 | `s LIKE '%q%'` holds whenever a wildcard-free q occurs in s |
| CveSqliteProps.SearchSpec | dataSync/cveSync/cveSqlite.py:194-219 | search returns rows whose description or title matches, sorted, at most `limit`; with no limit, every row containing the query is returned |
| CveSqliteProps.UniqueKeysDistinct | dataSync/cveSync/cveSqlite.py:25 | under the primary key, different rows have different keys |
| CveSqliteProps.UniqueKeysSubMultiset | dataSync/cveSync/cveSqlite.py:25 | any sub-multiset of the rows keeps unique keys |
| CveSqliteProps.AtMostOnce | dataSync/cveSync/cveSqlite.py:25 | a keyed row occurs at most once |
| CveSqliteProps.ProductSpec | dataSync/cveSync/cveSqlite.py:266-291 | results have a child row whose product matches, sorted, at most `limit`, with no CVE twice, and all matching CVEs when there is no limit |
| CveSqliteProps.HighSeveritySpec | dataSync/cveSync/cveSqlite.py:293-317 | results are scored HIGH/CRITICAL rows, sorted, at most `limit`, and all of them when there is no limit |
| CveSqliteProps.FindRowUnique | dataSync/cveSync/cveSqlite.py:227-232 | under the primary key, lookup by id finds the one row with that key |
| CveSyncSqlite.BatchOf | dataSync/cveSync/cveSyncSqlite.py:22-32 | the batch is no longer than the file list and holds no `{}` |
| CveSyncSqlite.BuildBatch | dataSync/cveSync/cveSyncSqlite.py:22-32 | the file loop builds the batch `BatchOf` defines |
| CveSyncSqlite.BatchOfStep | dataSync/cveSync/cveSyncSqlite.py:24-32 | one more file adds its parse exactly when it is readable and the parse is truthy |
| CveSyncSqlite.RunFullSync | dataSync/cveSync/cveSyncSqlite.py:11-36 | a failed download changes nothing; otherwise the tables are those of the batch upsert and one FULL/SQLite audit row with the counts is appended |
| CveSyncSqlite.BatchOfAppend | dataSync/cveSync/cveSyncSqlite.py:22-32 | the batch of two file lists is the two batches concatenated |
| CveSyncSqlite.BatchFromFiles | dataSync/cveSync/cveSyncSqlite.py:26-30 | every batch element is the parse of a readable file |
| CveSyncSqlite.ParsedFileInBatch | dataSync/cveSync/cveSyncSqlite.py:26-30 | every readable file whose parse is truthy contributes it |
| CveSyncSqlite.SyncCounts | dataSync/cveSync/cveSyncSqlite.py:34-35 | the logged counts add up to the batch size, failures are the unwritable records, and all of them are parsed records |
| CveSyncSqlite.SyncKeepsInvariants | dataSync/cveSync/cveSyncSqlite.py:34 | a run keeps the primary key and every child's parent |
| HostAdmin.ParseUpload | cveapp/admin.py:47-56 | the upload loop yields the rows `RowsOf` gives for the lines left after the header |
| HostAdmin.RowOfIff | cveapp/admin.py:53-54 | a line yields a row exactly when it holds a comma |
| HostAdmin.RowOfFields | cveapp/admin.py:53-55 | the name is the stripped text before the first comma, the date the stripped text up to the next comma; neither holds a comma or surrounding whitespace |
| HostAdmin.StripKeepsOut | cveapp/admin.py:53 | stripping adds no character |
| HostAdmin.RowOfPieces | cveapp/admin.py:53-55 | a line whose first two comma-pieces are a and b yields their stripped text |
| HostAdmin.RowRoundTrip | cveapp/admin.py:53-55 | a line joined from comma-free, already-stripped fields yields the first two back |
| HostAdmin.RowsOfAppend | cveapp/admin.py:52-56 | the rows of concatenated line lists are the two row lists concatenated |
| HostAdmin.RowsFromLines | cveapp/admin.py:52-56 | no more rows than lines; each row carries the host id and comes from one line |
| HostAdmin.RowOfHost | cveapp/admin.py:56 | a row carries the host id |
| HostAdmin.FirstLineNeverYieldsRow | cveapp/admin.py:49-50 | the first line never yields a row: a line that could yield one holds a comma and is dropped as a header |
| PyStr.Strip | cveapp/admin.py:53 | `strip()` yields an infix between two whitespace runs that neither starts nor ends with whitespace |
| PyStr.StripIdempotent | cveapp/admin.py:53 | stripping twice strips nothing more |
| PyStr.Split | dataSync/cveSync/cveBase.py:69 | `split` yields at least one piece |
| PyStr.JoinSplit | dataSync/cveSync/cveBase.py:69 | joining the pieces of a split gives the string back |
| PyStr.SplitJoin | dataSync/cveSync/cveBase.py:69 | splitting a join of separator-free pieces gives the pieces back |
| PyStr.SplitLength | dataSync/cveSync/cveBase.py:69-70 | a split has one more piece than the separator's occurrences |
| PyStr.SplitPiecesHaveNoSep | dataSync/cveSync/cveBase.py:69 | no piece holds the separator |
| PyStr.SplitHasTwoPieces | cveapp/admin.py:53-54 | at least two pieces exactly when the separator occurs |
| PyStr.SplitAtFirst | cveapp/admin.py:53-55 | the first piece is the text before the first separator; the rest split the text after it |
| PyStr.LexLessIrreflexive | dataSync/cveSync/cveBase.py:159-161 | Python's string order is irreflexive |
| PyStr.LexLessTransitive | dataSync/cveSync/cveBase.py:159-161 | Python's string order is transitive |
| PyStr.LexLessTotal | dataSync/cveSync/cveBase.py:159-161 | two different strings are ordered one way or the other |
| PyStr.Unquote | dataSync/cveSync/cveBase.py:73-75 | decoding never lengthens the string |
| PyStr.UnquoteWithoutPercent | dataSync/cveSync/cveBase.py:73-75 | a string without `%` decodes to itself |
| PyStr.UnquotePercentEncode | dataSync/cveSync/cveBase.py:73-75 | decoding the percent-encoding of an ASCII string gives it back |
| PyStr.SplitLines | cveapp/admin.py:47 | `splitlines()` gives no more lines than characters, and no line holds a line boundary |
| PyJson.Get | dataSync/cveSync/cveBase.py:83 | `get` raises exactly on a non-dict, returns the bound value for a present key and the default otherwise |
| PyJson.Index | dataSync/cveSync/cveBase.py:104 | subscripting succeeds exactly when the key is present |
| PyJson.PyIn | dataSync/cveSync/cveBase.py:103 | `k in d` on a dict is key membership |
| PyJson.Items | dataSync/cveSync/cveBase.py:122 | iteration yields a list's items and raises exactly on non-iterables |
| PyJson.SetKey | dataSync/cveSync/cveBase.py:142 | after `d[k] = v`, k holds v and other keys are unchanged |
| PyJson.UpdateWithLookup | dataSync/cveSync/cveBase.py:188 | after `d.update(o)`, a key bound in o has o's value, any other key keeps d's |

## Left out

- Floating point: JSON numbers, CVSS scores and the SQL REAL column are integers. Embedding vectors are opaque values.
- The embedding model (`CVEEmbeddingModel.encode`) and `html.unescape` are function parameters of the parser. Their own code is not part of this model.
- `str.lower`/`str.upper` fold ASCII letters only; Python's Unicode case mapping is not modelled.
- SQLite's `LIKE` folds ASCII letters only, as SQLite does by default; `_` and `%` in a search term act as wildcards, as in SQLite.
- `unquote` decodes `%XX` escapes of ASCII characters only; escapes of UTF-8 byte sequences are kept literally.
- `repr` of a list of package names escapes backslashes, quotes, `\n`, `\r` and `\t`; Python's `\x`/`\u` escapes of other non-printable characters are not modelled.
- A numeric string bound to the REAL column keeps its text: REAL affinity conversion is not modelled.
- Ties in `ORDER BY cvss_score DESC` are returned in insertion order, which SQLite does not promise. The proved properties do not depend on tie order.
- `get_last_sync_date` orders by `created_at`, a timestamp with one-second resolution. The model takes the latest-inserted row, which is the intended tie-break.
- `cve_data.get("state", "PUBLISHED")` (dataSync/cveSync/cveSqlite.py:94) is not modelled: every parser outcome carries `state`, so the default never applies. The `created_at`/`updated_at` columns are not kept.
- `upsert_cve` is only given parser outcomes here; a non-dict argument never reaches it from `run_full_sync`.
- The DDL of `initialize_storage` is not modelled; the tables are sequences of rows, and the primary key is an invariant of the class.
- SQLite does not enforce the `affected_packages` foreign key. The constructor accepts any existing child rows, and `ChildrenHaveParents` is proved preserved, not assumed.
- Each call's connection/commit is the method call itself; concurrent writers are not modelled.
- `GitHubCVEClient.download_year_archive`, the temporary directory and globbing, `json.load` and file opening are one parameter of `RunFullSync`:
  - either the exception that ends the run;
  - or the files, each either a JSON document or `None` when opening or decoding raised.
- `tqdm` progress output and `logger` calls are not modelled.
- The current time read by `log_sync` is a parameter (`now`).
- UTF-8 decoding of the uploaded file is not modelled: the upload is text.
- The Django form handling and the `executemany` insert of the upload are not modelled. `ParseUpload` returns the rows that would be inserted.
- The record's `sources` key duplicates `metadata.references` and is not a separate field.
- CveSqlite.SqliteManager.GetLastSyncDate and CveSqlite.SqliteManager.GetCveCount are functions over the class state with no contract of their own. Their properties are stated through `LogSync`, `LastSyncDate` and `UpsertCount`.
- CveParser.UpdateFrom: a key/value pair whose key is a number, a boolean or None raises TypeError in the model, where Python would add a non-string key; the SSVC dict is modelled as string-keyed.
- JSON objects are association lists taken to have distinct keys, as `json.load` produces them. On a list with a repeated key the model can differ from a Python dict: for example, `PairOf` of `{"a": 1, "a": 2}` gives a pair where Python would see a one-key dict and raise ValueError.
