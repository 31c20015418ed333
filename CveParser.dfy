/** `CVEParser` of dataSync/cveSync/cveBase.py: turns one CVE JSON 5.x record
    into a flat normalized record, a rejection tombstone, or `{}` (`Failed`)
    when anything raises. The functions below define the result; the methods
    at the end compute it with the source's loops and are proved to agree. */
module CveParser {
  import opened PyStr
  import opened PyJson

  /** An embedding vector. */
  type Vector = seq<real>

  /** The two calls the parser makes into code outside this model: the
      embedding model's `encode` (which never raises: it returns `[]` on
      failure) and `html.unescape`. */
  datatype Externals = Externals(encode: string -> Vector, htmlUnescape: string -> string)

  datatype Cwe = Cwe(id: Json, description: Json)

  datatype TimelineEntry = TimelineEntry(date: Json, event: Json)

  /** One `affected_packages` entry. `cpeType` is the `type` key, present only
      once a CPE string has been merged into the row. */
  datatype AffectedRow = AffectedRow(
    vendor: Json, product: Json, version: Json,
    lessThanOrEqual: Json, lessThan: Json, versionType: Json,
    status: Json, cpeType: Option<string>)

  type Dict = seq<(string, Json)>

  datatype Metadata = Metadata(
    title: Json, publishedDate: Json, lastUpdated: Json,
    cvssScore: Json, cvssVector: Json, severity: Json,
    cwe: seq<Cwe>, affectedPackages: seq<AffectedRow>, fixVersion: Option<string>,
    references: seq<Json>, timeline: seq<TimelineEntry>, credits: seq<Json>,
    assigner: Json, ssvc: Dict)

  /** The normalized record. Its `sources` key repeats `metadata.references`. */
  datatype Record = Record(
    id: Json, text: string, vector: Vector, packageVector: Vector,
    fulltext: Json, state: string, metadata: Metadata)

  /** What `extract_cve_data` returns: `{}`, `{state, id}`, or the record. */
  datatype ParseOutcome = Failed | Tombstone(state: string, id: Json) | Parsed(rec: Record)

  // ---------------------------------------------------------------------
  // parse_cpe (cveBase.py:67-77)

  /** The dict of CPE components of a CPE 2.3 formatted string: non-empty
      exactly when the string has at least 7 colon-separated parts. */
  function ParseCpe(uri: string): (r: map<string, string>)
    ensures r == map[] <==> Count(uri, ':') < 6
    ensures r != map[] ==> r.Keys == {"type", "vendor", "product", "version"}
  {
    var parts := Split(uri, ':');
    SplitLength(uri, ':');
    if |parts| >= 7 then
      var r := map["type" := parts[2], "vendor" := Unquote(parts[3]),
          "product" := Unquote(parts[4]), "version" := Unquote(parts[5])];
      assert "type" in r;
      r
    else map[]
  }

  /** `pkg.update(cpe_data)`. */
  function ApplyCpe(row: AffectedRow, cpe: map<string, string>): AffectedRow {
    row.(cpeType := if "type" in cpe then Some(cpe["type"]) else row.cpeType,
         vendor := if "vendor" in cpe then Str(cpe["vendor"]) else row.vendor,
         product := if "product" in cpe then Str(cpe["product"]) else row.product,
         version := if "version" in cpe then Str(cpe["version"]) else row.version)
  }

  // ---------------------------------------------------------------------
  // extract_cve_data, piece by piece (cveBase.py:80-223)

  /** Lines 83-88: the id, the containers, the `cna` container and the
      upper-cased state. */
  datatype Header = Header(cveId: Json, containers: Json, cna: Json, state: string)

  function HeaderOf(doc: Json): Result<Header> {
    var meta :- Get(doc, "cveMetadata", EmptyObj);
    var cveId :- Get(meta, "cveId", Str(""));
    var containers :- Get(doc, "containers", EmptyObj);
    var cna :- Get(containers, "cna", EmptyObj);
    var state :- Get(meta, "state", Str(""));
    var text :- AsString(state);
    Ok(Header(cveId, containers, cna, Upper(text)))
  }

  /** Lines 93-96: the generator stops at the first English entry, so later
      entries are never looked at. */
  function FirstEnglishValue(ds: seq<Json>): Result<Json> {
    if ds == [] then Ok(Str(""))
    else
      var lang :- Get(ds[0], "lang", Null);
      if lang == Str("en") then Get(ds[0], "value", Null) else FirstEnglishValue(ds[1..])
  }

  /** Lines 93-97. */
  function DescriptionOf(cna: Json, ext: Externals): Result<string> {
    var descriptions :- Get(cna, "descriptions", Arr([]));
    var ds :- Items(descriptions);
    var value :- FirstEnglishValue(ds);
    var text :- AsString(value);
    Ok(ext.htmlUnescape(Strip(text)))
  }

  /** Lines 102-105: the first metric holding `cvssV3_1`, else `{}`. */
  function FirstCvss(ms: seq<Json>): Result<Json> {
    if ms == [] then Ok(EmptyObj)
    else
      var found :- PyIn("cvssV3_1", ms[0]);
      if found then Index(ms[0], "cvssV3_1") else FirstCvss(ms[1..])
  }

  /** Lines 100-105. */
  function CvssFrom(cna: Json): Result<Json> {
    var metrics :- Get(cna, "metrics", Arr([]));
    var ms :- Items(metrics);
    FirstCvss(ms)
  }

  /** Lines 111-115: the inner loop body, appending an English CWE entry. */
  function CweStep(cwes: seq<Cwe>, d: Json): Result<seq<Cwe>> {
    var lang :- Get(d, "lang", Null);
    if lang == Str("en") then
      var id :- Get(d, "cweId", Null);
      var text :- Get(d, "description", Null);
      Ok(cwes + [Cwe(id, text)])
    else Ok(cwes)
  }

  /** Lines 110-115: the outer loop body, one problem type. */
  function ProblemTypeStep(cwes: seq<Cwe>, pt: Json): Result<seq<Cwe>> {
    var descriptions :- Get(pt, "descriptions", Arr([]));
    var ds :- Items(descriptions);
    Loop(CweStep, cwes, ds)
  }

  /** Lines 108-115. */
  function CwesFrom(cna: Json): Result<seq<Cwe>> {
    var problemTypes :- Get(cna, "problemTypes", Arr([]));
    var pts :- Items(problemTypes);
    Loop(ProblemTypeStep, [], pts)
  }

  /** Lines 141-142: one CPE entry merged into the row. */
  function CpeStep(row: AffectedRow, cpe: Json): Result<AffectedRow> {
    var uri :- Get(cpe, "cpe23Uri", Str(""));
    var text :- AsString(uri);
    Ok(ApplyCpe(row, ParseCpe(text)))
  }

  /** Lines 129-142: the row for one version entry `v` of component `a`. */
  function VersionRow(a: Json, vendor: Json, product: Json, defaultStatus: Json, v: Json): Result<AffectedRow> {
    var version :- Get(v, "version", Null);
    var lessThanOrEqual :- Get(v, "lessThanOrEqual", Null);
    var lessThan :- Get(v, "lessThan", Null);
    var versionType :- Get(v, "versionType", Null);
    var status :- Get(v, "status", defaultStatus);
    var cpeList :- Get(a, "cpe", Arr([]));
    var cpes :- Items(cpeList);
    Loop(CpeStep, AffectedRow(vendor, product, version, lessThanOrEqual, lessThan, versionType, status, None), cpes)
  }

  /** Lines 128-144: the version loop, appending one row per entry to `rows`. */
  function VersionRows(a: Json, vendor: Json, product: Json, defaultStatus: Json, rows: seq<AffectedRow>, vs: seq<Json>): Result<seq<AffectedRow>>
  {
    AppendEach(v => VersionRow(a, vendor, product, defaultStatus, v), rows, vs)
  }

  /** The version constraint of a status line (lines 149-152). */
  datatype Bound = NoBound | AtMost(version: Json) | Below(version: Json)

  /** A status line of the extended description (line 154), before rendering. */
  datatype StatusLine = StatusLine(status: Json, product: Json, packageName: Json, bound: Bound)

  function BoundText(b: Bound): string {
    match b
    case NoBound => ""
    case AtMost(v) => "lessThanOrEqual " + Show(v)
    case Below(v) => "lessThan " + Show(v)
  }

  /** Line 154: the f-string that renders a status line. */
  function LineText(l: StatusLine): string {
    "\n==> " + Show(l.status) + " " + Show(l.product) + " " + Show(l.packageName) + " " + BoundText(l.bound)
  }

  /** Lines 147-154: the status line, read from the version entry `v` last
      bound by the version loop. */
  function DescriptionLine(v: Json, defaultStatus: Json, product: Json, packageName: Json): Result<StatusLine> {
    if !v.Obj? then Raise(AttributeError)
    else
      var version := Lookup(v.fields, "version").GetOr(Null);
      var bound :=
        if Truthy(Lookup(v.fields, "lessThanOrEqual").GetOr(Null)) then AtMost(version)
        else if Truthy(Lookup(v.fields, "lessThan").GetOr(Null)) then Below(version)
        else NoBound;
      Ok(StatusLine(Lookup(v.fields, "status").GetOr(defaultStatus), product, packageName, bound))
  }

  /** The state of the loop of lines 122-156: the rows, the kept package
      names, the description lines and the loop variable `v` (`None` while
      unbound). */
  datatype AffectedState = AffectedState(rows: seq<AffectedRow>, names: seq<Json>, lines: seq<StatusLine>, lastVersion: Option<Json>)

  const NoAffected := AffectedState([], [], [], None)

  /** What lines 123-126 read from one component, with the versions as
      the `for` of line 128 iterates over them. */
  datatype Component = Component(vendor: Json, product: Json, defaultStatus: Json, versions: seq<Json>)

  function ComponentOf(a: Json): (r: Result<Component>)
    ensures r.Ok? ==> a.Obj?
  {
    var vendor :- Get(a, "vendor", Str(""));
    var product :- Get(a, "product", Str(""));
    var versionInfo :- Get(a, "versions", Arr([]));
    var defaultStatus :- Get(a, "defaultStatus", Str(""));
    var vs :- Items(versionInfo);
    Ok(Component(vendor, product, defaultStatus, vs))
  }

  /** One iteration of the component loop, lines 123-156. */
  function ComponentStep(st: AffectedState, a: Json): Result<AffectedState> {
    var c :- ComponentOf(a);
    var rows :- VersionRows(a, c.vendor, c.product, c.defaultStatus, st.rows, c.versions);
    var packageName :- Get(a, "packageName", Str(""));
    FinishComponent(st, c, rows, packageName)
  }

  /** Lines 147-156, after the versions loop: `v` is the last version of
      this component or, when it has none, the one left over from an earlier
      component. */
  function FinishComponent(st: AffectedState, c: Component, rows: seq<AffectedRow>, packageName: Json): Result<AffectedState> {
    var v := if c.versions == [] then st.lastVersion else Some(c.versions[|c.versions| - 1]);
    if v.None? then Raise(UnboundLocalError)
    else
      var line :- DescriptionLine(v.value, c.defaultStatus, c.product, packageName);
      Ok(AffectedState(rows,
                       st.names + (if Truthy(packageName) then [packageName] else []),
                       st.lines + [line], v))
  }

  /** Lines 118-156. */
  function AffectedFrom(cna: Json): Result<AffectedState> {
    var affected :- Get(cna, "affected", Arr([]));
    var comps :- Items(affected);
    Loop(ComponentStep, NoAffected, comps)
  }

  /** The rendered lines, concatenated in order. */
  function Concat(lines: seq<StatusLine>): string {
    if lines == [] then "" else Concat(lines[..|lines| - 1]) + LineText(lines[|lines| - 1])
  }

  /** Appending a rendered line to the text keeps it equal to the
      description followed by the rendered lines. */
  lemma ExtendText(description: string, lines: seq<StatusLine>, lines': seq<StatusLine>, text: string)
    requires text == description + Concat(lines)
    requires |lines'| == |lines| + 1 && lines'[..|lines|] == lines
    ensures text + LineText(lines'[|lines|]) == description + Concat(lines')
  {
    var line := lines'[|lines|];
    assert Concat(lines') == Concat(lines) + LineText(line);
    AppendAssoc(description, Concat(lines), LineText(line));
  }

  /** Kept as a lemma of its own: stated inline, the step exhausts the
      solver in the context of `ExtendText`. */
  lemma AppendAssoc(a: string, b: string, c: string)
    ensures (a + b) + c == a + (b + c)
  {
  }

  /** Line 160: the candidate fix versions, `"> " + lessThanOrEqual`, of the
      rows with a truthy `lessThanOrEqual`. */
  function FixCandidates(rows: seq<AffectedRow>): seq<string> {
    if rows == [] then []
    else
      (if Truthy(rows[0].lessThanOrEqual) then ["> " + Show(rows[0].lessThanOrEqual)] else [])
      + FixCandidates(rows[1..])
  }

  /** The smallest string of the list in Python's string order. */
  function MinString(xs: seq<string>): Option<string> {
    if xs == [] then None
    else
      var rest := MinString(xs[1..]);
      if rest.None? || LexLess(xs[0], rest.value) then Some(xs[0]) else rest
  }

  /** Lines 159-162: `sorted(set(...))[0]`, or `None`. */
  function FixVersion(rows: seq<AffectedRow>): Option<string> {
    MinString(FixCandidates(rows))
  }

  /** Line 165. */
  function UrlsOf(rs: seq<Json>): Result<seq<Json>> {
    if rs == [] then Ok([])
    else
      var has :- PyIn("url", rs[0]);
      if has then
        var url :- Get(rs[0], "url", Null);
        var rest :- UrlsOf(rs[1..]);
        Ok([url] + rest)
      else UrlsOf(rs[1..])
  }

  /** Line 165. */
  function ReferencesFrom(cna: Json): Result<seq<Json>> {
    var references :- Get(cna, "references", Arr([]));
    var rs :- Items(references);
    UrlsOf(rs)
  }

  /** Lines 168-171. */
  function TimelineOf(ts: seq<Json>): Result<seq<TimelineEntry>> {
    if ts == [] then Ok([])
    else
      var hasTime :- PyIn("time", ts[0]);
      var keep :- if hasTime then PyIn("value", ts[0]) else Ok(false);
      if keep then
        var date :- Index(ts[0], "time");
        var event :- Index(ts[0], "value");
        var rest :- TimelineOf(ts[1..]);
        Ok([TimelineEntry(date, event)] + rest)
      else TimelineOf(ts[1..])
  }

  /** Lines 168-171. */
  function TimelineFrom(cna: Json): Result<seq<TimelineEntry>> {
    var timeline :- Get(cna, "timeline", Arr([]));
    var ts :- Items(timeline);
    TimelineOf(ts)
  }

  /** Line 174. */
  function CreditsOf(cs: seq<Json>): Result<seq<Json>> {
    if cs == [] then Ok([])
    else
      var lang :- Get(cs[0], "lang", Null);
      if lang == Str("en") then
        var value :- Get(cs[0], "value", Null);
        var rest :- CreditsOf(cs[1..]);
        Ok([value] + rest)
      else CreditsOf(cs[1..])
  }

  /** Line 174. */
  function CreditsFrom(cna: Json): Result<seq<Json>> {
    var credits :- Get(cna, "credits", Arr([]));
    var cs :- Items(credits);
    CreditsOf(cs)
  }

  /** One element of a non-dict argument of `dict.update`: an iterable of
      exactly two items (a list, a string or a dict's keys) whose first item,
      the key, is hashable. Only string keys are modelled; a number, boolean
      or null key raises here. */
  function PairOf(e: Json): (r: Result<(string, Json)>)
    ensures r.Ok? ==> e.Arr? || e.Str? || e.Obj?
  {
    var items :- Items(e);
    if |items| != 2 then Raise(ValueError)
    else if items[0].Str? then Ok((items[0].s, items[1]))
    else Raise(TypeError)
  }

  /** `ssvc_data.update(opt)`. A dict merges its members; any other iterable
      merges its elements as key/value pairs, in order; a value that is not
      iterable raises. */
  function UpdateFrom(d: Dict, opt: Json): (r: Result<Dict>)
    ensures opt.Obj? ==> r == Ok(UpdateWith(d, opt.fields))
    ensures opt.Null? || opt.Bool? || opt.Num? ==> r == Raise(TypeError)
  {
    if opt.Obj? then Ok(UpdateWith(d, opt.fields))
    else
      var elems :- Items(opt);
      var pairs :- AppendEach(PairOf, [], elems);
      Ok(UpdateWith(d, pairs))
  }

  /** Lines 181-188: the SSVC dict built from a metric's `content`. */
  function SsvcData(content: Json): Result<Dict> {
    var role :- Get(content, "role", Null);
    var version :- Get(content, "version", Null);
    var exploitStatus :- Get(content, "exploitStatus", Null);
    var options :- Get(content, "options", Arr([]));
    var opts :- Items(options);
    Loop(UpdateFrom, [("role", role), ("version", version), ("exploitStatus", exploitStatus)], opts)
  }

  /** Line 180: whether metric `m` is an SSVC metric. */
  function IsSsvcMetric(m: Json): Result<bool> {
    var hasOther :- PyIn("other", m);
    if hasOther then
      var other :- Index(m, "other");
      var kind :- Get(other, "type", Null);
      Ok(kind == Str("ssvc"))
    else Ok(false)
  }

  /** Lines 179-189 for one `adp` container: the data of its first SSVC
      metric; the `break` ends this scan only. */
  function SsvcScan(ms: seq<Json>): Result<Option<Dict>> {
    if ms == [] then Ok(None)
    else
      var isSsvc :- IsSsvcMetric(ms[0]);
      if isSsvc then
        var other :- Index(ms[0], "other");
        var content :- Get(other, "content", EmptyObj);
        var data :- SsvcData(content);
        Ok(Some(data))
      else SsvcScan(ms[1..])
  }

  /** Lines 178-189: one `adp` container; SSVC data found in it replaces
      what earlier containers gave. */
  function SsvcStep(data: Dict, adp: Json): Result<Dict> {
    var metrics :- Get(adp, "metrics", Arr([]));
    var ms :- Items(metrics);
    var found :- SsvcScan(ms);
    Ok(if found.Some? then found.value else data)
  }

  /** Lines 177-189. */
  function SsvcFrom(containers: Json): Result<Dict> {
    var adp :- Get(containers, "adp", Arr([]));
    var adps :- Items(adp);
    Loop(SsvcStep, [], adps)
  }

  /** Line 193: the package vector, skipped when no package name was kept. */
  function PackageVector(names: seq<Json>, ext: Externals): Vector {
    if names != [] then ext.encode(Repr(Arr(names))) else []
  }

  /** What lines 93-156 compute from the `cna` container: the CVSS data,
      the CWE entries, the affected rows, the kept package names and the
      extended description. */
  datatype Analysis = Analysis(cvss: Json, cwes: seq<Cwe>, rows: seq<AffectedRow>, names: seq<Json>, text: string)

  function AnalysisOf(cna: Json, ext: Externals): Result<Analysis> {
    var description :- DescriptionOf(cna, ext);
    var cvss :- CvssFrom(cna);
    var cwes :- CwesFrom(cna);
    var st :- AffectedFrom(cna);
    Ok(Analysis(cvss, cwes, st.rows, st.names, description + Concat(st.lines)))
  }

  /** What lines 165-189 collect: references, timeline, credits and SSVC data. */
  datatype Extras = Extras(references: seq<Json>, timeline: seq<TimelineEntry>, credits: seq<Json>, ssvc: Dict)

  function ExtrasOf(h: Header): Result<Extras> {
    var urls :- ReferencesFrom(h.cna);
    var events :- TimelineFrom(h.cna);
    var credits :- CreditsFrom(h.cna);
    var ssvc :- SsvcFrom(h.containers);
    Ok(Extras(urls, events, credits, ssvc))
  }

  /** Lines 192-219: the embeddings and the record. */
  function Assemble(doc: Json, h: Header, ext: Externals, a: Analysis, x: Extras): Result<Record> {
    var title :- Get(h.cna, "title", Str(""));
    var meta :- Get(doc, "cveMetadata", EmptyObj);
    var published :- Get(meta, "datePublished", Str(""));
    var updated :- Get(meta, "dateUpdated", Str(""));
    var score :- Get(a.cvss, "baseScore", Null);
    var vector :- Get(a.cvss, "vectorString", Null);
    var severity :- Get(a.cvss, "baseSeverity", Null);
    var assigner :- Get(meta, "assignerShortName", Null);
    Ok(Record(h.cveId, a.text, ext.encode(a.text), PackageVector(a.names, ext), doc, h.state,
              Metadata(title, published, updated, score, vector, severity, a.cwes, a.rows,
                       FixVersion(a.rows), x.references, x.timeline, x.credits, assigner, x.ssvc)))
  }

  /** The body of the `try` block of lines 82-219. */
  function TryParse(doc: Json, ext: Externals): Result<ParseOutcome> {
    var h :- HeaderOf(doc);
    if h.state == "REJECTED" then Ok(Tombstone(h.state, h.cveId))
    else
      var a :- AnalysisOf(h.cna, ext);
      var x :- ExtrasOf(h);
      var r :- Assemble(doc, h, ext, a, x);
      Ok(Parsed(r))
  }

  /** `extract_cve_data`: any exception becomes `{}`. */
  function Extract(doc: Json, ext: Externals): ParseOutcome {
    match TryParse(doc, ext)
    case Ok(outcome) => outcome
    case Raise(_) => Failed
  }

  // ---------------------------------------------------------------------
  // The loops of extract_cve_data, as the source runs them

  /** Lines 100-105. */
  method SelectCvss(cna: Json) returns (cvss: Result<Json>)
    ensures cvss == CvssFrom(cna)
  {
    var metrics :- Get(cna, "metrics", Arr([]));
    var ms :- Items(metrics);
    var i := 0;
    while i < |ms|
      invariant 0 <= i <= |ms|
      invariant FirstCvss(ms[i..]) == FirstCvss(ms)
    {
      var found :- PyIn("cvssV3_1", ms[i]);
      if found {
        return Index(ms[i], "cvssV3_1");
      }
      assert ms[i..][1..] == ms[i + 1..];
      i := i + 1;
    }
    return Ok(EmptyObj);
  }

  /** Lines 108-115. */
  method CollectCwes(cna: Json) returns (r: Result<seq<Cwe>>)
    ensures r == CwesFrom(cna)
  {
    var problemTypes :- Get(cna, "problemTypes", Arr([]));
    var pts :- Items(problemTypes);
    var cwes: seq<Cwe> := [];
    for i := 0 to |pts|
      invariant Loop(ProblemTypeStep, [], pts) == Loop(ProblemTypeStep, cwes, pts[i..])
    {
      assert pts[i..][1..] == pts[i + 1..];
      var descriptions :- Get(pts[i], "descriptions", Arr([]));
      var ds :- Items(descriptions);
      ghost var start := cwes;
      assert ProblemTypeStep(start, pts[i]) == Loop(CweStep, start, ds);
      for j := 0 to |ds|
        invariant Loop(CweStep, start, ds) == Loop(CweStep, cwes, ds[j..])
      {
        assert ds[j..][1..] == ds[j + 1..];
        var lang :- Get(ds[j], "lang", Null);
        if lang == Str("en") {
          var id :- Get(ds[j], "cweId", Null);
          var text :- Get(ds[j], "description", Null);
          cwes := cwes + [Cwe(id, text)];
        }
      }
    }
    return Ok(cwes);
  }

  /** Lines 140-142: the CPE strings of a component merged into `row`. */
  method MergeCpes(row: AffectedRow, cpes: seq<Json>) returns (r: Result<AffectedRow>)
    ensures r == Loop(CpeStep, row, cpes)
  {
    var pkg := row;
    for k := 0 to |cpes|
      invariant Loop(CpeStep, row, cpes) == Loop(CpeStep, pkg, cpes[k..])
    {
      assert cpes[k..][1..] == cpes[k + 1..];
      var uri :- Get(cpes[k], "cpe23Uri", Str(""));
      var text :- AsString(uri);
      pkg := ApplyCpe(pkg, ParseCpe(text));
    }
    return Ok(pkg);
  }

  /** Lines 128-144: the version loop of component `a`, appending to `rows`. */
  method AppendVersionRows(a: Json, vendor: Json, product: Json, defaultStatus: Json, rows: seq<AffectedRow>, vs: seq<Json>)
    returns (r: Result<seq<AffectedRow>>)
    ensures r == VersionRows(a, vendor, product, defaultStatus, rows, vs)
  {
    var packages := rows;
    for j := 0 to |vs|
      invariant VersionRows(a, vendor, product, defaultStatus, rows, vs) == VersionRows(a, vendor, product, defaultStatus, packages, vs[j..])
    {
      assert vs[j..][1..] == vs[j + 1..];
      var v := vs[j];
      var version :- Get(v, "version", Null);
      var lessThanOrEqual :- Get(v, "lessThanOrEqual", Null);
      var lessThan :- Get(v, "lessThan", Null);
      var versionType :- Get(v, "versionType", Null);
      var status :- Get(v, "status", defaultStatus);
      var cpeList :- Get(a, "cpe", Arr([]));
      var cpes :- Items(cpeList);
      var pkg :- MergeCpes(AffectedRow(vendor, product, version, lessThanOrEqual, lessThan, versionType, status, None), cpes);
      packages := packages + [pkg];
    }
    return Ok(packages);
  }

  /** Lines 123-156: one iteration of the component loop. */
  method AddComponent(st: AffectedState, a: Json) returns (r: Result<AffectedState>)
    ensures r == ComponentStep(st, a)
    ensures r.Ok? ==> |r.value.lines| == |st.lines| + 1 && r.value.lines[..|st.lines|] == st.lines
  {
    var c :- ComponentOf(a);
    var rows :- AppendVersionRows(a, c.vendor, c.product, c.defaultStatus, st.rows, c.versions);
    var packageName :- Get(a, "packageName", Str(""));
    r := FinishComponent(st, c, rows, packageName);
    if r.Ok? {
      assert r.value.lines[..|st.lines|] == st.lines;
    }
  }

  /** Lines 118-156: the affected packages, the kept package names and the
      extended description that starts from `description`. */
  method CollectAffected(cna: Json, description: string) returns (r: Result<(seq<AffectedRow>, seq<Json>, string)>)
    ensures r == (var st :- AffectedFrom(cna); Ok((st.rows, st.names, description + Concat(st.lines))))
  {
    var affected :- Get(cna, "affected", Arr([]));
    var comps :- Items(affected);
    var st := NoAffected;
    var text := description;
    for i := 0 to |comps|
      invariant Loop(ComponentStep, NoAffected, comps) == Loop(ComponentStep, st, comps[i..])
      invariant text == description + Concat(st.lines)
    {
      LoopUnfold(ComponentStep, st, comps, i);
      var next :- AddComponent(st, comps[i]);
      LoopStep(ComponentStep, st, comps, i, next);
      ExtendText(description, st.lines, next.lines, text);
      text := text + LineText(next.lines[|st.lines|]);
      st := next;
    }
    return Ok((st.rows, st.names, text));
  }

  /** Lines 187-188: the options merged into the SSVC dict in order. */
  method MergeOptions(base: Dict, opts: seq<Json>) returns (r: Result<Dict>)
    ensures r == Loop(UpdateFrom, base, opts)
  {
    var data := base;
    for o := 0 to |opts|
      invariant Loop(UpdateFrom, base, opts) == Loop(UpdateFrom, data, opts[o..])
    {
      assert opts[o..][1..] == opts[o + 1..];
      data :- UpdateFrom(data, opts[o]);
    }
    return Ok(data);
  }

  /** Lines 179-189 for one container's metrics: the data of the first SSVC
      metric, where the `break` leaves the loop. */
  method ScanMetrics(ms: seq<Json>) returns (r: Result<Option<Dict>>)
    ensures r == SsvcScan(ms)
  {
    var k := 0;
    while k < |ms|
      invariant 0 <= k <= |ms|
      invariant SsvcScan(ms[k..]) == SsvcScan(ms)
    {
      var isSsvc :- IsSsvcMetric(ms[k]);
      if isSsvc {
        var other :- Index(ms[k], "other");
        var content :- Get(other, "content", EmptyObj);
        var role :- Get(content, "role", Null);
        var version :- Get(content, "version", Null);
        var exploitStatus :- Get(content, "exploitStatus", Null);
        var options :- Get(content, "options", Arr([]));
        var opts :- Items(options);
        var data :- MergeOptions([("role", role), ("version", version), ("exploitStatus", exploitStatus)], opts);
        return Ok(Some(data));
      }
      assert ms[k..][1..] == ms[k + 1..];
      k := k + 1;
    }
    return Ok(None);
  }

  /** Lines 177-189. */
  method SelectSsvc(containers: Json) returns (r: Result<Dict>)
    ensures r == SsvcFrom(containers)
  {
    var adp :- Get(containers, "adp", Arr([]));
    var adps :- Items(adp);
    var data: Dict := [];
    for i := 0 to |adps|
      invariant Loop(SsvcStep, [], adps) == Loop(SsvcStep, data, adps[i..])
    {
      assert adps[i..][1..] == adps[i + 1..];
      var metrics :- Get(adps[i], "metrics", Arr([]));
      var ms :- Items(metrics);
      var found :- ScanMetrics(ms);
      if found.Some? {
        data := found.value;
      }
    }
    return Ok(data);
  }

  /** Lines 93-156, with the source's loops. */
  method Analyze(cna: Json, ext: Externals) returns (r: Result<Analysis>)
    ensures r == AnalysisOf(cna, ext)
  {
    var description :- DescriptionOf(cna, ext);
    var cvss :- SelectCvss(cna);
    var cwes :- CollectCwes(cna);
    var packages :- CollectAffected(cna, description);
    return Ok(Analysis(cvss, cwes, packages.0, packages.1, packages.2));
  }

  /** The `try` block of lines 82-219. */
  method ParseBody(doc: Json, ext: Externals) returns (r: Result<ParseOutcome>)
    ensures r == TryParse(doc, ext)
  {
    var h :- HeaderOf(doc);
    if h.state == "REJECTED" {
      return Ok(Tombstone(h.state, h.cveId));
    }
    var a :- Analyze(h.cna, ext);
    var urls :- ReferencesFrom(h.cna);
    var events :- TimelineFrom(h.cna);
    var credits :- CreditsFrom(h.cna);
    var ssvc :- SelectSsvc(h.containers);
    var rec :- Assemble(doc, h, ext, a, Extras(urls, events, credits, ssvc));
    return Ok(Parsed(rec));
  }

  /** `extract_cve_data` (lines 80-223). */
  method ExtractCveData(doc: Json, ext: Externals) returns (outcome: ParseOutcome)
    ensures outcome == Extract(doc, ext)
  {
    var r := ParseBody(doc, ext);
    if r.Raise? {
      return Failed;
    }
    return r.value;
  }
}
