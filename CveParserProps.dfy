/** What `CVEParser.extract_cve_data` (dataSync/cveSync/cveBase.py) guarantees
    about the normalized record, proved about the definitions in `CveParser`. */
module CveParserProps {
  import opened PyStr
  import opened PyJson
  import opened CveParser

  // ---------------------------------------------------------------------
  // parse_cpe

  /** A CPE 2.3 string assembled from colon-free parts parses back to its
      type, vendor, product and version parts, the last three percent-decoded. */
  lemma ParseCpeOfParts(parts: seq<string>)
    requires |parts| >= 7
    requires forall p | p in parts :: ':' !in p
    ensures ParseCpe(Join(parts, ':')) ==
            map["type" := parts[2], "vendor" := Unquote(parts[3]),
                "product" := Unquote(parts[4]), "version" := Unquote(parts[5])]
  {
    SplitJoin(parts, ':');
  }

  /** The CPE of the list that the row ends up with: the last one that
      parses, or `None` when none does. */
  function LastCpe(uris: seq<string>): (c: Option<map<string, string>>)
    ensures c.Some? ==> c.value.Keys == {"type", "vendor", "product", "version"}
    ensures c.None? <==> forall i | 0 <= i < |uris| :: ParseCpe(uris[i]) == map[]
  {
    if uris == [] then None
    else
      var rest := LastCpe(uris[1..]);
      assert forall i | 1 <= i < |uris| :: uris[1..][i - 1] == uris[i];
      if rest.Some? then rest
      else if ParseCpe(uris[0]) != map[] then Some(ParseCpe(uris[0]))
      else None
  }

  function WithCpe(row: AffectedRow, c: Option<map<string, string>>): AffectedRow {
    if c.None? then row else ApplyCpe(row, c.value)
  }

  /** Lines 140-142: every CPE entry of the component is merged into every
      row, so the row's vendor, product, version and type come from the last
      entry that parses; entries that do not parse change nothing. */
  lemma {:induction false} LastCpeWins(row: AffectedRow, cpes: seq<Json>, uris: seq<string>)
    requires |uris| == |cpes|
    requires forall i | 0 <= i < |cpes| :: Get(cpes[i], "cpe23Uri", Str("")) == Ok(Str(uris[i]))
    ensures Loop(CpeStep, row, cpes) == Ok(WithCpe(row, LastCpe(uris)))
    decreases |cpes|
  {
    if cpes != [] {
      var next := ApplyCpe(row, ParseCpe(uris[0]));
      assert CpeStep(row, cpes[0]) == Ok(next);
      assert forall i | 0 <= i < |cpes| - 1 :: cpes[1..][i] == cpes[i + 1] && uris[1..][i] == uris[i + 1];
      LastCpeWins(next, cpes[1..], uris[1..]);
    }
  }

  /** A row's status, bounds and version type are never touched by CPE
      entries; its vendor, product and version are, once a CPE parses. */
  lemma {:induction false} CpesKeepBounds(row: AffectedRow, cpes: seq<Json>, r: AffectedRow)
    requires Loop(CpeStep, row, cpes) == Ok(r)
    ensures r.status == row.status && r.versionType == row.versionType
    ensures r.lessThanOrEqual == row.lessThanOrEqual && r.lessThan == row.lessThan
    ensures r.cpeType.None? ==> r.vendor == row.vendor && r.product == row.product && r.version == row.version
    ensures row.cpeType.Some? ==> r.cpeType.Some?
    decreases |cpes|
  {
    if cpes != [] {
      var next := CpeStep(row, cpes[0]).value;
      CpesKeepBounds(next, cpes[1..], r);
    }
  }

  /** Lines 129-137: a row takes its bounds and version type from its version
      entry and its status from the entry, else from the component's
      `defaultStatus`; without a parsed CPE it keeps the component's vendor and
      product and the entry's version. */
  lemma VersionRowFields(a: Json, vendor: Json, product: Json, defaultStatus: Json, v: Json, row: AffectedRow)
    requires VersionRow(a, vendor, product, defaultStatus, v) == Ok(row)
    ensures v.Obj?
    ensures row.status == Lookup(v.fields, "status").GetOr(defaultStatus)
    ensures row.lessThanOrEqual == Lookup(v.fields, "lessThanOrEqual").GetOr(Null)
    ensures row.lessThan == Lookup(v.fields, "lessThan").GetOr(Null)
    ensures row.versionType == Lookup(v.fields, "versionType").GetOr(Null)
    ensures row.cpeType.None? ==>
              row.vendor == vendor && row.product == product && row.version == Lookup(v.fields, "version").GetOr(Null)
  {
    var cpes := Items(Get(a, "cpe", Arr([])).value).value;
    var base := AffectedRow(vendor, product, Lookup(v.fields, "version").GetOr(Null),
                            Lookup(v.fields, "lessThanOrEqual").GetOr(Null), Lookup(v.fields, "lessThan").GetOr(Null),
                            Lookup(v.fields, "versionType").GetOr(Null), Lookup(v.fields, "status").GetOr(defaultStatus), None);
    CpesKeepBounds(base, cpes, row);
  }

  // ---------------------------------------------------------------------
  // The affected-packages loop

  /** Lines 128-144: the version loop appends exactly one row per version
      entry, in order, after the rows already there. */
  lemma OneRowPerVersion(a: Json, vendor: Json, product: Json, defaultStatus: Json,
                          rows: seq<AffectedRow>, vs: seq<Json>, out: seq<AffectedRow>)
    requires VersionRows(a, vendor, product, defaultStatus, rows, vs) == Ok(out)
    ensures |out| == |rows| + |vs|
    ensures out[..|rows|] == rows
    ensures forall j | 0 <= j < |vs| :: VersionRow(a, vendor, product, defaultStatus, vs[j]) == Ok(out[|rows| + j])
  {
    AppendEachShape(v => VersionRow(a, vendor, product, defaultStatus, v), rows, vs, out);
  }

  /** The versions component `a` lists, when it lists them as the loop reads them. */
  function VersionsOf(a: Json): seq<Json> {
    match ComponentOf(a)
    case Ok(c) => c.versions
    case Raise(_) => []
  }

  /** `v` after component `a`: its last version entry when it lists any,
      else what it was. */
  function Rebind(v: Option<Json>, a: Json): Option<Json> {
    var vs := VersionsOf(a);
    if vs != [] then Some(vs[|vs| - 1]) else v
  }

  /** The loop variable `v` after the components `comps`, starting from `v0`. */
  function LastBound(v0: Option<Json>, comps: seq<Json>): Option<Json>
    decreases |comps|
  {
    if comps == [] then v0 else LastBound(Rebind(v0, comps[0]), comps[1..])
  }

  /** The package names the loop keeps: the truthy `packageName`s, in order. */
  function PackageNames(comps: seq<Json>): seq<Json> {
    if comps == [] then []
    else
      (match Get(comps[0], "packageName", Str(""))
       case Ok(p) => if Truthy(p) then [p] else []
       case Raise(_) => [])
      + PackageNames(comps[1..])
  }

  /** The description line component `a` contributes when `v` is bound to `v`. */
  function LineOf(a: Json, v: Json): Result<StatusLine> {
    var c :- ComponentOf(a);
    var packageName :- Get(a, "packageName", Str(""));
    DescriptionLine(v, c.defaultStatus, c.product, packageName)
  }

  lemma PackageNamesAppend(xs: seq<Json>, ys: seq<Json>)
    ensures PackageNames(xs + ys) == PackageNames(xs) + PackageNames(ys)
  {
    if xs != [] {
      assert (xs + ys)[1..] == xs[1..] + ys;
    } else {
      assert xs + ys == ys;
    }
  }

  /** One component step: its rows extend the earlier ones, it adds exactly
      one line and keeps its package name when truthy. */
  lemma StepShape(st: AffectedState, a: Json, next: AffectedState)
    requires ComponentStep(st, a) == Ok(next)
    ensures |next.lines| == |st.lines| + 1 && next.lines[..|st.lines|] == st.lines
    ensures |next.rows| >= |st.rows| && next.rows[..|st.rows|] == st.rows
    ensures next.names == st.names + PackageNames([a])
  {
    var c := ComponentOf(a).value;
    OneRowPerVersion(a, c.vendor, c.product, c.defaultStatus, st.rows, c.versions, next.rows);
    assert [a][1..] == [];
  }

  /** One component step leaves `v` bound to the component's last version
      entry, or unchanged when it lists none, and its line reads that entry. */
  lemma StepLine(st: AffectedState, a: Json, next: AffectedState)
    requires ComponentStep(st, a) == Ok(next)
    ensures next.lastVersion == Rebind(st.lastVersion, a) && next.lastVersion.Some?
    ensures |next.lines| == |st.lines| + 1
    ensures LineOf(a, next.lastVersion.value) == Ok(next.lines[|st.lines|])
  {
  }

  /** Lines 118-156 over a whole list of components: earlier results are
      kept, there is one description line per component, the package names
      are the truthy ones in order, and `v` ends bound to the last version
      entry seen. */
  lemma {:induction false} ComponentLoopShape(st: AffectedState, comps: seq<Json>, out: AffectedState)
    requires Loop(ComponentStep, st, comps) == Ok(out)
    ensures |out.lines| == |st.lines| + |comps| && out.lines[..|st.lines|] == st.lines
    ensures |out.rows| >= |st.rows| && out.rows[..|st.rows|] == st.rows
    ensures out.names == st.names + PackageNames(comps)
    ensures out.lastVersion == LastBound(st.lastVersion, comps)
    decreases |comps|
  {
    if comps != [] {
      var next := ComponentStep(st, comps[0]).value;
      ComponentLoopShape(next, comps[1..], out);
      StepShape(st, comps[0], next);
      StepLine(st, comps[0], next);
      assert comps == [comps[0]] + comps[1..];
      PackageNamesAppend([comps[0]], comps[1..]);
      assert out.lines[..|st.lines|] == out.lines[..|next.lines|][..|st.lines|];
      assert out.rows[..|st.rows|] == out.rows[..|next.rows|][..|st.rows|];
    }
  }

  /** The number of lines and the final `v` alone, without the rest of the state. */
  lemma {:induction false} LinesAndBound(st: AffectedState, comps: seq<Json>, out: AffectedState)
    requires Loop(ComponentStep, st, comps) == Ok(out)
    ensures |out.lines| == |st.lines| + |comps|
    ensures out.lastVersion == LastBound(st.lastVersion, comps)
    decreases |comps|
  {
    if comps != [] {
      var next := ComponentStep(st, comps[0]).value;
      StepLine(st, comps[0], next);
      LinesAndBound(next, comps[1..], out);
    }
  }

  lemma {:induction false} LastBoundAppend(v0: Option<Json>, xs: seq<Json>, ys: seq<Json>)
    ensures LastBound(v0, xs + ys) == LastBound(LastBound(v0, xs), ys)
    decreases |xs|
  {
    if xs == [] {
      assert xs + ys == ys;
    } else {
      assert (xs + ys)[0] == xs[0] && (xs + ys)[1..] == xs[1..] + ys;
      LastBoundAppend(Rebind(v0, xs[0]), xs[1..], ys);
    }
  }

  /** The states a step function passes through, one after each element. */
  function Scan<S, X>(step: (S, X) -> S, s0: S, xs: seq<X>): (r: seq<S>)
    ensures |r| == |xs|
    ensures xs != [] ==> r[0] == step(s0, xs[0])
    decreases |xs|
  {
    if xs == [] then [] else [step(s0, xs[0])] + Scan(step, step(s0, xs[0]), xs[1..])
  }

  lemma ScanShift<S, X>(step: (S, X) -> S, s0: S, xs: seq<X>, k: int)
    requires 0 < k < |xs|
    ensures Scan(step, s0, xs)[k] == Scan(step, step(s0, xs[0]), xs[1..])[k - 1]
  {
  }

  /** Component `k` of `comps`, run from `v0` with `n` lines before it,
      produced `lines[n + k]` from the version entry `v` was bound to after
      it, where `rebind` says how a component rebinds `v` and `f` builds the
      line. */
  predicate LineAt(f: (Json, Json) -> Result<StatusLine>, rebind: (Option<Json>, Json) -> Option<Json>,
                   v0: Option<Json>, comps: seq<Json>, lines: seq<StatusLine>, n: int, k: int)
  {
    0 <= k < |comps| && Scan(rebind, v0, comps)[k].Some? && 0 <= n + k < |lines| &&
    f(comps[k], Scan(rebind, v0, comps)[k].value) == Ok(lines[n + k])
  }

  /** What one step of the affected loop guarantees about the description
      lines, for a line function `f` and a rebinding of `v` `rebind`: one
      line is added after the earlier ones, built by `f` from the entry `v` is
      bound to after the step. */
  predicate StepAddsLine(f: (Json, Json) -> Result<StatusLine>, rebind: (Option<Json>, Json) -> Option<Json>,
                         st: AffectedState, a: Json, next: AffectedState)
  {
    next.lastVersion == rebind(st.lastVersion, a) && next.lastVersion.Some? &&
    |next.lines| == |st.lines| + 1 && next.lines[..|st.lines|] == st.lines &&
    f(a, next.lastVersion.value) == Ok(next.lines[|st.lines|])
  }

  /** Lines 146-154: the line of component `k` is built from the version entry
      `v` is bound to after that component: its own last entry, or one left
      over from an earlier component when it lists no versions. */
  lemma LineOfComponent(st: AffectedState, comps: seq<Json>, out: AffectedState, k: int)
    requires Loop(ComponentStep, st, comps) == Ok(out)
    requires 0 <= k < |comps|
    ensures LineAt(LineOf, Rebind, st.lastVersion, comps, out.lines, |st.lines|, k)
  {
    forall s: AffectedState, a: Json | ComponentStep(s, a).Ok?
      ensures StepAddsLine(LineOf, Rebind, s, a, ComponentStep(s, a).value)
    {
      StepLine(s, a, ComponentStep(s, a).value);
      StepShape(s, a, ComponentStep(s, a).value);
    }
    LinesFollowSteps(ComponentStep, LineOf, Rebind, st, comps, out, k);
  }

  /** `LineOfComponent` for any loop body whose every step adds a line. */
  lemma {:induction false} LinesFollowSteps(body: (AffectedState, Json) -> Result<AffectedState>,
                                            f: (Json, Json) -> Result<StatusLine>,
                                            rebind: (Option<Json>, Json) -> Option<Json>,
                                            st: AffectedState, comps: seq<Json>, out: AffectedState, k: int)
    requires Loop(body, st, comps) == Ok(out)
    requires forall s, a | body(s, a).Ok? :: StepAddsLine(f, rebind, s, a, body(s, a).value)
    requires 0 <= k < |comps|
    ensures LineAt(f, rebind, st.lastVersion, comps, out.lines, |st.lines|, k)
    decreases k
  {
    var next := body(st, comps[0]).value;
    assert StepAddsLine(f, rebind, st, comps[0], next);
    if k == 0 {
      LinesKept(body, f, rebind, next, comps[1..], out, |st.lines|);
      FirstLine(f, rebind, st, comps, next, out);
    } else {
      LinesFollowSteps(body, f, rebind, next, comps[1..], out, k - 1);
      LaterLine(f, rebind, st, comps, next, out, k);
    }
  }

  /** Later steps leave an earlier line where it is. */
  lemma {:induction false} LinesKept(body: (AffectedState, Json) -> Result<AffectedState>,
                                     f: (Json, Json) -> Result<StatusLine>,
                                     rebind: (Option<Json>, Json) -> Option<Json>,
                                     st: AffectedState, comps: seq<Json>, out: AffectedState, i: int)
    requires Loop(body, st, comps) == Ok(out)
    requires forall s, a | body(s, a).Ok? :: StepAddsLine(f, rebind, s, a, body(s, a).value)
    requires 0 <= i < |st.lines|
    ensures i < |out.lines| && out.lines[i] == st.lines[i]
    decreases |comps|
  {
    if comps != [] {
      var next := body(st, comps[0]).value;
      assert StepAddsLine(f, rebind, st, comps[0], next);
      PrefixIndex(next.lines, st.lines, i);
      LinesKept(body, f, rebind, next, comps[1..], out, i);
    }
  }

  /** The first component's line. */
  lemma FirstLine(f: (Json, Json) -> Result<StatusLine>, rebind: (Option<Json>, Json) -> Option<Json>,
                  st: AffectedState, comps: seq<Json>, next: AffectedState, out: AffectedState)
    requires comps != [] && next.lastVersion == rebind(st.lastVersion, comps[0]) && next.lastVersion.Some?
    requires |st.lines| < |next.lines| && f(comps[0], next.lastVersion.value) == Ok(next.lines[|st.lines|])
    requires |st.lines| < |out.lines| && out.lines[|st.lines|] == next.lines[|st.lines|]
    ensures LineAt(f, rebind, st.lastVersion, comps, out.lines, |st.lines|, 0)
  {
  }

  /** A later component's line, shifted by one component. */
  lemma LaterLine(f: (Json, Json) -> Result<StatusLine>, rebind: (Option<Json>, Json) -> Option<Json>,
                  st: AffectedState, comps: seq<Json>, next: AffectedState, out: AffectedState, k: int)
    requires 0 < k < |comps| && next.lastVersion == rebind(st.lastVersion, comps[0]) && |next.lines| == |st.lines| + 1
    requires LineAt(f, rebind, next.lastVersion, comps[1..], out.lines, |next.lines|, k - 1)
    ensures LineAt(f, rebind, st.lastVersion, comps, out.lines, |st.lines|, k)
  {
    ScanShift(rebind, st.lastVersion, comps, k);
    assert comps[1..][k - 1] == comps[k];
    SameIndex(out.lines, |next.lines| + (k - 1), |st.lines| + k);
  }

  /** Equal indexes select the same element. */
  lemma SameIndex<T>(s: seq<T>, i: int, j: int)
    requires i == j && 0 <= i < |s|
    ensures s[i] == s[j]
  {
  }

  lemma PrefixIndex<T>(s: seq<T>, prefix: seq<T>, i: int)
    requires |prefix| <= |s| && s[..|prefix|] == prefix && 0 <= i < |prefix|
    ensures s[i] == prefix[i]
  {
    assert s[..|prefix|][i] == s[i];
  }

  /** Lines 146-149: when the first component lists no versions, `v` is never
      bound and the loop raises. */
  lemma FirstComponentWithoutVersions(comps: seq<Json>)
    requires comps != [] && ComponentOf(comps[0]).Ok? && ComponentOf(comps[0]).value.versions == []
    ensures Loop(ComponentStep, NoAffected, comps) == Raise(UnboundLocalError)
  {
  }

  // ---------------------------------------------------------------------
  // The fix version

  /** `MinString` is the least element in Python's string order. */
  lemma {:induction false} MinStringLeast(xs: seq<string>)
    ensures MinString(xs).None? <==> xs == []
    ensures MinString(xs).Some? ==>
              MinString(xs).value in xs &&
              forall x | x in xs :: x == MinString(xs).value || LexLess(MinString(xs).value, x)
  {
    if xs != [] {
      MinStringLeast(xs[1..]);
      var m := MinString(xs).value;
      var rest := MinString(xs[1..]);
      forall x | x in xs
        ensures x == m || LexLess(m, x)
      {
        if x != xs[0] {
          assert x in xs[1..];
        }
        if rest.None? || LexLess(xs[0], rest.value) {
          if x != m && x != rest.value {
            LexLessTransitive(m, rest.value, x);
          }
        } else if x == xs[0] && x != m {
          LexLessTotal(x, m);
        }
      }
    }
  }

  lemma FixCandidatesMembers(rows: seq<AffectedRow>, c: string)
    ensures c in FixCandidates(rows) <==>
            exists i | 0 <= i < |rows| :: Truthy(rows[i].lessThanOrEqual) && c == "> " + Show(rows[i].lessThanOrEqual)
  {
    if rows != [] {
      FixCandidatesMembers(rows[1..], c);
      if c in FixCandidates(rows[1..]) {
        var i :| 0 <= i < |rows| - 1 && Truthy(rows[1..][i].lessThanOrEqual) && c == "> " + Show(rows[1..][i].lessThanOrEqual);
        assert rows[1..][i] == rows[i + 1];
      }
      if exists i | 0 <= i < |rows| :: Truthy(rows[i].lessThanOrEqual) && c == "> " + Show(rows[i].lessThanOrEqual) {
        var i :| 0 <= i < |rows| && Truthy(rows[i].lessThanOrEqual) && c == "> " + Show(rows[i].lessThanOrEqual);
        if i > 0 {
          assert rows[1..][i - 1] == rows[i];
        }
      }
    }
  }

  /** Lines 159-162: there is a fix version exactly when some row has a truthy
      `lessThanOrEqual`; it is then `"> " + bound` for one of them and no
      other candidate is smaller in string order (so `"> 10.0"` comes before
      `"> 9.0"`). */
  lemma FixVersionIsSmallestBound(rows: seq<AffectedRow>)
    ensures FixVersion(rows).None? <==> forall i | 0 <= i < |rows| :: !Truthy(rows[i].lessThanOrEqual)
    ensures FixVersion(rows).Some? ==>
              (exists i | 0 <= i < |rows| :: Truthy(rows[i].lessThanOrEqual) &&
                                              FixVersion(rows).value == "> " + Show(rows[i].lessThanOrEqual)) &&
              forall i | 0 <= i < |rows| && Truthy(rows[i].lessThanOrEqual) ::
                FixVersion(rows).value == "> " + Show(rows[i].lessThanOrEqual) ||
                LexLess(FixVersion(rows).value, "> " + Show(rows[i].lessThanOrEqual))
  {
    var cs := FixCandidates(rows);
    MinStringLeast(cs);
    FixCandidatesMembers(rows, "");
    if forall i | 0 <= i < |rows| :: !Truthy(rows[i].lessThanOrEqual) {
      if cs != [] {
        FixCandidatesMembers(rows, cs[0]);
      }
    } else {
      var i :| 0 <= i < |rows| && Truthy(rows[i].lessThanOrEqual);
      FixCandidatesMembers(rows, "> " + Show(rows[i].lessThanOrEqual));
    }
    if FixVersion(rows).Some? {
      FixCandidatesMembers(rows, FixVersion(rows).value);
      forall i | 0 <= i < |rows| && Truthy(rows[i].lessThanOrEqual)
        ensures FixVersion(rows).value == "> " + Show(rows[i].lessThanOrEqual) ||
                LexLess(FixVersion(rows).value, "> " + Show(rows[i].lessThanOrEqual))
      {
        FixCandidatesMembers(rows, "> " + Show(rows[i].lessThanOrEqual));
      }
    }
  }

  // ---------------------------------------------------------------------
  // References, timeline and credits: filters that keep document order

  /** Line 165 on a concatenation of reference lists. */
  lemma {:induction false} UrlsAppend(xs: seq<Json>, ys: seq<Json>)
    ensures UrlsOf(xs + ys) == (var a :- UrlsOf(xs); var b :- UrlsOf(ys); Ok(a + b))
  {
    if xs == [] {
      assert xs + ys == ys;
      if UrlsOf(ys).Ok? {
        assert [] + UrlsOf(ys).value == UrlsOf(ys).value;
      }
    } else {
      var zs := xs + ys;
      assert zs[0] == xs[0] && zs[1..] == xs[1..] + ys;
      UrlsAppend(xs[1..], ys);
      match PyIn("url", xs[0]) {
        case Raise(e) =>
        case Ok(has) =>
          if has {
            match Get(xs[0], "url", Null) {
              case Raise(e) =>
              case Ok(url) =>
                match UrlsOf(xs[1..]) {
                  case Raise(e) =>
                  case Ok(a) =>
                    match UrlsOf(ys) {
                      case Raise(e) =>
                      case Ok(b) =>
                        assert UrlsOf(xs) == Ok([url] + a);
                        assert [url] + (a + b) == [url] + a + b;
                    }
                }
            }
          }
      }
    }
  }

  /** Line 165 on one reference: its `url` when it has that key, else nothing. */
  lemma UrlsOfOne(r: Json)
    requires r.Obj?
    ensures UrlsOf([r]) == Ok(if HasKey(r, "url") then [Lookup(r.fields, "url").value] else [])
  {
    assert [r][0] == r && [r][1..] == [];
    assert UrlsOf([]) == Ok([]);
    if HasKey(r, "url") {
      var url := Lookup(r.fields, "url").value;
      assert Get(r, "url", Null) == Ok(url);
      assert [url] + [] == [url];
    }
  }

  /** Lines 168-171 on a concatenation of timeline lists. */
  lemma {:induction false} TimelineAppend(xs: seq<Json>, ys: seq<Json>)
    ensures TimelineOf(xs + ys) == (var a :- TimelineOf(xs); var b :- TimelineOf(ys); Ok(a + b))
  {
    if xs == [] {
      assert xs + ys == ys;
      if TimelineOf(ys).Ok? {
        assert [] + TimelineOf(ys).value == TimelineOf(ys).value;
      }
    } else {
      var zs := xs + ys;
      assert zs[0] == xs[0] && zs[1..] == xs[1..] + ys;
      TimelineAppend(xs[1..], ys);
      match Index(xs[0], "time") {
        case Raise(e) =>
        case Ok(date) =>
          match Index(xs[0], "value") {
            case Raise(e) =>
            case Ok(event) =>
              match TimelineOf(xs[1..]) {
                case Raise(e) =>
                case Ok(a) =>
                  match TimelineOf(ys) {
                    case Raise(e) =>
                    case Ok(b) =>
                      var t := TimelineEntry(date, event);
                      assert [t] + (a + b) == [t] + a + b;
                  }
              }
          }
      }
    }
  }

  /** Lines 168-171 on one entry: kept only when it has both `time` and `value`. */
  lemma TimelineOfOne(t: Json)
    requires t.Obj?
    ensures TimelineOf([t]) ==
            Ok(if HasKey(t, "time") && HasKey(t, "value")
               then [TimelineEntry(Lookup(t.fields, "time").value, Lookup(t.fields, "value").value)] else [])
  {
    assert [t][0] == t && [t][1..] == [];
    assert TimelineOf([]) == Ok([]);
    if HasKey(t, "time") && HasKey(t, "value") {
      var e := TimelineEntry(Lookup(t.fields, "time").value, Lookup(t.fields, "value").value);
      assert Index(t, "time") == Ok(e.date) && Index(t, "value") == Ok(e.event);
      assert [e] + [] == [e];
    }
  }

  /** Line 174 on a concatenation of credit lists. */
  lemma {:induction false} CreditsAppend(xs: seq<Json>, ys: seq<Json>)
    ensures CreditsOf(xs + ys) == (var a :- CreditsOf(xs); var b :- CreditsOf(ys); Ok(a + b))
  {
    if xs == [] {
      assert xs + ys == ys;
      if CreditsOf(ys).Ok? {
        assert [] + CreditsOf(ys).value == CreditsOf(ys).value;
      }
    } else {
      var zs := xs + ys;
      assert zs[0] == xs[0] && zs[1..] == xs[1..] + ys;
      CreditsAppend(xs[1..], ys);
      match Get(xs[0], "value", Null) {
        case Raise(e) =>
        case Ok(value) =>
          match CreditsOf(xs[1..]) {
            case Raise(e) =>
            case Ok(a) =>
              match CreditsOf(ys) {
                case Raise(e) =>
                case Ok(b) =>
                  assert [value] + (a + b) == [value] + a + b;
              }
          }
      }
    }
  }

  /** Line 174 on one credit: kept only when its `lang` is `"en"`. */
  lemma CreditsOfOne(c: Json)
    requires c.Obj?
    ensures CreditsOf([c]) ==
            Ok(if Lookup(c.fields, "lang") == Some(Str("en")) then [Lookup(c.fields, "value").GetOr(Null)] else [])
  {
    assert [c][0] == c && [c][1..] == [];
    assert CreditsOf([]) == Ok([]);
    var value := Lookup(c.fields, "value").GetOr(Null);
    assert Get(c, "value", Null) == Ok(value);
    if Lookup(c.fields, "lang") == Some(Str("en")) {
      assert Get(c, "lang", Null) == Ok(Str("en"));
      assert [value] + [] == [value];
    } else if HasKey(c, "lang") {
      assert Get(c, "lang", Null) != Ok(Str("en"));
    } else {
      assert Get(c, "lang", Null) == Ok(Null);
    }
  }

  // ---------------------------------------------------------------------
  // SSVC

  /** The SSVC data of one `adp` container, when scanning it succeeds and finds some. */
  function SsvcFound(adp: Json): Option<Dict> {
    match Get(adp, "metrics", Arr([]))
    case Raise(_) => None
    case Ok(metrics) =>
      match Items(metrics)
      case Raise(_) => None
      case Ok(ms) =>
        match SsvcScan(ms)
        case Raise(_) => None
        case Ok(found) => found
  }

  /** The data of the last container that has SSVC data, else `d`. */
  function LastSsvc(d: Dict, adps: seq<Json>): Dict {
    if adps == [] then d
    else if SsvcFound(adps[|adps| - 1]).Some? then SsvcFound(adps[|adps| - 1]).value
    else LastSsvc(d, adps[..|adps| - 1])
  }

  /** Lines 177-189: every container is scanned and a later container's SSVC
      data replaces an earlier one's, so the record holds the last one's. */
  lemma {:induction false} LastSsvcContainerWins(d: Dict, adps: seq<Json>, out: Dict)
    requires Loop(SsvcStep, d, adps) == Ok(out)
    ensures out == LastSsvc(d, adps)
    decreases |adps|
  {
    if adps != [] {
      var n := |adps| - 1;
      assert adps == adps[..n] + [adps[n]];
      LoopAppend(SsvcStep, d, adps[..n], [adps[n]]);
      var mid := Loop(SsvcStep, d, adps[..n]).value;
      LastSsvcContainerWins(d, adps[..n], mid);
      assert [adps[n]][1..] == [];
    }
  }

  /** Lines 179-189: inside one container, the first SSVC metric gives the
      data, read from its `other.content` (`{}` when absent); later metrics
      are not looked at. */
  lemma {:induction false} FirstSsvcMetricWins(ms: seq<Json>, i: int)
    requires 0 <= i < |ms|
    requires forall j | 0 <= j < i :: IsSsvcMetric(ms[j]) == Ok(false)
    requires IsSsvcMetric(ms[i]) == Ok(true)
    ensures HasKey(ms[i], "other") && Lookup(ms[i].fields, "other").value.Obj?
    ensures SsvcScan(ms) ==
              (var other := Lookup(ms[i].fields, "other").value;
               var data :- SsvcData(Lookup(other.fields, "content").GetOr(EmptyObj));
               Ok(Some(data)))
  {
    if i > 0 {
      assert forall j | 0 <= j < i - 1 :: ms[1..][j] == ms[j + 1];
      FirstSsvcMetricWins(ms[1..], i - 1);
    }
  }

  /** Lines 179-189: a container without an SSVC metric gives no data. */
  lemma {:induction false} NoSsvcMetric(ms: seq<Json>)
    requires forall j | 0 <= j < |ms| :: IsSsvcMetric(ms[j]) == Ok(false)
    ensures SsvcScan(ms) == Ok(None)
  {
    if ms != [] {
      assert forall j | 0 <= j < |ms| - 1 :: ms[1..][j] == ms[j + 1];
      NoSsvcMetric(ms[1..]);
    }
  }

  /** The key/value pairs option `o` merges, in order: a dict's members, or
      the pairs a list of two-item iterables gives. */
  function Bindings(o: Json): seq<(string, Json)> {
    if o.Obj? then o.fields
    else
      match Items(o)
      case Raise(_) => []
      case Ok(elems) =>
        match AppendEach(PairOf, [], elems)
        case Raise(_) => []
        case Ok(pairs) => pairs
  }

  /** A merge that succeeds merges exactly the option's bindings. */
  lemma UpdateFromBindings(d: Dict, o: Json)
    requires UpdateFrom(d, o).Ok?
    ensures UpdateFrom(d, o) == Ok(UpdateWith(d, Bindings(o)))
  {
  }

  /** Line 188 with `opt = [[k, v]]`: a list of pairs adds its pairs. */
  lemma PairListOption(d: Dict, k: string, v: Json)
    ensures UpdateFrom(d, Arr([Arr([Str(k), v])])) == Ok(UpdateWith(d, [(k, v)]))
    ensures Lookup(UpdateFrom(d, Arr([Arr([Str(k), v])])).value, k) == Some(v)
  {
    assert PairOf(Arr([Str(k), v])) == Ok((k, v));
    assert [Arr([Str(k), v])][1..] == [] && [] + [(k, v)] == [(k, v)];
    assert AppendEach(PairOf, [(k, v)], []) == Ok([(k, v)]);
    assert AppendEach(PairOf, [], [Arr([Str(k), v])]) == Ok([(k, v)]);
    UpdateWithLookup(d, [(k, v)], k);
  }

  /** Line 188 with `opt = ["ab"]`: a two-character string is the pair of
      its characters. */
  lemma TwoCharacterOption(d: Dict, a: char, b: char)
    ensures UpdateFrom(d, Arr([Str([a, b])])) == Ok(UpdateWith(d, [([a], Str([b]))]))
  {
    assert [a, b][1..] == [b] && [b][1..] == [];
    assert Chars([a, b]) == [Str([a]), Str([b])];
    assert PairOf(Str([a, b])) == Ok(([a], Str([b])));
    assert [Str([a, b])][1..] == [] && [] + [([a], Str([b]))] == [([a], Str([b]))];
    assert AppendEach(PairOf, [([a], Str([b]))], []) == Ok([([a], Str([b]))]);
    assert AppendEach(PairOf, [], [Str([a, b])]) == Ok([([a], Str([b]))]);
  }

  /** Line 188 with a non-empty string option: its characters are not
      pairs, so the update raises. */
  lemma StringOptionRaises(d: Dict, s: string)
    requires s != ""
    ensures UpdateFrom(d, Str(s)) == Raise(ValueError)
  {
    assert Items(Str(s)) == Ok(Chars(s));
    assert Chars(s)[0] == Str([s[0]]);
    assert PairOf(Chars(s)[0]) == Raise(ValueError);
  }

  /** The value an SSVC key ends with after the options are merged: the last
      option binding it, else the base value. */
  function LastOption(base: Dict, opts: seq<Json>, k: string): Option<Json> {
    if opts == [] then Lookup(base, k)
    else
      var o := opts[|opts| - 1];
      if Lookup(Bindings(o), k).Some? then Lookup(Bindings(o), k)
      else LastOption(base, opts[..|opts| - 1], k)
  }

  /** Lines 187-188: a later option overrides an earlier one and the
      `role`/`version`/`exploitStatus` base values. */
  lemma {:induction false} LaterOptionWins(base: Dict, opts: seq<Json>, d: Dict, k: string)
    requires Loop(UpdateFrom, base, opts) == Ok(d)
    ensures Lookup(d, k) == LastOption(base, opts, k)
    decreases |opts|
  {
    if opts != [] {
      var n := |opts| - 1;
      assert opts == opts[..n] + [opts[n]];
      LoopAppend(UpdateFrom, base, opts[..n], [opts[n]]);
      var mid := Loop(UpdateFrom, base, opts[..n]).value;
      LaterOptionWins(base, opts[..n], mid, k);
      assert [opts[n]][1..] == [];
      UpdateFromBindings(mid, opts[n]);
      UpdateWithLookup(mid, Bindings(opts[n]), k);
    }
  }

  // ---------------------------------------------------------------------
  // The whole record

  /** Lines 88-90: a record is a tombstone exactly when its upper-cased state
      is `REJECTED`, whatever the rest of the document holds. */
  lemma TombstoneExactlyWhenRejected(doc: Json, ext: Externals)
    ensures Extract(doc, ext).Tombstone? <==> HeaderOf(doc).Ok? && HeaderOf(doc).value.state == "REJECTED"
    ensures Extract(doc, ext).Tombstone? ==> Extract(doc, ext) == Tombstone("REJECTED", HeaderOf(doc).value.cveId)
    ensures Extract(doc, ext).Parsed? ==> Extract(doc, ext).rec.state != "REJECTED"
  {
    if HeaderOf(doc).Ok? && HeaderOf(doc).value.state != "REJECTED" {
      var h := HeaderOf(doc).value;
      match TryParse(doc, ext)
      case Raise(_) =>
      case Ok(outcome) =>
        var a := AnalysisOf(h.cna, ext).value;
        var x := ExtrasOf(h).value;
        AssembleFields(doc, h, ext, a, x, Assemble(doc, h, ext, a, x).value);
    }
  }

  /** The fields of an assembled record that come from its inputs. */
  lemma AssembleFields(doc: Json, h: Header, ext: Externals, a: Analysis, x: Extras, r: Record)
    requires Assemble(doc, h, ext, a, x) == Ok(r)
    ensures r.id == h.cveId && r.state == h.state && r.fulltext == doc
    ensures r.text == a.text && r.vector == ext.encode(a.text) && r.packageVector == PackageVector(a.names, ext)
    ensures r.metadata.affectedPackages == a.rows && r.metadata.fixVersion == FixVersion(a.rows)
    ensures r.metadata.cwe == a.cwes && r.metadata.references == x.references && r.metadata.ssvc == x.ssvc
    ensures r.metadata.cvssScore == Lookup(a.cvss.fields, "baseScore").GetOr(Null)
    ensures r.metadata.cvssVector == Lookup(a.cvss.fields, "vectorString").GetOr(Null)
    ensures r.metadata.severity == Lookup(a.cvss.fields, "baseSeverity").GetOr(Null)
  {
  }

  /** A parsed record comes from a header that is not rejected and from
      successful analysis and extras. */
  lemma ParsedParts(doc: Json, ext: Externals)
    requires Extract(doc, ext).Parsed?
    ensures HeaderOf(doc).Ok? && HeaderOf(doc).value.state != "REJECTED"
    ensures AnalysisOf(HeaderOf(doc).value.cna, ext).Ok? && ExtrasOf(HeaderOf(doc).value).Ok?
    ensures Assemble(doc, HeaderOf(doc).value, ext, AnalysisOf(HeaderOf(doc).value.cna, ext).value,
                     ExtrasOf(HeaderOf(doc).value).value) == Ok(Extract(doc, ext).rec)
  {
  }

  /** The pieces of the analysis. */
  lemma AnalysisParts(cna: Json, ext: Externals, a: Analysis)
    requires AnalysisOf(cna, ext) == Ok(a)
    ensures DescriptionOf(cna, ext).Ok? && CvssFrom(cna) == Ok(a.cvss) && AffectedFrom(cna).Ok?
    ensures var st := AffectedFrom(cna).value;
            a.rows == st.rows && a.names == st.names && a.text == DescriptionOf(cna, ext).value + Concat(st.lines)
  {
  }

  /** Lines 195-219: a parsed record carries the document's id, its
      upper-cased state and the document itself; its rows, fix version and
      package vector are those of the affected loop, and its text is the
      description followed by one line per component. */
  lemma ParsedRecordPieces(doc: Json, ext: Externals)
    requires Extract(doc, ext).Parsed?
    ensures HeaderOf(doc).Ok? && HeaderOf(doc).value.state != "REJECTED"
    ensures DescriptionOf(HeaderOf(doc).value.cna, ext).Ok? && AffectedFrom(HeaderOf(doc).value.cna).Ok?
    ensures var h := HeaderOf(doc).value;
            var r := Extract(doc, ext).rec;
            var st := AffectedFrom(h.cna).value;
            r.id == h.cveId && r.state == h.state && r.fulltext == doc &&
            r.metadata.affectedPackages == st.rows &&
            r.metadata.fixVersion == FixVersion(st.rows) &&
            r.text == DescriptionOf(h.cna, ext).value + Concat(st.lines) &&
            r.vector == ext.encode(r.text) &&
            r.packageVector == PackageVector(st.names, ext)
  {
    ParsedParts(doc, ext);
    var h := HeaderOf(doc).value;
    var a := AnalysisOf(h.cna, ext).value;
    AnalysisParts(h.cna, ext, a);
    AssembleFields(doc, h, ext, a, ExtrasOf(h).value, Extract(doc, ext).rec);
  }

  /** Lines 118-156: when the affected loop raises, the whole parse gives `{}`. */
  lemma AffectedFailureFailsParse(doc: Json, ext: Externals)
    requires HeaderOf(doc).Ok? && HeaderOf(doc).value.state != "REJECTED"
    requires AffectedFrom(HeaderOf(doc).value.cna).Raise?
    ensures Extract(doc, ext) == Failed
  {
    var h := HeaderOf(doc).value;
    AnalysisFailsWithAffected(h.cna, ext);
    assert TryParse(doc, ext).Raise?;
  }

  lemma AnalysisFailsWithAffected(cna: Json, ext: Externals)
    requires AffectedFrom(cna).Raise?
    ensures AnalysisOf(cna, ext).Raise?
  {
  }

  /** Lines 100-105 and 206-208: with no `cvssV3_1` metric, the score, vector
      and severity of a parsed record are all `None`. */
  lemma NoCvssMeansNoScore(doc: Json, ext: Externals, ms: seq<Json>)
    requires HeaderOf(doc).Ok? && Get(HeaderOf(doc).value.cna, "metrics", Arr([])) == Ok(Arr(ms))
    requires forall i | 0 <= i < |ms| :: ms[i].Obj? && !HasKey(ms[i], "cvssV3_1")
    requires Extract(doc, ext).Parsed?
    ensures Extract(doc, ext).rec.metadata.cvssScore == Null
    ensures Extract(doc, ext).rec.metadata.cvssVector == Null
    ensures Extract(doc, ext).rec.metadata.severity == Null
  {
    NoCvssMetric(ms);
    ParsedParts(doc, ext);
    var h := HeaderOf(doc).value;
    var a := AnalysisOf(h.cna, ext).value;
    AnalysisParts(h.cna, ext, a);
    assert a.cvss == EmptyObj;
    AssembleFields(doc, h, ext, a, ExtrasOf(h).value, Extract(doc, ext).rec);
  }

  lemma {:induction false} NoCvssMetric(ms: seq<Json>)
    requires forall i | 0 <= i < |ms| :: ms[i].Obj? && !HasKey(ms[i], "cvssV3_1")
    ensures FirstCvss(ms) == Ok(EmptyObj)
  {
    if ms != [] {
      assert forall i | 0 <= i < |ms| - 1 :: ms[1..][i] == ms[i + 1];
      NoCvssMetric(ms[1..]);
    }
  }

  /** Lines 102-105: the first metric holding `cvssV3_1` gives the CVSS data;
      later ones are not looked at. */
  lemma {:induction false} FirstCvssMetricWins(ms: seq<Json>, i: int)
    requires 0 <= i < |ms|
    requires forall j | 0 <= j < i :: ms[j].Obj? && !HasKey(ms[j], "cvssV3_1")
    requires HasKey(ms[i], "cvssV3_1")
    ensures FirstCvss(ms) == Ok(Lookup(ms[i].fields, "cvssV3_1").value)
  {
    if i > 0 {
      assert forall j | 0 <= j < i - 1 :: ms[1..][j] == ms[j + 1];
      FirstCvssMetricWins(ms[1..], i - 1);
    }
  }

  // ---------------------------------------------------------------------
  // English description and CWE list

  /** An entry whose `lang` key is `"en"`; an entry without the key reads as
      `None` and is not English. */
  predicate English(d: Json) {
    d.Obj? && Lookup(d.fields, "lang") == Some(Str("en"))
  }

  /** Lines 93-96: with no English entry the description is `""`. */
  lemma {:induction false} NoEnglishDescription(ds: seq<Json>)
    requires forall i | 0 <= i < |ds| :: ds[i].Obj? && !English(ds[i])
    ensures FirstEnglishValue(ds) == Ok(Str(""))
  {
    if ds != [] {
      assert forall i | 0 <= i < |ds| - 1 :: ds[1..][i] == ds[i + 1];
      NoEnglishDescription(ds[1..]);
    }
  }

  /** Lines 93-96: the first English entry gives the description's `value`
      (`None` when it has none); later entries are not looked at. */
  lemma {:induction false} FirstEnglishDescriptionWins(ds: seq<Json>, i: int)
    requires 0 <= i < |ds|
    requires forall j | 0 <= j < i :: ds[j].Obj? && !English(ds[j])
    requires English(ds[i])
    ensures FirstEnglishValue(ds) == Ok(Lookup(ds[i].fields, "value").GetOr(Null))
  {
    if i > 0 {
      assert forall j | 0 <= j < i - 1 :: ds[1..][j] == ds[j + 1];
      FirstEnglishDescriptionWins(ds[1..], i - 1);
    }
  }

  /** Lines 93-96: an entry that is not a dict, met before any English one,
      makes `.get` raise. */
  lemma {:induction false} NonDictBeforeEnglishRaises(ds: seq<Json>, i: int)
    requires 0 <= i < |ds|
    requires forall j | 0 <= j < i :: ds[j].Obj? && !English(ds[j])
    requires !ds[i].Obj?
    ensures FirstEnglishValue(ds) == Raise(AttributeError)
  {
    if i > 0 {
      assert forall j | 0 <= j < i - 1 :: ds[1..][j] == ds[j + 1];
      NonDictBeforeEnglishRaises(ds[1..], i - 1);
    }
  }

  /** The CWE an English entry contributes: its `cweId` and `description`,
      `None` where a key is missing. */
  function CweOf(d: Json): Cwe
    requires d.Obj?
  {
    Cwe(Lookup(d.fields, "cweId").GetOr(Null), Lookup(d.fields, "description").GetOr(Null))
  }

  /** The CWEs of the English entries of `ds`, in order. */
  function EnglishCwes(ds: seq<Json>): seq<Cwe> {
    if ds == [] then []
    else (if English(ds[0]) then [CweOf(ds[0])] else []) + EnglishCwes(ds[1..])
  }

  lemma {:induction false} EnglishCwesAppend(xs: seq<Json>, ys: seq<Json>)
    ensures EnglishCwes(xs + ys) == EnglishCwes(xs) + EnglishCwes(ys)
  {
    if xs == [] {
      assert xs + ys == ys;
    } else {
      assert (xs + ys)[0] == xs[0] && (xs + ys)[1..] == xs[1..] + ys;
      EnglishCwesAppend(xs[1..], ys);
      var head := if English(xs[0]) then [CweOf(xs[0])] else [];
      assert EnglishCwes(xs + ys) == head + (EnglishCwes(xs[1..]) + EnglishCwes(ys));
    }
  }

  /** Lines 111-115, one entry: a dict adds its CWE exactly when it is
      English; anything else makes `.get` raise. */
  lemma CweStepOfOne(cwes: seq<Cwe>, d: Json)
    ensures CweStep(cwes, d).Ok? <==> d.Obj?
    ensures d.Obj? ==> CweStep(cwes, d) == Ok(cwes + EnglishCwes([d]))
  {
    if d.Obj? {
      assert [d][1..] == [] && EnglishCwes([]) == [];
      assert EnglishCwes([d]) == (if English(d) then [CweOf(d)] else []) + [];
      if English(d) {
        assert CweStep(cwes, d) == Ok(cwes + [CweOf(d)]);
        assert [CweOf(d)] + [] == [CweOf(d)];
      } else {
        assert cwes + [] == cwes;
      }
    }
  }

  /** Lines 110-115: the inner loop succeeds exactly when every entry is a
      dict, and then appends the CWEs of the English entries in order. */
  lemma {:induction false} CweLoop(acc: seq<Cwe>, ds: seq<Json>)
    ensures Loop(CweStep, acc, ds).Ok? <==> forall i | 0 <= i < |ds| :: ds[i].Obj?
    ensures Loop(CweStep, acc, ds).Ok? ==> Loop(CweStep, acc, ds).value == acc + EnglishCwes(ds)
    decreases |ds|
  {
    if ds != [] {
      assert forall i | 0 <= i < |ds| - 1 :: ds[1..][i] == ds[i + 1];
      CweStepOfOne(acc, ds[0]);
      if ds[0].Obj? {
        var next := CweStep(acc, ds[0]).value;
        CweLoop(next, ds[1..]);
        assert [ds[0]] + ds[1..] == ds;
        EnglishCwesAppend([ds[0]], ds[1..]);
      }
    }
  }

  /** The description entries line 110 iterates for problem type `pt`. */
  function EntriesOf(pt: Json): Result<seq<Json>> {
    if pt.Obj? then Items(Lookup(pt.fields, "descriptions").GetOr(Arr([])))
    else Raise(AttributeError)
  }

  /** A problem type lines 110-115 get through: a dict whose descriptions
      are iterable and hold only dicts. */
  predicate ProblemTypeOk(pt: Json) {
    EntriesOf(pt).Ok? && forall i | 0 <= i < |EntriesOf(pt).value| :: EntriesOf(pt).value[i].Obj?
  }

  /** The CWEs of the English descriptions of every problem type, in
      problem-type order. */
  function ProblemTypeCwes(pts: seq<Json>): seq<Cwe> {
    if pts == [] then []
    else
      var ds := if EntriesOf(pts[0]).Ok? then EntriesOf(pts[0]).value else [];
      EnglishCwes(ds) + ProblemTypeCwes(pts[1..])
  }

  lemma {:induction false} ProblemTypeCwesAppend(xs: seq<Json>, ys: seq<Json>)
    ensures ProblemTypeCwes(xs + ys) == ProblemTypeCwes(xs) + ProblemTypeCwes(ys)
  {
    if xs == [] {
      assert xs + ys == ys;
    } else {
      assert (xs + ys)[0] == xs[0] && (xs + ys)[1..] == xs[1..] + ys;
      ProblemTypeCwesAppend(xs[1..], ys);
      var head := EnglishCwes(if EntriesOf(xs[0]).Ok? then EntriesOf(xs[0]).value else []);
      assert ProblemTypeCwes(xs + ys) == head + (ProblemTypeCwes(xs[1..]) + ProblemTypeCwes(ys));
    }
  }

  /** Lines 110-115, one problem type. */
  lemma ProblemTypeStepOfOne(cwes: seq<Cwe>, pt: Json)
    ensures ProblemTypeStep(cwes, pt).Ok? <==> ProblemTypeOk(pt)
    ensures ProblemTypeOk(pt) ==> ProblemTypeStep(cwes, pt) == Ok(cwes + EnglishCwes(EntriesOf(pt).value))
  {
    if EntriesOf(pt).Ok? {
      CweLoop(cwes, EntriesOf(pt).value);
    }
  }

  /** Lines 109-115: the outer loop succeeds exactly when every problem type
      gets through, and then appends their English CWEs in order. */
  lemma {:induction false} ProblemTypeLoop(acc: seq<Cwe>, pts: seq<Json>)
    ensures Loop(ProblemTypeStep, acc, pts).Ok? <==> forall i | 0 <= i < |pts| :: ProblemTypeOk(pts[i])
    ensures Loop(ProblemTypeStep, acc, pts).Ok? ==>
              Loop(ProblemTypeStep, acc, pts).value == acc + ProblemTypeCwes(pts)
    decreases |pts|
  {
    if pts != [] {
      assert forall i | 0 <= i < |pts| - 1 :: pts[1..][i] == pts[i + 1];
      ProblemTypeStepOfOne(acc, pts[0]);
      if ProblemTypeOk(pts[0]) {
        var next := ProblemTypeStep(acc, pts[0]).value;
        ProblemTypeLoop(next, pts[1..]);
      }
    }
  }

  /** Lines 108-115: the `cwes` list is exactly the `cweId` and `description`
      of every English description, problem type by problem type. */
  lemma CwesFromEnglish(cna: Json, pts: seq<Json>)
    requires cna.Obj? && Items(Lookup(cna.fields, "problemTypes").GetOr(Arr([]))) == Ok(pts)
    ensures CwesFrom(cna).Ok? <==> forall i | 0 <= i < |pts| :: ProblemTypeOk(pts[i])
    ensures CwesFrom(cna).Ok? ==> CwesFrom(cna).value == ProblemTypeCwes(pts)
  {
    ProblemTypeLoop([], pts);
  }
}
