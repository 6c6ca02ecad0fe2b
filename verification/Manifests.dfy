/** Snapshot manifests: validation, the canonical encoding and the identities derived from it. */
module Manifests {
  import opened Order
  import opened Namespaces
  import opened Options
  import opened Texts

  const SCHEMA := "aha-snapshot-manifest/v3"
  const SCHEMA_V2 := "aha-snapshot-manifest/v2"
  const MAX_SNAPSHOT_FILES := 200000
  const BASELINE := ["closed-copy-state-v1", "closed-policy-v1", "full-manifest-v2"]

  datatype Capabilities = Capabilities(threads: bool, subagents: bool, images: bool, toolCalls: bool,
                                       stableEntryIds: bool, linkSubagents: bool)
  datatype Adapter = Adapter(name: string, version: string, capabilities: Capabilities)
  datatype Policy = Policy(pathMode: string, includeSubagents: bool, includeImages: bool,
                           indexToolOutput: bool, redaction: string)
  datatype Origin = Origin(hostOs: string, hostnameHash: string, userHash: string)
  datatype File = File(source: string, kind: string, path: string, rawPath: string, sha: string, bytes: int,
                       sessionId: string, cwd: string, startedAt: string, entries: int, copyState: string,
                       isSubagent: bool, parentHint: string)
  datatype Snapshot = Snapshot(schema: string, required: seq<string>, optional: seq<string>,
                               machineId: string, machineLabel: string, capturedAt: string, createdBy: string,
                               origin: Origin, policy: Policy, adapters: seq<Adapter>, files: seq<File>)

  /** The contents some files have, and those a manifest lists. */
  function Shas(files: seq<File>): set<string> { set f | f in files :: f.sha }

  function Blobs(m: Snapshot): set<string> { Shas(m.files) }

  predicate ByPath(a: File, b: File) { Less(a.path, b.path) }

  lemma ByPathIsStrict()
    ensures StrictOrder(ByPath)
  {
    LessIsStrict();
    forall a: File, b: File, c: File | ByPath(a, b) && ByPath(b, c) ensures ByPath(a, c) {
      LessTransitive(a.path, b.path, c.path);
    }
    forall a: File ensures !ByPath(a, a) { LessIrreflexive(a.path); }
    forall a: File, b: File, c: File | ByPath(a, c) ensures ByPath(a, b) || ByPath(b, c) {
      assert Less(a.path, b.path) || Less(b.path, c.path);
    }
  }

  // ---- validity ----------------------------------------------------------

  predicate Hex64(s: string) {
    |s| == 64 && forall c :: c in s ==> '0' <= c <= '9' || 'a' <= c <= 'f'
  }

  predicate HasPrefix(s: string, prefix: string) { prefix <= s }

  /** No empty segment: no separator at either end, and never two in a row. */
  predicate SegmentsFilled(path: string) {
    && |path| > 0 && path[0] != '/' && path[|path| - 1] != '/'
    && forall i :: 0 < i < |path| && path[i] == '/' ==> path[i - 1] != '/'
  }

  /** No segment is "." or "..": a dot that opens a segment is followed by something else within it. */
  predicate NoDotSegment(path: string) {
    forall i :: 0 <= i < |path| && DotOpens(path, i) ==> NameGoesOn(path, i)
  }

  predicate DotOpens(path: string, i: nat)
    requires i < |path|
  {
    path[i] == '.' && (i == 0 || path[i - 1] == '/')
  }

  predicate NameGoesOn(path: string, i: nat) {
    && i + 1 < |path| && path[i + 1] != '/'
    && (path[i + 1] == '.' ==> i + 2 < |path| && path[i + 2] != '/')
  }

  /** A clean relative path with no dot segment, outside the names a bundle reserves. */
  predicate SafePath(path: string) {
    && SegmentsFilled(path) && NoDotSegment(path)
    && '\\' !in path
    && path != "manifest.json"
    && !HasPrefix(path, "checksums/")
  }

  /** Segment by segment: none is empty, "." or "..". */
  lemma {:induction false} SegmentsMean(path: string)
    ensures SegmentsFilled(path) && NoDotSegment(path) <==> forall s :: s in Split(path, '/') ==> s !in ["", ".", ".."]
    decreases |path|
  {
    hide Split;
    var start := LastPart(path, '/');
    var last := path[start..];
    if start == 0 {
      LoneSegment(path);
      assert path[start..] == path;
      assert path in Split(path, '/') && forall s :: s in Split(path, '/') ==> s == path;
    } else {
      var front := path[..start - 1];
      SegmentsMean(front);
      MoreSegments(path, start);
      assert forall s :: s in Split(path, '/') <==> s in Split(front, '/') || s == last;
    }
  }

  lemma LoneSegment(s: string)
    requires '/' !in s
    ensures SegmentsFilled(s) && NoDotSegment(s) <==> s !in ["", ".", ".."]
  {
    assert forall i :: 0 <= i < |s| ==> s[i] in s;
    assert s in ["", ".", ".."] <==> s == "" || s == "." || s == "..";
    assert s == "." <==> |s| == 1 && s[0] == '.';
    assert s == ".." <==> |s| == 2 && s[0] == '.' && s[1] == '.';
    assert forall i :: 0 < i < |s| ==> !DotOpens(s, i);
    if |s| > 0 { assert NoDotSegment(s) <==> (DotOpens(s, 0) ==> NameGoesOn(s, 0)); }
  }

  lemma MoreSegments(path: string, start: nat)
    requires 0 < start <= |path| && path[start - 1] == '/' && '/' !in path[start..]
    ensures var front, last := path[..start - 1], path[start..];
            SegmentsFilled(path) && NoDotSegment(path)
            <==> SegmentsFilled(front) && NoDotSegment(front) && last !in ["", ".", ".."]
  {
    var front, last := path[..start - 1], path[start..];
    LoneSegment(last);
    FilledBefore(path, start);
    DotsBefore(path, start);
  }

  lemma FilledBefore(path: string, start: nat)
    requires 0 < start <= |path| && path[start - 1] == '/' && '/' !in path[start..]
    ensures SegmentsFilled(path) <==> SegmentsFilled(path[..start - 1]) && SegmentsFilled(path[start..])
  {
    var front, last := path[..start - 1], path[start..];
    assert forall i :: start <= i < |path| ==> path[i] == last[i - start] && path[i] in last;
  }

  lemma DotsBefore(path: string, start: nat)
    requires 0 < start <= |path| && path[start - 1] == '/' && '/' !in path[start..]
    ensures NoDotSegment(path) <==> NoDotSegment(path[..start - 1]) && NoDotSegment(path[start..])
  {
    var front, last := path[..start - 1], path[start..];
    forall i | 0 <= i < |last| ensures DotOpens(last, i) == DotOpens(path, start + i) {
      if i > 0 { assert last[i - 1] == path[start + i - 1]; }
    }
    forall i | 0 <= i < |last| ensures NameGoesOn(last, i) == NameGoesOn(path, start + i) {
      if i + 1 < |last| { assert last[i + 1] == path[start + i + 1]; }
      if i + 2 < |last| { assert last[i + 2] == path[start + i + 2]; }
    }
    assert !DotOpens(path, start - 1);
    assert forall i :: 0 <= i < |front| ==> DotOpens(front, i) == DotOpens(path, i);
    assert forall i :: 0 <= i < |front| ==> NameGoesOn(front, i) == NameGoesOn(path, i);
    assert forall i :: start <= i < |path| ==> DotOpens(path, i) == DotOpens(last, i - start);
    assert forall i :: 0 <= i < |front| ==> front[i] == path[i];
  }

  /** What a bundle path may be. */
  lemma SafePathMeans(path: string)
    ensures SafePath(path) <==>
            && (forall s :: s in Split(path, '/') ==> s !in ["", ".", ".."]) && (forall c :: c in path ==> c != '\\')
            && path != "manifest.json" && !(|path| >= 10 && path[..10] == "checksums/")
  {
    hide SegmentsFilled, NoDotSegment, Split;
    SegmentsMean(path);
  }

  /** Not blank, and trimming leaves it alone. */
  predicate FeatureName(f: string) { |f| > 0 && !IsSpace(f[0]) && !IsSpace(f[|f| - 1]) }

  ghost predicate Distinct<T>(s: seq<T>) {
    forall i, j :: 0 <= i < j < |s| ==> s[i] != s[j]
  }

  ghost predicate FeaturesValid(required: seq<string>, optional: seq<string>, baseline: seq<string>,
                                wellNamed: string -> bool)
  {
    && Elements(required) == Elements(baseline)
    && Distinct(required + optional)
    && (forall f :: f in optional ==> wellNamed(f))
  }

  predicate AdapterNamed(a: Adapter) { !Blank(a.name) && !Blank(a.version) }

  ghost predicate AdaptersValid(adapters: seq<Adapter>, named: Adapter -> bool) {
    && (forall a :: a in adapters ==> named(a))
    && (forall i, j :: 0 <= i < j < |adapters| ==> adapters[i].name != adapters[j].name)
  }

  predicate FileValid(f: File, declared: set<string>) {
    && SafePath(f.path)
    && !Blank(f.source)
    && f.source in declared
    && (f.kind == "session" || f.kind == "artifact")
    && HasPrefix(f.path, "sources/" + f.source + (if f.kind == "session" then "/sessions/" else "/artifacts/"))
    && Hex64(f.sha)
    && f.bytes >= 0
    && (f.copyState == "stable" || f.copyState == "unstable")
  }

  function Names(adapters: seq<Adapter>): set<string> { set a | a in adapters :: a.name }

  predicate HeaderValid(m: Snapshot) {
    && !Blank(m.machineId)
    && !Blank(m.capturedAt)
    && m.policy.pathMode == "raw"
    && (m.policy.redaction == "none-v1" || m.policy.redaction == "v1")
    && |m.files| <= MAX_SNAPSHOT_FILES
  }

  ghost predicate SchemaValid(m: Snapshot) {
    || (m.schema == SCHEMA && FeaturesValid(m.required, m.optional, BASELINE, FeatureName))
    || (m.schema == SCHEMA_V2 && m.required == [] && m.optional == [])
  }

  function Declared(names: set<string>): File -> bool { f => FileValid(f, names) }

  ghost predicate FilesValid(files: seq<File>, fileOk: File -> bool) {
    && (forall i :: 0 <= i < |files| ==> fileOk(files[i]))
    && (forall i :: 0 < i < |files| ==> Less(files[i - 1].path, files[i].path))
  }

  /** What validateSnapshotManifest accepts, of a manifest whose lists are already sorted. */
  ghost predicate ValidSorted(m: Snapshot) {
    && SchemaValid(m)
    && HeaderValid(m)
    && AdaptersValid(m.adapters, AdapterNamed)
    && FilesValid(m.files, Declared(Names(m.adapters)))
  }

  function Canonical(m: Snapshot): Snapshot {
    m.(files := SortBy(m.files, ByPath), required := SortBy(m.required, Less), optional := SortBy(m.optional, Less))
  }

  ghost predicate Valid(m: Snapshot) { ValidSorted(Canonical(m)) }

  /** A file entry: a path of its source and kind, a content hash in lower-case hex, and the rest of its fields. */
  lemma FileMeans(f: File, declared: set<string>)
    ensures FileValid(f, declared) <==>
            && SafePath(f.path) && !Blank(f.source) && f.source in declared && f.bytes >= 0
            && f.copyState in ["stable", "unstable"] && f.kind in ["session", "artifact"]
            && (f.kind == "session" ==> "sources/" + f.source + "/sessions/" <= f.path)
            && (f.kind == "artifact" ==> "sources/" + f.source + "/artifacts/" <= f.path)
            && |f.sha| == 64 && forall k :: 0 <= k < 64 ==> f.sha[k] in "0123456789abcdef"
  {
    HexMeans(f.sha);
    hide SafePath, Blank, Hex64;
  }

  lemma HexMeans(s: string)
    ensures Hex64(s) <==> |s| == 64 && forall k :: 0 <= k < 64 ==> s[k] in "0123456789abcdef"
  {
    forall c ensures c in "0123456789abcdef" <==> '0' <= c <= '9' || 'a' <= c <= 'f' { HexDigit(c); }
    assert forall k :: 0 <= k < |s| ==> s[k] in s;
    hide *;
  }

  lemma HexDigit(c: char)
    ensures c in "0123456789abcdef" <==> '0' <= c <= '9' || 'a' <= c <= 'f'
  {
    var digits := "0123456789abcdef";
    if '0' <= c <= '9' { assert digits[c as int - '0' as int] == c; }
    if 'a' <= c <= 'f' { assert digits[c as int - 'a' as int + 10] == c; }
  }

  /** Both schemas, the fixed features of the newer, and what they share. */
  lemma ManifestMeans(m: Snapshot)
    ensures ValidSorted(m) <==>
            && (m.schema == "aha-snapshot-manifest/v3" || m.schema == "aha-snapshot-manifest/v2")
            && (m.schema == "aha-snapshot-manifest/v2" ==> m.required == [] && m.optional == [])
            && (m.schema == "aha-snapshot-manifest/v3" ==>
                  && Distinct(m.required + m.optional)
                  && (forall f :: f in m.required <==>
                        f in ["closed-copy-state-v1", "closed-policy-v1", "full-manifest-v2"])
                  && forall f :: f in m.optional ==> |f| > 0 && !IsSpace(f[0]) && !IsSpace(f[|f| - 1]))
            && !Blank(m.machineId) && !Blank(m.capturedAt) && m.policy.pathMode == "raw"
            && m.policy.redaction in ["none-v1", "v1"] && |m.files| <= 200_000
            && (forall a :: a in m.adapters ==> !Blank(a.name) && !Blank(a.version))
            && (forall i, j :: 0 <= i < j < |m.adapters| ==> m.adapters[i].name != m.adapters[j].name)
            && (forall i :: 0 <= i < |m.files| ==> FileValid(m.files[i], Names(m.adapters)))
            && (forall i :: 0 < i < |m.files| ==> Less(m.files[i - 1].path, m.files[i].path))
  {
    hide FileValid, Distinct, Blank;
    SameElements(m.required, BASELINE);
  }

  lemma SameElements<T(!new)>(a: seq<T>, b: seq<T>)
    ensures Elements(a) == Elements(b) <==> forall x :: x in a <==> x in b
  {
    if Elements(a) == Elements(b) {
      forall x ensures x in a <==> x in b { assert x in a <==> x in Elements(a); }
    }
  }

  lemma NamesMean(adapters: seq<Adapter>, name: string)
    ensures name in Names(adapters) <==> exists k :: 0 <= k < |adapters| && adapters[k].name == name
  {
  }

  /** Validation as it runs: early exits, a map of declared adapters, one look back along the files. */
  method ValidateSnapshot(m: Snapshot) returns (ok: bool)
    ensures ok <==> ValidSorted(m)
  {
    if m.schema == SCHEMA {
      var featuresOk := ValidateFeatures(m.required, m.optional, BASELINE, FeatureName);
      if !featuresOk { return false; }
    } else if m.schema == SCHEMA_V2 {
      if |m.required| != 0 || |m.optional| != 0 { return false; }
    } else {
      return false;
    }
    if !HeaderValid(m) { return false; }
    var adaptersOk, declared := ValidateAdapters(m.adapters, AdapterNamed);
    if !adaptersOk { return false; }
    ok := ValidateFiles(m.files, Declared(declared));
  }

  method ValidateFiles(files: seq<File>, fileOk: File -> bool) returns (ok: bool)
    ensures ok <==> FilesValid(files, fileOk)
  {
    var prev := "";
    for i := 0 to |files|
      invariant forall k :: 0 <= k < i ==> fileOk(files[k])
      invariant forall k :: 0 < k < i ==> Less(files[k - 1].path, files[k].path)
      invariant i > 0 ==> prev == files[i - 1].path
    {
      var f := files[i];
      if i > 0 && !Less(prev, f.path) { return false; }
      if !fileOk(f) { return false; }
      prev := f.path;
    }
    ok := true;
  }

  method ValidateAdapters(adapters: seq<Adapter>, named: Adapter -> bool) returns (ok: bool, declared: set<string>)
    ensures ok <==> AdaptersValid(adapters, named)
    ensures ok ==> declared == Names(adapters)
  {
    declared := {};
    for i := 0 to |adapters|
      invariant declared == set k | 0 <= k < i :: adapters[k].name
      invariant forall k :: 0 <= k < i ==> named(adapters[k])
      invariant forall j, k :: 0 <= j < k < i ==> adapters[j].name != adapters[k].name
    {
      var a := adapters[i];
      assert a in adapters;
      if !named(a) { return false, declared; }
      if a.name in declared { return false, declared; }
      declared := declared + {a.name};
    }
    ok := true;
  }

  method ValidateFeatures(required: seq<string>, optional: seq<string>, baseline: seq<string>,
                          wellNamed: string -> bool)
    returns (ok: bool)
    ensures ok <==> FeaturesValid(required, optional, baseline, wellNamed)
  {
    hide Distinct;
    DistinctPrefix(required, optional);
    var seen;
    ok, seen := RequiredFeatures(required, baseline);
    if !ok { return; }
    for b := 0 to |baseline|
      invariant forall k :: 0 <= k < b ==> baseline[k] in seen
    {
      assert baseline[b] in Elements(baseline);
      if baseline[b] !in seen { return false; }
    }
    assert seen == Elements(baseline);
    ok := OptionalFeatures(required, optional, seen, wellNamed);
  }

  /** No required feature twice, and each known. */
  method RequiredFeatures(required: seq<string>, baseline: seq<string>) returns (ok: bool, seen: set<string>)
    ensures ok <==> Distinct(required) && Elements(required) <= Elements(baseline)
    ensures ok ==> seen == Elements(required)
  {
    hide Distinct;
    seen := {};
    NothingDistinct(required);
    for i := 0 to |required|
      invariant seen == Elements(required[..i]) <= Elements(baseline)
      invariant Distinct(required[..i])
    {
      assert required[i] in Elements(required);
      Grow(required, i);
      if required[i] in seen {
        Repeats(required, i);
        return false, seen;
      }
      if required[i] !in baseline { return false, seen; }
      seen := seen + {required[i]};
    }
    assert required[..|required|] == required;
    ok := true;
  }

  /** No optional feature twice, none required too, each well named. */
  method OptionalFeatures(required: seq<string>, optional: seq<string>, start: set<string>, wellNamed: string -> bool)
    returns (ok: bool)
    requires start == Elements(required) && Distinct(required)
    ensures ok <==> Distinct(required + optional) && forall f :: f in optional ==> wellNamed(f)
  {
    hide Distinct;
    var seen := start;
    ghost var all := required + optional;
    assert all[..|required|] == required;
    for i := 0 to |optional|
      invariant forall f :: f in optional[..i] ==> wellNamed(f)
      invariant seen == Elements(all[..|required| + i])
      invariant Distinct(all[..|required| + i])
    {
      ghost var n := |required| + i;
      assert optional[i] in optional && all[n] == optional[i];
      assert optional[..i + 1] == optional[..i] + [optional[i]];
      Grow(all, n);
      if !wellNamed(optional[i]) { return false; }
      if optional[i] in seen {
        Repeats(all, n);
        return false;
      }
      seen := seen + {optional[i]};
    }
    assert all[..|all|] == all && optional[..|optional|] == optional;
    ok := true;
  }

  lemma NothingDistinct<T>(s: seq<T>)
    ensures Distinct(s[..0]) && Elements(s[..0]) == {}
  {
  }

  lemma DistinctPrefix<T>(a: seq<T>, b: seq<T>)
    ensures Distinct(a + b) ==> Distinct(a)
  {
    assert a == (a + b)[..|a|];
  }

  lemma Repeats<T>(s: seq<T>, i: nat)
    requires i < |s| && s[i] in s[..i]
    ensures !Distinct(s)
  {
    var k :| 0 <= k < i && s[..i][k] == s[i];
    assert s[k] == s[i];
  }

  lemma Grow<T>(s: seq<T>, i: nat)
    requires i < |s|
    ensures Elements(s[..i + 1]) == Elements(s[..i]) + {s[i]}
    ensures s[i] !in s[..i] && Distinct(s[..i]) ==> Distinct(s[..i + 1])
    ensures s[i] in s[..i] <==> exists k :: 0 <= k < i && s[k] == s[i]
  {
    assert s[..i + 1] == s[..i] + [s[i]];
  }

  // ---- the encoding is a normal form -------------------------------------

  /** The same manifest up to the order of its files and features. */
  ghost predicate Rearranged(a: Snapshot, b: Snapshot) {
    && multiset(a.files) == multiset(b.files)
    && multiset(a.required) == multiset(b.required)
    && multiset(a.optional) == multiset(b.optional)
    && a.(files := b.files, required := b.required, optional := b.optional) == b
  }

  lemma {:induction false} AscendingPaths(files: seq<File>, i: nat, j: nat)
    requires forall k :: 0 < k < |files| ==> Less(files[k - 1].path, files[k].path)
    requires i < j < |files|
    ensures Less(files[i].path, files[j].path)
    decreases j
  {
    if i + 1 < j {
      AscendingPaths(files, i, j - 1);
      LessTransitive(files[i].path, files[j - 1].path, files[j].path);
    }
  }

  /** In a valid manifest a path names one file. */
  lemma PathNamesFile(m: Snapshot, f: File, g: File)
    requires Valid(m) && f in m.files && g in m.files && f.path == g.path
    ensures f == g
  {
    var s := Canonical(m).files;
    SortByMembers(m.files, ByPath);
    var i :| 0 <= i < |s| && s[i] == f;
    var j :| 0 <= j < |s| && s[j] == g;
    LessIrreflexive(f.path);
    if i < j { AscendingPaths(s, i, j); } else if j < i { AscendingPaths(s, j, i); }
  }

  lemma SortStringsIgnoresArrival(a: seq<string>, b: seq<string>)
    requires multiset(a) == multiset(b)
    ensures SortBy(a, Less) == SortBy(b, Less)
  {
    LessIsStrict();
    forall x, y | x in a && y in a && !Less(x, y) && !Less(y, x) ensures x == y { LessTotal(x, y); }
    SortIgnoresArrival(a, b, Less);
  }

  /** Valid manifests get the same bytes exactly when they differ in nothing but the order of files and features. */
  lemma CanonicalIffRearranged(a: Snapshot, b: Snapshot)
    requires Valid(a)
    ensures Canonical(a) == Canonical(b) <==> Rearranged(a, b)
  {
    if Canonical(a) == Canonical(b) {
      SortByPermutes(a.files, ByPath);
      SortByPermutes(b.files, ByPath);
      SortByPermutes(a.required, Less);
      SortByPermutes(b.required, Less);
      SortByPermutes(a.optional, Less);
      SortByPermutes(b.optional, Less);
    }
    if Rearranged(a, b) {
      ByPathIsStrict();
      forall f, g | f in a.files && g in a.files && !ByPath(f, g) && !ByPath(g, f) ensures f == g {
        LessTotal(f.path, g.path);
        PathNamesFile(a, f, g);
      }
      SortIgnoresArrival(a.files, b.files, ByPath);
      SortStringsIgnoresArrival(a.required, b.required);
      SortStringsIgnoresArrival(a.optional, b.optional);
    }
  }

  lemma CanonicalRearranges(m: Snapshot)
    ensures Rearranged(m, Canonical(m))
  {
    SortByPermutes(m.files, ByPath);
    SortByPermutes(m.required, Less);
    SortByPermutes(m.optional, Less);
  }

  lemma CanonicalIdempotent(m: Snapshot)
    requires Valid(m)
    ensures Canonical(Canonical(m)) == Canonical(m)
    ensures Valid(Canonical(m))
  {
    CanonicalRearranges(m);
    CanonicalIffRearranged(m, Canonical(m));
  }

  // ---- bytes --------------------------------------------------------------

  /** The JSON library: a printer, and a parser that undoes it on every manifest that validates. */
  datatype Json = Json(render: Snapshot -> string, parse: string -> Option<Snapshot>)

  ghost predicate Faithful(json: Json) {
    forall m :: ValidSorted(m) ==> json.parse(json.render(m)) == Some(m)
  }

  ghost function Encode(json: Json, m: Snapshot): Option<string> {
    if Valid(m) then Some(json.render(Canonical(m))) else None
  }

  ghost function Decode(json: Json, bytes: string): Option<Snapshot> {
    var parsed := json.parse(bytes);
    if parsed.Some? && Encode(json, parsed.value) == Some(bytes) then parsed else None
  }

  /** Decoding undoes encoding, up to the canonical order. */
  lemma DecodeEncode(json: Json, m: Snapshot)
    requires Faithful(json) && Valid(m)
    ensures Decode(json, Encode(json, m).value) == Some(Canonical(m))
  {
    CanonicalIdempotent(m);
  }

  /** Decoding accepts exactly what encoding emits: each accepted text is the one encoding of its manifest. */
  lemma DecodeAcceptsExactlyEncodings(json: Json, bytes: string, m: Snapshot)
    requires Faithful(json)
    ensures Decode(json, bytes) == Some(m) <==> m == Canonical(m) && Encode(json, m) == Some(bytes)
    ensures Decode(json, bytes) == Some(m) <==> m == Canonical(m) && ValidSorted(m) && bytes == json.render(m)
  {
    if Decode(json, bytes) == Some(m) {
      CanonicalIdempotent(m);
    }
  }

  /** Two valid manifests share an identity exactly when they are rearrangements of each other. */
  lemma SameEncodingIffRearranged(json: Json, a: Snapshot, b: Snapshot)
    requires Faithful(json) && Valid(a) && Valid(b)
    ensures Encode(json, a) == Encode(json, b) <==> Rearranged(a, b)
  {
    CanonicalIffRearranged(a, b);
    CanonicalIdempotent(a);
    CanonicalIdempotent(b);
    if Encode(json, a) == Encode(json, b) {
      assert json.parse(json.render(Canonical(a))) == json.parse(json.render(Canonical(b)));
    }
  }

  // ---- capture-invariant state -------------------------------------------

  function Undated(m: Snapshot): Snapshot { m.(capturedAt := "state", createdBy := "state") }

  /** SnapshotStateSHA256, with the digest carried as what it digests. */
  function StateOf(m: Snapshot): Snapshot { Canonical(Undated(m)) }

  /** Digests agree exactly on captures that differ only in when and by what build they were taken. */
  lemma StateIgnoresOnlyCapture(a: Snapshot, b: Snapshot)
    requires Valid(a) && Valid(b)
    ensures StateOf(a) == StateOf(b) <==> Rearranged(a.(capturedAt := b.capturedAt, createdBy := b.createdBy), b)
  {
    assert !Blank("state") by { assert !IsSpace("state"[0]); }
    assert Canonical(Undated(a)) == Undated(Canonical(a));
    assert ValidSorted(Undated(Canonical(a)));
    CanonicalIffRearranged(Undated(a), Undated(b));
  }
}
