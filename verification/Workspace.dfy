/** The Workspace tables and what ingesting a session file means for them, one transaction step after another. */
module Workspace {
  import opened Order
  import opened Namespaces
  import opened Manifests
  import opened Options
  import opened Episodes
  import P = Pairing
  import Refs

  // ---- keys and rows ---------------------------------------------------------------

  /** A session key is a digest of these three with their lengths; it is carried as the three. */
  datatype SessionKey = SessionKey(source: string, machine: string, session: string)

  datatype EntryKey = EntryKey(session: SessionKey, entry: string)

  datatype SessionRow = SessionRow(cwd: string, project: string, startedAt: string, metadata: string,
                                   isSubagent: bool, level: string)

  datatype VersionKey = VersionKey(session: SessionKey, sha: string, manifest: Snapshot)

  datatype VersionRow = VersionRow(path: string, rawPath: string, observedAt: string, copyState: string)

  /** sha addresses the raw entry; raw and metadata are what is projected of them. */
  datatype EntryRow = EntryRow(sha: string, parent: string, line: int, kind: string, at: string, role: string,
                               raw: string, metadata: string)

  datatype MessageRow = MessageRow(role: string, text: string, tool: string, command: string, files: string,
                                   columns: P.Columns, firstKept: string, tokensBefore: int, participates: bool)

  datatype ToolRow = ToolRow(session: SessionKey, entry: string, key: string, ordinal: int, useId: string, tool: string,
                             family: string, command: string, exitCode: Option<int>, isError: bool, signature: string,
                             outcome: string, at: string, project: string, machine: string)

  datatype Conflict = Conflict(session: SessionKey, entry: string, first: string, second: string, manifest: Snapshot)

  datatype Attempt = Attempt(manifest: Snapshot, duplicate: bool)

  datatype Tables = Tables(sessions: map<SessionKey, SessionRow>, versions: map<VersionKey, VersionRow>,
                           entries: map<EntryKey, EntryRow>, messages: map<EntryKey, MessageRow>,
                           tools: seq<ToolRow>, episodes: map<SessionKey, seq<Episode>>,
                           conflicts: seq<Conflict>, snapshots: set<Snapshot>, attempts: seq<Attempt>)

  const EMPTY := Tables(map[], map[], map[], map[], [], map[], [], {}, [])

  // ---- parsing -------------------------------------------------------------------------

  /** Everything an adapter is given to parse a session file; the bytes are their address. */
  datatype ParseInput = ParseInput(source: string, path: string, rawPath: string, sha: string, sessionId: string,
                                   cwd: string, startedAt: string, isSubagent: bool)

  datatype Parsed = Parsed(sessionId: string, cwd: string, startedAt: string, isSubagent: bool, metadata: string,
                           entries: seq<P.Entry>)

  /** What is fixed for every ingest: adapters, normalisers, RFC 3339 parsing, and how long the bytes are that an
      address stands for. */
  datatype Rules = Rules(parse: ParseInput -> Option<Parsed>, naming: P.Naming, project: string -> string,
                         instant: string -> Option<int>, size: string -> int)

  /** One snapshot being ingested under one redactor. */
  datatype Job = Job(manifest: Snapshot, scrub: string -> string, level: string)

  function InputOf(f: File): ParseInput {
    ParseInput(f.source, f.path, f.rawPath, f.sha, f.sessionId, f.cwd, f.startedAt, f.isSubagent)
  }

  function FirstNonEmpty(a: string, b: string): string { if a != "" then a else b }

  function LastIndex(s: string, c: char): (i: int)
    ensures -1 <= i < |s|
  {
    if |s| == 0 then -1 else if s[|s| - 1] == c then |s| - 1 else LastIndex(s[..|s| - 1], c)
  }

  /** The last path element, its extension removed. */
  function Stem(path: string): string {
    var base := path[LastIndex(path, '/') + 1..];
    if LastIndex(base, '.') >= 0 then base[..LastIndex(base, '.')] else base
  }

  function SessionId(f: File, p: Parsed): string {
    FirstNonEmpty(p.sessionId, FirstNonEmpty(f.sessionId, Stem(f.path)))
  }

  function SessionOf(machine: string, f: File, p: Parsed): SessionKey { SessionKey(f.source, machine, SessionId(f, p)) }

  /** The parse succeeds and every key it needs is acceptable. */
  predicate Readable(rules: Rules, machine: string, f: File) {
    var p := rules.parse(InputOf(f));
    && p.Some?
    && !Blank(f.source) && !Blank(machine) && !Blank(SessionId(f, p.value))
    && forall k :: 0 <= k < |p.value.entries| ==> Refs.EntryIdOk(p.value.entries[k].id, Blank)
  }

  // ---- projections -----------------------------------------------------------------------

  predicate ShouldIndexText(e: P.Entry, indexOutput: bool) {
    || e.kind == "model_change" || e.kind == "thinking_level_change" || e.kind == "label"
    || (!Blank(e.text)
        && (e.role in ["user", "assistant", "branchSummary", "compactionSummary", "summary", "compaction",
                       "branch_summary"]
            || (e.role in ["toolResult", "bashExecution"] && indexOutput)))
  }

  predicate HasColumns(e: P.Entry) {
    var c := e.columns;
    || !Blank(c.model) || !Blank(c.provider) || c.tokens != 0 || c.cacheRead != 0 || c.cacheWrite != 0
    || c.reasoning != 0 || c.cost != 0.0 || c.thinking != "" || c.tag != "" || c.tagTarget != ""
  }

  predicate ShouldPersist(e: P.Entry, indexOutput: bool) {
    || ShouldIndexText(e, indexOutput) || !Blank(e.tool) || !Blank(e.command) || !Blank(e.files) || HasColumns(e)
    || e.firstKept != "" || e.tokensBefore != 0
  }

  function Scrubbed(job: Job, text: string): string { if text == "" then "" else job.scrub(text) }

  function EntryRowOf(job: Job, e: P.Entry): EntryRow {
    EntryRow(e.raw, e.parent, e.line, e.kind, e.at, e.role, Scrubbed(job, e.raw), Scrubbed(job, e.metadata))
  }

  function MessageRowOf(job: Job, source: string, e: P.Entry): MessageRow {
    MessageRow(e.role, if ShouldIndexText(e, job.manifest.policy.indexToolOutput) then Scrubbed(job, e.text) else "",
               e.tool, Scrubbed(job, e.command), Scrubbed(job, e.files), e.columns, e.firstKept,
               if e.tokensBefore > 0 then e.tokensBefore else 0, source != "pi" || e.participates)
  }

  function Decimal(n: int): string { if n < 0 then "-" + P.Digits(-n) else P.Digits(n) }

  function FallbackSignature(i: P.Invocation): string {
    if i.exitCode.Some? then "exit_code:" + Decimal(i.exitCode.value) else "tool_error"
  }

  /** Only a normalised, redacted signature of a failing result is stored. */
  function StoredSignature(rules: Rules, job: Job, i: P.Invocation): string {
    if !i.isError then ""
    else if !job.manifest.policy.indexToolOutput || Blank(i.text) then FallbackSignature(i)
    else
      var s := Scrubbed(job, rules.naming.signature(Scrubbed(job, i.text)));
      if s == "" then FallbackSignature(i) else s
  }

  /** The outcome text stored is the signature again, never the result's own text. */
  function ToolRowOf(rules: Rules, job: Job, sk: SessionKey, project: string, i: P.Invocation): ToolRow {
    ToolRow(sk, i.entry, i.key, i.ordinal, i.useId, i.tool, Scrubbed(job, i.family), Scrubbed(job, i.command),
            i.exitCode, i.isError, StoredSignature(rules, job, i), StoredSignature(rules, job, i), i.at, project,
            job.manifest.machineId)
  }

  // ---- entries --------------------------------------------------------------------------

  /** The same source session's entry, as another machine holds it. */
  predicate Rivals(o: EntryKey, k: EntryKey) {
    o.entry == k.entry && o.session.source == k.session.source && o.session.session == k.session.session
    && o.session.machine != k.session.machine
  }

  ghost predicate RivalAgainst(t: Tables, o: EntryKey, k: EntryKey, sha: string) {
    o in t.entries && Rivals(o, k) && t.entries[o].sha != sha
  }

  /** The stored content an arriving entry contradicts, if any. */
  ghost function Contradicted(t: Tables, k: EntryKey, sha: string): Option<string> {
    if k in t.entries && t.entries[k].sha != sha then Some(t.entries[k].sha)
    else if exists o :: RivalAgainst(t, o, k, sha) then
      var o :| RivalAgainst(t, o, k, sha);
      Some(t.entries[o].sha)
    else None
  }

  /** Insert or ignore. */
  function Put<K, V>(m: map<K, V>, k: K, v: V): map<K, V> { if k in m then m else m[k := v] }

  ghost function IngestEntry(t: Tables, job: Job, sk: SessionKey, e: P.Entry): Tables {
    var k := EntryKey(sk, e.id);
    var c := Contradicted(t, k, e.raw);
    if c.Some? then t.(conflicts := t.conflicts + [Conflict(sk, e.id, c.value, e.raw, job.manifest)])
    else
      t.(entries := Put(t.entries, k, EntryRowOf(job, e)),
         messages := if ShouldPersist(e, job.manifest.policy.indexToolOutput)
                     then Put(t.messages, k, MessageRowOf(job, sk.source, e)) else t.messages)
  }

  ghost function IngestEntries(t: Tables, job: Job, sk: SessionKey, entries: seq<P.Entry>): Tables {
    if |entries| == 0 then t
    else IngestEntry(IngestEntries(t, job, sk, entries[..|entries| - 1]), job, sk, entries[|entries| - 1])
  }

  // ---- tool invocations and episodes --------------------------------------------------------

  predicate StoredAs(t: Tables, sk: SessionKey, e: P.Entry) {
    EntryKey(sk, e.id) in t.entries && t.entries[EntryKey(sk, e.id)].sha == e.raw
  }

  /** The entries of a transcript that are stored as it has them. */
  function Accepted(t: Tables, sk: SessionKey, entries: seq<P.Entry>): seq<P.Entry> {
    if |entries| == 0 then []
    else Accepted(t, sk, entries[..|entries| - 1])
         + if StoredAs(t, sk, entries[|entries| - 1]) then [entries[|entries| - 1]] else []
  }

  predicate RowOf(r: ToolRow, sk: SessionKey, i: P.Invocation) {
    r.session == sk && r.entry == i.entry && r.key == i.key && r.ordinal == i.ordinal
  }

  /** How a session's invocations are stored in tool_invocations. */
  function ToolKind(rules: Rules, job: Job, sk: SessionKey, project: string): P.Kind<ToolRow> {
    P.Kind(i => ToolRowOf(rules, job, sk, project, i), (r, i) => RowOf(r, sk, i))
  }

  predicate HasTool(tools: seq<ToolRow>, sk: SessionKey, i: P.Invocation) { exists r :: r in tools && RowOf(r, sk, i) }

  function InsertTools(tools: seq<ToolRow>, rules: Rules, job: Job, sk: SessionKey, project: string,
                       invs: seq<P.Invocation>): seq<ToolRow> {
    P.InsertObserved(ToolKind(rules, job, sk, project), tools, invs)
  }

  /** One more invocation: insert its row, or ignore it. */
  lemma InsertToolsNext(tools: seq<ToolRow>, rules: Rules, job: Job, sk: SessionKey, project: string,
                        invs: seq<P.Invocation>)
    requires |invs| > 0
    ensures var rest := InsertTools(tools, rules, job, sk, project, invs[..|invs| - 1]);
            var i := invs[|invs| - 1];
            InsertTools(tools, rules, job, sk, project, invs)
            == if i.observed && !HasTool(rest, sk, i) then rest + [ToolRowOf(rules, job, sk, project, i)] else rest
  {
    hide ToolRowOf, RowOf;
    var rest := InsertTools(tools, rules, job, sk, project, invs[..|invs| - 1]);
    var i := invs[|invs| - 1];
    assert P.Holds(ToolKind(rules, job, sk, project), rest, i) <==> HasTool(rest, sk, i);
  }

  /** A stored call, on a line of its entry. */
  function CallRow(r: ToolRow, line: int, rules: Rules): Row {
    Row(r.entry, r.ordinal, line, r.tool, r.family, r.signature, r.isError, Stamp(r.at, rules.instant(r.at)), r.project)
  }

  /** A session's stored calls, joined with their entries' line numbers. */
  function CallRows(tools: seq<ToolRow>, entries: map<EntryKey, EntryRow>, rules: Rules, sk: SessionKey): seq<Row> {
    if |tools| == 0 then []
    else
      var rest := CallRows(tools[..|tools| - 1], entries, rules, sk);
      var r := tools[|tools| - 1];
      if r.session == sk && EntryKey(sk, r.entry) in entries then
        rest + [CallRow(r, entries[EntryKey(sk, r.entry)].line, rules)]
      else rest
  }

  predicate ByOpening(a: Episode, b: Episode) {
    if a.openedAt != b.openedAt then Less(a.openedAt, b.openedAt)
    else if a.entry != b.entry then Less(a.entry, b.entry)
    else a.ordinal < b.ordinal
  }

  predicate SameOpening(a: Episode, b: Episode) { a.entry == b.entry && a.ordinal == b.ordinal }

  /** Insert or ignore, by opening call. */
  function Kept(eps: seq<Episode>): seq<Episode> {
    if |eps| == 0 then []
    else
      var rest := Kept(eps[..|eps| - 1]);
      if exists k :: 0 <= k < |rest| && SameOpening(rest[k], eps[|eps| - 1]) then rest else rest + [eps[|eps| - 1]]
  }

  /** A session's episodes as its stored calls have them. */
  ghost function EpisodesStored(t: Tables, rules: Rules, sk: SessionKey): seq<Episode> {
    Kept(SortBy(EpisodesOf(SortBy(CallRows(t.tools, t.entries, rules, sk), Before), DEFAULT_CONFIG), ByOpening))
  }

  // ---- files -------------------------------------------------------------------------------

  function AddVersion(t: Tables, job: Job, sk: SessionKey, f: File): Tables {
    t.(versions := Put(t.versions, VersionKey(sk, f.sha, job.manifest),
                       VersionRow(f.path, f.rawPath, job.manifest.capturedAt, f.copyState)))
  }

  function SessionRowOf(rules: Rules, job: Job, f: File, p: Parsed): SessionRow {
    var cwd := FirstNonEmpty(p.cwd, f.cwd);
    SessionRow(cwd, rules.project(cwd), FirstNonEmpty(p.startedAt, f.startedAt), Scrubbed(job, p.metadata),
               p.isSubagent || f.isSubagent, job.level)
  }

  /** The session and version rows, then every entry. */
  ghost function WithEntries(t: Tables, rules: Rules, job: Job, f: File, p: Parsed): Tables {
    var sk := SessionOf(job.manifest.machineId, f, p);
    IngestEntries(AddVersion(t.(sessions := Put(t.sessions, sk, SessionRowOf(rules, job, f, p))), job, sk, f),
                  job, sk, p.entries)
  }

  ghost function WithTools(t: Tables, rules: Rules, job: Job, f: File, p: Parsed): Tables {
    var sk := SessionOf(job.manifest.machineId, f, p);
    t.(tools := InsertTools(t.tools, rules, job, sk, rules.project(FirstNonEmpty(p.cwd, f.cwd)),
                            P.Paired(rules.naming, Accepted(t, sk, p.entries))))
  }

  ghost function WithEpisodes(t: Tables, rules: Rules, sk: SessionKey): Tables {
    t.(episodes := t.episodes[sk := EpisodesStored(t, rules, sk)])
  }

  /** A session file parsed and taken in. */
  ghost function IngestSession(t: Tables, rules: Rules, job: Job, f: File): Tables
    requires Readable(rules, job.manifest.machineId, f)
  {
    var p := rules.parse(InputOf(f)).value;
    WithEpisodes(WithTools(WithEntries(t, rules, job, f, p), rules, job, f, p), rules,
                 SessionOf(job.manifest.machineId, f, p))
  }

  /** A recorded version of this file: same machine, source, paths and bytes. */
  predicate VersionOf(v: VersionKey, r: VersionRow, machine: string, f: File) {
    && v.sha == f.sha && r.path == f.path && r.rawPath == f.rawPath
    && v.session.machine == machine && v.session.source == f.source
  }

  ghost predicate Known(t: Tables, machine: string, f: File) {
    exists v :: v in t.versions && v.session in t.sessions && VersionOf(v, t.versions[v], machine, f)
  }

  ghost function KnownSession(t: Tables, machine: string, f: File): SessionKey
    requires Known(t, machine, f)
  {
    var v :| v in t.versions && v.session in t.sessions && VersionOf(v, t.versions[v], machine, f);
    v.session
  }

  ghost function IngestFile(t: Tables, rules: Rules, job: Job, opens: string -> bool, f: File): Option<Tables> {
    var machine := job.manifest.machineId;
    if f.kind == "session" && Known(t, machine, f) then Some(AddVersion(t, job, KnownSession(t, machine, f), f))
    else if !opens(f.sha) || rules.size(f.sha) != f.bytes then None
    else if f.kind != "session" then Some(t)
    else if Readable(rules, machine, f) then Some(IngestSession(t, rules, job, f))
    else None
  }

  ghost function IngestFiles(t: Tables, rules: Rules, job: Job, opens: string -> bool,
                             files: seq<File>): Option<Tables>
  {
    if |files| == 0 then Some(t)
    else
      var rest := IngestFiles(t, rules, job, opens, files[..|files| - 1]);
      if rest.None? then None else IngestFile(rest.value, rules, job, opens, files[|files| - 1])
  }

  /** One snapshot, one transaction: all of it, or None. */
  ghost function IngestSnapshot(t: Tables, rules: Rules, job: Job, opens: string -> bool): Option<Tables> {
    var dup := job.manifest in t.snapshots;
    var begun := t.(attempts := t.attempts + [Attempt(job.manifest, dup)]);
    if dup then Some(begun)
    else IngestFiles(begun.(snapshots := t.snapshots + {job.manifest}), rules, job, opens, job.manifest.files)
  }
}
