/** What a session file leaves in the tables, column by column. */
module Projected {
  import opened Order
  import opened Namespaces
  import opened Manifests
  import opened Options
  import opened Texts
  import opened Workspace
  import opened Projection
  import P = Pairing
  import Refs

  // ---- the columns ----------------------------------------------------------------------

  /** An empty text stays empty; any other is what the redactor makes of it. */
  ghost predicate Redacts(job: Job, text: string, stored: string) {
    (text == "" ==> stored == "") && (text != "" ==> stored == job.scrub(text))
  }

  ghost predicate EntryTold(r: EntryRow, job: Job, e: P.Entry) {
    && r.sha == e.raw && r.parent == e.parent && r.line == e.line && r.kind == e.kind && r.at == e.at
    && r.role == e.role
    && Redacts(job, e.raw, r.raw) && Redacts(job, e.metadata, r.metadata)
  }

  /** Something to see in it. */
  predicate Visible(text: string) { exists k :: 0 <= k < |text| && !IsSpace(text[k]) }

  /** Whose text may be searched: changes of model, thinking level or label always; spoken and summarising entries;
      results of tools only where tool output is indexed. */
  ghost predicate TextWanted(e: P.Entry, indexOutput: bool) {
    || e.kind == "model_change" || e.kind == "thinking_level_change" || e.kind == "label"
    || (Visible(e.text) && e.role == "user") || (Visible(e.text) && e.role == "assistant")
    || (Visible(e.text) && e.role == "branchSummary") || (Visible(e.text) && e.role == "compactionSummary")
    || (Visible(e.text) && e.role == "summary") || (Visible(e.text) && e.role == "compaction")
    || (Visible(e.text) && e.role == "branch_summary")
    || (Visible(e.text) && indexOutput && e.role == "toolResult")
    || (Visible(e.text) && indexOutput && e.role == "bashExecution")
  }

  /** Which entries get a message row. */
  ghost predicate MessageWanted(e: P.Entry, indexOutput: bool) {
    var c := e.columns;
    || TextWanted(e, indexOutput) || Visible(e.tool) || Visible(e.command) || Visible(e.files)
    || Visible(c.model) || Visible(c.provider) || c.tokens != 0 || c.cacheRead != 0 || c.cacheWrite != 0
    || c.reasoning != 0 || c.cost != 0.0 || c.thinking != "" || c.tag != "" || c.tagTarget != ""
    || e.firstKept != "" || e.tokensBefore != 0
  }

  ghost predicate MessageTold(m: MessageRow, job: Job, source: string, e: P.Entry) {
    && m.role == e.role && m.tool == e.tool && m.columns == e.columns && m.firstKept == e.firstKept
    && Redacts(job, e.command, m.command) && Redacts(job, e.files, m.files)
    && Redacts(job, if TextWanted(e, job.manifest.policy.indexToolOutput) then e.text else "", m.text)
    && (m.tokensBefore == e.tokensBefore || (e.tokensBefore < 0 && m.tokensBefore == 0)) && m.tokensBefore >= 0
    && (m.participates <==> source == "pi" ==> e.participates)
  }

  /** A failure without a readable result is filed under its exit code, if it has one. */
  ghost predicate FiledUnder(i: P.Invocation, signature: string) {
    (i.exitCode.None? ==> signature == "tool_error")
    && (i.exitCode.Some? ==> |signature| > 10 && signature[..10] == "exit_code:"
                             && signature[10..] == Decimal(i.exitCode.value))
  }

  /** The signature of a failure: of its redacted text, redacted again, where tool output is indexed and leaves one. */
  ghost predicate SignatureTold(rules: Rules, job: Job, i: P.Invocation, signature: string) {
    && (!i.isError ==> signature == "")
    && (i.isError && (!job.manifest.policy.indexToolOutput || !Visible(i.text)) ==> FiledUnder(i, signature))
    && (i.isError && job.manifest.policy.indexToolOutput && Visible(i.text) ==>
          exists normal, s :: normal == rules.naming.signature(job.scrub(i.text)) && Redacts(job, normal, s)
                              && if s == "" then FiledUnder(i, signature) else signature == s)
  }

  ghost predicate ToolTold(r: ToolRow, rules: Rules, job: Job, sk: SessionKey, project: string, i: P.Invocation) {
    && r.session == sk && r.entry == i.entry && r.key == i.key && r.ordinal == i.ordinal && r.useId == i.useId
    && r.tool == i.tool && r.exitCode == i.exitCode && r.isError == i.isError && r.at == i.at
    && r.project == project && r.machine == job.manifest.machineId
    && Redacts(job, i.family, r.family) && Redacts(job, i.command, r.command)
    && SignatureTold(rules, job, i, r.signature) && r.outcome == r.signature
  }

  /** What a parse leaves open is taken from the manifest. */
  ghost predicate Prefers(parsed: string, listed: string, stored: string) {
    (parsed != "" ==> stored == parsed) && (parsed == "" ==> stored == listed)
  }

  ghost predicate SessionTold(r: SessionRow, rules: Rules, job: Job, f: File, p: Parsed) {
    && Prefers(p.cwd, f.cwd, r.cwd) && r.project == rules.project(r.cwd)
    && Prefers(p.startedAt, f.startedAt, r.startedAt) && Redacts(job, p.metadata, r.metadata)
    && (r.isSubagent <==> p.isSubagent || f.isSubagent) && r.level == job.level
  }

  /** The file's name without its directories and its last extension. */
  ghost predicate NamedAs(path: string, stem: string) {
    exists dir: string, ext: string :: StemOf(path, dir, stem, ext)
  }

  predicate StemOf(path: string, dir: string, stem: string, ext: string) {
    && path == dir + (stem + ext) && '/' !in stem && '/' !in ext && (dir == "" || dir[|dir| - 1] == '/')
    && if ext == "" then '.' !in stem else ext[0] == '.' && '.' !in ext[1..]
  }

  // ---- each holds of its function ---------------------------------------------------------

  lemma BlankIsInvisible(text: string)
    ensures Blank(text) <==> !Visible(text)
  {
  }

  lemma EntryRowTold(job: Job, e: P.Entry)
    ensures EntryTold(EntryRowOf(job, e), job, e)
  {
  }

  lemma TextTold(e: P.Entry, indexOutput: bool)
    ensures ShouldIndexText(e, indexOutput) <==> TextWanted(e, indexOutput)
  {
    BlankIsInvisible(e.text);
    hide Blank, Visible;
  }

  lemma WantedTold(e: P.Entry, indexOutput: bool)
    ensures ShouldPersist(e, indexOutput) <==> MessageWanted(e, indexOutput)
  {
    TextTold(e, indexOutput);
    BlankIsInvisible(e.tool);
    BlankIsInvisible(e.command);
    BlankIsInvisible(e.files);
    BlankIsInvisible(e.columns.model);
    BlankIsInvisible(e.columns.provider);
    hide Blank, Visible, ShouldIndexText, TextWanted;
  }

  lemma MessageRowTold(job: Job, source: string, e: P.Entry)
    ensures MessageTold(MessageRowOf(job, source, e), job, source, e)
  {
    TextTold(e, job.manifest.policy.indexToolOutput);
    hide ShouldIndexText, TextWanted;
  }

  lemma FallbackTold(i: P.Invocation)
    ensures FiledUnder(i, FallbackSignature(i))
  {
    hide P.Digits;
    if i.exitCode.Some? {
      DecimalNonempty(i.exitCode.value);
      var s := FallbackSignature(i);
      assert s[..10] == "exit_code:" && s[10..] == Decimal(i.exitCode.value);
    }
  }

  lemma DecimalNonempty(n: int)
    ensures |Decimal(n)| > 0
  {
  }

  lemma SignatureRowTold(rules: Rules, job: Job, i: P.Invocation)
    ensures SignatureTold(rules, job, i, StoredSignature(rules, job, i))
  {
    FallbackTold(i);
    BlankIsInvisible(i.text);
    hide FallbackSignature, FiledUnder, Blank;
    if i.isError && job.manifest.policy.indexToolOutput && Visible(i.text) {
      assert i.text != "";
      var normal := rules.naming.signature(job.scrub(i.text));
      assert Redacts(job, normal, Scrubbed(job, normal));
    }
  }

  lemma ToolRowTold(rules: Rules, job: Job, sk: SessionKey, project: string, i: P.Invocation)
    ensures ToolTold(ToolRowOf(rules, job, sk, project, i), rules, job, sk, project, i)
  {
    SignatureRowTold(rules, job, i);
    hide StoredSignature, SignatureTold;
  }

  lemma SessionRowTold(rules: Rules, job: Job, f: File, p: Parsed)
    ensures SessionTold(SessionRowOf(rules, job, f, p), rules, job, f, p)
  {
  }

  lemma {:induction false} LastIndexMeans(s: string, c: char)
    ensures LastIndex(s, c) >= 0 ==> s[LastIndex(s, c)] == c
    ensures forall k :: LastIndex(s, c) < k < |s| ==> s[k] != c
  {
    if |s| > 0 && s[|s| - 1] != c {
      var t := s[..|s| - 1];
      LastIndexMeans(t, c);
      assert LastIndex(s, c) == LastIndex(t, c) && forall k :: 0 <= k < |t| ==> s[k] == t[k];
    }
  }

  lemma AfterLast(s: string, c: char) returns (cut: nat)
    ensures cut == LastIndex(s, c) + 1 && cut <= |s| && c !in s[cut..] && (cut > 0 ==> s[cut - 1] == c)
  {
    LastIndexMeans(s, c);
    hide *;
    cut := LastIndex(s, c) + 1;
  }

  lemma PathSplits(path: string) returns (dir: string, base: string)
    ensures path == dir + base && '/' !in base && (dir == "" || dir[|dir| - 1] == '/')
    ensures base == path[LastIndex(path, '/') + 1..]
  {
    var cut := AfterLast(path, '/');
    hide *;
    dir, base := path[..cut], path[cut..];
  }

  lemma StemTold(path: string)
    ensures NamedAs(path, Stem(path))
  {
    hide LastIndex, NamedAs;
    var dir, base := PathSplits(path);
    StemOfBase(path, dir, base);
  }

  /** The extension is cut at the last dot, if there is one. */
  lemma StemOfBase(path: string, dir: string, base: string)
    requires path == dir + base && '/' !in base && (dir == "" || dir[|dir| - 1] == '/')
    ensures NamedAs(path, if LastIndex(base, '.') >= 0 then base[..LastIndex(base, '.')] else base)
  {
    hide LastIndex, StemOf;
    LastIndexMeans(base, '.');
    var dot := LastIndex(base, '.');
    if dot >= 0 {
      StemWithin(path, dir, base, dot);
    } else {
      assert base[dot + 1..] == base;
      StemWhole(path, dir, base);
    }
  }

  lemma StemWithin(path: string, dir: string, base: string, dot: nat)
    requires path == dir + base && '/' !in base && (dir == "" || dir[|dir| - 1] == '/')
    requires dot < |base| && base[dot] == '.' && '.' !in base[dot + 1..]
    ensures StemOf(path, dir, base[..dot], base[dot..])
  {
    assert base[..dot] + base[dot..] == base && base[dot..][1..] == base[dot + 1..];
    assert forall c :: c in base[..dot] || c in base[dot..] ==> c in base;
  }

  lemma StemWhole(path: string, dir: string, base: string)
    requires path == dir + base && '/' !in base && (dir == "" || dir[|dir| - 1] == '/')
    ensures '.' !in base ==> StemOf(path, dir, base, "")
  {
    assert base + "" == base;
  }

  /** The parser's session id, else the manifest's, else the file's name. */
  lemma SessionIdTold(machine: string, f: File, p: Parsed)
    ensures var sk := SessionOf(machine, f, p);
            && sk.source == f.source && sk.machine == machine
            && (p.sessionId != "" ==> sk.session == p.sessionId)
            && (p.sessionId == "" && f.sessionId != "" ==> sk.session == f.sessionId)
            && (p.sessionId == f.sessionId == "" ==> NamedAs(f.path, sk.session))
  {
    StemTold(f.path);
    hide Stem, NamedAs;
  }

  // ---- which files are taken in --------------------------------------------------------------

  /** An id with something to see in it and neither NUL nor a line break. */
  predicate IdSound(id: string) { Visible(id) && '\0' !in id && '\n' !in id && '\r' !in id }

  /** The adapter, given all of the file's provenance, answers p, and every identity in it can be recorded. */
  ghost predicate ParsesTo(rules: Rules, machine: string, f: File, p: Parsed) {
    && rules.parse(ParseInput(f.source, f.path, f.rawPath, f.sha, f.sessionId, f.cwd, f.startedAt, f.isSubagent))
       == Some(p)
    && Visible(f.source) && Visible(machine) && Visible(SessionOf(machine, f, p).session)
    && forall e :: e in p.entries ==> IdSound(e.id)
  }

  lemma ReadableMeans(rules: Rules, machine: string, f: File)
    ensures Readable(rules, machine, f) <==> exists p :: ParsesTo(rules, machine, f, p)
  {
    hide Blank, Visible, SessionId, Refs.EntryIdOk;
    var q := rules.parse(InputOf(f));
    BlankIsInvisible(f.source);
    BlankIsInvisible(machine);
    if q.Some? {
      BlankIsInvisible(SessionId(f, q.value));
      forall e | e in q.value.entries ensures Refs.EntryIdOk(e.id, Blank) <==> IdSound(e.id) {
        Refs.EntryIdMeans(e.id, Blank);
        BlankIsInvisible(e.id);
      }
      assert Readable(rules, machine, f) <==> ParsesTo(rules, machine, f, q.value);
    }
  }

  /** A file is taken in exactly when it is a session already known, or its bytes can be opened, are as long as listed
      and, for a session, parse. */
  lemma TakenIffKnownOrRead(t: Tables, rules: Rules, job: Job, opens: string -> bool, f: File)
    ensures IngestFile(t, rules, job, opens, f).Some? <==>
              || (f.kind == "session" && Known(t, job.manifest.machineId, f))
              || (opens(f.sha) && rules.size(f.sha) == f.bytes
                  && (f.kind == "session" ==> exists p :: ParsesTo(rules, job.manifest.machineId, f, p)))
  {
    ReadableMeans(rules, job.manifest.machineId, f);
    hide Readable, Known, KnownSession, ParsesTo, IngestSession;
  }

  // ---- the tables after a file --------------------------------------------------------------

  /** New entries and messages are of parsed entries, column by column; messages are had exactly by those wanted. */
  ghost predicate EntriesTold(t: Tables, u: Tables, job: Job, sk: SessionKey, entries: seq<P.Entry>) {
    && (forall k :: k in u.entries && k !in t.entries ==>
          k.session == sk && exists e :: e in entries && e.id == k.entry && EntryTold(u.entries[k], job, e))
    && (forall k :: k in u.messages && k !in t.messages ==> k.session == sk && MessageOf(u, job, k, entries))
    && (forall e :: e in entries && StoredAs(u, sk, e) && MessageWanted(e, job.manifest.policy.indexToolOutput) ==>
          EntryKey(sk, e.id) in u.messages)
  }

  ghost predicate MessageOf(u: Tables, job: Job, k: EntryKey, entries: seq<P.Entry>)
    requires k in u.messages
  {
    exists e :: e in entries && e.id == k.entry && MessageTold(u.messages[k], job, k.session.source, e)
                && MessageWanted(e, job.manifest.policy.indexToolOutput)
  }

  lemma {:induction false} EntriesAreTold(t: Tables, job: Job, sk: SessionKey, entries: seq<P.Entry>)
    requires Agree(t) && Rooted(t) && sk in t.sessions
    ensures EntriesTold(t, IngestEntries(t, job, sk, entries), job, sk, entries)
  {
    hide Agree, Rooted, IngestEntry, SameOtherwise, MessageWanted, EntryTold, MessageTold, StoredAs, MessageOf, AllDone;
    if |entries| > 0 {
      var n := |entries| - 1;
      var mid, u := IngestEntries(t, job, sk, entries[..n]), IngestEntries(t, job, sk, entries);
      EntriesAreTold(t, job, sk, entries[..n]);
      EntriesKeep(t, job, sk, entries[..n]);
      EntryKeeps(mid, job, sk, entries[n]);
      NewRowsTold(mid, job, sk, entries[n]);
      RowsStayTold(t, mid, u, job, sk, entries);
      WantedStayTold(t, mid, u, job, sk, entries);
    }
  }

  lemma WantedStayTold(t: Tables, mid: Tables, u: Tables, job: Job, sk: SessionKey, entries: seq<P.Entry>)
    requires |entries| > 0 && Extends(mid, u) && Agree(u)
    requires EntriesTold(t, mid, job, sk, entries[..|entries| - 1])
    requires AllDone(mid, sk, entries[..|entries| - 1], job.manifest.policy.indexToolOutput)
    requires var e := entries[|entries| - 1];
             StoredAs(u, sk, e) && MessageWanted(e, job.manifest.policy.indexToolOutput) ==>
               EntryKey(sk, e.id) in u.messages
    ensures forall e :: e in entries && StoredAs(u, sk, e) && MessageWanted(e, job.manifest.policy.indexToolOutput) ==>
              EntryKey(sk, e.id) in u.messages
  {
    hide Agree, Done, MessageWanted, EntryTold, MessageOf, StoredAs;
    var n := |entries| - 1;
    forall e | e in entries && StoredAs(u, sk, e) && MessageWanted(e, job.manifest.policy.indexToolOutput)
      ensures EntryKey(sk, e.id) in u.messages
    {
      if e in entries[..n] {
        var k :| 0 <= k < n && entries[..n][k] == e;
        assert Done(mid, sk, entries[..n][k], job.manifest.policy.indexToolOutput);
        DoneStays(mid, u, sk, e, job.manifest.policy.indexToolOutput);
      } else {
        assert e == entries[n];
      }
    }
  }

  /** One entry: its rows if new, and a message if it is stored and wanted. */
  lemma NewRowsTold(t: Tables, job: Job, sk: SessionKey, e: P.Entry)
    requires Agree(t) && Rooted(t) && sk in t.sessions
    ensures var k, u := EntryKey(sk, e.id), IngestEntry(t, job, sk, e);
            && (forall o :: o in u.entries && o !in t.entries ==> o == k && EntryTold(u.entries[o], job, e))
            && (forall o :: o in u.messages && o !in t.messages ==>
                  o == k && MessageTold(u.messages[o], job, sk.source, e)
                  && MessageWanted(e, job.manifest.policy.indexToolOutput))
            && (StoredAs(u, sk, e) && MessageWanted(e, job.manifest.policy.indexToolOutput) ==> k in u.messages)
  {
    hide Agree, Rooted, Contradicted, ShouldPersist, EntryRowOf, MessageRowOf, MessageWanted, EntryTold, MessageTold;
    EntryRowTold(job, e);
    MessageRowTold(job, sk.source, e);
    WantedTold(e, job.manifest.policy.indexToolOutput);
    if Contradicted(t, EntryKey(sk, e.id), e.raw).Some? { RefusedNotStored(t, sk, e); }
  }

  lemma RefusedNotStored(t: Tables, sk: SessionKey, e: P.Entry)
    requires Agree(t) && Contradicted(t, EntryKey(sk, e.id), e.raw).Some?
    ensures !StoredAs(t, sk, e)
  {
    if EntryKey(sk, e.id) in t.entries { StoredDecides(t, EntryKey(sk, e.id), e.raw); }
  }

  lemma RowsStayTold(t: Tables, mid: Tables, u: Tables, job: Job, sk: SessionKey, entries: seq<P.Entry>)
    requires |entries| > 0 && Extends(t, mid) && Extends(mid, u)
    requires EntriesTold(t, mid, job, sk, entries[..|entries| - 1])
    requires var e := entries[|entries| - 1];
             var k := EntryKey(sk, e.id);
             && (forall o :: o in u.entries && o !in mid.entries ==> o == k && EntryTold(u.entries[o], job, e))
             && (forall o :: o in u.messages && o !in mid.messages ==>
                   o == k && MessageTold(u.messages[o], job, sk.source, e)
                   && MessageWanted(e, job.manifest.policy.indexToolOutput))
    ensures forall k :: k in u.entries && k !in t.entries ==>
              k.session == sk && exists e :: e in entries && e.id == k.entry && EntryTold(u.entries[k], job, e)
    ensures forall k :: k in u.messages && k !in t.messages ==> k.session == sk && MessageOf(u, job, k, entries)
  {
    hide EntryTold, MessageTold, MessageWanted;
    var n := |entries| - 1;
    assert entries[n] in entries && forall e :: e in entries[..n] ==> e in entries;
    forall k | k in u.messages && k !in t.messages ensures k.session == sk && MessageOf(u, job, k, entries) {
      if k in mid.messages {
        assert MessageOf(mid, job, k, entries[..n]);
      }
    }
  }

  /** Only entries stored with their own content are paired, all of them, in transcript order. */
  lemma {:induction false} AcceptedMeans(t: Tables, sk: SessionKey, entries: seq<P.Entry>, e: P.Entry)
    ensures e in Accepted(t, sk, entries) <==>
              e in entries && EntryKey(sk, e.id) in t.entries && t.entries[EntryKey(sk, e.id)].sha == e.raw
  {
    if |entries| > 0 {
      var n := |entries| - 1;
      AcceptedMeans(t, sk, entries[..n], e);
      assert e in entries <==> e in entries[..n] || e == entries[n];
    }
  }

  lemma {:induction false} AcceptedInOrder(t: Tables, sk: SessionKey, entries: seq<P.Entry>, i: nat, j: nat)
    returns (a: nat, b: nat)
    requires i < j < |Accepted(t, sk, entries)|
    ensures a < b < |entries|
    ensures entries[a] == Accepted(t, sk, entries)[i] && entries[b] == Accepted(t, sk, entries)[j]
  {
    var n := |entries| - 1;
    var front := Accepted(t, sk, entries[..n]);
    if j < |front| {
      a, b := AcceptedInOrder(t, sk, entries[..n], i, j);
    } else {
      AcceptedMeans(t, sk, entries[..n], front[i]);
      assert front[i] in entries[..n];
      a :| 0 <= a < n && entries[..n][a] == front[i];
      b := n;
    }
  }

  /** New tool rows are of observed invocations, and each of those has its row. */
  ghost predicate ToolsTold(before: seq<ToolRow>, after: seq<ToolRow>, rules: Rules, job: Job, sk: SessionKey,
                            project: string, invs: seq<P.Invocation>)
  {
    && (forall r :: r in after && r !in before ==>
          exists i :: i in invs && i.observed && ToolTold(r, rules, job, sk, project, i))
    && (forall i :: i in invs && i.observed ==> HasTool(after, sk, i))
  }

  lemma {:induction false} ToolsAreTold(tools: seq<ToolRow>, rules: Rules, job: Job, sk: SessionKey, project: string,
                                        invs: seq<P.Invocation>)
    ensures ToolsTold(tools, InsertTools(tools, rules, job, sk, project, invs), rules, job, sk, project, invs)
  {
    hide InsertTools, HasTool, ToolTold, ToolRowOf;
    ToolsKeep(tools, rules, job, sk, project, invs);
    if |invs| == 0 {
      NoneInserted(tools, rules, job, sk, project);
    } else {
      var n := |invs| - 1;
      ToolsAreTold(tools, rules, job, sk, project, invs[..n]);
      InsertToolsNext(tools, rules, job, sk, project, invs);
      ToolRowTold(rules, job, sk, project, invs[n]);
      assert invs[n] in invs && forall i :: i in invs[..n] ==> i in invs;
    }
  }

  lemma NoneInserted(tools: seq<ToolRow>, rules: Rules, job: Job, sk: SessionKey, project: string)
    ensures InsertTools(tools, rules, job, sk, project, []) == tools
  {
  }

  /** A session's row is of the file it was first met in. */
  ghost predicate SessionsTold(before: map<SessionKey, SessionRow>, after: map<SessionKey, SessionRow>, rules: Rules,
                               job: Job, f: File, p: Parsed, sk: SessionKey)
  {
    && sk in after && (sk !in before ==> SessionTold(after[sk], rules, job, f, p))
    && (forall s :: s in before ==> s in after && after[s] == before[s])
  }

  lemma SessionsAreTold(before: map<SessionKey, SessionRow>, rules: Rules, job: Job, f: File, p: Parsed, sk: SessionKey)
    ensures SessionsTold(before, Put(before, sk, SessionRowOf(rules, job, f, p)), rules, job, f, p, sk)
  {
    SessionRowTold(rules, job, f, p);
    hide SessionTold, SessionRowOf;
  }

  ghost predicate FileProjected(t: Tables, u: Tables, rules: Rules, job: Job, f: File, p: Parsed) {
    var sk := SessionOf(job.manifest.machineId, f, p);
    && SessionsTold(t.sessions, u.sessions, rules, job, f, p, sk)
    && EntriesTold(t, u, job, sk, p.entries)
    && var project := rules.project(if p.cwd != "" then p.cwd else f.cwd);
       ToolsTold(t.tools, u.tools, rules, job, sk, project, P.Paired(rules.naming, Accepted(u, sk, p.entries)))
  }

  /** Which step writes what. */
  lemma FileSteps(t: Tables, rules: Rules, job: Job, f: File) returns (begun: Tables)
    requires Agree(t) && Rooted(t) && Readable(rules, job.manifest.machineId, f)
    ensures var p := rules.parse(InputOf(f)).value;
            var sk := SessionOf(job.manifest.machineId, f, p);
            var mid, u := IngestEntries(begun, job, sk, p.entries), IngestSession(t, rules, job, f);
            && Agree(begun) && Rooted(begun) && sk in begun.sessions
            && begun.entries == t.entries && begun.messages == t.messages
            && u.sessions == Put(t.sessions, sk, SessionRowOf(rules, job, f, p))
            && u.entries == mid.entries && u.messages == mid.messages
            && u.tools == InsertTools(t.tools, rules, job, sk, rules.project(FirstNonEmpty(p.cwd, f.cwd)),
                                      P.Paired(rules.naming, Accepted(u, sk, p.entries)))
  {
    var p := rules.parse(InputOf(f)).value;
    hide Readable, SessionOf, IngestEntries, InsertTools, SessionRowOf, Accepted, Agree, Rooted, P.Paired, Put;
    hide EpisodesStored, Extends;
    var sk := SessionOf(job.manifest.machineId, f, p);
    begun := AddVersion(t.(sessions := Put(t.sessions, sk, SessionRowOf(rules, job, f, p))), job, sk, f);
    BeginKeeps(t, rules, job, f, p);
    EntriesFrame(begun, job, sk, p.entries);
    AcceptedNeedsEntries(WithEntries(t, rules, job, f, p), IngestSession(t, rules, job, f), sk, p.entries);
  }

  /** Everything a session file adds to the tables it is projected into. */
  lemma FileTold(t: Tables, rules: Rules, job: Job, f: File)
    requires Agree(t) && Rooted(t) && Readable(rules, job.manifest.machineId, f)
    ensures FileProjected(t, IngestSession(t, rules, job, f), rules, job, f, rules.parse(InputOf(f)).value)
  {
    var p := rules.parse(InputOf(f)).value;
    hide Readable, SessionOf, IngestEntries, InsertTools, SessionRowOf, Accepted, Agree, Rooted, P.Paired;
    hide ToolsTold, EntriesTold, SessionsTold, IngestSession, Put;
    var begun := FileSteps(t, rules, job, f);
    var sk := SessionOf(job.manifest.machineId, f, p);
    EntriesAreTold(begun, job, sk, p.entries);
    SessionsAreTold(t.sessions, rules, job, f, p, sk);
    var u := IngestSession(t, rules, job, f);
    SameTold(begun, IngestEntries(begun, job, sk, p.entries), t, u, job, sk, p.entries);
    ToolsAreTold(t.tools, rules, job, sk, rules.project(FirstNonEmpty(p.cwd, f.cwd)),
                 P.Paired(rules.naming, Accepted(u, sk, p.entries)));
  }

  lemma SameTold(t: Tables, u: Tables, v: Tables, w: Tables, job: Job, sk: SessionKey, entries: seq<P.Entry>)
    requires t.entries == v.entries && t.messages == v.messages && u.entries == w.entries && u.messages == w.messages
    requires EntriesTold(t, u, job, sk, entries)
    ensures EntriesTold(v, w, job, sk, entries)
  {
    hide EntryTold, MessageTold, MessageWanted;
    forall k | k in w.messages && k !in v.messages ensures MessageOf(w, job, k, entries) {
      assert MessageOf(u, job, k, entries);
    }
    assert forall e :: StoredAs(u, sk, e) <==> StoredAs(w, sk, e);
  }

  // ---- the attempt and the snapshot ------------------------------------------------------------

  /** Nothing but conflicts, rows and episodes. */
  ghost predicate SameNotes(t: Tables, u: Tables) { u.attempts == t.attempts && u.snapshots == t.snapshots }

  lemma {:induction false} EntriesNoteNothing(t: Tables, job: Job, sk: SessionKey, entries: seq<P.Entry>)
    ensures SameNotes(t, IngestEntries(t, job, sk, entries))
  {
    hide Contradicted, EntryRowOf, MessageRowOf, ShouldPersist;
    if |entries| > 0 { EntriesNoteNothing(t, job, sk, entries[..|entries| - 1]); }
  }

  lemma FileNotesNothing(t: Tables, rules: Rules, job: Job, opens: string -> bool, f: File)
    ensures var u := IngestFile(t, rules, job, opens, f); u.Some? ==> SameNotes(t, u.value)
  {
    hide Known, KnownSession, IngestEntries, InsertTools, EpisodesStored, SessionRowOf, SessionOf, Blank;
    var machine := job.manifest.machineId;
    if f.kind == "session" && !Known(t, machine, f) && Readable(rules, machine, f) {
      var p := rules.parse(InputOf(f)).value;
      var sk := SessionOf(machine, f, p);
      EntriesNoteNothing(AddVersion(t.(sessions := Put(t.sessions, sk, SessionRowOf(rules, job, f, p))), job, sk, f),
                         job, sk, p.entries);
      SessionNotes(t, rules, job, f);
    }
  }

  lemma SessionNotes(t: Tables, rules: Rules, job: Job, f: File)
    requires Readable(rules, job.manifest.machineId, f)
    ensures var p := rules.parse(InputOf(f)).value;
            SameNotes(WithEntries(t, rules, job, f, p), IngestSession(t, rules, job, f))
  {
    hide Readable, IngestEntries, InsertTools, EpisodesStored, SessionRowOf, SessionOf;
  }

  lemma {:induction false} FilesNoteNothing(t: Tables, rules: Rules, job: Job, opens: string -> bool, files: seq<File>)
    ensures var u := IngestFiles(t, rules, job, opens, files); u.Some? ==> SameNotes(t, u.value)
  {
    hide IngestFile;
    if |files| > 0 {
      var n := |files| - 1;
      FilesNoteNothing(t, rules, job, opens, files[..n]);
      var mid := IngestFiles(t, rules, job, opens, files[..n]);
      if mid.Some? { FileNotesNothing(mid.value, rules, job, opens, files[n]); }
    }
  }

  /** Every ingest that succeeds leaves one attempt, marked a duplicate exactly if the snapshot was there. */
  lemma SnapshotNoted(t: Tables, rules: Rules, job: Job, opens: string -> bool)
    ensures var u := IngestSnapshot(t, rules, job, opens);
            u.Some? ==>
              && u.value.attempts == t.attempts + [Attempt(job.manifest, job.manifest in t.snapshots)]
              && u.value.snapshots == t.snapshots + {job.manifest}
              && (job.manifest in t.snapshots ==> u.value == t.(attempts := u.value.attempts))
  {
    hide IngestFiles;
    var dup := job.manifest in t.snapshots;
    var begun := t.(attempts := t.attempts + [Attempt(job.manifest, dup)]);
    FilesNoteNothing(begun.(snapshots := t.snapshots + {job.manifest}), rules, job, opens, job.manifest.files);
  }
}
