/** Nothing a Workspace projects has bypassed the redactor: not entries or messages, nor what is derived of them. */
module Redaction {
  import opened Order
  import opened Manifests
  import opened Options
  import opened Episodes
  import opened Workspace
  import opened Projection
  import P = Pairing

  /** This redactor's output, and the fixed fallback signatures, are clean. */
  ghost predicate Cleans(job: Job, clean: string -> bool) { Scrubs(job.scrub, clean) }

  ghost predicate Scrubs(scrub: string -> string, clean: string -> bool) {
    && clean("") && (forall text :: text != "" ==> clean(scrub(text)))
    && clean("tool_error") && (forall n :: clean("exit_code:" + Decimal(n)))
  }

  predicate CleanTool(r: ToolRow, clean: string -> bool) {
    clean(r.family) && clean(r.command) && clean(r.signature) && clean(r.outcome)
  }

  predicate CleanEpisode(e: Episode, clean: string -> bool) {
    && clean(e.family) && clean(e.signature)
    && (e.resolution.Some? ==> forall k :: 0 <= k < |e.resolution.value.path| ==> clean(e.resolution.value.path[k]))
  }

  ghost predicate CleanRows(t: Tables, clean: string -> bool) {
    && (forall k :: k in t.sessions ==> clean(t.sessions[k].metadata))
    && (forall k :: k in t.entries ==> CleanEntry(t.entries[k], clean))
    && (forall k :: k in t.messages ==> CleanMessage(t.messages[k], clean))
    && (forall r :: r in t.tools ==> CleanTool(r, clean))
  }

  ghost predicate Redacted(t: Tables, clean: string -> bool) {
    && CleanRows(t, clean)
    && (forall sk, e :: sk in t.episodes && e in t.episodes[sk] ==> CleanEpisode(e, clean))
  }

  lemma ScrubbedIsClean(job: Job, text: string, clean: string -> bool)
    requires Cleans(job, clean)
    ensures clean(Scrubbed(job, text))
  {
  }

  predicate CleanEntry(r: EntryRow, clean: string -> bool) { clean(r.raw) && clean(r.metadata) }

  predicate CleanMessage(m: MessageRow, clean: string -> bool) { clean(m.text) && clean(m.command) && clean(m.files) }

  lemma RowsAreClean(job: Job, source: string, e: P.Entry, clean: string -> bool)
    requires Cleans(job, clean)
    ensures CleanEntry(EntryRowOf(job, e), clean) && CleanMessage(MessageRowOf(job, source, e), clean)
  {
    hide ShouldIndexText, Cleans, Scrubbed;
    ScrubbedIsClean(job, e.raw, clean);
    ScrubbedIsClean(job, e.metadata, clean);
    ScrubbedIsClean(job, e.text, clean);
    ScrubbedIsClean(job, e.command, clean);
    ScrubbedIsClean(job, e.files, clean);
    EmptyIsClean(job, clean);
  }

  lemma EntryStaysClean(t: Tables, job: Job, sk: SessionKey, e: P.Entry, clean: string -> bool)
    requires CleanRows(t, clean) && Cleans(job, clean)
    ensures CleanRows(IngestEntry(t, job, sk, e), clean)
  {
    hide Contradicted, ShouldPersist, Cleans, EntryRowOf, MessageRowOf, CleanTool, CleanEntry, CleanMessage;
    RowsAreClean(job, sk.source, e, clean);
  }

  lemma EmptyIsClean(job: Job, clean: string -> bool)
    requires Cleans(job, clean)
    ensures clean("")
  {
  }

  lemma {:induction false} EntriesStayClean(t: Tables, job: Job, sk: SessionKey, entries: seq<P.Entry>,
                                            clean: string -> bool)
    requires CleanRows(t, clean) && Cleans(job, clean)
    ensures CleanRows(IngestEntries(t, job, sk, entries), clean)
  {
    hide CleanRows, Cleans, IngestEntry;
    if |entries| > 0 {
      var n := |entries| - 1;
      EntriesStayClean(t, job, sk, entries[..n], clean);
      EntryStaysClean(IngestEntries(t, job, sk, entries[..n]), job, sk, entries[n], clean);
    }
  }

  lemma ToolRowIsClean(rules: Rules, job: Job, sk: SessionKey, project: string, i: P.Invocation, clean: string -> bool)
    requires Cleans(job, clean)
    ensures CleanTool(ToolRowOf(rules, job, sk, project, i), clean)
  {
    ScrubbedIsClean(job, i.family, clean);
    ScrubbedIsClean(job, i.command, clean);
    ScrubbedIsClean(job, rules.naming.signature(Scrubbed(job, i.text)), clean);
  }

  lemma {:induction false} ToolsStayClean(tools: seq<ToolRow>, rules: Rules, job: Job, sk: SessionKey, project: string,
                                          invs: seq<P.Invocation>, clean: string -> bool)
    requires Cleans(job, clean) && forall r :: r in tools ==> CleanTool(r, clean)
    ensures forall r :: r in InsertTools(tools, rules, job, sk, project, invs) ==> CleanTool(r, clean)
  {
    hide Cleans, CleanTool, ToolRowOf, HasTool;
    if |invs| > 0 {
      ToolsStayClean(tools, rules, job, sk, project, invs[..|invs| - 1], clean);
      InsertToolsNext(tools, rules, job, sk, project, invs);
      ToolRowIsClean(rules, job, sk, project, invs[|invs| - 1], clean);
    }
  }

  // ---- episodes are made of stored rows -----------------------------------------------------

  ghost predicate CleanCalls(rows: seq<Row>, clean: string -> bool) {
    forall r :: r in rows ==> clean(r.family) && clean(r.signature)
  }

  lemma {:induction false} CallsAreClean(tools: seq<ToolRow>, entries: map<EntryKey, EntryRow>, rules: Rules,
                                         sk: SessionKey, clean: string -> bool)
    requires forall r :: r in tools ==> CleanTool(r, clean)
    ensures CleanCalls(CallRows(tools, entries, rules, sk), clean)
  {
    if |tools| > 0 {
      var n := |tools| - 1;
      CallsAreClean(tools[..n], entries, rules, sk, clean);
      assert tools[n] in tools && CleanTool(tools[n], clean);
    }
  }

  lemma ScannedAreClean(s: seq<Row>, cfg: Config, clean: string -> bool)
    requires CleanCalls(s, clean)
    ensures forall e :: e in EpisodesOf(s, cfg) ==> CleanEpisode(e, clean)
  {
    hide FirstCandidate;
    assert forall i :: 0 <= i < |s| ==> s[i] in s;
    forall k | 0 <= k < |EpisodesOf(s, cfg)| ensures CleanEpisode(EpisodesOf(s, cfg)[k], clean) {
      var i := Openers(s, |s|)[k];
      assert EpisodesOf(s, cfg)[k] == EpisodeBy(s, cfg, i, |s|);
    }
  }

  lemma {:induction false} KeptMembers(eps: seq<Episode>)
    ensures forall e :: e in Kept(eps) ==> e in eps
  {
    if |eps| > 0 { KeptMembers(eps[..|eps| - 1]); }
  }

  lemma StoredAreClean(t: Tables, rules: Rules, sk: SessionKey, clean: string -> bool)
    requires CleanRows(t, clean)
    ensures forall e :: e in EpisodesStored(t, rules, sk) ==> CleanEpisode(e, clean)
  {
    hide CleanTool, CleanEpisode, EpisodesOf, SortBy, Kept, CallRows, Before, ByOpening;
    var rows := CallRows(t.tools, t.entries, rules, sk);
    CallsAreClean(t.tools, t.entries, rules, sk, clean);
    SortByMembers(rows, Before);
    var scanned := EpisodesOf(SortBy(rows, Before), DEFAULT_CONFIG);
    ScannedAreClean(SortBy(rows, Before), DEFAULT_CONFIG, clean);
    SortByMembers(scanned, ByOpening);
    KeptMembers(SortBy(scanned, ByOpening));
  }

  // ---- files, snapshots, runs -------------------------------------------------------------------

  lemma SessionStaysClean(t: Tables, rules: Rules, job: Job, f: File, clean: string -> bool)
    requires Redacted(t, clean) && Cleans(job, clean) && Readable(rules, job.manifest.machineId, f)
    ensures Redacted(IngestSession(t, rules, job, f), clean)
  {
    var p := rules.parse(InputOf(f)).value;
    var sk := SessionOf(job.manifest.machineId, f, p);
    hide Readable, SessionOf, InsertTools, Accepted, P.Paired, EpisodesStored;
    hide Cleans, CleanRows, CleanEpisode, WithEntries;
    var mid := WithEntries(t, rules, job, f, p);
    EntriesStep(t, rules, job, f, p, clean);
    ToolsStep(mid, rules, job, f, p, clean);
    var u := WithTools(mid, rules, job, f, p);
    StoredAreClean(u, rules, sk, clean);
    EpisodesBearNothing(u, WithEpisodes(u, rules, sk), clean);
  }

  lemma EntriesStep(t: Tables, rules: Rules, job: Job, f: File, p: Parsed, clean: string -> bool)
    requires CleanRows(t, clean) && Cleans(job, clean)
    ensures var u := WithEntries(t, rules, job, f, p); CleanRows(u, clean) && u.episodes == t.episodes
  {
    hide SessionOf, IngestEntries, Cleans, Scrubbed, CleanTool, CleanEntry, CleanMessage;
    var sk := SessionOf(job.manifest.machineId, f, p);
    var begun := AddVersion(t.(sessions := Put(t.sessions, sk, SessionRowOf(rules, job, f, p))), job, sk, f);
    ScrubbedIsClean(job, p.metadata, clean);
    EntriesStayClean(begun, job, sk, p.entries, clean);
    EntriesFrame(begun, job, sk, p.entries);
  }

  lemma ToolsStep(t: Tables, rules: Rules, job: Job, f: File, p: Parsed, clean: string -> bool)
    requires CleanRows(t, clean) && Cleans(job, clean)
    ensures CleanRows(WithTools(t, rules, job, f, p), clean)
  {
    hide SessionOf, InsertTools, Accepted, P.Paired, Cleans, CleanTool, CleanEntry, CleanMessage;
    var sk := SessionOf(job.manifest.machineId, f, p);
    ToolsStayClean(t.tools, rules, job, sk, rules.project(FirstNonEmpty(p.cwd, f.cwd)),
                   P.Paired(rules.naming, Accepted(t, sk, p.entries)), clean);
  }

  lemma EpisodesBearNothing(t: Tables, u: Tables, clean: string -> bool)
    requires CleanRows(t, clean) && u == t.(episodes := u.episodes)
    ensures CleanRows(u, clean)
  {
    hide CleanTool, CleanEntry, CleanMessage;
  }

  lemma {:induction false} FilesStayClean(t: Tables, rules: Rules, job: Job, opens: string -> bool, files: seq<File>,
                                          clean: string -> bool)
    requires Redacted(t, clean) && Cleans(job, clean)
    ensures IngestFiles(t, rules, job, opens, files).Some? ==>
            Redacted(IngestFiles(t, rules, job, opens, files).value, clean)
  {
    hide Redacted, Cleans, IngestFile;
    if |files| > 0 {
      var n := |files| - 1;
      FilesStayClean(t, rules, job, opens, files[..n], clean);
      var rest := IngestFiles(t, rules, job, opens, files[..n]);
      if rest.Some? { FileStaysClean(rest.value, rules, job, opens, files[n], clean); }
    }
  }

  lemma FileStaysClean(t: Tables, rules: Rules, job: Job, opens: string -> bool, f: File, clean: string -> bool)
    requires Redacted(t, clean) && Cleans(job, clean)
    ensures IngestFile(t, rules, job, opens, f).Some? ==> Redacted(IngestFile(t, rules, job, opens, f).value, clean)
  {
    hide Cleans, Known, KnownSession, Readable, IngestSession, CleanTool, CleanEpisode;
    if Readable(rules, job.manifest.machineId, f) { SessionStaysClean(t, rules, job, f, clean); }
  }

  /** Ingests whose redactors clean what they are given keep clean what is. */
  lemma {:induction false} RunStaysClean(t: Tables, rules: Rules, ingests: seq<Ingest>, clean: string -> bool)
    requires Redacted(t, clean) && forall k :: 0 <= k < |ingests| ==> Cleans(ingests[k].job, clean)
    ensures Redacted(RunFrom(t, rules, ingests), clean)
  {
    hide Cleans, IngestFiles, CleanTool, CleanEpisode, CleanEntry, CleanMessage;
    if |ingests| > 0 {
      var n := |ingests| - 1;
      RunStaysClean(t, rules, ingests[..n], clean);
      var mid, i := RunFrom(t, rules, ingests[..n]), ingests[n];
      var dup := i.job.manifest in mid.snapshots;
      var begun := mid.(attempts := mid.attempts + [Attempt(i.job.manifest, dup)]);
      FilesStayClean(begun.(snapshots := mid.snapshots + {i.job.manifest}), rules, i.job, i.opens, i.job.manifest.files,
                     clean);
    }
  }

  /** After any sequence of ingests whose redactors clean what they are given, every projected text is clean: raw
      entries, metadata, messages, commands, file lists, command families, error signatures and outcomes, and the
      families and paths of episodes, which are derived from stored rows and not from the transcript again. */
  lemma EverythingRedacted(rules: Rules, ingests: seq<Ingest>, clean: string -> bool)
    requires forall k :: 0 <= k < |ingests| ==> Cleans(ingests[k].job, clean)
    ensures Redacted(RunFrom(EMPTY, rules, ingests), clean)
  {
    assert Redacted(EMPTY, clean);
    RunStaysClean(EMPTY, rules, ingests, clean);
  }
}
