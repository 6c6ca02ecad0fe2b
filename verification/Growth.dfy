/** A session taken in while it grows: what two snapshots of it leave is what the later one alone would leave. */
module Growth {
  import opened Order
  import opened Namespaces
  import opened Manifests
  import opened Options
  import opened Episodes
  import opened Workspace
  import opened Projection
  import opened StoredEpisodes
  import P = Pairing

  /** Two ingests under one redactor and one tool-output policy, of one machine's snapshots. */
  ghost predicate Alike(i: Job, j: Job) {
    && i.manifest.machineId == j.manifest.machineId && i.scrub == j.scrub
    && i.manifest.policy.indexToolOutput == j.manifest.policy.indexToolOutput
  }

  // ---- entries and messages --------------------------------------------------------------------------

  predicate SameContent(t: Tables, u: Tables) { t.entries == u.entries && t.messages == u.messages }

  lemma EntryAlike(t: Tables, u: Tables, i: Job, j: Job, sk: SessionKey, e: P.Entry)
    requires Alike(i, j) && SameContent(t, u)
    ensures SameContent(IngestEntry(t, i, sk, e), IngestEntry(u, j, sk, e))
  {
    hide Contradicted, ShouldPersist, EntryRowOf, MessageRowOf, Alike, Put;
    ContradictionNeedsEntries(t, u, EntryKey(sk, e.id), e.raw);
    ColumnsAlike(i, j, sk.source, e);
    EntryContent(t, i, sk, e);
    EntryContent(u, j, sk, e);
    hide IngestEntry;
  }

  lemma EntryContent(t: Tables, job: Job, sk: SessionKey, e: P.Entry)
    ensures var k, u := EntryKey(sk, e.id), IngestEntry(t, job, sk, e);
            if Contradicted(t, k, e.raw).Some? then SameContent(u, t)
            else
              && u.entries == Put(t.entries, k, EntryRowOf(job, e))
              && u.messages == if ShouldPersist(e, job.manifest.policy.indexToolOutput)
                               then Put(t.messages, k, MessageRowOf(job, sk.source, e)) else t.messages
  {
    hide Contradicted, ShouldPersist, EntryRowOf, MessageRowOf, Put;
  }

  lemma ColumnsAlike(i: Job, j: Job, source: string, e: P.Entry)
    requires Alike(i, j)
    ensures EntryRowOf(i, e) == EntryRowOf(j, e) && MessageRowOf(i, source, e) == MessageRowOf(j, source, e)
    ensures i.manifest.policy.indexToolOutput == j.manifest.policy.indexToolOutput
  {
    hide ShouldIndexText;
  }

  lemma {:induction false} EntriesAlike(t: Tables, u: Tables, i: Job, j: Job, sk: SessionKey, entries: seq<P.Entry>)
    requires Alike(i, j) && SameContent(t, u)
    ensures SameContent(IngestEntries(t, i, sk, entries), IngestEntries(u, j, sk, entries))
  {
    hide SameContent, Alike, IngestEntry;
    if |entries| > 0 {
      var n := |entries| - 1;
      EntriesAlike(t, u, i, j, sk, entries[..n]);
      EntryAlike(IngestEntries(t, i, sk, entries[..n]), IngestEntries(u, j, sk, entries[..n]), i, j, sk, entries[n]);
    }
  }

  lemma {:induction false} EntriesAppend(t: Tables, job: Job, sk: SessionKey, a: seq<P.Entry>, b: seq<P.Entry>)
    ensures IngestEntries(t, job, sk, a + b) == IngestEntries(IngestEntries(t, job, sk, a), job, sk, b)
  {
    hide IngestEntry;
    if |b| == 0 {
      assert a + b == a;
    } else {
      assert (a + b)[..|a + b| - 1] == a + b[..|b| - 1];
      EntriesAppend(t, job, sk, a, b[..|b| - 1]);
    }
  }

  lemma {:induction false} AcceptedAppend(t: Tables, sk: SessionKey, a: seq<P.Entry>, b: seq<P.Entry>)
    ensures Accepted(t, sk, a + b) == Accepted(t, sk, a) + Accepted(t, sk, b)
  {
    hide StoredAs;
    if |b| == 0 {
      assert a + b == a;
    } else {
      assert (a + b)[..|a + b| - 1] == a + b[..|b| - 1];
      AcceptedAppend(t, sk, a, b[..|b| - 1]);
    }
  }

  /** Entries taken in twice, the second time with more behind them, are as if taken in once with the rest. */
  lemma EntriesGrow(t: Tables, u: Tables, v: Tables, i: Job, j: Job, sk: SessionKey, a: seq<P.Entry>, b: seq<P.Entry>)
    requires Alike(i, j) && Agree(t) && Rooted(t) && sk in t.sessions
    requires SameContent(u, IngestEntries(t, i, sk, a)) && SameContent(v, t)
    ensures SameContent(IngestEntries(u, j, sk, a + b), IngestEntries(v, j, sk, a + b))
  {
    hide Agree, Rooted, Done, IngestEntries;
    var indexOutput := j.manifest.policy.indexToolOutput;
    EntriesKeep(t, i, sk, a);
    DoneNeedsTables(IngestEntries(t, i, sk, a), u, sk, a, indexOutput);
    EntriesAgain(u, j, sk, a);
    EntriesAlike(t, v, i, j, sk, a);
    EntriesAppend(u, j, sk, a, b);
    EntriesAppend(v, j, sk, a, b);
    EntriesAlike(IngestEntries(u, j, sk, a), IngestEntries(v, j, sk, a), j, j, sk, b);
  }

  // ---- tool rows -------------------------------------------------------------------------------------

  lemma ToolKindTells(rules: Rules, job: Job, sk: SessionKey, project: string)
    ensures P.Tells(ToolKind(rules, job, sk, project))
  {
    hide StoredSignature, Scrubbed;
  }

  lemma {:induction false} ToolsAlike(tools: seq<ToolRow>, rules: Rules, i: Job, j: Job, sk: SessionKey,
                                      project: string,
                                      invs: seq<P.Invocation>)
    requires Alike(i, j)
    ensures InsertTools(tools, rules, i, sk, project, invs) == InsertTools(tools, rules, j, sk, project, invs)
  {
    hide InsertTools, HasTool;
    if |invs| == 0 {
      NoTools(tools, rules, i, sk, project);
      NoTools(tools, rules, j, sk, project);
    } else {
      ToolsAlike(tools, rules, i, j, sk, project, invs[..|invs| - 1]);
      InsertToolsNext(tools, rules, i, sk, project, invs);
      InsertToolsNext(tools, rules, j, sk, project, invs);
      RowsAlike(rules, i, j, sk, project, invs[|invs| - 1]);
    }
  }

  lemma NoTools(tools: seq<ToolRow>, rules: Rules, job: Job, sk: SessionKey, project: string)
    ensures InsertTools(tools, rules, job, sk, project, []) == tools
  {
  }

  lemma RowsAlike(rules: Rules, i: Job, j: Job, sk: SessionKey, project: string, inv: P.Invocation)
    requires Alike(i, j)
    ensures ToolRowOf(rules, i, sk, project, inv) == ToolRowOf(rules, j, sk, project, inv)
  {
    hide Blank, FallbackSignature;
  }

  /** The tool rows of two ingests of a session that grew in between are those of the later ingest alone: why
      insert-or-ignore into an append-only table loses no outcome. */
  lemma GrowingSessionsStoreTheSame(rules: Rules, i: Job, j: Job, sk: SessionKey, project: string, tools: seq<ToolRow>,
                                    entries: seq<P.Entry>, more: seq<P.Entry>, row: ToolRow)
    requires Alike(i, j) && P.Numbered(entries + more)
    ensures var a, b := P.Paired(rules.naming, entries), P.Paired(rules.naming, entries + more);
            row in InsertTools(InsertTools(tools, rules, i, sk, project, a), rules, j, sk, project, b)
            <==> row in InsertTools(tools, rules, j, sk, project, b)
  {
    hide P.Numbered, Alike;
    ToolsAlike(tools, rules, i, j, sk, project, P.Paired(rules.naming, entries));
    ToolKindTells(rules, j, sk, project);
    hide P.Paired, ToolKind;
    P.GrowingEqualsOnce(rules.naming, ToolKind(rules, j, sk, project), tools, entries, more, row);
  }

  /** Accepted entries with one id are the same raw entry, so their calls are numbered alike. */
  lemma AcceptedNumbered(t: Tables, rules: Rules, sk: SessionKey, x: ParseInput)
    requires Regular(rules) && rules.parse(x).Some?
    ensures P.Numbered(Accepted(t, sk, rules.parse(x).value.entries))
  {
    hide Accepted, P.SameCalls;
    var entries := rules.parse(x).value.entries;
    AcceptedAreStored(t, sk, entries);
    AcceptedAmong(t, sk, entries);
    var accepted := Accepted(t, sk, entries);
    forall e, f | e in accepted && f in accepted && e.id == f.id ensures P.SameCalls(e, f) {
      assert OneRaw(rules, x, e, x, f);
    }
  }

  // ---- episodes ----------------------------------------------------------------------------------------

  lemma OneEach(a: seq<Row>, b: seq<Row>)
    requires Keyed(a) && Keyed(b) && forall x :: x in a <==> x in b
    ensures multiset(a) == multiset(b)
  {
    DistinctMultiset(a);
    DistinctMultiset(b);
    forall x ensures multiset(a)[x] == multiset(b)[x] { assert x in a <==> x in multiset(a); }
  }

  /** Episodes depend on which calls are stored, not on the order they were stored in. */
  lemma EpisodesOfSameCalls(t: Tables, u: Tables, rules: Rules, sk: SessionKey)
    requires RowsSound(t, rules) && RowsSound(u, rules) && Regular(rules)
    requires t.entries == u.entries && forall r :: r in t.tools <==> r in u.tools
    ensures EpisodesStored(t, rules, sk) == EpisodesStored(u, rules, sk)
  {
    hide RowsSound, Regular, CallRows, Keyed, EpisodesOf, SortBy, Kept, Before, ByOpening, ReadsAs;
    CallsAreKeyed(t, rules, sk);
    CallsAreKeyed(u, rules, sk);
    forall x ensures x in Calls(t, rules, sk) <==> x in Calls(u, rules, sk) {
      CallRowsRead(t.tools, t.entries, rules, sk, x);
      CallRowsRead(u.tools, u.entries, rules, sk, x);
    }
    OneEach(Calls(t, rules, sk), Calls(u, rules, sk));
    ReadOrderIgnored(Calls(t, rules, sk), Calls(u, rules, sk), DEFAULT_CONFIG);
  }

  // ---- the whole session file ----------------------------------------------------------------------------

  function ParsedOf(rules: Rules, f: File): Parsed
    requires rules.parse(InputOf(f)).Some?
  {
    rules.parse(InputOf(f)).value
  }

  function ProjectOf(rules: Rules, f: File): string
    requires rules.parse(InputOf(f)).Some?
  {
    rules.project(FirstNonEmpty(ParsedOf(rules, f).cwd, f.cwd))
  }

  /** g is the same session's file, later: what f held, and more. */
  ghost predicate GrewTo(rules: Rules, machine: string, f: File, g: File) {
    && Readable(rules, machine, f) && Readable(rules, machine, g)
    && SessionOf(machine, f, ParsedOf(rules, f)) == SessionOf(machine, g, ParsedOf(rules, g))
    && ParsedOf(rules, f).entries <= ParsedOf(rules, g).entries
    && ProjectOf(rules, f) == ProjectOf(rules, g)
  }

  /** The tables with a session file's session and version rows. */
  ghost function Begun(t: Tables, rules: Rules, job: Job, f: File, sk: SessionKey): Tables
    requires rules.parse(InputOf(f)).Some?
  {
    AddVersion(t.(sessions := Put(t.sessions, sk, SessionRowOf(rules, job, f, ParsedOf(rules, f)))), job, sk, f)
  }

  /** What a session file adds, step by step. */
  lemma SessionSteps(t: Tables, rules: Rules, job: Job, f: File)
    requires Agree(t) && Rooted(t) && RowsSound(t, rules) && Readable(rules, job.manifest.machineId, f)
    ensures var p := ParsedOf(rules, f);
            var sk := SessionOf(job.manifest.machineId, f, p);
            var begun, u := Begun(t, rules, job, f, sk), IngestSession(t, rules, job, f);
            var mid := IngestEntries(begun, job, sk, p.entries);
            && SameContent(begun, t) && SameContent(u, mid) && Agree(begun) && Rooted(begun) && sk in begun.sessions
            && u.tools == InsertTools(t.tools, rules, job, sk, ProjectOf(rules, f),
                                      P.Paired(rules.naming, Accepted(u, sk, p.entries)))
            && Agree(u) && Rooted(u) && RowsSound(u, rules) && Extends(t, u)
            && AllDone(u, sk, p.entries, job.manifest.policy.indexToolOutput)
            && u.episodes == t.episodes[sk := EpisodesStored(u, rules, sk)]
  {
    var p := ParsedOf(rules, f);
    var sk := SessionOf(job.manifest.machineId, f, p);
    hide Readable, SessionOf, InsertTools, SessionRowOf, Accepted, Agree, Rooted, RowsSound, Done, HasTool, P.Paired;
    hide EpisodesStored, Extends, IngestEntries;
    var begun, u := Begun(t, rules, job, f, sk), IngestSession(t, rules, job, f);
    var mid := WithEntries(t, rules, job, f, p);
    var filed := WithTools(mid, rules, job, f, p);
    BeginKeeps(t, rules, job, f, p);
    EntriesFrame(begun, job, sk, p.entries);
    EntriesAndToolsKeep(t, rules, job, f);
    OnlyEpisodesDiffer(t, filed, u, rules, job.manifest.policy.indexToolOutput, job.manifest.machineId, f);
    AcceptedNeedsEntries(mid, u, sk, p.entries);
    EpisodesNeedCalls(filed, u, rules, sk);
  }

  lemma AcceptedGrow(a: Tables, u: Tables, rules: Rules, sk: SessionKey, entries: seq<P.Entry>, x: ParseInput,
                     indexOutput: bool)
    requires Regular(rules) && rules.parse(x).Some? && entries <= rules.parse(x).value.entries
    requires Extends(a, u) && Agree(u) && AllDone(a, sk, entries, indexOutput)
    ensures var all := Accepted(u, sk, rules.parse(x).value.entries);
            Accepted(a, sk, entries) <= all && P.Numbered(all)
  {
    hide Extends, Agree, AllDone, Accepted, P.Numbered, Regular;
    var all := rules.parse(x).value.entries;
    AcceptedStays(a, u, sk, entries, indexOutput);
    assert entries + all[|entries|..] == all;
    AcceptedAppend(u, sk, entries, all[|entries|..]);
    AcceptedNumbered(u, rules, sk, x);
  }

  lemma ToolsGrow(rules: Rules, i: Job, j: Job, sk: SessionKey, project: string, tools: seq<ToolRow>,
                  entries: seq<P.Entry>, all: seq<P.Entry>)
    requires Alike(i, j) && entries <= all && P.Numbered(all)
    ensures var a, b := P.Paired(rules.naming, entries), P.Paired(rules.naming, all);
            forall r :: r in InsertTools(InsertTools(tools, rules, i, sk, project, a), rules, j, sk, project, b)
                        <==> r in InsertTools(tools, rules, j, sk, project, b)
  {
    hide Alike, P.Numbered, InsertTools, P.Paired;
    var more := all[|entries|..];
    assert entries + more == all;
    forall r { GrowingSessionsStoreTheSame(rules, i, j, sk, project, tools, entries, more, r); }
  }

  /** In any state reached by ingesting: taking in a session's file and later the file it grew to leaves the
      entries, messages, tool invocations and episodes that taking in the grown file alone would have left. */
  lemma GrownEqualsOnce(t: Tables, rules: Rules, ok: Provenance, i: Job, j: Job, f: File, g: File)
    requires Projection.Sound(t, rules, ok) && Regular(rules)
    requires Alike(i, j) && GrewTo(rules, i.manifest.machineId, f, g)
    ensures var twice := IngestSession(IngestSession(t, rules, i, f), rules, j, g);
            var once := IngestSession(t, rules, j, g);
            && twice.entries == once.entries && twice.messages == once.messages
            && (forall r :: r in twice.tools <==> r in once.tools)
            && twice.episodes == once.episodes
  {
    hide Readable, SessionOf, InsertTools, Accepted, Agree, Rooted, RowsSound, AllDone, P.Paired, P.Numbered, Regular;
    hide EpisodesStored, Extends, IngestEntries, Begun, IngestSession, Current, Backed, OneSession, ProjectOf;
    var a := IngestSession(t, rules, i, f);
    var twice, once := IngestSession(a, rules, j, g), IngestSession(t, rules, j, g);
    ReadableParses(rules, i.manifest.machineId, f);
    ReadableParses(rules, i.manifest.machineId, g);
    var p, q := ParsedOf(rules, f), ParsedOf(rules, g);
    var sk := SessionOf(i.manifest.machineId, f, p);
    SessionSteps(t, rules, i, f);
    SessionSteps(a, rules, j, g);
    SessionSteps(t, rules, j, g);
    var more := q.entries[|p.entries|..];
    assert p.entries + more == q.entries;
    EntriesGrow(Begun(t, rules, i, f, sk), Begun(a, rules, j, g, sk), Begun(t, rules, j, g, sk), i, j, sk, p.entries,
                more);
    AcceptedNeedsEntries(twice, once, sk, q.entries);
    AcceptedGrow(a, twice, rules, sk, p.entries, InputOf(g), i.manifest.policy.indexToolOutput);
    ToolsGrow(rules, i, j, sk, ProjectOf(rules, g), t.tools, Accepted(a, sk, p.entries),
              Accepted(twice, sk, q.entries));
    EpisodesOfSameCalls(twice, once, rules, sk);
  }
}
