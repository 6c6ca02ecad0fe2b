/** The writer: one snapshot into the Workspace tables, in one transaction. */
module Ingestion {
  import opened Order
  import opened Namespaces
  import opened Manifests
  import opened Options
  import opened Episodes
  import opened Workspace
  import opened Projection
  import P = Pairing
  import Refs

  /** The hashes a session's entries are stored with. */
  ghost predicate Existing(t: Tables, sk: SessionKey, m: map<string, string>) {
    forall id :: if EntryKey(sk, id) in t.entries then id in m && m[id] == t.entries[EntryKey(sk, id)].sha else id !in m
  }

  /** The hashes other machines hold for the same source session. */
  ghost predicate Across(t: Tables, sk: SessionKey, m: map<string, seq<string>>) {
    && (forall id, h :: id in m && h in m[id] ==>
        exists o :: o in t.entries && Rivals(o, EntryKey(sk, id)) && t.entries[o].sha == h)
    && (forall o, id :: o in t.entries && Rivals(o, EntryKey(sk, id)) ==> id in m && t.entries[o].sha in m[id])
  }

  /** Entries of this session alone do not change what other machines hold. */
  lemma AcrossKept(t: Tables, u: Tables, sk: SessionKey, m: map<string, seq<string>>)
    requires Across(t, sk, m) && Sub(t.entries, u.entries)
    requires forall k :: k in u.entries && k.session != sk ==> k in t.entries
    ensures Across(u, sk, m)
  {
  }

  /** Under agreement it does not matter which contradicting row is found first. */
  lemma RivalsAgree(t: Tables, o: EntryKey, k: EntryKey, sha: string)
    requires Agree(t) && RivalAgainst(t, o, k, sha) && !(k in t.entries && t.entries[k].sha != sha)
    ensures Contradicted(t, k, sha) == Some(t.entries[o].sha)
  {
    forall c | RivalAgainst(t, c, k, sha) ensures t.entries[c].sha == t.entries[o].sha { assert SameSource(o, c); }
  }

  class Ingestor {
    const rules: Rules
    const adapters: set<string>
    var tables: Tables
    /** Every blob this ingestor has ever asked for. */
    ghost var asked: set<string>

    /** The tables as every committed transaction leaves them. */
    ghost predicate Valid()
      reads this
    {
      Sound(tables, rules, Anything()) && Complete(tables, rules, Anything())
    }

    constructor (rules: Rules, adapters: set<string>)
      ensures Valid() && tables == EMPTY && asked == {} && this.rules == rules && this.adapters == adapters
    {
      this.rules, this.adapters, tables, asked := rules, adapters, EMPTY, {};
      new;
      EmptyIsSound(rules, Anything());
    }

    method ExistingEntryHashes(sk: SessionKey) returns (out: map<string, string>)
      ensures Existing(tables, sk, out)
    {
      out := map[];
      var left := tables.entries.Keys;
      while left != {}
        invariant left <= tables.entries.Keys
        invariant forall id ::
                    if EntryKey(sk, id) in tables.entries.Keys - left
                    then id in out && out[id] == tables.entries[EntryKey(sk, id)].sha
                    else id !in out
        decreases |left|
      {
        var k :| k in left;
        left := left - {k};
        if k.session == sk { out := out[k.entry := tables.entries[k].sha]; }
      }
    }

    method CrossMachineEntryHashes(sk: SessionKey) returns (out: map<string, seq<string>>)
      ensures Across(tables, sk, out)
    {
      AcrossNothing(tables.(entries := map[]), sk);
      hide Across;
      out := map[];
      var left := tables.entries.Keys;
      ghost var seen := tables.(entries := map[]);
      while left != {}
        invariant left <= tables.entries.Keys
        invariant seen.entries == map k | k in tables.entries && k !in left :: tables.entries[k]
        invariant seen == tables.(entries := seen.entries) && Across(seen, sk, out)
        decreases |left|
      {
        var k :| k in left;
        left := left - {k};
        ghost var before := seen;
        seen := seen.(entries := seen.entries[k := tables.entries[k]]);
        if k.session.source == sk.source && k.session.session == sk.session && k.session.machine != sk.machine {
          var earlier := if k.entry in out then out[k.entry] else [];
          AcrossSnoc(before, seen, sk, out, k, earlier);
          out := out[k.entry := earlier + [tables.entries[k].sha]];
        } else {
          AcrossSkip(before, seen, sk, out, k);
        }
      }
      assert seen.entries == tables.entries;
      assert seen.(entries := tables.entries) == tables;
    }

    /** ingestEntry, on the hash maps read when the file began. */
    method IngestEntry(job: Job, sk: SessionKey, e: P.Entry, existing: map<string, string>,
                       cross: map<string, seq<string>>)
      returns (existing': map<string, string>)
      requires Agree(tables) && Existing(tables, sk, existing) && Across(tables, sk, cross)
      modifies this`tables
      ensures tables == Workspace.IngestEntry(old(tables), job, sk, e)
      ensures Existing(tables, sk, existing')
    {
      hide ShouldPersist, EntryRowOf, MessageRowOf;
      existing' := existing;
      var k := EntryKey(sk, e.id);
      if e.id in existing && existing[e.id] != e.raw {
        tables := tables.(conflicts := tables.conflicts + [Conflict(sk, e.id, existing[e.id], e.raw, job.manifest)]);
        return;
      }
      var others := if e.id in cross then cross[e.id] else [];
      for i := 0 to |others|
        invariant tables == old(tables)
        invariant forall j :: 0 <= j < i ==> others[j] == e.raw
      {
        if others[i] != e.raw {
          assert others[i] in cross[e.id];
          ghost var o :| o in tables.entries && Rivals(o, k) && tables.entries[o].sha == others[i];
          RivalsAgree(tables, o, k, e.raw);
          tables := tables.(conflicts := tables.conflicts + [Conflict(sk, e.id, others[i], e.raw, job.manifest)]);
          return;
        }
      }
      Uncontradicted(tables, sk, e, cross, others);
      RowAddressesRaw(job, e);
      if k !in tables.entries {
        tables := tables.(entries := tables.entries[k := EntryRowOf(job, e)]);
        existing' := existing[e.id := e.raw];
      }
      if ShouldPersist(e, job.manifest.policy.indexToolOutput) && k !in tables.messages {
        tables := tables.(messages := tables.messages[k := MessageRowOf(job, sk.source, e)]);
      }
    }

    /** The entry loop of IngestSessionFile; an unacceptable entry id aborts it. */
    method IngestEntries(job: Job, sk: SessionKey, entries: seq<P.Entry>)
      returns (ok: bool, existing: map<string, string>)
      requires Agree(tables) && Rooted(tables) && sk in tables.sessions
      modifies this`tables
      ensures ok <==> forall k :: 0 <= k < |entries| ==> Refs.EntryIdOk(entries[k].id, Blank)
      ensures ok ==> tables == Workspace.IngestEntries(old(tables), job, sk, entries) && Existing(tables, sk, existing)
    {
      hide Existing, Across, Agree, Rooted, Extends, Workspace.IngestEntry, AllDone, Refs.EntryIdOk;
      existing := ExistingEntryHashes(sk);
      var cross := CrossMachineEntryHashes(sk);
      ghost var begun := tables;
      for i := 0 to |entries|
        invariant tables == Workspace.IngestEntries(begun, job, sk, entries[..i])
        invariant Existing(tables, sk, existing)
        invariant forall k :: 0 <= k < i ==> Refs.EntryIdOk(entries[k].id, Blank)
      {
        if !Refs.EntryIdOk(entries[i].id, Blank) { return false, existing; }
        EntriesKeep(begun, job, sk, entries[..i]);
        CrossDuring(begun, tables, sk, cross);
        assert entries[..i + 1][..i] == entries[..i];
        existing := IngestEntry(job, sk, entries[i], existing, cross);
      }
      assert entries[..|entries|] == entries;
      ok := true;
    }

    /** insertToolInvocations: pair up the accepted entries and insert each observed call not yet there. */
    method InsertToolInvocations(job: Job, sk: SessionKey, project: string, entries: seq<P.Entry>,
                                 present: map<string, string>)
      requires Existing(tables, sk, present)
      modifies this`tables
      ensures tables == old(tables).(tools := InsertTools(old(tables.tools), rules, job, sk, project,
                                                           P.Paired(rules.naming, Accepted(old(tables), sk, entries))))
    {
      hide P.Paired, ToolRowOf, HasTool, InsertTools;
      NoneInserted(tables.tools, job, sk, project);
      ghost var begun := tables;
      var accepted: seq<P.Entry> := [];
      for i := 0 to |entries|
        invariant tables == begun && accepted == Accepted(begun, sk, entries[..i])
      {
        assert entries[..i + 1][..i] == entries[..i];
        if entries[i].id in present && present[entries[i].id] == entries[i].raw { accepted := accepted + [entries[i]]; }
      }
      assert entries[..|entries|] == entries;
      var invs := P.BuildToolInvocations(rules.naming, accepted);
      assert invs[..0] == [];
      for i := 0 to |invs|
        invariant tables == begun.(tools := InsertTools(begun.tools, rules, job, sk, project, invs[..i]))
      {
        assert invs[..i + 1][..i] == invs[..i];
        InsertToolsNext(begun.tools, rules, job, sk, project, invs[..i + 1]);
        if !invs[i].observed { continue; }
        if HasTool(tables.tools, sk, invs[i]) { continue; }
        tables := tables.(tools := tables.tools + [ToolRowOf(rules, job, sk, project, invs[i])]);
      }
      assert invs[..|invs|] == invs;
    }

    lemma NoneInserted(tools: seq<ToolRow>, job: Job, sk: SessionKey, project: string)
      ensures InsertTools(tools, rules, job, sk, project, []) == tools
    {
    }

    /** rebuildFailureEpisodesForSession: delete the session's episodes, scan its stored calls, insert afresh. */
    method RebuildFailureEpisodes(sk: SessionKey)
      modifies this`tables
      ensures tables == WithEpisodes(old(tables), rules, sk)
    {
      hide EpisodesOf, SortBy, Before;
      var rows: seq<Row> := [];
      ghost var begun := tables;
      for i := 0 to |tables.tools|
        invariant tables == begun && rows == CallRows(begun.tools[..i], begun.entries, rules, sk)
      {
        var r := tables.tools[i];
        assert begun.tools[..i + 1][..i] == begun.tools[..i];
        if r.session == sk && EntryKey(sk, r.entry) in tables.entries {
          rows := rows + [CallRow(r, tables.entries[EntryKey(sk, r.entry)].line, rules)];
        }
      }
      assert begun.tools[..|begun.tools|] == begun.tools;
      var found := AssembleSession(rows, DEFAULT_CONFIG);
      var eps := SortBy(found, ByOpening);
      var kept: seq<Episode> := [];
      for i := 0 to |eps|
        invariant tables == begun && kept == Kept(eps[..i])
      {
        assert eps[..i + 1][..i] == eps[..i];
        if !exists k :: 0 <= k < |kept| && SameOpening(kept[k], eps[i]) { kept := kept + [eps[i]]; }
      }
      assert eps[..|eps|] == eps;
      tables := tables.(episodes := tables.episodes[sk := kept]);
    }

    /** knownSessionVersionKey: any recorded version of the file; there is one session to find. */
    method KnownSessionVersionKey(machine: string, f: File) returns (known: Option<SessionKey>)
      requires OneSession(tables)
      ensures known.Some? <==> Known(tables, machine, f)
      ensures known.Some? ==> known.value == KnownSession(tables, machine, f)
    {
      var left := tables.versions.Keys;
      while left != {}
        invariant left <= tables.versions.Keys
        invariant forall v :: v in tables.versions && v !in left ==>
                  !(v.session in tables.sessions && VersionOf(v, tables.versions[v], machine, f))
        decreases |left|
      {
        var v :| v in left;
        left := left - {v};
        if v.session in tables.sessions && VersionOf(v, tables.versions[v], machine, f) {
          AnyRowWillDo(tables, machine, f, v);
          return Some(v.session);
        }
      }
      known := None;
    }

    /** IngestSessionFile, after its bytes are at hand. */
    method IngestSessionFile(job: Job, f: File) returns (ok: bool)
      requires Sound(tables, rules, Anything())
      modifies this`tables
      ensures var machine := job.manifest.machineId;
              && (ok <==> Known(old(tables), machine, f) || Readable(rules, machine, f))
              && (ok ==> tables == if Known(old(tables), machine, f)
                                   then AddVersion(old(tables), job, KnownSession(old(tables), machine, f), f)
                                   else IngestSession(old(tables), rules, job, f))
    {
      hide Known, KnownSession, Agree, Rooted, Current, Backed;
      hide OneSession, Complete, SessionRowOf, Extends, Refs.EntryIdOk;
      var machine := job.manifest.machineId;
      var known := KnownSessionVersionKey(machine, f);
      if known.Some? {
        tables := AddVersion(tables, job, known.value, f);
        return true;
      }
      var parsed := rules.parse(InputOf(f));
      if parsed.None? { return false; }
      var p := parsed.value;
      if Blank(f.source) || Blank(machine) || Blank(SessionId(f, p)) { return false; }
      var sk := SessionOf(machine, f, p);
      var row := SessionRowOf(rules, job, f, p);
      ghost var start := tables;
      BeginKeeps(start, rules, job, f, p);
      if sk !in tables.sessions { tables := tables.(sessions := tables.sessions[sk := row]); }
      tables := AddVersion(tables, job, sk, f);
      ghost var begun := tables;
      assert begun == AddVersion(start.(sessions := Put(start.sessions, sk, row)), job, sk, f);
      var present;
      ok, present := IngestEntries(job, sk, p.entries);
      if !ok { return; }
      ghost var mid := tables;
      assert mid == WithEntries(start, rules, job, f, p);
      InsertToolInvocations(job, sk, rules.project(FirstNonEmpty(p.cwd, f.cwd)), p.entries, present);
      assert tables == WithTools(mid, rules, job, f, p);
      RebuildFailureEpisodes(sk);
    }

    /** validateIngestAdapters: every file's source has an adapter. */
    method ValidateAdapters(files: seq<File>) returns (ok: bool)
      ensures ok <==> HasAdapters(adapters, files)
    {
      var seen: set<string> := {};
      for i := 0 to |files|
        invariant seen <= adapters && forall k :: 0 <= k < i ==> files[k].source in adapters
      {
        if files[i].source in seen { continue; }
        seen := seen + {files[i].source};
        if files[i].source !in adapters { return false; }
      }
      ok := true;
    }

    /** IngestPreparedSnapshot: all of a snapshot or none of it, and a snapshot already taken in is no work. */
    method IngestPreparedSnapshot(job: Job, opens: string -> bool) returns (ok: bool)
      requires Valid()
      modifies this`tables, this`asked
      ensures Valid() && Extends(old(tables), tables)
      ensures ok <==> HasAdapters(adapters, job.manifest.files) && IngestSnapshot(old(tables), rules, job, opens).Some?
      ensures tables == if ok then IngestSnapshot(old(tables), rules, job, opens).value else old(tables)
      ensures ok ==> job.manifest in tables.snapshots
      ensures old(asked) <= asked <= old(asked) + Shas(job.manifest.files)
      ensures job.manifest in old(tables).snapshots || !HasAdapters(adapters, job.manifest.files) ==>
              asked == old(asked)
    {
      ghost var start := tables;
      ExtendsItself(start);
      SnapshotKeeps(start, rules, Anything(), job, opens);
      hide Sound, Complete, Extends, HasAdapters, IngestFiles;
      var saved := tables;
      ok := ValidateAdapters(job.manifest.files);
      if !ok { return; }
      var dup := job.manifest in tables.snapshots;
      tables := tables.(attempts := tables.attempts + [Attempt(job.manifest, dup)]);
      if dup { return; }
      BegunIsSound(start, tables, rules, job);
      tables := tables.(snapshots := tables.snapshots + {job.manifest});
      ok := IngestAllFiles(job, opens);
      if !ok { tables := saved; }
    }

    /** The file loop inside the transaction. */
    method IngestAllFiles(job: Job, opens: string -> bool) returns (ok: bool)
      requires Sound(tables, rules, Anything())
      modifies this`tables, this`asked
      ensures ok <==> IngestFiles(old(tables), rules, job, opens, job.manifest.files).Some?
      ensures ok ==> tables == IngestFiles(old(tables), rules, job, opens, job.manifest.files).value
      ensures old(asked) <= asked <= old(asked) + Shas(job.manifest.files)
    {
      hide Sound, Extends, IngestFile, FilesCovered;
      ghost var start := tables;
      var files := job.manifest.files;
      for i := 0 to |files|
        invariant IngestFiles(start, rules, job, opens, files[..i]) == Some(tables)
        invariant old(asked) <= asked <= old(asked) + Shas(files)
      {
        assert files[..i + 1][..i] == files[..i];
        FilesKeep(start, rules, Anything(), job, opens, files[..i]);
        ok := IngestManifestFile(job, opens, files[i]);
        if !ok {
          FailureIsFinal(start, rules, job, opens, files, i + 1);
          return;
        }
      }
      assert files[..|files|] == files;
      ok := true;
    }

    /** One file: a known session version is provenance only; anything else has to be opened. */
    method IngestManifestFile(job: Job, opens: string -> bool, f: File) returns (ok: bool)
      requires Sound(tables, rules, Anything())
      modifies this`tables, this`asked
      ensures ok <==> IngestFile(old(tables), rules, job, opens, f).Some?
      ensures ok ==> tables == IngestFile(old(tables), rules, job, opens, f).value
      ensures asked == old(asked) + if f.kind == "session" && Known(old(tables), job.manifest.machineId, f) then {}
                                    else {f.sha}
    {
      hide Agree, Rooted, Current, Backed, Known, KnownSession, Readable, IngestSession;
      if f.kind == "session" {
        var known := KnownSessionVersionKey(job.manifest.machineId, f);
        if known.Some? {
          tables := AddVersion(tables, job, known.value, f);
          return true;
        }
      }
      asked := asked + {f.sha};
      if !opens(f.sha) || rules.size(f.sha) != f.bytes { return false; }
      if f.kind != "session" { return true; }
      ok := IngestSessionFile(job, f);
    }
  }

  predicate HasAdapters(adapters: set<string>, files: seq<File>) {
    forall k :: 0 <= k < |files| ==> files[k].source in adapters
  }

  lemma BegunIsSound(t: Tables, u: Tables, rules: Rules, job: Job)
    requires Sound(t, rules, Anything()) && u == t.(attempts := u.attempts)
    ensures Sound(u.(snapshots := u.snapshots + {job.manifest}), rules, Anything())
  {
    hide Sound, Extends;
    ProvenanceFrame(t, u.(snapshots := u.snapshots + {job.manifest}), rules, Anything());
  }

  lemma {:induction false} FailureIsFinal(t: Tables, rules: Rules, job: Job, opens: string -> bool, files: seq<File>,
                                          i: nat)
    requires i <= |files| && IngestFiles(t, rules, job, opens, files[..i]).None?
    ensures IngestFiles(t, rules, job, opens, files).None?
    decreases |files| - i
  {
    if i == |files| {
      assert files[..i] == files;
    } else {
      assert files[..i + 1][..i] == files[..i];
      FailureIsFinal(t, rules, job, opens, files, i + 1);
    }
  }

  lemma CrossDuring(t: Tables, u: Tables, sk: SessionKey, cross: map<string, seq<string>>)
    requires Across(t, sk, cross) && Extends(t, u)
    requires forall k :: k in u.entries && k.session != sk ==> k in t.entries
    ensures Across(u, sk, cross)
  {
    AcrossKept(t, u, sk, cross);
  }

  lemma AnyRowWillDo(t: Tables, machine: string, f: File, v: VersionKey)
    requires OneSession(t) && v in t.versions && v.session in t.sessions && VersionOf(v, t.versions[v], machine, f)
    ensures Known(t, machine, f) && KnownSession(t, machine, f) == v.session
  {
    assert Known(t, machine, f);
    forall w | w in t.versions && VersionOf(w, t.versions[w], machine, f) ensures w.session == v.session {
      assert SameFile(w, t.versions[w], v, t.versions[v]);
    }
  }

  lemma AcrossNothing(t: Tables, sk: SessionKey)
    requires t.entries == map[]
    ensures Across(t, sk, map[])
  {
  }

  lemma AcrossSkip(t: Tables, u: Tables, sk: SessionKey, m: map<string, seq<string>>, k: EntryKey)
    requires Across(t, sk, m) && k !in t.entries && k in u.entries && u.entries == t.entries[k := u.entries[k]]
    requires !(k.session.source == sk.source && k.session.session == sk.session && k.session.machine != sk.machine)
    ensures Across(u, sk, m)
  {
  }

  lemma AcrossSnoc(t: Tables, u: Tables, sk: SessionKey, m: map<string, seq<string>>, k: EntryKey, earlier: seq<string>)
    requires Across(t, sk, m) && k !in t.entries && k in u.entries && u.entries == t.entries[k := u.entries[k]]
    requires Rivals(k, EntryKey(sk, k.entry)) && earlier == if k.entry in m then m[k.entry] else []
    ensures Across(u, sk, m[k.entry := earlier + [u.entries[k].sha]])
  {
    var n := m[k.entry := earlier + [u.entries[k].sha]];
    forall id, h | id in n && h in n[id]
      ensures exists o :: o in u.entries && Rivals(o, EntryKey(sk, id)) && u.entries[o].sha == h
    {
      if id == k.entry && h !in earlier {
        assert Rivals(k, EntryKey(sk, id));
      } else {
        assert id in m && h in m[id];
        var o :| o in t.entries && Rivals(o, EntryKey(sk, id)) && t.entries[o].sha == h;
        assert o in u.entries && u.entries[o].sha == h;
      }
    }
  }

  lemma Uncontradicted(t: Tables, sk: SessionKey, e: P.Entry, cross: map<string, seq<string>>, others: seq<string>)
    requires Across(t, sk, cross) && others == (if e.id in cross then cross[e.id] else [])
    requires forall j :: 0 <= j < |others| ==> others[j] == e.raw
    requires !(EntryKey(sk, e.id) in t.entries && t.entries[EntryKey(sk, e.id)].sha != e.raw)
    ensures Contradicted(t, EntryKey(sk, e.id), e.raw).None?
  {
    forall o | o in t.entries && Rivals(o, EntryKey(sk, e.id)) ensures t.entries[o].sha == e.raw {
      assert t.entries[o].sha in others;
    }
  }
}
