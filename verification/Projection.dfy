/** What every ingest keeps: entries are written once, agree across machines, and reprocessing changes nothing. */
module Projection {
  import opened Order
  import opened Namespaces
  import opened Manifests
  import opened Options
  import opened Episodes
  import opened Workspace
  import P = Pairing
  import Refs

  ghost predicate Sub<K, V>(a: map<K, V>, b: map<K, V>) { forall k :: k in a ==> k in b && b[k] == a[k] }

  /** Nothing stored is lost or altered; episodes are the one table that is rewritten. */
  ghost predicate Extends(t: Tables, u: Tables) {
    && Sub(t.sessions, u.sessions) && Sub(t.versions, u.versions)
    && Sub(t.entries, u.entries) && Sub(t.messages, u.messages)
    && t.tools <= u.tools && t.conflicts <= u.conflicts && t.snapshots <= u.snapshots
  }

  lemma ExtendsTransitive(t: Tables, u: Tables, v: Tables)
    requires Extends(t, u) && Extends(u, v)
    ensures Extends(t, v)
  {
  }

  predicate SameSource(a: EntryKey, b: EntryKey) {
    a.entry == b.entry && a.session.source == b.session.source && a.session.session == b.session.session
  }

  /** One source entry, one content, on every machine. */
  ghost predicate Agree(t: Tables) {
    forall a, b :: a in t.entries && b in t.entries && SameSource(a, b) ==> t.entries[a].sha == t.entries[b].sha
  }

  /** The foreign keys. */
  ghost predicate Rooted(t: Tables) {
    && (forall k :: k in t.entries ==> k.session in t.sessions)
    && (forall k :: k in t.messages ==> k in t.entries)
    && (forall r :: r in t.tools ==> EntryKey(r.session, r.entry) in t.entries)
    && (forall v :: v in t.versions ==> v.session in t.sessions)
  }

  /** Each session's episodes are those of its stored calls. */
  ghost predicate Current(t: Tables, rules: Rules) {
    forall sk :: sk in t.sessions ==> sk in t.episodes && t.episodes[sk] == EpisodesStored(t, rules, sk)
  }

  /** Ingesting this entry again would write nothing. */
  ghost predicate Done(t: Tables, sk: SessionKey, e: P.Entry, indexOutput: bool) {
    || Contradicted(t, EntryKey(sk, e.id), e.raw).Some?
    || (EntryKey(sk, e.id) in t.entries && (ShouldPersist(e, indexOutput) ==> EntryKey(sk, e.id) in t.messages))
  }

  ghost predicate AllDone(t: Tables, sk: SessionKey, entries: seq<P.Entry>, indexOutput: bool) {
    forall k :: 0 <= k < |entries| ==> Done(t, sk, entries[k], indexOutput)
  }

  /** Some machine has this source entry with this content. */
  ghost predicate HeldAs(t: Tables, k: EntryKey, sha: string) {
    exists o :: o in t.entries && SameSource(o, k) && t.entries[o].sha == sha
  }

  /** A quarantine row for this entry: its content, and another one that is stored for it. */
  ghost predicate Quarantines(t: Tables, c: Conflict, sk: SessionKey, e: P.Entry) {
    && c.session == sk && c.entry == e.id && c.second == e.raw && c.first != e.raw
    && HeldAs(t, EntryKey(sk, e.id), c.first)
  }

  /** The entry is stored as it is, or quarantined: it has not vanished. */
  ghost predicate Accounted(t: Tables, sk: SessionKey, e: P.Entry) {
    StoredAs(t, sk, e) || exists c :: c in t.conflicts && Quarantines(t, c, sk, e)
  }

  ghost predicate AllAccounted(t: Tables, sk: SessionKey, entries: seq<P.Entry>) {
    forall k :: 0 <= k < |entries| ==> Accounted(t, sk, entries[k])
  }

  ghost predicate AllStored(tools: seq<ToolRow>, sk: SessionKey, invs: seq<P.Invocation>) {
    forall k :: 0 <= k < |invs| && invs[k].observed ==> HasTool(tools, sk, invs[k])
  }

  /** Everything a parse of this file yields is in the tables. */
  ghost predicate Absorbed(t: Tables, rules: Rules, indexOutput: bool, machine: string, f: File) {
    && Readable(rules, machine, f)
    && var p := rules.parse(InputOf(f)).value;
       var sk := SessionOf(machine, f, p);
       && sk in t.sessions
       && AllDone(t, sk, p.entries, indexOutput) && AllAccounted(t, sk, p.entries)
       && AllStored(t.tools, sk, P.Paired(rules.naming, Accepted(t, sk, p.entries)))
  }

  // ---- one entry ---------------------------------------------------------------------------

  /** What an ingest of one session leaves of the tables other than entries, messages and conflicts. */
  ghost predicate SameOtherwise(t: Tables, u: Tables) {
    u == t.(entries := u.entries, messages := u.messages, conflicts := u.conflicts)
  }

  /** An entry that is stored is contradicted only by its own content. */
  lemma StoredDecides(t: Tables, k: EntryKey, sha: string)
    requires Agree(t) && k in t.entries
    ensures Contradicted(t, k, sha).Some? <==> t.entries[k].sha != sha
  {
    if o :| RivalAgainst(t, o, k, sha) { assert SameSource(o, k); }
  }

  lemma NewEntryAgrees(t: Tables, u: Tables, k: EntryKey, row: EntryRow)
    requires Agree(t) && Contradicted(t, k, row.sha).None? && k !in t.entries && u.entries == t.entries[k := row]
    ensures Agree(u)
  {
    forall o | o in t.entries && SameSource(o, k) ensures t.entries[o].sha == row.sha {
      assert o.session.machine != k.session.machine || o == k;
      assert !RivalAgainst(t, o, k, row.sha);
    }
  }

  lemma EntryKeeps(t: Tables, job: Job, sk: SessionKey, e: P.Entry)
    requires Agree(t) && Rooted(t) && sk in t.sessions
    ensures var u := IngestEntry(t, job, sk, e);
            && Agree(u) && Rooted(u) && Extends(t, u) && SameOtherwise(t, u)
            && Done(u, sk, e, job.manifest.policy.indexToolOutput)
            && (forall k :: k in u.entries && k.session != sk ==> k in t.entries)
  {
    hide ShouldPersist, Contradicted, EntryRowOf, MessageRowOf;
    var k, u := EntryKey(sk, e.id), IngestEntry(t, job, sk, e);
    if Contradicted(t, k, e.raw).Some? {
      ContradictionNeedsEntries(t, u, k, e.raw);
    } else {
      RowAddressesRaw(job, e);
      if k !in t.entries { NewEntryAgrees(t, u, k, EntryRowOf(job, e)); }
    }
  }

  lemma HeldLater(t: Tables, u: Tables, k: EntryKey, sha: string)
    requires HeldAs(t, k, sha) && Sub(t.entries, u.entries)
    ensures HeldAs(u, k, sha)
  {
    var o :| o in t.entries && SameSource(o, k) && t.entries[o].sha == sha;
    assert o in u.entries && u.entries[o].sha == sha;
  }

  lemma AccountedStays(t: Tables, u: Tables, sk: SessionKey, e: P.Entry)
    requires Accounted(t, sk, e) && Sub(t.entries, u.entries) && t.conflicts <= u.conflicts
    ensures Accounted(u, sk, e)
  {
    if !StoredAs(t, sk, e) {
      var c :| c in t.conflicts && Quarantines(t, c, sk, e);
      HeldLater(t, u, EntryKey(sk, e.id), c.first);
      assert c in u.conflicts && Quarantines(u, c, sk, e);
    }
  }

  lemma ContradictionIsHeld(t: Tables, k: EntryKey, sha: string)
    requires Contradicted(t, k, sha).Some?
    ensures Contradicted(t, k, sha).value != sha && HeldAs(t, k, Contradicted(t, k, sha).value)
  {
  }

  /** An entry taken in is stored as it is or leaves a row in quarantine. */
  lemma EntryAccounted(t: Tables, job: Job, sk: SessionKey, e: P.Entry)
    ensures Accounted(IngestEntry(t, job, sk, e), sk, e)
  {
    hide ShouldPersist, Contradicted, EntryRowOf, MessageRowOf, HeldAs;
    var k, u := EntryKey(sk, e.id), IngestEntry(t, job, sk, e);
    if Contradicted(t, k, e.raw).Some? {
      ContradictionIsHeld(t, k, e.raw);
      HeldLater(t, u, k, Contradicted(t, k, e.raw).value);
      assert u.conflicts[|t.conflicts|] in u.conflicts;
      assert Quarantines(u, u.conflicts[|t.conflicts|], sk, e);
    } else {
      RowAddressesRaw(job, e);
      if k in t.entries { assert t.entries[k].sha == e.raw by { UncontradictedIsSame(t, k, e.raw); } }
    }
  }

  lemma UncontradictedIsSame(t: Tables, k: EntryKey, sha: string)
    requires Contradicted(t, k, sha).None? && k in t.entries
    ensures t.entries[k].sha == sha
  {
  }

  lemma {:induction false} EntriesAccounted(t: Tables, job: Job, sk: SessionKey, entries: seq<P.Entry>)
    requires Agree(t) && Rooted(t) && sk in t.sessions
    ensures AllAccounted(IngestEntries(t, job, sk, entries), sk, entries)
  {
    hide IngestEntry, Accounted, Agree, Rooted, AllDone, SameOtherwise;
    if |entries| > 0 {
      var n := |entries| - 1;
      var mid, u := IngestEntries(t, job, sk, entries[..n]), IngestEntries(t, job, sk, entries);
      EntriesAccounted(t, job, sk, entries[..n]);
      EntriesKeep(t, job, sk, entries[..n]);
      EntryKeeps(mid, job, sk, entries[n]);
      EntryAccounted(mid, job, sk, entries[n]);
      forall k | 0 <= k < n ensures Accounted(u, sk, entries[k]) {
        assert Accounted(mid, sk, entries[..n][k]);
        AccountedStays(mid, u, sk, entries[k]);
      }
    }
  }

  lemma RowAddressesRaw(job: Job, e: P.Entry)
    ensures EntryRowOf(job, e).sha == e.raw
  {
  }

  lemma {:induction false} EntriesKeep(t: Tables, job: Job, sk: SessionKey, entries: seq<P.Entry>)
    requires Agree(t) && Rooted(t) && sk in t.sessions
    ensures var u := IngestEntries(t, job, sk, entries);
            && Agree(u) && Rooted(u) && Extends(t, u) && SameOtherwise(t, u)
            && AllDone(u, sk, entries, job.manifest.policy.indexToolOutput)
            && (forall k :: k in u.entries && k.session != sk ==> k in t.entries)
  {
    hide Agree, Rooted, IngestEntry, Done;
    if |entries| > 0 {
      var n := |entries| - 1;
      var mid := IngestEntries(t, job, sk, entries[..n]);
      EntriesKeep(t, job, sk, entries[..n]);
      EntryKeeps(mid, job, sk, entries[n]);
      var u := IngestEntries(t, job, sk, entries);
      ExtendsTransitive(t, mid, u);
      forall k | 0 <= k < n ensures Done(u, sk, entries[k], job.manifest.policy.indexToolOutput) {
        assert Done(mid, sk, entries[..n][k], job.manifest.policy.indexToolOutput);
        DoneStays(mid, u, sk, entries[k], job.manifest.policy.indexToolOutput);
      }
    }
  }

  // ---- what is done stays done ------------------------------------------------------------------

  lemma AgreedBefore(t: Tables, u: Tables)
    requires Sub(t.entries, u.entries) && Agree(u)
    ensures Agree(t)
  {
  }

  /** A refused entry is refused in every later state, an accepted one stays accepted. */
  lemma DoneStays(t: Tables, u: Tables, sk: SessionKey, e: P.Entry, indexOutput: bool)
    requires Extends(t, u) && Agree(u) && Done(t, sk, e, indexOutput)
    ensures Done(u, sk, e, indexOutput)
    ensures StoredAs(t, sk, e) <==> StoredAs(u, sk, e)
  {
    hide ShouldPersist;
    var k := EntryKey(sk, e.id);
    AgreedBefore(t, u);
    if k in t.entries {
      StoredDecides(t, k, e.raw);
      StoredDecides(u, k, e.raw);
    } else {
      var o :| RivalAgainst(t, o, k, e.raw);
      assert RivalAgainst(u, o, k, e.raw) && SameSource(o, k);
    }
  }

  lemma {:induction false} AcceptedStays(t: Tables, u: Tables, sk: SessionKey, entries: seq<P.Entry>, indexOutput: bool)
    requires Extends(t, u) && Agree(u) && AllDone(t, sk, entries, indexOutput)
    ensures Accepted(u, sk, entries) == Accepted(t, sk, entries)
  {
    hide Extends, Agree, Done, StoredAs;
    if |entries| > 0 {
      var n := |entries| - 1;
      forall k | 0 <= k < n ensures Done(t, sk, entries[..n][k], indexOutput) {
        assert Done(t, sk, entries[k], indexOutput);
      }
      AcceptedStays(t, u, sk, entries[..n], indexOutput);
      DoneStays(t, u, sk, entries[n], indexOutput);
    }
  }

  /** Once absorbed, a file stays absorbed whatever is ingested after it, from any machine, under any policy. */
  lemma AbsorbedStays(t: Tables, u: Tables, rules: Rules, indexOutput: bool, machine: string, f: File)
    requires Absorbed(t, rules, indexOutput, machine, f) && Extends(t, u) && Agree(u)
    ensures Absorbed(u, rules, indexOutput, machine, f)
  {
    var p := rules.parse(InputOf(f)).value;
    hide Agree, Done, Readable, Accepted, SessionOf, Accounted;
    var sk := SessionOf(machine, f, p);
    AcceptedStays(t, u, sk, p.entries, indexOutput);
    forall k | 0 <= k < |p.entries| ensures Done(u, sk, p.entries[k], indexOutput) {
      DoneStays(t, u, sk, p.entries[k], indexOutput);
    }
    forall k | 0 <= k < |p.entries| ensures Accounted(u, sk, p.entries[k]) { AccountedStays(t, u, sk, p.entries[k]); }
    var invs := P.Paired(rules.naming, Accepted(t, sk, p.entries));
    forall k | 0 <= k < |invs| && invs[k].observed ensures HasTool(u.tools, sk, invs[k]) {
      assert HasTool(t.tools, sk, invs[k]);
    }
  }

  // ---- reprocessing -------------------------------------------------------------------------------

  lemma {:induction false} EntriesAgain(t: Tables, job: Job, sk: SessionKey, entries: seq<P.Entry>)
    requires AllDone(t, sk, entries, job.manifest.policy.indexToolOutput)
    ensures var u := IngestEntries(t, job, sk, entries);
            u == t.(conflicts := u.conflicts)
  {
    hide ShouldPersist;
    if |entries| > 0 {
      var n := |entries| - 1;
      forall k | 0 <= k < n ensures Done(t, sk, entries[..n][k], job.manifest.policy.indexToolOutput) {
        assert Done(t, sk, entries[k], job.manifest.policy.indexToolOutput);
      }
      EntriesAgain(t, job, sk, entries[..n]);
      ContradictionNeedsEntries(t, IngestEntries(t, job, sk, entries[..n]), EntryKey(sk, entries[n].id),
                                entries[n].raw);
      assert Done(t, sk, entries[n], job.manifest.policy.indexToolOutput);
    }
  }

  lemma ContradictionNeedsEntries(t: Tables, u: Tables, k: EntryKey, sha: string)
    requires t.entries == u.entries
    ensures Contradicted(t, k, sha).Some? <==> Contradicted(u, k, sha).Some?
  {
    assert forall o :: RivalAgainst(t, o, k, sha) <==> RivalAgainst(u, o, k, sha);
  }

  lemma {:induction false} ToolsAgain(tools: seq<ToolRow>, rules: Rules, job: Job, sk: SessionKey, project: string,
                                      invs: seq<P.Invocation>)
    requires AllStored(tools, sk, invs)
    ensures InsertTools(tools, rules, job, sk, project, invs) == tools
  {
    hide HasTool;
    if |invs| > 0 {
      var n := |invs| - 1;
      forall k | 0 <= k < n && invs[..n][k].observed ensures HasTool(tools, sk, invs[..n][k]) {
        assert HasTool(tools, sk, invs[k]);
      }
      ToolsAgain(tools, rules, job, sk, project, invs[..n]);
      InsertToolsNext(tools, rules, job, sk, project, invs);
    }
  }

  lemma {:induction false} AcceptedNeedsEntries(t: Tables, u: Tables, sk: SessionKey, entries: seq<P.Entry>)
    requires t.entries == u.entries
    ensures Accepted(t, sk, entries) == Accepted(u, sk, entries)
  {
    if |entries| > 0 { AcceptedNeedsEntries(t, u, sk, entries[..|entries| - 1]); }
  }

  /** Ingesting an absorbed file again writes no session, entry, message, tool invocation or episode. */
  lemma ReprocessingChangesNothing(t: Tables, rules: Rules, job: Job, f: File)
    requires Absorbed(t, rules, job.manifest.policy.indexToolOutput, job.manifest.machineId, f) && Current(t, rules)
    ensures var u := IngestSession(t, rules, job, f);
            && u.sessions == t.sessions && u.entries == t.entries && u.messages == t.messages
            && u.tools == t.tools && u.episodes == t.episodes
  {
    var p := rules.parse(InputOf(f)).value;
    hide Readable, Done, Accepted, SessionOf, EpisodesStored, IngestEntries, InsertTools, SessionRowOf, HasTool;
    var sk := SessionOf(job.manifest.machineId, f, p);
    var begun := AddVersion(t.(sessions := Put(t.sessions, sk, SessionRowOf(rules, job, f, p))), job, sk, f);
    DoneNeedsTables(t, begun, sk, p.entries, job.manifest.policy.indexToolOutput);
    EntriesAgain(begun, job, sk, p.entries);
    var mid := WithEntries(t, rules, job, f, p);
    AcceptedNeedsEntries(t, mid, sk, p.entries);
    ToolsAgain(t.tools, rules, job, sk, rules.project(FirstNonEmpty(p.cwd, f.cwd)),
               P.Paired(rules.naming, Accepted(t, sk, p.entries)));
    EpisodesNeedCalls(t, WithTools(mid, rules, job, f, p), rules, sk);
    assert t.episodes[sk := t.episodes[sk]] == t.episodes;
  }

  lemma DoneNeedsTables(t: Tables, u: Tables, sk: SessionKey, entries: seq<P.Entry>, indexOutput: bool)
    requires t.entries == u.entries && t.messages == u.messages && AllDone(t, sk, entries, indexOutput)
    ensures AllDone(u, sk, entries, indexOutput)
  {
    hide ShouldPersist, Contradicted;
    forall k | 0 <= k < |entries| ensures Done(u, sk, entries[k], indexOutput) {
      assert Done(t, sk, entries[k], indexOutput);
      ContradictionNeedsEntries(t, u, EntryKey(sk, entries[k].id), entries[k].raw);
    }
  }

  lemma EpisodesNeedCalls(t: Tables, u: Tables, rules: Rules, sk: SessionKey)
    requires t.tools == u.tools && t.entries == u.entries
    ensures EpisodesStored(t, rules, sk) == EpisodesStored(u, rules, sk)
  {
  }

  // ---- tools and episodes -----------------------------------------------------------------------------

  lemma {:induction false} ToolsKeep(tools: seq<ToolRow>, rules: Rules, job: Job, sk: SessionKey, project: string,
                                     invs: seq<P.Invocation>)
    ensures var out := InsertTools(tools, rules, job, sk, project, invs);
            && tools <= out && AllStored(out, sk, invs)
            && forall r :: r in out && r !in tools ==>
               r.session == sk && exists k :: 0 <= k < |invs| && invs[k].entry == r.entry
  {
    hide StoredSignature, Scrubbed;
    if |invs| > 0 {
      var n := |invs| - 1;
      ToolsKeep(tools, rules, job, sk, project, invs[..n]);
      InsertToolsNext(tools, rules, job, sk, project, invs);
      var rest, out := InsertTools(tools, rules, job, sk, project, invs[..n]),
          InsertTools(tools, rules, job, sk, project, invs);
      HasToolLater(rest, out, sk);
      forall k | 0 <= k < |invs| && invs[k].observed ensures HasTool(out, sk, invs[k]) {
        if k < n { assert HasTool(rest, sk, invs[..n][k]); }
        else if !HasTool(rest, sk, invs[n]) { assert out[|rest|] in out && RowOf(out[|rest|], sk, invs[n]); }
      }
    }
  }

  lemma HasToolLater(tools: seq<ToolRow>, more: seq<ToolRow>, sk: SessionKey)
    requires tools <= more
    ensures forall i :: HasTool(tools, sk, i) ==> HasTool(more, sk, i)
  {
  }

  lemma {:induction false} AcceptedAreStored(t: Tables, sk: SessionKey, entries: seq<P.Entry>)
    ensures forall e :: e in Accepted(t, sk, entries) ==> StoredAs(t, sk, e)
  {
    if |entries| > 0 { AcceptedAreStored(t, sk, entries[..|entries| - 1]); }
  }

  /** Another session's calls read as they did. */
  lemma {:induction false} OtherRowsKept(tools: seq<ToolRow>, more: seq<ToolRow>, entries: map<EntryKey, EntryRow>,
                                         entries': map<EntryKey, EntryRow>, rules: Rules, sk: SessionKey)
    requires tools <= more && Sub(entries, entries')
    requires forall r :: r in tools ==> EntryKey(r.session, r.entry) in entries
    requires forall k :: |tools| <= k < |more| ==> more[k].session != sk
    ensures CallRows(more, entries', rules, sk) == CallRows(tools, entries, rules, sk)
  {
    if |more| > |tools| {
      OtherRowsKept(tools, more[..|more| - 1], entries, entries', rules, sk);
    } else if |tools| > 0 {
      assert more == tools;
      var n := |tools| - 1;
      assert tools[n] in tools;
      OtherRowsKept(tools[..n], tools[..n], entries, entries', rules, sk);
    }
  }

  // ---- where tool rows come from --------------------------------------------------------------------------

  /** A stored call is call c of entry e, as some file of that source was parsed and as the entry is stored. */
  ghost predicate ParsedCall(t: Tables, rules: Rules, r: ToolRow, x: ParseInput, e: P.Entry, c: P.Call) {
    && x.source == r.session.source && rules.parse(x).Some? && e in rules.parse(x).value.entries
    && e.id == r.entry && StoredAs(t, r.session, e)
    && c in P.CallList(e) && c.ordinal == r.ordinal && P.KeyOf(c) == r.key
  }

  predicate SameKey(r: ToolRow, q: ToolRow) {
    r.session == q.session && r.entry == q.entry && r.key == q.key && r.ordinal == q.ordinal
  }

  /** The primary key of tool_invocations. */
  ghost predicate KeysDiffer(tools: seq<ToolRow>) {
    forall i, j :: 0 <= i < j < |tools| ==> !SameKey(tools[i], tools[j])
  }

  ghost predicate Traced(t: Tables, rules: Rules, r: ToolRow) {
    exists x: ParseInput, e: P.Entry, c: P.Call :: ParsedCall(t, rules, r, x, e, c)
  }

  /** Row keys are unique, and each row is of a call that was parsed. */
  ghost predicate RowsSound(t: Tables, rules: Rules) {
    KeysDiffer(t.tools) && forall i :: 0 <= i < |t.tools| ==> Traced(t, rules, t.tools[i])
  }

  lemma TracedLater(t: Tables, u: Tables, rules: Rules, r: ToolRow)
    requires Traced(t, rules, r) && Sub(t.entries, u.entries)
    ensures Traced(u, rules, r)
  {
    hide P.CallList, P.KeyOf;
    var x: ParseInput, e: P.Entry, c: P.Call :| ParsedCall(t, rules, r, x, e, c);
    assert ParsedCall(u, rules, r, x, e, c);
  }

  lemma RowsSoundFrame(t: Tables, u: Tables, rules: Rules)
    requires RowsSound(t, rules) && u.tools == t.tools && Sub(t.entries, u.entries)
    ensures RowsSound(u, rules)
  {
    hide Traced, KeysDiffer, Sub;
    forall i | 0 <= i < |u.tools| ensures Traced(u, rules, u.tools[i]) { TracedLater(t, u, rules, t.tools[i]); }
  }

  /** An invocation of an entry that is stored as this file has it. */
  ghost predicate Sourced(t: Tables, rules: Rules, sk: SessionKey, x: ParseInput, i: P.Invocation) {
    && rules.parse(x).Some? && x.source == sk.source
    && exists e: P.Entry, c: P.Call :: CallOf(t, sk, i, e, c) && e in rules.parse(x).value.entries
  }

  ghost predicate CallOf(t: Tables, sk: SessionKey, i: P.Invocation, e: P.Entry, c: P.Call) {
    e.id == i.entry && StoredAs(t, sk, e) && c in P.CallList(e) && c.ordinal == i.ordinal && P.KeyOf(c) == i.key
  }

  ghost predicate AllSourced(t: Tables, rules: Rules, sk: SessionKey, x: ParseInput, invs: seq<P.Invocation>) {
    forall k :: 0 <= k < |invs| ==> Sourced(t, rules, sk, x, invs[k])
  }

  lemma {:induction false} ToolsTraced(t: Tables, rules: Rules, job: Job, sk: SessionKey, project: string,
                                       x: ParseInput,
                                       invs: seq<P.Invocation>)
    requires RowsSound(t, rules) && AllSourced(t, rules, sk, x, invs)
    ensures RowsSound(t.(tools := InsertTools(t.tools, rules, job, sk, project, invs)), rules)
  {
    hide StoredSignature, Scrubbed, InsertTools, Sourced, RowsSound, HasTool;
    if |invs| == 0 {
      NothingInserted(t, rules, job, sk, project);
    } else {
      var n := |invs| - 1;
      var rest := InsertTools(t.tools, rules, job, sk, project, invs[..n]);
      forall k | 0 <= k < n ensures Sourced(t, rules, sk, x, invs[..n][k]) { assert invs[..n][k] == invs[k]; }
      ToolsTraced(t, rules, job, sk, project, x, invs[..n]);
      InsertToolsNext(t.tools, rules, job, sk, project, invs);
      if invs[n].observed && !HasTool(rest, sk, invs[n]) {
        SourcedFrame(t, t.(tools := rest), rules, sk, x, invs[n]);
        RowAdded(t.(tools := rest), rules, ToolRowOf(rules, job, sk, project, invs[n]), invs[n], x);
      }
    }
  }

  lemma SourcedFrame(t: Tables, u: Tables, rules: Rules, sk: SessionKey, x: ParseInput, i: P.Invocation)
    requires u.entries == t.entries && Sourced(t, rules, sk, x, i)
    ensures Sourced(u, rules, sk, x, i)
  {
    hide P.CallList, P.KeyOf;
    var e: P.Entry, c: P.Call :| CallOf(t, sk, i, e, c) && e in rules.parse(x).value.entries;
    assert CallOf(u, sk, i, e, c);
  }

  lemma NothingInserted(t: Tables, rules: Rules, job: Job, sk: SessionKey, project: string)
    ensures t.(tools := InsertTools(t.tools, rules, job, sk, project, [])) == t
  {
    assert InsertTools(t.tools, rules, job, sk, project, []) == t.tools;
  }

  lemma RowAdded(t: Tables, rules: Rules, r: ToolRow, i: P.Invocation, x: ParseInput)
    requires RowsSound(t, rules) && Sourced(t, rules, r.session, x, i) && RowOf(r, r.session, i)
             && !HasTool(t.tools, r.session, i)
    ensures RowsSound(t.(tools := t.tools + [r]), rules)
  {
    var u := t.(tools := t.tools + [r]);
    SourcedFrame(t, u, rules, r.session, x, i);
    NewRowTraced(u, rules, r, i, x);
    hide P.CallList, P.KeyOf, Sourced, Traced, StoredAs;
    forall k | 0 <= k < |u.tools| ensures Traced(u, rules, u.tools[k]) {
      if k < |t.tools| { TracedLater(t, u, rules, t.tools[k]); }
    }
    forall k | 0 <= k < |t.tools| ensures !SameKey(t.tools[k], r) { assert t.tools[k] in t.tools; }
  }

  lemma NewRowTraced(t: Tables, rules: Rules, r: ToolRow, i: P.Invocation, x: ParseInput)
    requires Sourced(t, rules, r.session, x, i) && RowOf(r, r.session, i)
    ensures Traced(t, rules, r)
  {
    hide P.CallList, P.KeyOf;
    var e: P.Entry, c: P.Call :| CallOf(t, r.session, i, e, c) && e in rules.parse(x).value.entries;
    assert ParsedCall(t, rules, r, x, e, c);
  }

  lemma AcceptedSourced(t: Tables, rules: Rules, sk: SessionKey, x: ParseInput)
    requires rules.parse(x).Some? && x.source == sk.source
    ensures AllSourced(t, rules, sk, x, P.Paired(rules.naming, Accepted(t, sk, rules.parse(x).value.entries)))
  {
    hide P.Paired, P.KeyOf, P.CallList, StoredAs;
    var entries := rules.parse(x).value.entries;
    AcceptedAreStored(t, sk, entries);
    AcceptedAmong(t, sk, entries);
    var invs := P.Paired(rules.naming, Accepted(t, sk, entries));
    forall k | 0 <= k < |invs| ensures Sourced(t, rules, sk, x, invs[k]) {
      var e, c := P.InvocationComes(rules.naming, Accepted(t, sk, entries), k);
      assert CallOf(t, sk, invs[k], e, c);
    }
  }

  lemma {:induction false} AcceptedAmong(t: Tables, sk: SessionKey, entries: seq<P.Entry>)
    ensures forall e :: e in Accepted(t, sk, entries) ==> e in entries
  {
    if |entries| > 0 { AcceptedAmong(t, sk, entries[..|entries| - 1]); }
  }

  // ---- one session file ----------------------------------------------------------------------------------

  ghost predicate SameVersion(a: File, b: File) {
    a.source == b.source && a.path == b.path && a.rawPath == b.rawPath && a.sha == b.sha
  }

  /** g is a listed file with f's source, paths and bytes, and has been taken in for this machine. */
  ghost predicate Covers(t: Tables, rules: Rules, ok: Provenance, machine: string, f: File, g: File,
                         indexOutput: bool)
  {
    ok(machine, g, indexOutput) && SameVersion(f, g) && Absorbed(t, rules, indexOutput, machine, g)
  }

  ghost predicate Covered(t: Tables, rules: Rules, ok: Provenance, machine: string, f: File) {
    exists g, indexOutput :: Covers(t, rules, ok, machine, f, g, indexOutput)
  }

  /** Which file versions a history may hold: machine, file, and whether tool output is indexed. */
  type Provenance = (string, File, bool) -> bool

  ghost predicate Admitted(ok: Provenance, job: Job) {
    forall f :: f in job.manifest.files && f.kind == "session" ==>
    ok(job.manifest.machineId, f, job.manifest.policy.indexToolOutput)
  }

  /** A version row vouches for a file that was taken in under its session. */
  ghost predicate Vouches(t: Tables, rules: Rules, ok: Provenance, v: VersionKey, r: VersionRow, g: File,
                          indexOutput: bool)
  {
    && ok(v.session.machine, g, indexOutput)
    && VersionOf(v, r, v.session.machine, g)
    && Absorbed(t, rules, indexOutput, v.session.machine, g)
    && v.session == SessionOf(v.session.machine, g, rules.parse(InputOf(g)).value)
  }

  ghost predicate Backed(t: Tables, rules: Rules, ok: Provenance) {
    forall v :: v in t.versions ==> exists g, indexOutput :: Vouches(t, rules, ok, v, t.versions[v], g, indexOutput)
  }

  predicate SameFile(v: VersionKey, r: VersionRow, w: VersionKey, q: VersionRow) {
    && v.sha == w.sha && r.path == q.path && r.rawPath == q.rawPath
    && v.session.machine == w.session.machine && v.session.source == w.session.source
  }

  /** One file version belongs to one session, so it does not matter which row a lookup returns. */
  ghost predicate OneSession(t: Tables) {
    forall v, w :: v in t.versions && w in t.versions && SameFile(v, t.versions[v], w, t.versions[w]) ==>
    v.session == w.session
  }

  /** Every snapshot recorded is wholly taken in. */
  ghost predicate Complete(t: Tables, rules: Rules, ok: Provenance) {
    forall s, f :: s in t.snapshots && f in s.files && f.kind == "session" ==> Covered(t, rules, ok, s.machineId, f)
  }

  ghost predicate Sound(t: Tables, rules: Rules, ok: Provenance) {
    Agree(t) && Rooted(t) && Current(t, rules) && Backed(t, rules, ok) && OneSession(t) && RowsSound(t, rules)
  }

  lemma CoveredStays(t: Tables, u: Tables, rules: Rules, ok: Provenance, machine: string, f: File)
    requires Covered(t, rules, ok, machine, f) && Extends(t, u) && Agree(u)
    ensures Covered(u, rules, ok, machine, f)
  {
    hide Agree, Absorbed, Extends;
    var g, indexOutput :| Covers(t, rules, ok, machine, f, g, indexOutput);
    AbsorbedStays(t, u, rules, indexOutput, machine, g);
    assert Covers(u, rules, ok, machine, f, g, indexOutput);
  }

  /** Rows kept, each version row still vouches. */
  lemma VouchesStays(t: Tables, u: Tables, rules: Rules, ok: Provenance, v: VersionKey)
    requires Extends(t, u) && Agree(u) && v in t.versions && Backed(t, rules, ok)
    ensures exists g, indexOutput :: Vouches(u, rules, ok, v, t.versions[v], g, indexOutput)
  {
    var g, indexOutput :| Vouches(t, rules, ok, v, t.versions[v], g, indexOutput);
    hide Agree, Absorbed, Extends, SessionOf, Readable;
    AbsorbedStays(t, u, rules, indexOutput, v.session.machine, g);
    assert Vouches(u, rules, ok, v, t.versions[v], g, indexOutput);
  }

  lemma BeginKeeps(t: Tables, rules: Rules, job: Job, f: File, p: Parsed)
    requires Agree(t) && Rooted(t)
    ensures var sk := SessionOf(job.manifest.machineId, f, p);
            var u := AddVersion(t.(sessions := Put(t.sessions, sk, SessionRowOf(rules, job, f, p))), job, sk, f);
            Agree(u) && Rooted(u) && Extends(t, u) && sk in u.sessions && u.entries == t.entries && u.tools == t.tools
            && u.episodes == t.episodes && u.snapshots == t.snapshots
            && u.sessions.Keys == t.sessions.Keys + {sk}
            && u.versions == Put(t.versions, VersionKey(sk, f.sha, job.manifest),
                                 VersionRow(f.path, f.rawPath, job.manifest.capturedAt, f.copyState))
  {
    hide SessionRowOf, SessionOf;
  }

  /** What a parsed file leaves behind: everything still holds, and the file is absorbed. */
  lemma EntriesAndToolsKeep(t: Tables, rules: Rules, job: Job, f: File)
    requires Agree(t) && Rooted(t) && RowsSound(t, rules) && Readable(rules, job.manifest.machineId, f)
    ensures var p := rules.parse(InputOf(f)).value;
            var sk := SessionOf(job.manifest.machineId, f, p);
            var u := WithTools(WithEntries(t, rules, job, f, p), rules, job, f, p);
            && RowsSound(u, rules)
            && Agree(u) && Rooted(u) && Extends(t, u)
            && Absorbed(u, rules, job.manifest.policy.indexToolOutput, job.manifest.machineId, f)
            && u.sessions.Keys == t.sessions.Keys + {sk}
            && u.versions == Put(t.versions, VersionKey(sk, f.sha, job.manifest),
                                 VersionRow(f.path, f.rawPath, job.manifest.capturedAt, f.copyState))
            && u.episodes == t.episodes && u.snapshots == t.snapshots
            && (forall k :: |t.tools| <= k < |u.tools| ==> u.tools[k].session == sk)
  {
    var p := rules.parse(InputOf(f)).value;
    hide Readable, SessionOf, IngestEntries, InsertTools, SessionRowOf, Accepted;
    hide Agree, Done, HasTool, P.Paired, RowsSound;
    var sk := SessionOf(job.manifest.machineId, f, p);
    var begun := AddVersion(t.(sessions := Put(t.sessions, sk, SessionRowOf(rules, job, f, p))), job, sk, f);
    BeginKeeps(t, rules, job, f, p);
    EntriesKeep(begun, job, sk, p.entries);
    EntriesAccounted(begun, job, sk, p.entries);
    var mid := WithEntries(t, rules, job, f, p);
    assert Extends(t, mid) by { ExtendsTransitive(t, begun, mid); }
    ToolStep(t, mid, rules, job, f);
    RowsStep(t, mid, rules, job, f);
  }

  lemma ReadableParses(rules: Rules, machine: string, f: File)
    requires Readable(rules, machine, f)
    ensures rules.parse(InputOf(f)).Some?
  {
  }

  lemma RowsStep(t: Tables, mid: Tables, rules: Rules, job: Job, f: File)
    requires Readable(rules, job.manifest.machineId, f) && RowsSound(t, rules) && Extends(t, mid)
             && mid.tools == t.tools
    ensures RowsSound(WithTools(mid, rules, job, f, rules.parse(InputOf(f)).value), rules)
  {
    var p := rules.parse(InputOf(f)).value;
    var sk := SessionOf(job.manifest.machineId, f, p);
    hide Readable, Accepted, P.Paired, RowsSound, InsertTools, SessionId, AllSourced;
    RowsSoundFrame(t, mid, rules);
    assert rules.parse(InputOf(f)).Some? by { ReadableParses(rules, job.manifest.machineId, f); }
    AcceptedSourced(mid, rules, sk, InputOf(f));
    ToolsTraced(mid, rules, job, sk, rules.project(FirstNonEmpty(p.cwd, f.cwd)), InputOf(f),
                P.Paired(rules.naming, Accepted(mid, sk, p.entries)));
  }

  lemma ToolStep(t: Tables, mid: Tables, rules: Rules, job: Job, f: File)
    requires Readable(rules, job.manifest.machineId, f) && Agree(mid) && Rooted(mid) && Extends(t, mid)
             && mid.tools == t.tools
    requires var p := rules.parse(InputOf(f)).value;
             var sk := SessionOf(job.manifest.machineId, f, p);
             && sk in mid.sessions && AllDone(mid, sk, p.entries, job.manifest.policy.indexToolOutput)
             && AllAccounted(mid, sk, p.entries)
    ensures var p := rules.parse(InputOf(f)).value;
            var sk := SessionOf(job.manifest.machineId, f, p);
            var u := WithTools(mid, rules, job, f, p);
            && Agree(u) && Rooted(u) && Extends(t, u)
            && Absorbed(u, rules, job.manifest.policy.indexToolOutput, job.manifest.machineId, f)
            && (forall k :: |t.tools| <= k < |u.tools| ==> u.tools[k].session == sk)
  {
    var p := rules.parse(InputOf(f)).value;
    hide Readable, SessionOf, InsertTools, Accepted, Done, HasTool, P.Paired, Agree, Rooted, StoredAs, Accounted;
    var sk := SessionOf(job.manifest.machineId, f, p);
    var entries := Accepted(mid, sk, p.entries);
    var invs := P.Paired(rules.naming, entries);
    var u := WithTools(mid, rules, job, f, p);
    ToolsKeep(mid.tools, rules, job, sk, rules.project(FirstNonEmpty(p.cwd, f.cwd)), invs);
    AcceptedNeedsEntries(mid, u, sk, p.entries);
    DoneNeedsTables(mid, u, sk, p.entries, job.manifest.policy.indexToolOutput);
    forall k | 0 <= k < |p.entries| ensures Accounted(u, sk, p.entries[k]) { AccountedStays(mid, u, sk, p.entries[k]); }
    AcceptedInvocations(mid, rules, sk, p.entries);
    ToolsRooted(mid, u, sk);
    ExtendsTransitive(t, mid, u);
    forall k | |t.tools| <= k < |u.tools| ensures u.tools[k].session == sk {
      ToolsAreNew(mid, rules, job, sk, rules.project(FirstNonEmpty(p.cwd, f.cwd)), invs, k);
    }
  }

  lemma AcceptedInvocations(t: Tables, rules: Rules, sk: SessionKey, entries: seq<P.Entry>)
    ensures var invs := P.Paired(rules.naming, Accepted(t, sk, entries));
            forall k :: 0 <= k < |invs| ==> EntryKey(sk, invs[k].entry) in t.entries
  {
    hide Accepted, P.Paired, P.KeyOf, P.CallList;
    AcceptedAreStored(t, sk, entries);
    var invs := P.Paired(rules.naming, Accepted(t, sk, entries));
    forall k | 0 <= k < |invs| ensures EntryKey(sk, invs[k].entry) in t.entries {
      var e, c := P.InvocationComes(rules.naming, Accepted(t, sk, entries), k);
    }
  }

  lemma ToolsRooted(t: Tables, u: Tables, sk: SessionKey)
    requires Rooted(t) && Agree(t) && u == t.(tools := u.tools) && t.tools <= u.tools
    requires forall r :: r in u.tools && r !in t.tools ==> r.session == sk && EntryKey(sk, r.entry) in t.entries
    ensures Rooted(u) && Agree(u) && Extends(t, u)
  {
  }

  lemma {:induction false} ToolsAreNew(t: Tables, rules: Rules, job: Job, sk: SessionKey, project: string,
                                       invs: seq<P.Invocation>, k: nat)
    requires |t.tools| <= k < |InsertTools(t.tools, rules, job, sk, project, invs)|
    ensures InsertTools(t.tools, rules, job, sk, project, invs)[k].session == sk
  {
    hide StoredSignature, Scrubbed, HasTool;
    if |invs| > 0 {
      InsertToolsNext(t.tools, rules, job, sk, project, invs);
      if k < |InsertTools(t.tools, rules, job, sk, project, invs[..|invs| - 1])| {
        ToolsAreNew(t, rules, job, sk, project, invs[..|invs| - 1], k);
      }
    }
  }

  // ---- one session file: every invariant ---------------------------------------------------------------

  /** Only the session's own episodes are rebuilt; everyone else's still stand. */
  lemma EpisodesKeep(t: Tables, u: Tables, rules: Rules, sk: SessionKey)
    requires Current(t, rules) && Rooted(t) && Extends(t, u) && u.episodes == t.episodes
    requires u.sessions.Keys == t.sessions.Keys + {sk}
    requires forall k :: |t.tools| <= k < |u.tools| ==> u.tools[k].session == sk
    ensures Current(WithEpisodes(u, rules, sk), rules)
  {
    hide CallRows, SortBy, Kept, EpisodesOf;
    var w := WithEpisodes(u, rules, sk);
    forall other | other in w.sessions
      ensures other in w.episodes && w.episodes[other] == EpisodesStored(w, rules, other)
    {
      if other != sk { OtherRowsKept(t.tools, u.tools, t.entries, u.entries, rules, other); }
    }
  }

  lemma NewVersionKeeps(t: Tables, u: Tables, rules: Rules, ok: Provenance, v: VersionKey, r: VersionRow, g: File,
                        indexOutput: bool)
    requires Backed(t, rules, ok) && OneSession(t) && Extends(t, u) && Agree(u) && u.versions == Put(t.versions, v, r)
    requires Vouches(u, rules, ok, v, r, g, indexOutput)
    requires forall w :: w in t.versions && SameFile(w, t.versions[w], v, r) ==> w.session == v.session
    ensures Backed(u, rules, ok) && OneSession(u)
  {
    hide Agree, Extends, Vouches;
    forall w | w in u.versions
      ensures exists g, indexOutput :: Vouches(u, rules, ok, w, u.versions[w], g, indexOutput)
    {
      if w in t.versions { VouchesStays(t, u, rules, ok, w); }
    }
  }

  /** A session file parsed for the first time keeps every invariant and loses nothing. */
  lemma SessionKeeps(t: Tables, rules: Rules, ok: Provenance, job: Job, f: File)
    requires Sound(t, rules, ok) && Readable(rules, job.manifest.machineId, f) && !Known(t, job.manifest.machineId, f)
    requires ok(job.manifest.machineId, f, job.manifest.policy.indexToolOutput)
    ensures var u := IngestSession(t, rules, job, f);
            && Sound(u, rules, ok) && Extends(t, u) && u.snapshots == t.snapshots
            && Absorbed(u, rules, job.manifest.policy.indexToolOutput, job.manifest.machineId, f)
  {
    var p := rules.parse(InputOf(f)).value;
    hide Readable, WithEntries, WithTools, Accepted, Agree, Done, HasTool, P.Paired, EpisodesStored, Extends;
    var sk := SessionOf(job.manifest.machineId, f, p);
    var mid := WithTools(WithEntries(t, rules, job, f, p), rules, job, f, p);
    EntriesAndToolsKeep(t, rules, job, f);
    EpisodesKeep(t, mid, rules, sk);
    var u := WithEpisodes(mid, rules, sk);
    OnlyEpisodesDiffer(t, mid, u, rules, job.manifest.policy.indexToolOutput, job.manifest.machineId, f);
    assert u == IngestSession(t, rules, job, f);
    hide Current, Rooted, Absorbed, WithEpisodes;
    VersionStep(t, u, rules, ok, job, f);
  }

  lemma VersionStep(t: Tables, u: Tables, rules: Rules, ok: Provenance, job: Job, f: File)
    requires Backed(t, rules, ok) && OneSession(t) && Rooted(t) && Extends(t, u) && Agree(u)
    requires !Known(t, job.manifest.machineId, f)
    requires ok(job.manifest.machineId, f, job.manifest.policy.indexToolOutput)
    requires Absorbed(u, rules, job.manifest.policy.indexToolOutput, job.manifest.machineId, f)
    requires var sk := SessionOf(job.manifest.machineId, f, rules.parse(InputOf(f)).value);
             u.versions == Put(t.versions, VersionKey(sk, f.sha, job.manifest),
                               VersionRow(f.path, f.rawPath, job.manifest.capturedAt, f.copyState))
    ensures Backed(u, rules, ok) && OneSession(u)
  {
    var sk := SessionOf(job.manifest.machineId, f, rules.parse(InputOf(f)).value);
    hide Agree, Extends, Absorbed, Backed, OneSession;
    var v, r := VersionKey(sk, f.sha, job.manifest),
        VersionRow(f.path, f.rawPath, job.manifest.capturedAt, f.copyState);
    if v !in t.versions {
      TwinMeansKnown(t, job.manifest.machineId, f, v, r);
      assert Vouches(u, rules, ok, v, r, f, job.manifest.policy.indexToolOutput);
      NewVersionKeeps(t, u, rules, ok, v, r, f, job.manifest.policy.indexToolOutput);
    } else {
      OldVersionsKeep(t, u, rules, ok);
    }
  }

  lemma TwinMeansKnown(t: Tables, machine: string, f: File, v: VersionKey, r: VersionRow)
    requires Rooted(t) && VersionOf(v, r, machine, f)
    ensures (exists w :: w in t.versions && SameFile(w, t.versions[w], v, r)) ==> Known(t, machine, f)
  {
    if w :| w in t.versions && SameFile(w, t.versions[w], v, r) { assert VersionOf(w, t.versions[w], machine, f); }
  }

  lemma OldVersionsKeep(t: Tables, u: Tables, rules: Rules, ok: Provenance)
    requires Backed(t, rules, ok) && OneSession(t) && Extends(t, u) && Agree(u) && u.versions == t.versions
    ensures Backed(u, rules, ok) && OneSession(u)
  {
    hide Agree, Extends, Vouches;
    forall w | w in u.versions
      ensures exists g, indexOutput :: Vouches(u, rules, ok, w, u.versions[w], g, indexOutput)
    {
      VouchesStays(t, u, rules, ok, w);
    }
  }

  lemma OnlyEpisodesDiffer(t: Tables, mid: Tables, u: Tables, rules: Rules, indexOutput: bool, machine: string, f: File)
    requires u == mid.(episodes := u.episodes) && Extends(t, mid) && Agree(mid) && Rooted(mid) && RowsSound(mid, rules)
    requires Absorbed(mid, rules, indexOutput, machine, f)
    ensures Extends(t, u) && Agree(u) && Rooted(u) && RowsSound(u, rules) && Absorbed(u, rules, indexOutput, machine, f)
  {
    hide Absorbed, RowsSound;
    RowsSoundFrame(mid, u, rules);
    assert Extends(mid, u);
    AbsorbedStays(mid, u, rules, indexOutput, machine, f);
  }

  // ---- files, snapshots, runs ---------------------------------------------------------------------------

  /** Recording a known version keeps every invariant, and the file is covered. */
  lemma ShortcutKeeps(t: Tables, rules: Rules, ok: Provenance, job: Job, f: File)
    requires Sound(t, rules, ok) && Known(t, job.manifest.machineId, f)
    ensures var u := AddVersion(t, job, KnownSession(t, job.manifest.machineId, f), f);
            && Sound(u, rules, ok) && Extends(t, u) && u.snapshots == t.snapshots
            && Covered(u, rules, ok, job.manifest.machineId, f)
  {
    var machine := job.manifest.machineId;
    var v, g, indexOutput := KnownIsVouched(t, rules, ok, machine, f);
    var u := AddVersion(t, job, v.session, f);
    AddVersionFrame(t, rules, job, v.session, f);
    hide RowsSound, Agree, Current, Rooted, Extends, Absorbed, Known;
    hide KnownSession, Vouches, Backed, OneSession, SessionOf;
    KnownVouchesLater(t, u, rules, ok, job, v, g, indexOutput, f);
  }

  lemma AddVersionFrame(t: Tables, rules: Rules, job: Job, sk: SessionKey, f: File)
    requires Agree(t) && Rooted(t) && Current(t, rules) && RowsSound(t, rules) && sk in t.sessions
    ensures var u := AddVersion(t, job, sk, f);
            Agree(u) && Rooted(u) && Current(u, rules) && RowsSound(u, rules) && Extends(t, u)
  {
    hide Agree, Current, Extends, RowsSound;
    SameRowsFrame(t, AddVersion(t, job, sk, f), rules);
  }

  lemma KnownIsVouched(t: Tables, rules: Rules, ok: Provenance, machine: string, f: File)
    returns (v: VersionKey, g: File, indexOutput: bool)
    requires Backed(t, rules, ok) && Known(t, machine, f)
    ensures v in t.versions && v.session in t.sessions && VersionOf(v, t.versions[v], machine, f)
    ensures v.session == KnownSession(t, machine, f)
    ensures Vouches(t, rules, ok, v, t.versions[v], g, indexOutput) && SameVersion(f, g)
  {
    hide Absorbed, SessionOf;
    v :| v in t.versions && v.session in t.sessions && VersionOf(v, t.versions[v], machine, f)
         && v.session == KnownSession(t, machine, f);
    g, indexOutput :| Vouches(t, rules, ok, v, t.versions[v], g, indexOutput);
  }

  lemma KnownVouchesLater(t: Tables, u: Tables, rules: Rules, ok: Provenance, job: Job, v: VersionKey, g: File,
                          indexOutput: bool, f: File)
    requires Backed(t, rules, ok) && OneSession(t) && Extends(t, u) && Agree(u) && v in t.versions
    requires VersionOf(v, t.versions[v], job.manifest.machineId, f)
    requires Vouches(t, rules, ok, v, t.versions[v], g, indexOutput) && SameVersion(f, g)
    requires u.versions == Put(t.versions, VersionKey(v.session, f.sha, job.manifest),
                               VersionRow(f.path, f.rawPath, job.manifest.capturedAt, f.copyState))
    ensures Backed(u, rules, ok) && OneSession(u) && Covered(u, rules, ok, job.manifest.machineId, f)
  {
    hide Agree, Extends, Absorbed, Backed, OneSession, SessionOf;
    AbsorbedStays(t, u, rules, indexOutput, job.manifest.machineId, g);
    assert Covers(u, rules, ok, job.manifest.machineId, f, g, indexOutput);
    var n, r := VersionKey(v.session, f.sha, job.manifest),
        VersionRow(f.path, f.rawPath, job.manifest.capturedAt, f.copyState);
    if n in t.versions {
      OldVersionsKeep(t, u, rules, ok);
    } else {
      assert Vouches(u, rules, ok, n, r, g, indexOutput);
      SameFileSameSession(t, v, n, r);
      NewVersionKeeps(t, u, rules, ok, n, r, g, indexOutput);
    }
  }

  lemma SameFileSameSession(t: Tables, v: VersionKey, n: VersionKey, r: VersionRow)
    requires OneSession(t) && v in t.versions && SameFile(v, t.versions[v], n, r) && n.session == v.session
    ensures forall w :: w in t.versions && SameFile(w, t.versions[w], n, r) ==> w.session == n.session
  {
    forall w | w in t.versions && SameFile(w, t.versions[w], n, r) ensures w.session == n.session {
      assert SameFile(w, t.versions[w], v, t.versions[v]);
    }
  }

  lemma FileKeeps(t: Tables, rules: Rules, ok: Provenance, job: Job, opens: string -> bool, f: File)
    requires Sound(t, rules, ok)
    requires f.kind == "session" ==> ok(job.manifest.machineId, f, job.manifest.policy.indexToolOutput)
    ensures var r := IngestFile(t, rules, job, opens, f);
            r.Some? ==> && Sound(r.value, rules, ok) && Extends(t, r.value) && r.value.snapshots == t.snapshots
                        && (f.kind == "session" ==> Covered(r.value, rules, ok, job.manifest.machineId, f))
  {
    var machine := job.manifest.machineId;
    hide Absorbed, Extends, Agree, Rooted, Current, Backed, OneSession, Readable, Known, KnownSession, IngestSession;
    if f.kind == "session" && Known(t, machine, f) {
      ShortcutKeeps(t, rules, ok, job, f);
    } else if f.kind == "session" && Readable(rules, machine, f) {
      SessionKeeps(t, rules, ok, job, f);
      assert Covers(IngestSession(t, rules, job, f), rules, ok, machine, f, f, job.manifest.policy.indexToolOutput);
    } else {
      ExtendsItself(t);
    }
  }

  lemma ExtendsItself(t: Tables)
    ensures Extends(t, t)
  {
  }

  ghost predicate FilesCovered(t: Tables, rules: Rules, ok: Provenance, machine: string, files: seq<File>) {
    forall k :: 0 <= k < |files| && files[k].kind == "session" ==> Covered(t, rules, ok, machine, files[k])
  }

  lemma {:induction false} FilesKeep(t: Tables, rules: Rules, ok: Provenance, job: Job, opens: string -> bool,
                                     files: seq<File>)
    requires Sound(t, rules, ok)
    requires forall f :: f in files && f.kind == "session" ==>
             ok(job.manifest.machineId, f, job.manifest.policy.indexToolOutput)
    ensures var r := IngestFiles(t, rules, job, opens, files);
            r.Some? ==> && Sound(r.value, rules, ok) && Extends(t, r.value) && r.value.snapshots == t.snapshots
                        && FilesCovered(r.value, rules, ok, job.manifest.machineId, files)
  {
    hide Sound, Extends, IngestFile, Covered;
    ExtendsItself(t);
    if |files| > 0 {
      var n := |files| - 1;
      FilesKeep(t, rules, ok, job, opens, files[..n]);
      var rest := IngestFiles(t, rules, job, opens, files[..n]);
      if rest.Some? {
        FileKeeps(rest.value, rules, ok, job, opens, files[n]);
        var r := IngestFile(rest.value, rules, job, opens, files[n]);
        if r.Some? {
          ExtendsTransitive(t, rest.value, r.value);
          forall k | 0 <= k < |files| && files[k].kind == "session"
            ensures Covered(r.value, rules, ok, job.manifest.machineId, files[k])
          {
            if k < n {
              assert files[..n][k] == files[k];
              CoveredNext(rest.value, r.value, rules, ok, job.manifest.machineId, files[k]);
            }
          }
        }
      }
    }
  }

  lemma CoveredNext(t: Tables, u: Tables, rules: Rules, ok: Provenance, machine: string, f: File)
    requires Covered(t, rules, ok, machine, f) && Extends(t, u) && Sound(u, rules, ok)
    ensures Covered(u, rules, ok, machine, f)
  {
    hide Covered, Extends, Agree;
    CoveredStays(t, u, rules, ok, machine, f);
  }

  /** A snapshot taken in keeps every invariant, and every snapshot recorded stays wholly taken in. */
  lemma SnapshotKeeps(t: Tables, rules: Rules, ok: Provenance, job: Job, opens: string -> bool)
    requires Sound(t, rules, ok) && Complete(t, rules, ok) && Admitted(ok, job)
    ensures var r := IngestSnapshot(t, rules, job, opens);
            r.Some? ==> Sound(r.value, rules, ok) && Complete(r.value, rules, ok) && Extends(t, r.value)
                        && job.manifest in r.value.snapshots
  {
    hide Covered, IngestFiles;
    var dup := job.manifest in t.snapshots;
    var begun := t.(attempts := t.attempts + [Attempt(job.manifest, dup)]);
    var started := if dup then begun else begun.(snapshots := t.snapshots + {job.manifest});
    ProvenanceFrame(t, started, rules, ok);
    FilesKeep(started, rules, ok, job, opens, job.manifest.files);
    var r := IngestSnapshot(t, rules, job, opens);
    if r.Some? {
      if !dup { ExtendsTransitive(t, started, r.value); }
      CompleteNext(t, r.value, rules, ok, job.manifest);
    }
  }

  lemma CompleteNext(t: Tables, u: Tables, rules: Rules, ok: Provenance, m: Snapshot)
    requires Complete(t, rules, ok) && Extends(t, u) && Sound(u, rules, ok)
    requires u.snapshots == t.snapshots + {m}
    requires m !in t.snapshots ==> FilesCovered(u, rules, ok, m.machineId, m.files)
    ensures Complete(u, rules, ok)
  {
    hide Covered, Extends, Sound;
    forall s, f | s in u.snapshots && f in s.files && f.kind == "session"
      ensures Covered(u, rules, ok, s.machineId, f)
    {
      if s in t.snapshots { CoveredNext(t, u, rules, ok, s.machineId, f); }
    }
  }

  /** Attempts and snapshot rows bear on no invariant. */
  lemma ProvenanceFrame(t: Tables, u: Tables, rules: Rules, ok: Provenance)
    requires Sound(t, rules, ok) && u == t.(attempts := u.attempts, snapshots := u.snapshots)
             && t.snapshots <= u.snapshots
    ensures Sound(u, rules, ok) && Extends(t, u)
  {
    SameRowsFrame(t, u, rules);
    hide Agree, Extends, Rooted, Current, RowsSound;
    OldVersionsKeep(t, u, rules, ok);
  }

  /** Rows of sessions, entries, messages, calls and episodes decide all but the versions. */
  lemma SameRowsFrame(t: Tables, u: Tables, rules: Rules)
    requires Agree(t) && Rooted(t) && Current(t, rules) && RowsSound(t, rules)
    requires u == t.(versions := u.versions, attempts := u.attempts, snapshots := u.snapshots)
    requires Sub(t.versions, u.versions) && t.snapshots <= u.snapshots && forall v :: v in u.versions ==>
             v.session in u.sessions
    ensures Agree(u) && Rooted(u) && Current(u, rules) && RowsSound(u, rules) && Extends(t, u)
  {
    hide EpisodesStored, RowsSound;
    RowsSoundFrame(t, u, rules);
    forall s | s in u.sessions ensures EpisodesStored(u, rules, s) == EpisodesStored(t, rules, s) {
      EpisodesNeedCalls(t, u, rules, s);
    }
  }

  /** One ingest of a run: any machine's snapshot, any redactor, any failing blob. */
  datatype Ingest = Ingest(job: Job, opens: string -> bool)

  /** A failed ingest rolls back. */
  ghost function After(t: Tables, rules: Rules, i: Ingest): Tables {
    var r := IngestSnapshot(t, rules, i.job, i.opens);
    if r.Some? then r.value else t
  }

  ghost function RunFrom(t: Tables, rules: Rules, ingests: seq<Ingest>): Tables {
    if |ingests| == 0 then t else After(RunFrom(t, rules, ingests[..|ingests| - 1]), rules, ingests[|ingests| - 1])
  }

  /** The k-th ingest went through. */
  ghost predicate Took(t: Tables, rules: Rules, ingests: seq<Ingest>, k: nat)
    requires k < |ingests|
  {
    IngestSnapshot(RunFrom(t, rules, ingests[..k]), rules, ingests[k].job, ingests[k].opens).Some?
  }

  ghost predicate AllAdmitted(t: Tables, rules: Rules, ok: Provenance, ingests: seq<Ingest>) {
    forall k :: 0 <= k < |ingests| && Took(t, rules, ingests, k) ==> Admitted(ok, ingests[k].job)
  }

  lemma TookBefore(t: Tables, rules: Rules, ingests: seq<Ingest>, n: nat, k: nat)
    requires k < n <= |ingests|
    ensures Took(t, rules, ingests[..n], k) <==> Took(t, rules, ingests, k)
  {
    hide RunFrom, IngestSnapshot;
    assert ingests[..n][..k] == ingests[..k];
  }

  function Anything(): Provenance { (machine, f, indexOutput) => true }

  lemma EmptyIsSound(rules: Rules, ok: Provenance)
    ensures Sound(EMPTY, rules, ok) && Complete(EMPTY, rules, ok)
  {
  }

  /** After any sequence of ingests from any machines: same source entry, same content everywhere; foreign keys
      hold; episodes are those of the stored calls; every recorded snapshot and version is really taken in; and
      nothing stored at any earlier moment has been lost or altered. */
  lemma {:induction false} RunSound(t: Tables, rules: Rules, ok: Provenance, ingests: seq<Ingest>)
    requires Sound(t, rules, ok) && Complete(t, rules, ok) && AllAdmitted(t, rules, ok, ingests)
    ensures Sound(RunFrom(t, rules, ingests), rules, ok) && Complete(RunFrom(t, rules, ingests), rules, ok)
    ensures Extends(t, RunFrom(t, rules, ingests))
  {
    hide Sound, Complete, Extends, IngestSnapshot;
    ExtendsItself(t);
    if |ingests| > 0 {
      var n := |ingests| - 1;
      forall k | 0 <= k < n && Took(t, rules, ingests[..n], k) ensures Admitted(ok, ingests[..n][k].job) {
        TookBefore(t, rules, ingests, n, k);
      }
      RunSound(t, rules, ok, ingests[..n]);
      var mid := RunFrom(t, rules, ingests[..n]);
      if IngestSnapshot(mid, rules, ingests[n].job, ingests[n].opens).Some? {
        assert Took(t, rules, ingests, n);
        SnapshotKeeps(mid, rules, ok, ingests[n].job, ingests[n].opens);
        ExtendsTransitive(t, mid, RunFrom(t, rules, ingests));
      }
    }
  }

  /** Stored entries of one source session and entry id have one hash on all machines, and stay as they are. */
  lemma EntriesAgreeAndNeverChange(rules: Rules, earlier: seq<Ingest>, later: seq<Ingest>, a: EntryKey, b: EntryKey)
    requires a in RunFrom(EMPTY, rules, earlier).entries
    ensures var t := RunFrom(EMPTY, rules, earlier);
            var u := RunFrom(t, rules, later);
            && a in u.entries && u.entries[a] == t.entries[a]
            && (b in u.entries && SameSource(a, b) ==> u.entries[b].sha == t.entries[a].sha)
  {
    hide IngestSnapshot;
    EmptyIsSound(rules, Anything());
    RunSound(EMPTY, rules, Anything(), earlier);
    RunSound(RunFrom(EMPTY, rules, earlier), rules, Anything(), later);
  }

  // ---- the known-version shortcut --------------------------------------------------------------------------

  /** Reprocessing, whatever was ingested in between: a file once absorbed writes nothing when parsed again under
      the same tool-output policy, however much later. */
  lemma ReprocessingIsQuiet(t: Tables, rules: Rules, ok: Provenance, later: seq<Ingest>, job: Job, f: File)
    requires Sound(t, rules, ok) && Complete(t, rules, ok) && AllAdmitted(t, rules, ok, later)
    requires Absorbed(t, rules, job.manifest.policy.indexToolOutput, job.manifest.machineId, f)
    ensures var u := RunFrom(t, rules, later);
            var w := IngestSession(u, rules, job, f);
            && w.sessions == u.sessions && w.entries == u.entries && w.messages == u.messages
            && w.tools == u.tools && w.episodes == u.episodes
  {
    hide Absorbed, Extends, IngestSnapshot, IngestSession, Complete, Agree, Current;
    RunSound(t, rules, ok, later);
    var u := RunFrom(t, rules, later);
    AbsorbedStays(t, u, rules, job.manifest.policy.indexToolOutput, job.manifest.machineId, f);
    ReprocessingChangesNothing(u, rules, job, f);
  }

  /** What the ingests of a history that went through listed. */
  ghost predicate Listed(rules: Rules, history: seq<Ingest>, k: nat, machine: string, f: File, indexOutput: bool) {
    && k < |history| && Took(EMPTY, rules, history, k)
    && var m := history[k].job.manifest;
       m.machineId == machine && f in m.files && f.kind == "session" && m.policy.indexToolOutput == indexOutput
  }

  /** Each time this machine listed this version of f before, it was described as f is, and tool output was indexed
      if it now is. */
  ghost predicate Steady(rules: Rules, history: seq<Ingest>, job: Job, f: File) {
    forall k, g, indexOutput ::
      Listed(rules, history, k, job.manifest.machineId, g, indexOutput) && SameVersion(f, g) ==>
      InputOf(f) == InputOf(g) && (job.manifest.policy.indexToolOutput ==> indexOutput)
  }

  /** The file versions a history did hold. */
  ghost function FromHistory(rules: Rules, history: seq<Ingest>): Provenance {
    (machine, g, indexOutput) => exists k: nat :: Listed(rules, history, k, machine, g, indexOutput)
  }

  lemma HistoryAdmitted(rules: Rules, history: seq<Ingest>, ok: Provenance)
    requires forall k: nat, machine, g, indexOutput ::
               Listed(rules, history, k, machine, g, indexOutput) ==> ok(machine, g, indexOutput)
    ensures AllAdmitted(EMPTY, rules, ok, history)
  {
    hide Took;
    forall k | 0 <= k < |history| && Took(EMPTY, rules, history, k) ensures Admitted(ok, history[k].job) {
      var m := history[k].job.manifest;
      forall f | f in m.files && f.kind == "session" ensures ok(m.machineId, f, m.policy.indexToolOutput) {
        assert Listed(rules, history, k, m.machineId, f, m.policy.indexToolOutput);
      }
    }
  }

  /** What was taken in with tool output indexed is all there without. */
  lemma AbsorbedWithout(t: Tables, rules: Rules, a: bool, b: bool, machine: string, f: File)
    requires Absorbed(t, rules, a, machine, f) && (b ==> a)
    ensures Absorbed(t, rules, b, machine, f)
  {
    hide Accepted, P.Paired, SessionOf, Readable, Contradicted, HasColumns, Blank, AllAccounted;
    ReadableParses(rules, machine, f);
    var p := rules.parse(InputOf(f)).value;
    var sk := SessionOf(machine, f, p);
    forall k | 0 <= k < |p.entries| ensures Done(t, sk, p.entries[k], b) { assert Done(t, sk, p.entries[k], a); }
  }

  lemma AbsorbedByInput(t: Tables, rules: Rules, indexOutput: bool, machine: string, f: File, g: File)
    requires InputOf(f) == InputOf(g) && Absorbed(t, rules, indexOutput, machine, g)
    ensures Absorbed(t, rules, indexOutput, machine, f)
    ensures SessionOf(machine, f, rules.parse(InputOf(f)).value) == SessionOf(machine, g, rules.parse(InputOf(g)).value)
  {
    hide Accepted, P.Paired, AllDone, AllAccounted, Blank;
  }

  /** Where the machine's earlier manifests described this version alike, skipping it does exactly what parsing it
      again would have done, apart from the conflict rows a second look would repeat. */
  lemma ShortcutEqualsReparse(rules: Rules, history: seq<Ingest>, job: Job, f: File)
    requires Steady(rules, history, job, f)
    requires Known(RunFrom(EMPTY, rules, history), job.manifest.machineId, f)
    ensures var t := RunFrom(EMPTY, rules, history);
            && Readable(rules, job.manifest.machineId, f)
            && var reparsed := IngestSession(t, rules, job, f);
               AddVersion(t, job, KnownSession(t, job.manifest.machineId, f), f) == reparsed.(conflicts := t.conflicts)
  {
    hide Absorbed, Readable, Complete, Agree, Rooted, Current, SessionOf, Known, KnownSession, RunFrom, RowsSound;
    hide Listed, AllAdmitted;
    var ok: Provenance := FromHistory(rules, history);
    HistoryAdmitted(rules, history, ok);
    EmptyIsSound(rules, ok);
    RunSound(EMPTY, rules, ok, history);
    var t, machine := RunFrom(EMPTY, rules, history), job.manifest.machineId;
    var v, g, indexOutput := KnownIsVouched(t, rules, ok, machine, f);
    AbsorbedByInput(t, rules, indexOutput, machine, f, g);
    AbsorbedWithout(t, rules, indexOutput, job.manifest.policy.indexToolOutput, machine, f);
    AbsorbedIsReadable(t, rules, indexOutput, machine, f);
    ReprocessingChangesNothing(t, rules, job, f);
    ReparseFrame(t, rules, job, f);
  }

  lemma AbsorbedIsReadable(t: Tables, rules: Rules, indexOutput: bool, machine: string, f: File)
    requires Absorbed(t, rules, indexOutput, machine, f)
    ensures Readable(rules, machine, f)
  {
  }

  lemma ReparseFrame(t: Tables, rules: Rules, job: Job, f: File)
    requires Readable(rules, job.manifest.machineId, f)
    ensures var u := IngestSession(t, rules, job, f);
            && u.versions == AddVersion(t, job, SessionOf(job.manifest.machineId, f, rules.parse(InputOf(f)).value),
                                        f).versions
            && u.snapshots == t.snapshots && u.attempts == t.attempts
  {
    var p := rules.parse(InputOf(f)).value;
    hide Readable, SessionOf, InsertTools, EpisodesStored, SessionRowOf, Accepted, P.Paired, IngestEntries;
    var sk := SessionOf(job.manifest.machineId, f, p);
    EntriesFrame(AddVersion(t.(sessions := Put(t.sessions, sk, SessionRowOf(rules, job, f, p))), job, sk, f), job, sk,
                 p.entries);
  }

  lemma {:induction false} EntriesFrame(t: Tables, job: Job, sk: SessionKey, entries: seq<P.Entry>)
    ensures SameOtherwise(t, IngestEntries(t, job, sk, entries))
  {
    hide Contradicted, ShouldPersist;
    if |entries| > 0 { EntriesFrame(t, job, sk, entries[..|entries| - 1]); }
  }

  // ---- where the shortcut is not a reparse --------------------------------------------------------------------

  /** With f just taken in under i, skipping g under j does what parsing g under j would. */
  ghost predicate Skippable(rules: Rules, i: Job, j: Job, f: File, g: File)
    requires i.manifest.machineId == j.manifest.machineId
  {
    var machine := j.manifest.machineId;
    Readable(rules, machine, f) && Readable(rules, machine, g) ==>
      var t := IngestSession(EMPTY, rules, i, f);
      && Known(t, machine, g)
      && AddVersion(t, j, KnownSession(t, machine, g), g) == IngestSession(t, rules, j, g).(conflicts := t.conflicts)
  }

  const ONE := P.Entry("e", "", 1, "", "", "toolResult", "r", "r", "", "", "", [], [],
                       P.Columns("", "", 0, 0, 0, 0, 0.0, "", "", ""), "", 0, true, "")

  /** A parser that finds one tool result, and that only when described as told. */
  function Telling(told: ParseInput): Rules {
    Rules(x => Some(Parsed("s", "", "", false, "", if x == told then [ONE] else [])),
          P.Naming((tool, command) => "", text => ""), cwd => "", text => None, sha => 0)
  }

  /** The lookup behind the shortcut compares machine, source, paths and bytes. It looks neither at the session id,
      working directory, start time or subagent flag a manifest also hands the parser, nor at whether the manifest
      has tool output indexed. Whatever the parser, skipping is parsing exactly when the former agree and tool output
      is not newly indexed. */
  lemma ShortcutSafeIff(i: Job, j: Job, f: File, g: File)
    requires i.manifest.machineId == j.manifest.machineId
    requires SameVersion(f, g) && !Blank(f.source) && !Blank(j.manifest.machineId)
    ensures (forall rules: Rules :: Skippable(rules, i, j, f, g))
            <==> InputOf(f) == InputOf(g) && (j.manifest.policy.indexToolOutput ==> i.manifest.policy.indexToolOutput)
  {
    hide Skippable;
    if InputOf(f) != InputOf(g) {
      ToldApart(i, j, f, g);
    } else if j.manifest.policy.indexToolOutput && !i.manifest.policy.indexToolOutput {
      NewlyIndexed(i, j, f, g);
    } else {
      forall rules: Rules ensures Skippable(rules, i, j, f, g) { SameInputSkips(rules, i, j, f, g); }
    }
  }

  lemma SameInputSkips(rules: Rules, i: Job, j: Job, f: File, g: File)
    requires i.manifest.machineId == j.manifest.machineId
    requires InputOf(f) == InputOf(g) && (j.manifest.policy.indexToolOutput ==> i.manifest.policy.indexToolOutput)
    ensures Skippable(rules, i, j, f, g)
  {
    hide Absorbed, Readable, Agree, Rooted, Backed, OneSession, SessionOf, RowsSound;
    var machine := j.manifest.machineId;
    if Readable(rules, machine, f) && Readable(rules, machine, g) {
      EmptyIsSound(rules, Anything());
      NothingKnown(machine, f);
      SessionKeeps(EMPTY, rules, Anything(), i, f);
      var t := IngestSession(EMPTY, rules, i, f);
      AbsorbedByInput(t, rules, i.manifest.policy.indexToolOutput, machine, g, f);
      AbsorbedWithout(t, rules, i.manifest.policy.indexToolOutput, j.manifest.policy.indexToolOutput, machine, g);
      ReprocessingChangesNothing(t, rules, j, g);
      ReparseFrame(t, rules, j, g);
      FirstVersion(rules, i, f, g);
    }
  }

  lemma NothingKnown(machine: string, f: File)
    ensures !Known(EMPTY, machine, f)
  {
  }

  /** After one file, its one version row is what a lookup of the same file finds. */
  lemma FirstVersion(rules: Rules, job: Job, f: File, g: File)
    requires SameVersion(f, g) && Readable(rules, job.manifest.machineId, f)
    ensures var machine := job.manifest.machineId;
            var t := IngestSession(EMPTY, rules, job, f);
            Known(t, machine, g) && KnownSession(t, machine, g) == SessionOf(machine, f, rules.parse(InputOf(f)).value)
  {
    ReparseFrame(EMPTY, rules, job, f);
    var machine := job.manifest.machineId;
    var p := rules.parse(InputOf(f)).value;
    var sk := SessionOf(machine, f, p);
    EmptyIsSound(rules, Anything());
    EntriesAndToolsKeep(EMPTY, rules, job, f);
    hide SessionOf, Readable, WithEntries, WithTools, Agree, Rooted, Absorbed, Extends;
    var t := IngestSession(EMPTY, rules, job, f);
    var v := VersionKey(sk, f.sha, job.manifest);
    assert t.versions.Keys == {v};
    assert sk in t.sessions;
    assert sk.machine == machine && sk.source == f.source by { SessionNames(machine, f, p); }
    assert VersionOf(v, t.versions[v], machine, g);
  }

  lemma SessionNames(machine: string, f: File, p: Parsed)
    ensures SessionOf(machine, f, p).machine == machine && SessionOf(machine, f, p).source == f.source
  {
  }

  /** Described otherwise, the file's entry is found by parsing and missed by skipping. */
  lemma ToldApart(i: Job, j: Job, f: File, g: File)
    requires i.manifest.machineId == j.manifest.machineId
    requires SameVersion(f, g) && InputOf(f) != InputOf(g) && !Blank(f.source) && !Blank(j.manifest.machineId)
    ensures !Skippable(Telling(InputOf(g)), i, j, f, g)
  {
    var rules, machine := Telling(InputOf(g)), j.manifest.machineId;
    TellingReads(InputOf(g), machine, f);
    TellingReads(InputOf(g), machine, g);
    var k := EntryKey(SessionKey(f.source, machine, "s"), "e");
    var t := IngestSession(EMPTY, rules, i, f);
    var u := IngestSession(t, rules, j, g);
    assert t.entries == map[] by { NoneParsed(EMPTY, rules, i, f); }
    assert k in u.entries by {
      assert Contradicted(t, k, ONE.raw).None?;
      OneParsed(t, rules, j, g);
    }
    hide IngestSession, Skippable;
    WritesTell(rules, i, j, f, g);
  }

  lemma WritesTell(rules: Rules, i: Job, j: Job, f: File, g: File)
    requires i.manifest.machineId == j.manifest.machineId
    requires Readable(rules, i.manifest.machineId, f) && Readable(rules, i.manifest.machineId, g)
    requires var t := IngestSession(EMPTY, rules, i, f);
             var u := IngestSession(t, rules, j, g);
             u.entries != t.entries || u.messages != t.messages
    ensures !Skippable(rules, i, j, f, g)
  {
    hide IngestSession, Known, KnownSession, Readable;
  }

  /** Described alike but with tool output newly indexed, the result's message is stored by parsing and missed by
      skipping. */
  lemma NewlyIndexed(i: Job, j: Job, f: File, g: File)
    requires i.manifest.machineId == j.manifest.machineId
    requires SameVersion(f, g) && InputOf(f) == InputOf(g) && !Blank(f.source) && !Blank(j.manifest.machineId)
    requires j.manifest.policy.indexToolOutput && !i.manifest.policy.indexToolOutput
    ensures !Skippable(Telling(InputOf(g)), i, j, f, g)
  {
    hide IngestSession, Skippable, Readable;
    var rules, machine := Telling(InputOf(g)), j.manifest.machineId;
    TellingReads(InputOf(g), machine, f);
    TellingReads(InputOf(g), machine, g);
    ResultAppears(rules, i, j, f, g);
    WritesTell(rules, i, j, f, g);
  }

  lemma ResultAppears(rules: Rules, i: Job, j: Job, f: File, g: File)
    requires i.manifest.machineId == j.manifest.machineId && f.source == g.source
    requires Readable(rules, i.manifest.machineId, f) && Readable(rules, i.manifest.machineId, g)
    requires rules.parse(InputOf(f)) == rules.parse(InputOf(g)) == Some(Parsed("s", "", "", false, "", [ONE]))
    requires j.manifest.policy.indexToolOutput && !i.manifest.policy.indexToolOutput
    ensures var t := IngestSession(EMPTY, rules, i, f); IngestSession(t, rules, j, g).messages != t.messages
  {
    hide IngestSession, Readable, ShouldPersist, MessageRowOf, Contradicted, EntryRowOf;
    var k := EntryKey(SessionKey(f.source, j.manifest.machineId, "s"), "e");
    var t := IngestSession(EMPTY, rules, i, f);
    OnlyIfIndexed();
    NothingContradicts(k);
    OneParsed(EMPTY, rules, i, f);
    RowAddressesRaw(i, ONE);
    StoredUncontradicted(t, k);
    OneParsed(t, rules, j, g);
  }

  lemma NothingContradicts(k: EntryKey)
    ensures Contradicted(EMPTY, k, ONE.raw).None?
  {
  }

  /** Over whole ingests: a snapshot taken in, then one that lists the same file and has tool output indexed. The
      result never gets its message, although the second snapshot alone would have stored it. */
  lemma NewlyIndexedIsMissed(rules: Rules, i: Job, j: Job, opens: string -> bool, f: File, g: File)
    requires i.manifest.machineId == j.manifest.machineId && i.manifest.files == [f] && j.manifest.files == [g]
    requires i.manifest != j.manifest && SameVersion(f, g) && f.kind == g.kind == "session"
    requires opens(f.sha) && rules.size(f.sha) == f.bytes == g.bytes
    requires Readable(rules, i.manifest.machineId, f) && Readable(rules, i.manifest.machineId, g)
    requires rules.parse(InputOf(f)) == rules.parse(InputOf(g)) == Some(Parsed("s", "", "", false, "", [ONE]))
    requires j.manifest.policy.indexToolOutput && !i.manifest.policy.indexToolOutput
    ensures var k := EntryKey(SessionKey(f.source, j.manifest.machineId, "s"), "e");
            && k !in RunFrom(EMPTY, rules, [Ingest(i, opens), Ingest(j, opens)]).messages
            && k in RunFrom(EMPTY, rules, [Ingest(j, opens)]).messages
  {
    hide IngestSnapshot, Readable, Known, RunFrom, ShouldPersist, MessageRowOf;
    var k := EntryKey(SessionKey(f.source, j.manifest.machineId, "s"), "e");
    OnlyIfIndexed();
    FirstIngest(rules, i, opens, f, g);
    FirstIngest(rules, j, opens, g, g);
    var mid := IngestSnapshot(EMPTY, rules, i, opens).value;
    RunOfTwo(rules, Ingest(i, opens), Ingest(j, opens));
    RunOfOne(rules, Ingest(j, opens));
    KnownIsSkipped(mid, rules, j, opens, g);
  }

  lemma RunOfOne(rules: Rules, i: Ingest)
    ensures RunFrom(EMPTY, rules, [i]) == After(EMPTY, rules, i)
  {
    hide After;
    assert [i][..0] == [];
    assert RunFrom(EMPTY, rules, []) == EMPTY;
  }

  lemma RunOfTwo(rules: Rules, i: Ingest, j: Ingest)
    ensures RunFrom(EMPTY, rules, [i, j]) == After(After(EMPTY, rules, i), rules, j)
  {
    hide After;
    RunOfOne(rules, i);
    assert [i, j][..1] == [i];
  }

  /** The first snapshot of a Workspace, of one file of one entry. */
  lemma FirstIngest(rules: Rules, job: Job, opens: string -> bool, f: File, g: File)
    requires SameVersion(f, g) && job.manifest.files == [f] && f.kind == "session"
    requires opens(f.sha) && rules.size(f.sha) == f.bytes
    requires Readable(rules, job.manifest.machineId, f)
    requires rules.parse(InputOf(f)) == Some(Parsed("s", "", "", false, "", [ONE]))
    ensures var r := IngestSnapshot(EMPTY, rules, job, opens);
            var k := EntryKey(SessionKey(f.source, job.manifest.machineId, "s"), "e");
            && r.Some? && r.value.snapshots == {job.manifest}
            && (k in r.value.messages <==> ShouldPersist(ONE, job.manifest.policy.indexToolOutput))
            && Known(r.value, job.manifest.machineId, g)
  {
    hide Readable, IngestSession, ShouldPersist, MessageRowOf, EntryRowOf, Contradicted;
    var t := EMPTY.(attempts := EMPTY.attempts + [Attempt(job.manifest, false)],
                    snapshots := EMPTY.snapshots + {job.manifest});
    var k := EntryKey(SessionKey(f.source, job.manifest.machineId, "s"), "e");
    NothingKnown(job.manifest.machineId, f);
    NothingContradicts(k);
    ContradictionNeedsEntries(EMPTY, t, k, ONE.raw);
    OneParsed(t, rules, job, f);
    ReparseFrame(t, rules, job, f);
    VersionKnown(t, rules, job, f, g);
    OneFile(EMPTY, rules, job, opens, f);
  }

  lemma OneFile(t: Tables, rules: Rules, job: Job, opens: string -> bool, f: File)
    requires job.manifest.files == [f] && job.manifest !in t.snapshots
    ensures var begun := t.(attempts := t.attempts + [Attempt(job.manifest, false)],
                            snapshots := t.snapshots + {job.manifest});
            IngestSnapshot(t, rules, job, opens) == IngestFile(begun, rules, job, opens, f)
  {
    hide IngestFile;
    var begun := t.(attempts := t.attempts + [Attempt(job.manifest, false)], snapshots := t.snapshots + {job.manifest});
    var files := job.manifest.files;
    assert files[..|files| - 1] == [];
    assert IngestFiles(begun, rules, job, opens, []) == Some(begun);
    assert IngestFiles(begun, rules, job, opens, files) == IngestFile(begun, rules, job, opens, files[0]);
  }

  /** After a session file any listing of that version is known. */
  lemma VersionKnown(t: Tables, rules: Rules, job: Job, f: File, g: File)
    requires SameVersion(f, g)
    requires Readable(rules, job.manifest.machineId, f) && Agree(t) && Rooted(t) && RowsSound(t, rules)
    requires t.versions == map[]
    ensures Known(IngestSession(t, rules, job, f), job.manifest.machineId, g)
  {
    EntriesAndToolsKeep(t, rules, job, f);
    hide Readable, WithEntries, WithTools, Agree, Rooted, RowsSound, Absorbed, Extends;
    var p := rules.parse(InputOf(f)).value;
    var sk, u := SessionOf(job.manifest.machineId, f, p), IngestSession(t, rules, job, f);
    var v := VersionKey(sk, f.sha, job.manifest);
    SessionNames(job.manifest.machineId, f, p);
    hide SessionOf;
    RowMakesKnown(u, v, job.manifest.machineId, g);
  }

  lemma RowMakesKnown(t: Tables, v: VersionKey, machine: string, f: File)
    requires v in t.versions && v.session in t.sessions && VersionOf(v, t.versions[v], machine, f)
    ensures Known(t, machine, f)
  {
  }

  lemma KnownIsSkipped(t: Tables, rules: Rules, job: Job, opens: string -> bool, f: File)
    requires job.manifest.files == [f] && f.kind == "session" && Known(t, job.manifest.machineId, f)
    ensures var r := IngestSnapshot(t, rules, job, opens); r.Some? && r.value.messages == t.messages
  {
    hide KnownSession;
    var begun := t.(attempts := t.attempts + [Attempt(job.manifest, false)], snapshots := t.snapshots + {job.manifest});
    if job.manifest !in t.snapshots {
      OneFile(t, rules, job, opens, f);
      var v :| v in t.versions && v.session in t.sessions && VersionOf(v, t.versions[v], job.manifest.machineId, f);
      assert v in begun.versions && VersionOf(v, begun.versions[v], job.manifest.machineId, f);
    }
  }

  lemma StoredUncontradicted(t: Tables, k: EntryKey)
    requires t.entries.Keys == {k}
    ensures Contradicted(t, k, t.entries[k].sha).None?
  {
  }

  lemma OnlyIfIndexed()
    ensures ShouldPersist(ONE, true) && !ShouldPersist(ONE, false)
  {
    assert !Blank("r") by { assert !IsSpace("r"[0]); }
  }

  lemma TellingReads(told: ParseInput, machine: string, f: File)
    requires !Blank(f.source) && !Blank(machine)
    ensures var rules := Telling(told);
            && Readable(rules, machine, f)
            && rules.parse(InputOf(f)) == Some(Parsed("s", "", "", false, "", if InputOf(f) == told then [ONE] else []))
  {
    assert !Blank("s") by { assert !IsSpace("s"[0]); }
    assert Refs.EntryIdOk("e", Blank) by { assert !IsSpace("e"[0]); }
  }

  lemma NoneParsed(t: Tables, rules: Rules, job: Job, f: File)
    requires Readable(rules, job.manifest.machineId, f)
             && rules.parse(InputOf(f)) == Some(Parsed("s", "", "", false, "", []))
    ensures var u := IngestSession(t, rules, job, f); u.entries == t.entries && u.messages == t.messages
  {
    hide Readable, InsertTools, EpisodesStored, Accepted, P.Paired, SessionRowOf;
  }

  /** The rows of a file of one entry that nothing contradicts. */
  lemma OneParsed(t: Tables, rules: Rules, job: Job, f: File)
    requires Readable(rules, job.manifest.machineId, f)
             && rules.parse(InputOf(f)) == Some(Parsed("s", "", "", false, "", [ONE]))
    requires Contradicted(t, EntryKey(SessionKey(f.source, job.manifest.machineId, "s"), "e"), ONE.raw).None?
    ensures var u := IngestSession(t, rules, job, f);
            var k := EntryKey(SessionKey(f.source, job.manifest.machineId, "s"), "e");
            && u.entries == Put(t.entries, k, EntryRowOf(job, ONE))
            && u.messages == if ShouldPersist(ONE, job.manifest.policy.indexToolOutput)
                             then Put(t.messages, k, MessageRowOf(job, f.source, ONE)) else t.messages
  {
    hide Readable, InsertTools, EpisodesStored, Accepted, P.Paired, SessionRowOf, ShouldPersist, MessageRowOf;
    hide EntryRowOf, Contradicted, Put;
    var p := rules.parse(InputOf(f)).value;
    var sk := SessionOf(job.manifest.machineId, f, p);
    var begun := AddVersion(t.(sessions := Put(t.sessions, sk, SessionRowOf(rules, job, f, p))), job, sk, f);
    ContradictionNeedsEntries(t, begun, EntryKey(sk, "e"), ONE.raw);
    assert p.entries[..0] == [];
    assert IngestEntries(begun, job, sk, p.entries[..0]) == begun;
  }
}
