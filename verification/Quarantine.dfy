/** What is refused is written down: the conflict rows of an ingest are exactly its refused entries. */
module Quarantine {
  import opened Order
  import opened Manifests
  import opened Options
  import opened Workspace
  import opened Projection
  import P = Pairing

  /** The entries of a transcript that are not stored as it has them. */
  function Refused(t: Tables, sk: SessionKey, entries: seq<P.Entry>): seq<P.Entry> {
    if |entries| == 0 then []
    else
      Refused(t, sk, entries[..|entries| - 1])
      + if StoredAs(t, sk, entries[|entries| - 1]) then [] else [entries[|entries| - 1]]
  }

  /** One row for each refused entry, in order, by this manifest, with a first content that is stored. */
  ghost predicate RowsFor(t: Tables, rows: seq<Conflict>, sk: SessionKey, refused: seq<P.Entry>, m: Snapshot) {
    |rows| == |refused|
    && forall k :: 0 <= k < |rows| ==> Quarantines(t, rows[k], sk, refused[k]) && rows[k].manifest == m
  }

  lemma RowsForLater(t: Tables, u: Tables, rows: seq<Conflict>, sk: SessionKey, refused: seq<P.Entry>, m: Snapshot)
    requires RowsFor(t, rows, sk, refused, m) && Sub(t.entries, u.entries)
    ensures RowsFor(u, rows, sk, refused, m)
  {
    hide HeldAs;
    forall k | 0 <= k < |rows| ensures Quarantines(u, rows[k], sk, refused[k]) {
      assert Quarantines(t, rows[k], sk, refused[k]);
      HeldLater(t, u, EntryKey(sk, refused[k].id), rows[k].first);
    }
  }

  /** One entry: a row exactly if it is refused. */
  lemma OneRow(t: Tables, job: Job, sk: SessionKey, e: P.Entry)
    requires Agree(t)
    ensures var u := IngestEntry(t, job, sk, e);
            && StoredAs(u, sk, e) == Contradicted(t, EntryKey(sk, e.id), e.raw).None?
            && t.conflicts <= u.conflicts
            && RowsFor(u, u.conflicts[|t.conflicts|..], sk, if StoredAs(u, sk, e) then [] else [e], job.manifest)
  {
    hide ShouldPersist, Contradicted, EntryRowOf, MessageRowOf, HeldAs;
    var k, u := EntryKey(sk, e.id), IngestEntry(t, job, sk, e);
    if Contradicted(t, k, e.raw).Some? {
      ContradictionIsHeld(t, k, e.raw);
      HeldLater(t, u, k, Contradicted(t, k, e.raw).value);
      if k in t.entries { StoredDecides(t, k, e.raw); }
    } else {
      RowAddressesRaw(job, e);
      if k in t.entries { UncontradictedIsSame(t, k, e.raw); }
    }
  }

  lemma {:induction false} RefusedStays(t: Tables, u: Tables, sk: SessionKey, entries: seq<P.Entry>, indexOutput: bool)
    requires Extends(t, u) && Agree(u) && AllDone(t, sk, entries, indexOutput)
    ensures Refused(u, sk, entries) == Refused(t, sk, entries)
  {
    hide Extends, Agree, Done, StoredAs;
    if |entries| > 0 {
      var n := |entries| - 1;
      forall k | 0 <= k < n ensures Done(t, sk, entries[..n][k], indexOutput) {
        assert Done(t, sk, entries[k], indexOutput);
      }
      RefusedStays(t, u, sk, entries[..n], indexOutput);
      DoneStays(t, u, sk, entries[n], indexOutput);
    }
  }

  lemma {:induction false} EntriesQuarantined(t: Tables, job: Job, sk: SessionKey, entries: seq<P.Entry>)
    requires Agree(t) && Rooted(t) && sk in t.sessions
    ensures var u := IngestEntries(t, job, sk, entries);
            && t.conflicts <= u.conflicts
            && RowsFor(u, u.conflicts[|t.conflicts|..], sk, Refused(u, sk, entries), job.manifest)
  {
    hide IngestEntry, Agree, Rooted, Done, StoredAs, SameOtherwise, Quarantines;
    if |entries| > 0 {
      var n := |entries| - 1;
      var mid, u := IngestEntries(t, job, sk, entries[..n]), IngestEntries(t, job, sk, entries);
      EntriesQuarantined(t, job, sk, entries[..n]);
      EntriesKeep(t, job, sk, entries[..n]);
      EntryKeeps(mid, job, sk, entries[n]);
      OneRow(mid, job, sk, entries[n]);
      RefusedStays(mid, u, sk, entries[..n], job.manifest.policy.indexToolOutput);
      RowsForLater(mid, u, mid.conflicts[|t.conflicts|..], sk, Refused(mid, sk, entries[..n]), job.manifest);
      assert u.conflicts[|t.conflicts|..] == mid.conflicts[|t.conflicts|..] + u.conflicts[|mid.conflicts|..];
    }
  }

  /** A session file taken in: of its entries every one is stored as it is or has a row, and there is no other row. */
  lemma ConflictsAreRefusals(t: Tables, rules: Rules, job: Job, f: File)
    requires Agree(t) && Rooted(t) && RowsSound(t, rules) && Readable(rules, job.manifest.machineId, f)
    ensures var p := rules.parse(InputOf(f)).value;
            var sk := SessionOf(job.manifest.machineId, f, p);
            var u := IngestSession(t, rules, job, f);
            && t.conflicts <= u.conflicts
            && RowsFor(u, u.conflicts[|t.conflicts|..], sk, Refused(u, sk, p.entries), job.manifest)
  {
    var p := rules.parse(InputOf(f)).value;
    hide Readable, SessionOf, IngestEntries, InsertTools, SessionRowOf, Accepted, Agree, P.Paired, RowsSound, StoredAs;
    hide EpisodesStored, Quarantines;
    var sk := SessionOf(job.manifest.machineId, f, p);
    var begun := AddVersion(t.(sessions := Put(t.sessions, sk, SessionRowOf(rules, job, f, p))), job, sk, f);
    BeginKeeps(t, rules, job, f, p);
    EntriesQuarantined(begun, job, sk, p.entries);
    var mid, u := WithEntries(t, rules, job, f, p), IngestSession(t, rules, job, f);
    RowsForLater(mid, u, u.conflicts[|t.conflicts|..], sk, Refused(mid, sk, p.entries), job.manifest);
    RefusedNeedsEntries(mid, u, sk, p.entries);
  }

  lemma {:induction false} RefusedNeedsEntries(t: Tables, u: Tables, sk: SessionKey, entries: seq<P.Entry>)
    requires t.entries == u.entries
    ensures Refused(t, sk, entries) == Refused(u, sk, entries)
  {
    if |entries| > 0 { RefusedNeedsEntries(t, u, sk, entries[..|entries| - 1]); }
  }

  lemma {:induction false} RefusedAmong(t: Tables, sk: SessionKey, entries: seq<P.Entry>, e: P.Entry)
    ensures e in Refused(t, sk, entries) <==> e in entries && !StoredAs(t, sk, e)
  {
    hide StoredAs;
    if |entries| > 0 {
      RefusedAmong(t, sk, entries[..|entries| - 1], e);
      assert entries == entries[..|entries| - 1] + [entries[|entries| - 1]];
    }
  }

  // ---- over runs -------------------------------------------------------------------------

  /** A row names a recorded snapshot, one of its session files and an entry of it, refused for another content that
      is stored. */
  ghost predicate RowTrue(t: Tables, rules: Rules, c: Conflict) {
    c.manifest in t.snapshots && exists f: File, e: P.Entry :: RowOfFile(t, rules, c, f, e)
  }

  ghost predicate RowOfFile(t: Tables, rules: Rules, c: Conflict, f: File, e: P.Entry) {
    && f in c.manifest.files && f.kind == "session" && rules.parse(InputOf(f)).Some?
    && e in rules.parse(InputOf(f)).value.entries
    && Quarantines(t, c, SessionOf(c.manifest.machineId, f, rules.parse(InputOf(f)).value), e)
  }

  ghost predicate RowsTrue(t: Tables, rules: Rules) { forall c :: c in t.conflicts ==> RowTrue(t, rules, c) }

  lemma RowTrueLater(t: Tables, u: Tables, rules: Rules, c: Conflict)
    requires RowTrue(t, rules, c) && Sub(t.entries, u.entries) && t.snapshots <= u.snapshots
    ensures RowTrue(u, rules, c)
  {
    hide HeldAs, SessionOf;
    var f: File, e: P.Entry :| RowOfFile(t, rules, c, f, e);
    HeldLater(t, u, EntryKey(c.session, e.id), c.first);
    assert RowOfFile(u, rules, c, f, e);
  }

  lemma SessionRowsTrue(t: Tables, rules: Rules, job: Job, f: File)
    requires Agree(t) && Rooted(t) && RowsSound(t, rules) && Readable(rules, job.manifest.machineId, f)
    requires RowsTrue(t, rules) && f in job.manifest.files && f.kind == "session" && job.manifest in t.snapshots
    ensures RowsTrue(IngestSession(t, rules, job, f), rules)
  {
    var u := IngestSession(t, rules, job, f);
    ReadableParses(rules, job.manifest.machineId, f);
    hide Readable, IngestSession, Agree, Rooted, RowsSound, RowTrue, Quarantines, SessionOf, Refused, StoredAs;
    var p := rules.parse(InputOf(f)).value;
    var sk := SessionOf(job.manifest.machineId, f, p);
    ConflictsAreRefusals(t, rules, job, f);
    Kept(t, rules, job, f);
    assert forall c :: c in u.conflicts ==> c in t.conflicts || c in u.conflicts[|t.conflicts|..];
    NewRowsTrue(u, rules, job, f, u.conflicts[|t.conflicts|..]);
    forall c | c in t.conflicts ensures RowTrue(u, rules, c) { RowTrueLater(t, u, rules, c); }
  }

  lemma NewRowsTrue(t: Tables, rules: Rules, job: Job, f: File, rows: seq<Conflict>)
    requires rules.parse(InputOf(f)).Some? && f in job.manifest.files && f.kind == "session"
    requires job.manifest in t.snapshots
    requires var p := rules.parse(InputOf(f)).value;
             var sk := SessionOf(job.manifest.machineId, f, p);
             RowsFor(t, rows, sk, Refused(t, sk, p.entries), job.manifest)
    ensures forall c :: c in rows ==> RowTrue(t, rules, c)
  {
    hide RowTrue, Quarantines, SessionOf, Refused, StoredAs;
    var p := rules.parse(InputOf(f)).value;
    var sk := SessionOf(job.manifest.machineId, f, p);
    var refused := Refused(t, sk, p.entries);
    forall k | 0 <= k < |rows| ensures RowTrue(t, rules, rows[k]) {
      RefusedAmong(t, sk, p.entries, refused[k]);
      NewRowTrue(t, rules, rows[k], f, refused[k]);
    }
  }

  lemma NewRowTrue(t: Tables, rules: Rules, c: Conflict, f: File, e: P.Entry)
    requires c.manifest in t.snapshots && RowOfFile(t, rules, c, f, e)
    ensures RowTrue(t, rules, c)
  {
  }

  lemma Kept(t: Tables, rules: Rules, job: Job, f: File)
    requires Agree(t) && Rooted(t) && RowsSound(t, rules) && Readable(rules, job.manifest.machineId, f)
    ensures var u := IngestSession(t, rules, job, f); Sub(t.entries, u.entries) && u.snapshots == t.snapshots
  {
    EntriesAndToolsKeep(t, rules, job, f);
    hide Readable, WithEntries, WithTools, Agree, Rooted, RowsSound, Absorbed, EpisodesStored;
  }

  lemma FileRowsTrue(t: Tables, rules: Rules, job: Job, opens: string -> bool, f: File)
    requires Projection.Sound(t, rules, Anything()) && RowsTrue(t, rules)
    requires f in job.manifest.files && job.manifest in t.snapshots
    ensures var r := IngestFile(t, rules, job, opens, f); r.Some? ==> RowsTrue(r.value, rules)
  {
    hide Current, Backed, OneSession, Known, KnownSession, Readable, IngestSession, Agree, Rooted, RowsSound, RowTrue;
    var r := IngestFile(t, rules, job, opens, f);
    if f.kind == "session" && Readable(rules, job.manifest.machineId, f) { SessionRowsTrue(t, rules, job, f); }
    if r.Some? && f.kind == "session" && Known(t, job.manifest.machineId, f) {
      forall c | c in r.value.conflicts ensures RowTrue(r.value, rules, c) { RowTrueLater(t, r.value, rules, c); }
    }
  }

  lemma {:induction false} FilesRowsTrue(t: Tables, rules: Rules, job: Job, opens: string -> bool, files: seq<File>)
    requires Projection.Sound(t, rules, Anything()) && RowsTrue(t, rules)
    requires (forall f :: f in files ==> f in job.manifest.files) && job.manifest in t.snapshots
    ensures var r := IngestFiles(t, rules, job, opens, files); r.Some? ==> RowsTrue(r.value, rules)
  {
    hide Projection.Sound, RowsTrue, IngestFile, FilesCovered;
    if |files| > 0 {
      var n := |files| - 1;
      FilesRowsTrue(t, rules, job, opens, files[..n]);
      FilesKeep(t, rules, Anything(), job, opens, files[..n]);
      var rest := IngestFiles(t, rules, job, opens, files[..n]);
      if rest.Some? { FileRowsTrue(rest.value, rules, job, opens, files[n]); }
    }
  }

  lemma SnapshotRowsTrue(t: Tables, rules: Rules, job: Job, opens: string -> bool)
    requires Projection.Sound(t, rules, Anything()) && RowsTrue(t, rules)
    ensures var r := IngestSnapshot(t, rules, job, opens); r.Some? ==> RowsTrue(r.value, rules)
  {
    hide Projection.Sound, IngestFiles, RowTrue;
    var dup := job.manifest in t.snapshots;
    var begun := t.(attempts := t.attempts + [Attempt(job.manifest, dup)]);
    var started := if dup then begun else begun.(snapshots := t.snapshots + {job.manifest});
    ProvenanceFrame(t, started, rules, Anything());
    forall c | c in started.conflicts ensures RowTrue(started, rules, c) { RowTrueLater(t, started, rules, c); }
    if !dup { FilesRowsTrue(started, rules, job, opens, job.manifest.files); }
  }

  /** Every conflict row of a Workspace is true, whatever was ingested. */
  lemma {:induction false} RunRowsTrue(rules: Rules, ingests: seq<Ingest>)
    ensures RowsTrue(RunFrom(EMPTY, rules, ingests), rules)
  {
    hide RowTrue, IngestSnapshot, Projection.Sound, Complete, Extends;
    EmptyIsSound(rules, Anything());
    if |ingests| > 0 {
      var n := |ingests| - 1;
      RunRowsTrue(rules, ingests[..n]);
      RunSound(EMPTY, rules, Anything(), ingests[..n]);
      SnapshotRowsTrue(RunFrom(EMPTY, rules, ingests[..n]), rules, ingests[n].job, ingests[n].opens);
    }
  }

  /** Some successful ingest of the history listed g, and every entry it parses to is accounted for. */
  ghost predicate ParsedFrom(t: Tables, rules: Rules, history: seq<Ingest>, machine: string, f: File, g: File) {
    && (exists k: nat, indexOutput: bool :: Listed(rules, history, k, machine, g, indexOutput))
    && SameVersion(f, g) && Readable(rules, machine, g)
    && AllAccounted(t, SessionOf(machine, g, rules.parse(InputOf(g)).value), rules.parse(InputOf(g)).value.entries)
  }

  /** No entry of a snapshot taken in has vanished: each session file listed has been parsed, as it or an earlier
      snapshot listed it, and each entry parsed is stored with its content or quarantined with it, next to a content
      that is stored. */
  lemma NothingVanishes(rules: Rules, history: seq<Ingest>, s: Snapshot, f: File)
    requires s in RunFrom(EMPTY, rules, history).snapshots && f in s.files && f.kind == "session"
    ensures exists g :: ParsedFrom(RunFrom(EMPTY, rules, history), rules, history, s.machineId, f, g)
  {
    hide IngestSnapshot, Accounted, Done, Readable, SessionOf, Extends, HasTool, P.Paired, Accepted, Listed;
    hide RunFrom, Agree, Rooted, Backed, OneSession, Current, RowsSound, AllAdmitted, AllAccounted;
    var ok := FromHistory(rules, history);
    HistoryAdmitted(rules, history, ok);
    EmptyIsSound(rules, ok);
    RunSound(EMPTY, rules, ok, history);
    var t := RunFrom(EMPTY, rules, history);
    assert Covered(t, rules, ok, s.machineId, f);
    var g, indexOutput :| Covers(t, rules, ok, s.machineId, f, g, indexOutput);
    assert ParsedFrom(t, rules, history, s.machineId, f, g);
  }
}
