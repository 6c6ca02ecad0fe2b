/** Pulling an Archive into a Workspace: bind, take in each changed machine, record the vector last. */
module Pulling {
  import opened Order
  import opened Namespaces
  import opened Manifests
  import opened Options
  import opened ObjectStore
  import opened Publication
  import opened Readers
  import opened Workspace
  import opened Projection
  import opened Ingestion
  import opened Redaction
  import Publisher

  datatype Binding = Binding(identity: string, address: string)

  /** A frozen plan: the vector selected, and the manifests spooled because they were not materialised. */
  datatype Plan = Plan(latest: map<string, Snapshot>, spooled: seq<Spooled>)

  datatype State = Absent | ArchiveMismatch | UpToDate | Behind

  datatype PullOutcome = Pulled | OtherArchive | IdentityChanged(machine: string) | IngestFailed(machine: string)
                       | EmptyMachine | Stopped

  /** Everything the plan selects is either spooled or taken in already. */
  ghost predicate Supplies(plan: Plan, t: Tables) {
    forall m :: m in plan.latest ==> plan.latest[m] in t.snapshots || Spooled(m, plan.latest[m]) in plan.spooled
  }

  /** One manifest's blobs, the only ones its ingest may open. */
  function Allowed(id: Snapshot, fetch: string -> bool): string -> bool {
    var blobs := Blobs(id);
    sha => sha in blobs && fetch(sha)
  }

  lemma AllowedMeans(id: Snapshot, fetch: string -> bool, sha: string)
    ensures Allowed(id, fetch)(sha) <==> fetch(sha) && exists f :: f in id.files && f.sha == sha
  {
  }

  /** The blobs of the spooled manifests not taken in yet. */
  ghost function Wanted(spooled: seq<Spooled>, t: Tables): set<string> {
    set k, sha | 0 <= k < |spooled| && spooled[k].id !in t.snapshots && sha in Blobs(spooled[k].id) :: sha
  }

  /** The ingests a pull makes of some manifests, each under this redactor and level. */
  function Replay(spooled: seq<Spooled>, scrub: string -> string, level: string, fetch: string -> bool): seq<Ingest> {
    seq(|spooled|, k requires 0 <= k < |spooled| =>
          Ingest(Job(spooled[k].id, scrub, level), Allowed(spooled[k].id, fetch)))
  }

  /** The adapter is here, the blob can be fetched, is as long as the manifest says and, for a session, parses. */
  predicate Takes(rules: Rules, adapters: set<string>, machine: string, fetch: string -> bool, f: File) {
    && f.source in adapters && fetch(f.sha) && rules.size(f.sha) == f.bytes
    && (f.kind == "session" ==> Readable(rules, machine, f))
  }

  ghost predicate TakesAll(rules: Rules, adapters: set<string>, fetch: string -> bool, id: Snapshot) {
    forall f :: f in id.files ==> Takes(rules, adapters, id.machineId, fetch, f)
  }

  class BoundWorkspace {
    const ingestor: Ingestor
    var binding: Option<Binding>
    var materialised: map<string, Snapshot>

    /** The materialised vector names only snapshots wholly taken in. */
    ghost predicate Valid()
      reads this, ingestor
    {
      && ingestor.Valid()
      && "" !in materialised
      && forall m :: m in materialised ==> materialised[m] in ingestor.tables.snapshots
    }

    constructor (ingestor: Ingestor)
      requires ingestor.Valid()
      ensures Valid() && this.ingestor == ingestor && binding.None? && materialised == map[]
    {
      this.ingestor, binding, materialised := ingestor, None, map[];
    }

    /** BindWorkspace: the first binding is kept; any other Archive is refused. */
    method Bind(b: Binding) returns (ok: bool)
      modifies this`binding
      ensures ok <==> old(binding).None? || old(binding) == Some(b)
      ensures binding == if old(binding).None? then Some(b) else old(binding)
    {
      if binding.None? {
        binding := Some(b);
        return true;
      }
      ok := binding.value.identity == b.identity && binding.value.address == b.address;
    }

    /** RecordMaterialisedVector: replace the whole table, machines in order; an empty id refuses all of it. */
    method RecordMaterialisedVector(vector: map<string, Snapshot>) returns (ok: bool)
      modifies this`materialised
      ensures ok <==> "" !in vector
      ensures materialised == if ok then vector else old(materialised)
    {
      hide Ascending;
      var machines := SortedMachines(vector);
      if "" in vector { return false; }
      materialised := map[];
      for i := 0 to |machines|
        invariant materialised.Keys == Elements(machines[..i])
        invariant forall m :: m in materialised ==> m in vector && materialised[m] == vector[m]
      {
        assert machines[i] in Elements(machines);
        assert machines[..i + 1] == machines[..i] + [machines[i]];
        ElementsSnoc(machines[..i], machines[i]);
        materialised := materialised[machines[i] := vector[machines[i]]];
      }
      assert machines[..|machines|] == machines;
      assert materialised.Keys == vector.Keys;
      ok := true;
    }

    /** WorkspaceState: bound elsewhere, current for this vector, or behind it. */
    method WorkspaceState(requested: Binding, latest: map<string, Snapshot>) returns (s: State)
      ensures s == if binding.None? then Absent
                   else if binding != Some(requested) then ArchiveMismatch
                   else if materialised == latest then UpToDate else Behind
    {
      if binding.None? { return Absent; }
      if binding.value != requested { return ArchiveMismatch; }
      var same := EqualVector(materialised, latest);
      s := if same then UpToDate else Behind;
    }

    /** The pull's loop over the spooled manifests, one transaction each. */
    method ReplayManifests(spooled: seq<Spooled>, scrub: string -> string, level: string, fetch: string -> bool,
                           transactions: nat)
      returns (r: PullOutcome, ghost done: nat)
      requires ingestor.Valid()
      modifies ingestor
      ensures ingestor.Valid() && Extends(old(ingestor.tables), ingestor.tables)
      ensures ReplayedTo(old(ingestor.tables), ingestor.tables, ingestor.rules, spooled, done, scrub, level, fetch)
      ensures done <= |spooled| && forall k :: 0 <= k < done ==>
                spooled[k].id in ingestor.tables.snapshots && spooled[k].id.machineId == spooled[k].machine
      ensures r.Pulled? || r.IdentityChanged? || r.IngestFailed? || r.Stopped?
      ensures r.Pulled? ==> done == |spooled| <= transactions
      ensures r.IdentityChanged? ==>
                && done < |spooled| && r.machine == spooled[done].machine
                && spooled[done].id.machineId != spooled[done].machine
      ensures r.IngestFailed? ==>
                && done < |spooled| && r.machine == spooled[done].machine
                && !TakesAll(ingestor.rules, ingestor.adapters, fetch, spooled[done].id)
      ensures r.Stopped? ==> done == transactions
      ensures old(ingestor.asked) <= ingestor.asked <= old(ingestor.asked) + Wanted(spooled, old(ingestor.tables))
    {
      hide Extends, TakesAll, Projection.Sound, Complete, Wanted, Allowed, Shas, ReplayedTo, HasAdapters;
      ghost var start := ingestor.tables;
      ExtendsItself(start);
      done := 0;
      NothingReplayed(start, ingestor.rules, spooled, scrub, level, fetch);
      for i := 0 to |spooled|
        invariant ingestor.Valid() && Extends(start, ingestor.tables) && done == i <= transactions
        invariant forall k :: 0 <= k < i ==>
                    spooled[k].id in ingestor.tables.snapshots && spooled[k].id.machineId == spooled[k].machine
        invariant ReplayedTo(start, ingestor.tables, ingestor.rules, spooled, i, scrub, level, fetch)
        invariant old(ingestor.asked) <= ingestor.asked <= old(ingestor.asked) + Wanted(spooled, start)
      {
        var selected := spooled[i];
        if selected.id.machineId != selected.machine { return IdentityChanged(selected.machine), done; }
        if i == transactions { return Stopped, done; }
        ghost var before := ingestor.tables;
        var job := Job(selected.id, scrub, level);
        var ok := ingestor.IngestPreparedSnapshot(job, Allowed(selected.id, fetch));
        SnapshotsKept(start, before);
        if selected.id !in start.snapshots { ListedIsWanted(spooled, start, i); }
        ExtendsTransitive(start, before, ingestor.tables);
        SnapshotsKept(before, ingestor.tables);
        if !ok {
          RefusedMeansUntaken(before, ingestor.rules, ingestor.adapters, job, fetch);
          return IngestFailed(selected.machine), done;
        }
        ReplayNext(start, before, ingestor.tables, ingestor.rules, spooled, i, scrub, level, fetch);
        done := done + 1;
      }
      r := Pulled;
    }

    /** Pull. What it leaves is exactly the ingests, under this redactor and level, of the first `done` manifests
        spooled; so whatever this redactor cleans stays clean. The process may die after any number of transactions;
        what it leaves is always a Workspace whose vector can be believed. Completed, it is current for the plan. */
    method Pull(plan: Plan, from: Binding, scrub: string -> string, level: string, fetch: string -> bool,
                transactions: nat)
      returns (r: PullOutcome, ghost done: nat)
      requires Valid() && Supplies(plan, ingestor.tables)
      modifies this, ingestor
      ensures Valid() && Extends(old(ingestor.tables), ingestor.tables)
      ensures r.Pulled? ==> binding == Some(from) && materialised == plan.latest
      ensures r.Pulled? ==> forall m :: m in plan.latest ==> plan.latest[m] in ingestor.tables.snapshots
      ensures !r.Pulled? ==> materialised == old(materialised)
      ensures old(binding).Some? ==> binding == old(binding)
      ensures done <= |plan.spooled| && forall k :: 0 <= k < done ==>
                plan.spooled[k].id in ingestor.tables.snapshots
                && plan.spooled[k].id.machineId == plan.spooled[k].machine
      ensures ingestor.tables
              == RunFrom(old(ingestor.tables), ingestor.rules, Replay(plan.spooled[..done], scrub, level, fetch))
      ensures forall clean :: Redacted(old(ingestor.tables), clean) && Scrubs(scrub, clean) ==>
                Redacted(ingestor.tables, clean)
      ensures r.Pulled? ==> done == |plan.spooled|
      ensures r.OtherArchive? ==> old(binding).Some? && old(binding) != Some(from)
      ensures r.IdentityChanged? ==>
                && done < |plan.spooled| && r.machine == plan.spooled[done].machine
                && plan.spooled[done].id.machineId != plan.spooled[done].machine
      ensures r.IngestFailed? ==>
                && done < |plan.spooled| && r.machine == plan.spooled[done].machine
                && !TakesAll(ingestor.rules, ingestor.adapters, fetch, plan.spooled[done].id)
      ensures r.EmptyMachine? ==> "" in plan.latest
      ensures r.Stopped? ==> transactions == done == 0 || transactions == done + 1
      ensures old(ingestor.asked) <= ingestor.asked <= old(ingestor.asked) + Wanted(plan.spooled, old(ingestor.tables))
    {
      hide Extends, TakesAll, Projection.Sound, Complete, Wanted, Replay, RunFrom, Redacted, Scrubs;
      ghost var start := ingestor.tables;
      ExtendsItself(start);
      done := 0;
      NothingReplayed(start, ingestor.rules, plan.spooled, scrub, level, fetch);
      if transactions == 0 { return Stopped, done; }
      var bound := Bind(from);
      if !bound { return OtherArchive, done; }
      r, done := ReplayManifests(plan.spooled, scrub, level, fetch, transactions - 1);
      SnapshotsKept(start, ingestor.tables);
      if !r.Pulled? { return; }
      if transactions - 1 == |plan.spooled| { return Stopped, done; }
      SuppliedAreTaken(plan, start, ingestor.tables);
      var recorded := RecordMaterialisedVector(plan.latest);
      r := if recorded then Pulled else EmptyMachine;
    }
  }

  /** equalVector: same size, and each entry of one found in the other. */
  method EqualVector(a: map<string, Snapshot>, b: map<string, Snapshot>) returns (same: bool)
    ensures same <==> a == b
  {
    if |a| != |b| { return false; }
    var left := a.Keys;
    while left != {}
      invariant left <= a.Keys
      invariant forall m :: m in a && m !in left ==> m in b && b[m] == a[m]
      decreases |left|
    {
      var m :| m in left;
      if m !in b || b[m] != a[m] { return false; }
      left := left - {m};
    }
    SameSizeSameKeys(a.Keys, b.Keys);
    same := true;
  }

  lemma SameSizeSameKeys(a: set<string>, b: set<string>)
    requires a <= b && |a| == |b|
    ensures a == b
  {
    if a != b {
      var x :| x in b && x !in a;
      Publisher.SubsetSize(a, b - {x});
    }
  }

  lemma SnapshotsKept(t: Tables, u: Tables)
    requires Extends(t, u)
    ensures t.snapshots <= u.snapshots
  {
  }

  /** These tables are those of replaying the first n manifests, and cleaning keeps them clean. */
  ghost predicate ReplayedTo(t: Tables, u: Tables, rules: Rules, spooled: seq<Spooled>, n: nat,
                             scrub: string -> string, level: string, fetch: string -> bool)
  {
    && n <= |spooled| && u == RunFrom(t, rules, Replay(spooled[..n], scrub, level, fetch))
    && forall clean :: Redacted(t, clean) && Scrubs(scrub, clean) ==> Redacted(u, clean)
  }

  lemma NothingReplayed(t: Tables, rules: Rules, spooled: seq<Spooled>, scrub: string -> string, level: string,
                        fetch: string -> bool)
    ensures ReplayedTo(t, t, rules, spooled, 0, scrub, level, fetch)
  {
    hide Redacted, Scrubs, Allowed;
    assert Replay(spooled[..0], scrub, level, fetch) == [];
  }

  lemma ReplayNext(t: Tables, u: Tables, w: Tables, rules: Rules, spooled: seq<Spooled>, n: nat,
                   scrub: string -> string, level: string, fetch: string -> bool)
    requires n < |spooled| && ReplayedTo(t, u, rules, spooled, n, scrub, level, fetch)
    requires IngestSnapshot(u, rules, Job(spooled[n].id, scrub, level), Allowed(spooled[n].id, fetch)) == Some(w)
    ensures ReplayedTo(t, w, rules, spooled, n + 1, scrub, level, fetch)
  {
    hide Redacted, Scrubs, Allowed, IngestSnapshot;
    var all := Replay(spooled[..n + 1], scrub, level, fetch);
    assert all[..n] == Replay(spooled[..n], scrub, level, fetch);
    assert all[n] == Ingest(Job(spooled[n].id, scrub, level), Allowed(spooled[n].id, fetch));
    forall clean | Redacted(t, clean) && Scrubs(scrub, clean) ensures Redacted(w, clean) {
      RunStaysClean(t, rules, all, clean);
    }
  }

  lemma ListedIsWanted(spooled: seq<Spooled>, t: Tables, k: nat)
    requires k < |spooled| && spooled[k].id !in t.snapshots
    ensures Blobs(spooled[k].id) <= Wanted(spooled, t)
  {
  }

  lemma SuppliedAreTaken(plan: Plan, t: Tables, u: Tables)
    requires Supplies(plan, t) && t.snapshots <= u.snapshots
    requires forall k :: 0 <= k < |plan.spooled| ==> plan.spooled[k].id in u.snapshots
    ensures forall m :: m in plan.latest ==> plan.latest[m] in u.snapshots
  {
    forall m | m in plan.latest ensures plan.latest[m] in u.snapshots {
      if plan.latest[m] !in t.snapshots {
        var k :| 0 <= k < |plan.spooled| && plan.spooled[k] == Spooled(m, plan.latest[m]);
        assert plan.spooled[k].id in u.snapshots;
      }
    }
  }

  // ---- the blobs a replay opens -----------------------------------------------------

  /** What taking a manifest in leaves depends on no blob it does not list. IngestPreparedSnapshot asks for none. */
  lemma {:induction false} OpensOnlyListed(t: Tables, rules: Rules, job: Job, a: string -> bool, b: string -> bool,
                                           files: seq<File>)
    requires forall f :: f in files ==> a(f.sha) == b(f.sha)
    ensures IngestFiles(t, rules, job, a, files) == IngestFiles(t, rules, job, b, files)
  {
    hide Known, KnownSession, Readable, IngestSession;
    if |files| > 0 { OpensOnlyListed(t, rules, job, a, b, files[..|files| - 1]); }
  }

  lemma {:induction false} UntakenFile(t: Tables, rules: Rules, adapters: set<string>, job: Job, opens: string -> bool,
                                       fetch: string -> bool, files: seq<File>)
    requires forall f :: f in files ==> opens(f.sha) == fetch(f.sha)
    requires IngestFiles(t, rules, job, opens, files).None?
    ensures exists f :: f in files && !Takes(rules, adapters, job.manifest.machineId, fetch, f)
  {
    hide Known, KnownSession, Readable, IngestSession;
    if |files| > 0 {
      var n := |files| - 1;
      if IngestFiles(t, rules, job, opens, files[..n]).None? {
        UntakenFile(t, rules, adapters, job, opens, fetch, files[..n]);
      } else {
        assert !Takes(rules, adapters, job.manifest.machineId, fetch, files[n]);
      }
    }
  }

  lemma RefusedMeansUntaken(t: Tables, rules: Rules, adapters: set<string>, job: Job, fetch: string -> bool)
    requires !HasAdapters(adapters, job.manifest.files)
             || IngestSnapshot(t, rules, job, Allowed(job.manifest, fetch)).None?
    ensures !TakesAll(rules, adapters, fetch, job.manifest)
  {
    hide IngestFiles, Readable;
    var files := job.manifest.files;
    if HasAdapters(adapters, files) {
      var dup := job.manifest in t.snapshots;
      var begun := t.(attempts := t.attempts + [Attempt(job.manifest, dup)], snapshots := t.snapshots + {job.manifest});
      UntakenFile(begun, rules, adapters, job, Allowed(job.manifest, fetch), fetch, files);
    } else {
      var k :| 0 <= k < |files| && files[k].source !in adapters;
      assert files[k] in files && !Takes(rules, adapters, job.manifest.machineId, fetch, files[k]);
    }
  }

  // ---- plans ----------------------------------------------------------------------------

  /** What planning against this Workspace's own vector spools is enough to pull from, then or later. */
  lemma PlannedSupplies(latest: map<string, Snapshot>, materialised: map<string, Snapshot>, t: Tables, u: Tables)
    requires forall m :: m in materialised ==> materialised[m] in t.snapshots
    requires Extends(t, u)
    ensures Supplies(Plan(latest, Selection(latest, Changed(latest, materialised))), u)
  {
    var changed := Changed(latest, materialised);
    forall m | m in latest ensures latest[m] in u.snapshots || Spooled(m, latest[m]) in Selection(latest, changed) {
      ChangedMembers(latest, materialised, m);
      if m in changed {
        var k :| 0 <= k < |changed| && changed[k] == m;
        assert Selection(latest, changed)[k] == Spooled(m, latest[m]);
      }
    }
  }

  /** After a completed pull, planning again for the same vector spools nothing. */
  lemma ReplanSpoolsNothing(latest: map<string, Snapshot>)
    ensures Selection(latest, Changed(latest, latest)) == []
  {
    NothingChanged(latest, latest);
  }

  // ---- identities -----------------------------------------------------------------------

  /** Every selected manifest passes ForEachManifest's identity check. */
  ghost predicate Replays(latest: map<string, Snapshot>) { forall m :: m in latest ==> latest[m].machineId == m }

  /** The machines a vector names, and those that published what it selects. */
  ghost predicate Among(latest: map<string, Snapshot>, ids: set<string>) {
    forall m :: m in latest ==> m in ids && latest[m].machineId in ids
  }

  ghost predicate DistinctNamespaces(ids: set<string>) {
    forall a, b :: a in ids && b in ids && Component(a) == Component(b) ==> a == b
  }

  /** Among a set of machine ids, every plan that can be read replays exactly when no two of them share a namespace. */
  lemma ReplaysIffDistinctNamespaces(ids: set<string>)
    requires forall m :: m in ids ==> !Blank(m)
    ensures (forall s, latest :: PlanReadable(s, latest) && Among(latest, ids) ==> Replays(latest))
            <==> DistinctNamespaces(ids)
  {
    hide Component, ReadsAs, PlanReadable;
    if DistinctNamespaces(ids) {
      forall s, latest | PlanReadable(s, latest) && Among(latest, ids) ensures Replays(latest) {
        DistinctNamespacesReplay(latest, s, ids);
      }
    } else {
      var a, b :| a in ids && b in ids && Component(a) == Component(b) && a != b;
      var s: Store := map[ManifestKey(Component(b), Bare(b)) := Document(Bare(b))];
      BareReadable(s, b);
      SharedNamespaceMisidentifies(s, a, Bare(b));
      var latest := map[a := Bare(b)];
      assert PlanReadable(s, latest) && Among(latest, ids) && latest[a].machineId != a;
    }
  }

  lemma BareReadable(s: Store, machine: string)
    requires !Blank(machine) && s == map[ManifestKey(Component(machine), Bare(machine)) := Document(Bare(machine))]
    ensures SelectionReadable(s, machine, Bare(machine)) && Bare(machine).machineId == machine
  {
    BareIsValid(machine);
    hide Component, ValidSorted;
  }

  lemma DistinctNamespacesReplay(latest: map<string, Snapshot>, s: Store, ids: set<string>)
    requires PlanReadable(s, latest) && Among(latest, ids) && DistinctNamespaces(ids)
    ensures Replays(latest)
  {
    hide Component, Canonical, ValidSorted;
    forall m | m in latest ensures latest[m].machineId == m {
      assert SelectionReadable(s, m, latest[m]);
      SelectionReads(s, m, latest[m]);
    }
  }

  /** A manifest one machine published reads as well under any other id of its namespace. */
  lemma SharedNamespaceMisidentifies(s: Store, a: string, id: Snapshot)
    requires a != id.machineId && Component(a) == Component(id.machineId) && SelectionReadable(s, id.machineId, id)
    ensures PlanReadable(s, map[a := id]) && !Replays(map[a := id])
  {
    hide Component, Canonical, ValidSorted, Blobs;
    assert SelectionReadable(s, a, id);
    assert map[a := id][a].machineId != a;
  }

  /** The vector a plan freezes on a store at rest. */
  ghost predicate Frozen(s: Store, latest: map<string, Snapshot>) {
    latest.Keys == Machines(s) && forall m :: m in latest ==> PointerAt(s, Component(m)) == Some(latest[m])
  }

  /** Once two machines of one namespace are registered, the plan of everything registered is readable and never
      replays: they share one pointer, and it names at most one of them. */
  lemma SharedNamespaceNeverReplays(s: Store, latest: map<string, Snapshot>, a: string, b: string)
    requires Consistent(s) && Frozen(s, latest) && a in Machines(s) && b in Machines(s) && a != b
             && Component(a) == Component(b)
    ensures PlanReadable(s, latest) && !Replays(latest)
  {
    hide Component, Machines, SelectionReadable, Typed, Closed, Discoverable;
    forall m | m in latest ensures SelectionReadable(s, m, latest[m]) {
      GrowsReflexive(s);
      PointerReads(s, s, m);
    }
    assert latest[a] == latest[b];
  }

  /** And they can be: from an empty Archive both push and register, and the plan then frozen does not replay. */
  lemma BothRegisterThenNoReplay(a: string, b: string)
    requires !Blank(a) && !Blank(b) && a != b && Component(a) == Component(b)
    ensures var clients := [Client(Request(Bare(a), false), Starting), Client(Request(Bare(b), false), Starting)];
            var s := Run(System(map[], clients), Alone(0, 7) + Alone(1, 8)).store;
            var latest := map[a := Bare(b), b := Bare(b)];
            Frozen(s, latest) && PlanReadable(s, latest) && !Replays(latest)
  {
    hide Component, Machines, PlanReadable, Consistent, Replays, Run, PointerAt;
    BothRegister(a, b);
    var clients := [Client(Request(Bare(a), false), Starting), Client(Request(Bare(b), false), Starting)];
    SharedNamespaceNeverReplays(Run(System(map[], clients), Alone(0, 7) + Alone(1, 8)).store,
                                map[a := Bare(b), b := Bare(b)], a, b);
  }
}
