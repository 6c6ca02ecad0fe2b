/** Readers of an Archive that writers keep changing: download planning, planning a materialisation, and Verify. */
module Readers {
  import opened Order
  import opened Namespaces
  import opened Manifests
  import opened Options
  import opened ObjectStore
  import opened Publication
  import opened Publisher

  /** A manifest that preparedManifest accepts in a namespace: stored under its own identity, canonical,
      valid, and claiming that namespace. */
  ghost predicate ReadsAs(s: Store, ns: Namespace, id: Snapshot) {
    && Lookup(s, ManifestKey(ns, id)) == Some(Document(id))
    && Canonical(id) == id && ValidSorted(id)
    && Component(id.machineId) == ns
  }

  predicate BlobIntact(s: Store, sha: string) { Lookup(s, BlobKey(sha)) == Some(Content(sha)) }

  /** Everything a frozen selection promises: each manifest reads as itself and each of its blobs opens. */
  ghost predicate SelectionReadable(s: Store, machine: string, id: Snapshot) {
    ReadsAs(s, Component(machine), id) && forall sha :: sha in Blobs(id) ==> BlobIntact(s, sha)
  }

  ghost predicate PlanReadable(s: Store, latest: map<string, Snapshot>) {
    forall m :: m in latest ==> SelectionReadable(s, m, latest[m])
  }

  lemma ConsistentReads(s: Store, machine: string, id: Snapshot)
    requires Consistent(s) && ManifestKey(Component(machine), id) in s
    ensures SelectionReadable(s, machine, id)
  {
    hide Component, Canonical, Blobs;
    var k := ManifestKey(Component(machine), id);
    assert Fits(k, s[k]);
    forall sha | sha in Blobs(id) ensures BlobIntact(s, sha) {
      assert BlobKey(sha) in s;
      assert Fits(BlobKey(sha), s[BlobKey(sha)]);
    }
  }

  lemma SelectionStays(s: Store, t: Store, machine: string, id: Snapshot)
    requires SelectionReadable(s, machine, id) && Grows(s, t)
    ensures SelectionReadable(t, machine, id)
  {
    hide Component, Canonical, Blobs, ValidSorted;
  }

  lemma PlanStays(s: Store, t: Store, latest: map<string, Snapshot>)
    requires PlanReadable(s, latest) && Grows(s, t)
    ensures PlanReadable(t, latest)
  {
    hide Grows, SelectionReadable;
    forall m | m in latest ensures SelectionReadable(t, m, latest[m]) { SelectionStays(s, t, m, latest[m]); }
  }

  /** A plan frozen at one moment of a run reads back the same at every later moment, whatever is pushed. */
  lemma FrozenPlanStaysReadable(sys: System, moves: seq<Move>, i: nat, j: nat, latest: map<string, Snapshot>)
    requires Sound(sys) && i <= j <= |moves|
    requires PlanReadable(Run(sys, moves[..i]).store, latest)
    ensures PlanReadable(Run(sys, moves[..j]).store, latest)
  {
    hide Grows, PlanReadable, Sound, Apply;
    RunGrows(sys, moves, i, j);
    PlanStays(Run(sys, moves[..i]).store, Run(sys, moves[..j]).store, latest);
  }

  datatype PlanResult = Planned(latest: map<string, Snapshot>) | NoLatest(machine: string)
                      | CorruptPointer(machine: string)

  datatype Spooled = Spooled(machine: string, id: Snapshot)

  datatype Materialisation = Prepared(spooled: seq<Spooled>, unknownBlobs: nat)
                           | Unsupported(adapter: Adapter) | ManifestUnavailable(machine: string)

  datatype Problem = UnreadablePointer(machine: string) | NoPointer(machine: string)
                   | UnreadableManifest(machine: string) | UnreadableBlob(machine: string)

  class Reader {
    const others: Others
    var objects: Store
    var calls: nat

    constructor (objects: Store, others: Others)
      ensures this.objects == objects && this.others == others
    {
      this.objects, this.others, calls := objects, others, 0;
    }

    /** Only this protocol writes. */
    ghost predicate Shared()
      reads this
    {
      Lawful(others) && Consistent(objects)
    }

    /** One read, after whatever writers did first. */
    method Get(k: Key) returns (o: Option<Object>)
      modifies this
      ensures o == Lookup(objects, k)
      ensures old(Shared()) ==> Shared() && Grows(old(objects), objects)
      ensures Quiet(others) ==> objects == old(objects)
    {
      hide Consistent, Grows;
      objects, calls := others(calls, objects), calls + 1;
      o := Lookup(objects, k);
    }

    /** One audit listing of a namespace's manifests. */
    method ListManifests(ns: Namespace) returns (ids: set<Snapshot>)
      modifies this
      ensures ids == set k | k in objects && k.ManifestKey? && k.ns == ns :: k.id
      ensures old(Shared()) ==> Shared() && Grows(old(objects), objects)
      ensures Quiet(others) ==> objects == old(objects)
    {
      hide Consistent, Grows;
      objects, calls := others(calls, objects), calls + 1;
      ids := set k | k in objects && k.ManifestKey? && k.ns == ns :: k.id;
    }

    /** The registered machines, one read of the registry. */
    method ReadMachines() returns (machines: seq<string>)
      modifies this
      ensures machines == Registered(Lookup(objects, IndexKey))
      ensures old(Shared()) ==> Shared() && Grows(old(objects), objects) && Elements(machines) == Machines(objects)
      ensures Quiet(others) ==> objects == old(objects)
    {
      hide Consistent, Grows;
      var o := Get(IndexKey);
      machines := Registered(o);
    }

    /** PlanDownload: one pointer read per registered machine, frozen into a vector. Against any writers the
        missing-pointer error cannot occur, and everything selected can be read. */
    method PlanDownload(machines: seq<string>) returns (r: PlanResult)
      modifies this
      ensures old(Shared()) ==> Shared() && Grows(old(objects), objects)
      ensures old(Shared()) && Elements(machines) <= old(Machines(objects)) ==>
              r.Planned? && PlanReadable(objects, r.latest)
      ensures r.Planned? ==> r.latest.Keys == Elements(machines)
      ensures Quiet(others) && r.Planned? ==> forall m :: m in r.latest ==>
              PointerAt(objects, Component(m)) == Some(r.latest[m])
      ensures Quiet(others) && r.NoLatest? ==> r.machine in machines && LatestKey(Component(r.machine)) !in objects
      ensures Quiet(others) && r.CorruptPointer? ==>
                && r.machine in machines && LatestKey(Component(r.machine)) in objects
                && PointerAt(objects, Component(r.machine)).None?
      ensures Quiet(others) && (forall m :: m in machines ==> PointerAt(objects, Component(m)).Some?) ==> r.Planned?
    {
      hide Consistent, Grows, Component, SelectionReadable, Machines;
      var latest: map<string, Snapshot> := map[];
      ghost var start := objects;
      GrowsReflexive(start);
      for i := 0 to |machines|
        invariant old(Shared()) ==> Shared() && Grows(start, objects)
        invariant old(Shared()) && Elements(machines) <= Machines(start) ==> PlanReadable(objects, latest)
        invariant latest.Keys == Elements(machines[..i])
        invariant Quiet(others) ==> objects == start
        invariant Quiet(others) ==> forall m :: m in latest ==> PointerAt(objects, Component(m)) == Some(latest[m])
      {
        var m := machines[i];
        assert m in Elements(machines);
        assert machines[..i + 1] == machines[..i] + [m];
        ghost var before := objects;
        var o := Get(LatestKey(Component(m)));
        if old(Shared()) {
          GrowsTransitive(start, before, objects);
          if Elements(machines) <= Machines(start) {
            PlanStays(before, objects, latest);
            PointerReads(start, objects, m);
          }
        }
        if o.None? { return NoLatest(m); }
        if !o.value.Pointer? { return CorruptPointer(m); }
        latest := latest[m := o.value.id];
      }
      assert machines[..|machines|] == machines;
      r := Planned(latest);
    }

    /** preparedManifest: fetch, decode canonically, check identity and namespace. */
    method PreparedManifest(machine: string, id: Snapshot) returns (ok: bool)
      modifies this
      ensures old(Shared()) ==> Shared() && Grows(old(objects), objects)
      ensures Quiet(others) ==> objects == old(objects)
      ensures ok <==> ReadsAs(objects, Component(machine), id)
    {
      hide Consistent, Grows, Component, Canonical, ValidSorted;
      var o := Get(ManifestKey(Component(machine), id));
      if o.None? || !o.value.Document? { return false; }
      var d := o.value.id;
      var valid := ValidateSnapshot(d);
      ok := valid && Canonical(d) == d && d == id && Component(d.machineId) == Component(machine);
    }

    /** PrepareMaterialisation: of the machines whose selected snapshot differs from the one materialised, fetch
        and check the manifest, refuse adapters this reader does not run, spool it, and count each blob not yet
        known once, however many manifests list it. */
    method PrepareMaterialisation(latest: map<string, Snapshot>, materialised: map<string, Snapshot>,
                                  supported: map<string, string>, known: string -> bool) returns (r: Materialisation)
      modifies this
      ensures old(Shared()) ==> Shared() && Grows(old(objects), objects)
      ensures old(Shared()) && PlanReadable(old(objects), latest) ==> !r.ManifestUnavailable?
      ensures r.Prepared? ==> r.spooled == Selection(latest, Changed(latest, materialised))
      ensures r.Prepared? ==> r.unknownBlobs == |Unknown(SelectedBlobs(r.spooled), known)|
      ensures r.Prepared? ==> forall k :: 0 <= k < |r.spooled| ==> Runs(r.spooled[k].id, supported)
      ensures r.Prepared? ==>
                r.unknownBlobs
                == |set k, f | 0 <= k < |r.spooled| && f in r.spooled[k].id.files && !known(f.sha) :: f.sha|
      ensures r.Unsupported? ==> exists m :: m in Changed(latest, materialised) && !Runs(latest[m], supported)
      ensures r.Unsupported? ==> exists m :: m in Changed(latest, materialised) && r.adapter in latest[m].adapters
      ensures r.Unsupported? ==>
                !(r.adapter.name in supported && supported[r.adapter.name] == r.adapter.version)
      ensures Quiet(others) && r.Prepared? ==> forall m :: m in Changed(latest, materialised) ==>
                ReadsAs(objects, Component(m), latest[m])
      ensures Quiet(others) && r.ManifestUnavailable? ==>
                r.machine in Changed(latest, materialised)
                && !ReadsAs(objects, Component(r.machine), latest[r.machine])
      ensures Quiet(others) ==> objects == old(objects)
    {
      hide Consistent, Grows, Component, SelectionReadable, Valid, Runs, Ascending, ReadsAs;
      var machines := SortedMachines(latest);
      var spooled: seq<Spooled>, blobs: set<string>, unknown := [], {}, 0;
      ghost var start := objects;
      GrowsReflexive(start);
      ghost var changed: seq<string> := [];
      for i := 0 to |machines|
        invariant old(Shared()) ==> Shared() && Grows(start, objects)
        invariant old(Shared()) && PlanReadable(start, latest) ==> PlanReadable(objects, latest)
        invariant Quiet(others) ==> objects == start
        invariant changed == Differing(machines[..i], latest, materialised)
        invariant spooled == Selection(latest, changed)
        invariant blobs == SelectedBlobs(spooled) && unknown == |Unknown(blobs, known)|
        invariant forall k :: 0 <= k < |spooled| ==> Runs(spooled[k].id, supported)
        invariant Quiet(others) ==> forall x :: x in changed ==> ReadsAs(start, Component(x), latest[x])
      {
        var m := machines[i];
        assert m in Elements(machines);
        assert machines[..i + 1] == machines[..i] + [m];
        DifferingSnoc(machines[..i], m, latest, materialised);
        if m !in materialised || materialised[m] != latest[m] {
          ghost var before := objects;
          var ok := PreparedManifest(m, latest[m]);
          if old(Shared()) {
            GrowsTransitive(start, before, objects);
            if PlanReadable(start, latest) {
              PlanStays(before, objects, latest);
              assert SelectionReadable(objects, m, latest[m]);
              SelectionReads(objects, m, latest[m]);
            }
          }
          if !ok {
            ChangedMembers(latest, materialised, m);
            return ManifestUnavailable(m);
          }
          var missing := RequireAdapters(latest[m], supported);
          if missing.Some? {
            ChangedMembers(latest, materialised, m);
            return Unsupported(missing.value);
          }
          SelectionSnoc(latest, changed, m);
          SelectedSnoc(spooled, Spooled(m, latest[m]));
          changed := changed + [m];
          spooled := spooled + [Spooled(m, latest[m])];
          blobs, unknown := CountUnknown(latest[m], blobs, unknown, known);
        }
      }
      assert machines[..|machines|] == machines;
      DifferingIsChanged(machines, latest, materialised);
      UnknownMeans(spooled, known);
      r := Prepared(spooled, unknown);
    }

    /** Verify's check of one manifest: readable, and every blob not yet checked present (deep: intact). */
    method CheckManifest(machine: string, id: Snapshot, deep: bool, checked: set<string>, problems: seq<Problem>)
      returns (checked': set<string>, problems': seq<Problem>)
      modifies this
      ensures old(Shared()) ==> Shared() && Grows(old(objects), objects)
      ensures old(Shared()) && SelectionReadable(old(objects), machine, id) ==> problems' == problems
      ensures Quiet(others) ==> objects == old(objects)
      ensures Quiet(others) && Audited(objects, deep, checked, problems) ==>
                && Audited(objects, deep, checked', problems')
                && (problems' == [] <==> problems == [] && ManifestSound(objects, Component(machine), id, deep))
      ensures Quiet(others) && Looked(objects, Component(machine), id, deep) ==>
                AllAmiss(objects, deep, machine, problems, problems')
    {
      hide Consistent, Grows, Component, ValidSorted, Canonical, ReadsAs, Looked;
      checked', problems' := checked, problems;
      ghost var start := objects;
      GrowsReflexive(start);
      var ok := PreparedManifest(machine, id);
      if old(Shared()) && SelectionReadable(start, machine, id) { SelectionStays(start, objects, machine, id); }
      if !ok {
        problems' := problems + [UnreadableManifest(machine)];
        if Looked(start, Component(machine), id, deep) && Quiet(others) {
          assert Amiss(start, deep, UnreadableManifest(machine));
        }
        return;
      }
      for i := 0 to |id.files|
        invariant old(Shared()) ==> Shared() && Grows(start, objects)
        invariant old(Shared()) && SelectionReadable(start, machine, id) ==> problems' == problems
        invariant Quiet(others) ==> objects == start
        invariant Quiet(others) && Audited(start, deep, checked, problems) ==>
                    && Audited(start, deep, checked', problems')
                    && (problems' == [] <==> problems == [] && forall k :: 0 <= k < i ==>
                        BlobSound(start, id.files[k].sha, deep))
        invariant Quiet(others) && Looked(start, Component(machine), id, deep) ==>
                    AllAmiss(start, deep, machine, problems, problems')
      {
        var sha := id.files[i].sha;
        assert id.files[i] in id.files && sha in Blobs(id);
        if sha !in checked' {
          checked' := checked' + {sha};
          ghost var before := objects;
          var o := Get(BlobKey(sha));
          if old(Shared()) {
            GrowsTransitive(start, before, objects);
            if SelectionReadable(start, machine, id) { SelectionStays(start, objects, machine, id); }
          }
          if o.None? || (deep && o.value != Content(sha)) {
            if Looked(start, Component(machine), id, deep) && Quiet(others) {
              BlobAmiss(start, deep, machine, id, id.files[i]);
              AmissSnoc(start, deep, machine, problems, problems', UnreadableBlob(machine));
            }
            problems' := problems' + [UnreadableBlob(machine)];
          }
        }
      }
      AllBlobs(start, id, deep);
    }

    /** Verify's check of one registered machine: its pointer, the manifest it names and, deep, every
        manifest of the namespace not yet seen. */
    method CheckMachine(machine: string, deep: bool, checked: set<string>, seen: set<Key>, problems: seq<Problem>)
      returns (checked': set<string>, seen': set<Key>, problems': seq<Problem>)
      modifies this
      ensures old(Shared()) ==> Shared() && Grows(old(objects), objects)
      ensures old(Shared()) && machine in old(Machines(objects)) ==> problems' == problems
      ensures Quiet(others) ==> objects == old(objects)
      ensures Quiet(others) && Audited(objects, deep, checked, problems)
              && SeenAudited(objects, deep, seen, problems) ==>
                && Audited(objects, deep, checked', problems') && SeenAudited(objects, deep, seen', problems')
                && (problems' == [] <==> problems == [] && MachineSound(objects, machine, deep))
      ensures Quiet(others) ==> AllAmiss(objects, deep, machine, problems, problems')
    {
      hide Consistent, Grows, Component, ValidSorted, Canonical, ReadsAs;
      hide Machines, Audited, ManifestSound, SelectionReadable, AllAmiss;
      AmissItself(objects, deep, machine, problems);
      checked', seen', problems' := checked, seen, problems;
      ghost var start := objects;
      var ns := Component(machine);
      var o := Get(LatestKey(ns));
      ghost var pointed := objects;
      if old(Shared()) && machine in Machines(start) { PointerReads(start, pointed, machine); }
      if o.None? {
        if Quiet(others) { AmissSnoc(start, deep, machine, problems, problems, NoPointer(machine)); }
        problems' := problems + [NoPointer(machine)];
        AuditedLater(start, deep, checked, seen, problems, problems');
        return;
      }
      if !o.value.Pointer? {
        if Quiet(others) { AmissSnoc(start, deep, machine, problems, problems, UnreadablePointer(machine)); }
        problems' := problems + [UnreadablePointer(machine)];
        AuditedLater(start, deep, checked, seen, problems, problems');
        return;
      }
      var id := o.value.id;
      seen' := seen + {ManifestKey(ns, id)};
      checked', problems' := CheckManifest(machine, id, deep, checked, problems);
      ghost var latest := objects;
      if old(Shared()) { GrowsTransitive(start, pointed, latest); }
      AuditedLater(start, deep, checked, seen, problems, problems');
      if deep {
        ghost var first := problems';
        checked', seen', problems' := CheckHistory(machine, checked', seen', problems');
        if old(Shared()) { GrowsTransitive(start, latest, objects); }
        if Quiet(others) { AmissOn(start, deep, machine, problems, first, problems'); }
      }
    }

    /** Deep only: one listed manifest, unless it has been seen. */
    method CheckListed(machine: string, id: Snapshot, checked: set<string>, seen: set<Key>, problems: seq<Problem>)
      returns (checked': set<string>, seen': set<Key>, problems': seq<Problem>)
      modifies this
      ensures old(Shared()) ==> Shared() && Grows(old(objects), objects)
      ensures old(Shared()) && SelectionReadable(old(objects), machine, id) ==> problems' == problems
      ensures Quiet(others) ==> objects == old(objects)
      ensures Quiet(others) && Audited(objects, true, checked, problems)
              && SeenAudited(objects, true, seen, problems) ==>
                && Audited(objects, true, checked', problems') && SeenAudited(objects, true, seen', problems')
                && (problems' == [] <==> problems == [] && ManifestSound(objects, Component(machine), id, true))
      ensures Quiet(others) && ManifestKey(Component(machine), id) in objects ==>
                AllAmiss(objects, true, machine, problems, problems')
    {
      hide Consistent, Grows, Component, ReadsAs, Audited, ManifestSound, SelectionReadable, AllAmiss;
      checked', seen', problems' := checked, seen, problems;
      GrowsReflexive(objects);
      AmissItself(objects, true, machine, problems);
      var k := ManifestKey(Component(machine), id);
      if k in seen { return; }
      seen' := seen + {k};
      checked', problems' := CheckManifest(machine, id, true, checked, problems);
    }

    /** Deep only: the manifests listed in the namespace, whether or not a pointer names them. */
    method CheckHistory(machine: string, checked: set<string>, seen: set<Key>, problems: seq<Problem>)
      returns (checked': set<string>, seen': set<Key>, problems': seq<Problem>)
      modifies this
      ensures old(Shared()) ==> Shared() && Grows(old(objects), objects) && problems' == problems
      ensures Quiet(others) ==> objects == old(objects)
      ensures Quiet(others) && Audited(objects, true, checked, problems)
              && SeenAudited(objects, true, seen, problems) ==>
                && Audited(objects, true, checked', problems') && SeenAudited(objects, true, seen', problems')
                && (problems' == [] <==> problems == [] && HistorySound(objects, machine))
      ensures Quiet(others) ==> AllAmiss(objects, true, machine, problems, problems')
    {
      hide Consistent, Grows, Component, ValidSorted, Canonical, ReadsAs, Audited, ManifestSound, SelectionReadable;
      hide AllAmiss, SeenAudited;
      AmissItself(objects, true, machine, problems);
      checked', seen', problems' := checked, seen, problems;
      ghost var start := objects;
      var ns := Component(machine);
      var ids := ListManifests(ns);
      ghost var listed := objects;
      ghost var all := ids;
      if old(Shared()) { GrowsReflexive(listed); }
      while ids != {}
        invariant ids <= all
        invariant old(Shared()) ==> Shared() && Grows(listed, objects) && problems' == problems
        invariant Quiet(others) ==> objects == start
        invariant Quiet(others) && Audited(start, true, checked, problems)
                  && SeenAudited(start, true, seen, problems) ==>
                    && Audited(start, true, checked', problems') && SeenAudited(start, true, seen', problems')
                    && (problems' == [] <==> problems == [] && forall id :: id in all - ids ==>
                        ManifestSound(start, ns, id, true))
        invariant Quiet(others) ==> AllAmiss(start, true, machine, problems, problems')
        decreases |ids|
      {
        var id :| id in ids;
        ghost var rest := ids;
        ids := ids - {id};
        assert all - ids == (all - rest) + {id};
        ghost var before, earlier := objects, problems';
        if old(Shared()) {
          assert ManifestKey(ns, id) in listed;
          StillReadable(listed, before, machine, id);
        }
        checked', seen', problems' := CheckListed(machine, id, checked', seen', problems');
        if old(Shared()) { GrowsTransitive(listed, before, objects); }
        if Quiet(others) { AmissOn(start, true, machine, problems, earlier, problems'); }
      }
      if old(Shared()) { GrowsTransitive(start, listed, objects); }
    }

    /** Verify: the registry, then each machine in turn. Run against any writers it reports nothing; run on a
        store at rest it reports nothing exactly when the Archive is sound, whoever wrote it. */
    method Verify(deep: bool) returns (problems: seq<Problem>)
      modifies this
      ensures old(Shared()) ==> problems == []
      ensures Quiet(others) ==> (problems == []
                                 <==> forall m :: m in Machines(objects) ==> MachineSound(objects, m, deep))
      ensures Quiet(others) ==> forall x :: x in problems ==> x.machine in Machines(objects) && Amiss(objects, deep, x)
      ensures Quiet(others) ==> objects == old(objects)
    {
      hide Consistent, Grows, Component, Machines, Audited, SeenAudited, MachineSound, AllAmiss, Amiss;
      problems := [];
      var checked, seen: set<Key> := {}, {};
      var machines := ReadMachines();
      ghost var start := objects;
      if old(Shared()) { GrowsReflexive(start); }
      AuditedAtFirst(start, deep);
      for i := 0 to |machines|
        invariant old(Shared()) ==> Shared() && Grows(start, objects) && problems == []
        invariant Quiet(others) ==> objects == start
        invariant Quiet(others) ==> Audited(start, deep, checked, problems) && SeenAudited(start, deep, seen, problems)
        invariant Quiet(others) ==> (problems == []
                                     <==> forall k :: 0 <= k < i ==> MachineSound(start, machines[k], deep))
        invariant Quiet(others) ==> OnlyAmiss(start, deep, machines[..i], problems)
      {
        assert machines[i] in Elements(machines);
        ghost var before := objects;
        if old(Shared()) { MachinesKept(start, before); }
        ghost var earlier := problems;
        checked, seen, problems := CheckMachine(machines[i], deep, checked, seen, problems);
        if Quiet(others) { OnlyAmissOn(start, deep, machines, i, earlier, problems); }
        if old(Shared()) { GrowsTransitive(start, before, objects); }
      }
      AllMachines(start, machines, deep);
      assert machines[..|machines|] == machines;
      if Quiet(others) { OnlyRegistered(start, deep, machines, problems); }
    }
  }

  // ---- planning a materialisation ---------------------------------------------

  /** The manifests a plan spools, in machine order. */
  function Selection(latest: map<string, Snapshot>, machines: seq<string>): seq<Spooled>
    requires forall m :: m in machines ==> m in latest
  {
    seq(|machines|, i requires 0 <= i < |machines| => Spooled(machines[i], latest[machines[i]]))
  }

  ghost predicate Differs(m: string, latest: map<string, Snapshot>, materialised: map<string, Snapshot>) {
    m in latest && (m !in materialised || materialised[m] != latest[m])
  }

  ghost function DifferingKeys(latest: map<string, Snapshot>, materialised: map<string, Snapshot>): set<string> {
    set m | m in latest && Differs(m, latest, materialised)
  }

  /** The machines whose selected snapshot is not the materialised one, ascending. */
  ghost function Changed(latest: map<string, Snapshot>, materialised: map<string, Snapshot>): (out: seq<string>)
    ensures Ascending(out) && Elements(out) == DifferingKeys(latest, materialised)
    ensures forall m :: m in out ==> m in latest
  {
    AscendingExists(DifferingKeys(latest, materialised));
    var out :| Ascending(out) && Elements(out) == DifferingKeys(latest, materialised);
    assert forall m :: m in out ==> m in Elements(out);
    out
  }

  lemma AscendingExists(s: set<string>)
    ensures exists out :: Ascending(out) && Elements(out) == s
  {
    if s == {} {
      NoElements<string>([]);
      assert Ascending([]);
    } else {
      var m :| m in s;
      AscendingExists(s - {m});
      var rest :| Ascending(rest) && Elements(rest) == s - {m};
      var out := AddSorted(rest, m);
      assert Ascending(out) && Elements(out) == s;
    }
  }

  ghost function Differing(machines: seq<string>, latest: map<string, Snapshot>,
                           materialised: map<string, Snapshot>): (out: seq<string>)
    ensures forall m :: m in out ==> m in latest
  {
    if |machines| == 0 then []
    else Differing(machines[..|machines| - 1], latest, materialised)
         + if Differs(machines[|machines| - 1], latest, materialised) then [machines[|machines| - 1]] else []
  }

  lemma DifferingSnoc(machines: seq<string>, m: string, latest: map<string, Snapshot>,
                      materialised: map<string, Snapshot>)
    ensures Differing(machines + [m], latest, materialised)
            == Differing(machines, latest, materialised) + if Differs(m, latest, materialised) then [m] else []
  {
    assert (machines + [m])[..|machines|] == machines;
  }

  lemma {:induction false} DifferingKept(machines: seq<string>, latest: map<string, Snapshot>,
                                         materialised: map<string, Snapshot>)
    requires Ascending(machines)
    ensures var out := Differing(machines, latest, materialised);
            && Ascending(out)
            && forall m :: m in out <==> m in machines && Differs(m, latest, materialised)
  {
    hide Differs;
    if |machines| > 0 {
      var n := |machines| - 1;
      DifferingKept(machines[..n], latest, materialised);
      var rest := Differing(machines[..n], latest, materialised);
      assert machines == machines[..n] + [machines[n]];
      forall k | 0 <= k < |rest| ensures Less(rest[k], machines[n]) {
        assert rest[k] in machines[..n];
      }
    }
  }

  lemma DifferingIsChanged(machines: seq<string>, latest: map<string, Snapshot>, materialised: map<string, Snapshot>)
    requires Ascending(machines) && Elements(machines) == latest.Keys
    ensures Differing(machines, latest, materialised) == Changed(latest, materialised)
  {
    hide Ascending;
    DifferingKept(machines, latest, materialised);
    var out := Differing(machines, latest, materialised);
    forall m ensures m in Elements(out) <==> m in DifferingKeys(latest, materialised) {
      assert m in machines <==> m in Elements(machines);
    }
    assert Elements(out) == DifferingKeys(latest, materialised);
    AscendingUnique(out, Changed(latest, materialised));
  }

  lemma SelectionSnoc(latest: map<string, Snapshot>, machines: seq<string>, m: string)
    requires m in latest && forall k :: k in machines ==> k in latest
    ensures Selection(latest, machines + [m]) == Selection(latest, machines) + [Spooled(m, latest[m])]
  {
  }

  ghost function SelectedBlobs(spooled: seq<Spooled>): set<string> {
    set k, sha | 0 <= k < |spooled| && sha in Blobs(spooled[k].id) :: sha
  }

  lemma UnknownMeans(spooled: seq<Spooled>, known: string -> bool)
    ensures Unknown(SelectedBlobs(spooled), known)
            == set k, f | 0 <= k < |spooled| && f in spooled[k].id.files && !known(f.sha) :: f.sha
  {
    forall k, f | 0 <= k < |spooled| && f in spooled[k].id.files ensures f.sha in SelectedBlobs(spooled) {
      assert f.sha in Blobs(spooled[k].id);
    }
  }

  lemma SelectedSnoc(spooled: seq<Spooled>, x: Spooled)
    ensures SelectedBlobs(spooled + [x]) == SelectedBlobs(spooled) + Blobs(x.id)
  {
    hide Blobs;
    var all := spooled + [x];
    forall sha ensures sha in SelectedBlobs(all) <==> sha in SelectedBlobs(spooled) + Blobs(x.id) {
      if sha in SelectedBlobs(spooled) {
        var k :| 0 <= k < |spooled| && sha in Blobs(spooled[k].id);
        assert all[k] == spooled[k];
      }
      if sha in Blobs(x.id) { assert all[|spooled|] == x; }
    }
  }

  lemma ChangedMembers(latest: map<string, Snapshot>, materialised: map<string, Snapshot>, m: string)
    ensures m in Changed(latest, materialised) <==> Differs(m, latest, materialised)
  {
    assert m in Changed(latest, materialised) <==> m in Elements(Changed(latest, materialised));
  }

  function Unknown(blobs: set<string>, known: string -> bool): set<string> { set sha | sha in blobs && !known(sha) }

  /** Every adapter a manifest requires is run here, at the version required. */
  ghost predicate Runs(id: Snapshot, supported: map<string, string>) {
    forall a :: a in id.adapters ==> a.name in supported && supported[a.name] == a.version
  }

  /** requireManifestAdapters: the first adapter that is absent or at another version. */
  method RequireAdapters(id: Snapshot, supported: map<string, string>) returns (missing: Option<Adapter>)
    ensures missing.None? <==> Runs(id, supported)
    ensures missing.None? <==>
              forall k :: 0 <= k < |id.adapters| ==>
                id.adapters[k].name in supported && supported[id.adapters[k].name] == id.adapters[k].version
    ensures missing.Some? ==> missing.value in id.adapters
                              && !(missing.value.name in supported
                                   && supported[missing.value.name] == missing.value.version)
  {
    for i := 0 to |id.adapters|
      invariant forall k :: 0 <= k < i ==> id.adapters[k].name in supported
                                           && supported[id.adapters[k].name] == id.adapters[k].version
    {
      var a := id.adapters[i];
      if a.name !in supported || supported[a.name] != a.version { return Some(a); }
    }
    missing := None;
  }

  lemma OneMoreBlob(blobs: set<string>, sha: string, known: string -> bool)
    requires sha !in blobs
    ensures |Unknown(blobs + {sha}, known)| == |Unknown(blobs, known)| + if known(sha) then 0 else 1
  {
    assert Unknown(blobs + {sha}, known) == Unknown(blobs, known) + if known(sha) then {} else {sha};
  }

  lemma NoShas(files: seq<File>)
    ensures Shas(files[..0]) == {}
  {
    assert files[..0] == [];
  }

  /** The files of one manifest, each blob inserted once into the running set and counted if unknown. */
  method CountUnknown(id: Snapshot, blobs: set<string>, unknown: nat, known: string -> bool)
    returns (blobs': set<string>, unknown': nat)
    requires unknown == |Unknown(blobs, known)|
    ensures blobs' == blobs + Blobs(id) && unknown' == |Unknown(blobs', known)|
  {
    hide Unknown, Shas;
    blobs', unknown' := blobs, unknown;
    NoShas(id.files);
    for i := 0 to |id.files|
      invariant blobs' == blobs + Shas(id.files[..i]) && unknown' == |Unknown(blobs', known)|
    {
      var sha := id.files[i].sha;
      ShasNext(id.files, i);
      if sha !in blobs' {
        OneMoreBlob(blobs', sha, known);
        blobs' := blobs' + {sha};
        if !known(sha) { unknown' := unknown' + 1; }
      }
    }
    assert id.files[..|id.files|] == id.files;
  }

  /** The machines of a vector, sorted. */
  method SortedMachines(latest: map<string, Snapshot>) returns (machines: seq<string>)
    ensures Ascending(machines) && Elements(machines) == latest.Keys
  {
    hide Ascending;
    machines := [];
    var left := latest.Keys;
    while left != {}
      invariant left <= latest.Keys && Elements(machines) == latest.Keys - left
      invariant forall j, k :: 0 <= j < k < |machines| ==> machines[j] != machines[k]
      decreases |left|
    {
      var m :| m in left;
      assert forall k :: 0 <= k < |machines| ==> machines[k] in Elements(machines);
      ElementsSnoc(machines, m);
      machines, left := machines + [m], left - {m};
    }
    SortedDistinct(machines);
    machines := SortBy(machines, Less);
  }

  lemma SelectionReads(s: Store, machine: string, id: Snapshot)
    requires SelectionReadable(s, machine, id)
    ensures ReadsAs(s, Component(machine), id)
  {
  }

  /** With the vector already materialised, planning again spools nothing. */
  lemma NothingChanged(latest: map<string, Snapshot>, materialised: map<string, Snapshot>)
    ensures Changed(latest, materialised) == []
            <==> (forall m :: m in latest ==> m in materialised && materialised[m] == latest[m])
  {
    hide Ascending;
    NoElements(Changed(latest, materialised));
    if m :| m in latest && Differs(m, latest, materialised) {
      assert m in DifferingKeys(latest, materialised);
    } else {
      assert DifferingKeys(latest, materialised) == {};
    }
  }

  predicate BlobSound(s: Store, sha: string, deep: bool) {
    BlobKey(sha) in s && (deep ==> s[BlobKey(sha)] == Content(sha))
  }

  ghost predicate ManifestSound(s: Store, ns: Namespace, id: Snapshot, deep: bool) {
    ReadsAs(s, ns, id) && forall sha :: sha in Blobs(id) ==> BlobSound(s, sha, deep)
  }

  /** A blob once checked and found bad has left a problem behind. */
  ghost predicate Audited(s: Store, deep: bool, checked: set<string>, problems: seq<Problem>) {
    forall sha :: sha in checked && !BlobSound(s, sha, deep) ==> problems != []
  }

  ghost predicate SeenAudited(s: Store, deep: bool, seen: set<Key>, problems: seq<Problem>) {
    forall k :: k in seen && k.ManifestKey? && !ManifestSound(s, k.ns, k.id, deep) ==> problems != []
  }

  ghost predicate HistorySound(s: Store, machine: string) {
    forall id :: ManifestKey(Component(machine), id) in s ==> ManifestSound(s, Component(machine), id, true)
  }

  ghost predicate MachineSound(s: Store, machine: string, deep: bool) {
    && PointerAt(s, Component(machine)).Some?
    && ManifestSound(s, Component(machine), PointerAt(s, Component(machine)).value, deep)
    && (deep ==> HistorySound(s, machine))
  }

  /** A stored manifest under its own identity, valid and of this namespace, with every file's blob there and, when
      looked into, holding what its address says. */
  ghost predicate Whole(s: Store, ns: Namespace, id: Snapshot, deep: bool) {
    && Lookup(s, ManifestKey(ns, id)) == Some(Document(id)) && Canonical(id) == id && Valid(id)
    && Component(id.machineId) == ns
    && forall f :: f in id.files ==>
         Lookup(s, BlobKey(f.sha)).Some? && (deep ==> Lookup(s, BlobKey(f.sha)) == Some(Content(f.sha)))
  }

  lemma WholeIsSound(s: Store, ns: Namespace, id: Snapshot, deep: bool)
    ensures ManifestSound(s, ns, id, deep) <==> Whole(s, ns, id, deep)
  {
    hide Component, Canonical, ValidSorted;
    forall f | f in id.files ensures f.sha in Blobs(id) {}
  }

  /** A sound machine points at a whole snapshot; looked into, all of its history is whole as well. */
  lemma SoundMeans(s: Store, machine: string, deep: bool)
    ensures MachineSound(s, machine, deep) <==>
              var ns := Component(machine);
              && (exists id :: Lookup(s, LatestKey(ns)) == Some(Pointer(id)) && Whole(s, ns, id, deep))
              && (deep ==> forall id :: ManifestKey(ns, id) in s ==> Whole(s, ns, id, true))
  {
    hide ManifestSound, Whole, Component;
    var ns := Component(machine);
    forall id ensures ManifestSound(s, ns, id, deep) <==> Whole(s, ns, id, deep) { WholeIsSound(s, ns, id, deep); }
    forall id ensures ManifestSound(s, ns, id, true) <==> Whole(s, ns, id, true) { WholeIsSound(s, ns, id, true); }
    if PointerAt(s, ns).Some? {
      var id := PointerAt(s, ns).value;
      assert Lookup(s, LatestKey(ns)) == Some(Pointer(id));
    }
  }

  /** A manifest Verify looks at: the one pointed at and, looked into, any other of the namespace. */
  ghost predicate Looked(s: Store, ns: Namespace, id: Snapshot, deep: bool) {
    PointerAt(s, ns) == Some(id) || (deep && ManifestKey(ns, id) in s)
  }

  /** What is reported of a machine is so. */
  ghost predicate Amiss(s: Store, deep: bool, x: Problem) {
    var ns := Component(x.machine);
    match x
    case NoPointer(_) => LatestKey(ns) !in s
    case UnreadablePointer(_) => LatestKey(ns) in s && PointerAt(s, ns).None?
    case UnreadableManifest(_) => exists id :: Looked(s, ns, id, deep) && !ReadsAs(s, ns, id)
    case UnreadableBlob(_) => exists id, f :: BlobMissed(s, ns, id, f, deep)
  }

  ghost predicate BlobMissed(s: Store, ns: Namespace, id: Snapshot, f: File, deep: bool) {
    Looked(s, ns, id, deep) && ReadsAs(s, ns, id) && f in id.files && !BlobSound(s, f.sha, deep)
  }

  /** Problems added, all of this machine and all so. */
  ghost predicate AllAmiss(s: Store, deep: bool, machine: string, before: seq<Problem>, after: seq<Problem>) {
    && |before| <= |after| && after[..|before|] == before
    && forall k :: |before| <= k < |after| ==> after[k].machine == machine && Amiss(s, deep, after[k])
  }

  lemma BlobAmiss(s: Store, deep: bool, machine: string, id: Snapshot, f: File)
    requires Looked(s, Component(machine), id, deep) && ReadsAs(s, Component(machine), id)
    requires f in id.files && !BlobSound(s, f.sha, deep)
    ensures Amiss(s, deep, UnreadableBlob(machine))
  {
    hide Looked, ReadsAs, Component, BlobSound;
    assert BlobMissed(s, Component(machine), id, f, deep);
  }

  ghost predicate OnlyAmiss(s: Store, deep: bool, machines: seq<string>, problems: seq<Problem>) {
    forall x :: x in problems ==> x.machine in machines && Amiss(s, deep, x)
  }

  lemma OnlyAmissOn(s: Store, deep: bool, machines: seq<string>, i: nat, before: seq<Problem>, after: seq<Problem>)
    requires i < |machines| && OnlyAmiss(s, deep, machines[..i], before)
    requires AllAmiss(s, deep, machines[i], before, after)
    ensures OnlyAmiss(s, deep, machines[..i + 1], after)
  {
    hide Amiss;
    assert machines[..i + 1] == machines[..i] + [machines[i]];
    assert after == before + after[|before|..];
  }

  lemma OnlyRegistered(s: Store, deep: bool, machines: seq<string>, problems: seq<Problem>)
    requires machines == Registered(Lookup(s, IndexKey)) && OnlyAmiss(s, deep, machines, problems)
    ensures forall x :: x in problems ==> x.machine in Machines(s) && Amiss(s, deep, x)
  {
    hide Amiss;
    assert forall m :: m in machines ==> m in Elements(machines);
  }

  lemma AmissItself(s: Store, deep: bool, machine: string, problems: seq<Problem>)
    ensures AllAmiss(s, deep, machine, problems, problems)
  {
    hide Amiss;
  }

  lemma AmissSnoc(s: Store, deep: bool, machine: string, before: seq<Problem>, after: seq<Problem>, x: Problem)
    requires AllAmiss(s, deep, machine, before, after) && x.machine == machine && Amiss(s, deep, x)
    ensures AllAmiss(s, deep, machine, before, after + [x])
  {
    hide Amiss;
  }

  lemma AmissOn(s: Store, deep: bool, machine: string, a: seq<Problem>, b: seq<Problem>, c: seq<Problem>)
    requires AllAmiss(s, deep, machine, a, b) && AllAmiss(s, deep, machine, b, c)
    ensures AllAmiss(s, deep, machine, a, c)
  {
    hide Amiss;
    assert c[..|a|] == c[..|b|][..|a|];
    forall k | |a| <= k < |c| ensures c[k].machine == machine && Amiss(s, deep, c[k]) {
      if k < |b| { assert c[k] == b[k]; }
    }
  }

  lemma AuditedAtFirst(s: Store, deep: bool)
    ensures Audited(s, deep, {}, []) && SeenAudited(s, deep, {}, [])
  {
  }

  lemma AuditedLater(s: Store, deep: bool, checked: set<string>, seen: set<Key>, problems: seq<Problem>,
                     more: seq<Problem>)
    ensures Audited(s, deep, checked, problems) && (problems != [] ==> more != []) ==> Audited(s, deep, checked, more)
    ensures SeenAudited(s, deep, seen, problems) && (problems != [] ==> more != []) ==> SeenAudited(s, deep, seen, more)
  {
  }

  lemma StillReadable(s: Store, t: Store, machine: string, id: Snapshot)
    requires Consistent(s) && Grows(s, t) && ManifestKey(Component(machine), id) in s
    ensures SelectionReadable(t, machine, id)
  {
    hide Consistent, Grows, Component, SelectionReadable;
    ConsistentReads(s, machine, id);
    SelectionStays(s, t, machine, id);
  }

  lemma MachinesKept(s: Store, t: Store)
    requires Grows(s, t)
    ensures Machines(s) <= Machines(t)
  {
  }

  lemma AllMachines(s: Store, machines: seq<string>, deep: bool)
    requires machines == Registered(Lookup(s, IndexKey))
    ensures (forall k :: 0 <= k < |machines| ==> MachineSound(s, machines[k], deep))
            <==> (forall m :: m in Machines(s) ==> MachineSound(s, m, deep))
  {
    hide MachineSound;
    forall k | 0 <= k < |machines| ensures machines[k] in Machines(s) { assert machines[k] in Elements(machines); }
  }

  lemma AllBlobs(s: Store, id: Snapshot, deep: bool)
    ensures (forall k :: 0 <= k < |id.files| ==> BlobSound(s, id.files[k].sha, deep))
            <==> (forall sha :: sha in Blobs(id) ==> BlobSound(s, sha, deep))
  {
    forall k | 0 <= k < |id.files| ensures id.files[k].sha in Blobs(id) { assert id.files[k] in id.files; }
  }

  /** A machine seen registered has, from then on, a pointer to a readable snapshot. */
  lemma PointerReads(s: Store, t: Store, machine: string)
    requires Consistent(s) && Consistent(t) && Grows(s, t) && machine in Machines(s)
    ensures PointerAt(t, Component(machine)).Some? && Lookup(t, LatestKey(Component(machine))).Some?
    ensures SelectionReadable(t, machine, PointerAt(t, Component(machine)).value)
  {
    hide Component, SelectionReadable, Typed, Closed;
    ConsistentReads(t, machine, PointerAt(t, Component(machine)).value);
  }
}
