/** One push as it runs: sequential code over a store that other clients keep changing.
    Each store call is proved to be the next call of the push's phase in Publication, so every execution
    of Push is one client of the interleaved protocol. */
module Publisher {
  import opened Order
  import opened Namespaces
  import opened Manifests
  import opened Options
  import opened ObjectStore
  import opened Publication

  /** What the other clients do before this client's i-th call: anything that keeps and grows the store. */
  type Others = (nat, Store) -> Store

  ghost predicate Lawful(others: Others) {
    forall i, s :: Consistent(s) ==> Consistent(others(i, s)) && Grows(s, others(i, s))
  }

  /** Nobody else writes. */
  ghost predicate Quiet(others: Others) {
    forall i, s :: others(i, s) == s
  }

  /** Once away from a value, others do not move this namespace's pointer back to it. */
  ghost predicate NoReturn(others: Others, ns: Namespace, to: Option<Snapshot>) {
    forall i, s :: Consistent(s) && PointerAt(s, ns) != to ==> PointerAt(others(i, s), ns) != to
  }

  /** Others move the pointer neither back to the captured parent nor to what this push publishes. */
  ghost predicate StaysAway(others: Others, req: Request, pub: Publication) {
    NoReturn(others, Ns(req), pub.expected) && NoReturn(others, Ns(req), Some(pub.id))
  }

  datatype ReceiptKind = Uploaded | Existing | Carried
  datatype Receipt = Receipt(sha: string, kind: ReceiptKind)
  datatype Report = Report(reused: bool, files: nat, uploaded: nat, existing: nat, carried: nat)

  class Push {
    const req: Request
    const others: Others
    var objects: Store
    var calls: nat
    ghost var phase: Phase

    ghost predicate Valid()
      reads this
    {
      && Lawful(others)
      && Consistent(objects) && Granted(objects, req) && PhaseHolds(objects, req, phase)
    }

    constructor (req: Request, objects: Store, others: Others)
      requires Lawful(others) && Consistent(objects) && Granted(objects, req)
      ensures Valid() && phase == Starting && this.req == req && this.objects == objects && this.others == others
    {
      this.req, this.objects, this.others := req, objects, others;
      calls, phase := 0, Starting;
    }

    /** Others act, then this push's next call takes effect at one point in time. */
    method Send(c: Call) returns (r: Reply)
      requires Valid() && c == NextCall(req, phase)
      modifies this
      ensures Valid() && Grows(old(objects), objects)
      ensures var found := others(old(calls), old(objects));
              Consistent(found) && Grows(old(objects), found) && objects == Perform(found, c).store
              && r == Perform(found, c).reply
      ensures phase == Resume(req, old(phase), r) && calls == old(calls) + 1
    {
      hide Consistent, Grows, PhaseHolds, Granted, NextCall, Resume;
      var found := others(calls, objects);
      PhaseStable(objects, found, req, phase);
      GrantStable(objects, found, req);
      StepKeeps(found, req, phase);
      var e := Perform(found, c);
      GrowsTransitive(objects, found, e.store);
      GrantStable(found, e.store, req);
      objects, calls := e.store, calls + 1;
      r := e.reply;
      phase := Resume(req, phase, r);
    }

    /** A step that needs no store call. */
    ghost method Advance()
      requires Valid() && NextCall(req, phase) == Nothing
      modifies this`phase
      ensures Valid() && phase == Resume(req, old(phase), Silent)
    {
      hide Consistent, Grows, PhaseHolds, Granted, NextCall, Resume;
      StepKeeps(objects, req, phase);
      phase := Resume(req, phase, Silent);
    }

    /** parent(): the pointer, then the manifest it names. Both are found by the protocol's invariants. */
    method FetchParent() returns (parent: Option<Snapshot>)
      requires Valid() && phase == Starting && Manifests.Valid(req.snapshot)
      modifies this
      ensures Valid() && Grows(old(objects), objects) && phase == WithParent(req, parent) && calls >= old(calls)
      ensures Quiet(others) ==> objects == old(objects) && parent == PointerAt(objects, Ns(req))
    {
      hide Manifests.Valid, Component, Consistent, Grows, StateOf, Canonical, Granted;
      var ns := Component(req.snapshot.machineId);
      var r := Send(Read(LatestKey(ns)));
      ghost var first := objects;
      if r.body.None? { return None; }
      var o := r.body.value;
      UnreadableNever();
      var r2 := Send(Read(ManifestKey(ns, o.id)));
      GrowsTransitive(old(objects), first, objects);
      UnreadableNever();
      parent := Some(o.id);
    }

    /** The protocol's invariants rule these ends out. */
    lemma UnreadableNever()
      requires Valid()
      ensures phase != Ended(Unreadable) && phase != Ended(Damaged) && phase != Ended(MissingReceipt)
    {
    }

    /** One file of the upload loop: nothing for a repeat, a carried receipt, or a put if absent. */
    method UploadOne(parent: Option<Snapshot>, i: nat, seen: set<string>, source: string -> bool)
      returns (ok: bool, receipt: Option<Receipt>)
      requires Valid() && i < |req.snapshot.files| && phase == Uploading(parent, i, seen)
      modifies this
      ensures Valid() && Grows(old(objects), objects) && calls >= old(calls)
      ensures PointerAtStays(old(objects))
      ensures var sha := req.snapshot.files[i].sha;
              && (ok ==> phase == Uploading(parent, i + 1, seen + {sha}))
              && (ok ==> (receipt.None? <==> sha in seen))
              && (ok ==> sha in seen || Lists(parent, sha) || source(sha))
              && (receipt.Some? ==>
                    receipt.value.sha == sha && KindFits(receipt.value, parent, old(objects), Quiet(others)))
              && (!ok ==> phase == Ended(SourceFailed) && !Lists(parent, sha) && !source(sha))
      ensures Quiet(others) ==> SameElsewhere(old(objects), objects, {req.snapshot.files[i].sha})
    {
      hide Manifests.Valid, Component, Consistent, Grows, StateOf, Canonical, Granted;
      var sha := req.snapshot.files[i].sha;
      GrowsReflexive(objects);
      if sha in seen {
        Advance();
        return true, None;
      }
      if Lists(parent, sha) {
        Advance();
        return true, Some(Receipt(sha, Carried));
      }
      if !source(sha) {
        phase := Ended(SourceFailed);
        return false, None;
      }
      var r := Send(PutNew(BlobKey(sha), Content(sha)));
      return true, Some(Receipt(sha, if r.made then Uploaded else Existing));
    }

    /** Alone, this push has not moved its machine's pointer since an earlier state. */
    ghost predicate PointerAtStays(before: Store)
      reads this
    {
      Quiet(others) ==> PointerAt(objects, Ns(req)) == PointerAt(before, Ns(req))
    }

    /** The upload loop: one receipt per distinct content, carried from the parent or put if absent. */
    method Upload(parent: Option<Snapshot>, source: string -> bool) returns (ok: bool, receipts: seq<Receipt>)
      requires Valid() && phase == Uploading(parent, 0, {})
      modifies this
      ensures Valid() && Grows(old(objects), objects) && PointerAtStays(old(objects)) && calls >= old(calls)
      ensures ok ==> phase == Publishing(parent, Blobs(req.snapshot)) && Covers(receipts, Blobs(req.snapshot))
      ensures Kinds(receipts, parent, old(objects), Quiet(others))
      ensures !ok ==> phase == Ended(SourceFailed)
      ensures ok <==> Sourced(parent, source, Blobs(req.snapshot))
    {
      hide Manifests.Valid, Component, Consistent, Grows, StateOf, Canonical, Granted, Perform, Lists;
      hide Covers, Kinds, KindFits, SameElsewhere;
      StartUpload(parent, objects, Quiet(others));
      var files := req.snapshot.files;
      var seen: set<string> := {};
      receipts := [];
      GrowsReflexive(objects);
      for i := 0 to |files|
        invariant Valid() && Grows(old(objects), objects) && PointerAtStays(old(objects)) && calls >= old(calls)
        invariant phase == Uploading(parent, i, seen) && Covers(receipts, seen)
        invariant Kinds(receipts, parent, old(objects), Quiet(others)) && Sourced(parent, source, seen)
        invariant Quiet(others) ==> SameElsewhere(old(objects), objects, seen)
      {
        var sha := files[i].sha;
        assert files[i] in files && sha in Blobs(req.snapshot);
        ghost var before := objects;
        var one, receipt := UploadOne(parent, i, seen, source);
        GrowsTransitive(old(objects), before, objects);
        if !one { return false, receipts; }
        if Quiet(others) { SameElsewhereMore(old(objects), before, objects, seen, sha); }
        if receipt.Some? {
          CoversMore(receipts, seen, receipt.value);
          KindSince(receipt.value, parent, old(objects), before, seen, Quiet(others));
          KindsMore(receipts, parent, old(objects), Quiet(others), receipt.value);
          receipts := receipts + [receipt.value];
        } else {
          assert seen + {sha} == seen;
        }
        seen := seen + {sha};
      }
      Advance();
      ok := true;
    }

    /** publishSnapshot: refuse an uncovered file, then write the manifest once. */
    method PublishSnapshot(parent: Option<Snapshot>, receipts: seq<Receipt>) returns (pub: Publication)
      requires Valid() && phase == Publishing(parent, Blobs(req.snapshot)) && Covers(receipts, Blobs(req.snapshot))
      modifies this
      ensures Valid() && Grows(old(objects), objects) && PointerAtStays(old(objects)) && calls >= old(calls)
      ensures pub == Publication(Id(req), parent) && phase == PointerRead(pub, 0)
    {
      hide Manifests.Valid, Component, Consistent, Grows, StateOf, Canonical, Granted;
      var ns := Component(req.snapshot.machineId);
      var id := Canonical(req.snapshot);
      var covered: set<string> := {};
      for i := 0 to |receipts|
        invariant covered == set k | 0 <= k < i :: receipts[k].sha
      {
        covered := covered + {receipts[i].sha};
      }
      for i := 0 to |req.snapshot.files| {
        assert req.snapshot.files[i].sha in Blobs(req.snapshot);
        assert req.snapshot.files[i].sha in covered;
      }
      var r := Send(PutNew(ManifestKey(ns, id), Document(id)));
      pub := Publication(id, parent);
    }

    /** One round of ensureInMachinesIndex. Losing it means another machine was registered meanwhile. */
    method RegisterRound(pub: Publication, attempt: nat) returns (done: bool)
      requires Valid() && phase == IndexRead(pub, attempt) && attempt < RETRY_ATTEMPTS
      modifies this
      ensures Valid() && Grows(old(objects), objects) && PointerAtStays(old(objects))
      ensures done ==> phase == Ended(Published(pub.id))
      ensures !done ==>
                phase == if attempt + 1 < RETRY_ATTEMPTS then IndexRead(pub, attempt + 1) else Ended(ContendedIndex)
      ensures !done ==> |Machines(objects)| > |Machines(old(objects))| && calls == old(calls) + 2
      ensures calls >= old(calls)
      ensures Quiet(others) ==> done
      ensures Quiet(others) && req.snapshot.machineId in Machines(old(objects)) ==> objects == old(objects)
    {
      hide Manifests.Valid, Component, Consistent, Grows, StateOf, Canonical, Granted, Listing;
      var machine := req.snapshot.machineId;
      var r := Send(Read(IndexKey));
      ghost var read := objects;
      MachinesGrow(old(objects), read);
      UnreadableNever();
      if machine in Registered(r.body) { return true; }
      var w := Send(Swap(IndexKey, Registry(Listing(Registered(r.body) + [machine])), r.body));
      GrowsTransitive(old(objects), read, objects);
      if w.won { return true; }
      LostRaceIsGrowth(read, objects);
      done := false;
    }

    /** ensureInMachinesIndex: at most twelve rounds of reading the registry and swapping this machine in. */
    method EnsureInIndex(pub: Publication) returns (outcome: Outcome)
      requires Valid() && phase == IndexRead(pub, 0)
      modifies this
      ensures Valid() && Grows(old(objects), objects) && PointerAtStays(old(objects)) && phase == Ended(outcome)
      ensures outcome == Published(pub.id) || outcome == ContendedIndex
      ensures outcome == ContendedIndex ==>
                |Machines(objects)| >= |Machines(old(objects))| + 12 && calls == old(calls) + 24
      ensures |Machines(objects)| < |Machines(old(objects))| + 12 ==> outcome == Published(pub.id)
      ensures calls >= old(calls)
      ensures Quiet(others) ==> outcome == Published(pub.id)
      ensures Quiet(others) && req.snapshot.machineId in Machines(old(objects)) ==> objects == old(objects)
    {
      hide Manifests.Valid, Component, Consistent, Grows, StateOf, Canonical, Granted, Listing, Perform, PhaseHolds;
      GrowsReflexive(objects);
      var attempt := 0;
      while attempt < RETRY_ATTEMPTS
        invariant attempt <= RETRY_ATTEMPTS && Valid() && Grows(old(objects), objects) && PointerAtStays(old(objects))
        invariant phase == if attempt < RETRY_ATTEMPTS then IndexRead(pub, attempt) else Ended(ContendedIndex)
        invariant |Machines(objects)| >= |Machines(old(objects))| + attempt && calls == old(calls) + 2 * attempt
        invariant Quiet(others) ==> objects == old(objects) && attempt == 0
      {
        ghost var before := objects;
        var done := RegisterRound(pub, attempt);
        GrowsTransitive(old(objects), before, objects);
        if done { return Published(pub.id); }
        attempt := attempt + 1;
      }
      outcome := ContendedIndex;
    }

    /** One round of moving the pointer: already there, moved now, overtaken, or lost in between. */
    method PointerRound(pub: Publication, attempt: nat) returns (move: PointerMove)
      requires Valid() && phase == PointerRead(pub, attempt) && attempt < RETRY_ATTEMPTS
      modifies this
      ensures Valid() && Grows(old(objects), objects)
      ensures if move.Lost? then calls == old(calls) + 2 else calls >= old(calls)
      ensures match move
              case There => phase == IndexRead(pub, 0) && PointerAt(objects, Ns(req)) == Some(pub.id)
              case Overtaken => phase == Ended(Stale) && Elsewhere(objects, req, pub)
              case Lost =>
                phase == (if attempt + 1 < RETRY_ATTEMPTS then PointerRead(pub, attempt + 1)
                          else Ended(ContendedPointer))
                           && PointerAt(objects, Ns(req)) != pub.expected
      ensures NoReturn(others, Ns(req), pub.expected) && PointerAt(old(objects), Ns(req)) != pub.expected ==>
              !move.Lost?
      ensures StaysAway(others, req, pub) && Elsewhere(old(objects), req, pub) ==> move.Overtaken?
      ensures Quiet(others) ==> (move.There? <==> !Elsewhere(old(objects), req, pub)) && !move.Lost?
      ensures Quiet(others) && PointerAt(old(objects), Ns(req)) == Some(pub.id) ==> objects == old(objects)
      ensures Quiet(others) ==> Machines(objects) == Machines(old(objects))
    {
      hide Manifests.Valid, Component, Consistent, Grows, StateOf, Canonical, Granted;
      var ns := Component(req.snapshot.machineId);
      var r := Send(Read(LatestKey(ns)));
      ghost var read := objects;
      UnreadableNever();
      PointerTyped(objects, Ns(req));
      if r.body.None? {
        if pub.expected.Some? { return Overtaken; }
      } else if r.body.value.Pointer? {
        var current := r.body.value.id;
        if current == pub.id { return There; }
        if pub.expected != Some(current) { return Overtaken; }
      }
      var w := Send(Swap(LatestKey(ns), Pointer(pub.id), r.body));
      GrowsTransitive(old(objects), read, objects);
      PointerTyped(objects, Ns(req));
      move := if w.won then There else Lost;
    }

    /** setLatest: at most twelve rounds on the pointer, then the registry. The pointer is written first. */
    method SetLatest(pub: Publication) returns (outcome: Outcome)
      requires Valid() && phase == PointerRead(pub, 0)
      modifies this
      ensures Valid() && Grows(old(objects), objects) && phase == Ended(outcome)
      ensures outcome in {Published(pub.id), Stale, ContendedPointer, ContendedIndex}
      ensures calls >= old(calls) && (outcome == ContendedPointer ==> calls == old(calls) + 24)
      ensures outcome == Stale ==> Elsewhere(objects, req, pub)
      ensures outcome == ContendedIndex ==> |Machines(objects)| >= |Machines(old(objects))| + 12
      ensures NoReturn(others, Ns(req), pub.expected) ==> outcome != ContendedPointer
      ensures StaysAway(others, req, pub) && Elsewhere(old(objects), req, pub) ==> outcome == Stale
      ensures Quiet(others) && !Elsewhere(old(objects), req, pub) ==>
                outcome == Published(pub.id) && PointerAt(objects, Ns(req)) == Some(pub.id)
      ensures Quiet(others) && PointerAt(old(objects), Ns(req)) == Some(pub.id)
              && req.snapshot.machineId in Machines(old(objects)) ==>
                objects == old(objects)
    {
      hide Manifests.Valid, Component, Consistent, Grows, StateOf, Canonical, Granted, Perform, PhaseHolds, Machines;
      GrowsReflexive(objects);
      var attempt := 0;
      while attempt < RETRY_ATTEMPTS
        invariant attempt <= RETRY_ATTEMPTS && Valid() && Grows(old(objects), objects)
        invariant phase == if attempt < RETRY_ATTEMPTS then PointerRead(pub, attempt) else Ended(ContendedPointer)
        invariant Quiet(others) ==> objects == old(objects) && attempt == 0
        invariant calls == old(calls) + 2 * attempt
        invariant NoReturn(others, Ns(req), pub.expected) ==>
                    attempt < RETRY_ATTEMPTS && (attempt > 0 ==> PointerAt(objects, Ns(req)) != pub.expected)
        invariant StaysAway(others, req, pub) && Elsewhere(old(objects), req, pub) ==>
                  attempt == 0 && Elsewhere(objects, req, pub)
      {
        ghost var before := objects;
        var move := PointerRound(pub, attempt);
        GrowsTransitive(old(objects), before, objects);
        if move.Overtaken? { return Stale; }
        if move.There? {
          ghost var moved := objects;
          MachinesGrow(old(objects), moved);
          outcome := EnsureInIndex(pub);
          GrowsTransitive(old(objects), moved, objects);
          return;
        }
        attempt := attempt + 1;
      }
      outcome := ContendedPointer;
    }

    /** pushV2WithOptions: the whole push. Nothing other clients do makes it find its parent unreadable,
        refuse a damaged Archive or miss a receipt; left alone it always completes pointer and registry,
        whatever an earlier push left behind; and with unchanged state it writes nothing. */
    method Execute(source: string -> bool) returns (outcome: Outcome, report: Report, ghost parent: Option<Snapshot>)
      requires Valid() && phase == Starting
      modifies this
      ensures Valid() && Grows(old(objects), objects) && phase == Ended(outcome)
      ensures outcome == InvalidManifest <==> !Manifests.Valid(req.snapshot)
      ensures outcome != InvalidManifest && !report.reused ==>
                (outcome != SourceFailed <==> Sourced(parent, source, Blobs(req.snapshot)))
      ensures report.reused ==> outcome != SourceFailed
      ensures outcome == Stale ==> Elsewhere(objects, req, Sought(req, report.reused, parent))
      ensures outcome == ContendedIndex ==> |Machines(objects)| >= |Machines(old(objects))| + 12
      ensures NoReturn(others, Ns(req), parent) ==> outcome != ContendedPointer
      ensures outcome == ContendedPointer ==> calls >= old(calls) + 24
      ensures outcome in {InvalidManifest, SourceFailed, Stale, ContendedPointer, ContendedIndex}
              || outcome == Published(Sought(req, report.reused, parent).id)
      ensures outcome.Published? ==>
                if report.reused then StateOf(outcome.id) == StateOf(req.snapshot)
                else
                  && outcome.id == Id(req)
                  && report.uploaded + report.existing + report.carried == |Blobs(req.snapshot)|
      ensures Quiet(others) && outcome.Published? && !report.reused ==>
                Counted(report, PointerAt(old(objects), Ns(req)), old(objects), Blobs(req.snapshot))
      ensures Quiet(others) && Manifests.Valid(req.snapshot)
              && (forall sha :: sha in Blobs(req.snapshot) ==> source(sha)) ==>
                outcome.Published? && PointerAt(objects, Ns(req)) == Some(outcome.id)
      ensures outcome.Published? ==> req.snapshot.machineId in Machines(objects)
      ensures report.files == if outcome == InvalidManifest then 0 else |req.snapshot.files|
      ensures report.reused ==> report.uploaded == report.existing == report.carried == 0
      ensures Quiet(others) && Manifests.Valid(req.snapshot) && Unchanged(old(objects), req) ==>
                objects == old(objects) && outcome == Published(PointerAt(old(objects), Ns(req)).value) && report.reused
    {
      hide Manifests.Valid, Component, Consistent, Grows, StateOf, Canonical, Granted, Perform;
      report, parent := Report(false, 0, 0, 0, 0), None;
      var encodes := ValidateSnapshot(Canonical(req.snapshot));
      ValidIsCanonical(req.snapshot);
      if !encodes {
        GrowsReflexive(objects);
        Advance();
        return InvalidManifest, report, parent;
      }
      report := report.(files := |req.snapshot.files|);
      var found := FetchParent();
      parent := found;
      ghost var fetched := objects;
      UnreadableNever();
      if req.mustHaveParent && found.None? { return Damaged, report, parent; }
      MachinesGrow(old(objects), fetched);
      if found.Some? && StateOf(found.value) == StateOf(req.snapshot) {
        outcome := SetLatest(Publication(found.value, found));
        GrowsTransitive(old(objects), fetched, objects);
        report := report.(reused := true);
        PublishedMeans(outcome);
        return;
      }
      outcome, report := PublishNew(found, source);
      GrowsTransitive(old(objects), fetched, objects);
      PublishedMeans(outcome);
    }

    /** The rest of a push whose state differs from its parent's: upload, publish, move the pointer. */
    method PublishNew(parent: Option<Snapshot>, source: string -> bool) returns (outcome: Outcome, report: Report)
      requires Valid() && phase == Uploading(parent, 0, {})
      modifies this
      ensures Valid() && Grows(old(objects), objects) && phase == Ended(outcome)
      ensures !report.reused && report.files == |req.snapshot.files|
      ensures outcome in {SourceFailed, Stale, ContendedPointer, ContendedIndex} || outcome == Published(Id(req))
      ensures outcome == Stale ==> Elsewhere(objects, req, Sought(req, false, parent))
      ensures outcome == ContendedIndex ==> |Machines(objects)| >= |Machines(old(objects))| + 12
      ensures NoReturn(others, Ns(req), parent) ==> outcome != ContendedPointer
      ensures outcome == ContendedPointer ==> calls >= old(calls) + 24
      ensures outcome != SourceFailed <==> Sourced(parent, source, Blobs(req.snapshot))
      ensures outcome.Published? ==>
                outcome.id == Id(req) && report.uploaded + report.existing + report.carried == |Blobs(req.snapshot)|
      ensures Quiet(others) && outcome.Published? ==> Counted(report, parent, old(objects), Blobs(req.snapshot))
      ensures Quiet(others) && parent == PointerAt(old(objects), Ns(req))
              && (forall sha :: sha in Blobs(req.snapshot) ==> source(sha)) ==>
                outcome == Published(Id(req)) && PointerAt(objects, Ns(req)) == Some(Id(req))
    {
      hide Manifests.Valid, Component, Consistent, Grows, StateOf, Canonical, Granted, Perform, PhaseHolds, Lists;
      var ok, receipts := Upload(parent, source);
      ghost var uploaded := objects;
      report := Report(false, |req.snapshot.files|, 0, 0, 0);
      if !ok { return SourceFailed, report; }
      report := Count(receipts, report);
      CountsMean(receipts, parent, old(objects), Blobs(req.snapshot), Quiet(others));
      var pub := PublishSnapshot(parent, receipts);
      GrowsTransitive(old(objects), uploaded, objects);
      ghost var published := objects;
      GrowsTransitive(old(objects), uploaded, published);
      MachinesGrow(old(objects), published);
      outcome := SetLatest(pub);
      GrowsTransitive(old(objects), published, objects);
    }

    lemma PublishedMeans(outcome: Outcome)
      requires Valid() && phase == Ended(outcome)
      ensures outcome.Published? ==> req.snapshot.machineId in Machines(objects)
    {
    }
  }

  /** Each of these contents is in the parent or can be read locally. */
  predicate Sourced(parent: Option<Snapshot>, source: string -> bool, shas: set<string>) {
    forall sha :: sha in shas ==> Lists(parent, sha) || source(sha)
  }

  /** What a push that captured this parent tries to make latest. */
  ghost function Sought(req: Request, reused: bool, parent: Option<Snapshot>): Publication {
    Publication(if reused && parent.Some? then parent.value else Id(req), parent)
  }

  lemma ValidIsCanonical(m: Snapshot)
    ensures Manifests.Valid(m) <==> ValidSorted(Canonical(m))
  {
  }

  /** A complete namespace whose latest snapshot already has this state. */
  ghost predicate Unchanged(s: Store, req: Request) {
    && PointerAt(s, Ns(req)).Some? && StateOf(PointerAt(s, Ns(req)).value) == StateOf(req.snapshot)
    && req.snapshot.machineId in Machines(s)
  }

  function Tally(receipts: seq<Receipt>, kind: ReceiptKind): nat {
    if |receipts| == 0 then 0
    else Tally(receipts[..|receipts| - 1], kind) + if receipts[|receipts| - 1].kind == kind then 1 else 0
  }

  ghost function OfKind(receipts: seq<Receipt>, kind: ReceiptKind): set<string> {
    set r | r in receipts && r.kind == kind :: r.sha
  }

  /** Which receipts a push holds: carried for what the parent lists; alone, uploaded for what was missing. */
  ghost predicate Kinds(receipts: seq<Receipt>, parent: Option<Snapshot>, before: Store, quiet: bool) {
    forall r :: r in receipts ==> KindFits(r, parent, before, quiet)
  }

  ghost predicate KindFits(r: Receipt, parent: Option<Snapshot>, before: Store, quiet: bool) {
    && (r.kind == Carried <==> Lists(parent, r.sha))
    && (quiet && r.kind != Carried ==> (r.kind == Uploaded <==> BlobKey(r.sha) !in before))
  }

  lemma KindsMore(receipts: seq<Receipt>, parent: Option<Snapshot>, before: Store, quiet: bool, r: Receipt)
    requires Kinds(receipts, parent, before, quiet) && KindFits(r, parent, before, quiet)
    ensures Kinds(receipts + [r], parent, before, quiet)
  {
    hide KindFits;
  }

  lemma StartUpload(parent: Option<Snapshot>, s: Store, quiet: bool)
    ensures Covers([], {}) && Kinds([], parent, s, quiet) && SameElsewhere(s, s, {})
  {
  }

  lemma KindSince(r: Receipt, parent: Option<Snapshot>, s: Store, t: Store, touched: set<string>, quiet: bool)
    requires r.sha !in touched && (quiet ==> SameElsewhere(s, t, touched)) && KindFits(r, parent, t, quiet)
    ensures KindFits(r, parent, s, quiet)
  {
  }

  lemma SameElsewhereMore(s: Store, t: Store, u: Store, touched: set<string>, sha: string)
    requires SameElsewhere(s, t, touched) && SameElsewhere(t, u, {sha})
    ensures SameElsewhere(s, u, touched + {sha})
  {
  }

  /** The blobs present are the same, except perhaps these. */
  ghost predicate SameElsewhere(s: Store, t: Store, touched: set<string>) {
    forall sha :: sha !in touched ==> (BlobKey(sha) in t <==> BlobKey(sha) in s)
  }

  /** What a report counts, of a push that ran alone from a store. */
  ghost predicate Counted(report: Report, parent: Option<Snapshot>, before: Store, shas: set<string>) {
    && report.carried == |set sha | sha in shas && Lists(parent, sha)|
    && report.uploaded == |set sha | sha in shas && !Lists(parent, sha) && BlobKey(sha) !in before|
  }

  lemma CountsMean(receipts: seq<Receipt>, parent: Option<Snapshot>, before: Store, shas: set<string>, quiet: bool)
    requires Covers(receipts, shas) && Kinds(receipts, parent, before, quiet)
    ensures quiet ==> Tally(receipts, Carried) == |set sha | sha in shas && Lists(parent, sha)|
    ensures quiet ==>
              Tally(receipts, Uploaded) == |set sha | sha in shas && !Lists(parent, sha) && BlobKey(sha) !in before|
    ensures |receipts| == |shas|
  {
    if quiet {
      TallyCounts(receipts, shas, Carried);
      TallyCounts(receipts, shas, Uploaded);
      hide Lists, Tally;
      CoveredShas(receipts, shas);
      KindSet(receipts, shas, Carried, set sha | sha in shas && Lists(parent, sha));
      KindSet(receipts, shas, Uploaded, set sha | sha in shas && !Lists(parent, sha) && BlobKey(sha) !in before);
    }
  }

  lemma CoveredShas(receipts: seq<Receipt>, shas: set<string>)
    requires Covers(receipts, shas)
    ensures forall r :: r in receipts ==> r.sha in shas
  {
  }

  /** With one receipt per content, counting receipts of a kind counts contents. */
  lemma {:induction false} TallyCounts(receipts: seq<Receipt>, shas: set<string>, kind: ReceiptKind)
    requires Covers(receipts, shas)
    ensures Tally(receipts, kind) == |OfKind(receipts, kind)|
  {
    if |receipts| > 0 {
      var n := |receipts| - 1;
      var front, last := receipts[..n], receipts[n];
      CoversFront(receipts, shas);
      TallyCounts(front, shas - {last.sha}, kind);
      OfKindSnoc(front, last, kind);
      CoveredShas(front, shas - {last.sha});
      assert receipts == front + [last];
    }
  }

  lemma OfKindSnoc(front: seq<Receipt>, last: Receipt, kind: ReceiptKind)
    ensures OfKind(front + [last], kind)
            == if last.kind == kind then OfKind(front, kind) + {last.sha} else OfKind(front, kind)
  {
  }

  lemma CoversFront(receipts: seq<Receipt>, shas: set<string>)
    requires Covers(receipts, shas) && |receipts| > 0
    ensures Covers(receipts[..|receipts| - 1], shas - {receipts[|receipts| - 1].sha})
  {
    var n := |receipts| - 1;
    var front := receipts[..n];
    var before := set k | 0 <= k < n :: front[k].sha;
    assert shas == before + {receipts[n].sha} by {
      forall x | x in shas ensures x in before + {receipts[n].sha} {
        var k :| 0 <= k < |receipts| && receipts[k].sha == x;
        if k < n { assert front[k].sha == x; }
      }
    }
    PrefixSize(front);
    assert receipts[n].sha !in before;
    assert shas - {receipts[n].sha} == before;
  }

  lemma {:induction false} PrefixSize(receipts: seq<Receipt>)
    ensures |set k | 0 <= k < |receipts| :: receipts[k].sha| <= |receipts|
  {
    if |receipts| > 0 {
      var n := |receipts| - 1;
      PrefixSize(receipts[..n]);
      var before := set k | 0 <= k < n :: receipts[..n][k].sha;
      assert (set k | 0 <= k < |receipts| :: receipts[k].sha) == before + {receipts[n].sha};
    }
  }

  lemma KindSet(receipts: seq<Receipt>, shas: set<string>, kind: ReceiptKind, expected: set<string>)
    requires Covers(receipts, shas) && expected <= shas
    requires forall r :: r in receipts ==> (r.kind == kind <==> r.sha in expected)
    ensures expected == OfKind(receipts, kind)
  {
    forall sha | sha in expected ensures sha in OfKind(receipts, kind) {
      var k :| 0 <= k < |receipts| && receipts[k].sha == sha;
      assert receipts[k] in receipts;
    }
  }

  method Count(receipts: seq<Receipt>, start: Report) returns (report: Report)
    requires start.uploaded == start.existing == start.carried == 0
    ensures report == start.(uploaded := Tally(receipts, Uploaded), existing := Tally(receipts, Existing),
                             carried := Tally(receipts, Carried))
    ensures report.uploaded + report.existing + report.carried == |receipts|
  {
    report := start;
    for i := 0 to |receipts|
      invariant report == start.(uploaded := Tally(receipts[..i], Uploaded), existing := Tally(receipts[..i], Existing),
                                 carried := Tally(receipts[..i], Carried))
      invariant report.uploaded + report.existing + report.carried == i
    {
      assert receipts[..i + 1][..i] == receipts[..i];
      match receipts[i].kind
      case Uploaded => report := report.(uploaded := report.uploaded + 1);
      case Existing => report := report.(existing := report.existing + 1);
      case Carried => report := report.(carried := report.carried + 1);
    }
    assert receipts[..|receipts|] == receipts;
  }

  datatype PointerMove = There | Overtaken | Lost

  lemma MachinesGrow(s: Store, t: Store)
    requires Grows(s, t)
    ensures |Machines(s)| <= |Machines(t)|
  {
    SubsetSize(Machines(s), Machines(t));
  }

  lemma SubsetSize<T>(a: set<T>, b: set<T>)
    requires a <= b
    ensures |a| <= |b| && (a != b ==> |a| < |b|)
  {
    assert b == a + (b - a);
    if a != b { var x :| x in b - a; assert |b - a| > 0; }
  }

  /** A registry whose content changed names strictly more machines: sets have one listing each. */
  lemma LostRaceIsGrowth(s: Store, t: Store)
    requires Consistent(s) && Consistent(t) && Grows(s, t)
    requires Lookup(s, IndexKey) != Lookup(t, IndexKey)
    ensures |Machines(s)| < |Machines(t)|
  {
    hide Manifests.Valid, Component, Canonical, Closed, Pointed, Discoverable, Ascending;
    assert IndexKey in s ==> Fits(IndexKey, s[IndexKey]);
    assert IndexKey in t ==> Fits(IndexKey, t[IndexKey]);
    NoElements(Registered(Lookup(t, IndexKey)));
    if IndexKey in s && Machines(s) == Machines(t) { AscendingUnique(s[IndexKey].machines, t[IndexKey].machines); }
    NoElements(Registered(Lookup(s, IndexKey)));
    SubsetSize(Machines(s), Machines(t));
  }

  /** The receipts name exactly these contents, each once. */
  ghost predicate Covers(receipts: seq<Receipt>, shas: set<string>) {
    && shas == (set k | 0 <= k < |receipts| :: receipts[k].sha)
    && |receipts| == |shas|
  }

  lemma CoversMore(receipts: seq<Receipt>, shas: set<string>, r: Receipt)
    requires Covers(receipts, shas) && r.sha !in shas
    ensures Covers(receipts + [r], shas + {r.sha})
  {
    var more := receipts + [r];
    assert (set k | 0 <= k < |more| :: more[k].sha) == shas + {r.sha} by {
      forall x | x in shas + {r.sha} ensures x in set k | 0 <= k < |more| :: more[k].sha {
        if x == r.sha { assert more[|receipts|].sha == x; }
        else {
          var k :| 0 <= k < |receipts| && receipts[k].sha == x;
          assert more[k].sha == x;
        }
      }
    }
  }
}
