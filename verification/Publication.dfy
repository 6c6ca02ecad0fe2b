/** The publication protocol: any number of pushes interleaved over one store, one store call at a time.
    A push that is never scheduled again has crashed. */
module Publication {
  import opened Order
  import opened Namespaces
  import opened Manifests
  import opened Options
  import opened ObjectStore

  const RETRY_ATTEMPTS: nat := 12

  datatype Request = Request(snapshot: Snapshot, mustHaveParent: bool)

  /** A stored manifest, and the pointer value its publisher captured as parent (None: no pointer). */
  datatype Publication = Publication(id: Snapshot, expected: Option<Snapshot>)

  datatype Outcome = Published(id: Snapshot) | InvalidManifest | Unreadable | Damaged | MissingReceipt
                   | SourceFailed | Stale | ContendedPointer | ContendedIndex

  /** Where a push stands between two store calls. */
  datatype Phase =
    | Starting
    | FetchParent(named: Snapshot)
    | Uploading(parent: Option<Snapshot>, next: nat, receipts: set<string>)
    | Publishing(parent: Option<Snapshot>, receipts: set<string>)
    | PointerRead(pub: Publication, attempt: nat)
    | PointerSwap(pub: Publication, attempt: nat, seen: Option<Object>)
    | IndexRead(pub: Publication, attempt: nat)
    | IndexSwap(pub: Publication, attempt: nat, seen: Option<Object>)
    | Ended(outcome: Outcome)

  function Ns(req: Request): Namespace { Component(req.snapshot.machineId) }

  function Id(req: Request): Snapshot { Canonical(req.snapshot) }

  function Lists(parent: Option<Snapshot>, sha: string): bool { parent.Some? && sha in Blobs(parent.value) }

  function Registered(o: Option<Object>): seq<string> {
    if o.Some? && o.value.Registry? then o.value.machines else []
  }

  /** The store call a phase makes next. */
  ghost function NextCall(req: Request, ph: Phase): Call {
    match ph
    case Starting => if Valid(req.snapshot) then Read(LatestKey(Ns(req))) else Nothing
    case FetchParent(named) => Read(ManifestKey(Ns(req), named))
    case Uploading(parent, next, receipts) =>
      if next < |req.snapshot.files| && req.snapshot.files[next].sha !in receipts
         && !Lists(parent, req.snapshot.files[next].sha)
      then PutNew(BlobKey(req.snapshot.files[next].sha), Content(req.snapshot.files[next].sha))
      else Nothing
    case Publishing(_, receipts) =>
      if Blobs(req.snapshot) <= receipts then PutNew(ManifestKey(Ns(req), Id(req)), Document(Id(req))) else Nothing
    case PointerRead(_, _) => Read(LatestKey(Ns(req)))
    case PointerSwap(pub, _, seen) => Swap(LatestKey(Ns(req)), Pointer(pub.id), seen)
    case IndexRead(_, _) => Read(IndexKey)
    case IndexSwap(_, _, seen) =>
      Swap(IndexKey, Registry(Listing(Registered(seen) + [req.snapshot.machineId])), seen)
    case Ended(_) => Nothing
  }

  /** What a push does once its parent is known. */
  ghost function WithParent(req: Request, parent: Option<Snapshot>): Phase {
    if req.mustHaveParent && parent.None? then Ended(Damaged)
    else if parent.Some? && StateOf(parent.value) == StateOf(req.snapshot) then
      PointerRead(Publication(parent.value, parent), 0)
    else Uploading(parent, 0, {})
  }

  /** How a phase continues on the reply to its call. */
  ghost function Resume(req: Request, ph: Phase, reply: Reply): Phase {
    match (ph, reply)
    case (Starting, Silent) => Ended(InvalidManifest)
    case (Starting, Got(None)) => WithParent(req, None)
    case (Starting, Got(Some(o))) => if o.Pointer? then FetchParent(o.id) else Ended(Unreadable)
    case (FetchParent(named), Got(Some(o))) =>
      if o == Document(named) && Component(named.machineId) == Ns(req) then WithParent(req, Some(named))
      else Ended(Unreadable)
    case (FetchParent(_), _) => Ended(Unreadable)
    case (Uploading(parent, next, receipts), _) =>
      if next < |req.snapshot.files| then Uploading(parent, next + 1, receipts + {req.snapshot.files[next].sha})
      else Publishing(parent, receipts)
    case (Publishing(parent, _), Created(_)) => PointerRead(Publication(Id(req), parent), 0)
    case (Publishing(_, _), _) => Ended(MissingReceipt)
    case (PointerRead(pub, n), Got(None)) => if pub.expected.None? then PointerSwap(pub, n, None) else Ended(Stale)
    case (PointerRead(pub, n), Got(Some(o))) =>
      if !o.Pointer? then PointerSwap(pub, n, Some(o))
      else if o.id == pub.id then IndexRead(pub, 0)
      else if pub.expected == Some(o.id) then PointerSwap(pub, n, Some(o))
      else Ended(Stale)
    case (PointerSwap(pub, _, _), Swapped(true)) => IndexRead(pub, 0)
    case (PointerSwap(pub, n, _), Swapped(false)) =>
      if n + 1 < RETRY_ATTEMPTS then PointerRead(pub, n + 1) else Ended(ContendedPointer)
    case (IndexRead(pub, n), Got(o)) =>
      if o.Some? && !o.value.Registry? then Ended(Unreadable)
      else if req.snapshot.machineId in Registered(o) then Ended(Published(pub.id))
      else IndexSwap(pub, n, o)
    case (IndexSwap(pub, _, _), Swapped(true)) => Ended(Published(pub.id))
    case (IndexSwap(pub, n, _), Swapped(false)) =>
      if n + 1 < RETRY_ATTEMPTS then IndexRead(pub, n + 1) else Ended(ContendedIndex)
    case (Ended(_), _) => ph
    case _ => Ended(Unreadable)
  }

  /** A registered machine's push that finds no pointer is refused; any other begins afresh. */
  lemma LostPointerIsRefused(req: Request)
    ensures Resume(req, Starting, Got(None))
            == if req.mustHaveParent then Ended(Damaged) else Uploading(None, 0, {})
  {
    hide StateOf;
  }

  // ---- what holds of the store -------------------------------------------

  ghost predicate Fits(k: Key, o: Object) {
    match k
    case BlobKey(sha) => o == Content(sha)
    case ManifestKey(ns, id) => o == Document(id) && Component(id.machineId) == ns && Valid(id) && Canonical(id) == id
    case LatestKey(_) => o.Pointer?
    case IndexKey => o.Registry? && o.machines != [] && Ascending(o.machines) && AllNamed(o.machines)
  }

  /** What the decoder of the registry demands of each id. */
  predicate AllNamed(machines: seq<string>) { forall m :: m in machines ==> !Blank(m) }

  ghost predicate Typed(s: Store) { forall k :: k in s ==> Fits(k, s[k]) }

  /** Every blob any stored manifest lists is stored. */
  ghost predicate Closed(s: Store) {
    forall ns, id, sha :: ManifestKey(ns, id) in s && sha in Blobs(id) ==> BlobKey(sha) in s
  }

  ghost function PointerAt(s: Store, ns: Namespace): Option<Snapshot> {
    if LatestKey(ns) in s && s[LatestKey(ns)].Pointer? then Some(s[LatestKey(ns)].id) else None
  }

  /** Every pointer names a manifest of its own namespace. */
  ghost predicate Pointed(s: Store) {
    forall ns :: LatestKey(ns) in s ==> PointerAt(s, ns).Some? && ManifestKey(ns, PointerAt(s, ns).value) in s
  }

  ghost function Machines(s: Store): set<string> { Elements(Registered(Lookup(s, IndexKey))) }

  /** The registry names only machines whose pointer exists. */
  ghost predicate Discoverable(s: Store) {
    forall m :: m in Machines(s) ==> LatestKey(Component(m)) in s
  }

  ghost predicate Consistent(s: Store) {
    Typed(s) && Closed(s) && Pointed(s) && Discoverable(s)
  }

  /** What every step of the protocol does to the store: objects stay, blobs and manifests keep
      their content, the registry only gains machines. */
  ghost predicate Grows(s: Store, t: Store) {
    && (forall k :: k in s ==> k in t)
    && (forall k :: k in s && (k.BlobKey? || k.ManifestKey?) ==> t[k] == s[k])
    && Machines(s) <= Machines(t)
  }

  lemma GrowsTransitive(s: Store, t: Store, u: Store)
    requires Grows(s, t) && Grows(t, u)
    ensures Grows(s, u)
  {
  }

  // ---- what holds of a push between calls ----------------------------------

  ghost predicate ParentHeld(s: Store, ns: Namespace, parent: Option<Snapshot>) {
    parent.Some? ==> ManifestKey(ns, parent.value) in s && LatestKey(ns) in s
  }

  ghost predicate PubHeld(s: Store, ns: Namespace, pub: Publication) {
    ManifestKey(ns, pub.id) in s && (pub.expected.Some? ==> LatestKey(ns) in s)
  }

  ghost predicate ReceiptsHeld(s: Store, receipts: set<string>) {
    forall sha :: sha in receipts ==> BlobKey(sha) in s
  }

  predicate Named(req: Request) { !Blank(req.snapshot.machineId) }

  lemma ValidIsNamed(req: Request)
    requires Valid(req.snapshot)
    ensures Named(req)
  {
    hide SchemaValid, AdaptersValid, FilesValid, Blank;
  }

  ghost predicate PhaseHolds(s: Store, req: Request, ph: Phase) {
    match ph
    case Starting => true
    case FetchParent(named) => Valid(req.snapshot) && ManifestKey(Ns(req), named) in s && LatestKey(Ns(req)) in s
    case Uploading(parent, next, receipts) =>
      && Valid(req.snapshot) && ParentHeld(s, Ns(req), parent) && ReceiptsHeld(s, receipts)
      && next <= |req.snapshot.files| && receipts == Shas(req.snapshot.files[..next])
    case Publishing(parent, receipts) =>
      && Valid(req.snapshot) && ParentHeld(s, Ns(req), parent) && ReceiptsHeld(s, receipts)
      && receipts == Blobs(req.snapshot)
    case PointerRead(pub, n) => Named(req) && PubHeld(s, Ns(req), pub) && n < RETRY_ATTEMPTS
    case PointerSwap(pub, n, seen) =>
      && Named(req) && PubHeld(s, Ns(req), pub) && n < RETRY_ATTEMPTS
      && seen == if pub.expected.Some? then Some(Pointer(pub.expected.value)) else None
    case IndexRead(pub, n) => Named(req) && PubHeld(s, Ns(req), pub) && LatestKey(Ns(req)) in s && n < RETRY_ATTEMPTS
    case IndexSwap(pub, n, seen) =>
      && Named(req) && PubHeld(s, Ns(req), pub) && LatestKey(Ns(req)) in s && n < RETRY_ATTEMPTS
      && (seen.Some? ==> seen.value.Registry? && Ascending(seen.value.machines) && AllNamed(seen.value.machines))
      && Elements(Registered(seen)) <= Machines(s)
      && req.snapshot.machineId !in Registered(seen)
    case Ended(outcome) =>
      && !outcome.Unreadable? && !outcome.Damaged? && !outcome.MissingReceipt?
      && (outcome.Published? ==> ManifestKey(Ns(req), outcome.id) in s && LatestKey(Ns(req)) in s
                                 && req.snapshot.machineId in Machines(s))
  }

  /** The capability a push runs under: a parent is demanded only of a machine already registered. */
  ghost predicate Granted(s: Store, req: Request) {
    req.mustHaveParent ==> req.snapshot.machineId in Machines(s)
  }

  /** Nothing another push does invalidates what a push has established. */
  lemma PhaseStable(s: Store, t: Store, req: Request, ph: Phase)
    requires Grows(s, t) && PhaseHolds(s, req, ph)
    ensures PhaseHolds(t, req, ph)
  {
  }

  lemma WithParentHolds(s: Store, req: Request, parent: Option<Snapshot>)
    requires Consistent(s) && Granted(s, req) && Valid(req.snapshot) && ParentHeld(s, Ns(req), parent)
    requires parent.None? ==> LatestKey(Ns(req)) !in s
    ensures PhaseHolds(s, req, WithParent(req, parent))
  {
    ValidIsNamed(req);
    assert req.snapshot.files[..0] == [];
  }

  // ---- each write, seen from the store ---------------------------------------

  lemma AddBlobKeeps(s: Store, sha: string)
    requires Consistent(s) && BlobKey(sha) !in s
    ensures Consistent(s[BlobKey(sha) := Content(sha)]) && Grows(s, s[BlobKey(sha) := Content(sha)])
  {
    hide Valid, Canonical, Component, Blobs;
    var t := s[BlobKey(sha) := Content(sha)];
    assert Lookup(t, IndexKey) == Lookup(s, IndexKey);
  }

  lemma AddManifestKeeps(s: Store, ns: Namespace, id: Snapshot)
    requires Consistent(s) && ManifestKey(ns, id) !in s
    requires Fits(ManifestKey(ns, id), Document(id)) && ReceiptsHeld(s, Blobs(id))
    ensures Consistent(s[ManifestKey(ns, id) := Document(id)]) && Grows(s, s[ManifestKey(ns, id) := Document(id)])
  {
    hide Valid, Canonical, Component, Blobs;
    var t := s[ManifestKey(ns, id) := Document(id)];
    assert Lookup(t, IndexKey) == Lookup(s, IndexKey);
  }

  lemma MovePointerKeeps(s: Store, ns: Namespace, id: Snapshot)
    requires Consistent(s) && ManifestKey(ns, id) in s
    ensures Consistent(s[LatestKey(ns) := Pointer(id)]) && Grows(s, s[LatestKey(ns) := Pointer(id)])
  {
    hide Valid, Canonical, Component, Blobs;
    var t := s[LatestKey(ns) := Pointer(id)];
    assert Lookup(t, IndexKey) == Lookup(s, IndexKey);
  }

  lemma RegisterKeeps(s: Store, ms: seq<string>, m: string)
    requires Consistent(s) && Elements(ms) == Machines(s) && LatestKey(Component(m)) in s && AllNamed(ms) && !Blank(m)
    ensures var t := s[IndexKey := Registry(Listing(ms + [m]))];
            Consistent(t) && Grows(s, t) && Machines(t) == Machines(s) + {m}
  {
    hide Valid, Canonical, Component, Blobs, Listing, Ascending, AllNamed, Blank, Pointed, Closed;
    var o := Registry(Listing(ms + [m]));
    var t := s[IndexKey := o];
    ElementsSnoc(ms, m);
    ListingNamed(ms, m);
    assert m in Elements(Listing(ms + [m]));
    NoElements(Listing(ms + [m]));
    assert Machines(t) == Elements(Listing(ms + [m]));
    RegistryTouchesNothingElse(s, t);
  }

  lemma RegistryTouchesNothingElse(s: Store, t: Store)
    requires IndexKey in t && t == s[IndexKey := t[IndexKey]]
    ensures Closed(s) ==> Closed(t)
    ensures Pointed(s) ==> Pointed(t)
  {
    hide Blobs;
  }

  lemma ListingNamed(ms: seq<string>, m: string)
    requires AllNamed(ms) && !Blank(m)
    ensures AllNamed(Listing(ms + [m]))
  {
    hide Blank;
    forall x | x in Listing(ms + [m]) ensures !Blank(x) { assert x in Elements(ms + [m]); }
  }

  lemma ElementsSnoc<T>(s: seq<T>, x: T)
    ensures Elements(s + [x]) == Elements(s) + {x}
  {
  }

  // ---- each phase's next call -------------------------------------------------

  ghost predicate StepHolds(s: Store, req: Request, ph: Phase) {
    var e := Perform(s, NextCall(req, ph));
    Consistent(e.store) && Grows(s, e.store) && PhaseHolds(e.store, req, Resume(req, ph, e.reply))
  }

  lemma UploadKeeps(s: Store, req: Request, parent: Option<Snapshot>, next: nat, receipts: set<string>)
    requires Consistent(s) && PhaseHolds(s, req, Uploading(parent, next, receipts))
    ensures StepHolds(s, req, Uploading(parent, next, receipts))
  {
    hide Valid, Canonical, Component, StateOf, Consistent, Grows, Shas;
    var files := req.snapshot.files;
    assert files[..|files|] == files;
    GrowsReflexive(s);
    if next < |files| {
      var sha := files[next].sha;
      ShasNext(files, next);
      BlobKept(s, sha);
      if parent.Some? && sha in Blobs(parent.value) { ListedIsStored(s, Ns(req), parent.value, sha); }
    }
  }

  lemma ShasNext(files: seq<File>, i: nat)
    requires i < |files|
    ensures Shas(files[..i + 1]) == Shas(files[..i]) + {files[i].sha}
  {
    assert files[..i + 1] == files[..i] + [files[i]];
  }

  /** Putting a blob if absent leaves a consistent, grown store that has it. */
  lemma BlobKept(s: Store, sha: string)
    requires Consistent(s)
    ensures var t := Perform(s, PutNew(BlobKey(sha), Content(sha))).store;
            Consistent(t) && Grows(s, t) && BlobKey(sha) in t && forall k :: k in s ==> k in t
  {
    hide Consistent, Typed, Closed, Pointed, Discoverable;
    GrowsReflexive(s);
    if BlobKey(sha) !in s { AddBlobKeeps(s, sha); }
  }

  lemma ListedIsStored(s: Store, ns: Namespace, id: Snapshot, sha: string)
    requires Consistent(s) && ManifestKey(ns, id) in s && sha in Blobs(id)
    ensures BlobKey(sha) in s
  {
    hide Typed, Pointed, Discoverable, Blobs;
  }

  lemma SortedShas(files: seq<File>)
    ensures Shas(SortBy(files, ByPath)) == Shas(files)
  {
    SortByMembers(files, ByPath);
    hide SortBy, ByPath;
  }

  lemma IdFits(req: Request)
    requires Valid(req.snapshot)
    ensures Fits(ManifestKey(Ns(req), Id(req)), Document(Id(req))) && Blobs(Id(req)) == Blobs(req.snapshot)
  {
    hide Valid, Component, SortBy, Shas;
    CanonicalIdempotent(req.snapshot);
    SortedShas(req.snapshot.files);
  }

  lemma PublishKeeps(s: Store, req: Request, parent: Option<Snapshot>, receipts: set<string>)
    requires Consistent(s) && PhaseHolds(s, req, Publishing(parent, receipts))
    ensures StepHolds(s, req, Publishing(parent, receipts))
  {
    hide Valid, Canonical, Component, Blobs, StateOf, Named;
    IdFits(req);
    ValidIsNamed(req);
    if ManifestKey(Ns(req), Id(req)) !in s { AddManifestKeeps(s, Ns(req), Id(req)); }
  }

  lemma PointerKeeps(s: Store, req: Request, ph: Phase)
    requires Consistent(s) && (ph.PointerRead? || ph.PointerSwap?) && PhaseHolds(s, req, ph)
    ensures StepHolds(s, req, ph)
  {
    hide Valid, Canonical, Component, Blobs, StateOf, Typed, Closed, Pointed, Discoverable, Machines;
    PointerTyped(s, Ns(req));
    MovePointerKeeps(s, Ns(req), ph.pub.id);
    GrowsReflexive(s);
  }

  lemma IndexSwapKeeps(s: Store, req: Request, pub: Publication, n: nat, seen: Option<Object>)
    requires Consistent(s) && PhaseHolds(s, req, IndexSwap(pub, n, seen))
    ensures StepHolds(s, req, IndexSwap(pub, n, seen))
  {
    hide Valid, Canonical, Component, Blobs, StateOf, Listing, Elements;
    hide Ascending, Typed, Closed, Pointed, Discoverable;
    GrowsReflexive(s);
    if Lookup(s, IndexKey) == seen { RegisterKeeps(s, Registered(seen), req.snapshot.machineId); }
  }

  /** One store call of one push keeps the store consistent, only grows it, and keeps what the push knows. */
  lemma StepKeeps(s: Store, req: Request, ph: Phase)
    requires Consistent(s) && Granted(s, req) && PhaseHolds(s, req, ph)
    ensures StepHolds(s, req, ph)
  {
    hide Valid, Canonical, Component, Blobs, StateOf;
    match ph
    case Starting =>
      if Valid(req.snapshot) && LatestKey(Ns(req)) !in s { WithParentHolds(s, req, None); }
    case FetchParent(named) => WithParentHolds(s, req, Some(named));
    case Uploading(parent, next, receipts) => UploadKeeps(s, req, parent, next, receipts);
    case Publishing(parent, receipts) => PublishKeeps(s, req, parent, receipts);
    case PointerRead(_, _) => PointerKeeps(s, req, ph);
    case PointerSwap(_, _, _) => PointerKeeps(s, req, ph);
    case IndexRead(_, _) =>
    case IndexSwap(pub, n, seen) => IndexSwapKeeps(s, req, pub, n, seen);
    case Ended(_) =>
  }

  // ---- runs -----------------------------------------------------------------

  datatype Client = Client(req: Request, phase: Phase)
  datatype System = System(store: Store, clients: seq<Client>)

  /** Start another push, let one push make its next call, or fail the file source of one. */
  datatype Move = Launch(req: Request) | Act(who: nat) | FailSource(who: nat)

  ghost function Apply(sys: System, move: Move): System {
    match move
    case Launch(req) =>
      if Granted(sys.store, req) then sys.(clients := sys.clients + [Client(req, Starting)]) else sys
    case Act(i) =>
      if i >= |sys.clients| then sys
      else
        var c := sys.clients[i];
        var e := Perform(sys.store, NextCall(c.req, c.phase));
        System(e.store, sys.clients[i := c.(phase := Resume(c.req, c.phase, e.reply))])
    case FailSource(i) =>
      if i >= |sys.clients| || !sys.clients[i].phase.Uploading? then sys
      else sys.(clients := sys.clients[i := sys.clients[i].(phase := Ended(SourceFailed))])
  }

  ghost function Run(sys: System, moves: seq<Move>): System {
    if |moves| == 0 then sys else Apply(Run(sys, moves[..|moves| - 1]), moves[|moves| - 1])
  }

  ghost predicate Sound(sys: System) {
    && Consistent(sys.store)
    && forall i :: 0 <= i < |sys.clients| ==>
         Granted(sys.store, sys.clients[i].req) && PhaseHolds(sys.store, sys.clients[i].req, sys.clients[i].phase)
  }

  lemma ActKeeps(sys: System, i: nat)
    requires Sound(sys) && i < |sys.clients|
    ensures Sound(Apply(sys, Act(i))) && Grows(sys.store, Apply(sys, Act(i)).store)
  {
    hide Consistent, Grows, PhaseHolds, NextCall, Resume, Perform, Ns, Granted;
    var c := sys.clients[i];
    StepKeeps(sys.store, c.req, c.phase);
    var t := Apply(sys, Act(i));
    forall j | 0 <= j < |t.clients|
      ensures Granted(t.store, t.clients[j].req) && PhaseHolds(t.store, t.clients[j].req, t.clients[j].phase)
    {
      GrantStable(sys.store, t.store, sys.clients[j].req);
      if j != i { PhaseStable(sys.store, t.store, sys.clients[j].req, sys.clients[j].phase); }
    }
  }

  lemma GrantStable(s: Store, t: Store, req: Request)
    requires Grows(s, t) && Granted(s, req)
    ensures Granted(t, req)
  {
  }

  lemma GrowsReflexive(s: Store)
    ensures Grows(s, s)
  {
  }

  lemma ApplyKeeps(sys: System, move: Move)
    requires Sound(sys)
    ensures Sound(Apply(sys, move)) && Grows(sys.store, Apply(sys, move).store)
  {
    hide Consistent, Grows, NextCall, Resume, Perform, Ns, Granted;
    GrowsReflexive(sys.store);
    if move.Act? && move.who < |sys.clients| { ActKeeps(sys, move.who); }
  }

  /** In every state of every run, from any consistent Archive, with pushes stopping anywhere:
      pointers name manifests of their own namespace, manifests list only stored blobs, and the registry
      names only machines that can be read. No push ever finds its parent unreadable, is refused as
      damaged, or reaches publication without every receipt. */
  lemma {:induction false} RunSound(sys: System, moves: seq<Move>)
    requires Sound(sys)
    ensures Sound(Run(sys, moves))
  {
    if |moves| > 0 {
      RunSound(sys, moves[..|moves| - 1]);
      ApplyKeeps(Run(sys, moves[..|moves| - 1]), moves[|moves| - 1]);
    }
  }

  lemma FreshArchiveSafe(moves: seq<Move>)
    ensures Sound(Run(System(map[], []), moves))
  {
    RunSound(System(map[], []), moves);
  }

  lemma RunSplit(sys: System, moves: seq<Move>, i: nat, j: nat)
    requires i < j <= |moves|
    ensures Run(sys, moves[..j]) == Apply(Run(sys, moves[..j - 1]), moves[j - 1])
  {
    assert moves[..j][..j - 1] == moves[..j - 1];
  }

  /** Between any two moments of a run nothing is lost: not a blob, not a manifest, not a registration. */
  lemma {:induction false} RunGrows(sys: System, moves: seq<Move>, i: nat, j: nat)
    requires Sound(sys) && i <= j <= |moves|
    ensures Grows(Run(sys, moves[..i]).store, Run(sys, moves[..j]).store)
  {
    if i < j {
      RunGrows(sys, moves, i, j - 1);
      RunSound(sys, moves[..j - 1]);
      RunSplit(sys, moves, i, j);
      ApplyKeeps(Run(sys, moves[..j - 1]), moves[j - 1]);
    }
  }

  /** A push that reported success stays registered and stays readable for the rest of the run. */
  lemma RegistrationsAreKept(sys: System, moves: seq<Move>, i: nat, j: nat, who: nat)
    requires Sound(sys) && i <= j <= |moves|
    requires who < |Run(sys, moves[..i]).clients|
    requires Run(sys, moves[..i]).clients[who].phase.Ended?
             && Run(sys, moves[..i]).clients[who].phase.outcome.Published?
    ensures var c := Run(sys, moves[..i]).clients[who];
            var s := Run(sys, moves[..j]).store;
            && c.req.snapshot.machineId in Machines(s)
            && ManifestKey(Ns(c.req), c.phase.outcome.id) in s
            && PointerAt(s, Ns(c.req)).Some?
  {
    hide Apply, Consistent, Grows, PhaseHolds, Component;
    RunSound(sys, moves[..i]);
    RunSound(sys, moves[..j]);
    RunGrows(sys, moves, i, j);
    var c := Run(sys, moves[..i]).clients[who];
    PublishedStays(Run(sys, moves[..i]).store, Run(sys, moves[..j]).store, c.req, c.phase.outcome.id);
  }

  lemma PublishedStays(s: Store, t: Store, req: Request, id: Snapshot)
    requires PhaseHolds(s, req, Ended(Published(id))) && Grows(s, t) && Consistent(t)
    ensures req.snapshot.machineId in Machines(t) && ManifestKey(Ns(req), id) in t && PointerAt(t, Ns(req)).Some?
  {
    hide Component, Valid, Canonical, Closed, Discoverable;
  }

  // ---- pointer writes -------------------------------------------------------

  /** A push for this namespace is at its swap, having captured `from` as parent and published `to`. */
  ghost predicate Swaps(sys: System, move: Move, ns: Namespace, from: Option<Snapshot>, to: Option<Snapshot>) {
    && move.Act? && move.who < |sys.clients|
    && var c := sys.clients[move.who];
       c.phase.PointerSwap? && Ns(c.req) == ns && c.phase.pub.expected == from && to == Some(c.phase.pub.id)
  }

  /** A pointer changes only when a push swaps it, and then exactly from the parent that push captured
      to the snapshot it published. */
  lemma PointerMovesFromParent(sys: System, move: Move, ns: Namespace)
    requires Sound(sys) && PointerAt(Apply(sys, move).store, ns) != PointerAt(sys.store, ns)
    ensures Swaps(sys, move, ns, PointerAt(sys.store, ns), PointerAt(Apply(sys, move).store, ns))
  {
    hide Valid, Canonical, Component, Blobs, StateOf, Listing, Typed, Closed, Pointed, Discoverable, Machines,
      ParentHeld, PubHeld, ReceiptsHeld, Named, Shas;
    if move.Act? && move.who < |sys.clients| {
      var c := sys.clients[move.who];
      assert PhaseHolds(sys.store, c.req, c.phase);
    }
  }

  /** The pointer is neither at the captured parent nor at the published snapshot. */
  ghost predicate Elsewhere(s: Store, req: Request, pub: Publication) {
    PointerAt(s, Ns(req)) != pub.expected && PointerAt(s, Ns(req)) != Some(pub.id)
  }

  lemma PointerTyped(s: Store, ns: Namespace)
    requires Consistent(s)
    ensures Lookup(s, LatestKey(ns)) == if PointerAt(s, ns).Some? then Some(Pointer(PointerAt(s, ns).value)) else None
  {
    hide Closed, Discoverable, Valid, Canonical, Component;
    assert LatestKey(ns) in s ==> Fits(LatestKey(ns), s[LatestKey(ns)]);
  }

  // ---- every push ends ---------------------------------------------------------

  /** An upper bound on the store calls a push still makes. */
  function CallsLeft(req: Request, ph: Phase): nat {
    match ph
    case Starting => |req.snapshot.files| + 53
    case FetchParent(_) => |req.snapshot.files| + 52
    case Uploading(_, next, _) => if next <= |req.snapshot.files| then |req.snapshot.files| - next + 51 else 51
    case Publishing(_, _) => 50
    case PointerRead(_, n) => if n < RETRY_ATTEMPTS then 49 - 2 * n else 49
    case PointerSwap(_, n, _) => if n < RETRY_ATTEMPTS then 48 - 2 * n else 49
    case IndexRead(_, n) => if n < RETRY_ATTEMPTS then 24 - 2 * n else 25
    case IndexSwap(_, n, _) => if n < RETRY_ATTEMPTS then 23 - 2 * n else 25
    case Ended(_) => 0
  }

  /** Whatever the store answers, a call brings a push nearer its end. */
  lemma CallsRunOut(s: Store, t: Store, req: Request, ph: Phase)
    requires PhaseHolds(s, req, ph) && !ph.Ended?
    ensures CallsLeft(req, Resume(req, ph, Perform(t, NextCall(req, ph)).reply)) < CallsLeft(req, ph)
  {
    hide Valid, Canonical, Component, Blobs, StateOf, ParentHeld, ReceiptsHeld, PubHeld, Machines, Shas, Listing;
  }

  function CallsOf(moves: seq<Move>, who: nat): nat {
    if |moves| == 0 then 0 else CallsOf(moves[..|moves| - 1], who) + if moves[|moves| - 1] == Act(who) then 1 else 0
  }

  /** The retry loops are bounded: however pushes are interleaved, each ends within a fixed number of its own store
      calls after one per file. */
  lemma {:induction false} EveryPushEnds(sys: System, moves: seq<Move>, who: nat)
    requires Sound(sys) && who < |sys.clients|
    ensures var t := Run(sys, moves);
            && who < |t.clients| && t.clients[who].req == sys.clients[who].req
            && (t.clients[who].phase.Ended?
                || CallsLeft(sys.clients[who].req, t.clients[who].phase) + CallsOf(moves, who)
                   <= CallsLeft(sys.clients[who].req, sys.clients[who].phase))
  {
    hide Consistent, Granted, PhaseHolds, CallsLeft, Perform, NextCall, Resume;
    if |moves| > 0 {
      var n := |moves| - 1;
      EveryPushEnds(sys, moves[..n], who);
      RunSound(sys, moves[..n]);
      var mid := Run(sys, moves[..n]);
      var c := mid.clients[who];
      EndedStays(c.req, c.phase, mid.store);
      if moves[n] == Act(who) && !c.phase.Ended? { CallsRunOut(mid.store, mid.store, c.req, c.phase); }
    }
  }

  lemma EndedStays(req: Request, ph: Phase, s: Store)
    ensures ph.Ended? ==> Resume(req, ph, Perform(s, NextCall(req, ph)).reply) == ph
    ensures Ended(SourceFailed).Ended?
  {
    hide Valid, Canonical, Component, Blobs, StateOf, Shas, Listing;
  }

  // ---- twelve rounds ------------------------------------------------------------------

  /** This move is a swap of this push that finds the object changed since it read it. */
  ghost predicate Loses(sys: System, move: Move, who: nat, ofIndex: bool) {
    && move == Act(who) && who < |sys.clients|
    && var c := sys.clients[who];
       if ofIndex then c.phase.IndexSwap? && Lookup(sys.store, IndexKey) != c.phase.seen
       else c.phase.PointerSwap? && Lookup(sys.store, LatestKey(Ns(c.req))) != c.phase.seen
  }

  ghost function Losses(sys: System, moves: seq<Move>, who: nat, ofIndex: bool): nat {
    if |moves| == 0 then 0
    else
      var front := moves[..|moves| - 1];
      Losses(sys, front, who, ofIndex) + if Loses(Run(sys, front), moves[|moves| - 1], who, ofIndex) then 1 else 0
  }

  /** Where a push stands after that many lost swaps of its pointer and of the registry. */
  ghost predicate Stands(ph: Phase, pointer: nat, index: nat) {
    match ph
    case PointerRead(_, n) => n == pointer < 12 && index == 0
    case PointerSwap(_, n, _) => n == pointer < 12 && index == 0
    case IndexRead(_, n) => pointer < 12 && n == index < 12
    case IndexSwap(_, n, _) => pointer < 12 && n == index < 12
    case Ended(o) =>
      && pointer <= 12 && index <= 12
      && (o.ContendedPointer? <==> pointer == 12) && (o.ContendedIndex? <==> index == 12)
    case _ => pointer == 0 && index == 0
  }

  lemma StandsNext(sys: System, move: Move, who: nat, pointer: nat, index: nat)
    requires Sound(sys) && who < |sys.clients| && Stands(sys.clients[who].phase, pointer, index)
    ensures var t := Apply(sys, move);
            && who < |t.clients|
            && Stands(t.clients[who].phase, pointer + if Loses(sys, move, who, false) then 1 else 0,
                      index + if Loses(sys, move, who, true) then 1 else 0)
  {
    hide Valid, Canonical, Component, Blobs, StateOf, Listing, Consistent, Shas;
    hide ParentHeld, ReceiptsHeld, PubHeld, Machines, Granted;
    if move == Act(who) { assert PhaseHolds(sys.store, sys.clients[who].req, sys.clients[who].phase); }
  }

  /** A push gives up on the pointer, or on the registry, exactly when it has lost its twelfth swap of it; after fewer
      it goes on with the next round. */
  lemma {:induction false} GivesUpAfterTwelve(sys: System, moves: seq<Move>, who: nat)
    requires Sound(sys) && who < |sys.clients| && sys.clients[who].phase == Starting
    ensures var t := Run(sys, moves);
            && who < |t.clients|
            && Stands(t.clients[who].phase, Losses(sys, moves, who, false), Losses(sys, moves, who, true))
  {
    hide Sound, Apply, Stands, Loses;
    if |moves| == 0 {
      assert Stands(Starting, 0, 0) by { StartsUnbeaten(); }
    } else {
      var n := |moves| - 1;
      GivesUpAfterTwelve(sys, moves[..n], who);
      RunSound(sys, moves[..n]);
      StandsNext(Run(sys, moves[..n]), moves[n], who, Losses(sys, moves[..n], who, false),
                 Losses(sys, moves[..n], who, true));
    }
  }

  lemma StartsUnbeaten()
    ensures Stands(Starting, 0, 0)
  {
  }

  // ---- of pushes from one parent, one wins ------------------------------------------

  /** What a push publishes: its own snapshot, or its parent again. */
  predicate Own(req: Request, pub: Publication) { pub.id == Id(req) || pub.expected == Some(pub.id) }

  /** A push that captured this parent and has not moved the pointer: on its way there, or ended without. */
  ghost predicate Behind(req: Request, ph: Phase, from: Option<Snapshot>) {
    match ph
    case FetchParent(named) => from == Some(named)
    case Uploading(parent, _, _) => parent == from
    case Publishing(parent, _) => parent == from
    case PointerRead(pub, _) => pub.expected == from && Own(req, pub)
    case PointerSwap(pub, _, _) => pub.expected == from && Own(req, pub)
    case Ended(outcome) => outcome.Stale? || outcome.ContendedPointer? || outcome.SourceFailed?
    case _ => false
  }

  /** At its last swap, or past it. */
  predicate OutOfTries(ph: Phase) {
    (ph.PointerSwap? && ph.attempt + 1 >= RETRY_ATTEMPTS) || ph == Ended(ContendedPointer)
  }

  /** The pointer is neither at this parent nor at the push's own snapshot. */
  ghost predicate Away(s: Store, req: Request, from: Option<Snapshot>) {
    PointerAt(s, Ns(req)) != from && PointerAt(s, Ns(req)) != Some(Id(req))
  }

  /** Reading the pointer puts a push behind what it reads. */
  lemma CapturedIsBehind(s: Store, req: Request)
    requires Consistent(s) && Granted(s, req) && Valid(req.snapshot)
    ensures Behind(req, Resume(req, Starting, Perform(s, NextCall(req, Starting)).reply), PointerAt(s, Ns(req)))
  {
    hide Valid, Canonical, Component, Blobs, StateOf, Listing, Consistent, PointerAt;
    PointerTyped(s, Ns(req));
    StepKeeps(s, req, Starting);
  }

  lemma BehindStep(s: Store, req: Request, ph: Phase, from: Option<Snapshot>)
    requires Consistent(s) && Granted(s, req) && PhaseHolds(s, req, ph) && Behind(req, ph, from) && Away(s, req, from)
    ensures var after := Resume(req, ph, Perform(s, NextCall(req, ph)).reply);
            Behind(req, after, from) && (OutOfTries(after) ==> OutOfTries(ph))
  {
    hide Valid, Canonical, Component, Blobs, StateOf, Listing, Consistent;
    hide Grows, PointerAt, ParentHeld, ReceiptsHeld, Machines;
    PointerTyped(s, Ns(req));
    StepKeeps(s, req, ph);
  }

  lemma BehindMove(sys: System, move: Move, who: nat, from: Option<Snapshot>)
    requires Sound(sys) && who < |sys.clients|
    requires var c := sys.clients[who]; Behind(c.req, c.phase, from) && Away(sys.store, c.req, from)
    ensures var t := Apply(sys, move);
            && who < |t.clients| && t.clients[who].req == sys.clients[who].req
            && Behind(t.clients[who].req, t.clients[who].phase, from)
            && (OutOfTries(t.clients[who].phase) ==> OutOfTries(sys.clients[who].phase))
  {
    hide Consistent, Granted, PhaseHolds, Perform, NextCall, Resume, Away;
    var c := sys.clients[who];
    if move == Act(who) { BehindStep(sys.store, c.req, c.phase, from); }
  }

  /** The losers learn it. While the pointer is neither at the parent a push captured nor at its own snapshot, then
      however pushes are interleaved that push never publishes; given its calls it ends stale, or with its source
      failed, or out of attempts if it was at its last swap already. */
  lemma {:induction false} LoserIsStale(sys: System, moves: seq<Move>, who: nat, from: Option<Snapshot>)
    requires Sound(sys) && who < |sys.clients| && Behind(sys.clients[who].req, sys.clients[who].phase, from)
    requires forall k :: 0 <= k < |moves| ==> Away(Run(sys, moves[..k]).store, sys.clients[who].req, from)
    ensures var c, t := sys.clients[who], Run(sys, moves);
            && who < |t.clients| && t.clients[who].req == c.req && Behind(c.req, t.clients[who].phase, from)
            && (OutOfTries(t.clients[who].phase) ==> OutOfTries(c.phase))
            && (CallsOf(moves, who) >= CallsLeft(c.req, c.phase) ==> t.clients[who].phase.Ended?)
  {
    hide Sound, Away, Behind, Apply, CallsLeft;
    if |moves| > 0 {
      var n := |moves| - 1;
      forall k | 0 <= k < n ensures Away(Run(sys, moves[..n][..k]).store, sys.clients[who].req, from) {
        assert moves[..n][..k] == moves[..k];
      }
      LoserIsStale(sys, moves[..n], who, from);
      RunSound(sys, moves[..n]);
      BehindMove(Run(sys, moves[..n]), moves[n], who, from);
    }
    EveryPushEnds(sys, moves, who);
    LeftUntilEnded(sys.clients[who].req, Run(sys, moves).clients[who].phase);
  }

  lemma LeftUntilEnded(req: Request, ph: Phase)
    ensures !ph.Ended? ==> CallsLeft(req, ph) > 0
  {
  }

  lemma {:induction false} RunAppend(sys: System, a: seq<Move>, b: seq<Move>)
    ensures Run(sys, a + b) == Run(Run(sys, a), b)
  {
    if |b| == 0 {
      assert a + b == a;
    } else {
      assert (a + b)[..|a + b| - 1] == a + b[..|b| - 1];
      RunAppend(sys, a, b[..|b| - 1]);
    }
  }

  /** Of all pushes from one parent, one moves the pointer: that move is the swap of a push that captured the parent,
      and every other push that captured it stays behind, never publishing, until the pointer is back at the parent
      or has come to that push's own snapshot. */
  lemma OneWinnerPerParent(sys: System, moves: seq<Move>, i: nat, loser: nat, from: Option<Snapshot>)
    requires Sound(sys) && i < |moves| && loser < |Run(sys, moves[..i]).clients| && moves[i] != Act(loser)
    requires var c := Run(sys, moves[..i]).clients[loser];
             && Behind(c.req, c.phase, from)
             && PointerAt(Run(sys, moves[..i]).store, Ns(c.req))
                == from != PointerAt(Run(sys, moves[..i + 1]).store, Ns(c.req))
             && forall k :: i < k <= |moves| ==> Away(Run(sys, moves[..k]).store, c.req, from)
    ensures var c, t := Run(sys, moves[..i]).clients[loser], Run(sys, moves);
            && Swaps(Run(sys, moves[..i]), moves[i], Ns(c.req), from,
                     PointerAt(Run(sys, moves[..i + 1]).store, Ns(c.req)))
            && moves[i].who != loser
            && loser < |t.clients| && Behind(c.req, t.clients[loser].phase, from)
            && (CallsOf(moves[i + 1..], loser) >= CallsLeft(c.req, c.phase) ==>
                  t.clients[loser].phase.Ended?
                  && (t.clients[loser].phase.outcome.ContendedPointer? ==> OutOfTries(c.phase)))
  {
    hide Sound, Away, Behind, Apply, PointerAt, Swaps, Run, CallsLeft, Id, Ns;
    var mid, won := Run(sys, moves[..i]), Run(sys, moves[..i + 1]);
    var c := mid.clients[loser];
    RunSound(sys, moves[..i]);
    RunSound(sys, moves[..i + 1]);
    RunSplit(sys, moves, i, i + 1);
    WinnersMove(mid, moves[i], loser, from);
    AwayAfter(sys, moves, i + 1, c.req, from);
    var rest := moves[i + 1..];
    assert moves[..i + 1] + rest == moves;
    RunAppend(sys, moves[..i + 1], rest);
    LoserIsStale(won, rest, loser, from);
  }

  lemma WinnersMove(sys: System, move: Move, loser: nat, from: Option<Snapshot>)
    requires Sound(sys) && loser < |sys.clients| && move != Act(loser)
    requires var ns := Ns(sys.clients[loser].req);
             PointerAt(sys.store, ns) == from != PointerAt(Apply(sys, move).store, ns)
    ensures Swaps(sys, move, Ns(sys.clients[loser].req), from,
                  PointerAt(Apply(sys, move).store, Ns(sys.clients[loser].req)))
    ensures move.Act? && move.who != loser
    ensures loser < |Apply(sys, move).clients| && Apply(sys, move).clients[loser] == sys.clients[loser]
  {
    hide Sound, PointerAt, Perform, Resume, NextCall;
    PointerMovesFromParent(sys, move, Ns(sys.clients[loser].req));
  }

  lemma AwayAfter(sys: System, moves: seq<Move>, i: nat, req: Request, from: Option<Snapshot>)
    requires i <= |moves| && forall k :: i <= k <= |moves| ==> Away(Run(sys, moves[..k]).store, req, from)
    ensures forall k :: 0 <= k < |moves| - i ==> Away(Run(Run(sys, moves[..i]), moves[i..][..k]).store, req, from)
  {
    hide Away, Run;
    forall k | 0 <= k < |moves| - i ensures Away(Run(Run(sys, moves[..i]), moves[i..][..k]).store, req, from) {
      RunAppend(sys, moves[..i], moves[i..][..k]);
      assert moves[..i] + moves[i..][..k] == moves[..i + k];
    }
  }

  // ---- it is not vacuous ---------------------------------------------------------

  /** A machine's manifest with nothing in it. */
  function Bare(machine: string): Snapshot {
    Snapshot(SCHEMA_V2, [], [], machine, "", "t", "", Origin("", "", ""),
             Policy("raw", false, false, false, "none-v1"), [], [])
  }

  lemma BareIsValid(machine: string)
    requires !Blank(machine)
    ensures Valid(Bare(machine)) && Canonical(Bare(machine)) == Bare(machine)
  {
    assert !Blank("t") by { assert !IsSpace("t"[0]); }
  }

  function Alone(who: nat, calls: nat): seq<Move> { seq(calls, i => Act(who)) }

  /** Where a first push of a bare manifest passes. */
  function FirstPhase(machine: string, i: nat): Phase {
    var pub := Publication(Bare(machine), None);
    if i == 0 then Starting
    else if i == 1 then Uploading(None, 0, {})
    else if i == 2 then Publishing(None, {})
    else if i == 3 then PointerRead(pub, 0)
    else if i == 4 then PointerSwap(pub, 0, None)
    else if i == 5 then IndexRead(pub, 0)
    else if i == 6 then IndexSwap(pub, 0, None)
    else Ended(Published(Bare(machine)))
  }

  function FirstStore(machine: string, i: nat): Store {
    var ns := Component(machine);
    var published: Store := map[ManifestKey(ns, Bare(machine)) := Document(Bare(machine))];
    var pointed := published[LatestKey(ns) := Pointer(Bare(machine))];
    if i < 3 then map[] else if i < 5 then published else if i < 7 then pointed
    else pointed[IndexKey := Registry(Listing([machine]))]
  }

  /** The call a phase makes leads from one state to the next. */
  ghost predicate Leads(req: Request, ph: Phase, s: Store, after: Phase, t: Store) {
    var e := Perform(s, NextCall(req, ph));
    e.store == t && Resume(req, ph, e.reply) == after
  }

  lemma FirstStep(machine: string, i: nat)
    requires !Blank(machine) && i < 7
    ensures Leads(Request(Bare(machine), false), FirstPhase(machine, i), FirstStore(machine, i),
                  FirstPhase(machine, i + 1), FirstStore(machine, i + 1))
  {
    hide *;
    BareIsValid(machine);
    if i <= 2 { FirstHalf(machine, i); } else { SecondHalf(machine, i); }
  }

  lemma FirstHalf(machine: string, i: nat)
    requires Valid(Bare(machine)) && Canonical(Bare(machine)) == Bare(machine) && i <= 2
    ensures Leads(Request(Bare(machine), false), FirstPhase(machine, i), FirstStore(machine, i),
                  FirstPhase(machine, i + 1), FirstStore(machine, i + 1))
  {
    hide Valid, Canonical, Component, StateOf, Listing;
  }

  lemma SecondHalf(machine: string, i: nat)
    requires 3 <= i <= 6
    ensures Leads(Request(Bare(machine), false), FirstPhase(machine, i), FirstStore(machine, i),
                  FirstPhase(machine, i + 1), FirstStore(machine, i + 1))
  {
    hide Valid, Canonical, Component, StateOf, Listing;
    assert [] + [machine] == [machine];
  }

  /** One client's calls alone lead its phase along a path; the others wait. */
  lemma {:induction false} AloneThrough(sys: System, who: nat, stores: seq<Store>, phases: seq<Phase>)
    requires |phases| == |stores| > 0 && who < |sys.clients|
    requires sys.store == stores[0] && sys.clients[who].phase == phases[0]
    requires forall i :: 0 <= i < |phases| - 1 ==>
             Leads(sys.clients[who].req, phases[i], stores[i], phases[i + 1], stores[i + 1])
    ensures Run(sys, Alone(who, |phases| - 1))
            == System(stores[|phases| - 1], sys.clients[who := Client(sys.clients[who].req, phases[|phases| - 1])])
  {
    hide Perform, NextCall, Resume;
    var n := |phases| - 1;
    if n > 0 {
      AloneThrough(sys, who, stores[..n], phases[..n]);
      assert Alone(who, n)[..n - 1] == Alone(who, n - 1);
      assert Leads(sys.clients[who].req, phases[n - 1], stores[n - 1], phases[n], stores[n]);
    }
  }

  lemma FirstRun(machine: string, clients: seq<Client>)
    requires !Blank(machine) && |clients| > 0 && clients[0] == Client(Request(Bare(machine), false), Starting)
    ensures Run(System(map[], clients), Alone(0, 7))
            == System(FirstStore(machine, 7), clients[0 := Client(clients[0].req, Ended(Published(Bare(machine))))])
  {
    hide Run, Leads, Listing, Component;
    forall i | 0 <= i < 7 ensures Leads(clients[0].req, FirstPhase(machine, i), FirstStore(machine, i),
                                        FirstPhase(machine, i + 1), FirstStore(machine, i + 1))
    {
      FirstStep(machine, i);
    }
    AloneThrough(System(map[], clients), 0, seq(8, i requires 0 <= i => FirstStore(machine, i)),
                 seq(8, i requires 0 <= i => FirstPhase(machine, i)));
  }

  /** From an empty Archive a push of a bare manifest publishes and registers, in seven calls. */
  lemma BarePublishes(machine: string)
    requires !Blank(machine)
    ensures var end := Run(System(map[], [Client(Request(Bare(machine), false), Starting)]), Alone(0, 7));
            && end.clients == [Client(Request(Bare(machine), false), Ended(Published(Bare(machine))))]
            && end.store == FirstStore(machine, 7) && Consistent(end.store) && Machines(end.store) == {machine}
  {
    hide Consistent, Run, FirstStore, Machines;
    FirstRun(machine, [Client(Request(Bare(machine), false), Starting)]);
    FreshStart([Request(Bare(machine), false)]);
    RunSound(System(map[], [Client(Request(Bare(machine), false), Starting)]), Alone(0, 7));
    RegisteredAlone(machine);
  }

  lemma FreshStart(reqs: seq<Request>)
    requires forall k :: 0 <= k < |reqs| ==> !reqs[k].mustHaveParent
    ensures Sound(System(map[], seq(|reqs|, k requires 0 <= k < |reqs| => Client(reqs[k], Starting))))
    ensures |reqs| == 1 ==>
              seq(|reqs|, k requires 0 <= k < |reqs| => Client(reqs[k], Starting)) == [Client(reqs[0], Starting)]
    ensures |reqs| == 2 ==> seq(|reqs|, k requires 0 <= k < |reqs| => Client(reqs[k], Starting))
                            == [Client(reqs[0], Starting), Client(reqs[1], Starting)]
  {
    NoElements<string>([]);
  }

  lemma RegisteredAlone(machine: string)
    ensures Machines(FirstStore(machine, 7)) == {machine}
  {
    hide Listing, Component;
  }

  // ---- two machines, one namespace --------------------------------------------------

  /** Where a push passes whose machine shares its namespace with one that published first. */
  function SecondPhase(first: string, machine: string, i: nat): Phase {
    var parent := Some(Bare(first));
    var pub := Publication(Bare(machine), parent);
    if i == 0 then Starting
    else if i == 1 then FetchParent(Bare(first))
    else if i == 2 then Uploading(parent, 0, {})
    else if i == 3 then Publishing(parent, {})
    else if i == 4 then PointerRead(pub, 0)
    else if i == 5 then PointerSwap(pub, 0, Some(Pointer(Bare(first))))
    else if i == 6 then IndexRead(pub, 0)
    else if i == 7 then IndexSwap(pub, 0, Some(Registry(Listing([first]))))
    else Ended(Published(Bare(machine)))
  }

  function SecondStore(first: string, machine: string, i: nat): Store {
    var ns := Component(first);
    var published := FirstStore(first, 7)[ManifestKey(ns, Bare(machine)) := Document(Bare(machine))];
    var pointed := published[LatestKey(ns) := Pointer(Bare(machine))];
    if i < 4 then FirstStore(first, 7) else if i < 6 then published else if i < 8 then pointed
    else pointed[IndexKey := Registry(Listing(Listing([first]) + [machine]))]
  }

  lemma SecondStep(first: string, machine: string, i: nat)
    requires !Blank(machine) && first != machine && Component(first) == Component(machine) && i < 8
    ensures Leads(Request(Bare(machine), false), SecondPhase(first, machine, i), SecondStore(first, machine, i),
                  SecondPhase(first, machine, i + 1), SecondStore(first, machine, i + 1))
  {
    hide *;
    BareIsValid(machine);
    SecondAtFirst(first, machine);
    if i == 0 { SecondReads(first, machine); }
    else if i == 1 { SecondFetches(first, machine); }
    else if i <= 3 { SecondPublishes(first, machine, i); }
    else if i <= 5 { SecondSwaps(first, machine, i); }
    else { SecondRegisters(first, machine, i); }
  }

  lemma SecondAtFirst(first: string, machine: string)
    ensures SecondPhase(first, machine, 0) == Starting && SecondPhase(first, machine, 1) == FetchParent(Bare(first))
    ensures SecondPhase(first, machine, 2) == Uploading(Some(Bare(first)), 0, {})
    ensures forall i: nat :: i <= 2 ==> SecondStore(first, machine, i) == FirstStore(first, 7)
  {
  }

  lemma SecondReads(first: string, machine: string)
    requires Valid(Bare(machine)) && Component(first) == Component(machine)
    ensures Leads(Request(Bare(machine), false), Starting, FirstStore(first, 7), FetchParent(Bare(first)),
                  FirstStore(first, 7))
  {
    hide Valid, Canonical, Component, StateOf, Listing;
  }

  lemma SecondFetches(first: string, machine: string)
    requires first != machine && Component(first) == Component(machine)
    ensures Leads(Request(Bare(machine), false), FetchParent(Bare(first)), FirstStore(first, 7),
                  Uploading(Some(Bare(first)), 0, {}), FirstStore(first, 7))
  {
    hide *;
    StatesDiffer(first, machine);
    BareNames(first);
    BareNames(machine);
    FirstStoresManifest(first);
    FetchLeads(Request(Bare(machine), false), FirstStore(first, 7), Bare(first));
  }

  lemma FetchLeads(req: Request, s: Store, named: Snapshot)
    requires Lookup(s, ManifestKey(Component(req.snapshot.machineId), named)) == Some(Document(named))
    requires Component(named.machineId) == Component(req.snapshot.machineId)
    requires !req.mustHaveParent && StateOf(named) != StateOf(req.snapshot)
    ensures Leads(req, FetchParent(named), s, Uploading(Some(named), 0, {}), s)
  {
    hide Component, StateOf;
  }

  lemma BareNames(machine: string)
    ensures Bare(machine).machineId == machine
  {
  }

  lemma FirstStoresManifest(machine: string)
    ensures Lookup(FirstStore(machine, 7), ManifestKey(Component(machine), Bare(machine)))
            == Some(Document(Bare(machine)))
  {
    hide Component, Listing, Bare;
  }

  lemma SecondPublishes(first: string, machine: string, i: nat)
    requires Canonical(Bare(machine)) == Bare(machine) && first != machine && Component(first) == Component(machine)
             && 2 <= i <= 3
    ensures Leads(Request(Bare(machine), false), SecondPhase(first, machine, i), SecondStore(first, machine, i),
                  SecondPhase(first, machine, i + 1), SecondStore(first, machine, i + 1))
  {
    hide Valid, Canonical, Component, StateOf, Listing;
  }

  lemma SecondSwaps(first: string, machine: string, i: nat)
    requires first != machine && Component(first) == Component(machine) && 4 <= i <= 5
    ensures Leads(Request(Bare(machine), false), SecondPhase(first, machine, i), SecondStore(first, machine, i),
                  SecondPhase(first, machine, i + 1), SecondStore(first, machine, i + 1))
  {
    hide Valid, Canonical, Component, StateOf, Listing;
  }

  lemma SecondRegisters(first: string, machine: string, i: nat)
    requires first != machine && Component(first) == Component(machine) && 6 <= i <= 7
    ensures Leads(Request(Bare(machine), false), SecondPhase(first, machine, i), SecondStore(first, machine, i),
                  SecondPhase(first, machine, i + 1), SecondStore(first, machine, i + 1))
  {
    ListedAlone(first);
    hide Valid, Canonical, Component, StateOf, Listing;
  }

  lemma StatesDiffer(a: string, b: string)
    requires a != b
    ensures StateOf(Bare(a)) != StateOf(Bare(b))
  {
    hide SortBy;
  }

  lemma ListedAlone(m: string)
    ensures Elements(Listing([m])) == {m} && forall x :: x in Listing([m]) ==> x == m
  {
    forall x | x in Listing([m]) ensures x == m { assert x in Elements([m]); }
  }

  /** From an empty Archive both push and register; the one pointer they share names the second's snapshot. */
  lemma BothRegister(first: string, second: string)
    requires !Blank(first) && !Blank(second) && first != second && Component(first) == Component(second)
    ensures var reqs := [Request(Bare(first), false), Request(Bare(second), false)];
            var end := Run(System(map[], [Client(reqs[0], Starting), Client(reqs[1], Starting)]),
                           Alone(0, 7) + Alone(1, 8));
            && end.clients == [Client(reqs[0], Ended(Published(Bare(first)))),
                               Client(reqs[1], Ended(Published(Bare(second))))]
            && Consistent(end.store) && Machines(end.store) == {first, second}
            && PointerAt(end.store, Component(first)) == Some(Bare(second))
  {
    hide Consistent, Run, Leads, Listing, Component, FirstStore, Machines, PointerAt;
    var reqs := [Request(Bare(first), false), Request(Bare(second), false)];
    var clients := [Client(reqs[0], Starting), Client(reqs[1], Starting)];
    FirstRun(first, clients);
    var mid := clients[0 := Client(reqs[0], Ended(Published(Bare(first))))];
    forall i | 0 <= i < 8 ensures Leads(reqs[1], SecondPhase(first, second, i), SecondStore(first, second, i),
                                        SecondPhase(first, second, i + 1), SecondStore(first, second, i + 1)) {
      SecondStep(first, second, i);
    }
    AloneThrough(System(FirstStore(first, 7), mid), 1, seq(9, i requires 0 <= i => SecondStore(first, second, i)),
                 seq(9, i requires 0 <= i => SecondPhase(first, second, i)));
    RunAppend(System(map[], clients), Alone(0, 7), Alone(1, 8));
    FreshStart(reqs);
    RunSound(System(map[], clients), Alone(0, 7) + Alone(1, 8));
    RegisteredBoth(first, second);
  }

  lemma RegisteredBoth(first: string, second: string)
    ensures Machines(SecondStore(first, second, 8)) == {first, second}
    ensures PointerAt(SecondStore(first, second, 8), Component(first)) == Some(Bare(second))
  {
    ListedAlone(first);
    ElementsSnoc(Listing([first]), second);
    hide Listing, Component;
  }
}
