/** The object store an Archive lives in: keys, the three primitives, and the local implementation. */
module ObjectStore {
  import opened Order
  import opened Namespaces
  import opened Manifests
  import opened Options

  /** Object keys. A content address is carried as the content it addresses. */
  datatype Key = BlobKey(sha: string) | ManifestKey(ns: Namespace, id: Snapshot) | LatestKey(ns: Namespace) | IndexKey

  datatype Object = Content(sha: string) | Document(id: Snapshot) | Pointer(id: Snapshot)
                  | Registry(machines: seq<string>)

  type Store = map<Key, Object>

  function Lookup(s: Store, k: Key): Option<Object> {
    if k in s then Some(s[k]) else None
  }

  /** One call on the store. An etag identifies the content it was read with; None asks for absence. */
  datatype Call = Nothing | Read(key: Key) | PutNew(key: Key, body: Object)
                | Swap(key: Key, body: Object, etag: Option<Object>)

  datatype Reply = Silent | Got(body: Option<Object>) | Created(made: bool) | Swapped(won: bool)

  datatype Effect = Effect(store: Store, reply: Reply)

  /** There is no delete and no blind overwrite. */
  function Perform(s: Store, c: Call): Effect {
    match c
    case Nothing => Effect(s, Silent)
    case Read(k) => Effect(s, Got(Lookup(s, k)))
    case PutNew(k, o) => if k in s then Effect(s, Created(false)) else Effect(s[k := o], Created(true))
    case Swap(k, o, etag) =>
      if Lookup(s, k) == etag then Effect(s[k := o], Swapped(true)) else Effect(s, Swapped(false))
  }

  // ---- key texts ----------------------------------------------------------

  /** How digests are spelled: of a machine id with nothing to keep, and of a manifest. */
  datatype Spelling = Spelling(machine: string -> string, manifest: Snapshot -> string)

  ghost predicate Spells(w: Spelling) {
    && (forall m :: '/' !in w.machine(m))
    && (forall a, b :: w.manifest(a) == w.manifest(b) ==> a == b)
  }

  function NamespaceText(w: Spelling, ns: Namespace): string {
    match ns
    case Clean(name) => name
    case Digest(of) => "machine-" + w.machine(of)
  }

  function MachinePrefix(w: Spelling, ns: Namespace): string { "machines/" + (NamespaceText(w, ns) + "/") }

  function KeyText(w: Spelling, k: Key): string {
    match k
    case BlobKey(sha) => "blobs/v2/" + (sha + ".zst")
    case ManifestKey(ns, id) => MachinePrefix(w, ns) + ("manifests/" + (w.manifest(id) + ".json"))
    case LatestKey(ns) => MachinePrefix(w, ns) + "latest"
    case IndexKey => "machines/index.json"
  }

  /** The layout of an Archive. */
  lemma Layout(w: Spelling, ns: Namespace, id: Snapshot, sha: string)
    ensures KeyText(w, BlobKey(sha)) == "blobs/v2/" + sha + ".zst"
    ensures KeyText(w, IndexKey) == "machines/index.json"
    ensures ns.Clean? ==> KeyText(w, LatestKey(ns)) == "machines/" + ns.name + "/latest"
    ensures ns.Clean? ==>
              KeyText(w, ManifestKey(ns, id)) == "machines/" + ns.name + "/manifests/" + w.manifest(id) + ".json"
    ensures ns.Digest? ==> NamespaceText(w, ns) == "machine-" + w.machine(ns.of)
  {
    assert "blobs/v2/" + (sha + ".zst") == "blobs/v2/" + sha + ".zst";
    if ns.Clean? {
      assert "machines/" + (ns.name + "/") + "latest" == "machines/" + ns.name + "/latest";
      assert "machines/" + (ns.name + "/") + ("manifests/" + (w.manifest(id) + ".json"))
             == "machines/" + ns.name + "/manifests/" + w.manifest(id) + ".json";
    }
  }

  /** Namespaces as the sanitiser leaves them (see ComponentSafe). */
  predicate Sanitised(k: Key) {
    k.ManifestKey? || k.LatestKey? ==> k.ns.Digest? || SafeName(k.ns.name)
  }

  /** Same object: same kind, same address, and namespaces that spell alike. */
  ghost predicate SamePlace(w: Spelling, a: Key, b: Key) {
    match (a, b)
    case (BlobKey(x), BlobKey(y)) => x == y
    case (ManifestKey(m, x), ManifestKey(n, y)) => NamespaceText(w, m) == NamespaceText(w, n) && x == y
    case (LatestKey(m), LatestKey(n)) => NamespaceText(w, m) == NamespaceText(w, n)
    case (IndexKey, IndexKey) => true
    case _ => false
  }

  lemma CancelLeft(p: string, x: string, y: string)
    requires p + x == p + y
    ensures x == y
  {
    assert (p + x)[|p|..] == x && (p + y)[|p|..] == y;
  }

  lemma CancelRight(x: string, y: string, p: string)
    requires x + p == y + p
    ensures x == y
  {
    assert |x| == |y|;
    assert (x + p)[..|x|] == x && (y + p)[..|y|] == y;
  }

  /** The first separator is found in one place only. */
  lemma SplitAtSlash(a: string, x: string, b: string, y: string)
    requires '/' !in a && '/' !in b && a + "/" + x == b + "/" + y
    ensures a == b && x == y
  {
    var s := a + "/" + x;
    assert s[|a|] == '/' && s[|b|] == '/';
    assert forall k :: 0 <= k < |a| ==> s[k] == a[k] && a[k] in a;
    assert forall k :: 0 <= k < |b| ==> s[k] == b[k] && b[k] in b;
    assert |a| == |b|;
    assert s[..|a|] == a && s[..|b|] == b;
    CancelLeft(a + "/", x, y);
  }

  /** Below a common parent, a directory name and what follows it are recovered from the path. */
  lemma SplitBelow(p: string, a: string, x: string, b: string, y: string)
    requires '/' !in a && '/' !in b && p + (a + "/") + x == p + (b + "/") + y
    ensures a == b && x == y
  {
    assert p + (a + "/") + x == p + (a + "/" + x);
    assert p + (b + "/") + y == p + (b + "/" + y);
    CancelLeft(p, a + "/" + x, b + "/" + y);
    SplitAtSlash(a, x, b, y);
  }

  /** Anything below a directory is told apart from a plain file beside it. */
  lemma BelowIsNotBeside(p: string, a: string, x: string, plain: string)
    requires '/' !in plain
    ensures p + (a + "/") + x != p + plain
  {
    assert p + (a + "/") + x == p + (a + "/" + x);
    assert (a + "/" + x)[|a|] == '/';
    if p + (a + "/") + x == p + plain { CancelLeft(p, a + "/" + x, plain); }
  }

  lemma NoSlash(w: Spelling, k: Key)
    requires Spells(w) && Sanitised(k) && (k.ManifestKey? || k.LatestKey?)
    ensures '/' !in NamespaceText(w, k.ns)
  {
    if k.ns.Digest? {
      var d := w.machine(k.ns.of);
      var fixed := "machine-";
      assert forall c :: c in fixed + d <==> c in fixed || c in d;
    }
  }

  lemma BlobTexts(x: string, y: string)
    requires "blobs/v2/" + (x + ".zst") == "blobs/v2/" + (y + ".zst")
    ensures x == y
  {
    CancelLeft("blobs/v2/", x + ".zst", y + ".zst");
    CancelRight(x, y, ".zst");
  }

  lemma ManifestTexts(p: string, a: string, x: string, b: string, y: string)
    requires '/' !in a && '/' !in b
    requires p + (a + "/") + ("manifests/" + (x + ".json")) == p + (b + "/") + ("manifests/" + (y + ".json"))
    ensures a == b && x == y
  {
    SplitBelow(p, a, "manifests/" + (x + ".json"), b, "manifests/" + (y + ".json"));
    CancelLeft("manifests/", x + ".json", y + ".json");
    CancelRight(x, y, ".json");
  }

  lemma PointerIsNoManifest(p: string, a: string, b: string, y: string)
    requires '/' !in a && '/' !in b
    ensures p + (a + "/") + "latest" != p + (b + "/") + ("manifests/" + y)
  {
    assert ("manifests/" + y)[0] == 'm';
    if p + (a + "/") + "latest" == p + (b + "/") + ("manifests/" + y) {
      SplitBelow(p, a, "latest", b, "manifests/" + y);
    }
  }

  lemma IndexIsPlain()
    ensures '/' !in "index.json"
    ensures "machines/index.json" == "machines/" + "index.json"
  {
  }

  /** Two objects live under one key text exactly when they are the same object: no machine id,
      however hostile, lands on the registry, on a blob, or inside another namespace. */
  lemma KeyTextsCollideOnlyInPlace(w: Spelling, a: Key, b: Key)
    requires Spells(w) && Sanitised(a) && Sanitised(b)
    ensures KeyText(w, a) == KeyText(w, b) <==> SamePlace(w, a, b)
  {
    if a.LatestKey? || a.ManifestKey? { NoSlash(w, a); }
    if b.LatestKey? || b.ManifestKey? { NoSlash(w, b); }
    IndexIsPlain();
    if KeyText(w, a) == KeyText(w, b) {
      FirstLetters(w, a);
      FirstLetters(w, b);
      match (a, b) {
        case (BlobKey(x), BlobKey(y)) => BlobTexts(x, y);
        case (ManifestKey(m, x), ManifestKey(n, y)) =>
          ManifestTexts("machines/", NamespaceText(w, m), w.manifest(x), NamespaceText(w, n), w.manifest(y));
        case (LatestKey(m), LatestKey(n)) =>
          SplitBelow("machines/", NamespaceText(w, m), "latest", NamespaceText(w, n), "latest");
        case (LatestKey(m), ManifestKey(n, y)) =>
          PointerIsNoManifest("machines/", NamespaceText(w, m), NamespaceText(w, n), w.manifest(y) + ".json");
        case (ManifestKey(n, y), LatestKey(m)) =>
          PointerIsNoManifest("machines/", NamespaceText(w, m), NamespaceText(w, n), w.manifest(y) + ".json");
        case (IndexKey, LatestKey(m)) => BelowIsNotBeside("machines/", NamespaceText(w, m), "latest", "index.json");
        case (LatestKey(m), IndexKey) => BelowIsNotBeside("machines/", NamespaceText(w, m), "latest", "index.json");
        case (IndexKey, ManifestKey(m, x)) =>
          BelowIsNotBeside("machines/", NamespaceText(w, m), "manifests/" + (w.manifest(x) + ".json"), "index.json");
        case (ManifestKey(m, x), IndexKey) =>
          BelowIsNotBeside("machines/", NamespaceText(w, m), "manifests/" + (w.manifest(x) + ".json"), "index.json");
        case _ =>
      }
    }
  }

  lemma FirstLetters(w: Spelling, k: Key)
    ensures |KeyText(w, k)| > 0 && KeyText(w, k)[0] == if k.BlobKey? then 'b' else 'm'
  {
  }
}
