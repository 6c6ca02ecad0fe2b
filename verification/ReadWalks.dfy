/** Walking parent ids from an entry to the root of its session, and what of that path a model was shown. */
module ReadWalks {
  import opened Options

  /** A stored entry joined with its message row. */
  datatype Node = Node(parent: string, kind: string, firstKept: string, participates: bool)

  type Nodes = map<string, Node>

  datatype Branch = Branch(path: seq<string>) | NoEntry | Cycle(at: string) | Dangling(at: string)
                  | NoAnchor(anchor: string)

  // ---- paths ------------------------------------------------------------------------

  /** p climbs from leaf, parent by parent, and next is where it would go on. */
  ghost predicate Climb(nodes: Nodes, leaf: string, p: seq<string>, next: string) {
    && (forall k :: 0 <= k < |p| ==> p[k] in nodes)
    && (if |p| == 0 then next == leaf else p[0] == leaf && nodes[p[|p| - 1]].parent == next)
    && (forall k :: 0 <= k < |p| - 1 ==> nodes[p[k]].parent == p[k + 1])
  }

  /** p is the whole way from leaf to a root. */
  ghost predicate Rooted(nodes: Nodes, leaf: string, p: seq<string>) { Climb(nodes, leaf, p, "") }

  ghost predicate CycleAbove(nodes: Nodes, leaf: string, at: string) {
    exists p :: Climb(nodes, leaf, p, at) && at in p
  }

  ghost predicate DanglingAbove(nodes: Nodes, leaf: string, at: string) {
    at != "" && at !in nodes && exists p :: Climb(nodes, leaf, p, at)
  }

  /** There is one way up. */
  lemma {:induction false} ClimbsAgree(nodes: Nodes, leaf: string, p: seq<string>, next: string, q: seq<string>)
    requires "" !in nodes && Climb(nodes, leaf, p, next) && Rooted(nodes, leaf, q)
    ensures |p| <= |q| && p == q[..|p|] && next == if |p| < |q| then q[|p|] else ""
  {
    if |p| > 0 {
      var n := |p| - 1;
      assert Climb(nodes, leaf, p[..n], p[n]) by {
        assert forall k :: 0 <= k < n ==> p[..n][k] == p[k];
      }
      ClimbsAgree(nodes, leaf, p[..n], p[n], q);
      assert n < |q|;
      assert p == p[..n] + [p[n]];
    }
  }

  /** A way to the root meets no entry twice. */
  lemma RootedIsDistinct(nodes: Nodes, leaf: string, q: seq<string>)
    requires "" !in nodes && Rooted(nodes, leaf, q)
    ensures forall i, j :: 0 <= i < j < |q| ==> q[i] != q[j]
  {
    forall i, j | 0 <= i < j < |q| ensures q[i] != q[j] {
      if q[i] == q[j] {
        TailIsRooted(nodes, leaf, q, i);
        TailIsRooted(nodes, leaf, q, j);
        ClimbsAgree(nodes, q[i], q[i..], "", q[j..]);
      }
    }
  }

  lemma TailIsRooted(nodes: Nodes, leaf: string, q: seq<string>, i: nat)
    requires Rooted(nodes, leaf, q) && i < |q|
    ensures Rooted(nodes, q[i], q[i..])
  {
  }

  /** A way to the root leaves no room for a cycle or a dangling parent, nor either for the other. */
  lemma RootedExcludes(nodes: Nodes, leaf: string, q: seq<string>, at: string)
    requires "" !in nodes && Rooted(nodes, leaf, q)
    ensures !CycleAbove(nodes, leaf, at) && !DanglingAbove(nodes, leaf, at)
  {
    RootedIsDistinct(nodes, leaf, q);
    forall p | Climb(nodes, leaf, p, at) ensures at !in p && (at == "" || at in nodes) {
      ClimbsAgree(nodes, leaf, p, at, q);
    }
  }

  ghost predicate Distinct(p: seq<string>) { forall i, j :: 0 <= i < j < |p| ==> p[i] != p[j] }

  /** There is one way up: of two climbs from one leaf, the longer goes on where the shorter ends. */
  lemma {:induction false} OneWayUp(nodes: Nodes, leaf: string, p: seq<string>, next: string, q: seq<string>,
                                    last: string)
    requires Climb(nodes, leaf, p, next) && Climb(nodes, leaf, q, last) && |p| <= |q|
    ensures p == q[..|p|] && next == if |p| < |q| then q[|p|] else last
  {
    if |p| > 0 {
      var n := |p| - 1;
      assert Climb(nodes, leaf, p[..n], p[n]) by {
        assert forall k :: 0 <= k < n ==> p[..n][k] == p[k];
      }
      OneWayUp(nodes, leaf, p[..n], p[n], q, last);
      assert p == p[..n] + [p[n]];
    }
  }

  function Reversed<T>(s: seq<T>): seq<T> { seq(|s|, k requires 0 <= k < |s| => s[|s| - 1 - k]) }

  /** Reverse in place, two ends at a time. */
  method Reverse(a: array<string>)
    modifies a
    ensures a[..] == Reversed(old(a[..]))
  {
    var i, j := 0, a.Length - 1;
    while i < j
      invariant 0 <= i <= j + 1 && i + j == a.Length - 1
      invariant forall k :: 0 <= k < i || j < k < a.Length ==> a[k] == old(a[a.Length - 1 - k])
      invariant forall k :: i <= k <= j ==> a[k] == old(a[k])
    {
      a[i], a[j] := a[j], a[i];
      i, j := i + 1, j - 1;
    }
  }

  method ReverseAll(s: seq<string>) returns (r: seq<string>)
    ensures r == Reversed(s)
  {
    var a := new string[|s|];
    forall k | 0 <= k < |s| { a[k] := s[k]; }
    assert a[..] == s;
    Reverse(a);
    r := a[..];
  }

  // ---- ReadBranch ---------------------------------------------------------------------

  /** Where ReadBranch's walk p ends, and what it then answers: at the root, at the first entry met again, or at a
      parent that is not there. */
  ghost predicate ReadEnd(nodes: Nodes, leaf: string, p: seq<string>, next: string, r: Branch) {
    && Climb(nodes, leaf, p, next) && Distinct(p)
    && match r
       case Branch(path) => next == "" && path == Reversed(p)
       case Cycle(at) => at == next && next in p
       case Dangling(at) => at == next && next != "" && next !in nodes
       case _ => false
  }

  ghost predicate ReadAnswer(nodes: Nodes, leaf: string, r: Branch) {
    if leaf !in nodes then r == NoEntry else exists p, next :: ReadEnd(nodes, leaf, p, next, r)
  }

  /** ReadBranch: the path from root to leaf, or the first thing wrong with it. */
  method ReadBranch(nodes: Nodes, leaf: string) returns (r: Branch)
    requires "" !in nodes
    ensures r.NoEntry? <==> leaf !in nodes
    ensures r.Branch? ==> leaf in nodes && Rooted(nodes, leaf, Reversed(r.path))
    ensures forall p :: leaf in nodes && Rooted(nodes, leaf, p) ==> r == Branch(Reversed(p))
    ensures r.Cycle? ==> CycleAbove(nodes, leaf, r.at)
    ensures r.Dangling? ==> DanglingAbove(nodes, leaf, r.at)
    ensures !r.NoAnchor?
    ensures ReadAnswer(nodes, leaf, r)
  {
    if leaf !in nodes { return NoEntry; }
    var path: seq<string> := [];
    var seen: set<string> := {};
    var cur := leaf;
    while cur != ""
      invariant Climb(nodes, leaf, path, cur)
      invariant Distinct(path) && seen == set x | x in path
      decreases nodes.Keys - seen
    {
      if cur in seen {
        assert ReadEnd(nodes, leaf, path, cur, Cycle(cur));
        NotRooted(nodes, leaf, cur);
        return Cycle(cur);
      }
      if cur !in nodes {
        assert ReadEnd(nodes, leaf, path, cur, Dangling(cur));
        NotRooted(nodes, leaf, cur);
        return Dangling(cur);
      }
      ClimbOn(nodes, leaf, path, cur);
      seen := seen + {cur};
      path := path + [cur];
      cur := nodes[cur].parent;
    }
    ReversedTwice(path);
    forall p | Rooted(nodes, leaf, p) ensures p == path {
      ClimbsAgree(nodes, leaf, path, "", p);
      ClimbsAgree(nodes, leaf, p, "", path);
    }
    var out := ReverseAll(path);
    r := Branch(out);
    assert ReadEnd(nodes, leaf, path, cur, r);
  }

  lemma ClimbOn(nodes: Nodes, leaf: string, p: seq<string>, cur: string)
    requires Climb(nodes, leaf, p, cur) && cur in nodes
    ensures Climb(nodes, leaf, p + [cur], nodes[cur].parent)
  {
  }

  lemma NotRooted(nodes: Nodes, leaf: string, at: string)
    requires "" !in nodes
    ensures CycleAbove(nodes, leaf, at) || DanglingAbove(nodes, leaf, at) ==> forall p :: !Rooted(nodes, leaf, p)
  {
    if p :| Rooted(nodes, leaf, p) { RootedExcludes(nodes, leaf, p, at); }
  }

  lemma ReversedTwice<T>(s: seq<T>)
    ensures Reversed(Reversed(s)) == s
  {
  }

  // ---- LiveContext -----------------------------------------------------------------------

  predicate Compacts(n: Node) { n.kind == "compaction" }
  predicate Anchors(n: Node) { Compacts(n) && n.firstKept != "" }

  /** The first anchoring compaction on a path, leaf first. */
  function NearestAnchor(nodes: Nodes, p: seq<string>): (c: Option<nat>)
    ensures c.Some? ==> c.value < |p| && p[c.value] in nodes && Anchors(nodes[p[c.value]])
    ensures forall k :: 0 <= k < (if c.Some? then c.value else |p|) ==> p[k] in nodes ==> !Anchors(nodes[p[k]])
  {
    if |p| == 0 then None
    else
      var earlier := NearestAnchor(nodes, p[..|p| - 1]);
      if earlier.Some? then earlier
      else if p[|p| - 1] in nodes && Anchors(nodes[p[|p| - 1]]) then Some(|p| - 1)
      else None
  }

  /** The participating entries of a path that are, or are not, compactions. */
  function Shown(nodes: Nodes, p: seq<string>, compactions: bool): seq<string> {
    if |p| == 0 then []
    else
      var id := p[|p| - 1];
      Shown(nodes, p[..|p| - 1], compactions)
      + if id in nodes && nodes[id].participates && Compacts(nodes[id]) == compactions then [id] else []
  }

  /** What is emitted of the walked part: compactions nearest first, then the rest from root to leaf. */
  function Emitted(nodes: Nodes, p: seq<string>): seq<string> {
    Shown(nodes, p, true) + Reversed(Shown(nodes, p, false))
  }

  /** j is where the walk stops: the anchor of the nearest anchoring compaction, at or above it. */
  ghost predicate StopsAt(nodes: Nodes, p: seq<string>, j: nat) {
    var c := NearestAnchor(nodes, p);
    c.Some? && c.value <= j < |p| && p[j] == nodes[p[c.value]].firstKept
    && forall k :: c.value <= k < j ==> p[k] != nodes[p[c.value]].firstKept
  }

  /** Where a walk stands: how far, and the anchor it is looking for. */
  ghost predicate Looking(nodes: Nodes, p: seq<string>, stopAfter: string) {
    var c := NearestAnchor(nodes, p);
    && (forall k :: 0 <= k < |p| ==> p[k] in nodes)
    && stopAfter == (if c.Some? then nodes[p[c.value]].firstKept else "")
    && (c.Some? ==> forall k :: c.value <= k < |p| ==> p[k] != stopAfter)
  }

  /** One more entry: the anchor is met, or the search goes on. */
  lemma LookOn(nodes: Nodes, p: seq<string>, cur: string, stopAfter: string, next: string)
    requires Looking(nodes, p, stopAfter) && cur in nodes && cur != ""
    requires next == if Anchors(nodes[cur]) && stopAfter == "" then nodes[cur].firstKept else stopAfter
    ensures if next != "" && cur == next then StopsAt(nodes, p + [cur], |p|) else Looking(nodes, p + [cur], next)
  {
    assert (p + [cur])[..|p|] == p;
  }

  lemma ShownOn(nodes: Nodes, p: seq<string>, cur: string, compactions: bool)
    requires cur in nodes
    ensures Shown(nodes, p + [cur], compactions)
            == Shown(nodes, p, compactions)
               + if nodes[cur].participates && Compacts(nodes[cur]) == compactions then [cur] else []
  {
    assert (p + [cur])[..|p|] == p;
  }

  /** A walk that ended well: at the anchor, or with no anchor to look for at the root. */
  ghost predicate LiveOn(nodes: Nodes, p: seq<string>, next: string) {
    if NearestAnchor(nodes, p).None? then next == "" else |p| > 0 && StopsAt(nodes, p, |p| - 1)
  }

  /** Not stopped yet. */
  ghost predicate Searching(nodes: Nodes, p: seq<string>) { exists stopAfter :: Looking(nodes, p, stopAfter) }

  /** Where LiveContext's walk p ends, and what it then answers. It meets no entry twice, and a cycle or a dangling
      parent is answered exactly when it is met before the anchor. */
  ghost predicate LiveEnd(nodes: Nodes, leaf: string, p: seq<string>, next: string, r: Branch) {
    && Climb(nodes, leaf, p, next) && Distinct(p)
    && match r
       case Branch(path) => LiveOn(nodes, p, next) && path == Emitted(nodes, p)
       case Cycle(at) => at == next && next in p && Searching(nodes, p)
       case Dangling(at) => at == next && next != "" && next !in nodes && Searching(nodes, p)
       case NoAnchor(anchor) => next == "" && anchor != "" && Looking(nodes, p, anchor)
       case NoEntry => false
  }

  ghost predicate LiveAnswer(nodes: Nodes, leaf: string, r: Branch) {
    if leaf !in nodes then r == NoEntry else exists p, next :: LiveEnd(nodes, leaf, p, next, r)
  }

  /** LiveContext: walk up as ReadBranch does, stop once the nearest compaction's anchor has been taken. */
  method LiveContext(nodes: Nodes, leaf: string) returns (r: Branch)
    requires "" !in nodes
    ensures LiveAnswer(nodes, leaf, r)
  {
    hide Climb, Looking, StopsAt, Shown;
    if leaf !in nodes { return NoEntry; }
    var stopAfter := "";
    var nonCompaction: seq<string>, compactions: seq<string> := [], [];
    var seen: set<string> := {};
    var cur := leaf;
    ghost var path: seq<string> := [];
    AtTheLeaf(nodes, leaf);
    while cur != ""
      invariant Climb(nodes, leaf, path, cur)
      invariant Distinct(path) && seen == set x | x in path
      invariant nonCompaction == Shown(nodes, path, false) && compactions == Shown(nodes, path, true)
      invariant Looking(nodes, path, stopAfter)
      decreases nodes.Keys - seen
    {
      if cur in seen {
        assert LiveEnd(nodes, leaf, path, cur, Cycle(cur));
        return Cycle(cur);
      }
      if cur !in nodes {
        assert LiveEnd(nodes, leaf, path, cur, Dangling(cur));
        return Dangling(cur);
      }
      seen := seen + {cur};
      var n := nodes[cur];
      ShownOn(nodes, path, cur, true);
      ShownOn(nodes, path, cur, false);
      ClimbOn(nodes, leaf, path, cur);
      if n.participates {
        if n.kind == "compaction" { compactions := compactions + [cur]; }
        else { nonCompaction := nonCompaction + [cur]; }
      }
      ghost var before, looked := stopAfter, path;
      path := path + [cur];
      if n.kind == "compaction" && n.firstKept != "" && stopAfter == "" { stopAfter := n.firstKept; }
      LookOn(nodes, looked, cur, before, stopAfter);
      if stopAfter != "" && cur == stopAfter {
        var kept := ReverseAll(nonCompaction);
        assert LiveEnd(nodes, leaf, path, n.parent, Branch(compactions + kept));
        return Branch(compactions + kept);
      }
      cur := n.parent;
    }
    if stopAfter != "" {
      assert LiveEnd(nodes, leaf, path, cur, NoAnchor(stopAfter));
      return NoAnchor(stopAfter);
    }
    var out := ReverseAll(nonCompaction);
    LookingForNothing(nodes, path);
    r := Branch(compactions + out);
    assert LiveEnd(nodes, leaf, path, cur, r);
  }

  lemma AtTheLeaf(nodes: Nodes, leaf: string)
    ensures Climb(nodes, leaf, [], leaf) && Looking(nodes, [], "")
    ensures Shown(nodes, [], true) == [] == Shown(nodes, [], false)
  {
  }

  lemma LookingForNothing(nodes: Nodes, p: seq<string>)
    requires Looking(nodes, p, "")
    ensures NearestAnchor(nodes, p).None?
  {
  }

  // ---- the two walks together ------------------------------------------------------------

  lemma {:induction false} NearestIsPrefixStable(nodes: Nodes, p: seq<string>, n: nat)
    requires n <= |p|
    ensures NearestAnchor(nodes, p[..n]).Some? ==> NearestAnchor(nodes, p) == NearestAnchor(nodes, p[..n])
    decreases |p| - n
  {
    if n == |p| {
      assert p[..n] == p;
    } else {
      assert p[..n + 1][..n] == p[..n];
      NearestIsPrefixStable(nodes, p, n + 1);
    }
  }

  /** The anchor of the nearest compaction lies on the path, at the compaction or above. */
  ghost predicate AnchorOnPath(nodes: Nodes, p: seq<string>) {
    var c := NearestAnchor(nodes, p);
    c.Some? ==> nodes[p[c.value]].firstKept in p[c.value..]
  }

  lemma StopsInPrefix(nodes: Nodes, q: seq<string>, n: nat)
    requires 0 < n <= |q| && StopsAt(nodes, q[..n], n - 1)
    ensures StopsAt(nodes, q, n - 1)
  {
    NearestIsPrefixStable(nodes, q, n);
  }

  /** Past the anchor no walk is still searching, and none stops again. */
  lemma StopsOnce(nodes: Nodes, q: seq<string>, j: nat)
    requires StopsAt(nodes, q, j) && j < |q| - 1
    ensures !Searching(nodes, q) && !StopsAt(nodes, q, |q| - 1)
  {
  }

  lemma LooksOrStops(nodes: Nodes, p: seq<string>)
    ensures Searching(nodes, p) && |p| > 0 ==> !StopsAt(nodes, p, |p| - 1)
    ensures forall anchor :: Looking(nodes, p, anchor) && anchor != "" ==> NearestAnchor(nodes, p).Some?
  {
  }

  lemma LooksForOne(nodes: Nodes, p: seq<string>, a: string, b: string)
    requires Looking(nodes, p, a) && Looking(nodes, p, b)
    ensures a == b
  {
  }

  /** Filtering a reversed path is reversing the filtered one. */
  lemma {:induction false} ShownReversed(nodes: Nodes, p: seq<string>, compactions: bool)
    ensures Shown(nodes, Reversed(p), compactions) == Reversed(Shown(nodes, p, compactions))
  {
    hide Compacts;
    if |p| > 0 {
      var n := |p| - 1;
      ShownReversed(nodes, p[..n], compactions);
      assert Reversed(p) == [p[n]] + Reversed(p[..n]);
      ShownCons(nodes, p[n], Reversed(p[..n]), compactions);
      assert [p[n]][..0] == [];
    }
  }

  lemma {:induction false} ShownCons(nodes: Nodes, x: string, p: seq<string>, compactions: bool)
    ensures Shown(nodes, [x] + p, compactions) == Shown(nodes, [x], compactions) + Shown(nodes, p, compactions)
  {
    if |p| == 0 {
      assert [x] + p == [x];
    } else {
      assert ([x] + p)[..|p|] == [x] + p[..|p| - 1];
      ShownCons(nodes, x, p[..|p| - 1], compactions);
    }
  }

  /** Of a stretch of a branch, root to leaf: its compactions nearest the leaf first, then its other entries in
      order. */
  function EmittedDown(nodes: Nodes, b: seq<string>): seq<string> {
    Reversed(Shown(nodes, b, true)) + Shown(nodes, b, false)
  }

  /** Where LiveContext's walk starts reading the branch, given root to leaf. */
  ghost predicate ReadsFrom(nodes: Nodes, branch: seq<string>, from: nat) {
    var p := Reversed(branch);
    from <= |branch|
    && if NearestAnchor(nodes, p).None? then from == 0 else from < |branch| && StopsAt(nodes, p, |branch| - 1 - from)
  }

  /** Whenever ReadBranch succeeds: LiveContext succeeds exactly when there is no anchoring compaction on the branch
      or the nearest one's anchor lies at or above it; it then answers that branch's participating compactions,
      nearest first, and after them the participating other entries, in branch order, from the anchor (or the
      root) on. */
  lemma LiveContextReadsTheBranch(nodes: Nodes, leaf: string, branch: seq<string>, r: Branch)
    requires "" !in nodes && leaf in nodes && Rooted(nodes, leaf, Reversed(branch)) && LiveAnswer(nodes, leaf, r)
    ensures r.Branch? || r.NoAnchor?
    ensures r.Branch? <==> AnchorOnPath(nodes, Reversed(branch))
    ensures r.Branch? ==>
              exists from: nat :: ReadsFrom(nodes, branch, from) && r.path == EmittedDown(nodes, branch[from..])
  {
    hide Climb, Looking, StopsAt, Shown;
    var q := Reversed(branch);
    var p, next :| LiveEnd(nodes, leaf, p, next, r);
    if r.Cycle? || r.Dangling? {
      assert CycleAbove(nodes, leaf, r.at) || DanglingAbove(nodes, leaf, r.at);
      RootedExcludes(nodes, leaf, q, r.at);
    }
    match r
    case Branch(path) => LiveBranch(nodes, leaf, branch, p, next);
    case NoAnchor(anchor) =>
      ClimbsAgree(nodes, leaf, p, "", q);
      ClimbsAgree(nodes, leaf, q, "", p);
      assert p == q;
      LookingInVain(nodes, p, anchor);
    case _ =>
  }

  /** An answered branch stops before the walk would meet an entry again or a parent that is not there, an answered
      fault is met before the stop: ends of one walk from one leaf are one end. */
  lemma LiveEndsOnce(nodes: Nodes, leaf: string, p: seq<string>, next: string, r: Branch, q: seq<string>, last: string,
                     u: Branch)
    requires "" !in nodes && LiveEnd(nodes, leaf, p, next, r) && LiveEnd(nodes, leaf, q, last, u) && |p| <= |q|
    ensures r == u
  {
    hide Looking, StopsAt, Shown;
    OneWayUp(nodes, leaf, p, next, q, last);
    if |p| < |q| {
      NotBefore(q, |p|);
      assert r.Branch?;
      StopsInPrefix(nodes, q, |p|);
      StopsOnce(nodes, q, |p| - 1);
    } else {
      assert p == q;
      LooksOrStops(nodes, p);
      if r.NoAnchor? && u.NoAnchor? { LooksForOne(nodes, p, r.anchor, u.anchor); }
    }
  }

  /** What LiveContext answers is fixed by the session: its contract leaves nothing open. */
  lemma LiveAnswersOnce(nodes: Nodes, leaf: string, r: Branch, u: Branch)
    requires "" !in nodes && LiveAnswer(nodes, leaf, r) && LiveAnswer(nodes, leaf, u)
    ensures r == u
  {
    hide LiveEnd;
    if leaf in nodes {
      var p, next :| LiveEnd(nodes, leaf, p, next, r);
      var q, last :| LiveEnd(nodes, leaf, q, last, u);
      if |p| <= |q| { LiveEndsOnce(nodes, leaf, p, next, r, q, last, u); }
      else { LiveEndsOnce(nodes, leaf, q, last, u, p, next, r); }
    }
  }

  lemma ReadAnswersOnce(nodes: Nodes, leaf: string, r: Branch, u: Branch)
    requires "" !in nodes && ReadAnswer(nodes, leaf, r) && ReadAnswer(nodes, leaf, u)
    ensures r == u
  {
    if leaf in nodes {
      var p, next :| ReadEnd(nodes, leaf, p, next, r);
      var q, last :| ReadEnd(nodes, leaf, q, last, u);
      ReadGoesFurther(nodes, leaf, p, next, q, last, u);
      ReadGoesFurther(nodes, leaf, q, last, p, next, r);
      OneWayUp(nodes, leaf, p, next, q, last);
    }
  }

  /** What a walk shows: its participating compactions as met, then its other participating entries from the last met
      to the first. */
  ghost predicate ShowsOf(nodes: Nodes, p: seq<string>, path: seq<string>, n: nat) {
    && n <= |path|
    && (forall k :: 0 <= k < n ==> path[k] in nodes && nodes[path[k]].kind == "compaction")
    && (forall k :: n <= k < |path| ==> path[k] in nodes && nodes[path[k]].kind != "compaction")
    && (forall id :: id in path <==> id in p && id in nodes && nodes[id].participates)
    && (forall i, j :: 0 <= i < j < n ==> MetBefore(p, path[i], path[j]))
    && (forall i, j :: n <= i < j < |path| ==> MetBefore(p, path[j], path[i]))
  }

  ghost predicate MetBefore(p: seq<string>, x: string, y: string) {
    exists a, b :: 0 <= a < b < |p| && p[a] == x && p[b] == y
  }

  lemma {:induction false} ShownMembers(nodes: Nodes, p: seq<string>, compactions: bool, id: string)
    ensures id in Shown(nodes, p, compactions) <==>
            id in p && id in nodes && nodes[id].participates && (nodes[id].kind == "compaction") == compactions
  {
    if |p| > 0 {
      ShownMembers(nodes, p[..|p| - 1], compactions, id);
      assert p == p[..|p| - 1] + [p[|p| - 1]];
    }
  }

  lemma {:induction false} ShownInOrder(nodes: Nodes, p: seq<string>, compactions: bool, i: nat, j: nat)
    requires i < j < |Shown(nodes, p, compactions)|
    ensures MetBefore(p, Shown(nodes, p, compactions)[i], Shown(nodes, p, compactions)[j])
  {
    var n := |p| - 1;
    var front := Shown(nodes, p[..n], compactions);
    if j < |front| {
      ShownInOrder(nodes, p[..n], compactions, i, j);
      var a, b :| 0 <= a < b < n && p[..n][a] == front[i] && p[..n][b] == front[j];
      assert p[a] == front[i] && p[b] == front[j];
    } else {
      ShownMembers(nodes, p[..n], compactions, front[i]);
      assert front[i] in front;
      var a :| 0 <= a < n && p[..n][a] == front[i];
      assert p[a] == front[i];
    }
  }

  /** What LiveContext answers shows exactly the participating entries it walked over. */
  lemma LiveContextShows(nodes: Nodes, leaf: string, r: Branch) returns (p: seq<string>, next: string, n: nat)
    requires leaf in nodes && LiveAnswer(nodes, leaf, r) && r.Branch?
    ensures LiveEnd(nodes, leaf, p, next, r) && ShowsOf(nodes, p, r.path, n)
  {
    hide Climb, LiveOn, Shown, MetBefore;
    p, next :| LiveEnd(nodes, leaf, p, next, r);
    var compactions, others := Shown(nodes, p, true), Shown(nodes, p, false);
    n := |compactions|;
    forall id ensures id in r.path <==> id in compactions || id in others {
      if id in others {
        var k :| 0 <= k < |others| && others[k] == id;
        assert r.path[n + |others| - 1 - k] == id;
      }
    }
    forall id ensures id in r.path <==> id in p && id in nodes && nodes[id].participates {
      ShownMembers(nodes, p, true, id);
      ShownMembers(nodes, p, false, id);
    }
    forall id | id in compactions ensures id in nodes && nodes[id].kind == "compaction" {
      ShownMembers(nodes, p, true, id);
    }
    forall id | id in others ensures id in nodes && nodes[id].kind != "compaction" {
      ShownMembers(nodes, p, false, id);
    }
    assert forall k :: 0 <= k < n ==> r.path[k] in compactions;
    assert forall k :: n <= k < |r.path| ==> r.path[k] in others;
    forall i, j | 0 <= i < j < n ensures MetBefore(p, r.path[i], r.path[j]) { ShownInOrder(nodes, p, true, i, j); }
    forall i, j | n <= i < j < |r.path| ensures MetBefore(p, r.path[j], r.path[i]) {
      ShownInOrder(nodes, p, false, |r.path| - 1 - j, |r.path| - 1 - i);
    }
  }

  /** The two walks find the same cycle or dangling parent, unless LiveContext stopped at its anchor before it. */
  lemma FaultsAgree(nodes: Nodes, leaf: string, live: Branch, read: Branch)
    requires "" !in nodes && LiveAnswer(nodes, leaf, live) && ReadAnswer(nodes, leaf, read)
    ensures live.Cycle? || live.Dangling? ==> read == live
    ensures read.Cycle? || read.Dangling? ==> live == read || live.Branch?
  {
    hide Looking, StopsAt, Shown;
    if leaf in nodes {
      var p, next :| LiveEnd(nodes, leaf, p, next, live);
      var q, last :| ReadEnd(nodes, leaf, q, last, read);
      ReadGoesFurther(nodes, leaf, p, next, q, last, read);
      if |p| < |q| { NotBefore(q, |p|); }
      OneWayUp(nodes, leaf, p, next, q, last);
    }
  }

  lemma ReadGoesFurther(nodes: Nodes, leaf: string, p: seq<string>, next: string, q: seq<string>, last: string,
                        r: Branch)
    requires "" !in nodes && Climb(nodes, leaf, p, next) && Distinct(p) && ReadEnd(nodes, leaf, q, last, r)
    ensures |p| <= |q|
  {
    if |q| < |p| {
      NotBefore(p, |q|);
      OneWayUp(nodes, leaf, q, last, p, next);
    }
  }

  lemma NotBefore(p: seq<string>, n: nat)
    requires Distinct(p) && n < |p|
    ensures p[n] !in p[..n]
  {
  }

  lemma LookingInVain(nodes: Nodes, p: seq<string>, anchor: string)
    requires Looking(nodes, p, anchor) && anchor != ""
    ensures !AnchorOnPath(nodes, p)
  {
    var c := NearestAnchor(nodes, p);
    assert forall k :: 0 <= k < |p| - c.value ==> p[c.value..][k] == p[c.value + k];
  }

  lemma LiveBranch(nodes: Nodes, leaf: string, branch: seq<string>, p: seq<string>, next: string)
    requires "" !in nodes && Rooted(nodes, leaf, Reversed(branch)) && Climb(nodes, leaf, p, next)
             && LiveOn(nodes, p, next)
    ensures AnchorOnPath(nodes, Reversed(branch))
    ensures exists from: nat ::
              ReadsFrom(nodes, branch, from) && Emitted(nodes, p) == EmittedDown(nodes, branch[from..])
  {
    hide Climb, Shown;
    var q := Reversed(branch);
    ClimbsAgree(nodes, leaf, p, next, q);
    var from := |branch| - |p|;
    assert Reversed(branch[from..]) == p;
    ReversedTwice(branch[from..]);
    assert branch[from..] == Reversed(p);
    ShownReversed(nodes, p, true);
    ShownReversed(nodes, p, false);
    ReversedTwice(Shown(nodes, p, true));
    if NearestAnchor(nodes, p).None? {
      if |p| < |q| { ClimbsAgree(nodes, leaf, q, "", q); RootedNonempty(nodes, leaf, q, |p|); }
      assert p == q;
    } else {
      StopsInPrefix(nodes, q, |p|);
      StopsMeansOnPath(nodes, q, |p| - 1);
    }
    assert ReadsFrom(nodes, branch, from);
  }

  lemma RootedNonempty(nodes: Nodes, leaf: string, q: seq<string>, k: nat)
    requires "" !in nodes && Rooted(nodes, leaf, q) && k < |q|
    ensures q[k] != ""
  {
  }

  lemma StopsMeansOnPath(nodes: Nodes, p: seq<string>, j: nat)
    requires StopsAt(nodes, p, j)
    ensures AnchorOnPath(nodes, p)
  {
    var c := NearestAnchor(nodes, p);
    assert p[c.value..][j - c.value] == p[j];
  }

  /** Without compactions or hidden entries the two walks answer alike. */
  lemma PlainSessionsReadAlike(nodes: Nodes, leaf: string, branch: seq<string>, r: Branch)
    requires "" !in nodes && leaf in nodes && Rooted(nodes, leaf, Reversed(branch)) && LiveAnswer(nodes, leaf, r)
    requires forall id :: id in branch ==> id in nodes && nodes[id].participates && !Compacts(nodes[id])
    ensures r == Branch(branch)
  {
    var p := Reversed(branch);
    assert forall k :: 0 <= k < |p| ==> p[k] in branch;
    assert NearestAnchor(nodes, p).None?;
    LiveContextReadsTheBranch(nodes, leaf, branch, r);
    AllShown(nodes, branch);
    assert branch[0..] == branch;
  }

  lemma {:induction false} AllShown(nodes: Nodes, p: seq<string>)
    requires forall id :: id in p ==> id in nodes && nodes[id].participates && !Compacts(nodes[id])
    ensures Shown(nodes, p, false) == p && Shown(nodes, p, true) == []
  {
    hide Shown;
    if |p| == 0 {
      NothingShown(nodes);
    } else {
      AllShown(nodes, p[..|p| - 1]);
      PlainShown(nodes, p);
    }
  }

  lemma NothingShown(nodes: Nodes)
    ensures Shown(nodes, [], false) == Shown(nodes, [], true) == []
  {
  }

  lemma PlainShown(nodes: Nodes, p: seq<string>)
    requires |p| > 0
    requires var id := p[|p| - 1]; id in nodes && nodes[id].participates && !Compacts(nodes[id])
    ensures Shown(nodes, p, false) == Shown(nodes, p[..|p| - 1], false) + [p[|p| - 1]]
    ensures Shown(nodes, p, true) == Shown(nodes, p[..|p| - 1], true)
  {
  }
}
