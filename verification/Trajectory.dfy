/** The trajectory reader: from a resolving call back to the failure that opened the episode, out of the stored rows. */
module Trajectory {
  import opened Order
  import opened Namespaces
  import opened Options
  import opened Episodes

  datatype Step = Step(entry: string, ordinal: int, family: string, isError: bool, at: string)

  datatype Arc = Steps(steps: seq<Step>) | Ambiguous

  function StepOf(r: Row): Step { Step(r.entry, r.ordinal, r.family, r.isError, r.stamp.text) }

  /** Whether an episode was resolved in this entry and, when one is asked for, by this call of it. */
  predicate ResolvedIn(e: Episode, entry: string, ordinal: Option<int>) {
    e.resolution.Some? && e.resolution.value.entry == entry
    && (ordinal.Some? ==> e.resolution.value.ordinal == ordinal.value)
  }

  function Matching(eps: seq<Episode>, entry: string, ordinal: Option<int>): seq<Episode> {
    if |eps| == 0 then []
    else Matching(eps[..|eps| - 1], entry, ordinal)
         + if ResolvedIn(eps[|eps| - 1], entry, ordinal) then [eps[|eps| - 1]] else []
  }

  predicate At(r: Row, entry: string, ordinal: int) { r.entry == entry && r.ordinal == ordinal }

  /** The last position of a call among rows. */
  function LastAt(s: seq<Row>, entry: string, ordinal: int): (p: Option<nat>)
    ensures p.Some? ==> p.value < |s| && At(s[p.value], entry, ordinal)
    ensures forall i :: 0 <= i < |s| && At(s[i], entry, ordinal) ==> p.Some? && i <= p.value
  {
    if |s| == 0 then None
    else if At(s[|s| - 1], entry, ordinal) then Some(|s| - 1)
    else LastAt(s[..|s| - 1], entry, ordinal)
  }

  /** The calls from the opener to the resolving call. */
  function Between(s: seq<Row>, i: nat, j: nat): seq<Step>
    requires i <= j < |s|
  {
    seq(j - i + 1, k requires 0 <= k <= j - i => StepOf(s[i + k]))
  }

  function ArcOf(s: seq<Row>, e: Episode): seq<Step>
    requires e.resolution.Some?
  {
    var i := LastAt(s, e.entry, e.ordinal);
    var j := LastAt(s, e.resolution.value.entry, e.resolution.value.ordinal);
    if i.None? || j.None? || j.value < i.value then [] else Between(s, i.value, j.value)
  }

  lemma {:induction false} MatchingResolved(eps: seq<Episode>, entry: string, ordinal: Option<int>)
    ensures forall e :: e in Matching(eps, entry, ordinal) <==> e in eps && ResolvedIn(e, entry, ordinal)
  {
    if |eps| > 0 {
      MatchingResolved(eps[..|eps| - 1], entry, ordinal);
      assert eps == eps[..|eps| - 1] + [eps[|eps| - 1]];
    }
  }

  /** The episode rows a query by resolving entry, and call if given, returns. */
  method FindEpisodes(eps: seq<Episode>, entry: string, ordinal: Option<int>) returns (matches: seq<Episode>)
    ensures matches == Matching(eps, entry, ordinal)
  {
    matches := [];
    for i := 0 to |eps|
      invariant matches == Matching(eps[..i], entry, ordinal)
    {
      assert eps[..i + 1][..i] == eps[..i];
      if ResolvedIn(eps[i], entry, ordinal) { matches := matches + [eps[i]]; }
    }
    assert eps[..|eps|] == eps;
  }

  /** One walk over the sorted rows finds both ends of the arc. */
  method Locate(s: seq<Row>, e: Episode) returns (openIdx: int, resolveIdx: int)
    requires e.resolution.Some?
    ensures -1 <= openIdx < |s| && -1 <= resolveIdx < |s|
    ensures LastAt(s, e.entry, e.ordinal) == if openIdx == -1 then None else Some(openIdx)
    ensures LastAt(s, e.resolution.value.entry, e.resolution.value.ordinal)
            == if resolveIdx == -1 then None else Some(resolveIdx)
  {
    openIdx, resolveIdx := -1, -1;
    var r := e.resolution.value;
    for i := 0 to |s|
      invariant -1 <= openIdx < i && -1 <= resolveIdx < i
      invariant LastAt(s[..i], e.entry, e.ordinal) == if openIdx == -1 then None else Some(openIdx)
      invariant LastAt(s[..i], r.entry, r.ordinal) == if resolveIdx == -1 then None else Some(resolveIdx)
    {
      assert s[..i + 1][..i] == s[..i];
      if At(s[i], e.entry, e.ordinal) { openIdx := i; }
      if At(s[i], r.entry, r.ordinal) { resolveIdx := i; }
    }
    assert s[..|s|] == s;
  }

  /** The episode a caller means by an entry, or by one call of it. */
  ghost predicate Meant(e: Episode, entry: string, ordinal: Option<int>) {
    match e.resolution
    case None => false
    case Some(r) => r.entry == entry && (ordinal == None || ordinal == Some(r.ordinal))
  }

  ghost predicate NoneMeant(eps: seq<Episode>, entry: string, ordinal: Option<int>) {
    forall i :: 0 <= i < |eps| ==> !Meant(eps[i], entry, ordinal)
  }

  ghost predicate SeveralMeant(eps: seq<Episode>, entry: string, ordinal: Option<int>) {
    exists i, j :: 0 <= i < j < |eps| && Meant(eps[i], entry, ordinal) && Meant(eps[j], entry, ordinal)
  }

  lemma {:induction false} MatchingCounts(eps: seq<Episode>, entry: string, ordinal: Option<int>)
    ensures |Matching(eps, entry, ordinal)| == 0 <==> NoneMeant(eps, entry, ordinal)
    ensures |Matching(eps, entry, ordinal)| > 1 <==> SeveralMeant(eps, entry, ordinal)
  {
    if |eps| > 0 {
      var n := |eps| - 1;
      MatchingCounts(eps[..n], entry, ordinal);
      assert forall i :: 0 <= i < n ==> eps[..n][i] == eps[i];
      assert ResolvedIn(eps[n], entry, ordinal) <==> Meant(eps[n], entry, ordinal);
      hide Meant, ResolvedIn;
      if !NoneMeant(eps[..n], entry, ordinal) && Meant(eps[n], entry, ordinal) {
        var i :| 0 <= i < n && Meant(eps[..n][i], entry, ordinal);
        assert Meant(eps[i], entry, ordinal);
      }
    }
  }

  lemma TheOneMeant(eps: seq<Episode>, entry: string, ordinal: Option<int>)
    ensures forall i :: 0 <= i < |eps| && Meant(eps[i], entry, ordinal) ==>
              eps[i].resolution.Some? && eps[i] in Matching(eps, entry, ordinal)
  {
    MatchingResolved(eps, entry, ordinal);
    hide Matching;
  }

  /** IncidentTrajectory: find the one episode meant, sort the session's calls as the scan does, walk from
      opener to resolving call. */
  method IncidentTrajectory(eps: seq<Episode>, rows: seq<Row>, entry: string, ordinal: Option<int>) returns (r: Arc)
    ensures r.Ambiguous? <==> |Matching(eps, entry, ordinal)| > 1
    ensures |Matching(eps, entry, ordinal)| == 0 ==> r == Steps([])
    ensures r.Ambiguous? <==> SeveralMeant(eps, entry, ordinal)
    ensures NoneMeant(eps, entry, ordinal) ==> r == Steps([])
    ensures forall e :: Matching(eps, entry, ordinal) == [e] && e.resolution.Some? ==>
              r == Steps(ArcOf(SortBy(rows, Before), e))
    ensures forall i :: 0 <= i < |eps| && Meant(eps[i], entry, ordinal) && r.Steps? ==>
              eps[i].resolution.Some? && r == Steps(ArcOf(SortBy(rows, Before), eps[i]))
  {
    MatchingCounts(eps, entry, ordinal);
    TheOneMeant(eps, entry, ordinal);
    hide SortBy, Before, LastAt, Matching, NoneMeant, SeveralMeant, Meant;
    var matches := FindEpisodes(eps, entry, ordinal);
    if |matches| == 0 { return Steps([]); }
    if |matches| > 1 { return Ambiguous; }
    MatchingResolved(eps, entry, ordinal);
    var found := matches[0];
    assert found in matches && matches == [found];
    var s := SortBy(rows, Before);
    var openIdx, resolveIdx := Locate(s, found);
    if openIdx == -1 || resolveIdx == -1 || resolveIdx < openIdx { return Steps([]); }
    var steps: seq<Step> := [];
    for i := openIdx to resolveIdx + 1
      invariant steps == Between(s, openIdx, resolveIdx)[..i - openIdx]
    {
      steps := steps + [StepOf(s[i])];
    }
    r := Steps(steps);
  }

  // ---- agreement with the episodes -----------------------------------------------

  function Families(steps: seq<Step>): seq<string> { seq(|steps|, k requires 0 <= k < |steps| => steps[k].family) }

  lemma KeyedHowever(a: seq<Row>, b: seq<Row>)
    requires Keyed(a) && multiset(a) == multiset(b)
    ensures Keyed(b)
  {
    DistinctMultiset(a);
    forall i, j | 0 <= i < j < |b| ensures !SameCall(b[i], b[j]) {
      assert b[i] in multiset(a) && b[j] in multiset(a);
      if b[i] == b[j] { RepeatCounts(b, i, j); }
    }
  }

  lemma KeyedPosition(s: seq<Row>, i: nat)
    requires Keyed(s) && i < |s|
    ensures LastAt(s, s[i].entry, s[i].ordinal) == Some(i)
  {
    var p := LastAt(s, s[i].entry, s[i].ordinal);
    assert At(s[i], s[i].entry, s[i].ordinal);
    if p.value != i { assert SameCall(s[i], s[p.value]); }
  }

  /** Where the k-th episode opened, and what resolved it if anything did. */
  lemma EpisodeSites(s: seq<Row>, cfg: Config, k: nat) returns (i: nat, j: Option<nat>)
    requires k < |EpisodesOf(s, cfg)|
    ensures i < |s| && i == Openers(s, |s|)[k] && j == FirstCandidate(s, cfg, i, |s|)
    ensures var e := EpisodesOf(s, cfg)[k];
            && e.entry == s[i].entry && e.ordinal == s[i].ordinal && e.family == s[i].family
            && e.resolution == if j.Some? then Some(ResolvedBy(s, i, j.value)) else None
  {
    i := Openers(s, |s|)[k];
    j := FirstCandidate(s, cfg, i, |s|);
  }

  /** Asked for by its resolving call, an episode is the only match. */
  lemma OneMatch(s: seq<Row>, cfg: Config, k: nat)
    requires Sorted(s, Before) && Keyed(s)
    requires k < |EpisodesOf(s, cfg)| && EpisodesOf(s, cfg)[k].resolution.Some?
    ensures var eps := EpisodesOf(s, cfg);
            var r := eps[k].resolution.value;
            Matching(eps, r.entry, Some(r.ordinal)) == [eps[k]]
  {
    var eps := EpisodesOf(s, cfg);
    var r := eps[k].resolution.value;
    forall m | 0 <= m < |eps| && m != k ensures !ResolvedIn(eps[m], r.entry, Some(r.ordinal)) {
      var i, j := EpisodeSites(s, cfg, k);
      var i', j' := EpisodeSites(s, cfg, m);
      if ResolvedIn(eps[m], r.entry, Some(r.ordinal)) {
        KeyedPosition(s, j.value);
        KeyedPosition(s, j'.value);
        if k < m { OpenersAreDistinct(s, cfg, k, m); } else { OpenersAreDistinct(s, cfg, m, k); }
      }
    }
    MatchingOne(eps, r.entry, Some(r.ordinal), k);
  }

  lemma {:induction false} MatchingNone(eps: seq<Episode>, entry: string, ordinal: Option<int>)
    requires forall e :: e in eps ==> !ResolvedIn(e, entry, ordinal)
    ensures Matching(eps, entry, ordinal) == []
  {
    if |eps| > 0 { MatchingNone(eps[..|eps| - 1], entry, ordinal); }
  }

  lemma {:induction false} MatchingOne(eps: seq<Episode>, entry: string, ordinal: Option<int>, k: nat)
    requires k < |eps| && forall m :: 0 <= m < |eps| ==> (ResolvedIn(eps[m], entry, ordinal) <==> m == k)
    ensures Matching(eps, entry, ordinal) == [eps[k]]
  {
    var n := |eps| - 1;
    if k < n {
      MatchingOne(eps[..n], entry, ordinal, k);
    } else {
      MatchingNone(eps[..n], entry, ordinal);
    }
  }

  /** For every resolved episode of a session, asked for by its resolving call and whatever order the rows are
      read in, the trajectory is the opener followed by exactly the families of the stored resolution path. */
  lemma TrajectoryAgrees(rows: seq<Row>, read: seq<Row>, cfg: Config, e: Episode)
    requires Keyed(rows) && multiset(read) == multiset(rows)
    requires e in EpisodesOf(SortBy(rows, Before), cfg) && e.resolution.Some?
    ensures var eps := EpisodesOf(SortBy(rows, Before), cfg);
            Matching(eps, e.resolution.value.entry, Some(e.resolution.value.ordinal)) == [e]
    ensures var steps := ArcOf(SortBy(read, Before), e);
            && Families(steps) == [e.family] + e.resolution.value.path
            && steps[0].entry == e.entry && steps[0].ordinal == e.ordinal && steps[0].isError
            && !steps[|steps| - 1].isError && steps[|steps| - 1].at == e.resolution.value.at
  {
    hide SortBy, Before, Keyed, Opens;
    BeforeIsStrict();
    SortBySorted(rows, Before);
    SortByPermutes(rows, Before);
    ReadOrderIgnored(rows, read, cfg);
    var s := SortBy(rows, Before);
    KeyedHowever(rows, s);
    var k :| 0 <= k < |EpisodesOf(s, cfg)| && EpisodesOf(s, cfg)[k] == e;
    OneMatch(s, cfg, k);
    ArcMeansPath(s, cfg, k);
  }

  lemma FamiliesBetween(s: seq<Row>, i: nat, j: nat)
    requires i < j < |s|
    ensures Families(Between(s, i, j)) == [s[i].family] + PathTo(s, i, j)
  {
    var steps := Between(s, i, j);
    forall k | 0 <= k < |steps| ensures Families(steps)[k] == ([s[i].family] + PathTo(s, i, j))[k] {
      assert steps[k] == StepOf(s[i + k]);
    }
  }

  lemma ArcMeansPath(s: seq<Row>, cfg: Config, k: nat)
    requires Keyed(s) && k < |EpisodesOf(s, cfg)| && EpisodesOf(s, cfg)[k].resolution.Some?
    ensures var e := EpisodesOf(s, cfg)[k];
            var steps := ArcOf(s, e);
            && Families(steps) == [e.family] + e.resolution.value.path
            && steps[0].entry == e.entry && steps[0].ordinal == e.ordinal && steps[0].isError
            && !steps[|steps| - 1].isError && steps[|steps| - 1].at == e.resolution.value.at
  {
    var i, j := EpisodeSites(s, cfg, k);
    KeyedPosition(s, i);
    KeyedPosition(s, j.value);
    hide LastAt, Keyed, FirstCandidate;
    var steps := Between(s, i, j.value);
    assert steps[0] == StepOf(s[i]);
    assert steps[|steps| - 1] == StepOf(s[j.value]);
    FamiliesBetween(s, i, j.value);
  }
}
