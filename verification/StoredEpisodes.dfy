/** From the stored tables to the reader: the episodes a Workspace holds, and the trajectories read behind them. */
module StoredEpisodes {
  import opened Order
  import opened Namespaces
  import opened Manifests
  import opened Options
  import opened Episodes
  import opened Trajectory
  import opened Workspace
  import opened Projection
  import P = Pairing

  // ---- one row per call ------------------------------------------------------------------------------

  /** Adapters of one source give one raw entry one list of calls, as far as their ordinals and ids go. */
  ghost predicate Regular(rules: Rules) {
    forall x: ParseInput, y: ParseInput, e: P.Entry, f: P.Entry :: OneRaw(rules, x, e, y, f) ==> P.SameCalls(e, f)
  }

  /** Two parses for one source that give one raw entry. */
  ghost predicate OneRaw(rules: Rules, x: ParseInput, e: P.Entry, y: ParseInput, f: P.Entry) {
    ParsedFrom(rules, x, e) && ParsedFrom(rules, y, f) && x.source == y.source && e.id == f.id && e.raw == f.raw
  }

  ghost predicate ParsedFrom(rules: Rules, x: ParseInput, e: P.Entry) {
    rules.parse(x).Some? && e in rules.parse(x).value.entries
  }

  /** Adapters that count an entry's calls, and read a raw entry one way, are regular. */
  lemma CountedIsRegular(rules: Rules)
    requires forall x: ParseInput, e: P.Entry :: ParsedFrom(rules, x, e) ==> P.OrdinalsDiffer(e)
    requires forall x: ParseInput, y: ParseInput, e: P.Entry, f: P.Entry ::
               OneRaw(rules, x, e, y, f) ==> P.CallList(e) == P.CallList(f)
    ensures Regular(rules)
  {
    hide P.CallList, P.SameCalls, P.OrdinalsDiffer, ParsedFrom;
    forall x: ParseInput, y: ParseInput, e: P.Entry, f: P.Entry | OneRaw(rules, x, e, y, f)
      ensures P.SameCalls(e, f)
    {
      P.CountedAreSame(e, f);
    }
  }

  predicate SamePlace(r: ToolRow, q: ToolRow) { r.session == q.session && r.entry == q.entry && r.ordinal == q.ordinal }

  ghost predicate PlacesDiffer(tools: seq<ToolRow>) {
    forall i, j :: 0 <= i < j < |tools| ==> !SamePlace(tools[i], tools[j])
  }

  lemma OnePlaceOneKey(t: Tables, rules: Rules, r: ToolRow, q: ToolRow)
    requires Regular(rules) && Traced(t, rules, r) && Traced(t, rules, q) && SamePlace(r, q)
    ensures SameKey(r, q)
  {
    hide P.CallList, P.OrdinalKey;
    var x: ParseInput, e: P.Entry, c: P.Call :| ParsedCall(t, rules, r, x, e, c);
    var y: ParseInput, f: P.Entry, d: P.Call :| ParsedCall(t, rules, q, y, f, d);
    assert OneRaw(rules, x, e, y, f);
  }

  lemma PlacesAreKeys(t: Tables, rules: Rules)
    requires RowsSound(t, rules) && Regular(rules)
    ensures PlacesDiffer(t.tools)
  {
    hide Regular, Traced;
    forall i, j | 0 <= i < j < |t.tools| ensures !SamePlace(t.tools[i], t.tools[j]) {
      if SamePlace(t.tools[i], t.tools[j]) { OnePlaceOneKey(t, rules, t.tools[i], t.tools[j]); }
    }
  }

  /** x is read off this stored call. */
  predicate ReadsAs(r: ToolRow, entries: map<EntryKey, EntryRow>, rules: Rules, sk: SessionKey, x: Row) {
    r.session == sk && EntryKey(sk, r.entry) in entries && x == CallRow(r, entries[EntryKey(sk, r.entry)].line, rules)
  }

  lemma {:induction false} CallRowsRead(tools: seq<ToolRow>, entries: map<EntryKey, EntryRow>, rules: Rules,
                                        sk: SessionKey,
                                        x: Row)
    ensures x in CallRows(tools, entries, rules, sk) <==> exists r :: r in tools && ReadsAs(r, entries, rules, sk, x)
  {
    hide CallRow;
    if |tools| > 0 {
      var n := |tools| - 1;
      CallRowsRead(tools[..n], entries, rules, sk, x);
      assert forall r :: r in tools <==> r in tools[..n] || r == tools[n];
      assert tools[n] in tools;
    }
  }

  lemma {:induction false} PlacesAreCalls(tools: seq<ToolRow>, entries: map<EntryKey, EntryRow>, rules: Rules,
                                          sk: SessionKey)
    requires PlacesDiffer(tools)
    ensures Keyed(CallRows(tools, entries, rules, sk))
  {
    if |tools| > 0 {
      var n := |tools| - 1;
      PlacesAreCalls(tools[..n], entries, rules, sk);
      var rows := CallRows(tools[..n], entries, rules, sk);
      forall k | 0 <= k < |rows| && tools[n].session == sk
        ensures !(rows[k].entry == tools[n].entry && rows[k].ordinal == tools[n].ordinal)
      {
        CallRowsRead(tools[..n], entries, rules, sk, rows[k]);
        var r :| r in tools[..n] && ReadsAs(r, entries, rules, sk, rows[k]);
        assert !SamePlace(r, tools[n]);
      }
    }
  }

  /** In a sound state an entry and an ordinal name one stored call of a session. */
  lemma CallsAreKeyed(t: Tables, rules: Rules, sk: SessionKey)
    requires RowsSound(t, rules) && Regular(rules)
    ensures Keyed(Calls(t, rules, sk))
  {
    hide RowsSound, Regular, PlacesDiffer, Keyed, CallRows;
    PlacesAreKeys(t, rules);
    PlacesAreCalls(t.tools, t.entries, rules, sk);
  }

  // ---- stored episodes and trajectories --------------------------------------------------------------

  function Calls(t: Tables, rules: Rules, sk: SessionKey): seq<Row> { CallRows(t.tools, t.entries, rules, sk) }

  ghost predicate OpeningsDiffer(eps: seq<Episode>) {
    forall i, j :: 0 <= i < j < |eps| ==> !SameOpening(eps[i], eps[j])
  }

  lemma {:induction false} KeptAll(eps: seq<Episode>)
    requires OpeningsDiffer(eps)
    ensures Kept(eps) == eps
  {
    if |eps| > 0 {
      var n := |eps| - 1;
      assert OpeningsDiffer(eps[..n]);
      KeptAll(eps[..n]);
      assert eps == eps[..n] + [eps[n]];
      assert forall k :: 0 <= k < n ==> eps[..n][k] == eps[k];
    }
  }

  lemma OpeningsHowever(a: seq<Episode>, b: seq<Episode>)
    requires OpeningsDiffer(a) && multiset(a) == multiset(b)
    ensures OpeningsDiffer(b)
  {
    DistinctMultiset(a);
    forall i, j | 0 <= i < j < |b| ensures !SameOpening(b[i], b[j]) {
      assert b[i] in multiset(a) && b[j] in multiset(a);
      if b[i] == b[j] { RepeatCounts(b, i, j); }
    }
  }

  lemma ScannedOpeningsDiffer(s: seq<Row>, cfg: Config)
    requires Sorted(s, Before) && Keyed(s)
    ensures OpeningsDiffer(EpisodesOf(s, cfg))
  {
    hide Sorted, Keyed, FirstCandidate;
    var eps := EpisodesOf(s, cfg);
    forall i, j | 0 <= i < j < |eps| ensures !SameOpening(eps[i], eps[j]) { OpenersAreDistinct(s, cfg, i, j); }
  }

  /** When each call row has its own entry and ordinal, insert-or-ignore drops no episode: the stored ones are those
      of the scan, in the order of their opening. */
  lemma StoredEpisodesAreScanned(t: Tables, rules: Rules, sk: SessionKey)
    requires Keyed(Calls(t, rules, sk))
    ensures var scanned := EpisodesOf(SortBy(Calls(t, rules, sk), Before), DEFAULT_CONFIG);
            EpisodesStored(t, rules, sk) == SortBy(scanned, ByOpening)
            && multiset(EpisodesStored(t, rules, sk)) == multiset(scanned)
  {
    hide Keyed, Before, Sorted, ByOpening, CallRows, EpisodesOf, SortBy, Kept;
    var rows := Calls(t, rules, sk);
    var s := SortBy(rows, Before);
    BeforeIsStrict();
    SortBySorted(rows, Before);
    SortByPermutes(rows, Before);
    KeyedHowever(rows, s);
    var scanned := EpisodesOf(s, DEFAULT_CONFIG);
    ScannedOpeningsDiffer(s, DEFAULT_CONFIG);
    SortByPermutes(scanned, ByOpening);
    OpeningsHowever(scanned, SortBy(scanned, ByOpening));
    KeptAll(SortBy(scanned, ByOpening));
  }

  lemma {:induction false} MatchingCounts(eps: seq<Episode>, entry: string, ordinal: Option<int>, x: Episode)
    ensures multiset(Matching(eps, entry, ordinal))[x] == if ResolvedIn(x, entry, ordinal) then multiset(eps)[x] else 0
  {
    if |eps| > 0 {
      MatchingCounts(eps[..|eps| - 1], entry, ordinal, x);
      assert eps == eps[..|eps| - 1] + [eps[|eps| - 1]];
    }
  }

  lemma MatchingHowever(a: seq<Episode>, b: seq<Episode>, entry: string, ordinal: Option<int>, e: Episode)
    requires multiset(a) == multiset(b) && Matching(a, entry, ordinal) == [e]
    ensures Matching(b, entry, ordinal) == [e]
  {
    var m := Matching(b, entry, ordinal);
    forall x ensures multiset(m)[x] == multiset([e])[x] {
      MatchingCounts(a, entry, ordinal, x);
      MatchingCounts(b, entry, ordinal, x);
    }
    assert multiset(m) == multiset([e]);
    assert |m| == |multiset(m)| == 1;
    assert m[0] in multiset(m);
  }

  /** In any state reached by ingesting: for each resolved episode stored for a session, asked for by its resolving
      call, the trajectory over the session's calls read in any order is the opener followed by exactly the
      families of the stored path. */
  lemma StoredTrajectoryAgrees(t: Tables, rules: Rules, ok: Provenance, sk: SessionKey, read: seq<Row>, e: Episode)
    requires Projection.Sound(t, rules, ok) && Regular(rules) && sk in t.sessions
    requires multiset(read) == multiset(Calls(t, rules, sk))
    requires e in t.episodes[sk] && e.resolution.Some?
    ensures Matching(t.episodes[sk], e.resolution.value.entry, Some(e.resolution.value.ordinal)) == [e]
    ensures var steps := ArcOf(SortBy(read, Before), e);
            && Families(steps) == [e.family] + e.resolution.value.path
            && steps[0].entry == e.entry && steps[0].ordinal == e.ordinal && steps[0].isError
            && !steps[|steps| - 1].isError
  {
    CallsAreKeyed(t, rules, sk);
    hide Agree, Rooted, Backed, OneSession, RowsSound, Regular, Keyed, Before;
    hide CallRows, EpisodesOf, EpisodesStored, SortBy, ArcOf, Families, Matching;
    var rows := Calls(t, rules, sk);
    var scanned := EpisodesOf(SortBy(rows, Before), DEFAULT_CONFIG);
    StoredEpisodesAreScanned(t, rules, sk);
    assert e in multiset(t.episodes[sk]);
    assert e in multiset(scanned);
    TrajectoryAgrees(rows, read, DEFAULT_CONFIG, e);
    MatchingHowever(scanned, t.episodes[sk], e.resolution.value.entry, Some(e.resolution.value.ordinal), e);
  }

  // ---- what a session's stored episodes are -----------------------------------------------------------

  /** A call as the episode builder reads it: a tool row of the session, on its entry's line. */
  ghost predicate CallTold(t: Tables, rules: Rules, sk: SessionKey, r: ToolRow, x: Row) {
    && r in t.tools && r.session == sk && EntryKey(sk, r.entry) in t.entries
    && x.entry == r.entry && x.ordinal == r.ordinal && x.line == t.entries[EntryKey(sk, r.entry)].line
    && x.tool == r.tool && x.family == r.family && x.signature == r.signature && x.isError == r.isError
    && x.project == r.project && x.stamp.text == r.at && x.stamp.instant == rules.instant(r.at)
  }

  lemma CallsTold(t: Tables, rules: Rules, sk: SessionKey, x: Row)
    ensures x in Calls(t, rules, sk) <==> exists r :: CallTold(t, rules, sk, r, x)
  {
    CallRowsRead(t.tools, t.entries, rules, sk, x);
    forall r | r in t.tools ensures ReadsAs(r, t.entries, rules, sk, x) <==> CallTold(t, rules, sk, r, x) {
      if CallTold(t, rules, sk, r, x) {
        var y := CallRow(r, t.entries[EntryKey(sk, r.entry)].line, rules);
        assert x.stamp == y.stamp && x == y;
      }
    }
  }

  lemma ByOpeningIsStrict()
    ensures StrictOrder(ByOpening)
  {
    LessIsStrict();
    forall a: Episode, b: Episode, c: Episode | ByOpening(a, c) ensures ByOpening(a, b) || ByOpening(b, c) {
      LessTotal(a.openedAt, b.openedAt);
      LessTotal(b.openedAt, c.openedAt);
      LessTotal(a.entry, b.entry);
      LessTotal(b.entry, c.entry);
    }
  }

  lemma NotLaterMeans(a: Episode, b: Episode)
    ensures !ByOpening(b, a) <==> NotLater(a, b)
  {
    LessIff(a.openedAt, b.openedAt);
    LessIff(a.entry, b.entry);
    LessTotal(a.openedAt, b.openedAt);
    LessTotal(a.entry, b.entry);
    Opposites(a.openedAt, b.openedAt);
    Opposites(a.entry, b.entry);
  }

  lemma Opposites(a: string, b: string)
    ensures !(Less(a, b) && Less(b, a)) && !Less(a, a)
  {
    LessIrreflexive(a);
    if Less(a, b) && Less(b, a) { LessTransitive(a, b, a); }
  }

  /** In every reached state the episodes held for a session are the ones its stored calls tell, each once, in the
      order of their opening. */
  lemma HeldEpisodesTold(t: Tables, rules: Rules, ok: Provenance, sk: SessionKey)
    requires Projection.Sound(t, rules, ok) && Regular(rules) && sk in t.sessions
    ensures sk in t.episodes && OpenedInOrder(t.episodes[sk])
    ensures exists eps :: SessionTold(SortBy(Calls(t, rules, sk), Before), 40, 1_800_000_000_000, eps)
                          && multiset(t.episodes[sk]) == multiset(eps)
  {
    hide Agree, Rooted, Backed, OneSession, RowsSound, Regular, Keyed, Before, CallRows, EpisodesOf, EpisodesStored;
    hide SortBy, ByOpening, SessionTold, NotLater;
    CallsAreKeyed(t, rules, sk);
    StoredEpisodesAreScanned(t, rules, sk);
    DefaultEpisodesMean(Calls(t, rules, sk));
    ByOpeningIsStrict();
    SortBySorted(EpisodesOf(SortBy(Calls(t, rules, sk), Before), DEFAULT_CONFIG), ByOpening);
    var eps := t.episodes[sk];
    forall i, j | 0 <= i < j < |eps| ensures NotLater(eps[i], eps[j]) { NotLaterMeans(eps[i], eps[j]); }
  }

  /** Episodes come by the text of their opening time, then by entry id, then by ordinal. */
  ghost predicate OpenedInOrder(eps: seq<Episode>) {
    forall i, j :: 0 <= i < j < |eps| ==> NotLater(eps[i], eps[j])
  }

  ghost predicate NotLater(a: Episode, b: Episode) {
    || (exists k: nat :: DecidedAt(a.openedAt, b.openedAt, k))
    || (a.openedAt == b.openedAt && exists k: nat :: DecidedAt(a.entry, b.entry, k))
    || (a.openedAt == b.openedAt && a.entry == b.entry && a.ordinal <= b.ordinal)
  }
}
