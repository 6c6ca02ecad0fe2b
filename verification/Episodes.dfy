/** Failure episodes: what a session's tool calls mean as failures and fixes, and the one pass that finds them. */
module Episodes {
  import opened Order
  import opened Options

  /** A timestamp as stored, and the instant RFC 3339 parsing reads from it, in nanoseconds. */
  datatype Stamp = Stamp(text: string, instant: Option<int>)

  datatype Row = Row(entry: string, ordinal: int, line: int, tool: string, family: string, signature: string,
                     isError: bool, stamp: Stamp, project: string)

  datatype Resolution = Resolution(entry: string, ordinal: int, path: seq<string>, at: string)

  /** resolution is None for an abandoned episode. */
  datatype Episode = Episode(entry: string, ordinal: int, tool: string, family: string, signature: string,
                             project: string, openedAt: string, resolution: Option<Resolution>)

  datatype Config = Config(maxGap: int, maxSteps: int)

  const DEFAULT_CONFIG := Config(30 * 60 * 1_000_000_000, 40)

  const MAX_DURATION := 0x7fff_ffff_ffff_ffff
  const MIN_DURATION := -0x8000_0000_0000_0000

  /** time.Time.Sub: a difference no duration can hold saturates. */
  function Since(later: int, earlier: int): (d: int)
    ensures MIN_DURATION <= d <= MAX_DURATION
    ensures MIN_DURATION <= later - earlier <= MAX_DURATION ==> d == later - earlier
    ensures d < 0 <==> later < earlier
  {
    if later - earlier > MAX_DURATION then MAX_DURATION
    else if later - earlier < MIN_DURATION then MIN_DURATION
    else later - earlier
  }

  // ---- the order of a session's calls -----------------------------------------

  predicate SameInstant(a: Stamp, b: Stamp) { a.instant == b.instant }

  /** A stamp that does not parse is earliest. */
  predicate Earlier(a: Stamp, b: Stamp) {
    if a.instant.None? then b.instant.Some? else b.instant.Some? && a.instant.value < b.instant.value
  }

  predicate Before(a: Row, b: Row) {
    if !SameInstant(a.stamp, b.stamp) then Earlier(a.stamp, b.stamp)
    else if a.line != b.line then a.line < b.line
    else if a.entry != b.entry then Less(a.entry, b.entry)
    else a.ordinal < b.ordinal
  }

  lemma BeforeIsStrict()
    ensures StrictOrder(Before)
  {
    LessIsStrict();
    forall a: Row, b: Row, c: Row | Before(a, b) && Before(b, c) ensures Before(a, c) {
      if Less(a.entry, b.entry) && Less(b.entry, c.entry) {
        LessTransitive(a.entry, b.entry, c.entry);
        LessIrreflexive(a.entry);
      }
    }
    forall a: Row, b: Row, c: Row | Before(a, c) ensures Before(a, b) || Before(b, c) {
      LessTotal(a.entry, b.entry);
      LessTotal(b.entry, c.entry);
    }
  }

  predicate SameCall(a: Row, b: Row) { a.entry == b.entry && a.ordinal == b.ordinal }

  /** One row per (entry, ordinal). */
  ghost predicate Keyed(rows: seq<Row>) {
    forall i, j :: 0 <= i < j < |rows| ==> !SameCall(rows[i], rows[j])
  }

  lemma BeforeSeparates(rows: seq<Row>)
    requires Keyed(rows)
    ensures forall x, y :: x in rows && y in rows && !Before(x, y) && !Before(y, x) ==> x == y
  {
    forall x, y | x in rows && y in rows && !Before(x, y) && !Before(y, x) ensures x == y {
      LessTotal(x.entry, y.entry);
    }
  }

  // ---- the declarative reading ---------------------------------------------------

  predicate Related(s: seq<Row>, i: nat, j: nat)
    requires i < |s| && j < |s|
  {
    s[i].family == s[j].family
  }

  /** k is the same-family call just before i. */
  ghost predicate PreviousOf(s: seq<Row>, i: nat, k: nat)
    requires i < |s|
  {
    k < i && Related(s, k, i) && forall m :: k < m < i ==> !Related(s, m, i)
  }

  /** An episode opens at a failure whose previous same-family call, if any, is not a failure. */
  ghost predicate Opens(s: seq<Row>, i: nat)
    requires i < |s|
  {
    s[i].isError && forall k: nat :: PreviousOf(s, i, k) ==> !s[k].isError
  }

  predicate WithinBudget(s: seq<Row>, cfg: Config, i: nat, j: nat)
    requires i < |s| && j < |s|
  {
    && j - i + 1 <= cfg.maxSteps
    && (s[i].stamp.instant.Some? && s[j].stamp.instant.Some? ==>
          Since(s[j].stamp.instant.value, s[i].stamp.instant.value) <= cfg.maxGap)
  }

  /** j could resolve an episode opened at i: a later same-family success inside both budgets. */
  predicate Candidate(s: seq<Row>, cfg: Config, i: nat, j: nat)
    requires i < |s| && j < |s|
  {
    i < j && Related(s, i, j) && !s[j].isError && WithinBudget(s, cfg, i, j)
  }

  /** The earliest candidate before n. */
  function FirstCandidate(s: seq<Row>, cfg: Config, i: nat, n: nat): (c: Option<nat>)
    requires i < |s| && n <= |s|
    ensures c.Some? ==> c.value < n && Candidate(s, cfg, i, c.value)
    ensures forall j :: 0 <= j < (if c.Some? then c.value else n) ==> !Candidate(s, cfg, i, j)
  {
    if n == 0 then None
    else
      var earlier := FirstCandidate(s, cfg, i, n - 1);
      if earlier.Some? then earlier
      else if Candidate(s, cfg, i, n - 1) then Some(n - 1)
      else None
  }

  /** The families of the calls after i, up to and including j. */
  function PathTo(s: seq<Row>, i: nat, j: nat): seq<string>
    requires i < j < |s|
  {
    seq(j - i, k requires 0 <= k < j - i => s[i + 1 + k].family)
  }

  function ResolvedBy(s: seq<Row>, i: nat, j: nat): Resolution
    requires i < j < |s|
  {
    Resolution(s[j].entry, s[j].ordinal, PathTo(s, i, j), s[j].stamp.text)
  }

  /** The episode opened at i, as far as the first n calls tell. */
  function EpisodeBy(s: seq<Row>, cfg: Config, i: nat, n: nat): Episode
    requires i < |s| && n <= |s|
  {
    var c := FirstCandidate(s, cfg, i, n);
    Episode(s[i].entry, s[i].ordinal, s[i].tool, s[i].family, s[i].signature, s[i].project, s[i].stamp.text,
            if c.Some? then Some(ResolvedBy(s, i, c.value)) else None)
  }

  ghost function Openers(s: seq<Row>, n: nat): (o: seq<nat>)
    requires n <= |s|
    ensures forall k :: 0 <= k < |o| ==> o[k] < n && Opens(s, o[k]) && s[o[k]].isError
    ensures forall j, k :: 0 <= j < k < |o| ==> o[j] < o[k]
    ensures forall i :: 0 <= i < n && Opens(s, i) ==> i in o
  {
    if n == 0 then []
    else Openers(s, n - 1) + if Opens(s, n - 1) then [n - 1] else []
  }

  ghost function EpisodesBy(s: seq<Row>, cfg: Config, n: nat): seq<Episode>
    requires n <= |s|
  {
    var o := Openers(s, n);
    seq(|o|, k requires 0 <= k < |o| => EpisodeBy(s, cfg, o[k], n))
  }

  /** The episodes of a session, read in call order. */
  ghost function EpisodesOf(s: seq<Row>, cfg: Config): seq<Episode> { EpisodesBy(s, cfg, |s|) }

  // ---- why one pass is enough --------------------------------------------------

  /** A same-family success after i and before n. */
  ghost predicate Answered(s: seq<Row>, i: nat, n: nat)
    requires i < |s| && n <= |s|
  {
    exists m :: i < m < n && Related(s, i, m) && !s[m].isError
  }

  /** Calls only get further away. */
  lemma BudgetShrinks(s: seq<Row>, cfg: Config, i: nat, m: nat, n: nat)
    requires Sorted(s, Before) && i < m < n < |s| && WithinBudget(s, cfg, i, n)
    ensures WithinBudget(s, cfg, i, m)
  {
    assert !Before(s[n], s[m]);
  }

  /** Once a same-family success has passed, a later one changes nothing: if it were in budget, so was the first. */
  lemma AnsweredIsSettled(s: seq<Row>, cfg: Config, i: nat, n: nat)
    requires Sorted(s, Before) && i < n < |s| && Answered(s, i, n)
    ensures FirstCandidate(s, cfg, i, n + 1) == FirstCandidate(s, cfg, i, n)
  {
    if Candidate(s, cfg, i, n) {
      var m :| i < m < n && Related(s, i, m) && !s[m].isError;
      BudgetShrinks(s, cfg, i, m, n);
      assert Candidate(s, cfg, i, m);
    }
  }

  lemma UnansweredIsOpen(s: seq<Row>, cfg: Config, i: nat, n: nat)
    requires i < |s| && n <= |s| && !Answered(s, i, n)
    ensures FirstCandidate(s, cfg, i, n) == None
  {
    var c := FirstCandidate(s, cfg, i, n);
    if c.Some? { assert Answered(s, i, n); }
  }

  /** The last call related to row i among rows k..i. */
  lemma LastRelated(s: seq<Row>, i: nat, k: nat) returns (m: nat)
    requires k < i < |s| && Related(s, k, i)
    ensures k <= m < i && PreviousOf(s, i, m)
  {
    m := i - 1;
    while !Related(s, m, i)
      invariant k <= m < i
      invariant forall j :: m < j < i ==> !Related(s, j, i)
      decreases m
    {
      m := m - 1;
    }
  }

  /** No episode of the family is still running: the previous call is no failure exactly when
      every earlier failure has been answered. */
  lemma OpensIffAnswered(s: seq<Row>, i: nat)
    requires i < |s| && s[i].isError
    ensures Opens(s, i) <==> forall k :: 0 <= k < i && Related(s, k, i) && s[k].isError ==> Answered(s, k, i)
  {
    if Opens(s, i) {
      forall k | 0 <= k < i && Related(s, k, i) && s[k].isError ensures Answered(s, k, i) {
        var m := LastRelated(s, i, k);
        assert k < m < i && Related(s, k, m) && !s[m].isError;
      }
    } else {
      var k: nat :| PreviousOf(s, i, k) && s[k].isError;
      if Answered(s, k, i) {
        var m :| k < m < i && Related(s, k, m) && !s[m].isError;
        assert Related(s, m, i);
      }
    }
  }

  // ---- the scan ------------------------------------------------------------------

  /** An episode in progress: where its record is, and where it opened. */
  datatype Open = Open(slot: nat, index: nat, instant: Option<int>)

  /** f's episode in progress opened at the failure it says and has had no success since. */
  ghost predicate Running(s: seq<Row>, n: nat, f: string, e: Open, o: seq<nat>)
    requires n <= |s|
  {
    && e.slot < |o| && e.index == o[e.slot] && e.index < n
    && s[e.index].family == f && s[e.index].isError && e.instant == s[e.index].stamp.instant
    && !Answered(s, e.index, n)
  }

  /** An unanswered opener is the episode in progress of its family. */
  ghost predicate Waiting(s: seq<Row>, n: nat, open: map<string, Open>, o: seq<nat>, k: nat)
    requires n <= |s| && k < |o| && o[k] < |s|
  {
    !Answered(s, o[k], n) ==> s[o[k]].family in open && open[s[o[k]].family].slot == k
  }

  /** A failure of a family with nothing in progress has been answered. */
  ghost predicate Settled(s: seq<Row>, n: nat, open: map<string, Open>, i: nat)
    requires i < |s| && n <= |s|
  {
    s[i].isError && s[i].family !in open ==> Answered(s, i, n)
  }

  /** Where the open map stands after the first n calls. */
  ghost predicate Tracks(s: seq<Row>, n: nat, open: map<string, Open>, o: seq<nat>)
    requires n <= |s|
  {
    && o == Openers(s, n)
    && (forall f :: f in open ==> Running(s, n, f, open[f], o))
    && (forall i :: 0 <= i < n ==> Settled(s, n, open, i))
    && (forall k :: 0 <= k < |o| ==> Waiting(s, n, open, o, k))
  }

  ghost predicate Records(s: seq<Row>, cfg: Config, n: nat, o: seq<nat>, eps: seq<Episode>)
    requires n <= |s|
  {
    |eps| == |o| && forall k :: 0 <= k < |o| ==> o[k] < |s| && eps[k] == EpisodeBy(s, cfg, o[k], n)
  }

  /** withinBudget, on the open episode and the candidate's position. */
  method CheckBudget(s: seq<Row>, cfg: Config, ep: Open, j: nat) returns (ok: bool)
    requires ep.index < |s| && ep.instant == s[ep.index].stamp.instant && j < |s|
    ensures ok <==> WithinBudget(s, cfg, ep.index, j)
  {
    var steps := j - ep.index + 1;
    if steps > cfg.maxSteps { return false; }
    var t := s[j].stamp.instant;
    if t.Some? && ep.instant.Some? {
      if Since(t.value, ep.instant.value) > cfg.maxGap { return false; }
    }
    ok := true;
  }

  /** resolve: the path is the families in between, then the resolving one. */
  method Resolve(s: seq<Row>, i: nat, j: nat) returns (r: Resolution)
    requires i < j < |s|
    ensures r == ResolvedBy(s, i, j)
  {
    var path: seq<string> := [];
    var k := i + 1;
    while k < j
      invariant i < k <= j
      invariant path == PathTo(s, i, j)[..k - i - 1]
    {
      path := path + [s[k].family];
      k := k + 1;
    }
    path := path + [s[j].family];
    r := Resolution(s[j].entry, s[j].ordinal, path, s[j].stamp.text);
  }

  /** Tracking follows from the step each entry takes. */
  lemma TracksNext(s: seq<Row>, n: nat, open: map<string, Open>, o: seq<nat>)
    requires n <= |s| && o == Openers(s, n)
    requires forall f :: f in open ==> Running(s, n, f, open[f], o)
    requires forall i :: 0 <= i < n ==> Settled(s, n, open, i)
    requires forall k :: 0 <= k < |o| ==> Waiting(s, n, open, o, k)
    ensures Tracks(s, n, open, o)
  {
  }

  lemma RunningNext(s: seq<Row>, n: nat, f: string, e: Open, o: seq<nat>, more: seq<nat>)
    requires n < |s| && Running(s, n, f, e, o) && (s[n].isError || s[n].family != f)
    ensures Running(s, n + 1, f, e, o + more)
  {
    if s[n].isError { FailureAnswersNothing(s, n, e.index); } else { SuccessAnswers(s, n, e.index); }
  }

  lemma WaitingNext(s: seq<Row>, n: nat, open: map<string, Open>, open': map<string, Open>, o: seq<nat>, more: seq<nat>,
                    k: nat)
    requires n < |s| && k < |o| && o[k] < n && Waiting(s, n, open, o, k)
    requires s[o[k]].family in open && (s[n].isError || s[o[k]].family != s[n].family) ==>
               s[o[k]].family in open' && open'[s[o[k]].family] == open[s[o[k]].family]
    ensures Waiting(s, n + 1, open', o + more, k)
  {
    if s[n].isError { FailureAnswersNothing(s, n, o[k]); } else { SuccessAnswers(s, n, o[k]); }
  }

  lemma SettledNext(s: seq<Row>, n: nat, open: map<string, Open>, open': map<string, Open>, i: nat)
    requires i < n < |s| && Settled(s, n, open, i)
    requires s[i].family in open ==> s[i].family in open' || (!s[n].isError && s[i].family == s[n].family)
    ensures Settled(s, n + 1, open', i)
  {
    if s[n].isError { FailureAnswersNothing(s, n, i); } else { SuccessAnswers(s, n, i); }
  }

  /** A failure while its family's episode is running is part of that struggle. */
  lemma FailureContinues(s: seq<Row>, n: nat, open: map<string, Open>, o: seq<nat>)
    requires n < |s| && Tracks(s, n, open, o) && s[n].isError && s[n].family in open
    ensures Tracks(s, n + 1, open, o)
  {
    var e, after := open[s[n].family], n + 1;
    assert Running(s, n, s[n].family, e, o);
    NotAnOpener(s, n, e.index);
    hide Running, Waiting, Settled;
    assert o + [] == o;
    forall f | f in open ensures Running(s, after, f, open[f], o) { RunningNext(s, n, f, open[f], o, []); }
    forall k | 0 <= k < |o| ensures Waiting(s, after, open, o, k) { WaitingNext(s, n, open, open, o, [], k); }
    forall i | 0 <= i < after ensures Settled(s, after, open, i) {
      if i < n { SettledNext(s, n, open, open, i); } else { SettledByOpen(s, after, open, i); }
    }
    TracksNext(s, after, open, o);
  }

  lemma SettledByOpen(s: seq<Row>, n: nat, open: map<string, Open>, i: nat)
    requires i < |s| && n <= |s| && (s[i].isError ==> s[i].family in open)
    ensures Settled(s, n, open, i)
  {
  }

  /** Otherwise it opens a new one. */
  lemma FailureOpens(s: seq<Row>, n: nat, open: map<string, Open>, o: seq<nat>)
    requires n < |s| && Tracks(s, n, open, o) && s[n].isError && s[n].family !in open
    ensures Tracks(s, n + 1, open[s[n].family := Open(|o|, n, s[n].stamp.instant)], o + [n])
  {
    hide Answered, Running, Waiting, Opens;
    var open', o', after := open[s[n].family := Open(|o|, n, s[n].stamp.instant)], o + [n], n + 1;
    forall i | 0 <= i < n && s[i].isError && s[i].family == s[n].family ensures Answered(s, i, n) {
      assert Settled(s, n, open, i);
    }
    AnOpener(s, n);
    hide Settled;
    forall f | f in open' ensures Running(s, after, f, open'[f], o') {
      if f != s[n].family { RunningNext(s, n, f, open[f], o, [n]); } else { RunningNew(s, n, o); }
    }
    forall k | 0 <= k < |o'| ensures Waiting(s, after, open', o', k) {
      if k < |o| { WaitingNext(s, n, open, open', o, [n], k); } else { WaitingNew(s, n, open', o); }
    }
    forall i | 0 <= i < after ensures Settled(s, after, open', i) {
      if i < n { SettledNext(s, n, open, open', i); } else { SettledByOpen(s, after, open', i); }
    }
    TracksNext(s, after, open', o');
  }

  lemma RunningNew(s: seq<Row>, n: nat, o: seq<nat>)
    requires n < |s| && s[n].isError
    ensures Running(s, n + 1, s[n].family, Open(|o|, n, s[n].stamp.instant), o + [n])
  {
    NothingSince(s, n);
  }

  lemma WaitingNew(s: seq<Row>, n: nat, open: map<string, Open>, o: seq<nat>)
    requires n < |s| && s[n].family in open && open[s[n].family].slot == |o|
    ensures Waiting(s, n + 1, open, o + [n], |o|)
  {
  }

  lemma NotAnOpener(s: seq<Row>, n: nat, i: nat)
    requires i < n < |s| && s[n].isError && s[i].isError && s[i].family == s[n].family && !Answered(s, i, n)
    ensures Openers(s, n + 1) == Openers(s, n)
  {
    OpensIffAnswered(s, n);
    assert Related(s, i, n);
  }

  lemma AnOpener(s: seq<Row>, n: nat)
    requires n < |s| && s[n].isError
    requires forall i :: 0 <= i < n && s[i].isError && s[i].family == s[n].family ==> Answered(s, i, n)
    ensures Openers(s, n + 1) == Openers(s, n) + [n]
  {
    OpensIffAnswered(s, n);
  }

  lemma FailureRecords(s: seq<Row>, cfg: Config, n: nat, o: seq<nat>, eps: seq<Episode>)
    requires n < |s| && Records(s, cfg, n, o, eps) && s[n].isError
    ensures Records(s, cfg, n + 1, o, eps)
    ensures Records(s, cfg, n + 1, o + [n], eps + [EpisodeBy(s, cfg, n, n + 1)])
  {
    hide WithinBudget;
    forall k | 0 <= k < |o| ensures EpisodeBy(s, cfg, o[k], n + 1) == EpisodeBy(s, cfg, o[k], n) {
      assert !Candidate(s, cfg, o[k], n);
    }
  }

  lemma NothingSince(s: seq<Row>, n: nat)
    requires n < |s|
    ensures !Answered(s, n, n + 1)
  {
  }

  lemma FailureAnswersNothing(s: seq<Row>, n: nat, i: nat)
    requires i < |s| && n < |s| && s[n].isError
    ensures Answered(s, i, n + 1) <==> Answered(s, i, n)
  {
    if Answered(s, i, n + 1) {
      var m :| i < m < n + 1 && Related(s, i, m) && !s[m].isError;
      assert m < n;
    }
    if Answered(s, i, n) { AnsweredLater(s, i, n); }
  }

  lemma AnsweredLater(s: seq<Row>, i: nat, n: nat)
    requires i < |s| && n < |s| && Answered(s, i, n)
    ensures Answered(s, i, n + 1)
  {
    var m :| i < m < n && Related(s, i, m) && !s[m].isError;
  }

  /** A success answers the failures of its own family and no others. */
  lemma SuccessAnswers(s: seq<Row>, n: nat, i: nat)
    requires i < n < |s| && !s[n].isError
    ensures Answered(s, i, n + 1) <==> Answered(s, i, n) || s[i].family == s[n].family
  {
    if Answered(s, i, n) { AnsweredLater(s, i, n); }
    if s[i].family == s[n].family { assert Related(s, i, n); }
    if Answered(s, i, n + 1) {
      var m :| i < m < n + 1 && Related(s, i, m) && !s[m].isError;
      if m < n { assert Answered(s, i, n); }
    }
  }

  /** What a success does to the record at slot k. */
  lemma SuccessRecords(s: seq<Row>, cfg: Config, n: nat, open: map<string, Open>, o: seq<nat>, k: nat)
    requires n < |s| && Sorted(s, Before) && Tracks(s, n, open, o) && !s[n].isError && k < |o|
    ensures o[k] < n
    ensures if Resolves(s, cfg, n, open, o, k)
            then FirstCandidate(s, cfg, o[k], n + 1) == Some(n)
            else FirstCandidate(s, cfg, o[k], n + 1) == FirstCandidate(s, cfg, o[k], n)
  {
    hide Opens, Sorted;
    assert Waiting(s, n, open, o, k);
    if s[n].family in open { assert Running(s, n, s[n].family, open[s[n].family], o); }
    if Answered(s, o[k], n) {
      AnsweredIsSettled(s, cfg, o[k], n);
    } else {
      UnansweredIsOpen(s, cfg, o[k], n);
      hide Answered;
    }
  }

  lemma SuccessOpensNothing(s: seq<Row>, n: nat)
    requires n < |s| && !s[n].isError
    ensures Openers(s, n + 1) == Openers(s, n)
  {
  }

  lemma SuccessTracks(s: seq<Row>, n: nat, open: map<string, Open>, o: seq<nat>)
    requires n < |s| && Tracks(s, n, open, o) && !s[n].isError
    ensures Tracks(s, n + 1, open - {s[n].family}, o)
  {
    hide Running, Waiting, Settled, Opens;
    var open', after := open - {s[n].family}, n + 1;
    SuccessOpensNothing(s, n);
    assert o + [] == o;
    forall f | f in open' ensures Running(s, after, f, open'[f], o) { RunningNext(s, n, f, open[f], o, []); }
    forall k | 0 <= k < |o| ensures Waiting(s, after, open', o, k) { WaitingNext(s, n, open, open', o, [], k); }
    forall i | 0 <= i < after ensures Settled(s, after, open', i) {
      if i < n { SettledNext(s, n, open, open', i); } else { SettledByOpen(s, after, open', i); }
    }
    TracksNext(s, after, open', o);
  }

  /** The record the scan may touch on a success at n. */
  ghost predicate Resolves(s: seq<Row>, cfg: Config, n: nat, open: map<string, Open>, o: seq<nat>, k: nat)
    requires n < |s| && k < |o| && o[k] < |s|
  {
    s[n].family in open && open[s[n].family].slot == k && WithinBudget(s, cfg, o[k], n)
  }

  lemma RecordsAfterSuccess(s: seq<Row>, cfg: Config, n: nat, open: map<string, Open>, o: seq<nat>, eps: seq<Episode>,
                            eps': seq<Episode>)
    requires n < |s| && Sorted(s, Before) && Tracks(s, n, open, o) && Records(s, cfg, n, o, eps) && !s[n].isError
    requires |eps'| == |eps|
    requires forall k :: 0 <= k < |o| ==>
               eps'[k] == if Resolves(s, cfg, n, open, o, k) then eps[k].(resolution := Some(ResolvedBy(s, o[k], n)))
                          else eps[k]
    ensures Records(s, cfg, n + 1, o, eps')
  {
    hide Sorted, WithinBudget, Answered, Opens, FirstCandidate, Tracks;
    forall k | 0 <= k < |o| ensures o[k] < |s| && eps'[k] == EpisodeBy(s, cfg, o[k], n + 1) {
      SuccessRecords(s, cfg, n, open, o, k);
      assert eps[k] == EpisodeBy(s, cfg, o[k], n);
    }
  }

  /** One step of the scan on a success: resolve the family's open episode or drop it. */
  method TakeSuccess(s: seq<Row>, cfg: Config, n: nat, open: map<string, Open>, eps: seq<Episode>, ghost o: seq<nat>)
    returns (open': map<string, Open>, eps': seq<Episode>)
    requires n < |s| && Sorted(s, Before) && Tracks(s, n, open, o) && Records(s, cfg, n, o, eps) && !s[n].isError
    ensures Tracks(s, n + 1, open', o) && Records(s, cfg, n + 1, o, eps')
  {
    hide Sorted, WithinBudget, Answered, Opens, FirstCandidate, Openers, Records;
    SuccessTracks(s, n, open, o);
    var f := s[n].family;
    open', eps' := open - {f}, eps;
    assert |eps| == |o| by { RecordsAlign(s, cfg, n, o, eps); }
    if f in open {
      var ep := open[f];
      assert Running(s, n, f, ep, o);
      var ok := CheckBudget(s, cfg, ep, n);
      if ok {
        var r := Resolve(s, ep.index, n);
        eps' := eps[ep.slot := eps[ep.slot].(resolution := Some(r))];
      }
    }
    RecordsAlign(s, cfg, n, o, eps);
    RecordsAfterSuccess(s, cfg, n, open, o, eps, eps');
  }

  lemma RecordsAlign(s: seq<Row>, cfg: Config, n: nat, o: seq<nat>, eps: seq<Episode>)
    requires n <= |s| && Records(s, cfg, n, o, eps)
    ensures |eps| == |o| && forall k :: 0 <= k < |o| ==> o[k] < |s|
  {
  }

  /** assembleSession: sort, then one pass with at most one episode in progress per family. */
  method AssembleSession(session: seq<Row>, cfg: Config) returns (eps: seq<Episode>)
    ensures eps == EpisodesOf(SortBy(session, Before), cfg)
  {
    hide Opens, Answered, Sorted, FirstCandidate, Before, SortBy, Tracks, Openers;
    var s := SortBy(session, Before);
    BeforeIsStrict();
    SortBySorted(session, Before);
    eps := [];
    var open: map<string, Open> := map[];
    ghost var o: seq<nat> := [];
    NothingYet(s, cfg);
    for n := 0 to |s|
      invariant Tracks(s, n, open, o) && Records(s, cfg, n, o, eps)
    {
      open, eps, o := Scan(s, cfg, n, open, eps, o);
    }
    TracksOpeners(s, |s|, open, o);
  }

  /** One step of the scan. */
  method Scan(s: seq<Row>, cfg: Config, n: nat, open: map<string, Open>, eps: seq<Episode>, ghost o: seq<nat>)
    returns (open': map<string, Open>, eps': seq<Episode>, ghost o': seq<nat>)
    requires n < |s| && Sorted(s, Before) && Tracks(s, n, open, o) && Records(s, cfg, n, o, eps)
    ensures Tracks(s, n + 1, open', o') && Records(s, cfg, n + 1, o', eps')
  {
    hide Opens, Answered, Sorted, FirstCandidate, Before, Tracks, Openers, Records;
    open', eps', o' := open, eps, o;
    if !s[n].isError {
      open', eps' := TakeSuccess(s, cfg, n, open, eps, o);
      return;
    }
    FailureRecords(s, cfg, n, o, eps);
    if s[n].family in open {
      FailureContinues(s, n, open, o);
      return;
    }
    FailureOpens(s, n, open, o);
    RecordsAlign(s, cfg, n, o, eps);
    NothingSince(s, n);
    UnansweredIsOpen(s, cfg, n, n + 1);
    eps' := eps + [Episode(s[n].entry, s[n].ordinal, s[n].tool, s[n].family, s[n].signature, s[n].project,
                           s[n].stamp.text, None)];
    open' := open[s[n].family := Open(|eps|, n, s[n].stamp.instant)];
    o' := o + [n];
  }

  lemma NothingYet(s: seq<Row>, cfg: Config)
    ensures Tracks(s, 0, map[], []) && Records(s, cfg, 0, [], [])
  {
  }

  lemma TracksOpeners(s: seq<Row>, n: nat, open: map<string, Open>, o: seq<nat>)
    requires n <= |s| && Tracks(s, n, open, o)
    ensures o == Openers(s, n)
  {
  }

  // ---- what the scan found ---------------------------------------------------------

  /** m is the first same-family success after i. */
  ghost predicate FirstSuccess(s: seq<Row>, i: nat, m: nat)
    requires i < |s|
  {
    i < m < |s| && Related(s, i, m) && !s[m].isError && !Answered(s, i, m)
  }

  /** Only the first same-family success can resolve an episode: past it, nothing is in budget that was not before. */
  lemma FirstSuccessDecides(s: seq<Row>, cfg: Config, i: nat, m: nat)
    requires Sorted(s, Before) && i < |s| && FirstSuccess(s, i, m)
    ensures FirstCandidate(s, cfg, i, |s|) == if WithinBudget(s, cfg, i, m) then Some(m) else None
  {
    var n := m + 1;
    UnansweredIsOpen(s, cfg, i, m);
    while n < |s|
      invariant m < n <= |s|
      invariant FirstCandidate(s, cfg, i, n) == if WithinBudget(s, cfg, i, m) then Some(m) else None
    {
      assert Answered(s, i, n);
      AnsweredIsSettled(s, cfg, i, n);
      n := n + 1;
    }
  }

  /** An episode is resolved exactly when some later same-family success is inside both budgets, and then by the
      earliest of them, which is the first same-family success there is. */
  lemma ResolvedIffSomeCandidate(s: seq<Row>, cfg: Config, i: nat)
    requires Sorted(s, Before) && i < |s|
    ensures var e := EpisodeBy(s, cfg, i, |s|);
            && (e.resolution.Some? <==> exists j :: i < j < |s| && Candidate(s, cfg, i, j))
            && (e.resolution.Some? ==> exists j :: FirstSuccess(s, i, j) && Candidate(s, cfg, i, j)
                                                   && e.resolution.value == ResolvedBy(s, i, j))
  {
    var c := FirstCandidate(s, cfg, i, |s|);
    if c.Some? {
      var j := c.value;
      if Answered(s, i, j) {
        var m :| i < m < j && Related(s, i, m) && !s[m].isError;
        BudgetShrinks(s, cfg, i, m, j);
        assert Candidate(s, cfg, i, m);
      }
      assert FirstSuccess(s, i, j);
    }
  }

  /** The stored rows may be read in any order: sorted, and so scanned, they are the same. */
  lemma ReadOrderIgnored(a: seq<Row>, b: seq<Row>, cfg: Config)
    requires Keyed(a) && multiset(a) == multiset(b)
    ensures SortBy(a, Before) == SortBy(b, Before)
    ensures EpisodesOf(SortBy(a, Before), cfg) == EpisodesOf(SortBy(b, Before), cfg)
  {
    BeforeIsStrict();
    BeforeSeparates(a);
    SortIgnoresArrival(a, b, Before);
  }

  /** No two episodes open at one call, and no two are resolved by one call: there is one struggle per family. */
  lemma OpenersAreDistinct(s: seq<Row>, cfg: Config, j: nat, k: nat)
    requires Sorted(s, Before) && Keyed(s) && j < k < |Openers(s, |s|)|
    ensures var o := Openers(s, |s|);
            && !SameCall(s[o[j]], s[o[k]])
            && (FirstCandidate(s, cfg, o[j], |s|).Some? ==>
                FirstCandidate(s, cfg, o[j], |s|) != FirstCandidate(s, cfg, o[k], |s|))
  {
    var o := Openers(s, |s|);
    assert o[j] < o[k];
    var c := FirstCandidate(s, cfg, o[j], |s|);
    if c.Some? && c == FirstCandidate(s, cfg, o[k], |s|) {
      assert Related(s, o[j], o[k]) && Opens(s, o[k]);
      OpensIffAnswered(s, o[k]);
      var m :| o[j] < m < o[k] && Related(s, o[j], m) && !s[m].isError;
      BudgetShrinks(s, cfg, o[j], m, c.value);
      assert Candidate(s, cfg, o[j], m);
    }
  }

  // ---- the same, spelled out ----------------------------------------------------------

  /** Which call comes first: one whose time does not parse, then by time, line, entry id and ordinal. */
  lemma CallOrder(session: seq<Row>, i: nat, j: nat)
    requires i < j < |SortBy(session, Before)|
    ensures var a, b := SortBy(session, Before)[i], SortBy(session, Before)[j];
            && (b.stamp.instant.None? ==> a.stamp.instant.None?)
            && (a.stamp.instant.Some? && b.stamp.instant.Some? ==> a.stamp.instant.value <= b.stamp.instant.value)
            && (a.stamp.instant == b.stamp.instant ==> a.line <= b.line)
            && (a.stamp.instant == b.stamp.instant && a.line == b.line ==>
                  a.entry == b.entry || exists k: nat :: DecidedAt(a.entry, b.entry, k))
            && (a.stamp.instant == b.stamp.instant && a.line == b.line && a.entry == b.entry ==> a.ordinal <= b.ordinal)
  {
    BeforeIsStrict();
    SortBySorted(session, Before);
    var a, b := SortBy(session, Before)[i], SortBy(session, Before)[j];
    LessTotal(a.entry, b.entry);
    LessIff(a.entry, b.entry);
  }

  /** A failure not preceded by an unanswered failure of its family. */
  ghost predicate OpensAt(s: seq<Row>, i: nat) {
    && i < |s| && s[i].isError
    && forall k :: 0 <= k < i && s[k].family == s[i].family && s[k].isError ==> FixedSince(s, k, i)
  }

  ghost predicate FixedSince(s: seq<Row>, k: nat, i: nat)
    requires k < i < |s|
  {
    exists m :: k < m < i && s[m].family == s[i].family && !s[m].isError
  }

  /** j is the first success of i's family, at most so many calls and so much time later; a time that does not parse
      costs nothing. */
  ghost predicate FixesInTime(s: seq<Row>, steps: int, gap: int, i: nat, j: nat) {
    && i < j < |s| && s[j].family == s[i].family && !s[j].isError
    && (forall m :: i < m < j && s[m].family == s[i].family ==> s[m].isError)
    && j - i < steps
    && (s[i].stamp.instant.Some? && s[j].stamp.instant.Some? ==>
          s[j].stamp.instant.value - s[i].stamp.instant.value <= gap)
  }

  ghost predicate FixRecorded(s: seq<Row>, i: nat, j: nat, r: Resolution)
    requires i < j < |s|
  {
    && r.entry == s[j].entry && r.ordinal == s[j].ordinal && r.at == s[j].stamp.text
    && |r.path| == j - i && forall k :: 0 <= k < j - i ==> r.path[k] == s[i + 1 + k].family
  }

  ghost predicate EpisodeTold(s: seq<Row>, steps: int, gap: int, i: nat, e: Episode)
    requires i < |s|
  {
    && e.entry == s[i].entry && e.ordinal == s[i].ordinal && e.tool == s[i].tool && e.family == s[i].family
    && e.signature == s[i].signature && e.project == s[i].project && e.openedAt == s[i].stamp.text
    && (e.resolution.Some? <==> exists j :: FixesInTime(s, steps, gap, i, j))
    && (e.resolution.Some? ==>
          exists j :: FixesInTime(s, steps, gap, i, j) && FixRecorded(s, i, j, e.resolution.value))
  }

  /** One episode for each call an episode opens at, in their order, and no other. */
  ghost predicate SessionTold(s: seq<Row>, steps: int, gap: int, eps: seq<Episode>) {
    exists o: seq<nat> :: EpisodesAt(s, steps, gap, eps, o)
  }

  ghost predicate EpisodesAt(s: seq<Row>, steps: int, gap: int, eps: seq<Episode>, o: seq<nat>) {
    && |o| == |eps| && (forall i, j :: 0 <= i < j < |o| ==> o[i] < o[j])
    && (forall i: nat :: i in o <==> OpensAt(s, i))
    && forall k :: 0 <= k < |o| ==> o[k] < |s| && EpisodeTold(s, steps, gap, o[k], eps[k])
  }

  lemma OpensMeans(s: seq<Row>, i: nat)
    requires i < |s|
    ensures Opens(s, i) <==> OpensAt(s, i)
  {
    hide Opens;
    if s[i].isError {
      OpensIffAnswered(s, i);
      forall k | 0 <= k < i && s[k].family == s[i].family ensures Answered(s, k, i) <==> FixedSince(s, k, i) {
        if Answered(s, k, i) { var m :| k < m < i && Related(s, k, m) && !s[m].isError; }
        if FixedSince(s, k, i) {
          var m :| k < m < i && s[m].family == s[i].family && !s[m].isError;
          assert Related(s, k, m);
        }
      }
      assert forall k :: 0 <= k < i ==> (Related(s, k, i) <==> s[k].family == s[i].family);
    } else {
      assert !Opens(s, i) by { NoErrorOpens(s, i); }
    }
  }

  lemma NoErrorOpens(s: seq<Row>, i: nat)
    requires i < |s| && !s[i].isError
    ensures !Opens(s, i)
  {
  }

  lemma FixMeans(s: seq<Row>, cfg: Config, i: nat, j: nat)
    requires i < j < |s| && MIN_DURATION <= cfg.maxGap < MAX_DURATION
    ensures FixesInTime(s, cfg.maxSteps, cfg.maxGap, i, j) <==> FirstSuccess(s, i, j) && Candidate(s, cfg, i, j)
  {
    assert forall m :: i < m < j ==> (Related(s, i, m) <==> s[m].family == s[i].family);
  }

  lemma EpisodeMeans(s: seq<Row>, cfg: Config, i: nat)
    requires Sorted(s, Before) && i < |s| && MIN_DURATION <= cfg.maxGap < MAX_DURATION
    ensures EpisodeTold(s, cfg.maxSteps, cfg.maxGap, i, EpisodeBy(s, cfg, i, |s|))
  {
    hide Sorted, Candidate, FirstCandidate, WithinBudget;
    ResolvedIffSomeCandidate(s, cfg, i);
    var e := EpisodeBy(s, cfg, i, |s|);
    if e.resolution.Some? {
      var j :| FirstSuccess(s, i, j) && Candidate(s, cfg, i, j) && e.resolution.value == ResolvedBy(s, i, j);
      FixMeans(s, cfg, i, j);
      assert FixesInTime(s, cfg.maxSteps, cfg.maxGap, i, j) && FixRecorded(s, i, j, e.resolution.value);
    }
    if j :| FixesInTime(s, cfg.maxSteps, cfg.maxGap, i, j) { FixMeans(s, cfg, i, j); }
  }

  /** A session's episodes, without the scan's own notions. */
  lemma EpisodesMean(session: seq<Row>, cfg: Config)
    requires MIN_DURATION <= cfg.maxGap < MAX_DURATION
    ensures var s := SortBy(session, Before); SessionTold(s, cfg.maxSteps, cfg.maxGap, EpisodesOf(s, cfg))
  {
    hide Before, SortBy, Opens, OpensAt, EpisodeTold, FirstCandidate, Openers;
    var s := SortBy(session, Before);
    BeforeIsStrict();
    SortBySorted(session, Before);
    var o := Openers(s, |s|);
    forall i: nat ensures i in o <==> OpensAt(s, i) {
      if i < |s| { OpensMeans(s, i); } else { assert !OpensAt(s, i) by { NoCallOpens(s, i); } }
    }
    forall k | 0 <= k < |o| ensures EpisodeTold(s, cfg.maxSteps, cfg.maxGap, o[k], EpisodesOf(s, cfg)[k]) {
      EpisodeMeans(s, cfg, o[k]);
    }
    assert EpisodesAt(s, cfg.maxSteps, cfg.maxGap, EpisodesOf(s, cfg), o);
  }

  lemma NoCallOpens(s: seq<Row>, i: nat)
    requires i >= |s|
    ensures !OpensAt(s, i)
  {
  }

  /** With the defaults: forty calls, opener and fix included, and half an hour in nanoseconds. */
  lemma DefaultEpisodesMean(session: seq<Row>)
    ensures var s := SortBy(session, Before); SessionTold(s, 40, 1_800_000_000_000, EpisodesOf(s, DEFAULT_CONFIG))
  {
    EpisodesMean(session, DEFAULT_CONFIG);
  }
}
