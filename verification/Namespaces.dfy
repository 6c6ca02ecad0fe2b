/** Machine namespaces: the sanitiser behind every machine-scoped key, and the machine registry. */
module Namespaces {
  import opened Order

  /** Unicode White_Space, what strings.TrimSpace removes. */
  predicate IsSpace(c: char) {
    '\t' <= c <= '\r' || c == ' ' || c == '\U{85}' || c == '\U{A0}' || c == '\U{1680}'
    || '\U{2000}' <= c <= '\U{200A}' || c == '\U{2028}' || c == '\U{2029}' || c == '\U{202F}'
    || c == '\U{205F}' || c == '\U{3000}'
  }

  /** The twenty-five of them. */
  lemma SpacesMean(c: char)
    ensures IsSpace(c) <==>
            c in {'\U{9}', '\U{A}', '\U{B}', '\U{C}', '\U{D}', '\U{20}', '\U{85}', '\U{A0}', '\U{1680}', '\U{2000}',
                  '\U{2001}', '\U{2002}', '\U{2003}', '\U{2004}', '\U{2005}', '\U{2006}', '\U{2007}', '\U{2008}',
                  '\U{2009}', '\U{200A}', '\U{2028}', '\U{2029}', '\U{202F}', '\U{205F}', '\U{3000}'}
  {
  }

  function TrimLeft(s: string, drop: char -> bool): (r: string)
    ensures |r| > 0 ==> !drop(r[0])
    ensures |r| <= |s| && r == s[|s| - |r|..]
  {
    if |s| > 0 && drop(s[0]) then TrimLeft(s[1..], drop) else s
  }

  function TrimRight(s: string, drop: char -> bool): (r: string)
    ensures |r| > 0 ==> !drop(r[|r| - 1])
    ensures |r| <= |s| && r == s[..|r|]
  {
    if |s| > 0 && drop(s[|s| - 1]) then TrimRight(s[..|s| - 1], drop) else s
  }

  function Trim(s: string, drop: char -> bool): (r: string)
    ensures |r| > 0 ==> !drop(r[0]) && !drop(r[|r| - 1])
  {
    TrimRight(TrimLeft(s, drop), drop)
  }

  lemma {:induction false} TrimLeftKeeps(s: string, drop: char -> bool)
    ensures forall c :: c in s && !drop(c) ==> c in TrimLeft(s, drop)
    ensures (forall c :: c in s ==> drop(c)) ==> TrimLeft(s, drop) == ""
  {
    if |s| > 0 && drop(s[0]) {
      var rest := s[1..];
      TrimLeftKeeps(rest, drop);
      assert TrimLeft(s, drop) == TrimLeft(rest, drop);
      assert forall c :: c in s <==> c == s[0] || c in rest;
    }
  }

  lemma {:induction false} TrimRightKeeps(s: string, drop: char -> bool)
    ensures forall c :: c in s && !drop(c) ==> c in TrimRight(s, drop)
  {
    if |s| > 0 && drop(s[|s| - 1]) {
      TrimRightKeeps(s[..|s| - 1], drop);
      assert s == s[..|s| - 1] + [s[|s| - 1]];
    }
  }

  /** Trimming leaves nothing exactly when there was nothing to keep. */
  lemma TrimEmpty(s: string, drop: char -> bool)
    ensures Trim(s, drop) == "" <==> forall c :: c in s ==> drop(c)
  {
    TrimLeftKeeps(s, drop);
    TrimRightKeeps(TrimLeft(s, drop), drop);
  }

  lemma TrimSubset(s: string, drop: char -> bool)
    ensures forall c :: c in Trim(s, drop) ==> c in s
  {
    var l := TrimLeft(s, drop);
    assert forall k :: 0 <= k < |l| ==> l[k] == s[|s| - |l| + k];
  }

  /** Nothing but white space: what `strings.TrimSpace(s) == ""` tests. */
  predicate Blank(s: string) { forall k :: 0 <= k < |s| ==> IsSpace(s[k]) }

  lemma BlankIsTrimmedAway(s: string)
    ensures Blank(s) <==> Trim(s, IsSpace) == ""
  {
    TrimEmpty(s, IsSpace);
    assert forall k :: 0 <= k < |s| ==> s[k] in s;
  }

  /** Lower-casing as far as the sanitiser can see it: two letters outside ASCII lower into ASCII. */
  function Lower(c: char): char {
    if 'A' <= c <= 'Z' then ((c as int) + 32) as char
    else if c == '\U{212A}' then 'k'
    else if c == '\U{130}' then 'i'
    else c
  }

  /** In ASCII only the capitals move, and each to the same letter. */
  lemma LowerMeans(c: char)
    ensures c as int < 128 && !('A' <= c <= 'Z') ==> Lower(c) == c
    ensures Lower('A') == 'a' && ('A' <= c < 'Z' ==> Lower((c as int + 1) as char) as int == Lower(c) as int + 1)
    ensures Lower('\U{212A}') == 'k' && Lower('\U{130}') == 'i'
    ensures c as int >= 128 && Alnum(Lower(c)) ==> c == '\U{212A}' || c == '\U{130}'
  {
  }

  predicate Alnum(c: char) { 'a' <= c <= 'z' || '0' <= c <= '9' }
  predicate Edge(c: char) { c == '-' || c == '.' || c == '_' }
  predicate Safe(c: char) { Alnum(c) || Edge(c) }

  /** The text the builder holds after a string, given whether its last byte stands for a replaced run. */
  function Rewrite(s: string, lastDash: bool): string {
    if |s| == 0 then ""
    else if Safe(Lower(s[0])) then [Lower(s[0])] + Rewrite(s[1..], false)
    else if !lastDash then ['-'] + Rewrite(s[1..], true)
    else Rewrite(s[1..], true)
  }

  lemma {:induction false} RewriteSafe(s: string, lastDash: bool)
    ensures forall c :: c in Rewrite(s, lastDash) ==> Safe(c)
  {
    if |s| > 0 {
      RewriteSafe(s[1..], false);
      RewriteSafe(s[1..], true);
    }
  }

  /** Letters and digits survive, and no others appear. */
  lemma {:induction false} RewriteAlnum(s: string, lastDash: bool, c: char)
    requires Alnum(c)
    ensures c in Rewrite(s, lastDash) <==> exists k :: 0 <= k < |s| && Lower(s[k]) == c
  {
    if |s| > 0 {
      RewriteAlnum(s[1..], false, c);
      RewriteAlnum(s[1..], true, c);
      var rest := s[1..];
      if k :| 0 <= k < |s| && Lower(s[k]) == c { assert k == 0 || Lower(rest[k - 1]) == c; }
      if k :| 0 <= k < |rest| && Lower(rest[k]) == c { assert Lower(s[k + 1]) == c; }
    }
  }

  /** A namespace is the cleaned machine id, or a digest of it when cleaning leaves nothing.
      The digest is carried as the text it digests. */
  datatype Namespace = Clean(name: string) | Digest(of: string)

  function Named(machine: string): string {
    var t := Trim(machine, IsSpace);
    if t == "" then "machine" else t
  }

  function Component(machine: string): Namespace {
    var name := Trim(Rewrite(Named(machine), false), Edge);
    if name == "" then Digest(Named(machine)) else Clean(name)
  }

  // ---- the same, spelled out ----------------------------------------------

  /** Lower-case letters and digits of ASCII, by their codes, and three signs. */
  lemma SafeMeans(c: char)
    ensures Alnum(c) <==> 97 <= c as int <= 122 || 48 <= c as int <= 57
    ensures Edge(c) <==> c in "-._"
    ensures Safe(c) <==> Alnum(c) || c in "-._"
  {
  }

  /** Character by character: one that lowers to a safe one is kept so; of others in a row, the first leaves a dash. */
  lemma {:induction false} RewriteSnoc(s: string, c: char, lastDash: bool)
    ensures Safe(Lower(c)) ==> Rewrite(s + [c], lastDash) == Rewrite(s, lastDash) + [Lower(c)]
    ensures !Safe(Lower(c)) && (if s == "" then lastDash else !Safe(Lower(s[|s| - 1]))) ==>
              Rewrite(s + [c], lastDash) == Rewrite(s, lastDash)
    ensures !Safe(Lower(c)) && (if s == "" then !lastDash else Safe(Lower(s[|s| - 1]))) ==>
              Rewrite(s + [c], lastDash) == Rewrite(s, lastDash) + "-"
  {
    hide Safe, Lower;
    if s == "" {
      assert [c][1..] == "";
    } else {
      var dash := !Safe(Lower(s[0]));
      RewriteSnoc(s[1..], c, dash);
      assert (s + [c])[1..] == s[1..] + [c];
    }
  }

  /** What is kept of a text, and what of it is dropped at its ends. */
  lemma TrimMeans(s: string, drop: char -> bool) returns (left: string, right: string)
    ensures s == left + Trim(s, drop) + right
    ensures (forall c :: c in left ==> drop(c)) && forall c :: c in right ==> drop(c)
    ensures Trim(s, drop) != "" ==> !drop(Trim(s, drop)[0]) && !drop(Trim(s, drop)[|Trim(s, drop)| - 1])
  {
    var rest := TrimLeft(s, drop);
    left := s[..|s| - |rest|];
    right := rest[|Trim(s, drop)|..];
    DroppedLeft(s, drop);
    DroppedRight(rest, drop);
    ThreeParts(s, rest, Trim(s, drop));
  }

  lemma ThreeParts(s: string, rest: string, middle: string)
    requires |rest| <= |s| && rest == s[|s| - |rest|..] && |middle| <= |rest| && middle == rest[..|middle|]
    ensures s == s[..|s| - |rest|] + middle + rest[|middle|..]
  {
    assert rest == middle + rest[|middle|..];
  }

  lemma {:induction false} DroppedLeft(s: string, drop: char -> bool)
    ensures forall c :: c in s[..|s| - |TrimLeft(s, drop)|] ==> drop(c)
  {
    if |s| > 0 && drop(s[0]) {
      DroppedLeft(s[1..], drop);
      var n := |s| - |TrimLeft(s, drop)|;
      assert s[..n] == [s[0]] + s[1..][..n - 1];
    }
  }

  lemma {:induction false} DroppedRight(s: string, drop: char -> bool)
    ensures forall c :: c in s[|TrimRight(s, drop)|..] ==> drop(c)
  {
    if |s| > 0 && drop(s[|s| - 1]) {
      DroppedRight(s[..|s| - 1], drop);
      var n := |TrimRight(s, drop)|;
      assert s[n..] == s[..|s| - 1][n..] + [s[|s| - 1]];
    }
  }

  /** A machine's namespace: its id without white space around it, "machine" if there is nothing else; of that, what
      the rewriting leaves between dashes, dots and underscores, or its digest if that is nothing. */
  lemma ComponentMeans(machine: string) returns (id: string, l: string, r: string, name: string, a: string, b: string)
    ensures (forall c :: c in l + r ==> IsSpace(c)) && (id != "" ==> !IsSpace(id[0]) && !IsSpace(id[|id| - 1]))
    ensures machine == l + id + r
    ensures (forall c :: c in a + b ==> c in "-._") && (name != "" ==> name[0] !in "-._" && name[|name| - 1] !in "-._")
    ensures Rewrite(if id == "" then "machine" else id, false) == a + name + b
    ensures Component(machine) == if name == "" then Digest(if id == "" then "machine" else id) else Clean(name)
  {
    hide Trim, Rewrite, IsSpace, Edge;
    id, name := Trim(machine, IsSpace), Trim(Rewrite(Named(machine), false), Edge);
    l, r := TrimMeans(machine, IsSpace);
    a, b := TrimMeans(Rewrite(Named(machine), false), Edge);
    forall c ensures Edge(c) <==> c in "-._" { SafeMeans(c); }
  }

  /** What makes a directory name harmless: no separator, no dot name, alphanumeric at both ends. */
  predicate SafeName(name: string) {
    && |name| > 0
    && (forall c :: c in name ==> Safe(c))
    && Alnum(name[0]) && Alnum(name[|name| - 1])
  }

  /** Whatever the machine id, a clean namespace cannot leave its directory. */
  lemma ComponentSafe(machine: string)
    ensures Component(machine).Clean? ==> SafeName(Component(machine).name)
  {
    var r := Rewrite(Named(machine), false);
    RewriteSafe(Named(machine), false);
    TrimSubset(r, Edge);
    var name := Trim(r, Edge);
    assert |name| > 0 ==> name[0] in r && name[|name| - 1] in r;
  }

  /** The digest form is used exactly when the id to clean has no letter or digit. */
  lemma ComponentIsClean(machine: string)
    ensures Component(machine).Clean? <==>
            exists k :: 0 <= k < |Named(machine)| && Alnum(Lower(Named(machine)[k]))
  {
    var m := Named(machine);
    var r := Rewrite(m, false);
    TrimEmpty(r, Edge);
    RewriteSafe(m, false);
    if k :| 0 <= k < |m| && Alnum(Lower(m[k])) {
      RewriteAlnum(m, false, Lower(m[k]));
    }
    if c :| c in r && !Edge(c) {
      RewriteAlnum(m, false, c);
    }
  }

  lemma {:induction false} RewriteFixesSafe(s: string, lastDash: bool)
    requires forall c :: c in s ==> Safe(c)
    ensures Rewrite(s, lastDash) == s
  {
    if |s| > 0 {
      assert s[0] in s;
      RewriteFixesSafe(s[1..], false);
      assert s == [s[0]] + s[1..];
    }
  }

  lemma TrimFixes(s: string, drop: char -> bool)
    requires |s| > 0 && !drop(s[0]) && !drop(s[|s| - 1])
    ensures Trim(s, drop) == s
  {
  }

  lemma SafeNameIsItsOwn(name: string)
    requires SafeName(name)
    ensures Component(name) == Clean(name)
  {
    AlnumIsPlain(name[0]);
    AlnumIsPlain(name[|name| - 1]);
    RewriteFixesSafe(name, false);
    TrimFixes(name, IsSpace);
    TrimFixes(name, Edge);
    hide Trim, Rewrite, IsSpace, Edge;
  }

  lemma AlnumIsPlain(c: char)
    requires Alnum(c)
    ensures !IsSpace(c) && !Edge(c)
  {
  }

  /** Cleaning is a projection: a namespace name is its own namespace. */
  lemma ComponentIdempotent(machine: string)
    requires Component(machine).Clean?
    ensures Component(Component(machine).name) == Component(machine)
  {
    hide *;
    ComponentSafe(machine);
    SafeNameIsItsOwn(Component(machine).name);
  }

  /** A letter in either case names one namespace, so distinct ids can share one:
      per-machine facts are per namespace. */
  lemma ComponentNotInjective(upper: char)
    requires 'A' <= upper <= 'Z'
    ensures Component([upper]) == Component([Lower(upper)]) && [upper] != [Lower(upper)]
  {
    var lower := Lower(upper);
    TrimFixes([upper], IsSpace);
    TrimFixes([lower], IsSpace);
    TrimFixes([lower], Edge);
    assert [upper][1..] == "" && [lower][1..] == "";
    assert Rewrite([upper], false) == [lower] + Rewrite("", false) == [lower];
    assert Rewrite([lower], false) == [lower] + Rewrite("", false) == [lower];
  }

  /** The sanitiser as it runs: one pass with a builder and a flag for the last replaced run. */
  method SafeCatalogComponent(machine: string) returns (ns: Namespace)
    ensures ns == Component(machine)
  {
    var m := Trim(machine, IsSpace);
    if m == "" { m := "machine"; }
    var b := Build(m);
    var out := Trim(b, Edge);
    if out == "" { ns := Digest(m); } else { ns := Clean(out); }
  }

  method Build(m: string) returns (b: string)
    ensures b == Rewrite(m, false)
  {
    b := "";
    var lastDash := false;
    for i := 0 to |m|
      invariant Rewrite(m, false) == b + Rewrite(m[i..], lastDash)
    {
      var c := Lower(m[i]);
      RewriteNext(b, m, i, lastDash);
      if Safe(c) {
        b := b + [c];
        lastDash := false;
        continue;
      }
      if !lastDash {
        b := b + ['-'];
        lastDash := true;
      }
    }
  }

  lemma RewriteNext(b: string, m: string, i: nat, lastDash: bool)
    requires i < |m|
    ensures b + Rewrite(m[i..], lastDash) ==
            if Safe(Lower(m[i])) then (b + [Lower(m[i])]) + Rewrite(m[i + 1..], false)
            else if lastDash then b + Rewrite(m[i + 1..], true)
            else (b + ['-']) + Rewrite(m[i + 1..], true)
  {
    var s := m[i..];
    assert s[0] == m[i] && s[1..] == m[i + 1..];
  }

  // ---- the machine registry ---------------------------------------------

  /** The canonical listing of a set of machine ids. */
  function Listing(machines: seq<string>): (out: seq<string>)
    ensures Ascending(out) && Elements(out) == Elements(machines)
  {
    if |machines| == 0 then []
    else
      assert machines == machines[..|machines| - 1] + [machines[|machines| - 1]];
      AddSorted(Listing(machines[..|machines| - 1]), machines[|machines| - 1])
  }

  function AddSorted(s: seq<string>, m: string): (out: seq<string>)
    requires Ascending(s)
    ensures Ascending(out) && Elements(out) == Elements(s) + {m}
  {
    if |s| == 0 then AscendingOne(m); [m]
    else if s[0] == m then assert m in s; s
    else if Less(m, s[0]) then
      AscendingBefore(s, m);
      ElementsCons(m, s);
      [m] + s
    else
      LessTotal(m, s[0]);
      AscendingRest(s);
      var t := AddSorted(s[1..], m);
      AscendingAfter(s, m, t);
      ElementsCons(s[0], s[1..]);
      ElementsCons(s[0], t);
      assert s == [s[0]] + s[1..];
      [s[0]] + t
  }

  lemma AscendingOne(m: string)
    ensures Ascending([m]) && Elements([m]) == {m} && Elements<string>([]) == {}
  {
  }

  lemma AscendingRest(s: seq<string>)
    requires Ascending(s) && |s| > 0
    ensures Ascending(s[1..])
  {
  }

  lemma ElementsCons<T>(x: T, s: seq<T>)
    ensures Elements([x] + s) == {x} + Elements(s)
  {
    assert forall y :: y in [x] + s <==> y == x || y in s;
  }

  lemma AscendingBefore(s: seq<string>, m: string)
    requires Ascending(s) && |s| > 0 && Less(m, s[0])
    ensures Ascending([m] + s)
  {
    forall j | 0 <= j < |s| ensures Less(m, s[j]) {
      if j > 0 { LessTransitive(m, s[0], s[j]); }
    }
  }

  lemma AscendingAfter(s: seq<string>, m: string, t: seq<string>)
    requires Ascending(s) && |s| > 0 && Less(s[0], m)
    requires Ascending(t) && Elements(t) == Elements(s[1..]) + {m}
    ensures Ascending([s[0]] + t)
  {
    forall j | 0 <= j < |t| ensures Less(s[0], t[j]) {
      assert t[j] in Elements(t);
      if t[j] != m {
        assert t[j] in Elements(s[1..]);
        var k :| 0 <= k < |s[1..]| && s[1..][k] == t[j];
        assert s[k + 1] == t[j];
      }
    }
  }

  /** The registry holds a set: arrival order and repetition leave no trace in its bytes. */
  lemma ListingCanonical(a: seq<string>, b: seq<string>)
    ensures Listing(a) == Listing(b) <==> Elements(a) == Elements(b)
  {
    if Elements(a) == Elements(b) { AscendingUnique(Listing(a), Listing(b)); }
  }

  datatype Encoded = Encoded(machines: seq<string>) | EmptyMachineId

  /** EncodeMachinesIndex and the list part of DecodeMachinesIndex: refuse a blank id, drop repeats, sort. */
  method NormaliseMachines(machines: seq<string>) returns (r: Encoded)
    ensures r.EmptyMachineId? <==> exists m :: m in machines && Blank(m)
    ensures r.Encoded? ==> r.machines == Listing(machines)
  {
    var seen: set<string> := {};
    var out: seq<string> := [];
    for i := 0 to |machines|
      invariant forall m :: m in machines[..i] ==> !Blank(m)
      invariant Elements(out) == seen == Elements(machines[..i])
      invariant forall j, k :: 0 <= j < k < |out| ==> out[j] != out[k]
    {
      assert machines[..i + 1] == machines[..i] + [machines[i]];
      assert machines[i] in machines;
      if Blank(machines[i]) { return EmptyMachineId; }
      if machines[i] !in seen {
        assert forall j :: 0 <= j < |out| ==> out[j] in Elements(out);
        seen := seen + {machines[i]};
        out := out + [machines[i]];
      }
    }
    assert machines[..|machines|] == machines;
    var sorted := SortBy(out, Less);
    SortedDistinct(out);
    AscendingUnique(sorted, Listing(machines));
    r := Encoded(sorted);
  }

  lemma SortedDistinct(s: seq<string>)
    requires forall j, k :: 0 <= j < k < |s| ==> s[j] != s[k]
    ensures Ascending(SortBy(s, Less)) && Elements(SortBy(s, Less)) == Elements(s)
  {
    LessIsStrict();
    var t := SortBy(s, Less);
    SortByPermutes(s, Less);
    SortBySorted(s, Less);
    SortByMembers(s, Less);
    DistinctMultiset(s);
    forall i, j | 0 <= i < j < |t| ensures Less(t[i], t[j]) {
      LessTotal(t[i], t[j]);
      assert t[i] in s;
      if t[i] == t[j] { RepeatCounts(t, i, j); }
    }
  }

  lemma {:induction false} DistinctMultiset<T>(s: seq<T>)
    requires forall j, k :: 0 <= j < k < |s| ==> s[j] != s[k]
    ensures forall x :: x in s ==> multiset(s)[x] == 1
  {
    if |s| > 0 {
      DistinctMultiset(s[1..]);
      assert s == [s[0]] + s[1..];
      assert s[0] !in s[1..];
      assert multiset(s) == multiset{s[0]} + multiset(s[1..]);
    }
  }

  lemma RepeatCounts<T>(s: seq<T>, i: nat, j: nat)
    requires i < j < |s| && s[i] == s[j]
    ensures multiset(s)[s[i]] >= 2
  {
    assert s == s[..i] + [s[i]] + s[i + 1..j] + [s[j]] + s[j + 1..];
  }
}
