/** Pairing tool calls with their results, and storing the pairs append-only while transcripts grow. */
module Pairing {
  import opened Options

  datatype Call = Call(id: string, tool: string, command: string, files: string, ordinal: int)

  datatype Outcome = Outcome(isError: bool, text: string, exitCode: Option<int>)

  datatype Result = Result(forId: string, outcome: Outcome)

  /** The columns of a message row that no rule below looks inside of. */
  datatype Columns = Columns(model: string, provider: string, tokens: int, cacheRead: int, cacheWrite: int,
                             reasoning: int, cost: real, thinking: string, tag: string, tagTarget: string)

  /** A parsed transcript entry. */
  datatype Entry = Entry(id: string, parent: string, line: int, kind: string, at: string, role: string, raw: string,
                         text: string, tool: string, command: string, files: string, calls: seq<Call>,
                         results: seq<Result>, columns: Columns, firstKept: string, tokensBefore: int,
                         participates: bool, metadata: string)

  datatype Invocation = Invocation(entry: string, line: int, key: string, useId: string, ordinal: int, tool: string,
                                   family: string, command: string, at: string, observed: bool, isError: bool,
                                   exitCode: Option<int>, text: string, signature: string)

  /** The command-family and error-signature normalisers. */
  datatype Naming = Naming(family: (string, string) -> string, signature: string -> string)

  // ---- which calls, which results --------------------------------------------------

  datatype Item = Item(entry: Entry, call: Call)

  /** An entry from before calls were listed: its own tool columns are its one call. */
  predicate Legacy(e: Entry) {
    && e.calls == [] && e.results == [] && e.role != "toolResult" && e.role != "bashExecution"
    && (e.tool != "" || e.command != "")
  }

  /** The calls an entry makes. */
  function CallList(e: Entry): seq<Call> { if Legacy(e) then [Call("", e.tool, e.command, e.files, 0)] else e.calls }

  function CallsOf(e: Entry): seq<Item> {
    seq(|CallList(e)|, k requires 0 <= k < |CallList(e)| => Item(e, CallList(e)[k]))
  }

  predicate Empty(c: Call) { c.tool == "" && c.command == "" && c.files == "" }

  function Items(entries: seq<Entry>): seq<Item> {
    if |entries| == 0 then [] else Items(entries[..|entries| - 1]) + CallsOf(entries[|entries| - 1])
  }

  function Live(items: seq<Item>): seq<Item> {
    if |items| == 0 then []
    else Live(items[..|items| - 1]) + if Empty(items[|items| - 1].call) then [] else [items[|items| - 1]]
  }

  function Results(entries: seq<Entry>): seq<Result> {
    if |entries| == 0 then [] else Results(entries[..|entries| - 1]) + entries[|entries| - 1].results
  }

  function Unkeyed(results: seq<Result>): seq<Outcome> {
    if |results| == 0 then []
    else Unkeyed(results[..|results| - 1])
         + if results[|results| - 1].forId == "" then [results[|results| - 1].outcome] else []
  }

  /** The first result naming a call id. */
  function FirstFor(results: seq<Result>, id: string): Option<Outcome> {
    if |results| == 0 then None
    else
      var earlier := FirstFor(results[..|results| - 1], id);
      if earlier.Some? then earlier
      else if results[|results| - 1].forId == id then Some(results[|results| - 1].outcome)
      else None
  }

  function UnkeyedCalls(items: seq<Item>): nat {
    if |items| == 0 then 0
    else UnkeyedCalls(items[..|items| - 1]) + if items[|items| - 1].call.id == "" then 1 else 0
  }

  /** A call with an id takes the first result naming it; the n-th call without takes the n-th result without. */
  function OutcomeFor(items: seq<Item>, k: nat, results: seq<Result>): Option<Outcome>
    requires k < |items|
  {
    if items[k].call.id != "" then FirstFor(results, items[k].call.id)
    else if UnkeyedCalls(items[..k]) < |Unkeyed(results)| then Some(Unkeyed(results)[UnkeyedCalls(items[..k])])
    else None
  }

  // ---- one invocation ----------------------------------------------------------------

  function Digits(n: nat): string {
    if n < 10 then [('0' as int + n) as char] else Digits(n / 10) + [('0' as int + n % 10) as char]
  }

  function Zeros(n: int): string { if n <= 0 then "" else "0" + Zeros(n - 1) }

  /** The format "#%03d". */
  function OrdinalKey(n: int): string {
    if n >= 0 then "#" + Zeros(3 - |Digits(n)|) + Digits(n)
    else "#-" + Zeros(2 - |Digits(-n)|) + Digits(-n)
  }

  function KeyOf(c: Call): string { if c.id == "" then OrdinalKey(c.ordinal) else c.id }

  function Unpaired(n: Naming, item: Item): Invocation {
    var c := item.call;
    Invocation(item.entry.id, item.entry.line, KeyOf(c), c.id, c.ordinal, c.tool, n.family(c.tool, c.command),
               n.family(c.tool, c.command), item.entry.at, false, false, None, "", "")
  }

  function Invoke(n: Naming, item: Item, outcome: Option<Outcome>): Invocation {
    match outcome
    case None => Unpaired(n, item)
    case Some(o) =>
      Unpaired(n, item).(observed := true, isError := o.isError, exitCode := o.exitCode,
                         text := if o.isError then o.text else "",
                         signature := if o.isError then n.signature(o.text) else "")
  }

  function PairsOf(n: Naming, items: seq<Item>, results: seq<Result>): seq<Invocation> {
    seq(|items|, k requires 0 <= k < |items| => Invoke(n, items[k], OutcomeFor(items, k, results)))
  }

  /** What a transcript's calls came to. */
  function Paired(n: Naming, entries: seq<Entry>): seq<Invocation> {
    PairsOf(n, Live(Items(entries)), Results(entries))
  }

  // ---- the builder ---------------------------------------------------------------------

  /** What the maps hold after reading some results. */
  ghost predicate Gathered(results: seq<Result>, byId: map<string, Outcome>, unkeyed: seq<Outcome>) {
    && unkeyed == Unkeyed(results)
    && forall id :: id != "" ==> FirstFor(results, id) == if id in byId then Some(byId[id]) else None
  }

  method GatherResults(entries: seq<Entry>) returns (byId: map<string, Outcome>, unkeyed: seq<Outcome>)
    ensures Gathered(Results(entries), byId, unkeyed)
  {
    byId, unkeyed := map[], [];
    ghost var read: seq<Result> := [];
    for i := 0 to |entries|
      invariant read == Results(entries[..i]) && Gathered(read, byId, unkeyed)
    {
      assert entries[..i + 1][..i] == entries[..i];
      ghost var before := read;
      for j := 0 to |entries[i].results|
        invariant read == before + entries[i].results[..j] && Gathered(read, byId, unkeyed)
      {
        var r := entries[i].results[j];
        ghost var next := read + [r];
        assert next[..|read|] == read;
        if r.forId != "" {
          if r.forId !in byId { byId := byId[r.forId := r.outcome]; }
        } else {
          unkeyed := unkeyed + [r.outcome];
        }
        read := next;
      }
      assert entries[i].results[..|entries[i].results|] == entries[i].results;
    }
    assert entries[..|entries|] == entries;
  }

  method GatherCalls(entries: seq<Entry>) returns (items: seq<Item>)
    ensures items == Items(entries)
  {
    items := [];
    for i := 0 to |entries|
      invariant items == Items(entries[..i])
    {
      var e := entries[i];
      assert entries[..i + 1][..i] == entries[..i];
      if |e.calls| == 0 && |e.results| == 0 && e.role != "toolResult" && e.role != "bashExecution"
         && (e.tool != "" || e.command != "") {
        items := items + [Item(e, Call("", e.tool, e.command, e.files, 0))];
        continue;
      }
      ghost var before := items;
      for j := 0 to |e.calls|
        invariant items == before + CallsOf(e)[..j]
      {
        items := items + [Item(e, e.calls[j])];
      }
    }
    assert entries[..|entries|] == entries;
  }

  /** BuildToolInvocations: two gathering passes, then one walk that steps through the unkeyed results. */
  method BuildToolInvocations(n: Naming, entries: seq<Entry>) returns (out: seq<Invocation>)
    ensures out == Paired(n, entries)
  {
    hide PairsOf, Gathered, UnkeyedCalls;
    var byId, unkeyed := GatherResults(entries);
    var items := GatherCalls(entries);
    ghost var results := Results(entries);
    out := [];
    var unkeyedIndex := 0;
    ghost var live: seq<Item> := [];
    PairsOfNone(n, results, unkeyed);
    for i := 0 to |items|
      invariant live == Live(items[..i]) && out == PairsOf(n, live, results)
      invariant unkeyedIndex == Taken(live, unkeyed)
    {
      assert items[..i + 1][..i] == items[..i];
      if Empty(items[i].call) { continue; }
      PairsSnoc(n, live, items[i], results);
      var o;
      o, unkeyedIndex := TakeOutcome(items[i], byId, unkeyed, unkeyedIndex, live, results);
      out := out + [Invoke(n, items[i], o)];
      live := live + [items[i]];
    }
    assert items[..|items|] == items;
  }

  lemma PairsOfNone(n: Naming, results: seq<Result>, unkeyed: seq<Outcome>)
    ensures PairsOf(n, [], results) == [] && Taken([], unkeyed) == 0
  {
  }

  /** How many unkeyed results the calls so far have used. */
  ghost function Taken(items: seq<Item>, unkeyed: seq<Outcome>): nat {
    if UnkeyedCalls(items) < |unkeyed| then UnkeyedCalls(items) else |unkeyed|
  }

  /** The outcome of the next call, and the unkeyed index after it. */
  method TakeOutcome(item: Item, byId: map<string, Outcome>, unkeyed: seq<Outcome>, index: nat,
                     ghost live: seq<Item>, ghost results: seq<Result>)
    returns (o: Option<Outcome>, index': nat)
    requires Gathered(results, byId, unkeyed) && index == Taken(live, unkeyed)
    ensures o == OutcomeFor(live + [item], |live|, results)
    ensures index' == Taken(live + [item], unkeyed)
  {
    assert (live + [item])[..|live|] == live;
    o, index' := None, index;
    if item.call.id != "" {
      if item.call.id in byId { o := Some(byId[item.call.id]); }
    } else if index < |unkeyed| {
      o := Some(unkeyed[index]);
      index' := index + 1;
    }
  }

  lemma PairsSnoc(n: Naming, items: seq<Item>, item: Item, results: seq<Result>)
    ensures PairsOf(n, items + [item], results)
            == PairsOf(n, items, results) + [Invoke(n, item, OutcomeFor(items + [item], |items|, results))]
  {
    hide Invoke;
    forall k | 0 <= k < |items| ensures OutcomeFor(items + [item], k, results) == OutcomeFor(items, k, results) {
      assert (items + [item])[..k] == items[..k];
    }
  }

  // ---- what an invocation says ---------------------------------------------------------

  /** The calls listed, or for an entry that lists neither calls nor results and is no result itself, the tool it
      names. */
  ghost predicate Makes(e: Entry, c: Call) {
    if e.calls != [] || e.results != [] || e.role == "toolResult" || e.role == "bashExecution"
       || (e.tool == "" && e.command == "")
    then c in e.calls
    else c.id == "" && c.tool == e.tool && c.command == e.command && c.files == e.files && c.ordinal == 0
  }

  /** The calls of a transcript that name a tool, a command or files: entry by entry, and in an entry as listed. */
  lemma CallsMade(entries: seq<Entry>, e: Entry, c: Call)
    ensures Item(e, c) in Live(Items(entries)) <==>
            e in entries && Makes(e, c) && (c.tool != "" || c.command != "" || c.files != "")
  {
    ItemsMembers(entries, e, c);
    LiveMembers(Items(entries), Item(e, c));
    hide Items, Live, Makes;
  }

  lemma {:induction false} ItemsMembers(entries: seq<Entry>, e: Entry, c: Call)
    ensures Item(e, c) in Items(entries) <==> e in entries && Makes(e, c)
  {
    hide Makes, CallsOf;
    if |entries| > 0 {
      var n := |entries| - 1;
      ItemsMembers(entries[..n], e, c);
      CallsOfMembers(entries[n], e, c);
      assert entries == entries[..n] + [entries[n]];
    }
  }

  lemma {:induction false} LiveMembers(items: seq<Item>, i: Item)
    ensures i in Live(items) <==> i in items && (i.call.tool != "" || i.call.command != "" || i.call.files != "")
  {
    if |items| > 0 {
      LiveMembers(items[..|items| - 1], i);
      assert items == items[..|items| - 1] + [items[|items| - 1]];
    }
  }

  lemma CallsOfMembers(last: Entry, e: Entry, c: Call)
    ensures Item(e, c) in CallsOf(last) <==> e == last && Makes(last, c)
  {
    if e == last && c in CallList(last) {
      var k :| 0 <= k < |CallList(last)| && CallList(last)[k] == c;
      assert CallsOf(last)[k] == Item(e, c);
    }
  }

  /** What a run of decimal digits counts. */
  function Counts(digits: string): nat
    requires forall k :: 0 <= k < |digits| ==> '0' <= digits[k] <= '9'
  {
    if |digits| == 0 then 0
    else Counts(digits[..|digits| - 1]) * 10 + (digits[|digits| - 1] as int - '0' as int)
  }

  lemma {:induction false} DigitsMean(n: nat)
    ensures forall k :: 0 <= k < |Digits(n)| ==> '0' <= Digits(n)[k] <= '9'
    ensures Counts(Digits(n)) == n && |Digits(n)| > 0 && (|Digits(n)| > 1 ==> Digits(n)[0] != '0')
  {
    if n >= 10 {
      DigitsMean(n / 10);
      assert Digits(n)[..|Digits(n)| - 1] == Digits(n / 10);
      if |Digits(n / 10)| == 1 { assert Counts(Digits(n / 10)[..0]) == 0; }
    } else {
      assert Counts(Digits(n)[..0]) == 0;
    }
  }

  lemma {:induction false} ZerosMean(n: int)
    ensures |Zeros(n)| == (if n > 0 then n else 0) && forall k :: 0 <= k < |Zeros(n)| ==> Zeros(n)[k] == '0'
  {
    if n > 0 { ZerosMean(n - 1); }
  }

  /** A minus sign, zeros and digits: at least three characters, zeros only to fill them. */
  ghost predicate Padded(n: int, t: string) {
    exists sign, zeros, digits: string :: Spelled(n, t, sign, zeros, digits)
  }

  ghost predicate Spelled(n: int, t: string, sign: string, zeros: string, digits: string) {
    && t == sign + zeros + digits && sign == (if n < 0 then "-" else "")
    && (forall k :: 0 <= k < |zeros| ==> zeros[k] == '0') && |t| >= 3 && (zeros != "" ==> |t| == 3)
    && (forall k :: 0 <= k < |digits| ==> '0' <= digits[k] <= '9') && (|digits| > 1 ==> digits[0] != '0')
    && |digits| > 0 && Counts(digits) == if n < 0 then -n else n
  }

  lemma OrdinalKeyMeans(n: int)
    ensures |OrdinalKey(n)| > 0 && OrdinalKey(n)[0] == '#' && Padded(n, OrdinalKey(n)[1..])
  {
    hide Digits, Zeros, Counts;
    var digits, room := Digits(if n < 0 then -n else n), if n < 0 then 2 else 3;
    DigitsMean(if n < 0 then -n else n);
    ZerosMean(room - |digits|);
    var sign, zeros := if n < 0 then "-" else "", Zeros(room - |digits|);
    assert OrdinalKey(n) == "#" + (sign + zeros + digits);
    assert Spelled(n, sign + zeros + digits, sign, zeros, digits);
  }

  /** An invocation's columns, its outcome apart. */
  ghost predicate OfCall(n: Naming, i: Invocation, e: Entry, c: Call) {
    && i.entry == e.id && i.line == e.line && i.at == e.at && i.useId == c.id && i.ordinal == c.ordinal
    && i.tool == c.tool && i.family == n.family(c.tool, c.command) && i.command == n.family(c.tool, c.command)
    && i.key == if c.id != "" then c.id else OrdinalKey(c.ordinal)
  }

  /** The outcome shows: text and signature of an error only. */
  ghost predicate Shows(n: Naming, i: Invocation, o: Outcome) {
    && i.observed && i.isError == o.isError && i.exitCode == o.exitCode
    && (o.isError ==> i.text == o.text && i.signature == n.signature(o.text))
    && (!o.isError ==> i.text == "" && i.signature == "")
  }

  /** Nothing shows. */
  ghost predicate Unseen(i: Invocation) {
    !i.observed && !i.isError && i.exitCode.None? && i.text == "" && i.signature == ""
  }

  /** r is the first result naming this id. */
  ghost predicate FirstNaming(results: seq<Result>, id: string, r: nat) {
    r < |results| && results[r].forId == id && forall q :: 0 <= q < r ==> results[q].forId != id
  }

  /** How many of the first r results name no call. */
  ghost function Unnamed(results: seq<Result>, r: nat): nat
    requires r <= |results|
  {
    |set q | 0 <= q < r && results[q].forId == ""|
  }

  /** r is result number m of those naming no call. */
  ghost predicate NumberedUnkeyed(results: seq<Result>, m: nat, r: nat) {
    r < |results| && results[r].forId == "" && Unnamed(results, r) == m
  }

  /** Before r no result names this id. */
  ghost predicate NoneNames(results: seq<Result>, id: string, r: nat) {
    r <= |results| && forall q :: 0 <= q < r ==> results[q].forId != id
  }

  /** Where the result is that answers a call id; past the end if there is none. */
  lemma {:induction false} FirstForAt(results: seq<Result>, id: string) returns (r: nat)
    ensures NoneNames(results, id, r)
    ensures r == |results| ==> FirstFor(results, id).None?
    ensures r < |results| ==> results[r].forId == id && FirstFor(results, id) == Some(results[r].outcome)
  {
    if |results| == 0 { return 0; }
    var n := |results| - 1;
    r := FirstForAt(results[..n], id);
    assert results == results[..n] + [results[n]];
    NamesSnoc(results[..n], results[n], id, r);
    hide NoneNames;
    if r == n && results[n].forId != id { r := n + 1; }
  }

  lemma NamesSnoc(results: seq<Result>, x: Result, id: string, r: nat)
    requires NoneNames(results, id, r)
    ensures NoneNames(results + [x], id, r)
    ensures r == |results| && x.forId != id ==> NoneNames(results + [x], id, r + 1)
  {
  }

  lemma FirstForMeans(results: seq<Result>, id: string)
    ensures FirstFor(results, id).None? <==> forall q :: 0 <= q < |results| ==> results[q].forId != id
    ensures FirstFor(results, id).Some? ==>
              exists r: nat :: FirstNaming(results, id, r) && FirstFor(results, id).value == results[r].outcome
  {
    var r := FirstForAt(results, id);
    hide FirstFor;
    assert r < |results| ==> FirstNaming(results, id, r);
  }

  lemma UnnamedNext(results: seq<Result>, r: nat)
    requires r < |results|
    ensures Unnamed(results, r + 1) == Unnamed(results, r) + if results[r].forId == "" then 1 else 0
  {
    var before, after := set q | 0 <= q < r && results[q].forId == "", set q | 0 <= q < r + 1 && results[q].forId == "";
    if results[r].forId == "" { assert after == before + {r}; } else { assert after == before; }
  }

  lemma {:induction false} UnkeyedCounts(results: seq<Result>, r: nat)
    requires r <= |results|
    ensures |Unkeyed(results[..r])| == Unnamed(results, r)
  {
    hide Unnamed;
    if r == 0 {
      assert Unnamed(results, 0) == 0 by { NoneUnnamed(results); }
    } else {
      UnkeyedCounts(results, r - 1);
      UnnamedNext(results, r - 1);
      assert results[..r][..r - 1] == results[..r - 1];
    }
  }

  lemma NoneUnnamed(results: seq<Result>)
    ensures Unnamed(results, 0) == 0
  {
  }

  lemma {:induction false} UnkeyedHas(results: seq<Result>, n: nat, m: nat) returns (r: nat)
    requires n <= |results| && m < |Unkeyed(results[..n])|
    ensures NumberedUnkeyed(results, m, r) && Unkeyed(results[..n])[m] == results[r].outcome
  {
    hide Unnamed;
    UnkeyedCounts(results, n - 1);
    assert results[..n][..n - 1] == results[..n - 1];
    if m < |Unkeyed(results[..n - 1])| { r := UnkeyedHas(results, n - 1, m); } else { r := n - 1; }
  }

  lemma {:induction false} UnnamedGrows(results: seq<Result>, r: nat, n: nat)
    requires r <= n <= |results|
    ensures Unnamed(results, r) <= Unnamed(results, n)
    decreases n
  {
    hide Unnamed;
    if r < n {
      UnnamedGrows(results, r, n - 1);
      UnnamedNext(results, n - 1);
    }
  }

  lemma NumberedIsFew(results: seq<Result>, m: nat, r: nat)
    requires NumberedUnkeyed(results, m, r)
    ensures m < |Unkeyed(results)|
  {
    hide Unnamed;
    UnkeyedCounts(results, |results|);
    assert results[..|results|] == results;
    UnnamedNext(results, r);
    UnnamedGrows(results, r + 1, |results|);
  }

  /** How many of the first k calls carry no id. */
  ghost function WithoutId(invs: seq<Invocation>, k: nat): nat
    requires k <= |invs|
  {
    |set q | 0 <= q < k && invs[q].useId == ""|
  }

  lemma WithoutIdNext(invs: seq<Invocation>, k: nat)
    requires k < |invs|
    ensures WithoutId(invs, k + 1) == WithoutId(invs, k) + if invs[k].useId == "" then 1 else 0
  {
    var before, after := set q | 0 <= q < k && invs[q].useId == "", set q | 0 <= q < k + 1 && invs[q].useId == "";
    if invs[k].useId == "" { assert after == before + {k}; } else { assert after == before; }
  }

  lemma {:induction false} UnkeyedCallCounts(items: seq<Item>, invs: seq<Invocation>, k: nat)
    requires k <= |items| == |invs| && forall q :: 0 <= q < k ==> invs[q].useId == items[q].call.id
    ensures UnkeyedCalls(items[..k]) == WithoutId(invs, k)
  {
    hide WithoutId;
    if k == 0 {
      assert WithoutId(invs, 0) == 0 by { NoneWithoutId(invs); }
    } else {
      UnkeyedCallCounts(items, invs, k - 1);
      WithoutIdNext(invs, k - 1);
      assert items[..k][..k - 1] == items[..k - 1];
    }
  }

  lemma NoneWithoutId(invs: seq<Invocation>)
    ensures WithoutId(invs, 0) == 0
  {
  }

  /** Call k came to what its result says: the first result naming its id; or, of a call without one, the result
      without one that is as many-th among those as the call is among calls. */
  ghost predicate OutcomeTold(n: Naming, results: seq<Result>, invs: seq<Invocation>, k: nat)
    requires k < |invs|
  {
    var i := invs[k];
    if i.useId != "" then
      if exists q :: 0 <= q < |results| && results[q].forId == i.useId
      then exists r: nat :: FirstNaming(results, i.useId, r) && Shows(n, i, results[r].outcome)
      else Unseen(i)
    else
      if exists r: nat :: NumberedUnkeyed(results, WithoutId(invs, k), r)
      then exists r: nat :: NumberedUnkeyed(results, WithoutId(invs, k), r) && Shows(n, i, results[r].outcome)
      else Unseen(i)
  }

  /** What a transcript's calls came to, said of the invocations alone. */
  lemma InvocationsTold(n: Naming, entries: seq<Entry>)
    ensures var items, invs := Live(Items(entries)), Paired(n, entries);
            && |invs| == |items|
            && forall k :: 0 <= k < |invs| ==>
                 OfCall(n, invs[k], items[k].entry, items[k].call) && OutcomeTold(n, Results(entries), invs, k)
  {
    hide Items, Live, Results, FirstFor, Unkeyed, UnkeyedCalls, OrdinalKey, OutcomeFor, OutcomeTold;
    var items, results, invs := Live(Items(entries)), Results(entries), Paired(n, entries);
    forall k | 0 <= k < |invs| ensures OutcomeTold(n, results, invs, k) {
      assert forall q :: 0 <= q <= k ==> invs[q].useId == items[q].call.id;
      assert invs[k] == Invoke(n, items[k], OutcomeFor(items, k, results));
      if items[k].call.id != "" {
        NamedTold(n, items, results, invs, k);
      } else {
        UnnamedTold(n, items, results, invs, k);
      }
    }
  }

  lemma NamedTold(n: Naming, items: seq<Item>, results: seq<Result>, invs: seq<Invocation>, k: nat)
    requires k < |items| == |invs| && invs[k].useId == items[k].call.id != ""
    requires invs[k] == Invoke(n, items[k], OutcomeFor(items, k, results))
    ensures OutcomeTold(n, results, invs, k)
  {
    hide FirstFor, Unkeyed, UnkeyedCalls, OrdinalKey, WithoutId, Unnamed;
    FirstForMeans(results, items[k].call.id);
  }

  lemma UnnamedTold(n: Naming, items: seq<Item>, results: seq<Result>, invs: seq<Invocation>, k: nat)
    requires k < |items| == |invs| && items[k].call.id == ""
    requires forall q :: 0 <= q <= k ==> invs[q].useId == items[q].call.id
    requires invs[k] == Invoke(n, items[k], OutcomeFor(items, k, results))
    ensures OutcomeTold(n, results, invs, k)
  {
    hide FirstFor, Unkeyed, UnkeyedCalls, OrdinalKey, Unnamed, WithoutId;
    UnkeyedCallCounts(items, invs, k);
    var m := WithoutId(invs, k);
    assert results[..|results|] == results;
    if m < |Unkeyed(results)| {
      var r := UnkeyedHas(results, |results|, m);
      assert NumberedUnkeyed(results, m, r);
    } else if r: nat :| NumberedUnkeyed(results, m, r) {
      NumberedIsFew(results, m, r);
    }
  }

  /** x is listed before y: in an earlier entry, or earlier in one. */
  ghost predicate ListedBefore(entries: seq<Entry>, x: Item, y: Item) {
    exists a, b :: 0 <= a <= b < |entries| && entries[a] == x.entry && entries[b] == y.entry
                   && (a == b ==> ListedWithin(x.entry, x.call, y.call))
  }

  ghost predicate ListedWithin(e: Entry, c: Call, d: Call) {
    exists p, q :: 0 <= p < q < |e.calls| && e.calls[p] == c && e.calls[q] == d
  }

  lemma {:induction false} LiveKeepsOrder(items: seq<Item>, i: nat, j: nat) returns (p: nat, q: nat)
    requires i < j < |Live(items)|
    ensures p < q < |items| && items[p] == Live(items)[i] && items[q] == Live(items)[j]
  {
    var n := |items| - 1;
    var front := Live(items[..n]);
    if j < |front| {
      p, q := LiveKeepsOrder(items[..n], i, j);
    } else {
      LiveItems(items[..n]);
      assert front[i] in items[..n];
      p :| 0 <= p < n && items[p] == front[i];
      q := n;
    }
  }

  lemma {:induction false} ItemsKeepOrder(entries: seq<Entry>, i: nat, j: nat)
    requires i < j < |Items(entries)|
    ensures ListedBefore(entries, Items(entries)[i], Items(entries)[j])
  {
    var n := |entries| - 1;
    var front, last := Items(entries[..n]), CallsOf(entries[n]);
    if j < |front| {
      ItemsKeepOrder(entries[..n], i, j);
      var x, y := front[i], front[j];
      var a, b :| 0 <= a <= b < n && entries[..n][a] == x.entry && entries[..n][b] == y.entry
                  && (a == b ==> ListedWithin(x.entry, x.call, y.call));
      assert entries[a] == x.entry && entries[b] == y.entry;
    } else if i < |front| {
      ItemsCome(entries[..n]);
      assert front[i] in front && front[i].entry in entries[..n];
      var a :| 0 <= a < n && entries[..n][a] == front[i].entry;
      assert entries[a] == front[i].entry && entries[n] == last[j - |front|].entry;
    } else {
      var p, q := i - |front|, j - |front|;
      assert entries[n].calls[p] == last[p].call && entries[n].calls[q] == last[q].call;
      assert entries[n] == last[p].entry == last[q].entry;
    }
  }

  /** Invocations come in the order their calls are listed. */
  lemma InvocationsInOrder(n: Naming, entries: seq<Entry>, i: nat, j: nat)
    requires i < j < |Paired(n, entries)|
    ensures ListedBefore(entries, Live(Items(entries))[i], Live(Items(entries))[j])
  {
    hide Items, Live, ListedBefore;
    var p, q := LiveKeepsOrder(Items(entries), i, j);
    ItemsKeepOrder(entries, p, q);
  }

  // ---- growing transcripts -----------------------------------------------------------

  lemma {:induction false} ItemsAppend(a: seq<Entry>, b: seq<Entry>)
    ensures Items(a + b) == Items(a) + Items(b)
  {
    hide CallsOf, Empty;
    if |b| == 0 {
      assert a + b == a;
    } else {
      var n := |b| - 1;
      assert (a + b)[..|a + b| - 1] == a + b[..n];
      ItemsAppend(a, b[..n]);
    }
  }

  lemma {:induction false} AllResultsAppend(a: seq<Entry>, b: seq<Entry>)
    ensures Results(a + b) == Results(a) + Results(b)
  {
    hide CallsOf, Empty;
    if |b| == 0 {
      assert a + b == a;
    } else {
      var n := |b| - 1;
      assert (a + b)[..|a + b| - 1] == a + b[..n];
      AllResultsAppend(a, b[..n]);
    }
  }

  /** Every entry's results, in transcript order. */
  lemma ResultsMean(a: seq<Entry>, e: Entry, b: seq<Entry>)
    ensures Results(a + [e] + b) == Results(a) + e.results + Results(b)
  {
    AllResultsAppend(a + [e], b);
    AllResultsAppend(a, [e]);
    assert [e][..0] == [];
    assert Results([e]) == e.results;
  }

  lemma {:induction false} LiveAppend(a: seq<Item>, b: seq<Item>)
    ensures Live(a + b) == Live(a) + Live(b)
  {
    hide CallsOf, Empty;
    if |b| == 0 {
      assert a + b == a;
    } else {
      assert (a + b)[..|a + b| - 1] == a + b[..|b| - 1];
      LiveAppend(a, b[..|b| - 1]);
    }
  }

  lemma {:induction false} ResultsAppend(a: seq<Result>, b: seq<Result>, id: string)
    ensures Unkeyed(a) <= Unkeyed(a + b)
    ensures FirstFor(a, id).Some? ==> FirstFor(a + b, id) == FirstFor(a, id)
  {
    if |b| == 0 {
      assert a + b == a;
    } else {
      assert (a + b)[..|a + b| - 1] == a + b[..|b| - 1];
      ResultsAppend(a, b[..|b| - 1], id);
    }
  }

  /** Extending a transcript keeps the earlier invocations as a prefix: the same calls in the same places, and one
      whose outcome was observed is unchanged. */
  lemma PairingIsPrefixStable(n: Naming, entries: seq<Entry>, more: seq<Entry>)
    ensures var a, b := Paired(n, entries), Paired(n, entries + more);
            && |a| <= |b|
            && (forall k :: 0 <= k < |a| && a[k].observed ==> b[k] == a[k])
            && (forall k :: 0 <= k < |a| && !a[k].observed ==> a[k] == Cleared(b[k]))
  {
    hide KeyOf, Items, Live, Results, FirstFor, Unkeyed, UnkeyedCalls;
    ItemsAppend(entries, more);
    AllResultsAppend(entries, more);
    LiveAppend(Items(entries), Items(more));
    var items, all := Live(Items(entries)), Live(Items(entries + more));
    var results, allResults := Results(entries), Results(entries + more);
    forall k | 0 <= k < |items|
      ensures OutcomeFor(items, k, results).Some? ==> OutcomeFor(all, k, allResults) == OutcomeFor(items, k, results)
    {
      assert all[..k] == items[..k];
      ResultsAppend(results, Results(more), items[k].call.id);
    }
  }

  /** An invocation with its outcome taken away. */
  function Cleared(i: Invocation): Invocation {
    i.(observed := false, isError := false, exitCode := None, text := "", signature := "")
  }

  lemma {:induction false} UnkeyedCallsAscend(items: seq<Item>, j: nat, k: nat)
    requires j < k <= |items| && items[j].call.id == ""
    ensures UnkeyedCalls(items[..j]) < UnkeyedCalls(items[..k])
  {
    assert items[..k][..k - 1] == items[..k - 1];
    if j < k - 1 { UnkeyedCallsAscend(items, j, k - 1); }
  }

  /** Of two calls sharing an id, or sharing none, the later is not observed before the earlier. */
  lemma ObservedInOrder(n: Naming, entries: seq<Entry>, j: nat, k: nat)
    requires j < k < |Paired(n, entries)|
    requires Paired(n, entries)[j].useId == Paired(n, entries)[k].useId && Paired(n, entries)[k].observed
    ensures Paired(n, entries)[j].observed
  {
    hide KeyOf;
    var items := Live(Items(entries));
    if items[k].call.id == "" { UnkeyedCallsAscend(items, j, k); }
  }

  // ---- insert or ignore ----------------------------------------------------------------

  /** The row key of tool_invocations within a session. */
  predicate SameRow(a: Invocation, b: Invocation) { a.entry == b.entry && a.key == b.key && a.ordinal == b.ordinal }

  /** How a table stores an invocation, and when a row is that invocation's. */
  datatype Kind<!R> = Kind(row: Invocation -> R, of: (R, Invocation) -> bool)

  /** Rows are told apart by the row key and nothing else. */
  ghost predicate Tells<R(!new)>(kind: Kind<R>) {
    && (forall i, j :: kind.of(kind.row(i), j) <==> SameRow(i, j))
    && (forall r, i, j :: SameRow(i, j) && kind.of(r, i) ==> kind.of(r, j))
  }

  predicate Holds<R(==)>(kind: Kind<R>, table: seq<R>, i: Invocation) { exists x :: x in table && kind.of(x, i) }

  /** Insert the observed invocations in order, ignoring one whose row is there. */
  function InsertObserved<R(==)>(kind: Kind<R>, table: seq<R>, invs: seq<Invocation>): seq<R> {
    if |invs| == 0 then table
    else
      var t := InsertObserved(kind, table, invs[..|invs| - 1]);
      var i := invs[|invs| - 1];
      if i.observed && !Holds(kind, t, i) then t + [kind.row(i)] else t
  }

  /** The first observed invocation for its row. */
  ghost predicate FirstObserved(invs: seq<Invocation>, k: nat) {
    k < |invs| && invs[k].observed && forall j :: 0 <= j < k && SameRow(invs[j], invs[k]) ==> !invs[j].observed
  }

  /** x is the row of a first observed candidate that the table did not hold. */
  ghost predicate Inserted<R>(kind: Kind<R>, table: seq<R>, invs: seq<Invocation>, k: nat, x: R) {
    FirstObserved(invs, k) && kind.row(invs[k]) == x && !Holds(kind, table, invs[k])
  }

  /** What insert-or-ignore leaves: what was there, and for each row not there the first observed candidate. */
  lemma {:induction false} InsertedRows<R(!new)>(kind: Kind<R>, table: seq<R>, invs: seq<Invocation>, x: R)
    requires Tells(kind)
    ensures x in InsertObserved(kind, table, invs) <==> x in table || exists k: nat :: Inserted(kind, table, invs, k, x)
  {
    hide Holds, Tells;
    if |invs| > 0 {
      var n := |invs| - 1;
      var before, i := invs[..n], invs[n];
      InsertedRows(kind, table, before, x);
      InsertedHeld(kind, table, before, i);
      var t := InsertObserved(kind, table, before);
      FirstObservedLast(invs, n);
      if k: nat :| Inserted(kind, table, before, k, x) {
        FirstObservedPrefix(invs, n, k);
        assert Inserted(kind, table, invs, k, x);
      }
      if k: nat :| Inserted(kind, table, invs, k, x) && k < n {
        FirstObservedPrefix(invs, n, k);
        assert Inserted(kind, table, before, k, x);
      }
      assert i.observed && !Holds(kind, t, i) && x == kind.row(i) ==> Inserted(kind, table, invs, n, x);
    }
  }

  lemma FirstObservedPrefix(invs: seq<Invocation>, n: nat, k: nat)
    requires k < n < |invs|
    ensures FirstObserved(invs[..n], k) <==> FirstObserved(invs, k)
  {
    assert forall j :: 0 <= j <= k ==> invs[..n][j] == invs[j];
  }

  lemma FirstObservedLast(invs: seq<Invocation>, n: nat)
    requires |invs| == n + 1
    ensures FirstObserved(invs, n) <==>
            invs[n].observed && !exists j :: 0 <= j < n && invs[..n][j].observed && SameRow(invs[..n][j], invs[n])
  {
    assert forall j :: 0 <= j < n ==> invs[..n][j] == invs[j];
  }

  lemma {:induction false} InsertedHeld<R(!new)>(kind: Kind<R>, table: seq<R>, invs: seq<Invocation>, i: Invocation)
    requires Tells(kind)
    ensures Holds(kind, InsertObserved(kind, table, invs), i) <==>
            Holds(kind, table, i) || exists k :: 0 <= k < |invs| && invs[k].observed && SameRow(invs[k], i)
  {
    if |invs| > 0 {
      var n := |invs| - 1;
      InsertedHeld(kind, table, invs[..n], i);
      HeldNext(kind, InsertObserved(kind, table, invs[..n]), invs[n], i);
      assert invs == invs[..n] + [invs[n]];
    }
  }

  lemma HeldNext<R(!new)>(kind: Kind<R>, table: seq<R>, last: Invocation, i: Invocation)
    requires Tells(kind)
    ensures var t := if last.observed && !Holds(kind, table, last) then table + [kind.row(last)] else table;
            Holds(kind, t, i) <==> Holds(kind, table, i) || (last.observed && SameRow(last, i))
  {
    var t := if last.observed && !Holds(kind, table, last) then table + [kind.row(last)] else table;
    if Holds(kind, table, i) { assert Holds(kind, t, i); }
    if last.observed && SameRow(last, i) {
      if Holds(kind, table, last) {
        var x :| x in table && kind.of(x, last);
        assert kind.of(x, i);
      } else {
        assert t[|table|] in t && kind.of(kind.row(last), i);
      }
    }
  }

  /** Rows with one key have one call id. */
  ghost predicate KeysTell(invs: seq<Invocation>) {
    forall j, k :: 0 <= j < k < |invs| && SameRow(invs[j], invs[k]) ==> invs[j].useId == invs[k].useId
  }

  /** Calls of one ordinal carry one id. */
  ghost predicate SameCalls(e: Entry, f: Entry) {
    forall c, d :: c in CallList(e) && d in CallList(f) && c.ordinal == d.ordinal ==> c.id == d.id
  }

  /** Within a transcript, an entry id and an ordinal name one call. */
  ghost predicate Numbered(entries: seq<Entry>) {
    forall e, f :: e in entries && f in entries && e.id == f.id ==> SameCalls(e, f)
  }

  /** An adapter counts the calls of an entry. */
  ghost predicate OrdinalsDiffer(e: Entry) {
    forall j, k :: 0 <= j < k < |CallList(e)| ==> CallList(e)[j].ordinal != CallList(e)[k].ordinal
  }

  lemma CountedAreSame(e: Entry, f: Entry)
    requires OrdinalsDiffer(e) && CallList(e) == CallList(f)
    ensures SameCalls(e, f)
  {
    hide CallList;
    forall c, d | c in CallList(e) && d in CallList(f) && c.ordinal == d.ordinal ensures c.id == d.id {
      var j, k :| 0 <= j < |CallList(e)| && 0 <= k < |CallList(e)| && CallList(e)[j] == c && CallList(e)[k] == d;
      assert !(j < k) && !(k < j);
    }
  }

  /** Counting an entry's calls tells them apart. */
  lemma CountedIsNumbered(entries: seq<Entry>)
    requires forall e :: e in entries ==> OrdinalsDiffer(e)
    requires forall e, f :: e in entries && f in entries && e.id == f.id ==> CallList(e) == CallList(f)
    ensures Numbered(entries)
  {
    hide CallList, SameCalls;
    forall e, f | e in entries && f in entries && e.id == f.id ensures SameCalls(e, f) { CountedAreSame(e, f); }
  }

  lemma {:induction false} LiveItems(items: seq<Item>)
    ensures forall i :: i in Live(items) ==> i in items
  {
    if |items| > 0 { LiveItems(items[..|items| - 1]); }
  }

  lemma {:induction false} ItemsCome(entries: seq<Entry>)
    ensures forall i :: i in Items(entries) ==> i.entry in entries && i.call in CallList(i.entry)
  {
    hide CallList;
    if |entries| > 0 { ItemsCome(entries[..|entries| - 1]); }
  }

  /** The call an invocation is of. */
  lemma InvocationComes(n: Naming, entries: seq<Entry>, k: nat) returns (e: Entry, c: Call)
    requires k < |Paired(n, entries)|
    ensures e in entries && c in CallList(e)
    ensures var i := Paired(n, entries)[k];
            i.entry == e.id && i.ordinal == c.ordinal && i.key == KeyOf(c) && i.useId == c.id
  {
    hide KeyOf, OutcomeFor, CallList;
    var items := Live(Items(entries));
    LiveItems(Items(entries));
    ItemsCome(entries);
    assert items[k] in items;
    e, c := items[k].entry, items[k].call;
  }

  /** However ids are spelled: a row key includes the ordinal, so rows with one key are of one id. */
  lemma NumberedTells(n: Naming, entries: seq<Entry>)
    requires Numbered(entries)
    ensures KeysTell(Paired(n, entries))
  {
    hide Paired, KeyOf, CallList;
    var a := Paired(n, entries);
    forall j, k | 0 <= j < k < |a| && SameRow(a[j], a[k]) ensures a[j].useId == a[k].useId {
      var e, c := InvocationComes(n, entries, j);
      var f, d := InvocationComes(n, entries, k);
      assert SameCalls(e, f);
    }
  }

  lemma FirstObservedIsFirst(n: Naming, entries: seq<Entry>, k: nat)
    requires KeysTell(Paired(n, entries)) && FirstObserved(Paired(n, entries), k)
    ensures forall j :: 0 <= j < k ==> !SameRow(Paired(n, entries)[j], Paired(n, entries)[k])
  {
    hide Paired;
    var a := Paired(n, entries);
    forall j | 0 <= j < k ensures !SameRow(a[j], a[k]) {
      if SameRow(a[j], a[k]) { ObservedInOrder(n, entries, j, k); }
    }
  }

  /** The first observed candidates of a transcript are those of every extension, and the extension adds none
      for the same rows. */
  lemma CandidatesPersist(n: Naming, entries: seq<Entry>, more: seq<Entry>, x: Invocation)
    requires KeysTell(Paired(n, entries + more))
    ensures var a, b := Paired(n, entries), Paired(n, entries + more);
            && KeysTell(a)
            && ((exists k: nat :: FirstObserved(a, k) && a[k] == x) ==>
                exists k: nat :: FirstObserved(b, k) && b[k] == x)
            && ((exists k: nat :: FirstObserved(b, k) && b[k] == x)
                && (exists j :: 0 <= j < |a| && a[j].observed && SameRow(a[j], x))
                ==> exists k: nat :: FirstObserved(a, k) && a[k] == x)
  {
    var a, b := Paired(n, entries), Paired(n, entries + more);
    PairingIsPrefixStable(n, entries, more);
    hide Paired;
    assert SameSpine(a, b);
    SpineTells(a, b);
    if k: nat :| FirstObserved(a, k) && a[k] == x {
      FirstObservedIsFirst(n, entries, k);
      assert FirstObserved(b, k);
    }
    if k: nat, j :| FirstObserved(b, k) && b[k] == x && 0 <= j < |a| && a[j].observed && SameRow(a[j], x) {
      FirstObservedIsFirst(n, entries + more, k);
      assert SameRow(b[j], b[k]) && k <= j;
      if k < j { ObservedInOrder(n, entries, k, j); }
      assert forall i :: 0 <= i < k ==> (SameRow(a[i], a[k]) <==> SameRow(b[i], b[k]));
      assert FirstObserved(a, k);
    }
  }

  /** a's calls are b's first calls, with at most their outcomes missing. */
  ghost predicate SameSpine(a: seq<Invocation>, b: seq<Invocation>) {
    |a| <= |b| && forall k :: 0 <= k < |a| ==> Cleared(a[k]) == Cleared(b[k]) && (a[k].observed ==> a[k] == b[k])
  }

  lemma SpineTells(a: seq<Invocation>, b: seq<Invocation>)
    requires SameSpine(a, b) && KeysTell(b)
    ensures KeysTell(a)
  {
    forall j, k | 0 <= j < k < |a| && SameRow(a[j], a[k]) ensures a[j].useId == a[k].useId {
      assert SameRow(b[j], b[k]);
    }
  }

  /** Ingesting a transcript as it grows leaves the rows that ingesting it once, grown, would have left. */
  lemma GrowingEqualsOnce<R(!new)>(n: Naming, kind: Kind<R>, table: seq<R>, entries: seq<Entry>, more: seq<Entry>, x: R)
    requires Tells(kind) && Numbered(entries + more)
    ensures var a, b := Paired(n, entries), Paired(n, entries + more);
            x in InsertObserved(kind, InsertObserved(kind, table, a), b) <==> x in InsertObserved(kind, table, b)
  {
    var a, b := Paired(n, entries), Paired(n, entries + more);
    var once := InsertObserved(kind, table, a);
    NumberedTells(n, entries + more);
    InsertedRows(kind, table, a, x);
    InsertedRows(kind, table, b, x);
    InsertedRows(kind, once, b, x);
    hide Paired, InsertObserved, Tells, Holds, FirstObserved;
    if k: nat :| Inserted(kind, table, a, k, x) {
      CandidatesPersist(n, entries, more, a[k]);
      var m: nat :| FirstObserved(b, m) && b[m] == a[k];
      assert Inserted(kind, table, b, m, x);
    }
    if k: nat :| Inserted(kind, once, b, k, x) {
      InsertedHeld(kind, table, a, b[k]);
      assert Inserted(kind, table, b, k, x);
    }
    if k: nat :| Inserted(kind, table, b, k, x) {
      InsertedHeld(kind, table, a, b[k]);
      CandidatesPersist(n, entries, more, b[k]);
      if Holds(kind, once, b[k]) {
        var m: nat :| FirstObserved(a, m) && a[m] == b[k];
        assert Inserted(kind, table, a, m, x);
      } else {
        assert Inserted(kind, once, b, k, x);
      }
    }
  }
}
