/** Splitting a text at a separator, and joining the parts again. */
module Texts {
  function Split(t: string, sep: char): seq<string> {
    if |t| == 0 then [""]
    else
      var rest := Split(t[..|t| - 1], sep);
      if t[|t| - 1] == sep then rest + [""]
      else if |rest| == 0 then rest
      else rest[|rest| - 1 := rest[|rest| - 1] + [t[|t| - 1]]]
  }

  lemma {:induction false} SplitNone(t: string, sep: char)
    requires sep !in t
    ensures Split(t, sep) == [t]
  {
    if |t| > 0 {
      SplitNone(t[..|t| - 1], sep);
      assert t == t[..|t| - 1] + [t[|t| - 1]];
    }
  }

  lemma {:induction false} SplitTwo(a: string, b: string, sep: char)
    requires sep !in a && sep !in b
    ensures Split(a + [sep] + b, sep) == [a, b]
  {
    var t := a + [sep] + b;
    if |b| == 0 {
      assert t[..|t| - 1] == a;
      SplitNone(a, sep);
    } else {
      assert t[..|t| - 1] == a + [sep] + b[..|b| - 1];
      SplitTwo(a, b[..|b| - 1], sep);
      assert b == b[..|b| - 1] + [b[|b| - 1]];
    }
  }

  function Join(parts: seq<string>, sep: char): string {
    if |parts| == 0 then ""
    else if |parts| == 1 then parts[0]
    else Join(parts[..|parts| - 1], sep) + [sep] + parts[|parts| - 1]
  }

  /** Joining undoes splitting. */
  lemma {:induction false} JoinOfSplit(t: string, sep: char)
    ensures |Split(t, sep)| > 0 && Join(Split(t, sep), sep) == t
  {
    if |t| > 0 {
      var c := t[|t| - 1];
      JoinOfSplit(t[..|t| - 1], sep);
      var rest := Split(t[..|t| - 1], sep);
      assert t == t[..|t| - 1] + [c];
      if c == sep {
        assert (rest + [""])[..|rest|] == rest;
      } else {
        var n := |rest| - 1;
        assert rest[n := rest[n] + [c]][..n] == rest[..n];
      }
    }
  }

  lemma TwoParts(t: string, sep: char)
    requires |Split(t, sep)| == 2
    ensures t == Split(t, sep)[0] + [sep] + Split(t, sep)[1]
  {
    JoinOfSplit(t, sep);
    assert Split(t, sep)[..1] == [Split(t, sep)[0]];
  }

  lemma LastReplaced<T>(s: seq<T>, x: T, y: T)
    ensures (s + [x])[|s + [x]| - 1] == x && (s + [x])[|s + [x]| - 1 := y] == s + [y]
  {
  }

  /** Here the last part of a text starts. */
  predicate LastFrom(t: string, sep: char, start: nat) {
    && start <= |t| && sep !in t[start..]
    && if start == 0 then Split(t, sep) == [t]
       else t[start - 1] == sep && Split(t, sep) == Split(t[..start - 1], sep) + [t[start..]]
  }

  /** One more character opens a new part, or goes on the last one. */
  lemma SplitStep(t: string, c: char, sep: char)
    ensures var rest := Split(t, sep);
            && |rest| > 0
            && Split(t + [c], sep) == if c == sep then rest + [""] else rest[|rest| - 1 := rest[|rest| - 1] + [c]]
  {
    JoinOfSplit(t, sep);
    assert (t + [c])[..|t|] == t;
  }

  lemma LastOpens(t: string, sep: char)
    ensures LastFrom(t + [sep], sep, |t| + 1)
  {
    SplitStep(t, sep, sep);
    hide Split;
    assert (t + [sep])[|t| + 1..] == "" && (t + [sep])[..|t|] == t;
  }

  lemma LastGoesOn(t: string, c: char, sep: char, start: nat)
    requires c != sep && LastFrom(t, sep, start)
    ensures LastFrom(t + [c], sep, start)
  {
    SplitStep(t, c, sep);
    hide Split;
    assert (t + [c])[start..] == t[start..] + [c];
    if start > 0 {
      assert (t + [c])[..start - 1] == t[..start - 1];
      LastReplaced(Split(t[..start - 1], sep), t[start..], t[start..] + [c]);
    }
  }

  lemma {:induction false} LastPart(t: string, sep: char) returns (start: nat)
    ensures LastFrom(t, sep, start)
  {
    if |t| == 0 { return 0; }
    var n := |t| - 1;
    start := LastPart(t[..n], sep);
    assert t == t[..n] + [t[n]];
    hide LastFrom;
    if t[n] == sep {
      LastOpens(t[..n], sep);
      start := |t|;
    } else {
      LastGoesOn(t[..n], t[n], sep, start);
    }
  }
}
