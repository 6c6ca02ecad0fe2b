/** Canonical refs: base64url without padding, the split on ':', and the session key preimage. A Go string is a
    sequence of bytes, carried here as characters below 256. */
module Refs {
  import opened Manifests
  import opened Options
  import opened Texts

  predicate IsBytes(s: string) { forall k :: 0 <= k < |s| ==> s[k] as int < 256 }

  // ---- base64url, RFC 4648 section 5, unpadded as in section 3.2 ------------------------

  function Digit(n: nat): char
    requires n < 64
  {
    if n < 26 then ('A' as int + n) as char
    else if n < 52 then ('a' as int + n - 26) as char
    else if n < 62 then ('0' as int + n - 52) as char
    else if n == 62 then '-' else '_'
  }

  /** The value of a digit; 64 for any other character. */
  function Value(c: char): (n: nat)
    ensures n <= 64
    ensures n < 64 ==> Digit(n) == c
  {
    if 'A' <= c <= 'Z' then c as int - 'A' as int
    else if 'a' <= c <= 'z' then c as int - 'a' as int + 26
    else if '0' <= c <= '9' then c as int - '0' as int + 52
    else if c == '-' then 62
    else if c == '_' then 63
    else 64
  }

  /** The alphabet of RFC 4648 section 5, in its order. */
  lemma Alphabet(n: nat)
    requires n < 64
    ensures Digit(0) == 'A' && Digit(25) == 'Z' && Digit(26) == 'a' && Digit(51) == 'z'
    ensures Digit(52) == '0' && Digit(61) == '9' && Digit(62) == '-' && Digit(63) == '_'
    ensures n !in {25, 51, 61, 62, 63} ==> Digit(n + 1) as int == Digit(n) as int + 1
  {
  }

  lemma DigitValue(n: nat)
    requires n < 64
    ensures Value(Digit(n)) == n
  {
  }

  function B64(s: string): string
    requires IsBytes(s)
  {
    if |s| == 0 then ""
    else if |s| == 1 then Pair(s[0] as int)
    else if |s| == 2 then Triple(s[0] as int, s[1] as int)
    else Quad(s[0] as int, s[1] as int, s[2] as int) + B64(s[3..])
  }

  function Pair(a: nat): string
    requires a < 256
  {
    [Digit(a / 4), Digit(a % 4 * 16)]
  }

  function Triple(a: nat, b: nat): string
    requires a < 256 && b < 256
  {
    [Digit(a / 4), Digit(a % 4 * 16 + b / 16), Digit(b % 16 * 4)]
  }

  function Quad(a: nat, b: nat, c: nat): string
    requires a < 256 && b < 256 && c < 256
  {
    [Digit(a / 4), Digit(a % 4 * 16 + b / 16), Digit(b % 16 * 4 + c / 64), Digit(c % 64)]
  }

  predicate IsDigits(t: string) { forall k :: 0 <= k < |t| ==> Value(t[k]) < 64 }

  /** What a run of digits decodes to: no group of one, and unused low bits are ignored. */
  function Decode(t: string): Option<string> {
    if !IsDigits(t) || |t| % 4 == 1 then None else Some(Bytes(t))
  }

  /** The three bytes of four digits. */
  function Hi(v: nat, w: nat): (n: nat)
    requires v < 64 && w < 64
    ensures n < 256
  {
    v * 4 + w / 16
  }

  function Mid(w: nat, x: nat): (n: nat)
    requires w < 64 && x < 64
    ensures n < 256
  {
    w % 16 * 16 + x / 4
  }

  function Lo(x: nat, y: nat): (n: nat)
    requires x < 64 && y < 64
    ensures n < 256
  {
    x % 4 * 64 + y
  }

  function Bytes(t: string): string
    requires IsDigits(t)
  {
    if |t| < 2 then ""
    else if |t| == 2 then [Hi(Value(t[0]), Value(t[1])) as char]
    else if |t| == 3 then [Hi(Value(t[0]), Value(t[1])) as char, Mid(Value(t[1]), Value(t[2])) as char]
    else
      [Hi(Value(t[0]), Value(t[1])) as char, Mid(Value(t[1]), Value(t[2])) as char,
       Lo(Value(t[2]), Value(t[3])) as char]
      + Bytes(t[4..])
  }

  /** The decoder passes over line breaks. */
  function WithoutBreaks(t: string): string {
    if |t| == 0 then ""
    else WithoutBreaks(t[..|t| - 1]) + if t[|t| - 1] == '\n' || t[|t| - 1] == '\r' then "" else [t[|t| - 1]]
  }

  function Unb64(t: string): Option<string> { Decode(WithoutBreaks(t)) }

  lemma {:induction false} EncodedShape(s: string)
    requires IsBytes(s)
    ensures IsDigits(B64(s)) && |B64(s)| % 4 != 1
  {
    hide Digit, Value;
    if 1 <= |s| <= 2 {
      var a := s[0] as int;
      DigitValue(a / 4);
      if |s| == 1 { DigitValue(a % 4 * 16); }
      else {
        DigitValue(a % 4 * 16 + s[1] as int / 16);
        DigitValue(s[1] as int % 16 * 4);
      }
    } else if |s| > 2 {
      QuadDigits(s[0] as int, s[1] as int, s[2] as int);
      EncodedShape(s[3..]);
    }
  }

  lemma QuadDigits(a: nat, b: nat, c: nat)
    requires a < 256 && b < 256 && c < 256
    ensures var q := Quad(a, b, c);
            && Value(q[0]) == a / 4 && Value(q[1]) == a % 4 * 16 + b / 16
            && Value(q[2]) == b % 16 * 4 + c / 64 && Value(q[3]) == c % 64
  {
    hide Digit, Value;
    DigitValue(a / 4);
    DigitValue(a % 4 * 16 + b / 16);
    DigitValue(b % 16 * 4 + c / 64);
    DigitValue(c % 64);
  }

  lemma Recombine(a: nat, b: nat)
    requires a < 256 && b < 256
    ensures a / 4 * 4 + (a % 4 * 16 + b / 16) / 16 == a
    ensures (a % 4 * 16 + b / 16) % 16 == b / 16
  {
    assert (a % 4 * 16 + b / 16) / 16 == a % 4;
  }

  lemma ShortBytes(a: nat, b: nat)
    requires a < 256 && b < 256
    ensures IsDigits(Pair(a)) && Bytes(Pair(a)) == [a as char]
    ensures IsDigits(Triple(a, b)) && Bytes(Triple(a, b)) == [a as char, b as char]
  {
    hide Digit, Value;
    DigitValue(a / 4);
    DigitValue(a % 4 * 16);
    DigitValue(a % 4 * 16 + b / 16);
    DigitValue(b % 16 * 4);
    Recombine(a, 0);
    Recombine(a, b);
  }

  /** A full group decodes by itself. */
  lemma BytesSplit(t: string)
    requires IsDigits(t) && |t| >= 4
    ensures IsDigits(t[4..]) && Value(t[0]) < 64 && Value(t[1]) < 64 && Value(t[2]) < 64 && Value(t[3]) < 64
    ensures t[..4] == [Digit(Value(t[0])), Digit(Value(t[1])), Digit(Value(t[2])), Digit(Value(t[3]))]
    ensures Bytes(t) == [Hi(Value(t[0]), Value(t[1])) as char, Mid(Value(t[1]), Value(t[2])) as char,
                         Lo(Value(t[2]), Value(t[3])) as char] + Bytes(t[4..])
  {
    hide Value, Digit, Hi, Mid, Lo;
  }

  lemma LongBytes(a: nat, b: nat, c: nat, rest: string)
    requires a < 256 && b < 256 && c < 256 && IsDigits(rest)
    ensures IsDigits(Quad(a, b, c) + rest)
            && Bytes(Quad(a, b, c) + rest) == [a as char, b as char, c as char] + Bytes(rest)
  {
    var q, t := Quad(a, b, c), Quad(a, b, c) + rest;
    QuadBytes(a, b, c);
    assert |q| == 4 && t[0] == q[0] && t[1] == q[1] && t[2] == q[2] && t[3] == q[3] && t[4..] == rest;
    DigitsAppend(q, rest);
    hide *;
    BytesSplit(t);
  }

  lemma DigitsAppend(a: string, b: string)
    requires IsDigits(a) && IsDigits(b)
    ensures IsDigits(a + b)
  {
    hide Value;
  }

  lemma {:induction false} BytesOfEncoded(s: string)
    requires IsBytes(s)
    ensures IsDigits(B64(s)) && Bytes(B64(s)) == s
  {
    hide Bytes, IsDigits, Pair, Triple, Quad;
    if |s| == 0 {
      NothingEncoded();
    } else if |s| == 1 {
      ShortBytes(s[0] as int, 0);
    } else if |s| == 2 {
      ShortBytes(s[0] as int, s[1] as int);
    } else {
      BytesOfEncoded(s[3..]);
      LongBytes(s[0] as int, s[1] as int, s[2] as int, B64(s[3..]));
      assert s == [s[0], s[1], s[2]] + s[3..];
    }
  }

  lemma NothingEncoded()
    ensures IsDigits("") && Bytes("") == ""
  {
  }

  lemma QuadBytes(a: nat, b: nat, c: nat)
    requires a < 256 && b < 256 && c < 256
    ensures var q := Quad(a, b, c);
            && IsDigits(q)
            && Hi(Value(q[0]), Value(q[1])) == a && Mid(Value(q[1]), Value(q[2])) == b
            && Lo(Value(q[2]), Value(q[3])) == c
  {
    QuadDigits(a, b, c);
    hide Value, Quad;
    Recombine(a, b);
    assert (b % 16 * 4 + c / 64) / 4 == b % 16;
    assert (b % 16 * 4 + c / 64) % 4 == c / 64;
  }

  lemma {:induction false} NoBreaksToDrop(t: string)
    requires IsDigits(t)
    ensures WithoutBreaks(t) == t
  {
    if |t| > 0 {
      NoBreaksToDrop(t[..|t| - 1]);
      assert Value(t[|t| - 1]) < 64;
    }
  }

  /** The test vectors of section 10 of RFC 4648, without their padding. */
  lemma Vectors()
    ensures B64("") == "" && B64("f") == "Zg" && B64("fo") == "Zm8" && B64("foo") == "Zm9v"
    ensures B64("foob") == "Zm9vYg" && B64("fooba") == "Zm9vYmE" && B64("foobar") == "Zm9vYmFy"
  {
    assert "foob"[3..] == "b" && "fooba"[3..] == "ba" && "foobar"[3..] == "bar" && "foo"[3..] == "" && "bar"[3..] == "";
  }

  /** Decoding undoes encoding, for arbitrary bytes. */
  lemma Unb64B64(s: string)
    requires IsBytes(s)
    ensures Unb64(B64(s)) == Some(s)
  {
    EncodedShape(s);
    NoBreaksToDrop(B64(s));
    BytesOfEncoded(s);
  }

  // ---- which encodings are the canonical one -------------------------------------------------

  /** The low bits a last, short group does not use are zero. */
  predicate TailZero(t: string) {
    && (|t| % 4 == 2 ==> Value(t[|t| - 1]) % 16 == 0)
    && (|t| % 4 == 3 ==> Value(t[|t| - 1]) % 4 == 0)
  }

  /** Four digits regroup into three bytes and back; so do two and three, but for the bits they drop. */
  lemma Regroup(v: nat, w: nat, x: nat, y: nat)
    requires v < 64 && w < 64 && x < 64 && y < 64
    ensures Quad(Hi(v, w), Mid(w, x), Lo(x, y)) == [Digit(v), Digit(w), Digit(x), Digit(y)]
    ensures Pair(Hi(v, w)) == [Digit(v), Digit(w / 16 * 16)]
    ensures Triple(Hi(v, w), Mid(w, x)) == [Digit(v), Digit(w), Digit(x / 4 * 4)]
  {
    hide Digit;
    var a, b, c := Hi(v, w), Mid(w, x), Lo(x, y);
    assert a / 4 == v && a % 4 == w / 16;
    assert b / 16 == w % 16 && b % 16 == x / 4;
    assert c / 64 == x % 4 && c % 64 == y;
    assert w / 16 * 16 + w % 16 == w && x / 4 * 4 + x % 4 == x;
  }

  lemma Rounded(n: nat)
    requires n < 64
    ensures Digit(n / 16 * 16) == Digit(n) <==> n % 16 == 0
    ensures Digit(n / 4 * 4) == Digit(n) <==> n % 4 == 0
  {
    hide Digit, Value;
    DigitValue(n);
    DigitValue(n / 16 * 16);
    DigitValue(n / 4 * 4);
  }

  lemma ShortEncoded(t: string)
    requires IsDigits(t) && 2 <= |t| <= 3
    ensures IsBytes(Bytes(t)) && (B64(Bytes(t)) == t <==> TailZero(t))
  {
    hide Digit, Pair, Triple, Quad, Hi, Mid, Lo, Value;
    var v, w := Value(t[0]), Value(t[1]);
    var x := if |t| == 2 then 0 else Value(t[2]);
    Regroup(v, w, x, 0);
    Rounded(w);
    Rounded(x);
  }

  lemma EncodedCons(a: nat, b: nat, c: nat, rest: string)
    requires a < 256 && b < 256 && c < 256 && IsBytes(rest)
    ensures IsBytes([a as char, b as char, c as char] + rest)
    ensures B64([a as char, b as char, c as char] + rest) == Quad(a, b, c) + B64(rest)
  {
    hide Quad;
    var s := [a as char, b as char, c as char] + rest;
    assert s[3..] == rest;
  }

  lemma FullEncoded(t: string)
    requires IsDigits(t) && |t| >= 4 && IsBytes(Bytes(t[4..]))
    ensures IsBytes(Bytes(t)) && B64(Bytes(t)) == t[..4] + B64(Bytes(t[4..]))
  {
    hide *;
    BytesSplit(t);
    var v, w, x, y := Value(t[0]), Value(t[1]), Value(t[2]), Value(t[3]);
    Regroup(v, w, x, y);
    EncodedCons(Hi(v, w), Mid(w, x), Lo(x, y), Bytes(t[4..]));
  }

  /** Of the digit strings that decode, exactly those with zero unused bits are what encoding gives back. */
  lemma {:induction false} DigitsCanonicalIff(t: string)
    requires IsDigits(t) && |t| % 4 != 1
    ensures IsBytes(Bytes(t)) && (B64(Bytes(t)) == t <==> TailZero(t))
  {
    hide *;
    if |t| == 0 {
      NothingDecoded();
    } else if |t| < 4 {
      ShortEncoded(t);
    } else {
      BytesSplit(t);
      DigitsCanonicalIff(t[4..]);
      FullEncoded(t);
      TailOfRest(t);
      assert t == t[..4] + t[4..];
      if B64(Bytes(t)) == t { assert B64(Bytes(t))[4..] == t[4..]; }
    }
  }

  lemma NothingDecoded()
    ensures IsBytes(Bytes("")) && B64(Bytes("")) == "" && TailZero("")
  {
  }

  lemma TailOfRest(t: string)
    requires |t| >= 4
    ensures TailZero(t[4..]) <==> TailZero(t)
  {
    hide Value;
    assert |t[4..]| % 4 == |t| % 4;
    if |t| > 4 { assert t[4..][|t| - 5] == t[|t| - 1]; }
  }

  lemma {:induction false} BreaksDropped(t: string)
    ensures |WithoutBreaks(t)| <= |t|
    ensures WithoutBreaks(t) == t <==> '\n' !in t && '\r' !in t
  {
    if |t| > 0 {
      BreaksDropped(t[..|t| - 1]);
      assert t == t[..|t| - 1] + [t[|t| - 1]];
    }
  }

  /** A text that decodes is the canonical encoding of what it decodes to exactly when it has no line break and no
      stray low bits. Decoding is not injective otherwise: the source accepts these texts too. */
  lemma CanonicalIff(t: string)
    requires Unb64(t).Some?
    ensures IsBytes(Unb64(t).value)
    ensures B64(Unb64(t).value) == t <==> '\n' !in t && '\r' !in t && TailZero(t)
  {
    var u := WithoutBreaks(t);
    BreaksDropped(t);
    DigitsCanonicalIff(u);
    EncodedShape(Bytes(u));
    if B64(Bytes(u)) == t { NoBreaksToDrop(t); }
  }

  // ---- refs -------------------------------------------------------------------------------------

  datatype Ref = MessageRef(session: string, entry: string) | SessionRef(session: string) | ArtifactRef(sha: string)

  const MSG := "msg:v1:"
  const SESSION := "session:v1:"
  const ARTIFACT := "artifact:v1:"

  predicate SessionKeyOk(s: string) { |s| == 68 && s[..4] == "sk1_" && Hex64(s[4..]) }

  /** What NewEntryID accepts; blank tells whether trimming white space leaves nothing. */
  predicate EntryIdOk(s: string, blank: string -> bool) {
    !blank(s) && forall k :: 0 <= k < |s| ==> s[k] != '\0' && s[k] != '\n' && s[k] != '\r'
  }

  lemma EntryIdMeans(s: string, blank: string -> bool)
    ensures EntryIdOk(s, blank) <==> !blank(s) && '\0' !in s && '\n' !in s && '\r' !in s
  {
  }

  /** A session key: a fixed mark and a digest in lower-case hex. */
  lemma SessionKeyMeans(s: string)
    ensures SessionKeyOk(s) <==>
            && |s| == 68 && s[0] == 's' && s[1] == 'k' && s[2] == '1' && s[3] == '_'
            && forall k :: 4 <= k < 68 ==> s[k] in "0123456789abcdef"
  {
    if |s| == 68 {
      HexMeans(s[4..]);
      assert forall k :: 4 <= k < 68 ==> s[k] == s[4..][k - 4];
      assert s[..4] == [s[0], s[1], s[2], s[3]];
    }
  }

  /** What the constructors build. */
  predicate Constructed(r: Ref, blank: string -> bool) {
    match r
    case MessageRef(session, entry) => SessionKeyOk(session) && EntryIdOk(entry, blank) && IsBytes(entry)
    case SessionRef(session) => SessionKeyOk(session)
    case ArtifactRef(sha) => Hex64(sha)
  }

  lemma KeyIsBytes(s: string)
    requires SessionKeyOk(s)
    ensures IsBytes(s)
  {
    forall k | 0 <= k < |s| ensures s[k] as int < 256 {
      if k < 4 { assert s[k] == s[..4][k]; } else { assert s[k] == s[4..][k - 4] && s[4..][k - 4] in s[4..]; }
    }
  }

  predicate Bytewise(r: Ref) {
    match r
    case MessageRef(session, entry) => IsBytes(session) && IsBytes(entry)
    case SessionRef(session) => IsBytes(session)
    case ArtifactRef(_) => true
  }

  function FormatRef(r: Ref): string
    requires Bytewise(r)
  {
    match r
    case MessageRef(session, entry) => MSG + (B64(session) + (":" + B64(entry)))
    case SessionRef(session) => SESSION + B64(session)
    case ArtifactRef(sha) => ARTIFACT + sha
  }

  function ParseRef(t: string, blank: string -> bool): Option<Ref> {
    if MSG <= t then
      var parts := Split(t[|MSG|..], ':');
      if |parts| != 2 then None
      else
        var session, entry := Unb64(parts[0]), Unb64(parts[1]);
        if session.None? || entry.None? then None
        else if !SessionKeyOk(session.value) || !EntryIdOk(entry.value, blank) then None
        else Some(MessageRef(session.value, entry.value))
    else if SESSION <= t then
      var session := Unb64(t[|SESSION|..]);
      if session.None? || !SessionKeyOk(session.value) then None else Some(SessionRef(session.value))
    else if ARTIFACT <= t then
      if Hex64(t[|ARTIFACT|..]) then Some(ArtifactRef(t[|ARTIFACT|..])) else None
    else None
  }

  lemma NoColon(s: string)
    requires IsBytes(s)
    ensures ':' !in B64(s)
  {
    EncodedShape(s);
    assert Value(':') == 64;
  }

  /** Every ref the constructors build is read back from its text. */
  lemma ParseUndoesFormat(r: Ref, blank: string -> bool)
    requires Constructed(r, blank)
    ensures Bytewise(r) && ParseRef(FormatRef(r), blank) == Some(r)
  {
    hide B64, Unb64, Hex64, FormatRef, ParseRef, Split;
    match r
    case MessageRef(session, entry) => MessageReads(session, entry, blank);
    case SessionRef(session) => SessionReads(session, blank);
    case ArtifactRef(sha) => ArtifactReads(sha, blank);
  }

  lemma MessageReads(session: string, entry: string, blank: string -> bool)
    requires Constructed(MessageRef(session, entry), blank)
    ensures var r := MessageRef(session, entry); Bytewise(r) && ParseRef(FormatRef(r), blank) == Some(r)
  {
    hide B64, Unb64, Hex64, Split;
    KeyIsBytes(session);
    NoColon(session);
    NoColon(entry);
    Unb64B64(session);
    Unb64B64(entry);
    var t := FormatRef(MessageRef(session, entry));
    assert t[|MSG|..] == B64(session) + [':'] + B64(entry);
    SplitTwo(B64(session), B64(entry), ':');
  }

  lemma SessionReads(session: string, blank: string -> bool)
    requires Constructed(SessionRef(session), blank)
    ensures var r := SessionRef(session); Bytewise(r) && ParseRef(FormatRef(r), blank) == Some(r)
  {
    hide B64, Unb64, Hex64, Split;
    KeyIsBytes(session);
    Unb64B64(session);
    var t := FormatRef(SessionRef(session));
    assert t[0] == 's' && t[|SESSION|..] == B64(session);
  }

  lemma ArtifactReads(sha: string, blank: string -> bool)
    requires Constructed(ArtifactRef(sha), blank)
    ensures var r := ArtifactRef(sha); Bytewise(r) && ParseRef(FormatRef(r), blank) == Some(r)
  {
    hide B64, Unb64, Hex64, Split;
    var t := FormatRef(ArtifactRef(sha));
    assert t[0] == 'a' && t[|ARTIFACT|..] == sha;
  }

  /** The three kinds of text, told apart by how they begin. */
  lemma RefTexts(r: Ref)
    requires Bytewise(r)
    ensures match r
            case MessageRef(session, entry) => FormatRef(r) == "msg:v1:" + (B64(session) + ":" + B64(entry))
            case SessionRef(session) => FormatRef(r) == "session:v1:" + B64(session)
            case ArtifactRef(sha) => FormatRef(r) == "artifact:v1:" + sha
  {
    hide B64;
    if r.MessageRef? { assert B64(r.session) + ":" + B64(r.entry) == B64(r.session) + (":" + B64(r.entry)); }
  }

  /** Whatever parses is a ref the constructors could have built. */
  lemma ParsedIsConstructed(t: string, blank: string -> bool)
    ensures ParseRef(t, blank).Some? ==> Constructed(ParseRef(t, blank).value, blank)
  {
    hide Unb64, Split, Hex64;
    if ParseRef(t, blank).Some? && MSG <= t { DecodedIsBytes(Split(t[|MSG|..], ':')[1]); }
  }

  lemma DecodedIsBytes(t: string)
    ensures Unb64(t).Some? ==> IsBytes(Unb64(t).value)
  {
    if Unb64(t).Some? { CanonicalIff(t); }
  }

  /** The base64 parts of a ref's text. */
  function Parts(t: string): seq<string> {
    if MSG <= t then Split(t[|MSG|..], ':') else if SESSION <= t then [t[|SESSION|..]] else []
  }

  /** No line break, and no stray low bits at the end. */
  predicate CleanPart(t: string) { '\n' !in t && '\r' !in t && TailZero(t) }

  /** A text that parses is the canonical text of its ref exactly when each of its base64 parts is clean. */
  lemma RefCanonicalIff(t: string, blank: string -> bool)
    requires ParseRef(t, blank).Some?
    ensures Bytewise(ParseRef(t, blank).value)
    ensures FormatRef(ParseRef(t, blank).value) == t <==> forall p :: p in Parts(t) ==> CleanPart(p)
  {
    hide B64, Unb64, Hex64, Split, TailZero;
    ParsedIsConstructed(t, blank);
    match ParseRef(t, blank).value
    case MessageRef(session, entry) =>
      var body, parts := t[|MSG|..], Parts(t);
      assert t == MSG + body;
      KeyIsBytes(session);
      NoColon(session);
      NoColon(entry);
      TwoParts(body, ':');
      CanonicalIff(parts[0]);
      CanonicalIff(parts[1]);
      assert parts == [parts[0], parts[1]];
      SplitTwo(B64(session), B64(entry), ':');
      assert FormatRef(MessageRef(session, entry)) == MSG + (B64(session) + [':'] + B64(entry));
      if FormatRef(MessageRef(session, entry)) == t {
        assert body == B64(session) + [':'] + B64(entry);
        assert parts == [B64(session), B64(entry)];
      }
      assert (forall p :: p in parts ==> CleanPart(p)) <==> CleanPart(parts[0]) && CleanPart(parts[1]);
    case SessionRef(session) =>
      KeyIsBytes(session);
      CanonicalIff(t[|SESSION|..]);
      assert t[0] == 's' && t == SESSION + t[|SESSION|..] && Parts(t) == [t[|SESSION|..]];
      var part := t[|SESSION|..];
      assert Unb64(part) == Some(session) && FormatRef(SessionRef(session)) == SESSION + B64(session);
      assert (SESSION + B64(session))[|SESSION|..] == B64(session);
      assert (forall p :: p in Parts(t) ==> CleanPart(p)) <==> CleanPart(part);
    case ArtifactRef(sha) =>
      assert t[0] == 'a' && t == ARTIFACT + sha && Parts(t) == [];
  }

  /** A text that parses and is not what formatting gives: a line break inside it is passed over. */
  lemma OtherTextsParse(session: string, blank: string -> bool)
    requires SessionKeyOk(session)
    ensures IsBytes(session) && ParseRef(SESSION + (B64(session) + "\n"), blank) == Some(SessionRef(session))
    ensures SESSION + (B64(session) + "\n") != FormatRef(SessionRef(session))
  {
    hide B64, Unb64, Hex64, Split;
    KeyIsBytes(session);
    EncodedShape(session);
    var e := B64(session);
    BreakIsDropped(e);
    Unb64B64(session);
    var t := SESSION + (e + "\n");
    assert t[0] == 's' && t[|SESSION|..] == e + "\n";
    assert |t| != |FormatRef(SessionRef(session))|;
  }

  lemma BreakIsDropped(e: string)
    requires IsDigits(e)
    ensures Unb64(e + "\n") == Unb64(e)
  {
    hide Decode;
    NoBreaksToDrop(e);
    var t := e + "\n";
    assert |t| == |e| + 1 && t[..|t| - 1] == e && t[|t| - 1] == '\n';
    assert WithoutBreaks(t) == WithoutBreaks(e);
  }

  // ---- session keys ----------------------------------------------------------------------------------

  /** n in k bytes, most significant first. */
  function BigEndian(n: nat, k: nat): string {
    if k == 0 then "" else BigEndian(n / 256, k - 1) + [(n % 256) as char]
  }

  function Number(s: string): nat {
    if |s| == 0 then 0 else Number(s[..|s| - 1]) * 256 + s[|s| - 1] as int
  }

  function Bound(k: nat): nat { if k == 0 then 1 else 256 * Bound(k - 1) }

  lemma {:induction false} NumberOfBigEndian(n: nat, k: nat)
    requires n < Bound(k)
    ensures |BigEndian(n, k)| == k && Number(BigEndian(n, k)) == n
  {
    if k > 0 {
      NumberOfBigEndian(n / 256, k - 1);
      var b := BigEndian(n, k);
      assert b[..|b| - 1] == BigEndian(n / 256, k - 1);
    }
  }

  lemma EightBytes()
    ensures Bound(8) == 0x1_0000_0000_0000_0000
  {
    assert Bound(4) == 0x1_0000_0000;
  }

  /** Most significant byte first. */
  lemma BigEndianMeans(a: nat, b: nat, c: nat)
    requires a < 256 && b < 256 && c < 256
    ensures BigEndian(a * 65536 + b * 256 + c, 3) == [a as char, b as char, c as char]
  {
    var n := a * 65536 + b * 256 + c;
    assert n % 256 == c && n / 256 == a * 256 + b;
    assert (a * 256 + b) % 256 == b && (a * 256 + b) / 256 == a;
    assert BigEndian(a, 1) == [a as char];
  }

  function Prefixed(s: string): string { BigEndian(|s|, 8) + s }

  /** What is hashed into a session key. */
  function KeyPreimage(source: string, machine: string, session: string): string {
    Prefixed(source) + (Prefixed(machine) + Prefixed(session))
  }

  /** A text opening with another, after its length in eight bytes. */
  predicate OpensWith(k: string, s: string) { |k| >= 8 + |s| && Number(k[..8]) == |s| && k[8..8 + |s|] == s }

  lemma PrefixedOpens(s: string, rest: string)
    requires |s| < Bound(8)
    ensures OpensWith(Prefixed(s) + rest, s) && (Prefixed(s) + rest)[8 + |s|..] == rest
  {
    NumberOfBigEndian(|s|, 8);
    hide BigEndian, Number, Bound;
    assert (Prefixed(s) + rest)[..8] == BigEndian(|s|, 8);
  }

  /** Source, machine and session id in this order, each after its length, and nothing else. */
  lemma PreimageMeans(source: string, machine: string, session: string)
    requires |source| < Bound(8) && |machine| < Bound(8) && |session| < Bound(8)
    ensures var k := KeyPreimage(source, machine, session);
            && OpensWith(k, source) && OpensWith(k[8 + |source|..], machine)
            && OpensWith(k[8 + |source|..][8 + |machine|..], session)
            && |k| == 24 + |source| + |machine| + |session|
  {
    PrefixedOpens(source, Prefixed(machine) + Prefixed(session));
    PrefixedOpens(machine, Prefixed(session));
    PrefixedOpens(session, "");
    assert Prefixed(session) + "" == Prefixed(session);
    hide Prefixed, Number, Bound;
  }

  lemma PrefixedSplits(a: string, x: string, b: string, y: string)
    requires |a| < Bound(8) && |b| < Bound(8) && Prefixed(a) + x == Prefixed(b) + y
    ensures a == b && x == y
  {
    NumberOfBigEndian(|a|, 8);
    NumberOfBigEndian(|b|, 8);
    hide BigEndian, Number, Bound;
    var s, t := Prefixed(a) + x, Prefixed(b) + y;
    assert s[..8] == BigEndian(|a|, 8) && t[..8] == BigEndian(|b|, 8);
    assert s[8..8 + |a|] == a && t[8..8 + |b|] == b;
    assert s[8 + |a|..] == x && t[8 + |b|..] == y;
  }

  /** Two sessions share a key preimage only if source, machine and session id all agree: no boundary can shift. */
  lemma SessionKeysDistinct(s: string, m: string, i: string, s': string, m': string, i': string)
    requires forall t :: t in [s, m, i, s', m', i'] ==> |t| < 0x1_0000_0000_0000_0000
    ensures KeyPreimage(s, m, i) == KeyPreimage(s', m', i') <==> s == s' && m == m' && i == i'
  {
    EightBytes();
    hide Prefixed, Bound;
    if KeyPreimage(s, m, i) == KeyPreimage(s', m', i') {
      PrefixedSplits(s, Prefixed(m) + Prefixed(i), s', Prefixed(m') + Prefixed(i'));
      PrefixedSplits(m, Prefixed(i), m', Prefixed(i'));
      assert Prefixed(i) + [] == Prefixed(i) && Prefixed(i') + [] == Prefixed(i');
      PrefixedSplits(i, [], i', []);
    }
  }
}
