/** UTF-8 well-formedness (section 4 of RFC 3629) and the lossy sanitiser that
    replaces each maximal invalid sequence by U+FFFD. */
module Utf8 {
  import opened Widths

  // ----- the syntax of UTF-8 byte sequences -----

  predicate Tail(b: byte) {
    0x80 <= b <= 0xbf
  }

  /** How many bytes a leading byte asks for; 0 if it cannot lead. */
  function Span(b: byte): nat {
    if b <= 0x7f then 1
    else if 0xc2 <= b <= 0xdf then 2
    else if 0xe0 <= b <= 0xef then 3
    else if 0xf0 <= b <= 0xf4 then 4
    else 0
  }

  /** Whether `c` may be the second byte after leading byte `b`. */
  predicate Second(b: byte, c: byte) {
    if b == 0xe0 then 0xa0 <= c <= 0xbf
    else if b == 0xed then 0x80 <= c <= 0x9f
    else if b == 0xf0 then 0x90 <= c <= 0xbf
    else if b == 0xf4 then 0x80 <= c <= 0x8f
    else Tail(c)
  }

  /** The length of the character at the front of `s`, or 0 if there is none. */
  function CharLen(s: Bytes): (n: nat)
    ensures n <= |s| && n <= 4
  {
    if s == [] then 0
    else
      var n := Span(s[0]);
      if n == 0 || |s| < n then 0
      else if n >= 2 && !Second(s[0], s[1]) then 0
      else if n >= 3 && !Tail(s[2]) then 0
      else if n >= 4 && !Tail(s[3]) then 0
      else n
  }

  predicate WellFormed(s: Bytes) {
    s == [] || (CharLen(s) > 0 && WellFormed(s[CharLen(s)..]))
  }

  // ----- the reference: encoded scalar values -----

  predicate Scalar(c: nat) {
    c <= 0x10ffff && !(0xd800 <= c <= 0xdfff)
  }

  /** Section 3 of RFC 3629. */
  function Utf8Char(c: nat): Bytes
    requires Scalar(c)
  {
    if c <= 0x7f then [c as byte]
    else if c <= 0x7ff then [(0xc0 + c / 64) as byte, (0x80 + c % 64) as byte]
    else if c <= 0xffff then [(0xe0 + c / 4096) as byte, (0x80 + c / 64 % 64) as byte, (0x80 + c % 64) as byte]
    else [(0xf0 + c / 262144) as byte, (0x80 + c / 4096 % 64) as byte, (0x80 + c / 64 % 64) as byte,
          (0x80 + c % 64) as byte]
  }

  predicate Scalars(cs: seq<nat>) {
    forall i :: 0 <= i < |cs| ==> Scalar(cs[i])
  }

  function Utf8Text(cs: seq<nat>): Bytes
    requires Scalars(cs)
  {
    if cs == [] then [] else Utf8Char(cs[0]) + Utf8Text(cs[1..])
  }

  /** The scalar value of a character's bytes. */
  function ScalarOf(s: Bytes): nat
    requires CharLen(s) == |s| > 0
  {
    match |s|
    case 1 => s[0] as nat
    case 2 => (s[0] as nat - 0xc0) * 64 + (s[1] as nat - 0x80)
    case 3 => (s[0] as nat - 0xe0) * 4096 + (s[1] as nat - 0x80) * 64 + (s[2] as nat - 0x80)
    case _ =>
      (s[0] as nat - 0xf0) * 262144 + (s[1] as nat - 0x80) * 4096 + (s[2] as nat - 0x80) * 64 + (s[3] as nat - 0x80)
  }

  /** Whether `s` is exactly one character. */
  predicate OneChar(s: Bytes) {
    CharLen(s) == |s| > 0
  }

  lemma CharIsWhole(c: nat, rest: Bytes)
    requires Scalar(c)
    ensures CharLen(Utf8Char(c) + rest) == |Utf8Char(c)| > 0
  {
    CharIsOne(c);
    hide Utf8Char;
    CharAtFront(Utf8Char(c), rest);
  }

  lemma CharAtFront(s: Bytes, rest: Bytes)
    requires OneChar(s)
    ensures CharLen(s + rest) == |s|
  {}

  lemma CharIsOne(c: nat)
    requires Scalar(c)
    ensures OneChar(Utf8Char(c))
  {
    if c <= 0x7f {
    } else if c <= 0x7ff {
      TwoByteChar(c);
    } else if c <= 0xffff {
      ThreeByteChar(c);
    } else {
      FourByteChar(c);
    }
  }

  lemma TwoByteChar(c: nat)
    requires 0x7f < c <= 0x7ff
    ensures OneChar([(0xc0 + c / 64) as byte, (0x80 + c % 64) as byte])
  {
    assert 2 <= c / 64 <= 31;
  }

  lemma ThreeByteChar(c: nat)
    requires Scalar(c) && 0x7ff < c <= 0xffff
    ensures OneChar([(0xe0 + c / 4096) as byte, (0x80 + c / 64 % 64) as byte, (0x80 + c % 64) as byte])
  {
    var x, y := c / 4096, c / 64 % 64;
    assert c / 64 == 64 * x + y;
    assert x <= 15 && y < 64;
    assert x == 0 ==> y >= 0x20;
    assert x == 0xd ==> y < 0x20;
  }

  lemma FourByteChar(c: nat)
    requires 0xffff < c <= 0x10ffff
    ensures OneChar([(0xf0 + c / 262144) as byte, (0x80 + c / 4096 % 64) as byte, (0x80 + c / 64 % 64) as byte,
                     (0x80 + c % 64) as byte])
  {
    var x, y := c / 262144, c / 4096 % 64;
    assert c / 4096 == 64 * x + y;
    assert x <= 4 && y < 64;
    assert x == 0 ==> y >= 0x10;
    assert x == 4 ==> y < 0x10;
  }

  lemma CharRoundTrip(s: Bytes)
    requires CharLen(s) == |s| > 0
    ensures Scalar(ScalarOf(s)) && Utf8Char(ScalarOf(s)) == s
  {
    if |s| == 2 {
      TwoBytes(s);
    } else if |s| == 3 {
      ThreeBytes(s);
    } else if |s| == 4 {
      FourBytes(s);
    }
  }

  lemma TwoBytes(s: Bytes)
    requires CharLen(s) == |s| == 2
    ensures Scalar(ScalarOf(s)) && Utf8Char(ScalarOf(s)) == s
  {}

  lemma ThreeBytes(s: Bytes)
    requires CharLen(s) == |s| == 3
    ensures Scalar(ScalarOf(s)) && Utf8Char(ScalarOf(s)) == s
  {
    var x, y, z := s[0] as nat - 0xe0, s[1] as nat - 0x80, s[2] as nat - 0x80;
    var c := ScalarOf(s);
    assert c == x * 4096 + y * 64 + z;
    assert 0x7ff < c <= 0xffff && !(0xd800 <= c <= 0xdfff);
    hide CharLen;
    hide ScalarOf;
    Digits(0, x, y, z);
    assert c / 4096 == x;
  }

  lemma FourBytes(s: Bytes)
    requires CharLen(s) == |s| == 4
    ensures Scalar(ScalarOf(s)) && Utf8Char(ScalarOf(s)) == s
  {
    var x, y, z, u := s[0] as nat - 0xf0, s[1] as nat - 0x80, s[2] as nat - 0x80, s[3] as nat - 0x80;
    var c := ScalarOf(s);
    assert c == x * 262144 + y * 4096 + z * 64 + u;
    assert 0xffff < c <= 0x10ffff;
    hide CharLen;
    hide ScalarOf;
    Digits(x, y, z, u);
  }

  lemma Digits(x: nat, y: nat, z: nat, u: nat)
    requires y < 64 && z < 64 && u < 64
    ensures
      var c := x * 262144 + y * 4096 + z * 64 + u;
      c / 262144 == x && c / 4096 % 64 == y && c / 64 % 64 == z && c % 64 == u
  {
    var c := x * 262144 + y * 4096 + z * 64 + u;
    assert c / 64 == x * 4096 + y * 64 + z;
    assert c / 4096 == x * 64 + y;
  }

  lemma CharOfPrefix(s: Bytes)
    requires CharLen(s) > 0
    ensures CharLen(s[..CharLen(s)]) == CharLen(s)
  {}

  /** Encoded text is well-formed ... */
  lemma {:induction false} TextIsWellFormed(cs: seq<nat>)
    requires Scalars(cs)
    ensures WellFormed(Utf8Text(cs))
  {
    if cs != [] {
      TextIsWellFormed(cs[1..]);
      CharIsWhole(cs[0], Utf8Text(cs[1..]));
      var s := Utf8Text(cs);
      assert s[CharLen(s)..] == Utf8Text(cs[1..]);
    }
  }

  lemma TextCons(c: nat, cs: seq<nat>)
    requires Scalar(c) && Scalars(cs)
    ensures Scalars([c] + cs) && Utf8Text([c] + cs) == Utf8Char(c) + Utf8Text(cs)
  {
    hide Utf8Char;
    assert ([c] + cs)[1..] == cs;
  }

  /** ... and every well-formed byte sequence is encoded text. */
  lemma {:induction false} WellFormedIsText(s: Bytes) returns (cs: seq<nat>)
    requires WellFormed(s)
    ensures Scalars(cs) && Utf8Text(cs) == s
    decreases |s|
  {
    hide CharLen;
    hide Utf8Char;
    if s == [] {
      cs := [];
    } else {
      var n := CharLen(s);
      CharOfPrefix(s);
      CharRoundTrip(s[..n]);
      var c := ScalarOf(s[..n]);
      hide ScalarOf;
      var tail := WellFormedIsText(s[n..]);
      TextCons(c, tail);
      hide Utf8Text;
      cs := [c] + tail;
      assert s == s[..n] + s[n..];
    }
  }

  // ----- the sanitiser -----

  const REPLACEMENT: Bytes := [0xef, 0xbf, 0xbd]

  /** How far an invalid sequence at the front of `s` goes; None at the end of the
      input, where more bytes could have completed it. */
  function ErrorLen(s: Bytes): (r: Option<nat>)
    requires s != [] && CharLen(s) == 0
    ensures r.Some? ==> 1 <= r.value <= |s|
  {
    var n := Span(s[0]);
    if n == 0 then Some(1)
    else if |s| < 2 then None
    else if !Second(s[0], s[1]) then Some(1)
    else if |s| < 3 then None
    else if !Tail(s[2]) then Some(2)
    else if |s| < 4 then None
    else Some(3)
  }

  /** The length of the longest well-formed prefix. */
  function ValidUpTo(s: Bytes): (n: nat)
    ensures n <= |s|
    decreases |s|
  {
    var n := CharLen(s);
    if n == 0 then 0 else n + ValidUpTo(s[n..])
  }

  function Lossy(s: Bytes): Bytes
    decreases |s|
  {
    if s == [] then []
    else if CharLen(s) > 0 then s[..CharLen(s)] + Lossy(s[CharLen(s)..])
    else if ErrorLen(s).None? then REPLACEMENT
    else REPLACEMENT + Lossy(s[ErrorLen(s).value..])
  }

  lemma {:induction false} ValidPrefix(s: Bytes)
    ensures Lossy(s) == s[..ValidUpTo(s)] + Lossy(s[ValidUpTo(s)..])
    ensures ValidUpTo(s) < |s| ==> CharLen(s[ValidUpTo(s)..]) == 0
    decreases |s|
  {
    hide CharLen;
    hide ErrorLen;
    var n := CharLen(s);
    if n == 0 {
      assert s[0..] == s && s[..0] == [];
    } else {
      ValidPrefix(s[n..]);
      assert Lossy(s) == s[..n] + Lossy(s[n..]);
      hide Lossy;
      Slices(s, n, ValidUpTo(s[n..]), Lossy(s[ValidUpTo(s)..]));
    }
  }

  lemma Slices(s: Bytes, n: nat, m: nat, x: Bytes)
    requires n + m <= |s|
    ensures s[n + m..] == s[n..][m..]
    ensures s[..n + m] + x == s[..n] + (s[n..][..m] + x)
  {
    assert s[..n + m] == s[..n] + s[n..][..m];
  }

  lemma {:induction false} AllValid(s: Bytes)
    ensures ValidUpTo(s) == |s| <==> WellFormed(s)
    decreases |s|
  {
    hide CharLen;
    if CharLen(s) > 0 {
      AllValid(s[CharLen(s)..]);
    }
  }

  /** The prefix is well-formed and no longer one is. */
  lemma {:induction false} PrefixIsWellFormed(s: Bytes)
    ensures WellFormed(s[..ValidUpTo(s)])
    decreases |s|
  {
    hide CharLen;
    var n := CharLen(s);
    if n > 0 {
      var t := s[n..];
      PrefixIsWellFormed(t);
      var p := s[..n + ValidUpTo(t)];
      assert p[n..] == t[..ValidUpTo(t)];
      CharLenOfPrefix(s, p);
    }
  }

  lemma CharLenOfPrefix(s: Bytes, p: Bytes)
    requires CharLen(s) > 0 && CharLen(s) <= |p| <= |s| && p == s[..|p|]
    ensures CharLen(p) == CharLen(s)
  {}

  lemma LossyStep(s: Bytes)
    ensures s == [] ==> Lossy(s) == []
    ensures s != [] && CharLen(s) == 0 ==>
              Lossy(s) == REPLACEMENT + if ErrorLen(s).None? then [] else Lossy(s[ErrorLen(s).value..])
  {}

  /** The loop: copy the valid prefix, replace one invalid sequence, go on. */
  method SanitizeUtf8Lossy(bytes: Bytes) returns (out: Bytes)
    ensures out == Lossy(bytes)
  {
    hide CharLen;
    hide ErrorLen;
    AllValid(bytes);
    LossyIsIdentityOnValid(bytes);
    if ValidUpTo(bytes) == |bytes| {
      return bytes;
    }
    hide Lossy;
    hide WellFormed;
    hide ValidUpTo;
    out := [];
    var input := bytes;
    while true
      invariant Lossy(bytes) == out + Lossy(input)
      decreases |input|
    {
      var valid := ValidUpTo(input);
      ValidPrefix(input);
      var rest := input[valid..];
      LossyStep(rest);
      out := out + input[..valid];
      if valid == |input| {
        break;
      }
      out := out + REPLACEMENT;
      var error := ErrorLen(rest);
      if error.None? {
        break;
      }
      input := rest[error.value..];
    }
  }

  /** The output is always well-formed. */
  lemma {:induction false} LossyIsWellFormed(s: Bytes)
    ensures WellFormed(Lossy(s))
    decreases |s|
  {
    if s == [] {
    } else if CharLen(s) > 0 {
      var n := CharLen(s);
      LossyIsWellFormed(s[n..]);
      CharThenText(s[..n], Lossy(s[n..]));
    } else {
      var t := if ErrorLen(s).None? then [] else Lossy(s[ErrorLen(s).value..]);
      if ErrorLen(s).Some? {
        LossyIsWellFormed(s[ErrorLen(s).value..]);
      }
      CharThenText(REPLACEMENT, t);
      assert REPLACEMENT + [] == REPLACEMENT;
    }
  }

  lemma CharThenText(c: Bytes, t: Bytes)
    requires CharLen(c) == |c| > 0 && WellFormed(t)
    ensures WellFormed(c + t)
  {
    assert CharLen(c + t) == |c|;
    assert (c + t)[|c|..] == t;
  }

  /** The sanitiser changes exactly the inputs that are not well-formed. */
  lemma {:induction false} LossyIsIdentityOnValid(s: Bytes)
    ensures Lossy(s) == s <==> WellFormed(s)
    decreases |s|
  {
    if WellFormed(s) {
      AllValid(s);
      ValidPrefix(s);
      assert s[..|s|] == s && s[|s|..] == [];
    } else {
      LossyIsWellFormed(s);
    }
  }

  lemma LossyIsIdempotent(s: Bytes)
    ensures Lossy(Lossy(s)) == Lossy(s)
  {
    LossyIsWellFormed(s);
    LossyIsIdentityOnValid(Lossy(s));
  }

  // ----- what is kept and what is replaced -----

  /** The bytes are a proper or whole beginning of some encoded character. */
  ghost predicate Begins(p: Bytes) {
    exists c :: Scalar(c) && p <= Utf8Char(c)
  }

  /** No character is encoded at the front of `s`. */
  ghost predicate NoCharacter(s: Bytes) {
    forall c :: Scalar(c) ==> !(Utf8Char(c) <= s)
  }

  /** `bad` is one maximal invalid sequence in front of `t`: the longest prefix that
      begins some character though none is complete, or one byte if that begins none. */
  ghost predicate MaximalInvalid(bad: Bytes, t: Bytes) {
    && bad != [] && NoCharacter(bad + t)
    && if Begins(bad[..1]) then Begins(bad) && (t != [] ==> !Begins(bad + t[..1])) else |bad| == 1
  }

  /** The bytes could be a beginning, by the syntax. */
  predicate BeginsSyntax(p: Bytes) {
    && p != [] && |p| <= Span(p[0])
    && (|p| >= 2 ==> Second(p[0], p[1]))
    && (|p| >= 3 ==> Tail(p[2]))
    && (|p| >= 4 ==> Tail(p[3]))
  }

  /** The least second byte after `b`. */
  function LeastSecond(b: byte): byte {
    if b == 0xe0 then 0xa0 else if b == 0xf0 then 0x90 else 0x80
  }

  /** Least bytes that complete a beginning. */
  function Completed(p: Bytes): Bytes
    requires BeginsSyntax(p)
    decreases 4 - |p|
  {
    if |p| >= Span(p[0]) then p
    else if |p| == 1 then Completed(p + [LeastSecond(p[0])])
    else Completed(p + [0x80])
  }

  lemma {:induction false} CompletedIsOneChar(p: Bytes)
    requires BeginsSyntax(p)
    ensures OneChar(Completed(p)) && p <= Completed(p)
    decreases 4 - |p|
  {
    if |p| < Span(p[0]) {
      var q := p + [if |p| == 1 then LeastSecond(p[0]) else 0x80];
      assert q[0] == p[0] && q[..|p|] == p;
      CompletedIsOneChar(q);
      assert Completed(p) == Completed(q);
    }
  }

  lemma BeginsIsSyntax(p: Bytes)
    requires p != []
    ensures Begins(p) <==> BeginsSyntax(p)
  {
    hide Utf8Char;
    if BeginsSyntax(p) {
      CompletedIsOneChar(p);
      CharRoundTrip(Completed(p));
    }
    if Begins(p) {
      var c :| Scalar(c) && p <= Utf8Char(c);
      CharIsOne(c);
      BeginningOfChar(Utf8Char(c), p);
    }
  }

  lemma BeginningOfChar(s: Bytes, p: Bytes)
    requires OneChar(s) && p != [] && p <= s
    ensures BeginsSyntax(p)
  {}

  lemma NoCharacterIsSyntax(s: Bytes)
    ensures NoCharacter(s) <==> CharLen(s) == 0
  {
    hide Utf8Char;
    if CharLen(s) > 0 {
      CharOfPrefix(s);
      CharRoundTrip(s[..CharLen(s)]);
      assert Utf8Char(ScalarOf(s[..CharLen(s)])) <= s;
    }
    if c :| Scalar(c) && Utf8Char(c) <= s {
      CharIsWhole(c, s[|Utf8Char(c)|..]);
      assert s == Utf8Char(c) + s[|Utf8Char(c)|..];
    }
  }

  /** How much of `s` the sanitiser replaces at once. */
  function Replaced(s: Bytes): (n: nat)
    requires s != [] && CharLen(s) == 0
    ensures 1 <= n <= |s|
  {
    if ErrorLen(s).None? then |s| else ErrorLen(s).value
  }

  lemma ReplacedSyntax(s: Bytes)
    requires s != [] && CharLen(s) == 0
    ensures
      var n := Replaced(s);
      if BeginsSyntax(s[..1]) then BeginsSyntax(s[..n]) && (n < |s| ==> !BeginsSyntax(s[..n + 1])) else n == 1
  {}

  /** The sanitiser's idea of one invalid sequence is the maximal one. */
  lemma ReplacedIsMaximal(s: Bytes)
    requires s != [] && CharLen(s) == 0
    ensures
      var n := Replaced(s);
      MaximalInvalid(s[..n], s[n..])
  {
    hide Replaced;
    hide Begins;
    hide BeginsSyntax;
    hide CharLen;
    var n := Replaced(s);
    ReplacedSyntax(s);
    NoCharacterIsSyntax(s);
    hide NoCharacter;
    assert s[..n] + s[n..] == s && s[..n][..1] == s[..1];
    BeginsIsSyntax(s[..1]);
    BeginsIsSyntax(s[..n]);
    if n < |s| {
      BeginsIsSyntax(s[..n + 1]);
      assert s[..n] + s[n..][..1] == s[..n + 1];
    }
  }

  lemma BeginsIsPrefixClosed(p: Bytes, q: Bytes)
    requires p <= q && Begins(q)
    ensures Begins(p)
  {
    hide Utf8Char;
    var c :| Scalar(c) && q <= Utf8Char(c);
    assert p <= Utf8Char(c);
  }

  /** Of two ways to cut a maximal invalid sequence off, neither is shorter. */
  lemma MaximalIsNoShorter(a: Bytes, t: Bytes, b: Bytes, u: Bytes)
    requires MaximalInvalid(a, t) && MaximalInvalid(b, u) && a + t == b + u
    ensures |a| >= |b|
  {
    hide Begins;
    hide NoCharacter;
    var s := a + t;
    assert a == s[..|a|] && b == s[..|b|];
    assert a[..1] == s[..1] == b[..1];
    if |a| < |b| {
      assert t != [] && a + t[..1] == s[..|a| + 1] <= b;
      BeginsIsPrefixClosed(a + t[..1], b);
    }
  }

  /** A well-formed text is kept, one maximal invalid sequence after it becomes one
      U+FFFD, and the rest goes on by itself. */
  lemma LossyReplacesMaximalSequences(p: Bytes, bad: Bytes, t: Bytes)
    requires WellFormed(p) && MaximalInvalid(bad, t)
    ensures Lossy(p + bad + t) == p + REPLACEMENT + Lossy(t)
  {
    hide NoCharacter;
    hide CharLen;
    var s := bad + t;
    NoCharacterIsSyntax(s);
    ReplacedIsMaximal(s);
    var n := Replaced(s);
    assert s[..n] + s[n..] == s;
    MaximalIsNoShorter(bad, t, s[..n], s[n..]);
    MaximalIsNoShorter(s[..n], s[n..], bad, t);
    assert s[n..] == t;
    hide MaximalInvalid;
    LossyOfInvalid(s);
    LossyAfterText(p, s);
    assert p + bad + t == p + s;
  }

  lemma LossyOfInvalid(s: Bytes)
    requires s != [] && CharLen(s) == 0
    ensures Lossy(s) == REPLACEMENT + Lossy(s[Replaced(s)..])
  {
    LossyStep(s);
    LossyStep([]);
  }

  lemma {:induction false} LossyAfterText(p: Bytes, s: Bytes)
    requires WellFormed(p)
    ensures Lossy(p + s) == p + Lossy(s)
    decreases |p|
  {
    hide ErrorLen;
    hide CharLen;
    if p == [] {
      assert p + s == s;
    } else {
      var n := CharLen(p);
      CharOfPrefix(p);
      CharAtFront(p[..n], p[n..] + s);
      assert p[..n] + (p[n..] + s) == p + s;
      LossyAfterText(p[n..], s);
      assert (p + s)[..n] == p[..n] && (p + s)[n..] == p[n..] + s;
      assert p[..n] + (p[n..] + Lossy(s)) == p + Lossy(s);
    }
  }

  /** Whatever is not well-formed has such a sequence, so the two laws above say what the
      sanitiser does to every input. */
  lemma FirstInvalidSequence(s: Bytes) returns (p: Bytes, bad: Bytes, t: Bytes)
    requires !WellFormed(s)
    ensures s == p + bad + t && WellFormed(p) && MaximalInvalid(bad, t)
  {
    hide CharLen;
    hide WellFormed;
    hide Replaced;
    hide MaximalInvalid;
    AllValid(s);
    PrefixIsWellFormed(s);
    ValidPrefix(s);
    var n := ValidUpTo(s);
    p := s[..n];
    var rest := s[n..];
    ReplacedIsMaximal(rest);
    bad, t := rest[..Replaced(rest)], rest[Replaced(rest)..];
    assert bad + t == rest;
    assert p + bad + t == p + rest == s;
  }

  /** The ASCII bytes of a text, in order. */
  function Ascii(s: Bytes): Bytes {
    if s == [] then [] else (if s[0] < 0x80 then [s[0]] else []) + Ascii(s[1..])
  }

  lemma {:induction false} AsciiAppend(s: Bytes, t: Bytes)
    ensures Ascii(s + t) == Ascii(s) + Ascii(t)
  {
    if s == [] {
      assert s + t == t;
    } else {
      assert (s + t)[1..] == s[1..] + t;
      AsciiAppend(s[1..], t);
    }
  }

  lemma {:induction false} NoAscii(s: Bytes)
    requires forall i :: 0 <= i < |s| ==> s[i] >= 0x80
    ensures Ascii(s) == []
  {
    if s != [] {
      NoAscii(s[1..]);
    }
  }

  lemma InvalidHasNoAscii(s: Bytes)
    requires s != [] && CharLen(s) == 0
    ensures forall i :: 0 <= i < Replaced(s) ==> s[i] >= 0x80
  {}

  lemma AsciiInParts(s: Bytes, n: nat, x: Bytes, y: Bytes)
    requires n <= |s| && Ascii(x) == Ascii(s[..n]) && Ascii(y) == Ascii(s[n..])
    ensures Ascii(x + y) == Ascii(s)
  {
    AsciiAppend(s[..n], s[n..]);
    AsciiAppend(x, y);
    assert s[..n] + s[n..] == s;
  }

  lemma ReplacementKeepsAscii(s: Bytes)
    requires s != [] && CharLen(s) == 0
    ensures Ascii(REPLACEMENT) == Ascii(s[..Replaced(s)])
  {
    hide Replaced;
    hide CharLen;
    InvalidHasNoAscii(s);
    NoAscii(s[..Replaced(s)]);
    NoAscii(REPLACEMENT);
  }

  /** No ASCII byte is lost, made up or moved. */
  lemma {:induction false} LossyKeepsAscii(s: Bytes)
    ensures Ascii(Lossy(s)) == Ascii(s)
    decreases |s|
  {
    hide CharLen;
    hide ErrorLen;
    hide Ascii;
    if s == [] {
      LossyStep(s);
    } else if CharLen(s) > 0 {
      var n := CharLen(s);
      LossyKeepsAscii(s[n..]);
      AsciiInParts(s, n, s[..n], Lossy(s[n..]));
    } else {
      var n := Replaced(s);
      LossyOfInvalid(s);
      ReplacementKeepsAscii(s);
      hide Lossy;
      hide Replaced;
      LossyKeepsAscii(s[n..]);
      AsciiInParts(s, n, REPLACEMENT, Lossy(s[n..]));
    }
  }
}
