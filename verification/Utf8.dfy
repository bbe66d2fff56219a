/**
 Truncating text at a byte limit without splitting a character: three independent
 implementations, against the grammar of well-formed UTF-8 (section 4 of RFC 3629).
 */
module Utf8 {
  import opened Prelude

  type Byte = bv8

  predicate IsTail(b: Byte) { b & 0xC0 == 0x80 }

  /** Length of the well-formed character at the front, or 0 if there is none. */
  function CharLen(s: seq<Byte>): (n: nat)
    ensures n <= |s| && n <= 4
  {
    if s == [] then 0
    else if s[0] <= 0x7F then 1
    else if 0xC2 <= s[0] <= 0xDF && |s| >= 2 && IsTail(s[1]) then 2
    else if |s| >= 3 && IsTail(s[1]) && IsTail(s[2]) && LeadOf3(s[0], s[1]) then 3
    else if |s| >= 4 && IsTail(s[1]) && IsTail(s[2]) && IsTail(s[3]) && LeadOf4(s[0], s[1]) then 4
    else 0
  }

  /** Excludes overlong forms and surrogates. */
  predicate LeadOf3(a: Byte, b: Byte) {
    (a == 0xE0 && b >= 0xA0) || 0xE1 <= a <= 0xEC || (a == 0xED && b <= 0x9F) || 0xEE <= a <= 0xEF
  }

  /** Excludes overlong forms and code points above U+10FFFF. */
  predicate LeadOf4(a: Byte, b: Byte) {
    (a == 0xF0 && b >= 0x90) || 0xF1 <= a <= 0xF3 || (a == 0xF4 && b <= 0x8F)
  }

  predicate Valid(s: seq<Byte>) {
    s == [] || (CharLen(s) > 0 && Valid(s[CharLen(s)..]))
  }

  /** Decoding from the front, a character starts or the text ends at `i`. */
  predicate Boundary(s: seq<Byte>, i: nat) {
    i == 0 || (CharLen(s) > 0 && i >= CharLen(s) && Boundary(s[CharLen(s)..], i - CharLen(s)))
  }

  /** The largest character boundary at or below `pos`. */
  ghost predicate IsFloor(s: seq<Byte>, pos: nat, r: nat) {
    && r <= pos && r <= |s| && Boundary(s, r)
    && forall i | r < i <= pos && i <= |s| :: !Boundary(s, i)
  }

  // ---------- Boundaries of well-formed text ----------

  lemma FirstCharBytes(s: seq<Byte>)
    requires CharLen(s) > 0
    ensures !IsTail(s[0]) && forall i | 0 < i < CharLen(s) :: IsTail(s[i])
  {
  }

  /** In well-formed text the boundaries are the positions not held by a tail byte. */
  lemma {:induction false} BoundaryIsNotTail(s: seq<Byte>, i: nat)
    requires Valid(s) && i <= |s|
    ensures Boundary(s, i) <==> i == |s| || !IsTail(s[i])
  {
    if s != [] {
      var n := CharLen(s);
      FirstCharBytes(s);
      if i >= n {
        BoundaryIsNotTail(s[n..], i - n);
      }
    }
  }

  lemma {:induction false} BoundarySplits(s: seq<Byte>, i: nat)
    requires Valid(s) && i <= |s| && Boundary(s, i)
    ensures Valid(s[..i]) && Valid(s[i..])
  {
    if i == 0 {
      assert s[..i] == [] && s[i..] == s;
    } else {
      var n := CharLen(s);
      BoundarySplits(s[n..], i - n);
      assert s[n..][i - n..] == s[i..];
      assert s[..i][n..] == s[n..][..i - n];
      CharLenOfPrefix(s, i);
    }
  }

  lemma CharLenOfPrefix(s: seq<Byte>, i: nat)
    requires CharLen(s) > 0 && CharLen(s) <= i <= |s|
    ensures CharLen(s[..i]) == CharLen(s)
  {}

  lemma {:induction false} ValidConcat(a: seq<Byte>, b: seq<Byte>)
    requires Valid(a) && Valid(b)
    ensures Valid(a + b)
  {
    if a == [] {
      assert a + b == b;
    } else {
      ValidConcat(a[CharLen(a)..], b);
      ConcatDrop(a, b, CharLen(a));
      CharLenExtends(a, b);
    }
  }

  lemma ConcatDrop<T>(a: seq<T>, b: seq<T>, n: nat)
    requires n <= |a|
    ensures (a + b)[n..] == a[n..] + b
  {}

  lemma CharLenExtends(a: seq<Byte>, b: seq<Byte>)
    requires CharLen(a) > 0
    ensures CharLen(a + b) == CharLen(a)
  {
  }

  lemma {:induction false} AsciiIsValid(s: seq<Byte>)
    requires forall i | 0 <= i < |s| :: s[i] <= 0x7F
    ensures Valid(s)
  {
    if s != [] {
      AsciiIsValid(s[1..]);
    }
  }

  /** Four positions in a row always include a boundary. */
  lemma {:induction false} BoundaryNearby(s: seq<Byte>, pos: nat) returns (r: nat)
    requires Valid(s) && pos <= |s|
    ensures r <= pos <= r + 3 && Boundary(s, r)
  {
    var n := CharLen(s);
    if s == [] || pos < n {
      r := 0;
    } else {
      r := BoundaryNearby(s[n..], pos - n);
      r := r + n;
    }
  }

  /** The floor is unique, within three bytes of the limit, and cuts off well-formed text. */
  lemma FloorFacts(s: seq<Byte>, pos: nat, r: nat, other: nat)
    requires Valid(s) && pos <= |s| && IsFloor(s, pos, r)
    ensures pos - r <= 3 && Valid(s[..r])
    ensures IsFloor(s, pos, other) ==> other == r
  {
    var near := BoundaryNearby(s, pos);
    BoundarySplits(s, r);
  }

  /** Past tail bytes back to a byte that is none: that is the floor. */
  lemma WalkBackIsFloor(s: seq<Byte>, pos: nat, r: nat)
    requires Valid(s) && r <= pos < |s| && (r == 0 || !IsTail(s[r]))
    requires forall i | r < i <= pos :: IsTail(s[i])
    ensures IsFloor(s, pos, r)
  {
    BoundaryIsNotTail(s, r);
    forall i | r < i <= pos ensures !Boundary(s, i) {
      BoundaryIsNotTail(s, i);
    }
  }

  // ---------- The same text as encoded characters ----------

  predicate Scalar(c: bv32) { c < 0xD800 || 0xDFFF < c <= 0x10FFFF }

  function Tail(c: bv32): Byte { 0x80 | ((c & 0x3F) as bv8) }

  /** Section 3 of RFC 3629. */
  function Encoded(c: bv32): seq<Byte>
    requires Scalar(c)
  {
    if c <= 0x7F then [c as bv8]
    else if c <= 0x7FF then [0xC0 | ((c >> 6) as bv8), Tail(c)]
    else if c <= 0xFFFF then [0xE0 | ((c >> 12) as bv8), Tail(c >> 6), Tail(c)]
    else [0xF0 | ((c >> 18) as bv8), Tail(c >> 12), Tail(c >> 6), Tail(c)]
  }

  lemma TailIsTail(c: bv32)
    ensures IsTail(Tail(c))
  {
  }

  /** Every character's encoding is read as one character. */
  lemma EncodedIsChar(c: bv32, rest: seq<Byte>)
    requires Scalar(c)
    ensures CharLen(Encoded(c) + rest) == |Encoded(c)|
  {
    TailIsTail(c);
    TailIsTail(c >> 6);
    TailIsTail(c >> 12);
  }

  /** So every sequence of characters, written by section 3, is well-formed by section 4. */
  lemma {:induction false} EncodedTextIsValid(text: seq<bv32>)
    requires forall i | 0 <= i < |text| :: Scalar(text[i])
    ensures Valid(EncodedText(text))
  {
    if text != [] {
      var rest := EncodedText(text[1..]);
      EncodedTextIsValid(text[1..]);
      EncodedIsChar(text[0], rest);
      assert (Encoded(text[0]) + rest)[|Encoded(text[0])|..] == rest;
    }
  }

  function EncodedText(text: seq<bv32>): seq<Byte>
    requires forall i | 0 <= i < |text| :: Scalar(text[i])
  {
    if text == [] then [] else Encoded(text[0]) + EncodedText(text[1..])
  }

  // ---------- The three implementations ----------

  /** In the terminal writer: on bytes. */
  method Utf8FloorBytes(bytes: seq<Byte>, pos: nat) returns (i: nat)
    requires pos < |bytes|
    ensures i <= pos && (i == 0 || !IsTail(bytes[i])) && forall k | i < k <= pos :: IsTail(bytes[k])
    ensures Valid(bytes) ==> IsFloor(bytes, pos, i)
  {
    i := pos;
    while i > 0 && bytes[i] & 0xC0 == 0x80
      invariant i <= pos
      invariant forall k | i < k <= pos :: IsTail(bytes[k])
    {
      i := i - 1;
    }
    if Valid(bytes) {
      WalkBackIsFloor(bytes, pos, i);
    }
  }

  /** `str::is_char_boundary`, as the standard library defines it. */
  predicate IsCharBoundary(s: seq<Byte>, i: nat) {
    i == 0 || i == |s| || (i < |s| && !(0x80 <= s[i] <= 0xBF))
  }

  /** In the shared helpers: on strings, with any position. */
  method FloorCharBoundary(s: seq<Byte>, pos: nat) returns (i: nat)
    requires Valid(s)
    ensures IsFloor(s, if pos >= |s| then |s| else pos, i)
  {
    if pos >= |s| {
      BoundaryIsNotTail(s, |s|);
      return |s|;
    }
    i := pos;
    while i > 0 && !IsCharBoundary(s, i)
      invariant i <= pos
      invariant forall k | i < k <= pos :: IsTail(s[k])
    {
      TailRange(s[i]);
      i := i - 1;
    }
    TailRange(s[i]);
    WalkBackIsFloor(s, pos, i);
  }

  lemma TailRange(b: Byte)
    ensures IsTail(b) <==> 0x80 <= b <= 0xBF
  {}

  /** `char_indices`: where each character starts. */
  function CharStarts(s: seq<Byte>, base: nat): seq<nat> {
    if CharLen(s) == 0 then [] else [base] + CharStarts(s[CharLen(s)..], base + CharLen(s))
  }

  function TakeWhileAtMost(starts: seq<nat>, limit: nat): seq<nat> {
    if starts == [] || starts[0] > limit then [] else [starts[0]] + TakeWhileAtMost(starts[1..], limit)
  }

  /** In document extraction: the last character start at or below the limit. */
  function ExtractionCut(s: seq<Byte>, limit: nat): nat {
    var starts := TakeWhileAtMost(CharStarts(s, 0), limit);
    if starts == [] then 0 else starts[|starts| - 1]
  }

  lemma {:induction false} LastStartIsFloor(s: seq<Byte>, base: nat, limit: nat)
    requires Valid(s) && base <= limit < base + |s|
    ensures var starts := TakeWhileAtMost(CharStarts(s, base), limit);
            starts != [] && starts[|starts| - 1] >= base && IsFloor(s, limit - base, starts[|starts| - 1] - base)
  {
    var n := CharLen(s);
    var rest := TakeWhileAtMost(CharStarts(s[n..], base + n), limit);
    assert TakeWhileAtMost(CharStarts(s, base), limit) == [base] + rest;
    if base + n <= limit {
      LastStartIsFloor(s[n..], base + n, limit);
      var r := rest[|rest| - 1];
      forall i | r - base < i <= limit - base && i <= |s| ensures !Boundary(s, i) {
        assert !Boundary(s[n..], i - n);
      }
    } else {
      assert rest == [];
    }
  }

  /** On every well-formed text and every limit below its length the extraction cut is the
      floor too, so by `FloorFacts` all three implementations cut at the same place. */
  lemma ExtractionCutIsFloor(s: seq<Byte>, limit: nat)
    requires Valid(s) && limit < |s|
    ensures IsFloor(s, limit, ExtractionCut(s, limit))
  {
    var starts := TakeWhileAtMost(CharStarts(s, 0), limit);
    LastStartIsFloor(s, 0, limit);
    assert ExtractionCut(s, limit) == starts[|starts| - 1] - 0;
  }

  // ---------- The truncated terminal event ----------

  const DIGITS: seq<Byte> := [0x30, 0x31, 0x32, 0x33, 0x34, 0x35, 0x36, 0x37, 0x38, 0x39]

  const NEWLINE: Byte := 0x0A

  /** "...[NB total]" and a newline. */
  function Suffix(n: nat): (r: seq<Byte>)
    ensures Valid(r)
  {
    var total := Decimal(DIGITS, n);
    assert forall i | 0 <= i < |total| :: total[i] in DIGITS && total[i] <= 0x7F;
    var r := [0x2E, 0x2E, 0x2E, 0x5B] + total + [0x42, 0x20, 0x74, 0x6F, 0x74, 0x61, 0x6C, 0x5D, NEWLINE];
    AsciiIsValid(r);
    r
  }

  /** The total can be read off. */
  lemma SuffixTellsTotal(n: nat)
    ensures Suffix(n)[4..|Suffix(n)| - 9] == Decimal(DIGITS, n) && Number(DIGITS, Decimal(DIGITS, n)) == n
  {
    DecimalReadsBack(DIGITS, n);
  }

  function WithoutNewline(s: seq<Byte>): seq<Byte> {
    if s != [] && s[|s| - 1] == NEWLINE then s[..|s| - 1] else s
  }

  /** Cut at `cut`, less a newline there, and the total noted. */
  ghost predicate CutAt(buf: seq<Byte>, output: seq<Byte>, cut: nat) {
    cut <= |buf| && output == WithoutNewline(buf[..cut]) + Suffix(|buf|)
  }

  method FlushEvent(buf: seq<Byte>, maxBytes: nat) returns (output: seq<Byte>)
    ensures |buf| <= maxBytes ==> output == buf
    ensures |buf| > maxBytes ==> exists cut: nat :: cut <= maxBytes && CutAt(buf, output, cut)
    ensures |buf| > maxBytes && Valid(buf) ==> exists cut: nat :: IsFloor(buf, maxBytes, cut) && CutAt(buf, output, cut)
    ensures Valid(buf) ==> Valid(output)
  {
    if |buf| <= maxBytes {
      return buf;
    }
    var cut := Utf8FloorBytes(buf, maxBytes);
    var trimmed := buf[..cut];
    if cut > 0 && trimmed[cut - 1] == NEWLINE {
      trimmed := trimmed[..cut - 1];
    }
    output := trimmed + Suffix(|buf|);
    assert CutAt(buf, output, cut);
    if Valid(buf) {
      TrimmedIsValid(buf, maxBytes, cut);
      ValidConcat(trimmed, Suffix(|buf|));
    }
  }

  lemma TrimmedIsValid(buf: seq<Byte>, maxBytes: nat, cut: nat)
    requires Valid(buf) && maxBytes <= |buf| && IsFloor(buf, maxBytes, cut)
    ensures Valid(WithoutNewline(buf[..cut]))
  {
    FloorFacts(buf, maxBytes, cut, cut);
    if cut > 0 && buf[cut - 1] == NEWLINE {
      BoundaryIsNotTail(buf, cut - 1);
      BoundarySplits(buf, cut - 1);
      assert buf[..cut][..cut - 1] == buf[..cut - 1];
    }
  }
}
