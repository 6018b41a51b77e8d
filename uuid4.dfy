/**
 * UUID text as the `manifest_id_*` settings accept it: the canonical dashed
 * hexadecimal form of section 3 of RFC 4122 (8-4-4-4-12 hex digits, either
 * case), restricted to version 4 (section 4.1.3: the version nibble is 4) and
 * to the RFC 4122 variant (section 4.1.1: the top two bits of the clock-seq
 * byte are 10, so its first hex digit is 8, 9, a or b).
 */
module Uuid4 {
  import opened Wrappers

  type Nibble = x: int | 0 <= x < 16

  /** The 128 bits of a UUID, as 32 hex digits, most significant first. */
  type Nibbles = s: seq<Nibble> | |s| == 32 witness seq(32, _ => 0)

  datatype Uuid = Uuid(nibbles: Nibbles)

  /** Positions of the four dashes in the 36-character canonical text. */
  predicate IsDashAt(j: int) {
    j == 8 || j == 13 || j == 18 || j == 23
  }

  /** Where hex digit `i` sits in the canonical text. */
  function DigitPos(i: nat): (j: nat)
    requires i < 32
    ensures j < 36 && !IsDashAt(j)
  {
    i + (if i < 8 then 0 else if i < 12 then 1 else if i < 16 then 2 else if i < 20 then 3 else 4)
  }

  /** Which hex digit a non-dash position of the canonical text holds. */
  function DigitIndex(j: nat): (i: nat)
    requires j < 36 && !IsDashAt(j)
    ensures i < 32 && DigitPos(i) == j
  {
    j - (if j < 8 then 0 else if j < 13 then 1 else if j < 18 then 2 else if j < 23 then 3 else 4)
  }

  predicate IsHexDigit(ch: char) {
    '0' <= ch <= '9' || 'a' <= ch <= 'f' || 'A' <= ch <= 'F'
  }

  function HexValue(ch: char): Nibble
    requires IsHexDigit(ch)
  {
    if '0' <= ch <= '9' then ch as int - '0' as int
    else if 'a' <= ch <= 'f' then ch as int - 'a' as int + 10
    else ch as int - 'A' as int + 10
  }

  /** The lower-case hex digit for `n`, as Python's `str(uuid)` writes it. */
  function HexDigit(n: Nibble): (ch: char)
    ensures IsHexDigit(ch) && !('A' <= ch <= 'F')
    ensures HexValue(ch) == n
  {
    if n < 10 then (n + '0' as int) as char else (n - 10 + 'a' as int) as char
  }

  /** Lower-cases an ASCII letter A-F; every other character is kept. */
  function LowerHex(ch: char): char {
    if 'A' <= ch <= 'F' then (ch as int - 'A' as int + 'a' as int) as char else ch
  }

  function Lowered(s: string): (r: string)
    ensures |r| == |s|
  {
    seq(|s|, j requires 0 <= j < |s| => LowerHex(s[j]))
  }

  /** Canonical dashed form: 36 characters, dashes at 8, 13, 18, 23, hex digits elsewhere. */
  predicate IsCanonical(s: string) {
    |s| == 36 &&
    forall j :: 0 <= j < 36 ==> if IsDashAt(j) then s[j] == '-' else IsHexDigit(s[j])
  }

  /** Version 4 and the RFC 4122 variant. */
  predicate IsVersion4(u: Uuid) {
    u.nibbles[12] == 4 && 8 <= u.nibbles[16] <= 11
  }

  /** Canonical lower-case rendering, as `str(uuid)`. */
  function Format(u: Uuid): (s: string)
    ensures IsCanonical(s)
    ensures forall j :: 0 <= j < 36 && !IsDashAt(j) ==> !('A' <= s[j] <= 'F')
  {
    seq(36, j requires 0 <= j < 36 =>
      if IsDashAt(j) then '-' else HexDigit(u.nibbles[DigitIndex(j)]))
  }

  /** Lower-case hex digits for a run of nibbles, without dashes. */
  function Hex(ns: seq<Nibble>): (s: string)
    ensures |s| == |ns|
  {
    seq(|ns|, k requires 0 <= k < |ns| => HexDigit(ns[k]))
  }

  /** The canonical rendering is the five digit groups (8-4-4-4-12) joined by dashes. */
  lemma FormatByGroups(u: Uuid)
    ensures Format(u) == Hex(u.nibbles[0..8]) + "-" + Hex(u.nibbles[8..12]) + "-" + Hex(u.nibbles[12..16])
                         + "-" + Hex(u.nibbles[16..20]) + "-" + Hex(u.nibbles[20..32])
  {
  }

  /** A UUID given as its five digit groups renders as those groups in hex, joined by dashes. */
  lemma {:induction false} FormatOfGroups(a: seq<Nibble>, b: seq<Nibble>, c: seq<Nibble>, d: seq<Nibble>, e: seq<Nibble>)
    requires |a| == 8 && |b| == 4 && |c| == 4 && |d| == 4 && |e| == 12
    ensures Format(Uuid(a + b + c + d + e)) == Hex(a) + "-" + Hex(b) + "-" + Hex(c) + "-" + Hex(d) + "-" + Hex(e)
  {
    var ns := a + b + c + d + e;
    FormatByGroups(Uuid(ns));
    assert ns[0..8] == a && ns[8..12] == b && ns[12..16] == c && ns[16..20] == d && ns[20..32] == e;
  }

  /** Reads the canonical dashed form into a UUID value; any other text is rejected. */
  function Parse(s: string): (r: Option<Uuid>)
    ensures r.Some? <==> IsCanonical(s)
    ensures r.Some? ==> forall i :: 0 <= i < 32 ==> r.value.nibbles[i] == HexValue(s[DigitPos(i)])
  {
    if IsCanonical(s) then
      Some(Uuid(seq(32, i requires 0 <= i < 32 => HexValue(s[DigitPos(i)]))))
    else
      None
  }

  /**
   * pydantic's `UUID4` on a canonical text: it must parse and carry
   * version 4 in the RFC 4122 variant. The result is stated on the text:
   * the version digit (position 14) is '4' and the variant digit
   * (position 19) is one of 8, 9, a, b in either case.
   */
  function ParseUuid4(s: string): (r: Option<Uuid>)
    ensures r.Some? <==> IsCanonical(s) && s[14] == '4' && s[19] in "89abAB"
    ensures r.Some? ==> IsVersion4(r.value)
  {
    match Parse(s)
    case Some(u) =>
      assert DigitPos(12) == 14 && DigitPos(16) == 19;
      if IsVersion4(u) then Some(u) else None
    case None => None
  }

  /** Every version-4 UUID survives formatting and re-parsing unchanged. */
  lemma {:induction false} FormatThenParse(u: Uuid)
    requires IsVersion4(u)
    ensures ParseUuid4(Format(u)) == Some(u)
  {
    var s := Format(u);
    var r := Parse(s);
    assert r.Some?;
    forall i | 0 <= i < 32 ensures r.value.nibbles[i] == u.nibbles[i] {
      assert DigitIndex(DigitPos(i)) == i;
    }
    assert r.value.nibbles == u.nibbles;
  }

  /** An accepted text denotes a UUID whose canonical rendering is that text, lower-cased. */
  lemma {:induction false} ParseThenFormat(s: string, u: Uuid)
    requires ParseUuid4(s) == Some(u)
    ensures Format(u) == Lowered(s)
  {
    var t := Format(u);
    forall j | 0 <= j < 36 ensures t[j] == Lowered(s)[j] {
      if !IsDashAt(j) {
        var i := DigitIndex(j);
        assert u.nibbles[i] == HexValue(s[j]);
      }
    }
  }
}
