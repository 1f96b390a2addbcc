/**
  Go strings are byte strings. A byte is a character whose code is below 256, so that a Go string
  literal in ASCII is the Dafny string literal itself.

  The module also holds the two library behaviours the repository relies on: how `for i, c := range s`
  walks a string that need not be valid UTF-8, and how `%d` renders an integer.
  */
module GoStrings {
  type Byte = c: char | c < 256 as char witness 'a'
  type GoString = seq<Byte>

  // ---- Rune iteration ------------------------------------------------------------------------

  /** What one iteration of `range` yields: the rune, and the number of bytes it occupies. */
  datatype Decoded = Decoded(rune: int, width: nat)

  /** The rune reported for a byte that starts no valid encoding; its width is one byte. */
  const RUNE_ERROR := 0xFFFD

  /** The tail bytes of a UTF-8 sequence. */
  predicate IsTail(b: int) {
    0x80 <= b <= 0xBF
  }

  /** The bytes that may follow the lead byte `b0` in a sequence of three or four bytes. */
  predicate SecondFits(b0: int, b1: int) {
    && IsTail(b1)
    && (b0 == 0xE0 ==> 0xA0 <= b1)
    && (b0 == 0xED ==> b1 <= 0x9F)
    && (b0 == 0xF0 ==> 0x90 <= b1)
    && (b0 == 0xF4 ==> b1 <= 0x8F)
  }

  /** Decodes the rune at byte index `i`, following the well-formed sequences of section 4 of RFC 3629. */
  function DecodeRune(s: GoString, i: nat): (d: Decoded)
    requires i < |s|
    ensures 1 <= d.width <= 4 && i + d.width <= |s|
    ensures d.width == 1 <==> d.rune == s[i] as int < 0x80 || d == Decoded(RUNE_ERROR, 1)
    ensures d.width > 1 ==> d.rune >= 0x80 && forall j | i <= j < i + d.width :: s[j] as int >= 0x80
  {
    var b0 := s[i] as int;
    if b0 < 0x80 then
      Decoded(b0, 1)
    else if 0xC2 <= b0 <= 0xDF && i + 1 < |s| && IsTail(s[i + 1] as int) then
      Decoded((b0 - 0xC0) * 0x40 + (s[i + 1] as int - 0x80), 2)
    else if 0xE0 <= b0 <= 0xEF && i + 2 < |s| && SecondFits(b0, s[i + 1] as int) && IsTail(s[i + 2] as int) then
      Decoded((b0 - 0xE0) * 0x1000 + (s[i + 1] as int - 0x80) * 0x40 + (s[i + 2] as int - 0x80), 3)
    else if 0xF0 <= b0 <= 0xF4 && i + 3 < |s| && SecondFits(b0, s[i + 1] as int)
            && IsTail(s[i + 2] as int) && IsTail(s[i + 3] as int) then
      Decoded((b0 - 0xF0) * 0x40000 + (s[i + 1] as int - 0x80) * 0x1000
              + (s[i + 2] as int - 0x80) * 0x40 + (s[i + 3] as int - 0x80), 4)
    else
      Decoded(RUNE_ERROR, 1)
  }

  // ---- Splitting at a byte -------------------------------------------------------------------

  /** The index of the first byte `b` in `s`, or `|s|` when there is none. */
  function IndexOf(s: GoString, b: Byte): (i: nat)
    ensures i <= |s|
    ensures i < |s| ==> s[i] == b
    ensures b !in s[..i]
  {
    if s == [] || s[0] == b then 0 else
      var i := 1 + IndexOf(s[1..], b);
      assert s[..i] == [s[0]] + s[1..][..i - 1];
      i
  }

  lemma IndexOfUnique(s: GoString, b: Byte, i: nat)
    requires i <= |s| && b !in s[..i] && (i < |s| ==> s[i] == b)
    ensures IndexOf(s, b) == i
  {
    var k := IndexOf(s, b);
    assert forall j | 0 <= j < i :: s[j] in s[..i];
    assert forall j | 0 <= j < k :: s[j] in s[..k];
  }

  // ---- Decimal rendering ---------------------------------------------------------------------

  function Digit(d: nat): (c: Byte)
    requires d < 10
    ensures '0' <= c <= '9'
  {
    (d + '0' as int) as char
  }

  function RenderNat(n: nat): (s: GoString)
    ensures |s| >= 1 && forall i | 0 <= i < |s| :: '0' <= s[i] <= '9'
  {
    if n < 10 then [Digit(n)] else RenderNat(n / 10) + [Digit(n % 10)]
  }

  /** What a string of decimal digits stands for. */
  function ValueOf(s: GoString): int {
    if s == [] then 0 else 10 * ValueOf(s[..|s| - 1]) + (s[|s| - 1] as int - '0' as int)
  }

  /** The string is the decimal number, without leading zeros. */
  predicate SpellsNat(s: GoString, n: nat) {
    |s| >= 1 && (forall c | c in s :: '0' <= c <= '9') && ValueOf(s) == n && (|s| > 1 ==> s[0] != '0')
  }

  predicate SpellsInt(s: GoString, n: int) {
    if n < 0 then |s| > 1 && s[0] == '-' && SpellsNat(s[1..], -n) else SpellsNat(s, n)
  }

  lemma {:induction false} RenderNatSpells(n: nat)
    ensures SpellsNat(RenderNat(n), n)
  {
    var s := RenderNat(n);
    if n < 10 {
      assert s[..0] == [] && ValueOf([]) == 0;
    } else {
      RenderNatSpells(n / 10);
      assert s[..|s| - 1] == RenderNat(n / 10);
      assert |RenderNat(n / 10)| == 1 ==> RenderNat(n / 10)[..0] == [];
    }
  }

  /** `fmt.Sprintf("%d", n)` */
  function RenderInt(n: int): (s: GoString)
    ensures |s| >= 1 && forall i | 0 <= i < |s| :: s[i] == '-' || '0' <= s[i] <= '9'
    ensures n < 0 <==> s[0] == '-'
  {
    if n < 0 then "-" + RenderNat(-n) else RenderNat(n)
  }

  lemma {:induction false} RenderNatInjective(m: nat, n: nat)
    requires RenderNat(m) == RenderNat(n)
    ensures m == n
  {
    var s, t := RenderNat(m), RenderNat(n);
    assert s[|s| - 1] == Digit(m % 10) && t[|t| - 1] == Digit(n % 10);
    if m >= 10 && n >= 10 {
      assert s[..|s| - 1] == RenderNat(m / 10) && t[..|t| - 1] == RenderNat(n / 10);
      RenderNatInjective(m / 10, n / 10);
    }
  }

  lemma RenderIntSpells(n: int)
    ensures SpellsInt(RenderInt(n), n)
  {
    if n < 0 {
      RenderNatSpells(-n);
      assert RenderInt(n)[1..] == RenderNat(-n);
    } else {
      RenderNatSpells(n);
    }
  }

  lemma RenderIntInjective(m: int, n: int)
    requires RenderInt(m) == RenderInt(n)
    ensures m == n
  {
    if m < 0 && n < 0 {
      assert RenderInt(m)[1..] == RenderNat(-m) && RenderInt(n)[1..] == RenderNat(-n);
      RenderNatInjective(-m, -n);
    } else if m >= 0 && n >= 0 {
      RenderNatInjective(m, n);
    }
  }
}
