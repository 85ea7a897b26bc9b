// classes/Colour.h: the Win32 console colour codes, an enum over
// `unsigned short`; and src/Misc.cpp's translation of those codes into ANSI
// escape sequences for terminals that are not the Win32 console.

module Colours {

  /** The enum's underlying type is `unsigned short`, so any 16-bit value is a Colour. */
  newtype Colour = x: int | 0 <= x < 0x1_0000

  const Default: Colour := 0x07
  const Black: Colour := 0x00
  const Blue: Colour := 0x01
  const Green: Colour := 0x02
  const Aqua: Colour := 0x03
  const Red: Colour := 0x04
  const Purple: Colour := 0x05
  const Yellow: Colour := 0x06
  const LightGray: Colour := 0x07
  const LightBlue: Colour := 0x09
  const LightGreen: Colour := 0x0a
  const LightAqua: Colour := 0x0b
  const LightRed: Colour := 0x0c
  const LightPurple: Colour := 0x0d
  const LightYellow: Colour := 0x0e
  const White: Colour := 0x0f

  /** The values the enum names. */
  const Named: set<Colour> := {
    Default, Black, Blue, Green, Aqua, Red, Purple, Yellow, LightGray,
    LightBlue, LightGreen, LightAqua, LightRed, LightPurple, LightYellow, White
  }

  /** The dark colours, each paired with the light one 8 above it. */
  const DarkToLight: seq<(Colour, Colour)> := [
    (Blue, LightBlue), (Green, LightGreen), (Aqua, LightAqua),
    (Red, LightRed), (Purple, LightPurple), (Yellow, LightYellow)
  ]

  /**
   * Default and LightGray are the same value; every named value is a 4-bit
   * code and 0x08 is not one of them; each light colour is its dark one plus 8.
   */
  lemma ColourCodes()
    ensures Default == LightGray
    ensures forall c :: c in Named ==> c < 0x10
    ensures 0x08 !in Named
    ensures forall i :: 0 <= i < |DarkToLight| ==> DarkToLight[i].1 == DarkToLight[i].0 + 8
  {
  }
}

module Misc {
  import opened Colours
  import opened Text

  const Esc: char := '\U{1B}'

  /** The ANSI "select graphic rendition" sequence ESC [ n m. */
  function Sgr(n: nat): (code: string)
    ensures |code| >= 4 && code[0] == Esc && code[1] == '[' && code[|code| - 1] == 'm'
    ensures AllDigits(code[2..|code| - 1])
  {
    [Esc, '['] + NatToString(n) + "m"
  }

  const Reset: string := [Esc] + "[0m"

  /** `GetAnsiCode`: the switch over the Win32 codes; LightGray and every unnamed value give the reset code. */
  function GetAnsiCode(c: Colour): (code: string)
    ensures |code| >= 4 && code[0] == Esc && code[1] == '[' && code[|code| - 1] == 'm'
    ensures AllDigits(code[2..|code| - 1])
  {
    if c == Black then [Esc] + "[30m"
    else if c == Blue then [Esc] + "[34m"
    else if c == Green then [Esc] + "[32m"
    else if c == Aqua then [Esc] + "[36m"
    else if c == Red then [Esc] + "[31m"
    else if c == Purple then [Esc] + "[35m"
    else if c == Yellow then [Esc] + "[33m"
    else if c == LightGray then [Esc] + "[0m"
    else if c == LightBlue then [Esc] + "[94m"
    else if c == LightGreen then [Esc] + "[92m"
    else if c == LightAqua then [Esc] + "[96m"
    else if c == LightRed then [Esc] + "[91m"
    else if c == LightPurple then [Esc] + "[95m"
    else if c == LightYellow then [Esc] + "[93m"
    else if c == White then [Esc] + "[97m"
    else [Esc] + "[0m"
  }

  /**
   * Win32 puts blue in bit 0 and red in bit 2; ANSI the other way round.
   * Swaps the two outer bits of a 3-bit code and keeps the middle (green) one.
   */
  function SwapRedBlue(n: nat): (m: nat)
    requires n < 8
    ensures m < 8
    ensures m % 2 == n / 4 && m / 4 == n % 2 && m / 2 % 2 == n / 2 % 2
  {
    if n == 0 then 0
    else if n == 1 then 4
    else if n == 2 then 2
    else if n == 3 then 6
    else if n == 4 then 1
    else if n == 5 then 5
    else if n == 6 then 3
    else 7
  }

  lemma SwapRedBlueInvolution(n: nat)
    requires n < 8
    ensures SwapRedBlue(SwapRedBlue(n)) == n
  {
  }

  /** Codes 0 to 6 give foreground 30 plus the code with its red and blue bits swapped. */
  lemma DarkCodeRule(c: Colour)
    requires c <= 6
    ensures GetAnsiCode(c) == Sgr(30 + SwapRedBlue(c as nat))
  {
    TwoDigits(30 + SwapRedBlue(c as nat));
    if c == 0 {
    } else if c == 1 {
    } else if c == 2 {
    } else if c == 3 {
    } else if c == 4 {
    } else if c == 5 {
    }
  }

  /** Codes 9 to 15 give bright foreground 90 plus the bit-swapped low three bits. */
  lemma LightCodeRule(c: Colour)
    requires 9 <= c <= 15
    ensures GetAnsiCode(c) == Sgr(90 + SwapRedBlue(c as nat - 8))
  {
    TwoDigits(90 + SwapRedBlue(c as nat - 8));
    if c == 9 {
    } else if c == 10 {
    } else if c == 11 {
    } else if c == 12 {
    } else if c == 13 {
    } else if c == 14 {
    }
  }

  /** LightGray (hence Default), the unused 8 and every value from 16 reset. */
  lemma ResetCodeRule(c: Colour)
    requires c == 7 || c == 8 || c > 15
    ensures GetAnsiCode(c) == Reset
  {
  }

  lemma TwoDigits(n: nat)
    requires 10 <= n < 100
    ensures Sgr(n) == [Esc, '[', DigitChar(n / 10), DigitChar(n % 10), 'm']
  {
    assert NatToString(n / 10) == [DigitChar(n / 10)];
  }

  /** The default console colour is not translated to light gray (37) but to the reset code. */
  lemma DefaultResets()
    ensures GetAnsiCode(Default) == Reset
    ensures GetAnsiCode(LightGray) == Reset
  {
  }

  /** Sgr codes of different numbers differ. */
  lemma SgrDistinct(m: nat, n: nat)
    requires m != n
    ensures Sgr(m) != Sgr(n)
  {
    var a, b := Sgr(m), Sgr(n);
    assert a[2..|a| - 1] == NatToString(m);
    assert b[2..|b| - 1] == NatToString(n);
    DecimalRoundTrip(m);
    DecimalRoundTrip(n);
  }

  /** The SGR number a dark or light colour code is translated to. */
  function AnsiNumber(c: Colour): (n: nat)
    requires c <= 6 || 9 <= c <= 15
    ensures c <= 6 ==> 30 <= n < 38
    ensures 9 <= c ==> 90 <= n < 98
  {
    if c <= 6 then 30 + SwapRedBlue(c as nat) else 90 + SwapRedBlue(c as nat - 8)
  }

  /** Different dark or light codes get different SGR numbers. */
  lemma AnsiNumberDistinct(a: Colour, b: Colour)
    requires a <= 6 || 9 <= a <= 15
    requires b <= 6 || 9 <= b <= 15
    requires a != b
    ensures AnsiNumber(a) != AnsiNumber(b)
  {
    if a <= 6 { SwapRedBlueInvolution(a as nat); } else { SwapRedBlueInvolution(a as nat - 8); }
    if b <= 6 { SwapRedBlueInvolution(b as nat); } else { SwapRedBlueInvolution(b as nat - 8); }
  }

  /** Apart from the reset code, no two named colours share an escape code. */
  lemma AnsiCodesDistinct(a: Colour, b: Colour)
    requires a in Named && b in Named && a != b
    requires a != LightGray && b != LightGray
    ensures GetAnsiCode(a) != GetAnsiCode(b)
  {
    ColourCodes();
    assert a <= 6 || 9 <= a <= 15;
    assert b <= 6 || 9 <= b <= 15;
    if a <= 6 { DarkCodeRule(a); } else { LightCodeRule(a); }
    if b <= 6 { DarkCodeRule(b); } else { LightCodeRule(b); }
    AnsiNumberDistinct(a, b);
    SgrDistinct(AnsiNumber(a), AnsiNumber(b));
  }
}
