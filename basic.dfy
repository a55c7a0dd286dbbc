/*
 * Helpers of the emulator's basic layer: fixed-width number printers that
 * write into a caller's character buffer, PETSCII and ASCII character
 * filters, the PETSCII-to-Unicode translation of a NUL-terminated byte
 * string, and the filename and suffix functions on paths.
 *
 * C strings that the functions return are modelled as `string` values
 * without their terminating NUL; buffers that the functions fill keep the
 * NUL they write.
 */
module Basic {

  type uint8 = x: int | 0 <= x < 0x100
  type uint16 = x: int | 0 <= x < 0x1_0000

  // ---------------------------------------------------------------------
  // Digits
  // ---------------------------------------------------------------------

  /** `base` raised to `n`. */
  function Pow(base: nat, n: nat): nat
  {
    if n == 0 then 1 else base * Pow(base, n - 1)
  }

  /** Digit `d` as the printers write it: 0-9, then upper-case A-F. */
  function DigitChar(d: nat): (c: char)
    requires d < 16
    ensures d <= 9 ==> '0' <= c <= '9'
    ensures d > 9 ==> 'A' <= c <= 'F'
  {
    if d <= 9 then ('0' as int + d) as char else ('A' as int + d - 10) as char
  }

  /** The value of a digit character; the inverse of DigitChar. */
  function DigitValue(c: char): nat
  {
    if '0' <= c <= '9' then c as int - '0' as int
    else if 'A' <= c <= 'F' then c as int - 'A' as int + 10
    else 0
  }

  /** `c` is a digit of `base`. */
  predicate IsDigit(c: char, base: nat)
  {
    (('0' <= c <= '9') || ('A' <= c <= 'F')) && DigitValue(c) < base
  }

  lemma DigitRoundTrip(d: nat)
    requires d < 16
    ensures DigitValue(DigitChar(d)) == d
  {
  }

  /**
   * The `width` lowest digits of `v` in `base`, most significant first,
   * with leading zeros: what the printers write.
   */
  function FixedDigits(v: nat, base: nat, width: nat): (r: string)
    requires 2 <= base <= 16
    ensures |r| == width
    ensures forall k | 0 <= k < width :: IsDigit(r[k], base)
  {
    if width == 0 then ""
    else FixedDigits(v / base, base, width - 1) + [DigitChar(v % base)]
  }

  lemma FixedDigitsLast(v: nat, base: nat, width: nat)
    requires 2 <= base <= 16 && width > 0
    ensures FixedDigits(v, base, width) == FixedDigits(v / base, base, width - 1) + [DigitChar(v % base)]
  {
  }

  /** The number that a string of digits denotes in `base`, most significant first. */
  function ParseDigits(s: string, base: nat): nat
  {
    if |s| == 0 then 0
    else ParseDigits(s[..|s| - 1], base) * base + DigitValue(s[|s| - 1])
  }

  lemma DivBound(v: nat, base: nat, n: nat)
    requires 2 <= base && v < base * n
    ensures v / base < n
  {
  }

  lemma DivModBounds(v: nat, base: nat)
    requires base > 0
    ensures 0 <= v / base && 0 <= v % base < base
  {
  }

  lemma DivMod(v: nat, base: nat)
    requires base > 0
    ensures (v / base) * base + v % base == v
  {
  }

  /** One digit step: the last digit and the digits of v / base read back as v. */
  lemma ParseLastDigit(v: nat, base: nat, width: nat)
    requires 2 <= base <= 16 && width > 0
    requires ParseDigits(FixedDigits(v / base, base, width - 1), base) == v / base
    ensures ParseDigits(FixedDigits(v, base, width), base) == v
  {
    var q := v / base;
    var d := v % base;
    var s := FixedDigits(v, base, width);
    var prefix := FixedDigits(q, base, width - 1);
    assert s == prefix + [DigitChar(d)];
    assert s[..|s| - 1] == prefix;
    DigitRoundTrip(d);
    assert ParseDigits(s, base) == q * base + d;
    DivMod(v, base);
  }

  /** Reading the printed digits back gives the value, when the value fits in `width` digits. */
  lemma {:induction false} ParseFixedDigits(v: nat, base: nat, width: nat)
    requires 2 <= base <= 16
    requires v < Pow(base, width)
    ensures ParseDigits(FixedDigits(v, base, width), base) == v
  {
    if width > 0 {
      DivBound(v, base, Pow(base, width - 1));
      ParseFixedDigits(v / base, base, width - 1);
      ParseLastDigit(v, base, width);
    }
  }

  // ---------------------------------------------------------------------
  // Number printers
  // ---------------------------------------------------------------------

  /**
   * The loop shared by the number printers: the digits of
   * `value` are written from s[width - 1] down to s[0], dividing the value
   * by the base after each one; then s[width] becomes NUL.
   */
  method SprintDigits(s: array<char>, value: nat, base: nat, width: nat)
    requires 2 <= base <= 16
    requires s.Length > width
    modifies s
    ensures s[..width] == FixedDigits(value, base, width)
    ensures s[width] == 0 as char
    ensures s[width + 1..] == old(s[width + 1..])
  {
    var v: nat := value;
    var i: int := width - 1;
    while i >= 0
      invariant -1 <= i < width
      invariant FixedDigits(value, base, width) == FixedDigits(v, base, i + 1) + s[i + 1..width]
      invariant s[width..] == old(s[width..])
    {
      DivModBounds(v, base);
      var digit := v % base;
      ghost var written := s[i + 1..width];
      FixedDigitsLast(v, base, i + 1);
      s[i] := DigitChar(digit);
      assert s[i + 1..width] == written;
      assert s[i..width] == [DigitChar(digit)] + written;
      v := v / base;
      i := i - 1;
    }
    s[width] := 0 as char;
  }

  /** Three decimal digits with leading zeros, then NUL. */
  method Sprint8d(s: array<char>, value: uint8)
    requires s.Length >= 4
    modifies s
    ensures forall k | 0 <= k < 3 :: '0' <= s[k] <= '9'
    ensures ParseDigits(s[..3], 10) == value
    ensures s[3] == 0 as char
    ensures s[4..] == old(s[4..])
  {
    SprintDigits(s, value, 10, 3);
    ParseFixedDigits(value, 10, 3);
  }

  /** Two upper-case hexadecimal digits with leading zeros, then NUL. */
  method Sprint8x(s: array<char>, value: uint8)
    requires s.Length >= 3
    modifies s
    ensures forall k | 0 <= k < 2 :: IsDigit(s[k], 16)
    ensures ParseDigits(s[..2], 16) == value
    ensures s[2] == 0 as char
    ensures s[3..] == old(s[3..])
  {
    SprintDigits(s, value, 16, 2);
    ParseFixedDigits(value, 16, 2);
  }

  /** Five decimal digits with leading zeros, then NUL. */
  method Sprint16d(s: array<char>, value: uint16)
    requires s.Length >= 6
    modifies s
    ensures forall k | 0 <= k < 5 :: '0' <= s[k] <= '9'
    ensures ParseDigits(s[..5], 10) == value
    ensures s[5] == 0 as char
    ensures s[6..] == old(s[6..])
  {
    SprintDigits(s, value, 10, 5);
    ParseFixedDigits(value, 10, 5);
  }

  /** Four upper-case hexadecimal digits with leading zeros, then NUL. */
  method Sprint16x(s: array<char>, value: uint16)
    requires s.Length >= 5
    modifies s
    ensures forall k | 0 <= k < 4 :: IsDigit(s[k], 16)
    ensures ParseDigits(s[..4], 16) == value
    ensures s[4] == 0 as char
    ensures s[5..] == old(s[5..])
  {
    SprintDigits(s, value, 16, 4);
    ParseFixedDigits(value, 16, 4);
  }

  /** Bit k of v: the lowest bit after k halvings, as k right shifts by one leave it. */
  function BitOf(v: nat, k: nat): (b: nat)
    ensures b < 2
  {
    if k == 0 then v % 2 else BitOf(v / 2, k - 1)
  }

  /** Character k of the `width` binary digits of v is bit width-1-k of v. */
  lemma {:induction false} FixedBitsAt(v: nat, width: nat, k: nat)
    requires k < width
    ensures FixedDigits(v, 2, width)[k] == (if BitOf(v, width - 1 - k) == 1 then '1' else '0')
  {
    FixedDigitsLast(v, 2, width);
    if k < width - 1 {
      FixedBitsAt(v / 2, width - 1, k);
    }
  }

  /**
   * Eight binary digits, most significant bit first, then NUL. Testing
   * `value & 1` and shifting right by one are the remainder and quotient
   * of a division by 2, so this is the digit loop in base 2.
   */
  method Sprint8b(s: array<char>, value: uint8)
    requires s.Length >= 9
    modifies s
    ensures forall k | 0 <= k < 8 :: s[k] == (if BitOf(value, 7 - k) == 1 then '1' else '0')
    ensures ParseDigits(s[..8], 2) == value
    ensures s[8] == 0 as char
    ensures s[9..] == old(s[9..])
  {
    SprintDigits(s, value, 2, 8);
    ParseFixedDigits(value, 2, 8);
    forall k | 0 <= k < 8
      ensures s[k] == (if BitOf(value, 7 - k) == 1 then '1' else '0')
    {
      FixedBitsAt(value, 8, k);
    }
  }

  /** Sixteen binary digits, most significant bit first, then NUL. */
  method Sprint16b(s: array<char>, value: uint16)
    requires s.Length >= 17
    modifies s
    ensures forall k | 0 <= k < 16 :: s[k] == (if BitOf(value, 15 - k) == 1 then '1' else '0')
    ensures ParseDigits(s[..16], 2) == value
    ensures s[16] == 0 as char
    ensures s[17..] == old(s[17..])
  {
    SprintDigits(s, value, 2, 16);
    assert Pow(2, 8) == 0x100;
    assert Pow(2, 16) == 0x1_0000;
    ParseFixedDigits(value, 2, 16);
    forall k | 0 <= k < 16
      ensures s[k] == (if BitOf(value, 15 - k) == 1 then '1' else '0')
    {
      FixedBitsAt(value, 16, k);
    }
  }

  // ---------------------------------------------------------------------
  // Character filters
  // ---------------------------------------------------------------------

  /** `c` unchanged if it is printable (space to tilde), `subst` otherwise. */
  function Petscii2Printable(c: uint8, subst: uint8): (r: uint8)
    ensures 0x20 <= c <= 0x7E ==> r == c
    ensures !(0x20 <= c <= 0x7E) ==> r == subst
    ensures (0x20 <= r <= 0x7E) || r == subst
  {
    if c >= 0x20 && c <= 0x7E then c else subst
  }

  /** Filtering twice with the same substitute is filtering once. */
  lemma Petscii2PrintableIdempotent(c: uint8, subst: uint8)
    ensures Petscii2Printable(Petscii2Printable(c, subst), subst) == Petscii2Printable(c, subst)
  {
  }

  /** Upper-casing in the C locale: only a-z change. */
  function ToUpper(c: uint8): (r: uint8)
    ensures 0x61 <= c <= 0x7A ==> r == c - 0x20
    ensures !(0x61 <= c <= 0x7A) ==> r == c
  {
    if 0x61 <= c <= 0x7A then c - 0x20 else c
  }

  /**
   * An ASCII character as PETSCII: NUL stays NUL, lower-case letters become
   * upper-case, the characters $20-$5D are kept, and everything else becomes
   * a space.
   */
  function Ascii2Pet(c: uint8): (r: uint8)
    ensures c == 0 ==> r == 0
    ensures 0x20 <= c <= 0x5D ==> r == c
    ensures 0x61 <= c <= 0x7A ==> r == c - 0x20
    ensures c != 0 && !(0x20 <= c <= 0x5D) && !(0x61 <= c <= 0x7A) ==> r == 0x20
    ensures r == 0 <==> c == 0
    ensures r == 0 || 0x20 <= r <= 0x5D
  {
    if c == 0x00 then 0x00
    else
      var upper := ToUpper(c);
      if upper >= 0x20 && upper <= 0x5D then upper else 0x20
  }

  /** Converting a converted character again changes nothing. */
  lemma Ascii2PetIdempotent(c: uint8)
    ensures Ascii2Pet(Ascii2Pet(c)) == Ascii2Pet(c)
  {
  }

  // ---------------------------------------------------------------------
  // PETSCII to Unicode
  // ---------------------------------------------------------------------

  function Min(a: nat, b: nat): (m: nat)
    ensures m <= a && m <= b && (m == a || m == b)
  {
    if a <= b then a else b
  }

  /**
   * The Unicode code of PETSCII byte `c` in a font starting at `base`: the
   * sum is truncated to 16 bits when it is stored.
   */
  function UnicodeOf(base: uint16, c: uint8): (u: uint16)
    ensures base + c < 0x1_0000 ==> u == base + c
    ensures base + c >= 0x1_0000 ==> u == base + c - 0x1_0000
  {
    (base + c) % 0x1_0000
  }

  /** Length of a NUL-terminated byte string: the index of its first NUL. */
  function StrLen(s: seq<uint8>): (n: nat)
    requires 0 in s
    ensures n < |s| && s[n] == 0
    ensures forall k | 0 <= k < n :: s[k] != 0
  {
    if s[0] == 0 then 0 else 1 + StrLen(s[1..])
  }

  /**
   * Writes UnicodeOf(base, petscii[i]) to unicode[i] for the first
   * min(strlen(petscii), max) characters, then a 0 after them.
   */
  method TranslateToUnicode(petscii: array<uint8>, unicode: array<uint16>, base: uint16, max: nat)
    requires 0 in petscii[..]
    requires unicode.Length > Min(StrLen(petscii[..]), max)
    modifies unicode
    ensures var n := Min(StrLen(petscii[..]), max);
      && (forall k | 0 <= k < n :: unicode[k] == UnicodeOf(base, petscii[k]))
      && unicode[n] == 0
      && unicode[n + 1..] == old(unicode[n + 1..])
  {
    var len := StrLen(petscii[..]);
    var i := 0;
    while i < len && i < max
      invariant 0 <= i <= Min(len, max)
      invariant forall k | 0 <= k < i :: unicode[k] == UnicodeOf(base, petscii[k])
      invariant unicode[i..] == old(unicode[i..])
    {
      unicode[i] := (base + petscii[i]) % 0x1_0000;
      assert unicode[i] == UnicodeOf(base, petscii[i]);
      i := i + 1;
    }
    unicode[i] := 0;
  }

  // ---------------------------------------------------------------------
  // Paths
  // ---------------------------------------------------------------------

  /** Index of the last occurrence of `c` in `s`, or -1: what strrchr finds. */
  function LastIndexOf(s: string, c: char): (r: int)
    ensures -1 <= r < |s|
    ensures r >= 0 ==> s[r] == c && c !in s[r + 1..]
    ensures r == -1 <==> c !in s
  {
    if |s| == 0 then -1
    else if s[|s| - 1] == c then |s| - 1
    else LastIndexOf(s[..|s| - 1], c)
  }

  /** The text after the last '/', or the whole path if it has none. */
  function ExtractFilename(path: string): (r: string)
    ensures '/' !in r
    ensures |r| <= |path| && r == path[|path| - |r|..]
    ensures |r| < |path| ==> path[|path| - |r| - 1] == '/'
    ensures '/' !in path ==> r == path
  {
    var pos := LastIndexOf(path, '/');
    if pos >= 0 then path[pos + 1..] else path
  }

  /** The text after the last '.', or "" if the path has none. */
  function ExtractSuffix(path: string): (r: string)
    ensures '.' !in r
    ensures |r| <= |path| && r == path[|path| - |r|..]
    ensures '.' in path ==> |r| < |path| && path[|path| - |r| - 1] == '.'
    ensures '.' !in path ==> r == ""
  {
    var pos := LastIndexOf(path, '.');
    if pos >= 0 then path[pos + 1..] else ""
  }

  /** A name with a non-empty suffix is its stem, a '.', and the suffix. */
  lemma SplitAtSuffix(filename: string)
    requires |ExtractSuffix(filename)| > 0
    ensures var suffix := ExtractSuffix(filename);
      && |suffix| < |filename|
      && filename[..|filename| - |suffix| - 1] + "." + suffix == filename
      && ('/' !in filename ==> '/' !in filename[..|filename| - |suffix| - 1])
  {
  }

  /**
   * The filename of `path` without its suffix and the '.' before it; the
   * whole filename if the suffix is empty.
   */
  function ExtractFilenameWithoutSuffix(path: string): (r: string)
    ensures var filename := ExtractFilename(path);
      var suffix := ExtractSuffix(filename);
      && (|suffix| > 0 ==> r + "." + suffix == filename)
      && (|suffix| == 0 ==> r == filename)
    ensures forall k | 0 <= k < |r| :: r[k] != '/'
  {
    var filename := ExtractFilename(path);
    var suffix := ExtractSuffix(filename);
    if |suffix| == 0 then filename
    else
      SplitAtSuffix(filename);
      filename[..|filename| - |suffix| - 1]
  }

  /** `suffix` matches the end of `filename`, compared from the last character backwards. */
  predicate EndsWith(filename: string, suffix: string)
  {
    || |suffix| == 0
    || (&& |filename| > 0
        && filename[|filename| - 1] == suffix[|suffix| - 1]
        && EndsWith(filename[..|filename| - 1], suffix[..|suffix| - 1]))
  }

  /** True if `filename` ends with `suffix`; a suffix longer than the name never matches. */
  function CheckFileSuffix(filename: string, suffix: string): (r: bool)
    ensures |suffix| > |filename| ==> !r
    ensures r <==> (|suffix| <= |filename| && filename[|filename| - |suffix|..] == suffix)
  {
    if |suffix| > |filename| then false
    else filename[|filename| - |suffix|..] == suffix
  }

  /** CheckFileSuffix agrees with the character-by-character definition. */
  lemma {:induction false} CheckFileSuffixEndsWith(filename: string, suffix: string)
    ensures CheckFileSuffix(filename, suffix) <==> EndsWith(filename, suffix)
  {
    if |suffix| > 0 && |filename| > 0 {
      var f := filename[..|filename| - 1];
      var x := suffix[..|suffix| - 1];
      CheckFileSuffixEndsWith(f, x);
      if |suffix| <= |filename| {
        var start := |filename| - |suffix|;
        assert f[|f| - |x|..] == filename[start..|filename| - 1];
        assert filename[start..] == filename[start..|filename| - 1] + [filename[|filename| - 1]];
        assert suffix == x + [suffix[|suffix| - 1]];
      }
    }
  }

  /** Every name built by appending a suffix passes the check for that suffix. */
  lemma AppendedSuffixIsChecked(name: string, suffix: string)
    ensures CheckFileSuffix(name + suffix, suffix)
  {
  }
}
