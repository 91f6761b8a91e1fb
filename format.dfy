/**
 * Decimal rendering as done by `String.format` with the `%Nd` and `%0Nd`
 * conversions (and by Kotlin string templates for `%d` without a width), and
 * the matching parser, which serves as the inverse the rendering is checked
 * against.
 */
module Format {

  predicate IsDigit(c: char) { '0' <= c <= '9' }

  predicate AllDigits(s: string) { forall i :: 0 <= i < |s| ==> IsDigit(s[i]) }

  function DigitValue(c: char): (d: nat)
    requires IsDigit(c)
    ensures d < 10
  {
    c as int - '0' as int
  }

  function DigitChar(d: nat): (c: char)
    requires d < 10
    ensures IsDigit(c) && DigitValue(c) == d
  {
    ('0' as int + d) as char
  }

  /** The decimal digits of `n`, most significant first, without leading zeros. */
  function NatDigits(n: nat): (r: string)
    ensures 1 <= |r| && AllDigits(r)
    ensures |r| == 1 <==> n < 10
    ensures r[0] == '0' ==> n == 0
  {
    if n < 10 then [DigitChar(n)] else NatDigits(n / 10) + [DigitChar(n % 10)]
  }

  /** Reads a string of decimal digits (leading zeros allowed) as a number. */
  function ParseDigits(s: string): (n: nat)
    requires AllDigits(s)
  {
    if s == [] then 0 else ParseDigits(s[..|s| - 1]) * 10 + DigitValue(s[|s| - 1])
  }

  lemma {:induction false} ParseNatDigits(n: nat)
    ensures ParseDigits(NatDigits(n)) == n
  {
    if n >= 10 {
      var s := NatDigits(n);
      assert s[..|s| - 1] == NatDigits(n / 10);
      ParseNatDigits(n / 10);
    }
  }

  /** `n.toString()`: an optional minus sign, then the digits of |n|. */
  function IntToString(n: int): (r: string)
    ensures |r| >= 1 && (r[0] == '-' <==> n < 0)
    ensures n < 0 ==> r[1..] == NatDigits(-n)
    ensures n >= 0 ==> AllDigits(r) && ParseDigits(r) == n
  {
    ParseNatDigits(if n < 0 then -n else n);
    if n < 0 then "-" + NatDigits(-n) else NatDigits(n)
  }

  function Repeat(c: char, k: nat): (r: string)
    ensures |r| == k && forall i :: 0 <= i < k ==> r[i] == c
  {
    if k == 0 then [] else [c] + Repeat(c, k - 1)
  }

  /** Right-aligns `s` in a field of width `w`, filling on the left with `c`; never truncates. */
  function PadLeft(s: string, w: nat, c: char): (r: string)
    ensures |r| == if |s| >= w then |s| else w
    ensures r[|r| - |s|..] == s
    ensures forall i :: 0 <= i < |r| - |s| ==> r[i] == c
  {
    if |s| >= w then s else Repeat(c, w - |s|) + s
  }

  /** `String.format("%{w}d", n)`: right-aligned in width `w`, padded with spaces. */
  function SpacePadded(n: int, w: nat): string
  {
    PadLeft(IntToString(n), w, ' ')
  }

  /** `String.format("%0{w}d", n)`: the sign first, then the digits zero-padded to fill width `w`. */
  function ZeroPadded(n: int, w: nat): string
    requires w >= 1
  {
    if n < 0 then "-" + PadLeft(NatDigits(-n), w - 1, '0') else PadLeft(NatDigits(n), w, '0')
  }

  /** Removes the leading occurrences of `c`. */
  function TrimLeft(s: string, c: char): (r: string)
    ensures |r| <= |s|
    ensures r != [] ==> r[0] != c
  {
    if s != [] && s[0] == c then TrimLeft(s[1..], c) else s
  }

  lemma {:induction false} TrimPadding(k: nat, s: string, c: char)
    requires s != [] && s[0] != c
    ensures TrimLeft(Repeat(c, k) + s, c) == s
  {
    if k == 0 {
      assert Repeat(c, k) + s == s;
    } else {
      var rest := Repeat(c, k - 1) + s;
      TrimPadding(k - 1, s, c);
      assert Repeat(c, k) + s == [c] + rest;
      assert TrimLeft([c] + rest, c) == TrimLeft(rest, c) by {
        assert ([c] + rest)[1..] == rest;
      }
    }
  }

  /** A non-negative number below 100 renders as exactly two digits under `%02d` and parses back. */
  lemma TwoDigitsRoundTrip(n: nat)
    requires n < 100
    ensures |ZeroPadded(n, 2)| == 2 && AllDigits(ZeroPadded(n, 2))
    ensures ParseDigits(ZeroPadded(n, 2)) == n
  {
    var s := ZeroPadded(n, 2);
    if n < 10 {
      assert s == ['0', DigitChar(n)];
      assert s[..1] == ['0'];
      assert ParseDigits(s[..1]) == 0 by {
        assert s[..1][..0] == [];
      }
    } else {
      assert NatDigits(n) == NatDigits(n / 10) + [DigitChar(n % 10)];
      assert s == NatDigits(n);
      ParseNatDigits(n);
    }
  }
}
