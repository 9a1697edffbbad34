/**
 * Text rendering used by the labels and the pretty printer: decimal numbers as
 * `{}` prints them, bytes as `{:#04X}` prints them, `join`, left-aligned padding
 * as `{:<width$}` pads, and line splitting to read a listing back.
 */
module Text {
  import opened Bytes

  /** Every character is a decimal digit. */
  predicate IsDigits(s: string)
  {
    forall i :: 0 <= i < |s| ==> '0' <= s[i] <= '9'
  }

  function DigitChar(d: nat): char
    requires d < 10
  {
    "0123456789"[d]
  }

  /** Decimal digits of `n`, most significant first, without leading zeros. */
  function NatToDecimal(n: nat): (s: string)
    ensures |s| >= 1 && IsDigits(s)
    ensures s[0] == '0' ==> n == 0 && |s| == 1
    decreases n
  {
    if n < 10 then [DigitChar(n)] else NatToDecimal(n / 10) + [DigitChar(n % 10)]
  }

  /** Value of a string of decimal digits (reference reading). */
  function DigitsValue(s: string): nat
    requires IsDigits(s)
  {
    if s == [] then 0 else 10 * DigitsValue(s[..|s| - 1]) + (s[|s| - 1] as int - '0' as int)
  }

  /** Reading the printed digits back gives the number. */
  lemma {:induction false} NatToDecimalRoundTrip(n: nat)
    ensures DigitsValue(NatToDecimal(n)) == n
    decreases n
  {
    var s := NatToDecimal(n);
    if n >= 10 {
      NatToDecimalRoundTrip(n / 10);
      assert s[..|s| - 1] == NatToDecimal(n / 10);
      DigitCharValue(n % 10);
      assert DigitsValue(s) == 10 * (n / 10) + n % 10;
    } else {
      DigitCharValue(n);
      assert s[..0] == [];
    }
  }

  /** The digit character of `d` stands for `d`. */
  lemma DigitCharValue(d: nat)
    requires d < 10
    ensures DigitChar(d) as int - '0' as int == d
  {
  }

  /** `{}` of an integer: an optional minus sign, then the decimal digits of its magnitude. */
  function IntToDecimal(x: int): (s: string)
  {
    if x < 0 then "-" + NatToDecimal(-x) else NatToDecimal(x)
  }

  /** Value of an optionally signed decimal numeral (reference reading). */
  function DecimalValue(s: string): int
    requires (|s| >= 1 && s[0] == '-' && IsDigits(s[1..])) || IsDigits(s)
  {
    if |s| >= 1 && s[0] == '-' then -(DigitsValue(s[1..]) as int) else DigitsValue(s)
  }

  /** A printed integer is a well-formed numeral that reads back as the integer. */
  lemma IntToDecimalRoundTrip(x: int)
    ensures IsDigits(IntToDecimal(x)) <==> x >= 0
    ensures x < 0 ==> IntToDecimal(x)[0] == '-' && IsDigits(IntToDecimal(x)[1..])
    ensures DecimalValue(IntToDecimal(x)) == x
  {
    var s := IntToDecimal(x);
    if x < 0 {
      assert s == "-" + NatToDecimal(-x);
      NegativeNumeral(-x);
      assert !IsDigits(s) && DecimalValue(s) == x;
    } else {
      assert s == NatToDecimal(x);
      NonNegativeNumeral(x);
      assert IsDigits(s) && DecimalValue(s) == x;
    }
  }

  /** The digits of `n` are a numeral without a sign that reads back as `n`. */
  lemma NonNegativeNumeral(n: nat)
    ensures var s := NatToDecimal(n);
      IsDigits(s) && s[0] != '-' && DecimalValue(s) == n
  {
    NatToDecimalRoundTrip(n);
  }

  /** A minus sign before the digits of `m` is not all digits and reads back as `-m`. */
  lemma NegativeNumeral(m: nat)
    ensures var s := "-" + NatToDecimal(m);
      s[0] == '-' && s[1..] == NatToDecimal(m) && IsDigits(s[1..]) && !IsDigits(s) && DecimalValue(s) == -(m as int)
  {
    var s := "-" + NatToDecimal(m);
    assert s[1..] == NatToDecimal(m);
    NatToDecimalRoundTrip(m);
  }

  /** Upper-case hexadecimal digit of a nibble. */
  function HexDigit(n: bv8): char
    requires n < 16
  {
    "0123456789ABCDEF"[n as int]
  }

  /** Value of an upper-case hexadecimal digit (reference reading). */
  function HexDigitValue(c: char): bv8
  {
    if '0' <= c <= '9' then (c as int - '0' as int) as bv8
    else if 'A' <= c <= 'F' then (c as int - 'A' as int + 10) as bv8
    else 0
  }

  lemma HexDigitRoundTrip(n: bv8)
    requires n < 16
    ensures HexDigitValue(HexDigit(n)) == n
  {
    var k := n as int;
    assert 0 <= k < 16;
    if k < 10 {
      assert HexDigit(n) as int == '0' as int + k;
    } else {
      assert HexDigit(n) as int == 'A' as int + k - 10;
    }
  }

  /** `{:#04X}` of a byte: "0x" followed by two upper-case hexadecimal digits. */
  function HexByte(b: bv8): (s: string)
    ensures |s| == 4 && s[..2] == "0x"
  {
    "0x" + [HexDigit(b >> 4), HexDigit(b & 0xF)]
  }

  /** The two printed digits read back as the byte, high nibble first. */
  lemma HexByteRoundTrip(b: bv8)
    ensures (HexDigitValue(HexByte(b)[2]) << 4) | HexDigitValue(HexByte(b)[3]) == b
  {
    HexDigitRoundTrip(b >> 4);
    HexDigitRoundTrip(b & 0xF);
  }

  /** `join(sep)`: the parts in order with `sep` between neighbours. */
  function Join(parts: seq<string>, sep: string): string
  {
    if |parts| == 0 then "" else if |parts| == 1 then parts[0] else parts[0] + sep + Join(parts[1..], sep)
  }

  /** Joining n parts of length k each gives n*k characters plus n-1 separators. */
  lemma {:induction false} JoinLength(parts: seq<string>, sep: string, k: nat)
    requires forall i :: 0 <= i < |parts| ==> |parts[i]| == k
    ensures |parts| >= 1 ==> |Join(parts, sep)| == |parts| * (k + |sep|) - |sep|
    ensures |parts| == 0 ==> Join(parts, sep) == ""
  {
    if |parts| >= 2 {
      JoinLength(parts[1..], sep, k);
    }
  }

  /** In a join of parts of length `k`, part `j` starts `j * (k + |sep|)` characters in. */
  lemma {:induction false} JoinAt(parts: seq<string>, sep: string, k: nat, j: nat)
    requires forall i :: 0 <= i < |parts| ==> |parts[i]| == k
    requires j < |parts|
    ensures j * (k + |sep|) + k <= |Join(parts, sep)|
    ensures Join(parts, sep)[j * (k + |sep|)..j * (k + |sep|) + k] == parts[j]
  {
    if j == 0 {
      if |parts| >= 2 {
        assert Join(parts, sep) == parts[0] + (sep + Join(parts[1..], sep));
      }
    } else {
      var w := k + |sep|;
      JoinAt(parts[1..], sep, k, j - 1);
      MulStep(j, w);
      JoinShift(parts, sep, (j - 1) * w, parts[j]);
    }
  }

  /** A piece at `at` in the join of the rest lies one part and one separator further in the whole join. */
  lemma JoinShift(parts: seq<string>, sep: string, at: nat, piece: string)
    requires |parts| >= 2
    requires at + |piece| <= |Join(parts[1..], sep)|
    requires Join(parts[1..], sep)[at..at + |piece|] == piece
    ensures |parts[0]| + |sep| + at + |piece| <= |Join(parts, sep)|
    ensures Join(parts, sep)[|parts[0]| + |sep| + at..|parts[0]| + |sep| + at + |piece|] == piece
  {
    var head := parts[0] + sep;
    var rest := Join(parts[1..], sep);
    assert Join(parts, sep) == head + rest;
    SliceShift(head, rest, at, |piece|);
  }

  lemma MulStep(j: nat, w: nat)
    requires j >= 1
    ensures j * w == w + (j - 1) * w
  {
  }

  /** A slice of `b` seen inside `a + b`. */
  lemma SliceShift<T>(a: seq<T>, b: seq<T>, i: nat, len: nat)
    requires i + len <= |b|
    ensures (a + b)[|a| + i..|a| + i + len] == b[i..i + len]
  {
  }

  /** A character found in no part and not in the separator is not in the join. */
  lemma {:induction false} JoinAvoids(parts: seq<string>, sep: string, c: char)
    requires c !in sep
    requires forall i :: 0 <= i < |parts| ==> c !in parts[i]
    ensures c !in Join(parts, sep)
  {
    if |parts| >= 2 {
      JoinAvoids(parts[1..], sep, c);
      assert Join(parts, sep) == parts[0] + sep + Join(parts[1..], sep);
    }
  }

  /** A printed hexadecimal digit is '0'-'9' or 'A'-'F'. */
  lemma HexDigitRange(n: bv8)
    requires n < 16
    ensures '0' <= HexDigit(n) <= '9' || 'A' <= HexDigit(n) <= 'F'
  {
    var k := n as int;
    if k < 10 {
      assert HexDigit(n) as int == '0' as int + k;
    } else {
      assert HexDigit(n) as int == 'A' as int + k - 10;
    }
  }

  function Spaces(n: nat): (s: string)
    ensures |s| == n && forall i :: 0 <= i < n ==> s[i] == ' '
  {
    seq(n, _ => ' ')
  }

  /** `{:<width$}`: left-aligned and padded with spaces up to `width`; never truncated. */
  function PadRight(s: string, width: nat): (r: string)
    ensures |r| == if |s| < width then width else |s|
    ensures r[..|s|] == s
    ensures forall i :: |s| <= i < |r| ==> r[i] == ' '
  {
    if |s| < width then s + Spaces(width - |s|) else s
  }

  /** The pieces of `s` between occurrences of `c` (reference reading of a joined text). */
  function Split(s: string, c: char): (parts: seq<string>)
    ensures |parts| >= 1
  {
    if s == [] then [""]
    else
      var rest := Split(s[1..], c);
      if s[0] == c then [""] + rest else [[s[0]] + rest[0]] + rest[1..]
  }

  lemma {:induction false} SplitNoSeparator(p: string, c: char, t: string)
    requires c !in p
    ensures Split(p + t, c) == [p + Split(t, c)[0]] + Split(t, c)[1..]
  {
    if p != [] {
      assert (p + t)[1..] == p[1..] + t;
      SplitNoSeparator(p[1..], c, t);
      assert [p[0]] + (p[1..] + Split(t, c)[0]) == p + Split(t, c)[0];
    } else {
      assert p + t == t;
      assert p + Split(t, c)[0] == Split(t, c)[0];
      assert Split(t, c) == [Split(t, c)[0]] + Split(t, c)[1..];
    }
  }

  /** Joining with a one-character separator that no part contains is undone by splitting on it. */
  lemma {:induction false} SplitJoin(parts: seq<string>, c: char)
    requires |parts| >= 1
    requires forall i :: 0 <= i < |parts| ==> c !in parts[i]
    ensures Split(Join(parts, [c]), c) == parts
  {
    if |parts| == 1 {
      SplitNoSeparator(parts[0], c, "");
      assert parts[0] + "" == parts[0];
      assert Split("", c) == [""];
      assert parts == [parts[0]];
    } else {
      var rest := Join(parts[1..], [c]);
      SplitJoin(parts[1..], c);
      assert Join(parts, [c]) == parts[0] + ([c] + rest);
      SplitNoSeparator(parts[0], c, [c] + rest);
      assert ([c] + rest)[1..] == rest;
      assert Split([c] + rest, c) == [""] + parts[1..];
      assert parts[0] + "" == parts[0];
      assert [parts[0]] + parts[1..] == parts;
    }
  }

  /**
   * A label `head + name + ")"` equals the fixed label `shown`, spelled out as
   * `head + word + ")"`, exactly when it names `word`.
   */
  lemma NamedLabel(head: string, name: string, word: string, shown: string)
    requires shown == head + word + ")"
    ensures head + name + ")" == shown <==> name == word
  {
    var text := head + name + ")";
    if text == shown {
      assert text[|head|..|text| - 1] == name;
      assert shown[|head|..|shown| - 1] == word;
    }
  }

  /** The first part of a join is a prefix of it. */
  lemma JoinHead(parts: seq<string>, sep: string)
    ensures |parts| >= 1 ==> parts[0] <= Join(parts, sep)
  {
    if |parts| >= 2 {
      assert Join(parts, sep) == parts[0] + (sep + Join(parts[1..], sep));
    }
  }
}
