/** The string and sequence operations the generator borrows from Python:
    `str.split`, `str.join`, `str.replace`, `reversed`, `str(n)` and Python 2's
    `char.encode("hex")`, each with the property that makes it usable. */
module Text {
  import opened Wrappers

  /** One character of a Python 2 byte string. */
  type Byte = x: int | 0 <= x < 256

  predicate StartsWith(s: string, prefix: string)
  {
    |prefix| <= |s| && s[..|prefix|] == prefix
  }

  predicate EndsWith(s: string, suffix: string)
  {
    |suffix| <= |s| && s[|s| - |suffix|..] == suffix
  }

  /** `sep.join(parts)`. */
  function Join(parts: seq<string>, sep: string): string
  {
    if |parts| == 0 then ""
    else if |parts| == 1 then parts[0]
    else parts[0] + sep + Join(parts[1..], sep)
  }

  /** `s.split(sep)` for a non-empty separator: occurrences are taken from the
      left and never overlap, so there is always at least one piece. */
  function Split(s: string, sep: string): (r: seq<string>)
    requires |sep| > 0
    ensures |r| >= 1
  {
    SplitFrom(s, sep, "")
  }

  /** Splits `s`, where `piece` is the part of the current piece already read. */
  function SplitFrom(s: string, sep: string, piece: string): (r: seq<string>)
    requires |sep| > 0
    ensures |r| >= 1
    decreases |s|
  {
    if StartsWith(s, sep) then [piece] + SplitFrom(s[|sep|..], sep, "")
    else if |s| == 0 then [piece]
    else SplitFrom(s[1..], sep, piece + [s[0]])
  }

  lemma {:induction false} SplitFromJoin(s: string, sep: string, piece: string)
    requires |sep| > 0
    ensures Join(SplitFrom(s, sep, piece), sep) == piece + s
    decreases |s|
  {
    if StartsWith(s, sep) {
      var rest := SplitFrom(s[|sep|..], sep, "");
      SplitFromJoin(s[|sep|..], sep, "");
      assert ([piece] + rest)[1..] == rest;
      assert s == sep + s[|sep|..];
    } else if |s| == 0 {
    } else {
      SplitFromJoin(s[1..], sep, piece + [s[0]]);
      assert s == [s[0]] + s[1..];
    }
  }

  /** Joining the pieces of a split with the same separator gives the string back. */
  lemma SplitJoin(s: string, sep: string)
    requires |sep| > 0
    ensures Join(Split(s, sep), sep) == s
  {
    SplitFromJoin(s, sep, "");
  }

  function DigitChar(d: nat): char
    requires d < 10
  {
    ('0' as int + d) as char
  }

  /** `str(n)` and `"%d" % n` for a natural number. */
  function Decimal(n: nat): (r: string)
    ensures |r| >= 1
    ensures forall k :: 0 <= k < |r| ==> '0' <= r[k] <= '9'
    decreases n
  {
    if n < 10 then [DigitChar(n)] else Decimal(n / 10) + [DigitChar(n % 10)]
  }

  function DigitValue(c: char): (r: Option<nat>)
    ensures r.Some? ==> r.value < 10
  {
    if '0' <= c <= '9' then Some(c as int - '0' as int) else None
  }

  /** Reads a non-empty string of decimal digits as a number. */
  function ParseDecimal(s: string): Option<nat>
    decreases |s|
  {
    if |s| == 0 then None
    else
      var d := DigitValue(s[|s| - 1]);
      if d.None? then None
      else if |s| == 1 then d
      else match ParseDecimal(s[..|s| - 1])
        case None => None
        case Some(v) => Some(10 * v + d.value)
  }

  /** Decimal rendering is undone by reading the digits back. */
  lemma {:induction false} DecimalRoundTrip(n: nat)
    ensures ParseDecimal(Decimal(n)) == Some(n)
    decreases n
  {
    if n >= 10 {
      DecimalRoundTrip(n / 10);
      var s := Decimal(n);
      assert s[..|s| - 1] == Decimal(n / 10);
    }
  }

  function HexDigit(d: nat): char
    requires d < 16
  {
    if d < 10 then ('0' as int + d) as char else ('a' as int + d - 10) as char
  }

  /** Python 2's `char.encode("hex")`: two lower-case hexadecimal digits, the
      high nibble first. */
  function HexByte(b: Byte): (r: string)
    ensures |r| == 2
    ensures forall k :: 0 <= k < 2 ==> '0' <= r[k] <= '9' || 'a' <= r[k] <= 'f'
  {
    [HexDigit(b / 16), HexDigit(b % 16)]
  }

  function HexValue(c: char): (r: Option<nat>)
    ensures r.Some? ==> r.value < 16
  {
    if '0' <= c <= '9' then Some(c as int - '0' as int)
    else if 'a' <= c <= 'f' then Some(c as int - 'a' as int + 10)
    else None
  }

  /** Reads two lower-case hexadecimal digits as a byte. */
  function ParseHexByte(s: string): Option<Byte>
  {
    if |s| != 2 then None
    else match (HexValue(s[0]), HexValue(s[1]))
      case (Some(h), Some(l)) => Some(16 * h + l)
      case _ => None
  }

  lemma HexByteRoundTrip(b: Byte)
    ensures ParseHexByte(HexByte(b)) == Some(b)
  {
  }

  /** `s.replace(from, to)` for one-character strings `from` and `to`. */
  function ReplaceChar(s: string, from: char, to: char): (r: string)
    ensures |r| == |s|
    decreases |s|
  {
    if |s| == 0 then "" else [if s[0] == from then to else s[0]] + ReplaceChar(s[1..], from, to)
  }

  /** Each character is replaced on its own, and no other is touched. */
  lemma {:induction false} ReplaceCharAt(s: string, from: char, to: char, k: nat)
    requires k < |s|
    ensures ReplaceChar(s, from, to)[k] == if s[k] == from then to else s[k]
    decreases |s|
  {
    if k > 0 {
      ReplaceCharAt(s[1..], from, to, k - 1);
    }
  }

  /** Replacing back undoes a replacement when the new character did not
      occur in the string before. */
  lemma {:induction false} ReplaceCharBack(s: string, from: char, to: char)
    requires to !in s
    ensures ReplaceChar(ReplaceChar(s, from, to), to, from) == s
    decreases |s|
  {
    if |s| > 0 {
      assert s == [s[0]] + s[1..];
      ReplaceCharBack(s[1..], from, to);
      var r := ReplaceChar(s, from, to);
      assert r[1..] == ReplaceChar(s[1..], from, to);
    }
  }

  /** `reversed(xs)`. */
  function Reverse<T>(xs: seq<T>): (r: seq<T>)
    ensures |r| == |xs|
  {
    if |xs| == 0 then [] else [xs[|xs| - 1]] + Reverse(xs[..|xs| - 1])
  }

  /** The elements of `xs` that `keep` accepts, in their order. */
  function Select<T>(xs: seq<T>, keep: T -> bool): (r: seq<T>)
    ensures |r| <= |xs|
  {
    if |xs| == 0 then [] else Select(xs[..|xs| - 1], keep) + (if keep(xs[|xs| - 1]) then [xs[|xs| - 1]] else [])
  }

  /** `[f(x) for x in xs]`. */
  function Map<T, U>(xs: seq<T>, f: T -> U): (r: seq<U>)
    ensures |r| == |xs|
    ensures forall k :: 0 <= k < |xs| ==> r[k] == f(xs[k])
  {
    if |xs| == 0 then [] else Map(xs[..|xs| - 1], f) + [f(xs[|xs| - 1])]
  }
}
