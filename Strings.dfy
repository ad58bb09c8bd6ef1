/**
 * The string operations the bootstrapper relies on: joining a list with a
 * delimiter (collectionToDelimitedString and arrayToDelimitedString of
 * com.gigaspaces.internal.utils.StringUtils, and repeated `+=` with a
 * separator), splitting it back, and Java's decimal rendering of an int.
 */
module Strings {

  /** The parts in order, with `sep` between neighbours; the empty list joins to "". */
  function Join(parts: seq<string>, sep: string): string
    decreases |parts|
  {
    if |parts| == 0 then ""
    else if |parts| == 1 then parts[0]
    else Join(parts[..|parts| - 1], sep) + sep + parts[|parts| - 1]
  }

  /** Appending one more part puts one more separator in front of it. */
  lemma JoinSnoc(parts: seq<string>, x: string, sep: string)
    requires |parts| > 0
    ensures Join(parts + [x], sep) == Join(parts, sep) + sep + x
  {
    assert (parts + [x])[..|parts|] == parts;
  }

  /** Joining from the front: the first part, a separator, then the rest. */
  lemma {:induction false} JoinCons(x: string, xs: seq<string>, sep: string)
    requires |xs| > 0
    ensures Join([x] + xs, sep) == x + sep + Join(xs, sep)
    decreases |xs|
  {
    var ys := [x] + xs;
    if |xs| == 1 {
      assert ys[..1] == [x];
    } else {
      var init := xs[..|xs| - 1];
      assert ys[..|ys| - 1] == [x] + init;
      JoinCons(x, init, sep);
      assert Join(xs, sep) == Join(init, sep) + sep + xs[|xs| - 1];
    }
  }

  /** Position of the first occurrence of `c` in `s`. */
  function IndexOf(s: string, c: char): (i: nat)
    requires c in s
    ensures i < |s| && s[i] == c && c !in s[..i]
  {
    if s[0] == c then 0
    else
      var j := IndexOf(s[1..], c);
      assert s[..j + 1] == [s[0]] + s[1..][..j];
      j + 1
  }

  /** `s` cut at every occurrence of `c` (java.lang.String.split without dropping empty pieces). */
  function Split(s: string, c: char): (r: seq<string>)
    ensures |r| > 0
    decreases |s|
  {
    if c in s then
      var i := IndexOf(s, c);
      [s[..i]] + Split(s[i + 1..], c)
    else [s]
  }

  lemma {:induction false} IndexOfAfterFreePrefix(a: string, b: string, c: char)
    requires c !in a
    ensures c in a + [c] + b && IndexOf(a + [c] + b, c) == |a|
    decreases |a|
  {
    var s := a + [c] + b;
    assert s[|a|] == c;
    if |a| > 0 {
      assert s[1..] == a[1..] + [c] + b;
      IndexOfAfterFreePrefix(a[1..], b, c);
    }
  }

  /** Splitting undoes joining when no part contains the separator. */
  lemma {:induction false} SplitJoin(parts: seq<string>, c: char)
    requires |parts| > 0
    requires forall k | 0 <= k < |parts| :: c !in parts[k]
    ensures Split(Join(parts, [c]), c) == parts
    decreases |parts|
  {
    if |parts| > 1 {
      var rest := parts[1..];
      assert parts == [parts[0]] + rest;
      JoinCons(parts[0], rest, [c]);
      var tail := Join(rest, [c]);
      IndexOfAfterFreePrefix(parts[0], tail, c);
      var s := parts[0] + [c] + tail;
      assert s[..|parts[0]|] == parts[0];
      assert s[|parts[0]| + 1..] == tail;
      SplitJoin(rest, c);
    }
  }

  /** Decimal digit character for `d`. */
  function DigitChar(d: nat): (ch: char)
    requires d < 10
    ensures '0' <= ch <= '9'
  {
    ('0' as int + d) as char
  }

  /** Decimal rendering of a natural number, most significant digit first, no leading zeros. */
  function NatToString(n: nat): string
    decreases n
  {
    if n < 10 then [DigitChar(n)] else NatToString(n / 10) + [DigitChar(n % 10)]
  }

  /** Java's Integer.toString: a minus sign for negative values, then the digits. */
  function IntToString(i: int): string {
    if i < 0 then "-" + NatToString(-i) else NatToString(i)
  }

  /** Value of a string of decimal digits (the inverse of NatToString). */
  function ParseNat(s: string): nat
    decreases |s|
  {
    if |s| == 0 then 0
    else
      var d := s[|s| - 1] as int - '0' as int;
      ParseNat(s[..|s| - 1]) * 10 + (if 0 <= d then d else 0)
  }

  /** Java's Integer.parseInt on what IntToString produced. */
  function ParseInt(s: string): int {
    if |s| > 0 && s[0] == '-' then -(ParseNat(s[1..]) as int) else ParseNat(s)
  }

  lemma {:induction false} NatToStringDigits(n: nat)
    ensures |NatToString(n)| > 0
    ensures forall k | 0 <= k < |NatToString(n)| :: '0' <= NatToString(n)[k] <= '9'
    decreases n
  {
    if n >= 10 {
      NatToStringDigits(n / 10);
    }
  }

  /** Parsing the decimal rendering gives the number back. */
  lemma {:induction false} ParseNatToString(n: nat)
    ensures ParseNat(NatToString(n)) == n
    decreases n
  {
    var s := NatToString(n);
    if n < 10 {
      assert s[..0] == [];
    } else {
      ParseNatToString(n / 10);
      assert s[..|s| - 1] == NatToString(n / 10);
    }
  }

  /** IntToString and ParseInt form a round trip over all of int. */
  lemma IntToStringRoundTrip(i: int)
    ensures ParseInt(IntToString(i)) == i
  {
    if i < 0 {
      ParseNatToString(-i);
      assert IntToString(i)[1..] == NatToString(-i);
    } else {
      ParseNatToString(i);
      NatToStringDigits(i);
    }
  }

  /** A character that is neither a digit nor '-' never appears in a rendered int. */
  lemma IntToStringAvoids(i: int, c: char)
    requires !('0' <= c <= '9') && c != '-'
    ensures c !in IntToString(i)
  {
    if i < 0 {
      NatToStringDigits(-i);
      assert IntToString(i) == "-" + NatToString(-i);
    } else {
      NatToStringDigits(i);
    }
  }
}
