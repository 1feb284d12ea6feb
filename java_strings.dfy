/** The parts of java.lang the domain code leans on: Integer.toString and
    Integer.parseInt on 32-bit ints, Double.toString on integral values, and
    String.split with a literal separator. */
module JavaStrings {
  import opened Wrappers

  const INT_MIN: int := -0x8000_0000
  const INT_MAX: int := 0x7fff_ffff

  /** A value of Java's 32-bit `int`. */
  predicate IsInt32(n: int) {
    INT_MIN <= n <= INT_MAX
  }

  predicate IsDigit(c: char) {
    '0' <= c <= '9'
  }

  predicate AllDigits(s: string) {
    forall i :: 0 <= i < |s| ==> IsDigit(s[i])
  }

  function DigitChar(d: nat): (c: char)
    requires d < 10
    ensures IsDigit(c)
  {
    (('0' as int) + d) as char
  }

  function DigitValue(c: char): (d: nat)
    requires IsDigit(c)
    ensures d < 10
  {
    (c as int) - ('0' as int)
  }

  /** The decimal digits of n, most significant first, without leading zeros. */
  function NatDigits(n: nat): (s: string)
    ensures |s| > 0
    decreases n
  {
    if n < 10 then [DigitChar(n)] else NatDigits(n / 10) + [DigitChar(n % 10)]
  }

  lemma {:induction false} NatDigitsAreDigits(n: nat)
    ensures AllDigits(NatDigits(n))
    decreases n
  {
    if n >= 10 {
      NatDigitsAreDigits(n / 10);
    }
  }

  /** The number a string of decimal digits denotes. */
  function DigitsValue(s: string): nat
    requires AllDigits(s)
  {
    if |s| == 0 then 0 else DigitsValue(s[..|s| - 1]) * 10 + DigitValue(s[|s| - 1])
  }

  /** Integer.toString (and string concatenation of an int): a '-' for negative
      values, then the digits of the magnitude. */
  function IntToString(n: int): string {
    if n < 0 then "-" + NatDigits(-n) else NatDigits(n)
  }

  /** Integer.parseInt: an optional sign, then at least one decimal digit, and a
      value that fits in an int; anything else is a NumberFormatException. */
  function ParseInt(s: string): (r: Result<int, JavaError>)
    ensures r.Success? ==> IsInt32(r.value)
    ensures r.Failure? ==> r.error == NumberFormat
  {
    if |s| == 0 then Failure(NumberFormat)
    else
      var start := if s[0] == '-' || s[0] == '+' then 1 else 0;
      if start == |s| || !AllDigits(s[start..]) then Failure(NumberFormat)
      else
        var magnitude: int := DigitsValue(s[start..]);
        var v: int := if s[0] == '-' then -magnitude else magnitude;
        if IsInt32(v) then Success(v) else Failure(NumberFormat)
  }

  lemma {:induction false} DigitsRoundTrip(n: nat)
    ensures AllDigits(NatDigits(n)) && DigitsValue(NatDigits(n)) == n
    decreases n
  {
    NatDigitsAreDigits(n);
    if n >= 10 {
      DigitsRoundTrip(n / 10);
      var s := NatDigits(n);
      assert s[..|s| - 1] == NatDigits(n / 10);
    }
  }

  /** Parsing what Integer.toString printed gives the int back. */
  lemma ParseIntToString(n: int)
    requires IsInt32(n)
    ensures ParseInt(IntToString(n)) == Success(n)
  {
    var s := IntToString(n);
    if n < 0 {
      DigitsRoundTrip(-n);
      assert s[1..] == NatDigits(-n);
    } else {
      DigitsRoundTrip(n);
      assert s[0..] == s;
    }
  }

  /** Integer.toString never prints the same text for two different ints. */
  lemma IntToStringInjective(a: int, b: int)
    requires IntToString(a) == IntToString(b)
    ensures a == b
  {
    var s := IntToString(a);
    NatDigitsAreDigits(if a < 0 then -a else a);
    NatDigitsAreDigits(if b < 0 then -b else b);
    assert s[0] == '-' <==> a < 0;
    assert IntToString(b)[0] == '-' <==> b < 0;
    if a < 0 {
      DigitsRoundTrip(-a);
      DigitsRoundTrip(-b);
      assert s[1..] == NatDigits(-a) == NatDigits(-b);
    } else {
      DigitsRoundTrip(a);
      DigitsRoundTrip(b);
    }
  }

  /** A character other than a digit, apart from a leading sign, makes parseInt fail. */
  lemma ParseIntRejects(s: string, i: nat)
    requires i < |s| && !IsDigit(s[i])
    requires i == 0 ==> s[0] != '-' && s[0] != '+'
    ensures ParseInt(s) == Failure(NumberFormat)
  {
    var start := if s[0] == '-' || s[0] == '+' then 1 else 0;
    if start < |s| {
      assert s[start..][i - start] == s[i];
    }
  }

  /** The printed form of an int is made of digits and a leading '-' only. */
  lemma IntToStringChars(n: int)
    ensures |IntToString(n)| > 0
    ensures forall i :: 0 <= i < |IntToString(n)| ==>
      IsDigit(IntToString(n)[i]) || (i == 0 && IntToString(n)[i] == '-')
  {
    NatDigitsAreDigits(if n < 0 then -n else n);
  }

  /** Double.toString of an integral value: "n.0" below 10^7 in magnitude, and
      computerized scientific notation ("d.dddE<exp>", trailing zeros of the
      fraction dropped, at least one fraction digit) from 10^7 on. Every int is
      exactly representable as a double, so no rounding is involved. */
  function IntegralDoubleToString(n: int): string {
    var mag: nat := if n < 0 then -n else n;
    var sign := if n < 0 then "-" else "";
    if mag < 10_000_000 then sign + NatDigits(mag) + ".0"
    else
      var ds := NatDigits(mag);
      var frac := DropTrailingZeros(ds[1..]);
      sign + [ds[0]] + "." + (if |frac| == 0 then "0" else frac) + "E" + NatDigits(|ds| - 1)
  }

  function DropTrailingZeros(s: string): (r: string)
    ensures |r| <= |s|
  {
    if |s| > 0 && s[|s| - 1] == '0' then DropTrailingZeros(s[..|s| - 1]) else s
  }

  /** The fraction keeps a prefix of its digits and never ends in '0'. */
  lemma {:induction false} DropTrailingZerosShape(s: string)
    ensures DropTrailingZeros(s) == s[..|DropTrailingZeros(s)|]
    ensures |DropTrailingZeros(s)| > 0 ==> DropTrailingZeros(s)[|DropTrailingZeros(s)| - 1] != '0'
    decreases |s|
  {
    if |s| > 0 && s[|s| - 1] == '0' {
      var t := s[..|s| - 1];
      DropTrailingZerosShape(t);
      var r := DropTrailingZeros(t);
      assert t[..|r|] == s[..|r|];
    } else {
      assert s[..|s|] == s;
    }
  }

  /** The first index at which sep occurs in s. */
  function Find(s: string, sep: string): (r: Option<nat>)
    ensures r.Some? ==> r.value + |sep| <= |s| && s[r.value..r.value + |sep|] == sep
    decreases |s|
  {
    if |s| < |sep| then None
    else if s[..|sep|] == sep then Some(0)
    else
      match Find(s[1..], sep)
      case None => None
      case Some(k) =>
        assert s[1..][k..k + |sep|] == s[k + 1..k + 1 + |sep|];
        Some(k + 1)
  }

  /** The pieces between the occurrences of sep, scanned left to right. */
  function Pieces(s: string, sep: string): (r: seq<string>)
    requires |sep| > 0
    ensures |r| > 0
    decreases |s|
  {
    match Find(s, sep)
    case None => [s]
    case Some(i) => [s[..i]] + Pieces(s[i + |sep|..], sep)
  }

  function DropTrailingEmpty(ps: seq<string>): (r: seq<string>)
    ensures |r| <= |ps| && r == ps[..|r|]
  {
    if |ps| > 0 && ps[|ps| - 1] == "" then DropTrailingEmpty(ps[..|ps| - 1]) else ps
  }

  /** String.split with a separator free of regular-expression metacharacters:
      the input itself when the separator does not occur, otherwise the pieces
      with the trailing empty ones removed. */
  function Split(s: string, sep: string): seq<string>
    requires |sep| > 0
  {
    if Find(s, sep).None? then [s] else DropTrailingEmpty(Pieces(s, sep))
  }

  /** The segments glued together with sep between neighbours (the way a
      StringBuffer that appends sep before every later segment builds them). */
  function Join(segs: seq<string>, sep: string): string {
    if |segs| == 0 then ""
    else if |segs| == 1 then segs[0]
    else Join(segs[..|segs| - 1], sep) + sep + segs[|segs| - 1]
  }

  /** No character of s is c (used with the first character of a separator). */
  predicate FreeOf(s: string, c: char)
    decreases |s|
  {
    |s| == 0 || (s[0] != c && FreeOf(s[1..], c))
  }

  /** FreeOf holds exactly when no position of s holds c. */
  lemma {:induction false} FreeOfChars(s: string, c: char)
    ensures FreeOf(s, c) <==> forall i :: 0 <= i < |s| ==> s[i] != c
    decreases |s|
  {
    if |s| > 0 {
      FreeOfChars(s[1..], c);
      assert forall i :: 1 <= i < |s| ==> s[1..][i - 1] == s[i];
    }
  }

  lemma {:induction false} FreeOfConcat(a: string, b: string, c: char)
    requires FreeOf(a, c) && FreeOf(b, c)
    ensures FreeOf(a + b, c)
    decreases |a|
  {
    if |a| > 0 {
      FreeOfConcat(a[1..], b, c);
      assert (a + b)[1..] == a[1..] + b;
    } else {
      assert a + b == b;
    }
  }

  /** The printed form of an int holds no character other than digits and '-'. */
  lemma IntToStringFree(n: int, c: char)
    requires !IsDigit(c) && c != '-'
    ensures FreeOf(IntToString(n), c)
  {
    IntToStringChars(n);
    FreeOfChars(IntToString(n), c);
  }

  lemma {:induction false} FindAfterFree(a: string, sep: string, rest: string)
    requires |sep| > 0 && FreeOf(a, sep[0])
    ensures Find(a + sep + rest, sep) == Some(|a|)
    decreases |a|
  {
    var s := a + sep + rest;
    if |a| == 0 {
      assert s[..|sep|] == sep;
    } else {
      assert s[0] == a[0];
      assert s[..|sep|] != sep by {
        assert s[..|sep|][0] != sep[0];
      }
      FindAfterFree(a[1..], sep, rest);
      assert s[1..] == a[1..] + sep + rest;
    }
  }

  lemma {:induction false} FindNoneWhenFree(a: string, sep: string)
    requires |sep| > 0 && FreeOf(a, sep[0])
    ensures Find(a, sep) == None
    decreases |a|
  {
    if |a| >= |sep| {
      assert a[..|sep|] != sep by {
        assert a[..|sep|][0] != sep[0];
      }
      FindNoneWhenFree(a[1..], sep);
    }
  }

  lemma {:induction false} JoinFront(a: string, rest: seq<string>, sep: string)
    requires |rest| > 0
    ensures Join([a] + rest, sep) == a + sep + Join(rest, sep)
    decreases |rest|
  {
    var all := [a] + rest;
    if |rest| == 1 {
      assert all[..1] == [a];
    } else {
      var n := |rest|;
      var init := rest[..n - 1];
      assert all[..n] == [a] + init;
      assert all[n] == rest[n - 1];
      JoinFront(a, init, sep);
      assert Join(all, sep) == Join([a] + init, sep) + sep + rest[n - 1];
      assert Join(rest, sep) == Join(init, sep) + sep + rest[n - 1];
    }
  }

  /** One more segment of a prefix appends the separator and that segment. */
  lemma JoinPrefix(segs: seq<string>, n: nat, sep: string)
    requires 0 < n < |segs|
    ensures Join(segs[..n + 1], sep) == Join(segs[..n], sep) + sep + segs[n]
  {
    assert segs[..n + 1][..n] == segs[..n];
  }

  /** An empty last segment puts one more separator at the end. */
  lemma JoinTerminated(segs: seq<string>, sep: string)
    ensures Join(segs + [""], sep) == if |segs| == 0 then "" else Join(segs, sep) + sep
  {
    if |segs| > 0 {
      assert (segs + [""])[..|segs|] == segs;
    }
  }

  /** Splitting glued segments at a separator whose first character none of them
      contains yields the segments again. */
  lemma {:induction false} PiecesOfJoin(segs: seq<string>, sep: string)
    requires |segs| > 0 && |sep| > 0
    requires forall k :: 0 <= k < |segs| ==> FreeOf(segs[k], sep[0])
    ensures Pieces(Join(segs, sep), sep) == segs
    decreases |segs|
  {
    if |segs| == 1 {
      FindNoneWhenFree(segs[0], sep);
    } else {
      var rest := segs[1..];
      assert segs == [segs[0]] + rest;
      JoinFront(segs[0], rest, sep);
      FindAfterFree(segs[0], sep, Join(rest, sep));
      var s := segs[0] + sep + Join(rest, sep);
      assert s[..|segs[0]|] == segs[0];
      assert s[|segs[0]| + |sep|..] == Join(rest, sep);
      PiecesOfJoin(rest, sep);
    }
  }

  /** String.split undoes Join when the last segment is not empty. */
  lemma SplitOfJoin(segs: seq<string>, sep: string)
    requires |segs| > 0 && |sep| > 0 && |segs[|segs| - 1]| > 0
    requires forall k :: 0 <= k < |segs| ==> FreeOf(segs[k], sep[0])
    ensures Split(Join(segs, sep), sep) == segs
  {
    PiecesOfJoin(segs, sep);
    if |segs| == 1 {
      FindNoneWhenFree(segs[0], sep);
    }
  }
}
