/** The pieces of Python's string handling that the bridge relies on when it
    builds request headers: `sep.join(parts)` for the Tags header and `str(n)`
    for the Priority header, each with the reading it can be undone by
    (`s.split(sep)` and `int(s)`). */
module Text {

  import opened Wrappers

  // ---------------------------------------------------------------------------
  // Joining and splitting

  /** Python's `sep.join(parts)` for a one-character separator. */
  function Join(parts: seq<string>, sep: char): string
  {
    if |parts| == 0 then ""
    else if |parts| == 1 then parts[0]
    else parts[0] + [sep] + Join(parts[1..], sep)
  }

  /** Python's `s.split(sep)` for a one-character separator: the pieces between
      separators, so always at least one piece (`"".split(",") == [""]`). */
  function Split(s: string, sep: char): (r: seq<string>)
    ensures |r| >= 1
    decreases |s|
  {
    if |s| == 0 then [""]
    else if s[0] == sep then [""] + Split(s[1..], sep)
    else
      var rest := Split(s[1..], sep);
      [[s[0]] + rest[0]] + rest[1..]
  }

  /** Sum of the lengths of `parts`. */
  function TotalLength(parts: seq<string>): nat
  {
    if |parts| == 0 then 0 else |parts[0]| + TotalLength(parts[1..])
  }

  /** Splitting `t + u` where `t` holds no separator glues `t` to the first
      piece of `u` and leaves the other pieces alone. */
  lemma {:induction false} SplitPrefix(t: string, u: string, sep: char)
    requires sep !in t
    ensures Split(t + u, sep) == [t + Split(u, sep)[0]] + Split(u, sep)[1..]
    decreases |t|
  {
    if |t| > 0 {
      assert (t + u)[0] == t[0];
      assert (t + u)[1..] == t[1..] + u;
      SplitPrefix(t[1..], u, sep);
      assert [t[0]] + (t[1..] + Split(u, sep)[0]) == t + Split(u, sep)[0];
    } else {
      var r := Split(u, sep);
      assert t + u == u && t + r[0] == r[0];
      assert [r[0]] + r[1..] == r;
    }
  }

  /** Splitting a joined list of separator-free, non-empty lists gives the list
      back: the join keeps every part, in order, and adds no trailing separator. */
  lemma {:induction false} SplitJoin(parts: seq<string>, sep: char)
    requires |parts| >= 1
    requires forall i :: 0 <= i < |parts| ==> sep !in parts[i]
    ensures Split(Join(parts, sep), sep) == parts
    decreases |parts|
  {
    if |parts| == 1 {
      SplitPrefix(parts[0], "", sep);
      assert parts[0] + "" == parts[0];
    } else {
      var rest := Join(parts[1..], sep);
      assert Join(parts, sep) == parts[0] + ([sep] + rest);
      SplitPrefix(parts[0], [sep] + rest, sep);
      assert ([sep] + rest)[1..] == rest;
      SplitJoin(parts[1..], sep);
      assert Split([sep] + rest, sep) == [""] + parts[1..];
      assert parts[0] + "" == parts[0];
      assert [parts[0]] + parts[1..] == parts;
    }
  }

  /** The joined text is exactly as long as its parts plus one separator
      between each pair of neighbours. */
  lemma {:induction false} JoinLength(parts: seq<string>, sep: char)
    requires |parts| >= 1
    ensures |Join(parts, sep)| == TotalLength(parts) + |parts| - 1
    decreases |parts|
  {
    if |parts| > 1 {
      JoinLength(parts[1..], sep);
    } else {
      assert parts[1..] == [];
    }
  }

  /** No trailing separator: the joined text ends with the last part. */
  lemma {:induction false} JoinEndsWithLast(parts: seq<string>, sep: char)
    requires |parts| >= 1
    ensures var j := Join(parts, sep);
            var last := parts[|parts| - 1];
            |last| <= |j| && j[|j| - |last|..] == last
    decreases |parts|
  {
    if |parts| > 1 {
      JoinEndsWithLast(parts[1..], sep);
      var rest := Join(parts[1..], sep);
      var last := parts[|parts| - 1];
      assert parts[1..][|parts[1..]| - 1] == last;
      var j := parts[0] + [sep] + rest;
      assert j[|j| - |last|..] == rest[|rest| - |last|..];
    }
  }

  // ---------------------------------------------------------------------------
  // Decimal text of integers

  predicate IsDigit(c: char)
  {
    '0' <= c <= '9'
  }

  predicate AllDigits(s: string)
  {
    forall i :: 0 <= i < |s| ==> IsDigit(s[i])
  }

  function DigitChar(d: nat): (c: char)
    requires d < 10
    ensures IsDigit(c)
  {
    (('0' as int) + d) as char
  }

  function DigitValue(c: char): nat
    requires IsDigit(c)
  {
    (c as int) - ('0' as int)
  }

  /** Python's `str(n)` for `n >= 0`: shortest decimal digits, most
      significant first. */
  function NatToDecimal(n: nat): (s: string)
    ensures |s| >= 1 && AllDigits(s)
    ensures s[0] == '0' ==> n == 0
    decreases n
  {
    if n < 10 then [DigitChar(n)] else NatToDecimal(n / 10) + [DigitChar(n % 10)]
  }

  /** The value of a string of decimal digits. */
  function DecimalToNat(s: string): nat
    requires AllDigits(s)
  {
    if |s| == 0 then 0 else DecimalToNat(s[..|s| - 1]) * 10 + DigitValue(s[|s| - 1])
  }

  lemma {:induction false} DecimalRoundTrip(n: nat)
    ensures DecimalToNat(NatToDecimal(n)) == n
    decreases n
  {
    if n >= 10 {
      var s := NatToDecimal(n);
      assert s[..|s| - 1] == NatToDecimal(n / 10);
      DecimalRoundTrip(n / 10);
    }
  }

  /** Python's `str(n)` for any integer: a leading `-` for negative values. */
  function IntToText(n: int): string
  {
    if n < 0 then "-" + NatToDecimal(-n) else NatToDecimal(n)
  }

  /** Python's `int(s)` restricted to what `str` produces: an optional `-`
      followed by one or more digits; anything else is not a number. */
  function ParseInt(s: string): Option<int>
  {
    if |s| >= 2 && s[0] == '-' && AllDigits(s[1..]) then
      var magnitude: int := DecimalToNat(s[1..]);
      Some(-magnitude)
    else if |s| >= 1 && AllDigits(s) then Some(DecimalToNat(s))
    else None
  }

  /** `str` of an integer reads back as that integer. */
  lemma IntTextRoundTrip(n: int)
    ensures ParseInt(IntToText(n)) == Some(n)
  {
    if n < 0 {
      var s := IntToText(n);
      assert s[1..] == NatToDecimal(-n);
      DecimalRoundTrip(-n);
    } else {
      DecimalRoundTrip(n);
    }
  }
}
