/** The two checks Python's `logging.basicConfig` makes on the settings the
    bridge hands it. The `%`-style format string must hold at least one
    `%(name)` field with a valid conversion; an empty one stands for the
    default format. A level given as text must be one of the standard level
    names. */
module StdLogging {

  import opened Wrappers
  import opened Text

  // ---------------------------------------------------------------------------
  // Level names

  /** The names `logging` knows a level by (its `_nameToLevel` table). */
  const LevelNames: set<string> := {"CRITICAL", "FATAL", "ERROR", "WARN", "WARNING", "INFO", "DEBUG", "NOTSET"}

  /** `basicConfig(level=...)` skips `None` and calls `setLevel` otherwise,
      which raises for any text that is not a standard level name. */
  predicate LevelAccepted(level: Option<string>)
  {
    level.None? || level.value in LevelNames
  }

  // ---------------------------------------------------------------------------
  // Format strings

  /** What `%`-style formatting uses when the format string is empty. */
  const DefaultFormat := "%(message)s"

  /** `\w` in the field-name part of the validation pattern. */
  predicate IsWordChar(c: char)
  {
    'a' <= c <= 'z' || 'A' <= c <= 'Z' || '0' <= c <= '9' || c == '_'
  }

  /** `[#0+ -]`: the conversion flags. */
  predicate IsFlagChar(c: char)
  {
    c == '#' || c == '0' || c == '+' || c == ' ' || c == '-'
  }

  /** Every character that may stand between the `)` of a field and its
      conversion character: flags, width and precision. */
  predicate IsSpecChar(c: char)
  {
    IsFlagChar(c) || IsDigit(c) || c == '*' || c == '.'
  }

  /** `[diouxefgcrsa%]`, matched without regard to case. */
  predicate IsConversionChar(c: char)
  {
    var l := if 'A' <= c <= 'Z' then ((c as int) + 32) as char else c;
    l == 'd' || l == 'i' || l == 'o' || l == 'u' || l == 'x' || l == 'e' || l == 'f' ||
    l == 'g' || l == 'c' || l == 'r' || l == 's' || l == 'a' || l == '%'
  }

  /** The character classes the validation pattern is built from. */
  datatype CharClass = Word | Flag | Digit | Spec

  predicate InClass(c: char, k: CharClass)
  {
    match k
    case Word => IsWordChar(c)
    case Flag => IsFlagChar(c)
    case Digit => IsDigit(c)
    case Spec => IsSpecChar(c)
  }

  /** Length of the longest prefix of `s` whose characters are all in class `k`. */
  function Run(s: string, k: CharClass): (n: nat)
    ensures n <= |s|
    ensures forall i {:trigger InClass(s[i], k)} :: 0 <= i < n ==> InClass(s[i], k)
    ensures n < |s| ==> !InClass(s[n], k)
  {
    if |s| == 0 || !InClass(s[0], k) then 0 else 1 + Run(s[1..], k)
  }

  /** A prefix made only of characters in class `k` is part of the run. */
  lemma {:induction false} RunAppend(a: string, b: string, k: CharClass)
    requires forall i :: 0 <= i < |a| ==> InClass(a[i], k)
    ensures Run(a + b, k) == |a| + Run(b, k)
    decreases |a|
  {
    if |a| > 0 {
      assert (a + b)[1..] == a[1..] + b;
      RunAppend(a[1..], b, k);
    } else {
      assert a + b == b;
    }
  }

  /** Whether the text between a field's `)` and its conversion character fits
      `[#0+ -]*(\*|\d+)?(\.(\*|\d+))?`. Taking the flags greedily loses no
      match: the only flag that is also a digit is `0`, and zeros moved from
      the width into the flags leave a width that still fits. */
  predicate SpecFits(u: string)
  {
    var v := u[Run(u, Flag)..];
    var w := if |v| > 0 && v[0] == '*' then 1 else Run(v, Digit);
    var r := v[w..];
    r == "" || (r[0] == '.' && (r[1..] == "*" || (|r| >= 2 && Run(r[1..], Digit) == |r| - 1)))
  }

  /** The validation pattern `%\(\w+\)[#0+ -]*(\*|\d+)?(\.(\*|\d+))?[diouxefgcrsa%]`
      matches `s` at index `i`. The name and the text after `)` are maximal
      runs because `)` is no word character and no conversion character is a
      flag, digit, `*` or `.`. */
  predicate FieldAt(s: string, i: nat)
  {
    i + 2 <= |s| && s[i] == '%' && s[i + 1] == '(' &&
    var j := NameEnd(s, i);
    j > i + 2 && j < |s| && s[j] == ')' &&
    var k := SpecEnd(s, j);
    k < |s| && SpecFits(s[j + 1..k]) && IsConversionChar(s[k])
  }

  /** Where the field name that starts at `i + 2` ends. */
  function NameEnd(s: string, i: nat): nat
    requires i + 2 <= |s|
  {
    i + 2 + Run(s[i + 2..], Word)
  }

  /** Where the flags, width and precision after the `)` at `j` end. */
  function SpecEnd(s: string, j: nat): nat
    requires j < |s|
  {
    j + 1 + Run(s[j + 1..], Spec)
  }

  /** `Formatter(fmt)` with `%` style does not raise: the pattern is found
      somewhere in the format string, or in the default format when `fmt` is
      empty. */
  predicate FormatAccepted(fmt: string)
  {
    var f := if fmt == "" then DefaultFormat else fmt;
    exists i :: 0 <= i < |f| && FieldAt(f, i)
  }

  /** The pieces of a match, each checked on its own, make a match. */
  lemma FieldAtFromParts(s: string, i: nat, j: nat, k: nat, spec: string, conv: char)
    requires i + 2 < j < k < |s|
    requires s[i] == '%' && s[i + 1] == '(' && NameEnd(s, i) == j && s[j] == ')'
    requires SpecEnd(s, j) == k && s[j + 1..k] == spec && s[k] == conv
    requires SpecFits(spec) && IsConversionChar(conv)
    ensures FieldAt(s, i)
  {
    assert s[NameEnd(s, i) + 1..SpecEnd(s, NameEnd(s, i))] == spec;
    assert s[SpecEnd(s, NameEnd(s, i))] == conv;
  }

  /** A run of class `k` over `a` stops at `b` when `b` starts outside `k`. */
  lemma RunStops(a: string, b: string, k: CharClass)
    requires forall i :: 0 <= i < |a| ==> InClass(a[i], k)
    requires |b| >= 1 && !InClass(b[0], k)
    ensures Run(a + b, k) == |a|
  {
    RunAppend(a, b, k);
  }

  /** The name and the flags, width and precision of a field written out
      as `%(name)spec` + `conv` end where their texts end. */
  lemma FieldRuns(pre: string, name: string, spec: string, conv: char, post: string)
    requires forall i :: 0 <= i < |name| ==> InClass(name[i], Word)
    requires forall i :: 0 <= i < |spec| ==> InClass(spec[i], Spec)
    requires IsConversionChar(conv)
    ensures var s := pre + ("%(" + (name + (")" + (spec + ([conv] + post)))));
            var j := |pre| + 2 + |name|;
            j < |s| && NameEnd(s, |pre|) == j && SpecEnd(s, j) == j + 1 + |spec|
  {
    var tail := [conv] + post;
    var afterName := ")" + (spec + tail);
    var s := pre + ("%(" + (name + afterName));
    var i := |pre|;
    var j := i + 2 + |name|;
    assert NameEnd(s, i) == j by {
      assert s[i + 2..] == name + afterName;
      RunStops(name, afterName, Word);
    }
    assert s[j + 1..] == spec + tail;
    RunStops(spec, tail, Spec);
  }

  /** The characters of a field written out as `%(name)spec` + `conv`. */
  lemma FieldChars(pre: string, name: string, spec: string, conv: char, post: string)
    ensures var s := pre + ("%(" + (name + (")" + (spec + ([conv] + post)))));
            var i := |pre|;
            var j := i + 2 + |name|;
            var k := j + 1 + |spec|;
            k < |s| && s[i] == '%' && s[i + 1] == '(' && s[j] == ')' && s[j + 1..k] == spec && s[k] == conv
  {
    var s := pre + ("%(" + (name + (")" + (spec + ([conv] + post)))));
    var j := |pre| + 2 + |name|;
    assert s[j + 1..] == spec + ([conv] + post);
    assert s[j + 1..j + 1 + |spec|] == spec;
  }

  /** A field `%(name)` with flags, width and precision `spec` and
      conversion `conv` matches where it starts, whatever surrounds it. */
  lemma FieldAtStart(pre: string, name: string, spec: string, conv: char, post: string)
    requires |name| >= 1 && forall i :: 0 <= i < |name| ==> InClass(name[i], Word)
    requires (forall i :: 0 <= i < |spec| ==> InClass(spec[i], Spec)) && SpecFits(spec)
    requires IsConversionChar(conv)
    ensures FieldAt(pre + ("%(" + (name + (")" + (spec + ([conv] + post))))), |pre|)
  {
    var s := pre + ("%(" + (name + (")" + (spec + ([conv] + post)))));
    var i := |pre|;
    var j := i + 2 + |name|;
    var k := j + 1 + |spec|;
    FieldRuns(pre, name, spec, conv, post);
    FieldChars(pre, name, spec, conv, post);
    FieldAtFromParts(s, i, j, k, spec, conv);
  }

  /** Any text holding one field `%(name)c`, with a non-empty name of word
      characters and a conversion character, is accepted, whatever surrounds
      the field. */
  lemma FieldFormatAccepted(pre: string, name: string, conv: char, post: string)
    requires |name| >= 1 && forall i :: 0 <= i < |name| ==> InClass(name[i], Word)
    requires IsConversionChar(conv)
    ensures FormatAccepted(pre + ("%(" + (name + (")" + ([conv] + post)))))
  {
    assert "" + ([conv] + post) == [conv] + post;
    FieldAtStart(pre, name, "", conv, post);
  }

  /** An empty format string is accepted: it stands for the default one. */
  lemma EmptyFormatAccepted()
    ensures FormatAccepted("")
  {
    FieldFormatAccepted("", "message", 's', "");
    assert "" + ("%(" + ("message" + (")" + (['s'] + "")))) == DefaultFormat;
  }

  /** A non-empty format string without any `%` is rejected. */
  lemma NoPercentRejected(fmt: string)
    requires fmt != "" && forall i :: 0 <= i < |fmt| ==> fmt[i] != '%'
    ensures !FormatAccepted(fmt)
  {
    assert forall i :: 0 <= i < |fmt| ==> !FieldAt(fmt, i);
  }

  /** `-8`: a flag and a width. */
  lemma PaddedSpecFits()
    ensures SpecFits("-8")
  {
    assert Run("-8", Flag) == 1 && "-8"[1..] == "8" && Run("8", Digit) == 1;
  }

  /** `#05.3`: two flags, a width and a precision. */
  lemma PrecisionSpecFits()
    ensures SpecFits("#05.3")
  {
    var u := "#05.3";
    assert Run(".3", Flag) == 0 && Run("5.3", Flag) == 0;
    assert Run("05.3", Flag) == 1 && Run(u, Flag) == 2;
    assert u[2..] == "5.3" && Run(".3", Digit) == 0 && Run("5.3", Digit) == 1;
    assert "5.3"[1..] == ".3" && ".3"[1..] == "3";
  }

  /** A precision needs digits or `*` after its `.`: `%(x)5.s` is rejected
      at that field. */
  lemma BarePrecisionMisfits()
    ensures !SpecFits("5.")
  {
    assert Run("5.", Flag) == 0 && Run(".", Digit) == 0 && Run("5.", Digit) == 1;
    assert "5."[1..] == "." && "."[1..] == "";
  }

  /** A format string with no field at all, such as `plain`, is rejected. */
  lemma PlainFormatRejected()
    ensures !FormatAccepted("plain")
  {
    NoPercentRejected("plain");
  }
}
