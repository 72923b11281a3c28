/** String handling used by the filters and the paste-text parser:
    JavaScript's whitespace class, `trim`, `split`, `includes`, and the
    prefix grammars of `parseInt` and `parseFloat`. */
module Text {
  import opened Base

  /** The characters JavaScript's `trim` removes and `\s` matches. */
  predicate IsSpace(c: char) {
    c == '\t' || c == '\n' || c == '\U{000B}' || c == '\U{000C}' || c == '\r' || c == ' '
    || c == '\U{00A0}' || c == '\U{1680}' || ('\U{2000}' <= c <= '\U{200A}')
    || c == '\U{2028}' || c == '\U{2029}' || c == '\U{202F}' || c == '\U{205F}'
    || c == '\U{3000}' || c == '\U{FEFF}'
  }

  /** `\d` in a JavaScript regular expression: ASCII digits only. */
  predicate IsDigit(c: char) { '0' <= c <= '9' }

  predicate AllDigits(s: string) {
    forall i :: 0 <= i < |s| ==> IsDigit(s[i])
  }

  function TrimStart(s: string): (r: string)
    ensures |r| <= |s| && r == s[|s| - |r|..]
    ensures r == [] || !IsSpace(r[0])
    ensures forall i :: 0 <= i < |s| - |r| ==> IsSpace(s[i])
    decreases |s|
  {
    if s != [] && IsSpace(s[0]) then
      var r := TrimStart(s[1..]);
      assert forall i :: 1 <= i < |s| - |r| ==> s[i] == s[1..][i - 1];
      r
    else s
  }

  function TrimEnd(s: string): (r: string)
    ensures |r| <= |s| && r == s[..|r|]
    ensures r == [] || !IsSpace(r[|r| - 1])
    ensures forall i :: |r| <= i < |s| ==> IsSpace(s[i])
    decreases |s|
  {
    if s != [] && IsSpace(s[|s| - 1]) then TrimEnd(s[..|s| - 1]) else s
  }

  /** `String.prototype.trim` */
  function Trim(s: string): (r: string)
    ensures r == [] || (!IsSpace(r[0]) && !IsSpace(r[|r| - 1]))
  {
    TrimEnd(TrimStart(s))
  }

  /** `s.split(sep)` for a one-character separator. */
  function Split(s: string, sep: char): (parts: seq<string>)
    ensures |parts| >= 1
    ensures forall i, j :: 0 <= i < |parts| && 0 <= j < |parts[i]| ==> parts[i][j] != sep
    decreases |s|
  {
    if s == [] then [[]]
    else
      var rest := Split(s[1..], sep);
      if s[0] == sep then [[]] + rest
      else [[s[0]] + rest[0]] + rest[1..]
  }

  function Join(parts: seq<string>, sep: char): string
    requires |parts| >= 1
    decreases |parts|
  {
    if |parts| == 1 then parts[0] else parts[0] + [sep] + Join(parts[1..], sep)
  }

  /** Splitting and re-joining on the same separator gives back the text. */
  lemma {:induction false} SplitJoin(s: string, sep: char)
    ensures Join(Split(s, sep), sep) == s
    decreases |s|
  {
    if s != [] {
      var rest := Split(s[1..], sep);
      SplitJoin(s[1..], sep);
      if s[0] == sep {
        assert Split(s, sep) == [[]] + rest;
        assert ([[]] + rest)[1..] == rest;
      } else {
        var parts := Split(s, sep);
        assert parts == [[s[0]] + rest[0]] + rest[1..];
        if |rest| == 1 {
          assert parts == [[s[0]] + rest[0]];
        } else {
          assert parts[1..] == rest[1..];
          assert Join(rest, sep) == rest[0] + [sep] + Join(rest[1..], sep);
        }
      }
    }
  }

  /** `s.split(/\t+/)`: runs of tabs separate the fields. */
  function SplitTabs(s: string): (parts: seq<string>)
    ensures |parts| >= 1
    ensures forall i, j :: 0 <= i < |parts| && 0 <= j < |parts[i]| ==> parts[i][j] != '\t'
    decreases |s|
  {
    if s == [] then [[]]
    else
      var rest := SplitTabs(s[1..]);
      if s[0] == '\t' then
        if |s| > 1 && s[1] == '\t' then rest else [[]] + rest
      else [[s[0]] + rest[0]] + rest[1..]
  }

  predicate OccursAt(s: string, sub: string, i: int) {
    0 <= i <= |s| - |sub| && s[i..i + |sub|] == sub
  }

  /** `s.includes(sub)` */
  ghost predicate Contains(s: string, sub: string) {
    exists i :: OccursAt(s, sub, i)
  }

  /** Executable search for `sub`, returning the first position. */
  function IndexOf(s: string, sub: string, from: nat): (r: Option<nat>)
    requires from <= |s|
    ensures r.Some? ==> from <= r.value && OccursAt(s, sub, r.value)
    ensures r.None? ==> forall i :: from <= i ==> !OccursAt(s, sub, i)
    decreases |s| - from
  {
    if |s| - from < |sub| then None
    else if s[from..from + |sub|] == sub then Some(from)
    else IndexOf(s, sub, from + 1)
  }

  function Includes(s: string, sub: string): (b: bool)
    ensures b <==> Contains(s, sub)
  {
    IndexOf(s, sub, 0).Some?
  }

  /** Length of the run of digits at the start of `s`. */
  function DigitRun(s: string): (n: nat)
    ensures n <= |s| && AllDigits(s[..n])
    ensures n < |s| ==> !IsDigit(s[n])
    decreases |s|
  {
    if s != [] && IsDigit(s[0]) then 1 + DigitRun(s[1..]) else 0
  }

  function DigitValue(c: char): nat
    requires IsDigit(c)
  {
    (c as int - '0' as int) as nat
  }

  function DigitsValue(s: string): nat
    requires AllDigits(s)
    decreases |s|
  {
    if s == [] then 0 else DigitsValue(s[..|s| - 1]) * 10 + DigitValue(s[|s| - 1])
  }

  /** `parseInt(s)` in base 10: leading whitespace, an optional sign and at
      least one digit; `None` stands for `NaN`. The `0x` prefix that
      switches JavaScript to base 16 is not read: `"0x4B0"` gives 0. */
  function ParseInt(s: string): (r: Option<int>)
    ensures r.Some? ==> exists i :: 0 <= i < |s| && IsDigit(s[i])
  {
    var t := TrimStart(s);
    var neg := t != [] && t[0] == '-';
    var u := if t != [] && (t[0] == '-' || t[0] == '+') then t[1..] else t;
    var n := DigitRun(u);
    if n == 0 then None
    else
      assert u[0] in s;
      var v := DigitsValue(u[..n]);
      Some(if neg then -(v as int) else v)
  }

  /** `parseInt` with `NaN` read as 0, the value the model substitutes for it. */
  function ParseIntOr0(s: string): int {
    ParseInt(s).GetOr(0)
  }

  function DigitChar(d: nat): (c: char)
    requires d < 10
    ensures IsDigit(c) && DigitValue(c) == d
  {
    ('0' as int + d) as char
  }

  /** Decimal rendering of a natural number, as `String(n)` does. */
  function NatToString(n: nat): (s: string)
    ensures |s| >= 1 && AllDigits(s)
    decreases n
  {
    if n < 10 then [DigitChar(n)] else NatToString(n / 10) + [DigitChar(n % 10)]
  }

  lemma {:induction false} NatToStringValue(n: nat)
    ensures DigitsValue(NatToString(n)) == n
    decreases n
  {
    if n >= 10 {
      NatToStringValue(n / 10);
      var s := NatToString(n);
      assert s[..|s| - 1] == NatToString(n / 10);
    }
  }

  lemma {:induction false} DigitRunAll(s: string)
    requires AllDigits(s)
    ensures DigitRun(s) == |s|
    decreases |s|
  {
    if s != [] {
      DigitRunAll(s[1..]);
    }
  }

  /** `parseInt(String(n)) === n`: a number written out by the form reads
      back as the same number, which is what the distance filter relies on. */
  lemma ParseIntNatToString(n: nat)
    ensures ParseInt(NatToString(n)) == Some(n)
  {
    var s := NatToString(n);
    assert !IsSpace(s[0]);
    assert TrimStart(s) == s;
    DigitRunAll(s);
    assert s[..|s|] == s;
    NatToStringValue(n);
  }

  /** Value of a digit string read as the digits after a decimal point. */
  function FractionValue(s: string): real
    requires AllDigits(s)
    decreases |s|
  {
    if s == [] then 0.0 else (DigitValue(s[0]) as real + FractionValue(s[1..])) / 10.0
  }

  /** `parseFloat(s)`: leading whitespace, an optional sign, digits with an
      optional fractional part. Exponents are not read (`"1e3"` gives 1), and
      neither is `Infinity`. `None` stands for `NaN`. */
  function ParseFloat(s: string): (r: Option<real>)
    ensures r.Some? ==> exists i :: 0 <= i < |s| && IsDigit(s[i])
  {
    var t := TrimStart(s);
    var neg := t != [] && t[0] == '-';
    var u := if t != [] && (t[0] == '-' || t[0] == '+') then t[1..] else t;
    var n := DigitRun(u);
    var whole := DigitsValue(u[..n]) as real;
    var hasPoint := n < |u| && u[n] == '.';
    var frac := if hasPoint then u[n + 1..] else [];
    var m := DigitRun(frac);
    if n == 0 && m == 0 then None
    else
      var v := whole + FractionValue(frac[..m]);
      assert n > 0 ==> u[0] in s;
      assert n == 0 ==> frac[0] in s;
      Some(if neg then -v else v)
  }

  function ParseFloatOr0(s: string): real {
    ParseFloat(s).GetOr(0.0)
  }

  // ---------------------------------------------------------------- rendering back

  predicate Free(s: string, c: char) {
    forall i :: 0 <= i < |s| ==> s[i] != c
  }

  /** A text with no whitespace at either end is left alone by `trim`. */
  lemma TrimIdentity(s: string)
    requires s == [] || (!IsSpace(s[0]) && !IsSpace(s[|s| - 1]))
    ensures Trim(s) == s
  {
  }

  lemma {:induction false} SplitSingle(a: string, sep: char)
    requires Free(a, sep)
    ensures Split(a, sep) == [a]
    decreases |a|
  {
    if a != [] {
      SplitSingle(a[1..], sep);
      assert a == [a[0]] + a[1..];
    }
  }

  lemma {:induction false} SplitPrefix(a: string, b: string, sep: char)
    requires Free(a, sep)
    ensures Split(a + [sep] + b, sep) == [a] + Split(b, sep)
    decreases |a|
  {
    if a == [] {
      assert a + [sep] + b == [sep] + b;
      assert ([sep] + b)[1..] == b;
    } else {
      SplitPrefix(a[1..], b, sep);
      assert (a + [sep] + b)[1..] == a[1..] + [sep] + b;
      assert a == [a[0]] + a[1..];
    }
  }

  /** Joining separator-free parts and splitting again gives the parts back. */
  lemma {:induction false} SplitAfterJoin(parts: seq<string>, sep: char)
    requires |parts| >= 1
    requires forall i :: 0 <= i < |parts| ==> Free(parts[i], sep)
    ensures Split(Join(parts, sep), sep) == parts
    decreases |parts|
  {
    if |parts| == 1 {
      SplitSingle(parts[0], sep);
    } else {
      SplitAfterJoin(parts[1..], sep);
      SplitPrefix(parts[0], Join(parts[1..], sep), sep);
      assert parts == [parts[0]] + parts[1..];
    }
  }

  lemma {:induction false} SplitTabsSingle(a: string)
    requires a != [] && Free(a, '\t')
    ensures SplitTabs(a) == [a]
    decreases |a|
  {
    assert a[0] != '\t';
    if |a| == 1 {
      assert a[1..] == [] && SplitTabs(a[1..]) == [[]];
      assert [a[0]] + SplitTabs(a[1..])[0] == a;
    } else {
      SplitTabsSingle(a[1..]);
      assert SplitTabs(a) == [[a[0]] + SplitTabs(a[1..])[0]] + SplitTabs(a[1..])[1..];
      assert [a[0]] + a[1..] == a;
    }
  }

  lemma {:induction false} SplitTabsPrefix(a: string, b: string)
    requires a != [] && Free(a, '\t')
    requires b != [] && b[0] != '\t'
    ensures SplitTabs(a + ['\t'] + b) == [a] + SplitTabs(b)
    decreases |a|
  {
    var s := a + ['\t'] + b;
    assert s[0] == a[0] != '\t';
    if |a| == 1 {
      var t := ['\t'] + b;
      assert s[1..] == t && t[1..] == b && t[1] == b[0];
      assert SplitTabs(t) == [[]] + SplitTabs(b);
      assert SplitTabs(s) == [[a[0]] + SplitTabs(t)[0]] + SplitTabs(t)[1..];
      assert [a[0]] + SplitTabs(t)[0] == a;
    } else {
      SplitTabsPrefix(a[1..], b);
      assert s[1..] == a[1..] + ['\t'] + b;
      assert a == [a[0]] + a[1..];
    }
  }

  /** Joining non-empty tab-free fields with tabs and splitting on runs of
      tabs gives the fields back. */
  lemma {:induction false} SplitTabsAfterJoin(fields: seq<string>)
    requires |fields| >= 1
    requires forall i :: 0 <= i < |fields| ==> fields[i] != [] && Free(fields[i], '\t')
    ensures SplitTabs(Join(fields, '\t')) == fields
    decreases |fields|
  {
    if |fields| == 1 {
      SplitTabsSingle(fields[0]);
    } else {
      SplitTabsAfterJoin(fields[1..]);
      var rest := Join(fields[1..], '\t');
      JoinStarts(fields[1..], '\t');
      SplitTabsPrefix(fields[0], rest);
      assert fields == [fields[0]] + fields[1..];
    }
  }

  lemma {:induction false} JoinStarts(parts: seq<string>, sep: char)
    requires |parts| >= 1 && parts[0] != []
    ensures Join(parts, sep) != [] && Join(parts, sep)[0] == parts[0][0]
  {
  }

  lemma {:induction false} DigitRunPrefix(a: string, b: string)
    requires AllDigits(a)
    requires b == [] || !IsDigit(b[0])
    ensures DigitRun(a + b) == |a|
    decreases |a|
  {
    if a != [] {
      DigitRunPrefix(a[1..], b);
      assert (a + b)[1..] == a[1..] + b;
    }
  }

  /** `parseFloat(String(n)) === n` for a natural number. */
  lemma ParseFloatNatToString(n: nat)
    ensures ParseFloat(NatToString(n)) == Some(n as real)
  {
    var s := NatToString(n);
    assert !IsSpace(s[0]);
    assert TrimStart(s) == s;
    DigitRunAll(s);
    assert s[..|s|] == s;
    NatToStringValue(n);
  }
}
