/** The string operations the handlers and the router are built from:
    `split`, `indexOf`/`replace` with a string pattern, `startsWith`, and
    `parseInt` with an optional sign, decimal digits or the `0x` prefix. */
module Strings {
  import opened Values

  /** `s.split(sep)`: the pieces between occurrences of `sep`, always at least one. */
  function Split(s: string, sep: char): (r: seq<string>)
    ensures |r| >= 1
    ensures forall i :: 0 <= i < |r| ==> sep !in r[i]
    decreases |s|
  {
    if |s| == 0 then [""]
    else
      var rest := Split(s[1..], sep);
      if s[0] == sep then [""] + rest
      else [[s[0]] + rest[0]] + rest[1..]
  }

  /** `pieces.join(sep)`. */
  function Join(pieces: seq<string>, sep: char): string
    decreases |pieces|
  {
    if |pieces| == 0 then ""
    else if |pieces| == 1 then pieces[0]
    else pieces[0] + [sep] + Join(pieces[1..], sep)
  }

  /** Splitting loses nothing: joining the pieces back gives the original string. */
  lemma {:induction false} JoinSplit(s: string, sep: char)
    ensures Join(Split(s, sep), sep) == s
    decreases |s|
  {
    if |s| > 0 {
      var rest := Split(s[1..], sep);
      JoinSplit(s[1..], sep);
      if s[0] == sep {
        assert ([""] + rest)[1..] == rest;
      } else {
        var r := [[s[0]] + rest[0]] + rest[1..];
        assert r[1..] == rest[1..];
        if |rest| == 1 {
          assert rest == [rest[0]];
        } else {
          assert Join(rest, sep) == rest[0] + [sep] + Join(rest[1..], sep);
        }
        assert s == [s[0]] + s[1..];
      }
    }
  }

  /** A leading run free of `sep` becomes a prefix of the first piece. */
  lemma {:induction false} SplitPrefix(p: string, t: string, sep: char)
    requires sep !in p
    ensures Split(p + t, sep) == [p + Split(t, sep)[0]] + Split(t, sep)[1..]
    decreases |p|
  {
    if |p| > 0 {
      assert (p + t)[0] == p[0];
      assert (p + t)[1..] == p[1..] + t;
      SplitPrefix(p[1..], t, sep);
      assert [p[0]] + (p[1..] + Split(t, sep)[0]) == p + Split(t, sep)[0];
    } else {
      var r := Split(t, sep);
      assert p + t == t && p + r[0] == r[0];
      assert r == [r[0]] + r[1..];
    }
  }

  /** A string without `sep` is its own only piece. */
  lemma SplitNoSeparator(s: string, sep: char)
    requires sep !in s
    ensures Split(s, sep) == [s]
  {
    SplitPrefix(s, "", sep);
    assert s + "" == s;
  }

  /** Splitting undoes joining, as long as no piece contains the separator. */
  lemma {:induction false} SplitJoin(pieces: seq<string>, sep: char)
    requires |pieces| >= 1
    requires forall i :: 0 <= i < |pieces| ==> sep !in pieces[i]
    ensures Split(Join(pieces, sep), sep) == pieces
    decreases |pieces|
  {
    if |pieces| == 1 {
      SplitNoSeparator(pieces[0], sep);
    } else {
      var tail := Join(pieces[1..], sep);
      SplitJoin(pieces[1..], sep);
      assert pieces[0] + [sep] + tail == pieces[0] + ([sep] + tail);
      SplitPrefix(pieces[0], [sep] + tail, sep);
      assert ([sep] + tail)[1..] == tail;
      assert pieces[0] + "" == pieces[0];
      assert pieces == [pieces[0]] + pieces[1..];
    }
  }

  /** `s.startsWith(p)`. */
  predicate StartsWith(s: string, p: string): (b: bool)
    ensures b <==> |p| <= |s| && forall i :: 0 <= i < |p| ==> s[i] == p[i]
  {
    |p| <= |s| && s[..|p|] == p
  }

  /** `pat` occurs in `s` starting at index `i`. */
  predicate OccursAt(s: string, pat: string, i: int) {
    0 <= i && i + |pat| <= |s| && s[i..i + |pat|] == pat
  }

  function IndexOfFrom(s: string, pat: string, from: nat): (r: int)
    requires from <= |s|
    ensures r == -1 || (from <= r && OccursAt(s, pat, r))
    ensures forall j :: from <= j && (r == -1 || j < r) ==> !OccursAt(s, pat, j)
    decreases |s| - from
  {
    if from + |pat| > |s| then -1
    else if s[from..from + |pat|] == pat then from
    else IndexOfFrom(s, pat, from + 1)
  }

  /** `s.indexOf(pat)`: where the first occurrence starts, or -1. */
  function IndexOf(s: string, pat: string): (r: int)
    ensures r == -1 || OccursAt(s, pat, r)
    ensures forall j :: 0 <= j && (r == -1 || j < r) ==> !OccursAt(s, pat, j)
  {
    IndexOfFrom(s, pat, 0)
  }

  /** `s.replace(pat, rep)` with a string pattern: only the first occurrence is replaced. */
  function ReplaceFirst(s: string, pat: string, rep: string): (r: string)
    ensures IndexOf(s, pat) < 0 ==> r == s
    ensures var i := IndexOf(s, pat);
      0 <= i ==> |r| == |s| - |pat| + |rep| && r[..i] == s[..i] && r[i..i + |rep|] == rep && r[i + |rep|..] == s[i + |pat|..]
  {
    var i := IndexOf(s, pat);
    if i < 0 then s else s[..i] + rep + s[i + |pat|..]
  }

  /** Replacing at the very front: `(pat + t).replace(pat, rep)` is `rep + t`. */
  lemma ReplaceFirstAtFront(pat: string, t: string, rep: string)
    ensures ReplaceFirst(pat + t, pat, rep) == rep + t
  {
    assert OccursAt(pat + t, pat, 0) by { assert (pat + t)[0..|pat|] == pat; }
    assert (pat + t)[..0] == [];
    assert (pat + t)[|pat|..] == t;
  }

  /** The decimal digits `0`-`9` (what a regular expression's `\d` matches). */
  predicate IsDigit(c: char) {
    '0' <= c <= '9'
  }

  predicate AllDigits(s: string) {
    forall i :: 0 <= i < |s| ==> IsDigit(s[i])
  }

  /** The longest prefix of `s` made of digits. */
  function LeadingDigits(s: string): (r: string)
    ensures r <= s
    ensures AllDigits(r)
    ensures |r| < |s| ==> !IsDigit(s[|r|])
  {
    if |s| == 0 || !IsDigit(s[0]) then "" else [s[0]] + LeadingDigits(s[1..])
  }

  /** The number a string of digits denotes. */
  function DigitsValue(d: string): nat
    requires AllDigits(d)
    decreases |d|
  {
    if |d| == 0 then 0
    else DigitsValue(d[..|d| - 1]) * 10 + (d[|d| - 1] as int - '0' as int)
  }

  /** The hexadecimal digits `0`-`9`, `a`-`f`, `A`-`F`. */
  predicate IsHexDigit(c: char) {
    IsDigit(c) || 'a' <= c <= 'f' || 'A' <= c <= 'F'
  }

  predicate AllHexDigits(s: string) {
    forall i :: 0 <= i < |s| ==> IsHexDigit(s[i])
  }

  /** The longest prefix of `s` made of hexadecimal digits. */
  function LeadingHexDigits(s: string): (r: string)
    ensures r <= s
    ensures AllHexDigits(r)
    ensures |r| < |s| ==> !IsHexDigit(s[|r|])
  {
    if |s| == 0 || !IsHexDigit(s[0]) then "" else [s[0]] + LeadingHexDigits(s[1..])
  }

  function HexDigitValue(c: char): (k: nat)
    requires IsHexDigit(c)
    ensures k < 16
    ensures IsDigit(c) ==> k == c as int - '0' as int
  {
    if IsDigit(c) then c as int - '0' as int
    else if 'a' <= c <= 'f' then c as int - 'a' as int + 10
    else c as int - 'A' as int + 10
  }

  /** The number a string of hexadecimal digits denotes. */
  function HexValue(h: string): nat
    requires AllHexDigits(h)
    decreases |h|
  {
    if |h| == 0 then 0
    else HexValue(h[..|h| - 1]) * 16 + HexDigitValue(h[|h| - 1])
  }

  /** `parseInt` drops one leading `+` or `-` before it reads digits. */
  predicate Negated(s: string) {
    |s| > 0 && s[0] == '-'
  }

  function Unsigned(s: string): string {
    if |s| > 0 && (s[0] == '+' || s[0] == '-') then s[1..] else s
  }

  /** Without a radix argument, `0x` or `0X` selects hexadecimal. */
  predicate HasHexPrefix(u: string) {
    |u| >= 2 && u[0] == '0' && (u[1] == 'x' || u[1] == 'X')
  }

  /** The text begins with a digit of the radix `parseInt` chooses for it. */
  predicate StartsNumber(u: string) {
    if HasHexPrefix(u) then |u| > 2 && IsHexDigit(u[2]) else |u| > 0 && IsDigit(u[0])
  }

  /** The unsigned value `parseInt` reads: the leading hexadecimal digits after a
      `0x` prefix, otherwise the leading decimal digits; `None` when there are none. */
  function Magnitude(u: string): (r: Option<nat>)
    ensures r.Some? <==> StartsNumber(u)
  {
    if HasHexPrefix(u) then
      var h := LeadingHexDigits(u[2..]);
      if |h| == 0 then None else Some(HexValue(h))
    else
      var d := LeadingDigits(u);
      if |d| == 0 then None else Some(DigitsValue(d))
  }

  /** `parseInt(s)` without a radix, on a path segment: an optional sign, then a
      hexadecimal number after `0x`/`0X` or a decimal one; `None` stands for the
      NaN it gives when no digit of the chosen radix follows. */
  function ParseInt(s: string): (r: Option<int>)
    ensures r.Some? <==> StartsNumber(Unsigned(s))
    ensures (|s| == 0 || !(IsDigit(s[0]) || s[0] == '+' || s[0] == '-')) ==> r.None?
    ensures r.Some? && !Negated(s) ==> 0 <= r.value
    ensures r.Some? && Negated(s) ==> r.value <= 0
  {
    var m := Magnitude(Unsigned(s));
    if m.None? then None
    else if Negated(s) then Some(0 - m.value as int)
    else Some(m.value as int)
  }

  /** Without a radix `parseInt` also reads a sign and a hexadecimal prefix. */
  lemma ParseIntExamples()
    ensures ParseInt("0x1") == Some(1)
    ensures ParseInt("0X1f") == Some(31)
    ensures ParseInt("0x") == None
    ensures ParseInt("0xg") == None
    ensures ParseInt("+7") == Some(7)
    ensures ParseInt("-7") == Some(-7)
    ensures ParseInt("12ab") == Some(12)
    ensures ParseInt("ab") == None
  {
    assert LeadingHexDigits("1") == "1";
    assert LeadingHexDigits("1f") == "1f";
    assert LeadingDigits("7") == "7";
    assert LeadingDigits("12ab") == "12";
  }

  function DigitChar(k: nat): (c: char)
    requires k < 10
    ensures IsDigit(c)
  {
    ('0' as int + k) as char
  }

  /** The decimal spelling of `n`, as `String(n)` writes it. */
  function DecimalString(n: nat): (r: string)
    ensures |r| >= 1 && AllDigits(r)
  {
    if n < 10 then [DigitChar(n)] else DecimalString(n / 10) + [DigitChar(n % 10)]
  }

  lemma {:induction false} DecimalValue(n: nat)
    ensures DigitsValue(DecimalString(n)) == n
  {
    if n >= 10 {
      var d := DecimalString(n);
      assert d[..|d| - 1] == DecimalString(n / 10);
      DecimalValue(n / 10);
    }
  }

  /** A run of digits followed by a non-digit is exactly the leading digits. */
  lemma {:induction false} LeadingDigitsOf(d: string, tail: string)
    requires AllDigits(d)
    requires tail == [] || !IsDigit(tail[0])
    ensures LeadingDigits(d + tail) == d
    decreases |d|
  {
    if |d| == 0 {
      assert d + tail == tail;
    } else {
      assert (d + tail)[1..] == d[1..] + tail;
      LeadingDigitsOf(d[1..], tail);
      assert d == [d[0]] + d[1..];
    }
  }

  /** The decimal spelling of `n` starts with `0` only for `n == 0`. */
  lemma {:induction false} DecimalStringLead(n: nat)
    ensures DecimalString(n)[0] == '0' <==> n == 0
  {
    if n >= 10 {
      DecimalStringLead(n / 10);
      assert DecimalString(n)[0] == DecimalString(n / 10)[0];
    }
  }

  /** `parseInt` reads back a number written in decimal, whatever text follows
      that neither continues the digits nor turns a lone `0` into a `0x` prefix. */
  lemma ParseIntDecimal(n: nat, tail: string)
    requires tail == [] || !IsDigit(tail[0])
    requires n != 0 || tail == [] || (tail[0] != 'x' && tail[0] != 'X')
    ensures ParseInt(DecimalString(n) + tail) == Some(n)
  {
    var s := DecimalString(n) + tail;
    assert s[0] == DecimalString(n)[0];
    assert Unsigned(s) == s;
    DecimalStringLead(n);
    if n == 0 && tail != [] {
      assert s[1] == tail[0];
    }
    assert !HasHexPrefix(s);
    LeadingDigitsOf(DecimalString(n), tail);
    DecimalValue(n);
  }
}
