/** Line-oriented text: what `getline` reads, and numbers read back from digits. */
module Text {
  import opened Common

  predicate Free(s: string, c: char) { c !in s }

  /** The text before the first `c`, or all of it. */
  function Before(s: string, c: char): (r: string)
    ensures r <= s && Free(r, c) && (|r| < |s| ==> s[|r|] == c)
  {
    if s == [] || s[0] == c then [] else [s[0]] + Before(s[1..], c)
  }

  /** The lines of a file: a last line without a newline counts, an empty rest does not. */
  function Lines(f: string): seq<string>
    decreases |f|
  {
    if f == [] then []
    else
      var l := Before(f, '\n');
      if |l| == |f| then [l] else [l] + Lines(f[|l| + 1..])
  }

  lemma {:induction false} BeforeAt(a: string, c: char, rest: string)
    requires Free(a, c)
    ensures Before(a + [c] + rest, c) == a
  {
    var s := a + [c] + rest;
    if a != [] {
      assert s[1..] == a[1..] + [c] + rest;
      BeforeAt(a[1..], c, rest);
    }
  }

  lemma {:induction false} BeforeAll(a: string, c: char)
    requires Free(a, c)
    ensures Before(a, c) == a
  {
    if a != [] { BeforeAll(a[1..], c); }
  }

  lemma LinesCons(line: string, rest: string)
    requires Free(line, '\n')
    ensures Lines(line + "\n" + rest) == [line] + Lines(rest)
  {
    var f := line + "\n" + rest;
    BeforeAt(line, '\n', rest);
    assert f == line + ['\n'] + rest;
    assert f[|line| + 1..] == rest;
  }

  lemma LastLine(line: string)
    requires Free(line, '\n')
    ensures Lines(line) == if line == [] then [] else [line]
  {
    BeforeAll(line, '\n');
  }

  // ------------------------------------------------------------------------ numbers

  predicate IsDigit(c: char) { '0' <= c <= '9' }

  function DigitPrefix(s: string): (d: string)
    ensures d <= s && forall k :: 0 <= k < |d| ==> IsDigit(d[k])
  {
    if s == [] || !IsDigit(s[0]) then [] else [s[0]] + DigitPrefix(s[1..])
  }

  /** The number at the front of `s`, if there is one. */
  function LeadingNumber(s: string): Option<nat> {
    var d := DigitPrefix(s);
    if d == [] then None else Some(Value(d))
  }

  lemma {:induction false} DigitPrefixAll(s: string)
    requires forall k :: 0 <= k < |s| ==> IsDigit(s[k])
    ensures DigitPrefix(s) == s
  {
    if s != [] { DigitPrefixAll(s[1..]); }
  }

  lemma NumberReadsBack(n: nat)
    ensures LeadingNumber(Decimal(n)) == Some(n)
  {
    DigitPrefixAll(Decimal(n));
    ValueOfDecimal(n);
  }
}
