/**
 * The string operations the pipeline relies on, with the Python semantics it uses:
 * `str.split` on one character, `str.join`, decimal formatting of an index in an
 * f-string, `str.replace(old, '')`, `str.rsplit(".nii")[0]`, the last component of a
 * path, and `os.path.abspath` of a relative name.
 */
module Text {

  /** Concatenation regrouped; stated once so that proofs about appended output need not rediscover it. */
  lemma AppendAssoc<T>(a: seq<T>, b: seq<T>, c: seq<T>)
    ensures (a + b) + c == a + (b + c)
  {
  }

  /** Number of occurrences of `c` in `s`. */
  function CountChar(s: string, c: char): (n: nat)
    ensures n <= |s|
    ensures n == 0 <==> c !in s
    decreases |s|
  {
    if s == [] then 0 else (if s[0] == c then 1 else 0) + CountChar(s[1..], c)
  }

  lemma {:induction false} CountCharAppend(a: string, b: string, c: char)
    ensures CountChar(a + b, c) == CountChar(a, c) + CountChar(b, c)
    decreases |a|
  {
    if a != [] {
      assert (a + b)[1..] == a[1..] + b;
      CountCharAppend(a[1..], b, c);
    } else {
      assert a + b == b;
    }
  }

  // ---------------------------------------------------------------------------
  // str.split(sep) and sep.join(parts) for a one-character separator

  /** Python's `s.split(sep)`: the pieces between consecutive separators, always at least one. */
  function Split(s: string, sep: char): (parts: seq<string>)
    ensures |parts| == CountChar(s, sep) + 1
    ensures forall k :: 0 <= k < |parts| ==> sep !in parts[k]
    decreases |s|
  {
    if s == [] then [""]
    else
      var rest := Split(s[1..], sep);
      if s[0] == sep then [""] + rest
      else [[s[0]] + rest[0]] + rest[1..]
  }

  /** Python's `sep.join(parts)`. */
  function Join(parts: seq<string>, sep: char): string
    decreases |parts|
  {
    if parts == [] then ""
    else if |parts| == 1 then parts[0]
    else parts[0] + [sep] + Join(parts[1..], sep)
  }

  /** Joining the pieces of a split gives back the original string. */
  lemma {:induction false} JoinSplit(s: string, sep: char)
    ensures Join(Split(s, sep), sep) == s
    decreases |s|
  {
    if s != [] {
      var rest := Split(s[1..], sep);
      JoinSplit(s[1..], sep);
      var parts := Split(s, sep);
      if s[0] == sep {
        assert parts == [""] + rest;
        assert parts[1..] == rest;
        assert Join(parts, sep) == "" + [sep] + Join(rest, sep);
      } else {
        assert parts == [[s[0]] + rest[0]] + rest[1..];
        if |rest| == 1 {
          assert Join(parts, sep) == [s[0]] + rest[0];
          assert Join(rest, sep) == rest[0];
        } else {
          assert parts[1..] == rest[1..];
          assert Join(parts, sep) == [s[0]] + rest[0] + [sep] + Join(rest[1..], sep);
          assert Join(rest, sep) == rest[0] + [sep] + Join(rest[1..], sep);
          AppendAssoc([s[0]], rest[0] + [sep], Join(rest[1..], sep));
          AppendAssoc([s[0]], rest[0], [sep]);
        }
      }
      assert s == [s[0]] + s[1..];
    }
  }

  /** A string without the separator splits into itself alone. */
  lemma {:induction false} SplitWithout(a: string, sep: char)
    requires sep !in a
    ensures Split(a, sep) == [a]
    decreases |a|
  {
    if a != [] {
      assert sep !in a[1..];
      SplitWithout(a[1..], sep);
      assert a == [a[0]] + a[1..];
    }
  }

  /** The separator after a separator-free prefix closes the first piece. */
  lemma {:induction false} SplitAfter(a: string, b: string, sep: char)
    requires sep !in a
    ensures Split(a + [sep] + b, sep) == [a] + Split(b, sep)
    decreases |a|
  {
    var s := a + [sep] + b;
    if a == [] {
      assert s == [sep] + b;
      assert s[1..] == b;
    } else {
      assert s[1..] == a[1..] + [sep] + b;
      assert sep !in a[1..];
      SplitAfter(a[1..], b, sep);
      var rest := Split(s[1..], sep);
      assert rest == [a[1..]] + Split(b, sep);
      assert s[0] == a[0] != sep;
      assert Split(s, sep) == [[a[0]] + rest[0]] + rest[1..];
      assert rest[1..] == Split(b, sep);
      assert [a[0]] + a[1..] == a;
    }
  }

  /** Splitting a join of separator-free pieces gives back the pieces. */
  lemma {:induction false} SplitJoin(parts: seq<string>, sep: char)
    requires |parts| > 0
    requires forall k :: 0 <= k < |parts| ==> sep !in parts[k]
    ensures Split(Join(parts, sep), sep) == parts
    decreases |parts|
  {
    if |parts| == 1 {
      SplitWithout(parts[0], sep);
    } else {
      SplitJoin(parts[1..], sep);
      SplitAfter(parts[0], Join(parts[1..], sep), sep);
      assert parts == [parts[0]] + parts[1..];
    }
  }

  // ---------------------------------------------------------------------------
  // Decimal formatting of a natural number (an index inside an f-string)

  predicate IsDigit(c: char) {
    '0' <= c <= '9'
  }

  predicate AllDigits(s: string) {
    forall k :: 0 <= k < |s| ==> IsDigit(s[k])
  }

  function DigitChar(d: nat): (c: char)
    requires d < 10
    ensures IsDigit(c)
  {
    ('0' as int + d) as char
  }

  function DigitValue(c: char): (d: nat)
    requires IsDigit(c)
    ensures d < 10
  {
    (c as int - '0' as int) as nat
  }

  /** `f'{n}'` for a non-negative integer: its decimal digits, no leading zero. */
  function NatToDecimal(n: nat): (s: string)
    ensures |s| > 0 && AllDigits(s)
    decreases n
  {
    if n < 10 then [DigitChar(n)] else NatToDecimal(n / 10) + [DigitChar(n % 10)]
  }

  /** The number a string of decimal digits denotes. */
  function DecimalValue(s: string): nat
    requires AllDigits(s)
    decreases |s|
  {
    if s == [] then 0 else DecimalValue(s[..|s| - 1]) * 10 + DigitValue(s[|s| - 1])
  }

  /** Reading back the formatted digits gives the number: formatting loses nothing. */
  lemma {:induction false} DecimalRoundTrip(n: nat)
    ensures DecimalValue(NatToDecimal(n)) == n
    decreases n
  {
    var s := NatToDecimal(n);
    if n >= 10 {
      DecimalRoundTrip(n / 10);
      assert s[..|s| - 1] == NatToDecimal(n / 10);
      assert DigitValue(s[|s| - 1]) == n % 10;
    } else {
      assert s[..|s| - 1] == [];
    }
  }

  /** Distinct indices are formatted as distinct strings. */
  lemma NatToDecimalInjective(i: nat, j: nat)
    requires NatToDecimal(i) == NatToDecimal(j)
    ensures i == j
  {
    DecimalRoundTrip(i);
    DecimalRoundTrip(j);
  }

  // ---------------------------------------------------------------------------
  // Substrings

  /** `pat` occurs in `s` starting at position `i`. */
  predicate OccursAt(s: string, pat: string, i: nat) {
    i + |pat| <= |s| && s[i..i + |pat|] == pat
  }

  /**
   * `s.rsplit(pat)[0]`: the part of `s` before the first occurrence of `pat`, or all
   * of `s` when `pat` does not occur. (For a pattern that cannot overlap itself, such as
   * ".nii", the right-to-left split finds every occurrence, so its first piece ends at
   * the leftmost one.)
   */
  function BeforeFirst(s: string, pat: string): (r: string)
    requires pat != []
    ensures r <= s
    ensures forall i :: 0 <= i < |r| ==> !OccursAt(s, pat, i)
    ensures |r| == |s| || OccursAt(s, pat, |r|)
    decreases |s|
  {
    if |s| < |pat| then s
    else if s[..|pat|] == pat then []
    else
      var rest := BeforeFirst(s[1..], pat);
      NoOccurrenceBefore(s, pat, |rest|);
      assert |rest| < |s| - 1 ==> s[|rest| + 1..|rest| + 1 + |pat|] == s[1..][|rest|..|rest| + |pat|];
      [s[0]] + rest
  }

  /** No occurrence at the head and none in the first `n` positions of the tail: none in the first `n + 1`. */
  lemma NoOccurrenceBefore(s: string, pat: string, n: nat)
    requires pat != [] && |pat| <= |s| && s[..|pat|] != pat
    requires forall i :: 0 <= i < n ==> !OccursAt(s[1..], pat, i)
    ensures forall i :: 0 <= i < n + 1 ==> !OccursAt(s, pat, i)
  {
    forall i | 0 <= i < n + 1 ensures !OccursAt(s, pat, i) {
      if i == 0 {
        assert s[0..|pat|] == s[..|pat|];
      } else {
        assert !OccursAt(s[1..], pat, i - 1);
        if i + |pat| <= |s| {
          assert s[i..i + |pat|] == s[1..][i - 1..i - 1 + |pat|];
        }
      }
    }
  }

  /** When the first occurrence of `pat` is at `n`, the part before it is `s[..n]`. */
  lemma BeforeFirstAt(s: string, pat: string, n: nat)
    requires pat != [] && OccursAt(s, pat, n)
    requires forall i :: 0 <= i < n ==> !OccursAt(s, pat, i)
    ensures BeforeFirst(s, pat) == s[..n]
  {
    var r := BeforeFirst(s, pat);
    assert |r| <= n || !OccursAt(s, pat, n);
  }

  /** The part of `s` after the last `c`, or all of `s` when `c` does not occur. */
  function AfterLast(s: string, c: char): (r: string)
    ensures c !in r
    ensures |r| <= |s| && r == s[|s| - |r|..]
    ensures |r| == |s| || s[|s| - |r| - 1] == c
    decreases |s|
  {
    if s == [] then []
    else if s[|s| - 1] == c then []
    else AfterLast(s[..|s| - 1], c) + [s[|s| - 1]]
  }

  /** The part after the last `c` of `a`, a `c`, and a `c`-free `b` is `b`. */
  lemma {:induction false} AfterLastAfterSeparator(a: string, b: string, c: char)
    requires c !in b
    ensures AfterLast(a + [c] + b, c) == b
    decreases |b|
  {
    if b != [] {
      var s := a + [c] + b;
      assert s[..|s| - 1] == a + [c] + b[..|b| - 1];
      AfterLastAfterSeparator(a, b[..|b| - 1], c);
    }
  }

  /** `s` without its trailing run of `c`. */
  function StripTrailing(s: string, c: char): (r: string)
    ensures r <= s
    ensures r == [] || r[|r| - 1] != c
    ensures forall i :: |r| <= i < |s| ==> s[i] == c
    decreases |s|
  {
    if s != [] && s[|s| - 1] == c then StripTrailing(s[..|s| - 1], c) else s
  }

  /** Python's `s.replace(pat, '')`: every non-overlapping occurrence, left to right, removed. */
  function RemoveAll(s: string, pat: string): (r: string)
    ensures |r| <= |s|
    ensures pat == [] ==> r == s
    decreases |s|
  {
    if pat == [] || |s| < |pat| then s
    else if s[..|pat|] == pat then RemoveAll(s[|pat|..], pat)
    else [s[0]] + RemoveAll(s[1..], pat)
  }

  /** A string in which `pat` does not occur is left unchanged. */
  lemma {:induction false} RemoveAllAbsent(s: string, pat: string)
    requires forall i :: 0 <= i < |s| ==> !OccursAt(s, pat, i)
    ensures RemoveAll(s, pat) == s
    decreases |s|
  {
    if pat != [] && |s| >= |pat| {
      assert !OccursAt(s, pat, 0);
      assert s[..|pat|] != pat by { assert s[0..|pat|] == s[..|pat|]; }
      NoOccurrenceInTail(s, pat);
      RemoveAllAbsent(s[1..], pat);
      assert [s[0]] + s[1..] == s;
    }
  }

  /** A string free of `pat` has a tail free of `pat`. */
  lemma NoOccurrenceInTail(s: string, pat: string)
    requires s != []
    ensures (forall i :: 0 <= i < |s| ==> !OccursAt(s, pat, i)) ==> forall i :: 0 <= i < |s| - 1 ==> !OccursAt(s[1..], pat, i)
  {
    if forall i :: 0 <= i < |s| ==> !OccursAt(s, pat, i) {
      forall i | 0 <= i < |s| - 1 ensures !OccursAt(s[1..], pat, i) {
        assert !OccursAt(s, pat, i + 1);
        if i + |pat| <= |s| - 1 {
          assert s[1..][i..i + |pat|] == s[i + 1..i + 1 + |pat|];
        }
      }
    }
  }

  /** A leading occurrence of `pat` is removed and the rest is processed on its own. */
  lemma RemoveAllLeading(pat: string, t: string)
    requires pat != []
    ensures RemoveAll(pat + t, pat) == RemoveAll(t, pat)
  {
    assert (pat + t)[..|pat|] == pat;
    assert (pat + t)[|pat|..] == t;
  }

  /** `' ' * 4 * level`: four spaces per level. */
  function Indent(level: nat): (r: string)
    ensures |r| == 4 * level
    ensures forall k :: 0 <= k < |r| ==> r[k] == ' '
    decreases level
  {
    if level == 0 then "" else Indent(level - 1) + "    "
  }

  /**
   * `os.path.abspath(p)` relative to the working directory `cwd` (assumed absolute and
   * normalised, so it ends in a separator only when it is the root itself): the empty
   * name denotes `cwd` itself, an absolute name stays as it is, any other name is joined
   * under `cwd` with one separator, also when `cwd` is the root.
   */
  function Abspath(cwd: string, p: string): (r: string)
    ensures cwd != [] && cwd[0] == '/' ==> r != [] && r[0] == '/'
    ensures p == [] ==> r == cwd
    ensures p != [] && p[0] == '/' ==> r == p
    ensures p != [] && p[0] != '/' ==> |r| > |p| && r[|r| - |p| - 1..] == "/" + p
    ensures p != [] && p[0] != '/' && cwd != "/" ==> |r| > |cwd| && r[..|cwd|] == cwd && r[|cwd|] == '/'
    ensures p != [] && p[0] != '/' && cwd == "/" ==> |r| == |p| + 1
  {
    if p == [] then cwd
    else if p[0] == '/' then p
    else if cwd == "/" then "/" + p
    else cwd + "/" + p
  }
}
