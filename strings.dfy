/** Text helpers shared by the three programs: whitespace trimming, splitting
    and joining on a separator, searching, decimal rendering, repetition. */
module Strings {
  import opened Wrappers

  /** Whitespace as Python's str.isspace and the `\s` class of its `re` module
      recognise it in str patterns. */
  predicate IsPythonSpace(c: char) {
    c == '\t' || c == '\n' || c == '\U{000B}' || c == '\U{000C}' || c == '\r'
    || ('\U{001C}' <= c <= '\U{001F}') || c == ' ' || c == '\U{0085}' || c == '\U{00A0}'
    || c == '\U{1680}' || ('\U{2000}' <= c <= '\U{200A}') || c == '\U{2028}' || c == '\U{2029}'
    || c == '\U{202F}' || c == '\U{205F}' || c == '\U{3000}'
  }

  /** Whitespace as Go's unicode.IsSpace (and so strings.TrimSpace) recognises it;
      unlike Python it does not include U+001C to U+001F. */
  predicate IsGoSpace(c: char) {
    c == '\t' || c == '\n' || c == '\U{000B}' || c == '\U{000C}' || c == '\r'
    || c == ' ' || c == '\U{0085}' || c == '\U{00A0}'
    || c == '\U{1680}' || ('\U{2000}' <= c <= '\U{200A}') || c == '\U{2028}' || c == '\U{2029}'
    || c == '\U{202F}' || c == '\U{205F}' || c == '\U{3000}'
  }

  ghost predicate AllSatisfy(s: string, p: char -> bool) {
    forall i :: 0 <= i < |s| ==> p(s[i])
  }

  /** Drops the longest prefix of characters satisfying isSpace. */
  function TrimLeft(s: string, isSpace: char -> bool): (r: string)
    ensures |r| <= |s| && r == s[|s| - |r|..]
    ensures AllSatisfy(s[..|s| - |r|], isSpace)
    ensures r == [] || !isSpace(r[0])
  {
    if s != [] && isSpace(s[0]) then TrimLeft(s[1..], isSpace) else s
  }

  /** Drops the longest suffix of characters satisfying isSpace. */
  function TrimRight(s: string, isSpace: char -> bool): (r: string)
    ensures |r| <= |s| && r == s[..|r|]
    ensures AllSatisfy(s[|r|..], isSpace)
    ensures r == [] || !isSpace(r[|r| - 1])
  {
    if s != [] && isSpace(s[|s| - 1]) then TrimRight(s[..|s| - 1], isSpace) else s
  }

  /** Python's str.strip() (with IsPythonSpace) and Go's strings.TrimSpace (with IsGoSpace). */
  function Strip(s: string, isSpace: char -> bool): (r: string)
    ensures r == [] || (!isSpace(r[0]) && !isSpace(r[|r| - 1]))
    ensures exists i, j :: 0 <= i <= j <= |s| && r == s[i..j]
                           && AllSatisfy(s[..i], isSpace) && AllSatisfy(s[j..], isSpace)
  {
    var left := TrimLeft(s, isSpace);
    var r := TrimRight(left, isSpace);
    var i := |s| - |left|;
    assert r == s[i..i + |r|];
    assert s[i + |r|..] == left[|r|..];
    r
  }

  /** True when pat occurs in s at index q. */
  predicate OccursAt(s: string, pat: string, q: int) {
    0 <= q && q + |pat| <= |s| && s[q..q + |pat|] == pat
  }

  /** The first occurrence of pat in s at an index no smaller than from. */
  function FindFrom(s: string, pat: string, from: nat): (r: Option<nat>)
    ensures r.Some? ==> from <= r.value && OccursAt(s, pat, r.value)
    ensures r.Some? ==> forall q :: from <= q < r.value ==> !OccursAt(s, pat, q)
    ensures r.None? ==> forall q :: from <= q ==> !OccursAt(s, pat, q)
    decreases |s| - from
  {
    if from + |pat| > |s| then None
    else if s[from..from + |pat|] == pat then Some(from)
    else FindFrom(s, pat, from + 1)
  }

  /** Python's str.rfind for one character: the last index of c, or -1. */
  function RFind(s: string, c: char): (r: int)
    ensures -1 <= r < |s|
    ensures r == -1 <==> c !in s
    ensures r >= 0 ==> s[r] == c && forall j :: r < j < |s| ==> s[j] != c
  {
    if s == [] then -1
    else if s[|s| - 1] == c then |s| - 1
    else RFind(s[..|s| - 1], c)
  }

  /** Python's str.split(sep) for a one-character separator. */
  function Split(s: string, sep: char): (parts: seq<string>)
    ensures |parts| >= 1
    ensures forall i :: 0 <= i < |parts| ==> sep !in parts[i]
  {
    if s == [] then [""]
    else
      var rest := Split(s[1..], sep);
      if s[0] == sep then [""] + rest
      else [[s[0]] + rest[0]] + rest[1..]
  }

  /** Joining the parts back with the separator gives the text that was split. */
  lemma {:induction false} JoinSplit(s: string, sep: char)
    ensures Join(Split(s, sep), sep) == s
  {
    if s != [] {
      JoinSplit(s[1..], sep);
      var rest := Split(s[1..], sep);
      if s[0] != sep {
        var parts := Split(s, sep);
        assert parts[1..] == rest[1..];
        if |rest| > 1 {
          AppendAssoc([s[0]], rest[0], [sep] + Join(rest[1..], sep));
          AppendAssoc([s[0]] + rest[0], [sep], Join(rest[1..], sep));
          AppendAssoc(rest[0], [sep], Join(rest[1..], sep));
        }
      }
    }
  }

  /** Python's sep.join(parts) for a one-character separator. */
  function Join(parts: seq<string>, sep: char): string {
    if |parts| == 0 then ""
    else if |parts| == 1 then parts[0]
    else parts[0] + [sep] + Join(parts[1..], sep)
  }

  /** Splitting undoes joining when no part holds the separator. */
  lemma {:induction false} SplitJoin(parts: seq<string>, sep: char)
    requires |parts| >= 1
    requires forall i :: 0 <= i < |parts| ==> sep !in parts[i]
    ensures Split(Join(parts, sep), sep) == parts
  {
    if |parts| == 1 {
      SplitNoSep(parts[0], sep);
    } else {
      SplitJoin(parts[1..], sep);
      SplitAround(parts[0], Join(parts[1..], sep), sep);
      SplitNoSep(parts[0], sep);
    }
  }

  lemma {:induction false} SplitNoSep(s: string, sep: char)
    requires sep !in s
    ensures Split(s, sep) == [s]
  {
    if s != [] {
      SplitNoSep(s[1..], sep);
      assert [s[0]] + s[1..] == s;
    }
  }

  /** A separator splits the text exactly where it stands. */
  lemma {:induction false} SplitAround(a: string, b: string, sep: char)
    ensures Split(a + [sep] + b, sep) == Split(a, sep) + Split(b, sep)
  {
    if a == [] {
      assert a + [sep] + b == [sep] + b;
      assert ([sep] + b)[1..] == b;
    } else {
      assert (a + [sep] + b)[1..] == a[1..] + [sep] + b;
      SplitAround(a[1..], b, sep);
    }
  }

  /** Appending text without a separator extends the last part only. */
  lemma {:induction false} SplitExtendLast(a: string, b: string, sep: char)
    requires sep !in b
    ensures var pa := Split(a, sep);
            Split(a + b, sep) == pa[..|pa| - 1] + [pa[|pa| - 1] + b]
  {
    if a == [] {
      assert a + b == b;
      SplitNoSep(b, sep);
    } else {
      var t := a + b;
      assert t[0] == a[0] && t[1..] == a[1..] + b;
      SplitExtendLast(a[1..], b, sep);
      var pr := Split(a[1..], sep);
      var init := pr[..|pr| - 1];
      var last := pr[|pr| - 1];
      var rest := Split(a[1..] + b, sep);
      assert rest == init + [last + b];
      var pa := Split(a, sep);
      if a[0] == sep {
        assert pa == [""] + pr;
        assert pa[..|pa| - 1] == [""] + init && pa[|pa| - 1] == last;
        assert Split(t, sep) == [""] + rest;
        AppendAssoc([""], init, [last + b]);
      } else if |pr| == 1 {
        assert pa == [[a[0]] + last];
        assert Split(t, sep) == [[a[0]] + rest[0]] + rest[1..];
        AppendAssoc([a[0]], last, b);
      } else {
        var first := [a[0]] + pr[0];
        assert pa == [first] + pr[1..];
        assert pa[..|pa| - 1] == [first] + pr[1..|pr| - 1] && pa[|pa| - 1] == last;
        assert rest[0] == pr[0] && rest[1..] == pr[1..|pr| - 1] + [last + b];
        assert Split(t, sep) == [first] + rest[1..];
        AppendAssoc([first], pr[1..|pr| - 1], [last + b]);
      }
    }
  }

  /** Appending a line and a separator to text that ends with a separator adds
      that line as a part before the final empty one. */
  lemma AppendLine(text: string, line: string, sep: char)
    requires sep !in line
    requires var parts := Split(text, sep); parts[|parts| - 1] == ""
    ensures var parts := Split(text, sep);
            Split(text + line + [sep], sep) == parts[..|parts| - 1] + [line] + [""]
  {
    var parts := Split(text, sep);
    assert text + line + [sep] == (text + line) + [sep] + "";
    SplitAround(text + line, "", sep);
    assert Split("", sep) == [""];
    SplitExtendLast(text, line, sep);
    assert parts[|parts| - 1] + line == line;
  }

  /** The lines, each followed by the separator. */
  function Terminated(lines: seq<string>, sep: char): string {
    if lines == [] then "" else Terminated(lines[..|lines| - 1], sep) + lines[|lines| - 1] + [sep]
  }

  /** Splitting separator-terminated lines gives the lines back, then the empty
      text after the last separator. */
  lemma {:induction false} SplitTerminated(lines: seq<string>, sep: char)
    requires forall i :: 0 <= i < |lines| ==> sep !in lines[i]
    ensures Split(Terminated(lines, sep), sep) == lines + [""]
  {
    if lines == [] {
      assert Split("", sep) == [""];
    } else {
      var init := lines[..|lines| - 1];
      SplitTerminated(init, sep);
      AppendLine(Terminated(init, sep), lines[|lines| - 1], sep);
      assert (init + [""])[..|init|] == init;
      assert init + [lines[|lines| - 1]] == lines;
    }
  }

  function Digit(d: nat): (c: char)
    requires d < 10
    ensures '0' <= c <= '9' && (c as int) - ('0' as int) == d
  {
    ['0', '1', '2', '3', '4', '5', '6', '7', '8', '9'][d]
  }

  predicate IsDigit(c: char) { '0' <= c <= '9' }

  /** The decimal rendering of a natural number (Go's %d, Python's str). */
  function NatToDecimal(n: nat): (r: string)
    ensures |r| >= 1 && AllDigits(r)
    ensures n > 0 ==> r[0] != '0'
  {
    if n < 10 then [Digit(n)] else NatToDecimal(n / 10) + [Digit(n % 10)]
  }

  predicate AllDigits(s: string) { forall i :: 0 <= i < |s| ==> IsDigit(s[i]) }

  /** Go's %d of a (possibly negative) int. */
  function IntToDecimal(i: int): (r: string)
    ensures r != []
  {
    if i < 0 then "-" + NatToDecimal(-i) else NatToDecimal(i)
  }

  /** The value a string of decimal digits denotes. */
  function DecimalValue(s: string): nat
    requires AllDigits(s)
  {
    if s == [] then 0
    else DecimalValue(s[..|s| - 1]) * 10 + ((s[|s| - 1] as int) - ('0' as int))
  }

  lemma {:induction false} DecimalRoundTrip(n: nat)
    ensures DecimalValue(NatToDecimal(n)) == n
  {
    if n >= 10 {
      DecimalRoundTrip(n / 10);
      var r := NatToDecimal(n);
      assert r[..|r| - 1] == NatToDecimal(n / 10);
    }
  }

  /** Leading zeros do not change the value of a decimal string. */
  lemma {:induction false} LeadingZerosIgnored(k: nat, s: string)
    requires AllDigits(s)
    ensures AllDigits(Repeat('0', k) + s)
    ensures DecimalValue(Repeat('0', k) + s) == DecimalValue(s)
  {
    if s == [] {
      assert Repeat('0', k) + s == Repeat('0', k);
      ZerosValue(k);
    } else {
      var t := Repeat('0', k) + s;
      assert t[..|t| - 1] == Repeat('0', k) + s[..|s| - 1];
      LeadingZerosIgnored(k, s[..|s| - 1]);
    }
  }

  lemma {:induction false} ZerosValue(k: nat)
    ensures AllDigits(Repeat('0', k)) && DecimalValue(Repeat('0', k)) == 0
  {
    if k > 0 {
      assert Repeat('0', k)[..k - 1] == Repeat('0', k - 1) by { RepeatSplit('0', k); }
      ZerosValue(k - 1);
    }
  }

  lemma {:induction false} RepeatSplit(c: char, k: nat)
    requires k > 0
    ensures Repeat(c, k) == Repeat(c, k - 1) + [c]
  {
    if k > 1 {
      RepeatSplit(c, k - 1);
    }
  }

  /** Go's %0<width>d of a natural number: zero-padded on the left to width digits. */
  function ZeroPadded(n: nat, width: nat): (r: string)
    ensures |r| >= width && AllDigits(r) && DecimalValue(r) == n
  ensures |r| == if width > |NatToDecimal(n)| then width else |NatToDecimal(n)|
  {
    var d := NatToDecimal(n);
    DecimalRoundTrip(n);
    LeadingZerosIgnored(if width > |d| then width - |d| else 0, d);
    Repeat('0', width - |d|) + d
  }

  /** Python's c * n: n copies of c, and nothing when n is not positive. */
  function Repeat(c: char, n: int): (r: string)
    ensures |r| == (if n > 0 then n else 0)
    ensures forall i :: 0 <= i < |r| ==> r[i] == c
  {
    if n <= 0 then "" else [c] + Repeat(c, n - 1)
  }

  /** s with every occurrence of c taken out. */
  function FilterOut(s: string, c: char): (r: string)
    ensures c !in r && |r| <= |s|
    ensures forall x :: x in r ==> x in s
  {
    if s == [] then [] else (if s[0] == c then [] else [s[0]]) + FilterOut(s[1..], c)
  }

  lemma {:induction false} FilterOutAppend(a: string, b: string, c: char)
    ensures FilterOut(a + b, c) == FilterOut(a, c) + FilterOut(b, c)
  {
    if a == [] {
      assert a + b == b;
    } else {
      var head := if a[0] == c then [] else [a[0]];
      assert (a + b)[0] == a[0] && (a + b)[1..] == a[1..] + b;
      assert FilterOut(a + b, c) == head + FilterOut(a[1..] + b, c);
      FilterOutAppend(a[1..], b, c);
      AppendAssoc(head, FilterOut(a[1..], c), FilterOut(b, c));
    }
  }

  /** Concatenation is associative. */
  lemma AppendAssoc<T>(a: seq<T>, b: seq<T>, c: seq<T>)
    ensures a + b + c == a + (b + c)
  {
  }
}
