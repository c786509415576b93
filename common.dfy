/** Small value types and the Python string operations the clients and servers rely on:
    str.strip, str.find, str.rfind, str.endswith, str.split(sep, 1), str.join,
    str.replace, int(str), str(int), slicing and readline-style line splitting. */
module Common {

  datatype Option<+T> = None | Some(value: T)

  datatype Result<+T, +E> = Ok(value: T) | Err(error: E)

  // ---------------------------------------------------------------------------
  // Whitespace and str.strip()

  /** Python's str.isspace() for one character. */
  predicate IsSpace(c: char)
  {
    || ('\U{0009}' <= c <= '\U{000D}') || ('\U{001C}' <= c <= '\U{0020}')
    || c == '\U{0085}' || c == '\U{00A0}' || c == '\U{1680}'
    || ('\U{2000}' <= c <= '\U{200A}') || c == '\U{2028}' || c == '\U{2029}'
    || c == '\U{202F}' || c == '\U{205F}' || c == '\U{3000}'
  }

  predicate AllSpace(s: string)
  {
    forall i :: 0 <= i < |s| ==> IsSpace(s[i])
  }

  /** The index of the first non-whitespace character at or after k (|s| if none). */
  function LeadingEnd(s: string, k: nat): (a: nat)
    requires k <= |s|
    ensures k <= a <= |s| && (a == |s| || !IsSpace(s[a]))
    ensures forall j :: k <= j < a ==> IsSpace(s[j])
    decreases |s| - k
  {
    if k < |s| && IsSpace(s[k]) then LeadingEnd(s, k + 1) else k
  }

  /** The length of s[..n] once its trailing whitespace is dropped. */
  function TrimmedLength(s: string, n: nat): (k: nat)
    requires n <= |s|
    ensures k <= n && (k == 0 || !IsSpace(s[k - 1]))
    ensures forall j :: k <= j < n ==> IsSpace(s[j])
  {
    if n > 0 && IsSpace(s[n - 1]) then TrimmedLength(s, n - 1) else n
  }

  /** str.strip(): s without its leading and trailing whitespace. What is left neither
      begins nor ends with whitespace. */
  function Strip(s: string): (r: string)
    ensures |r| <= |s|
    ensures r == [] || (!IsSpace(r[0]) && !IsSpace(r[|r| - 1]))
  {
    var a := LeadingEnd(s, 0);
    var b := TrimmedLength(s, |s|);
    if b <= a then [] else s[a..b]
  }

  /** The strip of s is the span s[a..b] when that span begins and ends with
      non-whitespace and only whitespace lies outside it. */
  lemma StripSpan(s: string, a: nat, b: nat)
    requires a < b <= |s| && !IsSpace(s[a]) && !IsSpace(s[b - 1])
    requires forall j :: 0 <= j < a ==> IsSpace(s[j])
    requires forall j :: b <= j < |s| ==> IsSpace(s[j])
    ensures Strip(s) == s[a..b]
  {
    var a', b' := LeadingEnd(s, 0), TrimmedLength(s, |s|);
    assert a' == a && b' == b;
  }

  /** A blank line, in the sense of `not line.strip()`: one made of whitespace only. */
  lemma StripEmptyIffAllSpace(s: string)
    ensures Strip(s) == [] <==> AllSpace(s)
  {
    var a, b := LeadingEnd(s, 0), TrimmedLength(s, |s|);
    if !AllSpace(s) {
      assert a < |s| && !IsSpace(s[a]);
    }
  }

  /** A line with some non-whitespace character is not blank. */
  lemma StripNonBlank(s: string)
    requires !AllSpace(s)
    ensures Strip(s) != []
  {
    StripEmptyIffAllSpace(s);
  }

  /** A whitespace-only line is blank. */
  lemma StripBlank(s: string)
    requires AllSpace(s)
    ensures Strip(s) == []
  {
    StripEmptyIffAllSpace(s);
  }

  /** Stripping ignores one trailing '\n'. */
  lemma StripNewline(x: string)
    ensures Strip(x + "\n") == Strip(x)
  {
    if AllSpace(x) {
      StripNewlineBlank(x);
    } else {
      StripNewlineNonBlank(x);
    }
  }

  lemma StripNewlineBlank(x: string)
    requires AllSpace(x)
    ensures Strip(x + "\n") == [] && Strip(x) == []
  {
    var u := x + "\n";
    assert AllSpace(u) by {
      forall j | 0 <= j < |u| ensures IsSpace(u[j]) {
        if j < |x| { assert u[j] == x[j]; }
      }
    }
    StripBlank(x);
    StripBlank(u);
  }

  lemma StripNewlineNonBlank(x: string)
    requires !AllSpace(x)
    ensures Strip(x + "\n") == Strip(x)
  {
    StripNonBlank(x);
    var a, b := LeadingEnd(x, 0), TrimmedLength(x, |x|);
    assert a < b;
    StripNewlineSpan(x, a, b);
  }

  /** A trailing '\n' leaves the span between the outer whitespace as it is. */
  lemma StripNewlineSpan(x: string, a: nat, b: nat)
    requires a < b <= |x| && !IsSpace(x[a]) && !IsSpace(x[b - 1])
    requires forall j :: 0 <= j < a ==> IsSpace(x[j])
    requires forall j :: b <= j < |x| ==> IsSpace(x[j])
    ensures Strip(x + "\n") == x[a..b]
  {
    var u := x + "\n";
    assert forall j :: 0 <= j < |x| ==> u[j] == x[j];
    assert u[|x|] == '\n';
    StripSpan(u, a, b);
    assert u[a..b] == x[a..b];
  }

  /** Text that neither begins nor ends with whitespace is its own strip. */
  lemma StripTrimmed(s: string)
    requires s == [] || (!IsSpace(s[0]) && !IsSpace(s[|s| - 1]))
    ensures Strip(s) == s
  {
    if s != [] {
      StripSpan(s, 0, |s|);
    }
  }

  /** Stripping whitespace padding around trimmed text gives that text back. */
  lemma StripPadded(pre: string, t: string, post: string)
    requires AllSpace(pre) && AllSpace(post)
    requires t != [] && !IsSpace(t[0]) && !IsSpace(t[|t| - 1])
    ensures Strip(pre + t + post) == t
  {
    var u := pre + t + post;
    var a, b := |pre|, |pre| + |t|;
    forall j | 0 <= j < a ensures IsSpace(u[j]) {
      assert u[j] == pre[j];
    }
    forall j | b <= j < |u| ensures IsSpace(u[j]) {
      assert u[j] == post[j - b];
    }
    assert u[a] == t[0] && u[b - 1] == t[|t| - 1];
    StripSpan(u, a, b);
    assert u[a..b] == t;
  }

  // ---------------------------------------------------------------------------
  // Searching: str.find, str.rfind, `in`, str.endswith

  /** The pattern occurs in s at index k. */
  predicate OccursAt(s: string, pat: string, k: int)
  {
    0 <= k && k + |pat| <= |s| && s[k..k + |pat|] == pat
  }

  /** str.find(pat, from): the first index at or after `from` where pat occurs, or -1. */
  function IndexOf(s: string, pat: string, from: nat): (r: int)
    ensures r == -1 || (from <= r && OccursAt(s, pat, r))
    ensures forall k :: from <= k && (r == -1 || k < r) ==> !OccursAt(s, pat, k)
    decreases |s| - from
  {
    if from + |pat| > |s| then -1
    else if s[from..from + |pat|] == pat then from
    else IndexOf(s, pat, from + 1)
  }

  /** `pat in s` for strings. */
  predicate Contains(s: string, pat: string)
  {
    IndexOf(s, pat, 0) >= 0
  }

  lemma ContainsIffOccurs(s: string, pat: string)
    ensures Contains(s, pat) <==> exists k :: OccursAt(s, pat, k)
  {
  }

  /** str.rfind(c) for a one-character pattern: the last index of c, or -1. */
  function LastIndexOf(s: string, c: char): (r: int)
    ensures -1 <= r < |s|
    ensures r >= 0 ==> s[r] == c
    ensures forall k :: r < k < |s| ==> s[k] != c
  {
    LastIndexBefore(s, c, |s|)
  }

  /** The last index below `end` that holds c, or -1. */
  function LastIndexBefore(s: string, c: char, end: nat): (r: int)
    requires end <= |s|
    ensures -1 <= r < end
    ensures r >= 0 ==> s[r] == c
    ensures forall k :: r < k < end ==> s[k] != c
  {
    if end == 0 then -1
    else if s[end - 1] == c then end - 1
    else LastIndexBefore(s, c, end - 1)
  }

  predicate EndsWith(s: string, suffix: string)
  {
    |suffix| <= |s| && s[|s| - |suffix|..] == suffix
  }

  /** s[a:b] for non-negative a and b, clamped the way Python clamps slice bounds. */
  function Slice(s: string, a: nat, b: nat): (r: string)
    ensures a <= b <= |s| ==> r == s[a..b]
    ensures b <= a ==> r == []
  {
    var a' := if a < |s| then a else |s|;
    var b' := if b < |s| then b else |s|;
    if b' <= a' then [] else s[a'..b']
  }

  // ---------------------------------------------------------------------------
  // str.split(sep, 1), str.join, str.replace

  /** `key, value = line.split(c, 1)`: None when c does not occur (the two-name unpack fails). */
  function SplitOnce(s: string, c: char): (r: Option<(string, string)>)
    ensures r.None? <==> c !in s
    ensures r.Some? ==> s == r.value.0 + [c] + r.value.1 && c !in r.value.0
  {
    OccursChar(s, c);
    var i := IndexOf(s, [c], 0);
    if i < 0 then None
    else
      assert s == s[..i] + [c] + s[i + 1..] by { assert s[i] == c; }
      Some((s[..i], s[i + 1..]))
  }

  /** A one-character pattern occurs exactly where that character is. */
  lemma OccursChar(s: string, c: char)
    ensures forall j :: OccursAt(s, [c], j) <==> 0 <= j < |s| && s[j] == c
  {
    forall j ensures OccursAt(s, [c], j) <==> 0 <= j < |s| && s[j] == c {
      if 0 <= j < |s| { assert s[j..j + 1] == [s[j]]; }
    }
  }

  /** find returns the first occurrence at or after `from`. */
  lemma {:induction false} IndexOfAt(s: string, pat: string, from: nat, k: nat)
    requires from <= k && OccursAt(s, pat, k)
    requires forall j :: from <= j < k ==> !OccursAt(s, pat, j)
    ensures IndexOf(s, pat, from) == k
    decreases k - from
  {
    if from < k {
      assert !OccursAt(s, pat, from);
      IndexOfAt(s, pat, from + 1, k);
    }
  }

  /** Splitting a + c + b, where a has no c, at the first c gives a and b. */
  lemma SplitOnceAt(s: string, c: char, a: string, b: string)
    requires s == a + [c] + b && c !in a
    ensures SplitOnce(s, c) == Some((a, b))
  {
    OccursChar(s, c);
    assert s[|a|] == c;
    forall j | 0 <= j < |a| ensures !OccursAt(s, [c], j) {
      assert s[j] == a[j];
    }
    IndexOfAt(s, [c], 0, |a|);
    assert s[..|a|] == a;
    assert s[|a| + 1..] == b;
  }

  /** sep.join(parts) */
  function Join(sep: string, parts: seq<string>): (r: string)
    ensures |parts| == 0 ==> r == ""
    ensures |parts| == 1 ==> r == parts[0]
  {
    if |parts| == 0 then ""
    else if |parts| == 1 then parts[0]
    else parts[0] + sep + Join(sep, parts[1..])
  }

  /** One more part is appended after a separator. */
  lemma {:induction false} JoinSnoc(sep: string, parts: seq<string>, p: string)
    requires |parts| > 0
    ensures Join(sep, parts + [p]) == Join(sep, parts) + sep + p
    decreases |parts|
  {
    var all := parts + [p];
    if |parts| > 1 {
      assert all[1..] == parts[1..] + [p];
      JoinSnoc(sep, parts[1..], p);
    } else {
      assert all[1..] == [p];
    }
  }

  /** s.replace(pat, ""), scanning left to right without overlaps. */
  function RemoveAll(s: string, pat: string): (r: string)
    requires |pat| > 0
    ensures |r| <= |s|
    decreases |s|
  {
    if |s| < |pat| then s
    else if s[..|pat|] == pat then RemoveAll(s[|pat|..], pat)
    else [s[0]] + RemoveAll(s[1..], pat)
  }

  lemma {:induction false} RemoveAllWithout(s: string, pat: string)
    requires |pat| > 0
    requires !Contains(s, pat)
    ensures RemoveAll(s, pat) == s
    decreases |s|
  {
    if |s| >= |pat| {
      assert !OccursAt(s, pat, 0);
      assert !Contains(s[1..], pat) by {
        forall k | OccursAt(s[1..], pat, k) ensures false {
          assert s[1..][k..k + |pat|] == s[k + 1..k + 1 + |pat|];
          assert OccursAt(s, pat, k + 1);
        }
      }
      RemoveAllWithout(s[1..], pat);
    }
  }

  // ---------------------------------------------------------------------------
  // Case folding for the `quit` command

  function LowerAscii(c: char): char
  {
    if 'A' <= c <= 'Z' then (c as int + 32) as char else c
  }

  /** `s.lower() == "quit"`. The only characters that lower-case to one of q, u, i, t
      are those letters in either case, so ASCII folding decides this comparison. */
  predicate IsQuit(s: string)
  {
    |s| == 4 && LowerAscii(s[0]) == 'q' && LowerAscii(s[1]) == 'u'
    && LowerAscii(s[2]) == 'i' && LowerAscii(s[3]) == 't'
  }

  // ---------------------------------------------------------------------------
  // Decimal numbers: str(n) and int(s)

  predicate IsDigit(c: char)
  {
    '0' <= c <= '9'
  }

  function DigitChar(d: nat): (c: char)
    requires d < 10
    ensures IsDigit(c) && c as int - '0' as int == d
  {
    ('0' as int + d) as char
  }

  /** str(n) for a natural number. */
  function NatToDecimal(n: nat): (r: string)
    ensures |r| > 0
    ensures forall i :: 0 <= i < |r| ==> IsDigit(r[i])
  {
    if n < 10 then [DigitChar(n)] else NatToDecimal(n / 10) + [DigitChar(n % 10)]
  }

  /** str(i) for an integer. */
  function IntToDecimal(i: int): (r: string)
    ensures |r| > 0
  {
    if i < 0 then "-" + NatToDecimal(-i) else NatToDecimal(i)
  }

  /** n lies in the run of ten decimal digits, 0 to 9 in order, that starts at `start`. */
  predicate InRun(n: int, start: int)
  {
    start <= n < start + 10
  }

  /** The number of runs of decimal digits (Unicode category Nd, as in Unicode 15.0, the
      table of Python 3.12). Every such run holds ten digits, 0 to 9 in order. */
  const RunCount: nat := 68

  /** The first code point of the k-th run of decimal digits, in code point order. */
  function RunStart(k: nat): int
    requires k < RunCount
  {
    match k
    case 0 => 0x30
    case 1 => 0x660
    case 2 => 0x6F0
    case 3 => 0x7C0
    case 4 => 0x966
    case 5 => 0x9E6
    case 6 => 0xA66
    case 7 => 0xAE6
    case 8 => 0xB66
    case 9 => 0xBE6
    case 10 => 0xC66
    case 11 => 0xCE6
    case 12 => 0xD66
    case 13 => 0xDE6
    case 14 => 0xE50
    case 15 => 0xED0
    case 16 => 0xF20
    case 17 => 0x1040
    case 18 => 0x1090
    case 19 => 0x17E0
    case 20 => 0x1810
    case 21 => 0x1946
    case 22 => 0x19D0
    case 23 => 0x1A80
    case 24 => 0x1A90
    case 25 => 0x1B50
    case 26 => 0x1BB0
    case 27 => 0x1C40
    case 28 => 0x1C50
    case 29 => 0xA620
    case 30 => 0xA8D0
    case 31 => 0xA900
    case 32 => 0xA9D0
    case 33 => 0xA9F0
    case 34 => 0xAA50
    case 35 => 0xABF0
    case 36 => 0xFF10
    case 37 => 0x104A0
    case 38 => 0x10D30
    case 39 => 0x11066
    case 40 => 0x110F0
    case 41 => 0x11136
    case 42 => 0x111D0
    case 43 => 0x112F0
    case 44 => 0x11450
    case 45 => 0x114D0
    case 46 => 0x11650
    case 47 => 0x116C0
    case 48 => 0x11730
    case 49 => 0x118E0
    case 50 => 0x11950
    case 51 => 0x11C50
    case 52 => 0x11D50
    case 53 => 0x11DA0
    case 54 => 0x11F50
    case 55 => 0x16A60
    case 56 => 0x16AC0
    case 57 => 0x16B50
    case 58 => 0x1D7CE
    case 59 => 0x1D7D8
    case 60 => 0x1D7E2
    case 61 => 0x1D7EC
    case 62 => 0x1D7F6
    case 63 => 0x1E140
    case 64 => 0x1E2F0
    case 65 => 0x1E4F0
    case 66 => 0x1E950
    case _ => 0x1FBF0
  }

  /** The first code point of the run, the k-th or a later one, that n belongs to, or -1. */
  function RunFrom(n: int, k: nat): (start: int)
    ensures start >= 0 ==> InRun(n, start)
    decreases RunCount - k
  {
    if k >= RunCount then -1
    else if InRun(n, RunStart(k)) then RunStart(k)
    else RunFrom(n, k + 1)
  }

  /** The first code point of the run of decimal digits that c belongs to, or -1. */
  function DecimalRun(c: char): (start: int)
    ensures start >= 0 ==> InRun(c as int, start)
  {
    RunFrom(c as int, 0)
  }

  /** The decimal value int() gives the digit c, or None when c is no decimal digit. */
  function DecimalDigit(c: char): (r: Option<nat>)
    ensures r.Some? ==> r.value < 10
    ensures IsDigit(c) ==> r == Some(c as int - '0' as int)
  {
    var start := DecimalRun(c);
    if start < 0 then None else Some(c as int - start)
  }

  predicate IsDecimal(c: char)
  {
    DecimalDigit(c).Some?
  }

  /** The digit part of an int() literal: decimal digits, single underscores allowed
      between digits. */
  predicate DigitGroup(s: string)
  {
    && |s| > 0 && IsDecimal(s[0]) && IsDecimal(s[|s| - 1])
    && forall i :: 0 <= i < |s| ==> IsDecimal(s[i]) || (s[i] == '_' && i + 1 < |s| && IsDecimal(s[i + 1]))
  }

  /** The value of the digits of s, underscores ignored. */
  function DigitsValue(s: string): nat
  {
    if |s| == 0 then 0
    else
      var last := DecimalDigit(s[|s| - 1]);
      if last.Some? then DigitsValue(s[..|s| - 1]) * 10 + last.value
      else DigitsValue(s[..|s| - 1])
  }

  /** int(s) for a base-10 string: surrounding whitespace is ignored, an optional sign,
      then a digit group. None where Python raises ValueError. */
  function ParseInt(s: string): (r: Option<int>)
    ensures r.Some? ==> Strip(s) != []
  {
    var t := Strip(s);
    if |t| > 0 && (t[0] == '+' || t[0] == '-') then
      if DigitGroup(t[1..]) then
        var v: int := DigitsValue(t[1..]);
        Some(if t[0] == '-' then -v else v)
      else None
    else if DigitGroup(t) then Some(DigitsValue(t))
    else None
  }

  lemma {:induction false} DecimalValue(n: nat)
    ensures DigitGroup(NatToDecimal(n))
    ensures DigitsValue(NatToDecimal(n)) == n
  {
    if n >= 10 {
      DecimalValue(n / 10);
      var r := NatToDecimal(n);
      assert r[..|r| - 1] == NatToDecimal(n / 10);
    }
  }

  /** int(str(n)) == n. */
  lemma ParseDecimal(n: nat)
    ensures ParseInt(NatToDecimal(n)) == Some(n)
  {
    var d := NatToDecimal(n);
    DecimalValue(n);
    assert IsDigit(d[0]) && IsDigit(d[|d| - 1]);
    ParseDigitGroup(d);
  }

  /** int() of a bare digit group that begins and ends with ASCII digits is its value. */
  lemma ParseDigitGroup(d: string)
    requires DigitGroup(d) && IsDigit(d[0]) && IsDigit(d[|d| - 1])
    ensures ParseInt(d) == Some(DigitsValue(d) as int)
  {
    assert !IsSpace(d[0]) && !IsSpace(d[|d| - 1]);
    StripTrimmed(d);
    assert d[0] != '+' && d[0] != '-';
  }

  /** int() reads a digit of another script by its value: ARABIC-INDIC DIGIT FIVE is 5. */
  lemma ArabicIndicDigit()
    ensures ParseInt("\U{0665}") == Some(5)
  {
    var d := "\U{0665}";
    assert DecimalDigit(d[0]) == Some(5);
    StripTrimmed(d);
    assert d[..0] == [];
  }

  // ---------------------------------------------------------------------------
  // readline(): lines of a text, each keeping its '\n'

  /** Index just past the first '\n' at or after i, or the end of the text. */
  function LineEnd(s: string, i: nat): (e: nat)
    requires i <= |s|
    ensures i <= e <= |s|
    ensures i < |s| ==> i < e
    decreases |s| - i
  {
    if i == |s| then i else if s[i] == '\n' then i + 1 else LineEnd(s, i + 1)
  }

  /** A line holds no '\n' but its last character; only the last line of the text may
      lack one. */
  lemma {:induction false} LineEndShape(s: string, i: nat)
    requires i <= |s|
    ensures var e := LineEnd(s, i);
      && (forall k :: i <= k < e - 1 ==> s[k] != '\n')
      && (e < |s| ==> e > i && s[e - 1] == '\n')
      && (e == |s| && e > i ==> s[e - 1] == '\n' || '\n' !in s[i..])
    decreases |s| - i
  {
    if i < |s| && s[i] != '\n' {
      LineEndShape(s, i + 1);
      var e := LineEnd(s, i);
      if e == |s| && s[e - 1] != '\n' {
        assert '\n' !in s[i + 1..];
        assert s[i..] == [s[i]] + s[i + 1..];
      }
    }
  }

  /** The line that readline() returns at cursor i ("" at the end of the text). */
  function LineAt(s: string, i: nat): string
    requires i <= |s|
  {
    s[i..LineEnd(s, i)]
  }

  /** A line made of text without '\n' followed by '\n' is read back exactly. */
  lemma {:induction false} LineEndAfter(s: string, i: nat, line: string)
    requires '\n' !in line
    requires i + |line| + 1 <= |s| && s[i..i + |line| + 1] == line + "\n"
    ensures LineEnd(s, i) == i + |line| + 1
    decreases |line|
  {
    if |line| == 0 {
      assert s[i] == '\n';
    } else {
      assert s[i] == (line + "\n")[0] == line[0];
      assert s[i + 1..i + |line| + 1] == (line + "\n")[1..] == line[1..] + "\n";
      LineEndAfter(s, i + 1, line[1..]);
    }
  }

  /** Everything readline() returns until it returns "": the text cut after each '\n'. */
  function Lines(s: string, i: nat): (r: seq<string>)
    requires i <= |s|
    ensures forall k :: 0 <= k < |r| ==> r[k] != []
    decreases |s| - i
  {
    if i == |s| then [] else [LineAt(s, i)] + Lines(s, LineEnd(s, i))
  }

  /** The concatenation of the lines read is the text itself. */
  lemma {:induction false} LinesCover(s: string, i: nat)
    requires i <= |s|
    ensures Concat(Lines(s, i)) == s[i..]
    decreases |s| - i
  {
    if i < |s| {
      var e := LineEnd(s, i);
      LinesCover(s, e);
      assert s[i..] == s[i..e] + s[e..];
    }
  }

  function Concat(parts: seq<string>): string
  {
    if |parts| == 0 then "" else parts[0] + Concat(parts[1..])
  }

  /** Messages each written as `m + "\n"`. */
  function NewlineFramed(ms: seq<string>): string
  {
    if |ms| == 0 then "" else ms[0] + "\n" + NewlineFramed(ms[1..])
  }

  /** Framing two runs of messages frames the first, then the second. */
  lemma {:induction false} NewlineFramedAppend(a: seq<string>, b: seq<string>)
    ensures NewlineFramed(a + b) == NewlineFramed(a) + NewlineFramed(b)
    decreases |a|
  {
    if |a| == 0 {
      assert a + b == b;
    } else {
      assert (a + b)[1..] == a[1..] + b;
      NewlineFramedAppend(a[1..], b);
    }
  }

  /** Concatenation regroups; stated once so that loops need not re-derive it. */
  lemma Regroup<T>(a: seq<T>, b: seq<T>, c: seq<T>)
    ensures (a + b) + c == a + (b + c)
  {
  }

  /** Writing one more message extends the text by that message and its '\n'. */
  lemma {:induction false} NewlineFramedSnoc(ms: seq<string>, m: string)
    ensures NewlineFramed(ms + [m]) == NewlineFramed(ms) + m + "\n"
    decreases |ms|
  {
    if |ms| > 0 {
      assert (ms + [m])[1..] == ms[1..] + [m];
      NewlineFramedSnoc(ms[1..], m);
    }
  }

  /** Writing each message followed by "\n" and reading the text back line by line returns
      every message with its '\n', when no message contains a '\n' itself. */
  lemma {:induction false} NewlineFramedLines(ms: seq<string>)
    requires forall k :: 0 <= k < |ms| ==> '\n' !in ms[k]
    ensures |Lines(NewlineFramed(ms), 0)| == |ms|
    ensures forall k :: 0 <= k < |ms| ==> Lines(NewlineFramed(ms), 0)[k] == ms[k] + "\n"
  {
    if |ms| > 0 {
      var s := NewlineFramed(ms);
      var rest := NewlineFramed(ms[1..]);
      assert s == ms[0] + "\n" + rest;
      assert s[0..|ms[0]| + 1] == ms[0] + "\n";
      LineEndAfter(s, 0, ms[0]);
      var e := |ms[0]| + 1;
      LinesShift(ms[0] + "\n", rest);
      NewlineFramedLines(ms[1..]);
      assert LineAt(s, 0) == ms[0] + "\n";
    }
  }

  /** Lines after a prefix that ends at a line boundary are the lines of the rest. */
  lemma {:induction false} LinesShift(pre: string, rest: string)
    requires |pre| > 0 && pre[|pre| - 1] == '\n' && '\n' !in pre[..|pre| - 1]
    ensures LineEnd(pre + rest, 0) == |pre|
    ensures Lines(pre + rest, |pre|) == Lines(rest, 0)
  {
    var s := pre + rest;
    assert s[0..|pre|] == pre;
    assert pre == pre[..|pre| - 1] + "\n";
    LineEndAfter(s, 0, pre[..|pre| - 1]);
    LinesSuffix(pre, rest, 0);
  }

  lemma {:induction false} LinesSuffix(pre: string, rest: string, i: nat)
    requires i <= |rest|
    ensures Lines(pre + rest, |pre| + i) == Lines(rest, i)
    decreases |rest| - i
  {
    var s := pre + rest;
    if i < |rest| {
      LineEndSuffix(pre, rest, i);
      var e := LineEnd(rest, i);
      assert forall k :: i <= k < e ==> s[|pre| + k] == rest[k];
      assert s[|pre| + i..|pre| + e] == rest[i..e];
      LinesSuffix(pre, rest, e);
    }
  }

  lemma {:induction false} LineEndSuffix(pre: string, rest: string, i: nat)
    requires i <= |rest|
    ensures LineEnd(pre + rest, |pre| + i) == |pre| + LineEnd(rest, i)
    decreases |rest| - i
  {
    var s := pre + rest;
    if i < |rest| {
      assert s[|pre| + i] == rest[i];
      if rest[i] != '\n' { LineEndSuffix(pre, rest, i + 1); }
    }
  }
}
