/**
 * The few Python string builtins the business rules lean on: `str.isspace`,
 * `str.strip`, `str.split('\n')`, `str.isdigit`, `str(n)`, `c * n` and the
 * prefix slice `s[:k]`, each stated on `seq<char>`.
 */
module PyText {

  /** The characters for which Python's `str.isspace` holds: those `str.strip()` removes. */
  const SpaceChars: set<char> := {
    ' ', '\t', '\n', '\U{0b}', '\U{0c}', '\r', '\U{1c}', '\U{1d}', '\U{1e}', '\U{1f}',
    '\U{85}', '\U{a0}', '\U{1680}',
    '\U{2000}', '\U{2001}', '\U{2002}', '\U{2003}', '\U{2004}', '\U{2005}',
    '\U{2006}', '\U{2007}', '\U{2008}', '\U{2009}', '\U{200a}',
    '\U{2028}', '\U{2029}', '\U{202f}', '\U{205f}', '\U{3000}'
  }

  predicate IsSpace(c: char) {
    c in SpaceChars
  }

  predicate AllSpace(s: string) {
    forall i :: 0 <= i < |s| ==> IsSpace(s[i])
  }

  /** `s.lstrip()`: a suffix of `s` that does not start with whitespace, all of whose removed prefix is whitespace. */
  function LStrip(s: string): (r: string)
    ensures |r| <= |s| && r == s[|s| - |r|..]
    ensures r == "" || !IsSpace(r[0])
    ensures AllSpace(s[..|s| - |r|])
  {
    if s != [] && IsSpace(s[0]) then
      var t := s[1..];
      var r := LStrip(t);
      assert forall i :: 0 < i < |s| - |r| ==> s[i] == t[..|t| - |r|][i - 1];
      r
    else s
  }

  /** `s.rstrip()`: a prefix of `s` that does not end with whitespace, all of whose removed suffix is whitespace. */
  function RStrip(s: string): (r: string)
    ensures |r| <= |s| && r == s[..|r|]
    ensures r == "" || !IsSpace(r[|r| - 1])
    ensures AllSpace(s[|r|..])
  {
    if s != [] && IsSpace(s[|s| - 1]) then
      var p := s[..|s| - 1];
      var r := RStrip(p);
      assert forall i :: |r| <= i < |s| - 1 ==> s[i] == p[|r|..][i - |r|];
      r
    else s
  }

  /**
   * `s.strip()`: the middle of `s` left once the whitespace at both ends is
   * removed; what was removed is whitespace, and what is left neither
   * starts nor ends with it.
   */
  function Strip(s: string): (r: string)
    ensures |r| <= |s|
    ensures r == "" || (!IsSpace(r[0]) && !IsSpace(r[|r| - 1]))
    ensures exists i, j :: 0 <= i <= j <= |s| && r == s[i..j] && AllSpace(s[..i]) && AllSpace(s[j..])
  {
    var t := LStrip(s);
    var r := RStrip(t);
    assert r != "" ==> r[0] == t[0];
    var i, j := |s| - |t|, |s| - |t| + |r|;
    assert t == s[i..];
    assert r == s[i..j] by { assert r == t[..|r|]; }
    assert AllSpace(s[..i]);
    assert AllSpace(s[j..]) by { assert s[j..] == t[|r|..]; }
    r
  }

  lemma {:induction false} LStripBlank(s: string)
    ensures LStrip(s) == "" <==> AllSpace(s)
  {
    if s == [] {
    } else if IsSpace(s[0]) {
      var t := s[1..];
      LStripBlank(t);
      assert LStrip(s) == LStrip(t);
      if AllSpace(t) {
        forall i | 0 <= i < |s| ensures IsSpace(s[i]) {
          if i > 0 { assert s[i] == t[i - 1]; }
        }
      }
      if AllSpace(s) {
        forall i | 0 <= i < |t| ensures IsSpace(t[i]) {
          assert t[i] == s[i + 1];
        }
      }
    } else {
      assert LStrip(s) == s;
      assert !AllSpace(s) by { assert !IsSpace(s[0]); }
    }
  }

  lemma {:induction false} RStripBlank(s: string)
    ensures RStrip(s) == "" <==> AllSpace(s)
  {
    if s == [] {
    } else if IsSpace(s[|s| - 1]) {
      var p := s[..|s| - 1];
      RStripBlank(p);
      assert RStrip(s) == RStrip(p);
      if AllSpace(p) {
        forall i | 0 <= i < |s| ensures IsSpace(s[i]) {
          if i < |s| - 1 { assert s[i] == p[i]; }
        }
      }
      if AllSpace(s) {
        forall i | 0 <= i < |p| ensures IsSpace(p[i]) {
          assert p[i] == s[i];
        }
      }
    } else {
      assert RStrip(s) == s;
      assert !AllSpace(s) by { assert !IsSpace(s[|s| - 1]); }
    }
  }

  /** A line is blank for `strip()` exactly when every character of it is whitespace. */
  lemma StripBlank(s: string)
    ensures Strip(s) == "" <==> AllSpace(s)
  {
    LStripBlank(s);
    RStripBlank(LStrip(s));
    var t := LStrip(s);
    if t != "" {
      assert !IsSpace(t[0]);
    }
  }

  /** Stripping twice is stripping once. */
  lemma StripIdempotent(s: string)
    ensures Strip(Strip(s)) == Strip(s)
  {
  }

  /** `s.split('\n')`: the segments between newline characters; there is always at least one. */
  function SplitLines(s: string): (r: seq<string>)
    ensures |r| >= 1
    ensures forall k :: 0 <= k < |r| ==> '\n' !in r[k]
  {
    if s == [] then [""]
    else
      var rest := SplitLines(s[1..]);
      if s[0] == '\n' then [""] + rest
      else
        assert '\n' !in [s[0]] + rest[0];
        [[s[0]] + rest[0]] + rest[1..]
  }

  /** `'\n'.join(parts)`. */
  function JoinLines(parts: seq<string>): (text: string)
    requires |parts| >= 1
  {
    if |parts| == 1 then parts[0] else parts[0] + "\n" + JoinLines(parts[1..])
  }

  /** Joining the segments back with newlines gives the original text. */
  lemma {:induction false} JoinSplitLines(s: string)
    ensures JoinLines(SplitLines(s)) == s
  {
    if s != [] {
      var rest := SplitLines(s[1..]);
      JoinSplitLines(s[1..]);
      if s[0] == '\n' {
        assert SplitLines(s)[1..] == rest;
        assert JoinLines(SplitLines(s)) == "" + "\n" + JoinLines(rest);
        assert s == [s[0]] + s[1..];
      } else {
        var parts := SplitLines(s);
        assert parts[0] == [s[0]] + rest[0];
        if |rest| == 1 {
          assert |parts| == 1;
          assert s == [s[0]] + s[1..];
        } else {
          assert parts[1..] == rest[1..];
          calc {
            JoinLines(parts);
            parts[0] + "\n" + JoinLines(rest[1..]);
            [s[0]] + (rest[0] + "\n" + JoinLines(rest[1..]));
            [s[0]] + JoinLines(rest);
            [s[0]] + s[1..];
            s;
          }
        }
      }
    }
  }

  /** Text without a newline is a single segment. */
  lemma {:induction false} SplitLinesSingle(a: string)
    requires '\n' !in a
    ensures SplitLines(a) == [a]
  {
    if a != [] {
      assert '\n' !in a[1..];
      SplitLinesSingle(a[1..]);
      assert a == [a[0]] + a[1..];
    }
  }

  /** A newline-free head followed by a newline splits off as the first segment. */
  lemma {:induction false} SplitLinesCons(a: string, b: string)
    requires '\n' !in a
    ensures SplitLines(a + "\n" + b) == [a] + SplitLines(b)
  {
    var s := a + "\n" + b;
    if a == [] {
      assert s == "\n" + b;
      assert s[1..] == b;
    } else {
      assert '\n' !in a[1..];
      SplitLinesCons(a[1..], b);
      assert s[1..] == a[1..] + "\n" + b;
      assert s[0] == a[0];
      assert [a[0]] + a[1..] == a;
    }
  }

  /** Splitting newline-free parts joined with newlines gives the parts back. */
  lemma {:induction false} SplitJoinLines(parts: seq<string>)
    requires |parts| >= 1
    requires forall k :: 0 <= k < |parts| ==> '\n' !in parts[k]
    ensures SplitLines(JoinLines(parts)) == parts
  {
    if |parts| == 1 {
      SplitLinesSingle(parts[0]);
    } else {
      SplitJoinLines(parts[1..]);
      SplitLinesCons(parts[0], JoinLines(parts[1..]));
      assert [parts[0]] + parts[1..] == parts;
    }
  }

  /** `[x.strip() for x in segs]`. */
  function StripEach(segs: seq<string>): (r: seq<string>)
    ensures |r| == |segs| && forall k :: 0 <= k < |r| ==> r[k] == Strip(segs[k])
  {
    seq(|segs|, k requires 0 <= k < |segs| => Strip(segs[k]))
  }

  /** `[x for x in xs if x]`: the non-empty strings, in their original order. */
  function KeepNonEmpty(xs: seq<string>): (r: seq<string>)
    ensures |r| <= |xs|
    ensures forall k :: 0 <= k < |r| ==> r[k] != ""
  {
    if xs == [] then []
    else (if xs[0] != "" then [xs[0]] else []) + KeepNonEmpty(xs[1..])
  }

  /**
   * `[x.strip() for x in text.split('\n') if x.strip()]`: the rule shared by
   * every "one item per line" text field.
   */
  function NonBlankLines(text: string): (items: seq<string>) {
    KeepNonEmpty(StripEach(SplitLines(text)))
  }

  function Shift(idx: seq<nat>): (r: seq<nat>)
    ensures |r| == |idx| && forall k :: 0 <= k < |r| ==> r[k] == idx[k] + 1
  {
    seq(|idx|, k requires 0 <= k < |idx| => idx[k] + 1)
  }

  /** The positions of the non-empty strings, in increasing order. */
  function KeptPositions(xs: seq<string>): (idx: seq<nat>)
    ensures forall k :: 0 <= k < |idx| ==> idx[k] < |xs|
    ensures forall k, l :: 0 <= k < l < |idx| ==> idx[k] < idx[l]
  {
    if xs == [] then []
    else
      var rest := Shift(KeptPositions(xs[1..]));
      assert forall k :: 0 <= k < |rest| ==> 1 <= rest[k] < |xs|;
      if xs[0] != "" then [0] + rest else rest
  }

  /** The k-th kept string is the string at the k-th kept position. */
  lemma {:induction false} KeepNonEmptyAt(xs: seq<string>)
    ensures |KeepNonEmpty(xs)| == |KeptPositions(xs)|
    ensures forall k :: 0 <= k < |KeptPositions(xs)| ==> KeepNonEmpty(xs)[k] == xs[KeptPositions(xs)[k]]
  {
    if xs != [] {
      var tail := xs[1..];
      KeepNonEmptyAt(tail);
      var r, idx := KeepNonEmpty(xs), KeptPositions(xs);
      var r', idx' := KeepNonEmpty(tail), KeptPositions(tail);
      var h := if xs[0] != "" then 1 else 0;
      assert r == (if xs[0] != "" then [xs[0]] else []) + r';
      assert idx == (if xs[0] != "" then [0] else []) + Shift(idx');
      forall k | 0 <= k < |idx| ensures r[k] == xs[idx[k]] {
        if k >= h {
          assert idx[k] == idx'[k - h] + 1;
          assert r[k] == r'[k - h];
          assert xs[idx[k]] == tail[idx'[k - h]];
        }
      }
    }
  }

  /** Shifting the positions by one shifts membership by one. */
  lemma InShift(idx: seq<nat>, v: nat)
    ensures v + 1 in Shift(idx) <==> v in idx
    ensures 0 !in Shift(idx)
  {
    var r := Shift(idx);
    if v + 1 in r {
      var k :| 0 <= k < |r| && r[k] == v + 1;
      assert idx[k] == v;
    }
    if v in idx {
      var k :| 0 <= k < |idx| && idx[k] == v;
      assert r[k] == v + 1;
    }
  }

  /** A position is kept exactly when its string is not empty. */
  lemma {:induction false} KeptPositionsExact(xs: seq<string>, i: nat)
    requires i < |xs|
    ensures i in KeptPositions(xs) <==> xs[i] != ""
  {
    var tail := xs[1..];
    var idx', idx := KeptPositions(tail), KeptPositions(xs);
    var rest := Shift(idx');
    InShift(idx', if i == 0 then 0 else i - 1);
    if xs[0] != "" {
      assert idx == [0] + rest;
    } else {
      assert idx == rest;
    }
    if i > 0 {
      KeptPositionsExact(tail, i - 1);
      assert xs[i] == tail[i - 1];
    }
  }

  /** Nothing is dropped exactly when no string is empty. */
  lemma {:induction false} KeepNonEmptyKeepsAll(xs: seq<string>)
    ensures |KeepNonEmpty(xs)| == |xs| <==> forall i :: 0 <= i < |xs| ==> xs[i] != ""
  {
    if xs != [] {
      var tail := xs[1..];
      KeepNonEmptyKeepsAll(tail);
      assert forall i :: 0 < i < |xs| ==> xs[i] == tail[i - 1];
      if xs[0] == "" {
        assert |KeepNonEmpty(xs)| == |KeepNonEmpty(tail)|;
      }
    }
  }

  predicate IsAsciiDigit(c: char) {
    '0' <= c <= '9'
  }

  /**
   * One character for which Python's `str.isdigit` holds, restricted to the
   * ASCII, Arabic-Indic and Extended Arabic-Indic (Persian) digit ranges.
   */
  predicate IsDigitChar(c: char) {
    IsAsciiDigit(c) || '\U{0660}' <= c <= '\U{0669}' || '\U{06f0}' <= c <= '\U{06f9}'
  }

  /** `s.isdigit()`: false for the empty string, otherwise every character is a digit. */
  predicate IsDigits(s: string) {
    |s| > 0 && forall i :: 0 <= i < |s| ==> IsDigitChar(s[i])
  }

  predicate AllAsciiDigits(s: string) {
    forall i :: 0 <= i < |s| ==> IsAsciiDigit(s[i])
  }

  function DigitChar(d: nat): (c: char)
    requires d < 10
    ensures IsAsciiDigit(c)
  {
    ('0' as int + d) as char
  }

  function DigitValue(c: char): (d: nat)
    requires IsAsciiDigit(c)
    ensures d < 10 && DigitChar(d) == c
  {
    c as int - '0' as int
  }

  /** `str(n)` for a natural number: its decimal digits, without leading zeros. */
  function NatToString(n: nat): (s: string)
    ensures |s| >= 1 && AllAsciiDigits(s)
    ensures s[0] == '0' ==> n == 0
  {
    if n < 10 then [DigitChar(n)] else NatToString(n / 10) + [DigitChar(n % 10)]
  }

  /** `str(i)` for any integer. */
  function IntToString(i: int): (s: string)
    ensures i >= 0 ==> s == NatToString(i)
    ensures i < 0 ==> s == "-" + NatToString(-i)
  {
    if i < 0 then "-" + NatToString(-i) else NatToString(i)
  }

  /** `int(s)` for a string of ASCII digits. */
  function ParseDigits(s: string): (n: nat)
    requires AllAsciiDigits(s)
    ensures n < Pow10(|s|)
  {
    if s == [] then 0 else 10 * ParseDigits(s[..|s| - 1]) + DigitValue(s[|s| - 1])
  }

  /** Reading back the decimal digits gives the number: `int(str(n)) == n`. */
  lemma {:induction false} ParseNatToString(n: nat)
    ensures ParseDigits(NatToString(n)) == n
  {
    var s := NatToString(n);
    if n >= 10 {
      ParseNatToString(n / 10);
      assert s[..|s| - 1] == NatToString(n / 10);
    }
  }

  /**
   * `items` is what `[x.strip() for x in text.split('\n') if x.strip()]`
   * yields: one item per non-blank line, in line order (kept positions
   * increase), each that line stripped and therefore non-empty and already
   * stripped; nothing is dropped exactly when no line is blank.
   */
  predicate LineItemsOf(text: string, items: seq<string>) {
    var lines := SplitLines(text);
    var kept := KeptPositions(StripEach(lines));
    && |items| == |kept| <= |lines|
    && (forall k :: 0 <= k < |items| ==>
          items[k] != "" && Strip(items[k]) == items[k] && items[k] == Strip(lines[kept[k]]))
    && (forall i :: 0 <= i < |lines| ==> (i in kept <==> !AllSpace(lines[i])))
    && (|items| == |lines| <==> forall i :: 0 <= i < |lines| ==> !AllSpace(lines[i]))
  }

  lemma NonBlankLinesItems(text: string)
    ensures LineItemsOf(text, NonBlankLines(text))
  {
    var lines := SplitLines(text);
    ItemsCount(lines);
    ItemsAreStrippedLines(lines);
    KeptLinesAreNonBlank(lines);
    NothingDroppedIffNoBlank(lines);
  }

  lemma ItemsCount(lines: seq<string>)
    ensures |KeepNonEmpty(StripEach(lines))| == |KeptPositions(StripEach(lines))| <= |lines|
  {
    KeepNonEmptyAt(StripEach(lines));
  }

  lemma ItemsAreStrippedLines(lines: seq<string>)
    ensures var items, kept := KeepNonEmpty(StripEach(lines)), KeptPositions(StripEach(lines));
      forall k :: 0 <= k < |items| && k < |kept| ==>
        items[k] != "" && Strip(items[k]) == items[k] && items[k] == Strip(lines[kept[k]])
  {
    var stripped := StripEach(lines);
    var items, kept := KeepNonEmpty(stripped), KeptPositions(stripped);
    KeepNonEmptyAt(stripped);
    forall k | 0 <= k < |items| && k < |kept|
      ensures items[k] != "" && Strip(items[k]) == items[k] && items[k] == Strip(lines[kept[k]])
    {
      StripIdempotent(lines[kept[k]]);
    }
  }

  lemma KeptLinesAreNonBlank(lines: seq<string>)
    ensures forall i :: 0 <= i < |lines| ==> (i in KeptPositions(StripEach(lines)) <==> !AllSpace(lines[i]))
  {
    var stripped := StripEach(lines);
    forall i | 0 <= i < |lines| ensures i in KeptPositions(stripped) <==> !AllSpace(lines[i]) {
      KeptPositionsExact(stripped, i);
      StripBlank(lines[i]);
    }
  }

  lemma NothingDroppedIffNoBlank(lines: seq<string>)
    ensures |KeepNonEmpty(StripEach(lines))| == |lines| <==> forall i :: 0 <= i < |lines| ==> !AllSpace(lines[i])
  {
    var stripped := StripEach(lines);
    KeepNonEmptyKeepsAll(stripped);
    forall i | 0 <= i < |lines| ensures stripped[i] != "" <==> !AllSpace(lines[i]) {
      StripBlank(lines[i]);
    }
  }

  function Pow10(k: nat): (p: nat)
    ensures p >= 1
  {
    if k == 0 then 1 else 10 * Pow10(k - 1)
  }

  /** A number with exactly `k` decimal digits is written with `k` characters. */
  lemma {:induction false} NatToStringLength(n: nat, k: nat)
    requires 1 <= k
    requires (k == 1 || Pow10(k - 1) <= n) && n < Pow10(k)
    ensures |NatToString(n)| == k
  {
    if k > 1 {
      if k == 2 {
        assert 10 <= n;
      } else {
        assert Pow10(k - 2) <= n / 10 by {
          assert Pow10(k - 1) == 10 * Pow10(k - 2);
        }
      }
      NatToStringLength(n / 10, k - 1);
    }
  }

  /** A number below `10^k` is written with at most `k` characters. */
  lemma {:induction false} NatToStringLengthAtMost(n: nat, k: nat)
    requires 1 <= k && n < Pow10(k)
    ensures |NatToString(n)| <= k
  {
    if n >= 10 {
      assert k >= 2;
      assert n / 10 < Pow10(k - 1);
      NatToStringLengthAtMost(n / 10, k - 1);
    }
  }

  /** `c * n` for a one-character string: `n` copies of `c`, empty when `n <= 0`. */
  function RepeatChar(c: char, n: int): (r: string)
    ensures |r| == if n <= 0 then 0 else n
    ensures forall i :: 0 <= i < |r| ==> r[i] == c
    decreases n
  {
    if n <= 0 then "" else [c] + RepeatChar(c, n - 1)
  }

  /**
   * `s[:k]` with Python's rules: a negative `k` counts from the end, and a
   * bound past either end is clamped.
   */
  function SlicePrefix(s: string, k: int): (r: string)
    ensures |r| <= |s| && r == s[..|r|]
    ensures 0 <= k <= |s| ==> |r| == k
    ensures k >= |s| ==> r == s
    ensures k < 0 ==> |r| == if |s| + k <= 0 then 0 else |s| + k
  {
    if k >= |s| then s
    else if k >= 0 then s[..k]
    else if |s| + k <= 0 then ""
    else s[..|s| + k]
  }
}
