/** String helpers shared by the job manager: Java's decimal rendering of an
    `int`, the captured process output built line by line, and the line
    reader's view of that output. */
module Text {
  import opened Wrappers

  predicate StartsWith(s: string, prefix: string) {
    |prefix| <= |s| && s[..|prefix|] == prefix
  }

  lemma SplitAtPrefix(s: string, prefix: string)
    requires StartsWith(s, prefix)
    ensures s == prefix + s[|prefix|..]
  {
    assert s == s[..|prefix|] + s[|prefix|..];
  }

  lemma StartsWithConcat(prefix: string, rest: string)
    ensures StartsWith(prefix + rest, prefix)
  {
    assert (prefix + rest)[..|prefix|] == prefix;
  }

  // ---------------------------------------------------------------------------
  // Decimal rendering of integers (Java's `"" + n`)
  // ---------------------------------------------------------------------------

  function DigitChar(d: nat): char
    requires d < 10
  {
    "0123456789"[d]
  }

  function DigitValue(c: char): Option<nat> {
    if '0' <= c <= '9' then Some((c - '0') as nat) else None
  }

  function NatToString(n: nat): (s: string)
    ensures |s| >= 1
    ensures forall i :: 0 <= i < |s| ==> DigitValue(s[i]).Some?
    ensures n > 0 ==> s[0] != '0'
    decreases n
  {
    if n < 10 then [DigitChar(n)] else NatToString(n / 10) + [DigitChar(n % 10)]
  }

  /** Decimal text of `n`, with a leading '-' for negative values. */
  function IntToString(n: int): string {
    if n < 0 then "-" + NatToString(-n) else NatToString(n)
  }

  /** Value of a non-empty run of decimal digits; `None` for anything else. */
  function ParseDigits(s: string): Option<nat>
    decreases |s|
  {
    if |s| == 0 then None
    else
      var d := DigitValue(s[|s| - 1]);
      if d.None? then None
      else if |s| == 1 then Some(d.value)
      else
        var high := ParseDigits(s[..|s| - 1]);
        if high.None? then None else Some(high.value * 10 + d.value)
  }

  /** Reads back an optionally negative decimal integer. */
  function ParseInt(s: string): Option<int> {
    var negative := |s| > 0 && s[0] == '-';
    var digits := ParseDigits(if negative then s[1..] else s);
    if digits.None? then None
    else if negative then Some(0 - digits.value)
    else Some(digits.value as int)
  }

  lemma {:induction false} NatToStringRoundTrip(n: nat)
    ensures ParseDigits(NatToString(n)) == Some(n)
    decreases n
  {
    if n >= 10 {
      NatToStringRoundTrip(n / 10);
      var s := NatToString(n);
      assert s[..|s| - 1] == NatToString(n / 10);
    }
  }

  lemma ParseSignedDigits(t: string)
    requires ParseDigits(t).Some? && t[0] != '-'
    ensures ParseInt(t) == Some(ParseDigits(t).value as int)
    ensures ParseInt("-" + t) == Some(0 - ParseDigits(t).value)
  {
    var s := "-" + t;
    assert s[0] == '-' && s[1..] == t;
  }

  /** The decimal text of an exit code can be read back: the number in an
      `ERROR: Exit code <n> - ...` status is recoverable. */
  lemma IntToStringRoundTrip(n: int)
    ensures ParseInt(IntToString(n)) == Some(n)
  {
    var t := NatToString(if n < 0 then -n else n);
    NatToStringRoundTrip(if n < 0 then -n else n);
    assert DigitValue(t[0]).Some?;
    ParseSignedDigits(t);
  }

  // ---------------------------------------------------------------------------
  // Captured process output
  // ---------------------------------------------------------------------------

  /** The output accumulated by the read loop: every line read, each followed
      by a newline. */
  function CaptureOutput(lines: seq<string>): (out: string)
    ensures lines == [] ==> out == ""
    ensures lines != [] ==> |out| > 0 && out[|out| - 1] == '\n'
  {
    if lines == [] then "" else CaptureOutput(lines[..|lines| - 1]) + lines[|lines| - 1] + "\n"
  }

  /** Number of characters captured: the lines' lengths plus one newline each. */
  function TotalLength(lines: seq<string>): nat {
    if lines == [] then 0 else TotalLength(lines[..|lines| - 1]) + |lines[|lines| - 1]| + 1
  }

  lemma {:induction false} CaptureOutputLength(lines: seq<string>)
    ensures |CaptureOutput(lines)| == TotalLength(lines)
  {
    if lines != [] {
      CaptureOutputLength(lines[..|lines| - 1]);
    }
  }

  predicate IsLine(l: string) {
    '\n' !in l
  }

  /** Index of the first `c` in `s`, or `|s|` when there is none. */
  function IndexOf(s: string, c: char): (i: nat)
    ensures i <= |s|
    ensures forall k :: 0 <= k < i ==> s[k] != c
    ensures i < |s| ==> s[i] == c
    decreases |s|
  {
    if |s| == 0 then 0 else if s[0] == c then 0 else 1 + IndexOf(s[1..], c)
  }

  /** In `a + b`, where `a` holds no `c` and `b` starts with one, the first
      `c` is the first character of `b`. */
  lemma IndexOfAfterFreePrefix(a: string, b: string, c: char)
    requires c !in a
    requires b != [] && b[0] == c
    ensures IndexOf(a + b, c) == |a|
  {
    var s := a + b;
    assert s[|a|] == c;
    assert forall k :: 0 <= k < |a| ==> s[k] == a[k];
  }

  /** The decimal text of an integer is a minus sign and digits, so it holds
      no space. */
  lemma IntToStringHasNoSpace(n: int)
    ensures ' ' !in IntToString(n)
  {
    var digits := NatToString(if n < 0 then -n else n);
    assert DigitValue(' ').None?;
    if n < 0 {
      assert forall k :: 0 <= k < |digits| ==> IntToString(n)[k + 1] == digits[k];
    }
  }

  /** Splits text into newline-terminated lines, as a line reader does; a
      trailing piece without a newline is the last line. */
  function SplitLines(s: string): seq<string>
    decreases |s|
  {
    if |s| == 0 then []
    else
      var i := IndexOf(s, '\n');
      if i == |s| then [s] else [s[..i]] + SplitLines(s[i + 1..])
  }

  lemma SplitLinesCons(line: string, rest: string)
    requires IsLine(line)
    ensures SplitLines(line + "\n" + rest) == [line] + SplitLines(rest)
  {
    var s := line + "\n" + rest;
    assert s[|line|] == '\n';
    assert forall k :: 0 <= k < |line| ==> s[k] == line[k];
    assert IndexOf(s, '\n') == |line|;
    assert s[..|line|] == line;
    assert s[|line| + 1..] == rest;
  }

  function CaptureFrom(lines: seq<string>): string {
    if lines == [] then "" else lines[0] + "\n" + CaptureFrom(lines[1..])
  }

  lemma {:induction false} CaptureFromAppend(lines: seq<string>, last: string)
    ensures CaptureFrom(lines + [last]) == CaptureFrom(lines) + last + "\n"
  {
    if lines != [] {
      assert (lines + [last])[1..] == lines[1..] + [last];
      CaptureFromAppend(lines[1..], last);
    } else {
      assert CaptureFrom([last]) == last + "\n" + CaptureFrom([]);
    }
  }

  lemma {:induction false} CaptureOutputFront(lines: seq<string>)
    ensures CaptureOutput(lines) == CaptureFrom(lines)
  {
    if lines != [] {
      var init := lines[..|lines| - 1];
      CaptureOutputFront(init);
      CaptureFromAppend(init, lines[|lines| - 1]);
      assert init + [lines[|lines| - 1]] == lines;
    }
  }

  lemma {:induction false} SplitCaptureFrom(lines: seq<string>)
    requires forall i :: 0 <= i < |lines| ==> IsLine(lines[i])
    ensures SplitLines(CaptureFrom(lines)) == lines
  {
    if lines != [] {
      SplitCaptureFrom(lines[1..]);
      SplitLinesCons(lines[0], CaptureFrom(lines[1..]));
    }
  }

  /** Reading the captured output back line by line yields exactly the lines
      that were read from the process: no line is lost, merged or split. */
  lemma SplitCaptureRoundTrip(lines: seq<string>)
    requires forall i :: 0 <= i < |lines| ==> IsLine(lines[i])
    ensures SplitLines(CaptureOutput(lines)) == lines
  {
    CaptureOutputFront(lines);
    SplitCaptureFrom(lines);
  }
}
