/** `vtt_parser.py`: timestamps and first-occurrence captions. */
module Vtt {
  import opened Basics
  import opened Ordering

  // ----- decimal numbers -----

  predicate IsDigit(c: char) { '0' <= c <= '9' }

  predicate AllDigits(s: string) { forall i :: 0 <= i < |s| ==> IsDigit(s[i]) }

  function DigitValue(c: char): nat
    requires IsDigit(c)
  {
    c as int - '0' as int
  }

  function DigitOf(n: nat): char
    requires n < 10
  {
    ('0' as int + n) as char
  }

  function Decimal(n: nat): (s: string)
    ensures s != [] && AllDigits(s)
  {
    if n < 10 then [DigitOf(n)] else Decimal(n / 10) + [DigitOf(n % 10)]
  }

  /** The value of a digit string. */
  function Value(s: string): nat
    requires AllDigits(s)
  {
    if s == [] then 0 else 10 * Value(s[..|s| - 1]) + DigitValue(s[|s| - 1])
  }

  /** `f"{n:02d}"`. */
  function Pad2(n: nat): string { if n < 10 then ['0'] + Decimal(n) else Decimal(n) }

  lemma {:induction false} ValueOfDecimal(n: nat)
    ensures Value(Decimal(n)) == n
  {
    if n >= 10 {
      ValueOfDecimal(n / 10);
      assert Decimal(n)[..|Decimal(n)| - 1] == Decimal(n / 10);
    }
  }

  lemma ValueOfPad2(n: nat)
    ensures AllDigits(Pad2(n)) && Pad2(n) != [] && Value(Pad2(n)) == n
  {
    ValueOfDecimal(n);
    if n < 10 {
      assert Pad2(n)[..1] == ['0'];
      assert Value(['0']) == 0 by { assert ['0'][..0] == []; }
    }
  }

  // ----- `int`, `float` and `str.split` on the texts a cue can hold -----

  function ParseInt(s: string): Option<nat> {
    if s != [] && AllDigits(s) then Some(Value(s)) else None
  }

  function Pow10(n: nat): (p: nat)
    ensures p > 0
  {
    if n == 0 then 1 else 10 * Pow10(n - 1)
  }

  /** Digits, or digits, a point and more digits. */
  function ParseFloat(s: string): Option<real> {
    var parts := Split(s, '.');
    if |parts| == 1 && ParseInt(parts[0]).Some? then Some(Value(parts[0]) as real)
    else if |parts| == 2 && ParseInt(parts[0]).Some? && ParseInt(parts[1]).Some? then
      Some(Value(parts[0]) as real + Value(parts[1]) as real / Pow10(|parts[1]|) as real)
    else None
  }

  function Split(s: string, sep: char): (parts: seq<string>)
    ensures parts != []
  {
    if s == [] then [[]]
    else
      var rest := Split(s[1..], sep);
      if s[0] == sep then [[]] + rest else [[s[0]] + rest[0]] + rest[1..]
  }

  lemma {:induction false} SplitAfter(a: string, sep: char, b: string)
    requires sep !in a
    ensures Split(a + [sep] + b, sep) == [a] + Split(b, sep)
  {
    if a == [] {
      assert ([] + [sep] + b)[1..] == b;
    } else {
      SplitAfter(a[1..], sep, b);
      assert (a + [sep] + b)[1..] == a[1..] + [sep] + b;
      assert a == [a[0]] + a[1..];
    }
  }

  lemma {:induction false} SplitNothing(a: string, sep: char)
    requires sep !in a
    ensures Split(a, sep) == [a]
  {
    if a != [] {
      SplitNothing(a[1..], sep);
      assert a == [a[0]] + a[1..];
    }
  }

  function CommaToPoint(s: string): (r: string)
    ensures |r| == |s|
    ensures forall i :: 0 <= i < |s| ==> r[i] == if s[i] == ',' then '.' else s[i]
  {
    seq(|s|, i requires 0 <= i < |s| => if s[i] == ',' then '.' else s[i])
  }

  /** `ts_to_seconds`; None stands for its ValueError. */
  function TsToSeconds(ts: string): Option<real> {
    var parts := Split(CommaToPoint(ts), ':');
    if |parts| == 3 && ParseInt(parts[0]).Some? && ParseInt(parts[1]).Some? && ParseFloat(parts[2]).Some? then
      Some((Value(parts[0]) * 3600 + Value(parts[1]) * 60) as real + ParseFloat(parts[2]).value)
    else None
  }

  /** `seconds_to_hms` of a non-negative time. */
  function SecondsToHms(secs: real): string
    requires secs >= 0.0
  {
    var n := secs.Floor;
    Pad2(n / 3600) + [':'] + Pad2(n % 3600 / 60) + [':'] + Pad2(n % 60)
  }

  lemma DigitsHaveNo(s: string, sep: char)
    requires AllDigits(s) && !IsDigit(sep)
    ensures sep !in s
  {
  }

  /** Three fields between colons, read back. */
  lemma ReadFields(h: string, m: string, s: string)
    requires ':' !in h && ':' !in m && ':' !in s
    requires ',' !in h && ',' !in m
    ensures var parts := Split(CommaToPoint(h + [':'] + m + [':'] + s), ':');
            parts == [h, m, CommaToPoint(s)]
  {
    var all := h + [':'] + m + [':'] + s;
    assert CommaToPoint(all) == h + [':'] + (m + [':'] + CommaToPoint(s));
    SplitAfter(h, ':', m + [':'] + CommaToPoint(s));
    SplitAfter(m, ':', CommaToPoint(s));
    SplitNothing(CommaToPoint(s), ':');
  }

  lemma FieldsConvert(ts: string, h: string, m: string, seconds: string)
    requires Split(CommaToPoint(ts), ':') == [h, m, seconds]
    requires h != [] && AllDigits(h) && m != [] && AllDigits(m) && ParseFloat(seconds).Some?
    ensures TsToSeconds(ts) == Some((Value(h) * 3600 + Value(m) * 60) as real + ParseFloat(seconds).value)
  {
  }

  lemma Sexagesimal(n: nat)
    ensures n / 3600 * 3600 + n % 3600 / 60 * 60 + n % 60 == n
  {
    assert n % 3600 % 60 == n % 60;
  }

  lemma PlainFloat(s: string)
    requires s != [] && AllDigits(s)
    ensures CommaToPoint(s) == s && ParseFloat(s) == Some(Value(s) as real)
  {
    hide Value;
    DigitsHaveNo(s, ',');
    DigitsHaveNo(s, '.');
    SplitNothing(s, '.');
  }

  lemma DigitFieldsConvert(h: string, m: string, s: string)
    requires h != [] && AllDigits(h) && m != [] && AllDigits(m) && s != [] && AllDigits(s)
    ensures TsToSeconds(h + [':'] + m + [':'] + s) == Some((Value(h) * 3600 + Value(m) * 60) as real + Value(s) as real)
  {
    hide Value, TsToSeconds, ParseFloat, Split;
    DigitsHaveNo(h, ':'); DigitsHaveNo(m, ':'); DigitsHaveNo(s, ':');
    DigitsHaveNo(h, ','); DigitsHaveNo(m, ',');
    ReadFields(h, m, s);
    PlainFloat(s);
    FieldsConvert(h + [':'] + m + [':'] + s, h, m, s);
  }

  /** Reading a printed time gives back its whole seconds, for every time, however many hours it has. */
  lemma PrintedTimeReadsBack(secs: real)
    requires secs >= 0.0
    ensures TsToSeconds(SecondsToHms(secs)) == Some(secs.Floor as real)
  {
    hide Value, TsToSeconds, Pad2;
    var n: nat := secs.Floor;
    ValueOfPad2(n / 3600);
    ValueOfPad2(n % 3600 / 60);
    ValueOfPad2(n % 60);
    DigitFieldsConvert(Pad2(n / 3600), Pad2(n % 3600 / 60), Pad2(n % 60));
    Sexagesimal(n);
  }

  /** What the cue pattern `\d{2}:\d{2}:\d{2}[.,]\d{3}` matches. */
  predicate IsStamp(ts: string) {
    && |ts| == 12
    && AllDigits(ts[..2]) && ts[2] == ':'
    && AllDigits(ts[3..5]) && ts[5] == ':'
    && AllDigits(ts[6..8]) && (ts[8] == '.' || ts[8] == ',')
    && AllDigits(ts[9..])
  }

  /** A matched cue always converts: hours, minutes, seconds and milliseconds, with either separator. */
  lemma StampConverts(ts: string)
    requires IsStamp(ts)
    ensures TsToSeconds(ts) == Some(
      (Value(ts[..2]) * 3600 + Value(ts[3..5]) * 60) as real
      + (Value(ts[6..8]) as real + Value(ts[9..]) as real / 1000.0))
  {
    hide TsToSeconds, ParseFloat, Value;
    var h, m, s := ts[..2], ts[3..5], ts[6..];
    var whole, part := ts[6..8], ts[9..];
    assert ts == h + [':'] + m + [':'] + s;
    assert s == whole + [ts[8]] + part;
    SecondsRead(whole, ts[8], part);
    DigitsHaveNo(h, ':'); DigitsHaveNo(m, ':'); DigitsHaveNo(h, ','); DigitsHaveNo(m, ',');
    ReadFields(h, m, s);
    FieldsConvert(ts, h, m, CommaToPoint(s));
  }

  /** Two digits, a point or a comma, three digits. */
  lemma SecondsRead(whole: string, sep: char, part: string)
    requires whole != [] && AllDigits(whole) && |part| == 3 && AllDigits(part) && (sep == '.' || sep == ',')
    ensures ':' !in whole + [sep] + part
    ensures ParseFloat(CommaToPoint(whole + [sep] + part)) == Some(Value(whole) as real + Value(part) as real / 1000.0)
  {
    hide Split, Value, ParseFloat;
    DigitsHaveNo(whole, '.'); DigitsHaveNo(part, '.');
    DigitsHaveNo(whole, ','); DigitsHaveNo(part, ',');
    assert CommaToPoint(whole + [sep] + part) == whole + ['.'] + part;
    SplitAfter(whole, '.', part);
    SplitNothing(part, '.');
    FloatOf(whole + ['.'] + part, whole, part);
  }

  lemma FloatOf(s: string, whole: string, part: string)
    requires Split(s, '.') == [whole, part]
    requires whole != [] && AllDigits(whole) && |part| == 3 && AllDigits(part)
    ensures ParseFloat(s) == Some(Value(whole) as real + Value(part) as real / 1000.0)
  {
    hide Split, Value;
    assert Pow10(3) == 1000;
  }

  // ----- captions -----

  /** A line of the file after stripping: skipped, a cue with its start stamp, or a caption without markup. */
  datatype Line = Skipped | Cue(stamp: string) | Caption(text: string)

  datatype Segment = Segment(start: real, text: string)

  predicate WellFormed(lines: seq<Line>) { forall i :: 0 <= i < |lines| && lines[i].Cue? ==> IsStamp(lines[i].stamp) }

  predicate NotLater(a: Segment, b: Segment) { a.start <= b.start }

  /** The cue time in force at the end of `lines`. */
  function CueTime(lines: seq<Line>): real
    requires WellFormed(lines)
  {
    if lines == [] then 0.0
    else
      var last := lines[|lines| - 1];
      if last.Cue? && TsToSeconds(last.stamp).Some? then TsToSeconds(last.stamp).value
      else CueTime(lines[..|lines| - 1])
  }

  /** First occurrences in file order, each with the cue time in force there. */
  function Firsts(lines: seq<Line>): seq<Segment>
    requires WellFormed(lines)
  {
    if lines == [] then []
    else
      var before, last := lines[..|lines| - 1], lines[|lines| - 1];
      if last.Caption? && last !in before then Firsts(before) + [Segment(CueTime(before), last.text)]
      else Firsts(before)
  }

  lemma LastTime(before: seq<Line>, last: Line)
    requires WellFormed(before + [last])
    ensures WellFormed(before)
    ensures CueTime(before + [last]) ==
            if last.Cue? && TsToSeconds(last.stamp).Some? then TsToSeconds(last.stamp).value else CueTime(before)
  {
    hide TsToSeconds, IsStamp;
    assert (before + [last])[..|before|] == before;
    assert forall i :: 0 <= i < |before| ==> before[i] == (before + [last])[i];
  }

  lemma LastLine(before: seq<Line>, last: Line)
    requires WellFormed(before + [last])
    ensures WellFormed(before)
    ensures Firsts(before + [last]) ==
            if last.Caption? && last !in before then Firsts(before) + [Segment(CueTime(before), last.text)]
            else Firsts(before)
  {
    hide CueTime, IsStamp;
    assert (before + [last])[..|before|] == before;
    assert forall i :: 0 <= i < |before| ==> before[i] == (before + [last])[i];
  }

  /** The parser's variables after `lines`; `seen` and `order` together are a Python dictionary. */
  ghost predicate Collected(lines: seq<Line>, current: real, seen: map<string, real>, order: seq<string>)
    requires WellFormed(lines)
  {
    && current == CueTime(lines)
    && (forall t :: t in seen <==> Caption(t) in lines)
    && |order| == |Firsts(lines)|
    && forall i :: 0 <= i < |order| ==> order[i] in seen && Firsts(lines)[i] == Segment(seen[order[i]], order[i])
  }

  /** A line that brings no new caption. */
  lemma CollectedOther(lines: seq<Line>, line: Line, current: real, seen: map<string, real>, order: seq<string>)
    requires WellFormed(lines) && WellFormed(lines + [line]) && Collected(lines, current, seen, order)
    requires line.Caption? ==> line.text in seen
    ensures Collected(lines + [line], CueTime(lines + [line]), seen, order)
  {
    hide CueTime, Firsts;
    LastLine(lines, line);
  }

  lemma CollectedCaption(lines: seq<Line>, text: string, current: real, seen: map<string, real>, order: seq<string>)
    requires WellFormed(lines) && WellFormed(lines + [Caption(text)]) && Collected(lines, current, seen, order)
    requires text !in seen
    ensures Collected(lines + [Caption(text)], current, seen[text := current], order + [text])
  {
    hide CueTime, Firsts;
    LastLine(lines, Caption(text));
    LastTime(lines, Caption(text));
  }

  lemma NothingCollected()
    ensures Collected([], 0.0, map[], [])
  {
  }

  lemma CollectedTime(lines: seq<Line>, current: real, seen: map<string, real>, order: seq<string>)
    requires WellFormed(lines) && Collected(lines, current, seen, order)
    ensures current == CueTime(lines)
  {
  }

  lemma CollectedKeys(lines: seq<Line>, current: real, seen: map<string, real>, order: seq<string>)
    requires WellFormed(lines) && Collected(lines, current, seen, order)
    ensures |order| == |Firsts(lines)|
    ensures forall i :: 0 <= i < |order| ==> order[i] in seen && Firsts(lines)[i] == Segment(seen[order[i]], order[i])
  {
  }

  /** `s` is the first occurrence of its caption, at line `i`. */
  ghost predicate FirstAt(lines: seq<Line>, s: Segment, i: nat)
    requires WellFormed(lines)
  {
    i < |lines| && lines[i] == Caption(s.text) && Caption(s.text) !in lines[..i] && s.start == CueTime(lines[..i])
  }

  lemma FirstStays(before: seq<Line>, last: Line, s: Segment, i: nat)
    requires WellFormed(before) && WellFormed(before + [last]) && i < |before|
    ensures FirstAt(before, s, i) <==> FirstAt(before + [last], s, i)
  {
    assert (before + [last])[..i] == before[..i];
  }

  lemma FirstArrives(before: seq<Line>, last: Line, s: Segment)
    requires WellFormed(before) && WellFormed(before + [last])
    ensures FirstAt(before + [last], s, |before|) <==>
            last == Caption(s.text) && last !in before && s.start == CueTime(before)
  {
    assert (before + [last])[..|before|] == before;
  }

  lemma FirstsStep(before: seq<Line>, last: Line, s: Segment)
    requires WellFormed(before) && WellFormed(before + [last])
    ensures s in Firsts(before + [last]) <==>
            s in Firsts(before) || (last == Caption(s.text) && last !in before && s.start == CueTime(before))
  {
    assert (before + [last])[..|before|] == before;
  }

  /** The collected segments are exactly the first occurrences. */
  lemma {:induction false} FirstsAreFirst(lines: seq<Line>, s: Segment)
    requires WellFormed(lines)
    ensures s in Firsts(lines) <==> exists i: nat :: FirstAt(lines, s, i)
  {
    if lines != [] {
      hide FirstAt, Firsts, CueTime;
      var before, last := lines[..|lines| - 1], lines[|lines| - 1];
      assert lines == before + [last];
      FirstsAreFirst(before, s);
      FirstsStep(before, last, s);
      FirstArrives(before, last, s);
      forall i: nat | i < |before| ensures FirstAt(before, s, i) <==> FirstAt(lines, s, i) {
        FirstStays(before, last, s, i);
      }
      forall i: nat ensures FirstAt(before, s, i) ==> i < |before| { FirstBounded(before, s, i); }
      forall i: nat ensures FirstAt(lines, s, i) ==> i <= |before| { FirstBounded(lines, s, i); }
    }
  }

  lemma FirstBounded(lines: seq<Line>, s: Segment, i: nat)
    requires WellFormed(lines)
    ensures FirstAt(lines, s, i) ==> i < |lines|
  {
  }

  lemma InPrefix(lines: seq<Line>, i: nat, j: nat)
    requires i < j <= |lines|
    ensures lines[i] in lines[..j]
  {
    assert lines[..j][i] == lines[i];
  }

  lemma FirstUnique(lines: seq<Line>, s: Segment, t: Segment)
    requires WellFormed(lines) && s in Firsts(lines) && t in Firsts(lines) && s.text == t.text
    ensures s == t
  {
    FirstsAreFirst(lines, s);
    FirstsAreFirst(lines, t);
    var i: nat :| FirstAt(lines, s, i);
    var j: nat :| FirstAt(lines, t, j);
    if i < j {
      InPrefix(lines, i, j);
    } else if j < i {
      InPrefix(lines, j, i);
    }
  }

  lemma {:induction false} FirstsDistinct(lines: seq<Line>, i: nat, j: nat)
    requires WellFormed(lines) && i < j < |Firsts(lines)|
    ensures Firsts(lines)[i].text != Firsts(lines)[j].text
  {
    var before, last := lines[..|lines| - 1], lines[|lines| - 1];
    if j < |Firsts(before)| {
      FirstsDistinct(before, i, j);
    } else {
      FirstsAreFirst(before, Firsts(before)[i]);
      var k: nat :| FirstAt(before, Firsts(before)[i], k);
      assert before[k] in before;
    }
  }

  /** The parser's answer: one segment per caption, at its first cue time, in time order. */
  lemma ResultMeaning(lines: seq<Line>, result: seq<Segment>)
    requires WellFormed(lines) && result == StableSort(NotLater, Firsts(lines))
    ensures forall i, j :: 0 <= i < j < |result| ==> result[i].start <= result[j].start
    ensures forall i, j :: 0 <= i < j < |result| ==> result[i].text != result[j].text
    ensures forall s :: s in result <==> exists i: nat :: FirstAt(lines, s, i)
  {
    SortIsSorted(NotLater, Firsts(lines));
    forall i, j | 0 <= i < j < |result| ensures result[i].start <= result[j].start {
      assert NotLater(result[i], result[j]);
    }
    forall s ensures s in result <==> exists i: nat :: FirstAt(lines, s, i) {
      SortMembers(NotLater, Firsts(lines), s);
      FirstsAreFirst(lines, s);
    }
    forall i, j | 0 <= i < j < |result| ensures result[i].text != result[j].text {
      SortKeepsDistinct(lines, result, i, j);
    }
  }

  lemma SortKeepsDistinct(lines: seq<Line>, result: seq<Segment>, i: nat, j: nat)
    requires WellFormed(lines) && result == StableSort(NotLater, Firsts(lines))
    requires i < j < |result|
    ensures result[i].text != result[j].text
  {
    var firsts := Firsts(lines);
    SortMembers(NotLater, firsts, result[i]);
    SortMembers(NotLater, firsts, result[j]);
    if result[i].text == result[j].text {
      FirstUnique(lines, result[i], result[j]);
      TwiceIn(result, i, j);
      OnceIn(firsts, result[i], lines);
    }
  }

  lemma TwiceIn(s: seq<Segment>, i: nat, j: nat)
    requires i < j < |s| && s[i] == s[j]
    ensures multiset(s)[s[i]] >= 2
  {
    assert s == s[..j] + s[j..];
    assert s[i] in multiset(s[..j]) && s[j] in multiset(s[j..]);
  }

  lemma {:induction false} OnceIn(firsts: seq<Segment>, s: Segment, lines: seq<Line>)
    requires WellFormed(lines) && firsts <= Firsts(lines)
    ensures multiset(firsts)[s] <= 1
  {
    if firsts != [] {
      var front, last := firsts[..|firsts| - 1], firsts[|firsts| - 1];
      OnceIn(front, s, lines);
      assert firsts == front + [last];
      if s == last && s in front {
        var k :| 0 <= k < |front| && front[k] == s;
        FirstsDistinct(lines, k, |firsts| - 1);
      }
    }
  }

  // ----- the answer, told from the lines -----

  /** Digits `i` and `i + 1` as a number. */
  function TwoDigits(ts: string, i: nat): nat
    requires i + 1 < |ts| && IsDigit(ts[i]) && IsDigit(ts[i + 1])
  {
    10 * DigitValue(ts[i]) + DigitValue(ts[i + 1])
  }

  /** Hours, minutes, seconds and thousandths. */
  function StampSeconds(ts: string): real
    requires IsStamp(ts)
  {
    StampDigits(ts);
    (3600 * TwoDigits(ts, 0) + 60 * TwoDigits(ts, 3) + TwoDigits(ts, 6)) as real
    + (100 * DigitValue(ts[9]) + 10 * DigitValue(ts[10]) + DigitValue(ts[11])) as real / 1000.0
  }

  lemma StampDigits(ts: string)
    requires IsStamp(ts)
    ensures forall i :: 0 <= i < 12 && i != 2 && i != 5 && i != 8 ==> IsDigit(ts[i])
  {
    assert ts[0] == ts[..2][0] && ts[1] == ts[..2][1] && ts[3] == ts[3..5][0] && ts[4] == ts[3..5][1];
    assert ts[6] == ts[6..8][0] && ts[7] == ts[6..8][1];
    assert ts[9] == ts[9..][0] && ts[10] == ts[9..][1] && ts[11] == ts[9..][2];
  }

  lemma ValueOfTwo(s: string)
    requires |s| == 2 && AllDigits(s)
    ensures Value(s) == 10 * DigitValue(s[0]) + DigitValue(s[1])
  {
    assert s[..1] == [s[0]] && [s[0]][..0] == [];
    assert Value([s[0]]) == DigitValue(s[0]);
  }

  lemma ValueOfThree(s: string)
    requires |s| == 3 && AllDigits(s)
    ensures Value(s) == 100 * DigitValue(s[0]) + 10 * DigitValue(s[1]) + DigitValue(s[2])
  {
    ValueOfTwo(s[..2]);
  }

  /** A stamp converts to its seconds. */
  lemma StampIsSeconds(ts: string)
    requires IsStamp(ts)
    ensures TsToSeconds(ts) == Some(StampSeconds(ts))
  {
    hide TsToSeconds, Value;
    StampDigits(ts);
    StampConverts(ts);
    ValueOfTwo(ts[..2]);
    ValueOfTwo(ts[3..5]);
    ValueOfTwo(ts[6..8]);
    ValueOfThree(ts[9..]);
  }

  /** `HH:MM:SS` and, behind a point or a comma, thousandths. */
  function StampOf(h: nat, m: nat, s: nat, ms: nat, sep: char): string
    requires h < 100 && m < 100 && s < 100 && ms < 1000
  {
    [DigitOf(h / 10), DigitOf(h % 10), ':', DigitOf(m / 10), DigitOf(m % 10), ':', DigitOf(s / 10), DigitOf(s % 10), sep,
     DigitOf(ms / 100), DigitOf(ms / 10 % 10), DigitOf(ms % 10)]
  }

  /** Every such text is a cue's stamp, and converting it gives back its time. */
  lemma StampReadsBack(h: nat, m: nat, s: nat, ms: nat, sep: char)
    requires h < 100 && m < 100 && s < 100 && ms < 1000 && (sep == '.' || sep == ',')
    ensures TsToSeconds(StampOf(h, m, s, ms, sep)) == Some((3600 * h + 60 * m + s) as real + ms as real / 1000.0)
  {
    hide TsToSeconds, DigitOf, DigitValue;
    var ts := StampOf(h, m, s, ms, sep);
    forall n: nat | n < 10 ensures IsDigit(DigitOf(n)) && DigitValue(DigitOf(n)) == n { DigitReadsBack(n); }
    assert IsStamp(ts);
    StampIsSeconds(ts);
    assert ms / 100 * 100 + ms / 10 % 10 * 10 + ms % 10 == ms;
  }

  lemma DigitReadsBack(n: nat)
    requires n < 10
    ensures IsDigit(DigitOf(n)) && DigitValue(DigitOf(n)) == n
  {
  }

  /** The last cue above line `i` says `start`; above the first cue it is 0. */
  ghost predicate InForce(lines: seq<Line>, i: nat, start: real)
    requires WellFormed(lines) && i <= |lines|
  {
    || (start == 0.0 && forall c :: 0 <= c < i ==> !lines[c].Cue?)
    || exists c: nat :: LastCue(lines, i, c) && start == StampSeconds(lines[c].stamp)
  }

  ghost predicate LastCue(lines: seq<Line>, i: nat, c: nat)
    requires i <= |lines|
  {
    c < i && lines[c].Cue? && forall d :: c < d < i ==> !lines[d].Cue?
  }

  /** Line `i` is the first with the caption. */
  ghost predicate FirstWith(lines: seq<Line>, text: string, i: nat) {
    i < |lines| && lines[i] == Caption(text) && forall j :: 0 <= j < i ==> lines[j] != Caption(text)
  }

  /** One segment for each caption, from the first line with it and with the time in force there; the segments are in
      time order, those of one time in the order of their lines. */
  ghost predicate Transcribes(lines: seq<Line>, result: seq<Segment>, from: seq<nat>)
    requires WellFormed(lines)
  {
    && |from| == |result|
    && (forall x :: 0 <= x < |result| ==>
          FirstWith(lines, result[x].text, from[x]) && InForce(lines, from[x], result[x].start))
    && (forall text, i: nat :: FirstWith(lines, text, i) ==> i in from)
    && forall x, y :: 0 <= x < y < |result| ==>
         result[x].start < result[y].start || (result[x].start == result[y].start && from[x] < from[y])
  }

  lemma {:induction false} TimeInForce(lines: seq<Line>, i: nat)
    requires WellFormed(lines) && i <= |lines|
    ensures InForce(lines, i, CueTime(lines[..i]))
  {
    hide StampSeconds, IsStamp, TsToSeconds;
    if i > 0 {
      assert lines[..i] == lines[..i - 1] + [lines[i - 1]];
      LastTime(lines[..i - 1], lines[i - 1]);
      if lines[i - 1].Cue? {
        StampIsSeconds(lines[i - 1].stamp);
        assert LastCue(lines, i, i - 1);
      } else {
        TimeInForce(lines, i - 1);
        if c: nat :| LastCue(lines, i - 1, c) && CueTime(lines[..i - 1]) == StampSeconds(lines[c].stamp) {
          assert LastCue(lines, i, c);
        }
      }
    }
  }

  /** The first line with a caption, or the number of lines. */
  ghost function FirstLine(lines: seq<Line>, text: string): (i: nat)
    ensures i <= |lines|
  {
    if lines == [] then 0
    else
      var before := FirstLine(lines[..|lines| - 1], text);
      if before < |lines| - 1 then before else if lines[|lines| - 1] == Caption(text) then |lines| - 1 else |lines|
  }

  lemma {:induction false} FirstLineIs(lines: seq<Line>, text: string, i: nat)
    requires FirstWith(lines, text, i)
    ensures FirstLine(lines, text) == i
  {
    if i < |lines| - 1 {
      FirstLineIs(lines[..|lines| - 1], text, i);
    } else {
      NotYet(lines[..i], text);
    }
  }

  lemma {:induction false} NotYet(lines: seq<Line>, text: string)
    requires Caption(text) !in lines
    ensures FirstLine(lines, text) == |lines|
  {
    if lines != [] {
      NotYet(lines[..|lines| - 1], text);
    }
  }

  lemma FirstAtWith(lines: seq<Line>, s: Segment, i: nat)
    requires WellFormed(lines) && FirstAt(lines, s, i)
    ensures FirstWith(lines, s.text, i) && InForce(lines, i, s.start)
  {
    hide CueTime, InForce;
    TimeInForce(lines, i);
    forall j | 0 <= j < i ensures lines[j] != Caption(s.text) { assert lines[..i][j] == lines[j]; }
  }

  lemma {:induction false} FirstsRise(lines: seq<Line>, x: nat, y: nat)
    requires WellFormed(lines) && x < y < |Firsts(lines)|
    ensures FirstLine(lines, Firsts(lines)[x].text) < FirstLine(lines, Firsts(lines)[y].text)
  {
    hide CueTime, FirstAt, FirstLine, IsStamp;
    var before := lines[..|lines| - 1];
    var s, t := Firsts(lines)[x], Firsts(lines)[y];
    FirstsAreFirst(before, s);
    var i: nat :| FirstAt(before, s, i);
    LineStays(lines, s, i);
    if y < |Firsts(before)| {
      FirstsRise(before, x, y);
      FirstsAreFirst(before, t);
      var j: nat :| FirstAt(before, t, j);
      LineStays(lines, t, j);
    } else {
      LastIsFirst(lines, t.text);
    }
  }

  lemma LineStays(lines: seq<Line>, s: Segment, i: nat)
    requires lines != [] && WellFormed(lines[..|lines| - 1]) && FirstAt(lines[..|lines| - 1], s, i)
    ensures FirstLine(lines, s.text) == FirstLine(lines[..|lines| - 1], s.text) == i < |lines| - 1
  {
    hide CueTime, InForce;
    var before := lines[..|lines| - 1];
    FirstAtWith(before, s, i);
    FirstLineIs(before, s.text, i);
  }

  lemma LastIsFirst(lines: seq<Line>, text: string)
    requires lines != [] && lines[|lines| - 1] == Caption(text) && Caption(text) !in lines[..|lines| - 1]
    ensures FirstLine(lines, text) == |lines| - 1
  {
    NotYet(lines[..|lines| - 1], text);
  }

  lemma SegmentFrom(lines: seq<Line>, s: Segment)
    requires WellFormed(lines) && s in StableSort(NotLater, Firsts(lines))
    ensures var i := FirstLine(lines, s.text); FirstWith(lines, s.text, i) && InForce(lines, i, s.start)
  {
    hide CueTime, StableSort, Firsts, IsStamp, InForce, FirstAt, FirstLine, FirstWith;
    SortMembers(NotLater, Firsts(lines), s);
    FirstsAreFirst(lines, s);
    var i: nat :| FirstAt(lines, s, i);
    FirstAtWith(lines, s, i);
    FirstLineIs(lines, s.text, i);
  }

  lemma FirstIsTaken(lines: seq<Line>, text: string, i: nat) returns (x: nat)
    requires WellFormed(lines) && FirstWith(lines, text, i)
    ensures var result := StableSort(NotLater, Firsts(lines));
            x < |result| && result[x].text == text && FirstLine(lines, text) == i
  {
    hide CueTime, StableSort, Firsts, IsStamp, FirstLine;
    var s := Segment(CueTime(lines[..i]), text);
    assert FirstAt(lines, s, i);
    FirstsAreFirst(lines, s);
    SortMembers(NotLater, Firsts(lines), s);
    FirstLineIs(lines, text, i);
    var result := StableSort(NotLater, Firsts(lines));
    x :| 0 <= x < |result| && result[x] == s;
  }

  lemma TranscriptOrder(lines: seq<Line>)
    requires WellFormed(lines)
    ensures var result := StableSort(NotLater, Firsts(lines));
            forall x, y :: 0 <= x < y < |result| ==>
              || result[x].start < result[y].start
              || (result[x].start == result[y].start && FirstLine(lines, result[x].text) < FirstLine(lines, result[y].text))
  {
    hide CueTime, StableSort, Firsts, IsStamp, FirstLine;
    var firsts := Firsts(lines);
    var lineOf := (s: Segment) => FirstLine(lines, s.text);
    forall x, y | 0 <= x < y < |firsts| ensures lineOf(firsts[x]) < lineOf(firsts[y]) { FirstsRise(lines, x, y); }
    SortIsStable(NotLater, lineOf, firsts);
    var result := StableSort(NotLater, firsts);
    forall x, y | 0 <= x < y < |result|
      ensures || result[x].start < result[y].start
              || (result[x].start == result[y].start && lineOf(result[x]) < lineOf(result[y]))
    {
      assert NotLater(result[x], result[y]);
    }
  }

  /** The sorted first occurrences transcribe the file. */
  lemma TranscriptMeaning(lines: seq<Line>) returns (from: seq<nat>)
    requires WellFormed(lines)
    ensures Transcribes(lines, StableSort(NotLater, Firsts(lines)), from)
  {
    hide FirstLine, FirstWith, InForce, StableSort, Firsts, IsStamp;
    var result := StableSort(NotLater, Firsts(lines));
    from := seq(|result|, x requires 0 <= x < |result| => FirstLine(lines, result[x].text));
    forall x | 0 <= x < |result|
      ensures FirstWith(lines, result[x].text, from[x]) && InForce(lines, from[x], result[x].start)
    {
      SegmentFrom(lines, result[x]);
    }
    forall text, i: nat | FirstWith(lines, text, i) ensures i in from {
      var x := FirstIsTaken(lines, text, i);
      assert from[x] == i;
    }
    TranscriptOrder(lines);
  }

  /** `parse_vtt_timestamped` on classified lines; `seen` is a Python dictionary, so it keeps arrival order. */
  method ParseTimestamped(lines: seq<Line>) returns (result: seq<Segment>, ghost from: seq<nat>)
    requires WellFormed(lines)
    ensures result == StableSort(NotLater, Firsts(lines))
    ensures Transcribes(lines, result, from)
  {
    hide CueTime, Firsts, Collected, TsToSeconds, IsStamp, Transcribes;
    var current := 0.0;
    var seen: map<string, real> := map[];
    var order: seq<string> := [];
    NothingCollected();
    for n := 0 to |lines|
      invariant Collected(lines[..n], current, seen, order)
    {
      var line := lines[n];
      assert lines[..n + 1] == lines[..n] + [line];
      LastTime(lines[..n], line);
      if line.Caption? && line.text !in seen {
        CollectedCaption(lines[..n], line.text, current, seen, order);
      } else {
        CollectedTime(lines[..n], current, seen, order);
        CollectedOther(lines[..n], line, current, seen, order);
      }
      match line
      case Skipped =>
      case Cue(stamp) =>
        StampConverts(stamp);
        current := TsToSeconds(stamp).value;
      case Caption(text) =>
        if text !in seen {
          seen := seen[text := current];
          order := order + [text];
        }
    }
    assert lines[..|lines|] == lines;
    CollectedKeys(lines, current, seen, order);
    var collected := seq(|order|, i requires 0 <= i < |order| => Segment(seen[order[i]], order[i]));
    assert collected == Firsts(lines);
    result := StableSort(NotLater, collected);
    from := TranscriptMeaning(lines);
  }

  /** Cue times that never decrease: the file is already in time order and the final sort changes nothing. */
  lemma OrderedCuesNeedNoSort(lines: seq<Line>)
    requires WellFormed(lines)
    requires forall i, j :: 0 <= i <= j <= |lines| ==> CueTime(lines[..i]) <= CueTime(lines[..j])
    ensures StableSort(NotLater, Firsts(lines)) == Firsts(lines)
  {
    forall i, j | 0 <= i < j < |Firsts(lines)| ensures NotLater(Firsts(lines)[i], Firsts(lines)[j]) {
      FirstsInOrder(lines, i, j);
    }
    SortOfSorted(NotLater, Firsts(lines));
  }

  lemma {:induction false} FirstsInOrder(lines: seq<Line>, i: nat, j: nat)
    requires WellFormed(lines)
    requires forall i, j :: 0 <= i <= j <= |lines| ==> CueTime(lines[..i]) <= CueTime(lines[..j])
    requires i < j < |Firsts(lines)|
    ensures Firsts(lines)[i].start <= Firsts(lines)[j].start
  {
    var n := |lines| - 1;
    var before := lines[..n];
    assert forall k :: 0 <= k <= n ==> before[..k] == lines[..k];
    if j < |Firsts(before)| {
      FirstsInOrder(before, i, j);
    } else {
      var s := Firsts(before)[i];
      FirstsAreFirst(before, s);
      var k: nat :| FirstAt(before, s, k);
      assert CueTime(lines[..k]) <= CueTime(lines[..n]);
    }
  }

  lemma {:induction false} RepetitionKeepsTime(a: seq<Line>, text: string, b: seq<Line>)
    requires WellFormed(a) && WellFormed(b)
    ensures WellFormed(a + [Caption(text)] + b) && WellFormed(a + b)
    ensures CueTime(a + [Caption(text)] + b) == CueTime(a + b)
    decreases |b|
  {
    hide CueTime, TsToSeconds, IsStamp;
    var c := Caption(text);
    if b == [] {
      assert a + [c] + b == a + [c] && a + b == a;
      LastTime(a, c);
    } else {
      var before, last := b[..|b| - 1], b[|b| - 1];
      RepetitionKeepsTime(a, text, before);
      assert a + [c] + b == (a + [c] + before) + [last];
      assert a + b == (a + before) + [last];
      LastTime(a + [c] + before, last);
      LastTime(a + before, last);
    }
  }

  /** Repeating a caption that was already seen never changes the result. */
  lemma {:induction false} RepetitionIsIgnored(a: seq<Line>, text: string, b: seq<Line>)
    requires WellFormed(a) && WellFormed(b) && Caption(text) in a
    ensures WellFormed(a + [Caption(text)] + b) && WellFormed(a + b)
    ensures Firsts(a + [Caption(text)] + b) == Firsts(a + b)
    decreases |b|
  {
    hide Firsts, CueTime;
    var c := Caption(text);
    RepetitionKeepsTime(a, text, b);
    if b == [] {
      assert a + [c] + b == a + [c] && a + b == a;
      LastLine(a, c);
    } else {
      var before, last := b[..|b| - 1], b[|b| - 1];
      RepetitionKeepsTime(a, text, before);
      RepetitionIsIgnored(a, text, before);
      assert a + [c] + b == (a + [c] + before) + [last];
      assert a + b == (a + before) + [last];
      InSpliced(a, c, before, last);
      LastLine(a + [c] + before, last);
      LastLine(a + before, last);
    }
  }

  lemma InSpliced(a: seq<Line>, c: Line, b: seq<Line>, x: Line)
    requires c in a
    ensures x in a + [c] + b <==> x in a + b
  {
  }
}
