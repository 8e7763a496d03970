/** The SRT printer and a parser for it: three lines an entry, a blank line between entries, times in whole
    milliseconds, and text with its white space normalised and its markup escaped. */
module Srt {
  import opened ControllerTypes
  import Decimal

  datatype Segment = Segment(startMs: int, endMs: int, text: string)

  // ---------------------------------------------------------------- _safe_text

  /** What `str.split()` takes for white space. */
  predicate IsSpace(c: char) {
    || '\t' <= c <= '\r' || '\U{1c}' <= c <= ' ' || c == '\U{85}' || c == '\U{a0}' || c == '\U{1680}'
    || '\U{2000}' <= c <= '\U{200a}' || c == '\U{2028}' || c == '\U{2029}' || c == '\U{202f}' || c == '\U{205f}'
    || c == '\U{3000}'
  }

  predicate IsWord(s: string) {
    s != "" && forall i :: 0 <= i < |s| ==> !IsSpace(s[i])
  }

  function WordRun(s: string): (k: nat)
    ensures k <= |s| && (forall i :: 0 <= i < k ==> !IsSpace(s[i])) && (k < |s| ==> IsSpace(s[k]))
  {
    if s == "" || IsSpace(s[0]) then 0 else 1 + WordRun(s[1..])
  }

  function Words(s: string): (words: seq<string>)
    ensures forall i :: 0 <= i < |words| ==> IsWord(words[i])
    decreases |s|
  {
    if s == "" then []
    else if IsSpace(s[0]) then Words(s[1..])
    else [s[..WordRun(s)]] + Words(s[WordRun(s)..])
  }

  function JoinWords(words: seq<string>): string {
    if words == [] then ""
    else if |words| == 1 then words[0]
    else words[0] + " " + JoinWords(words[1..])
  }

  function Normalized(text: string): string {
    JoinWords(Words(text))
  }

  function EscapeChar(c: char): string {
    match c case '&' => "&amp;" case '<' => "&lt;" case '>' => "&gt;" case _ => [c]
  }

  function EscapeHtml(s: string): string {
    if s == "" then "" else EscapeChar(s[0]) + EscapeHtml(s[1..])
  }

  function SafeText(text: string): string {
    EscapeHtml(Normalized(text))
  }

  // ---------------------------------------------------------------- _srt_timestamp and _srt_bytes

  function Pad2(n: nat): string {
    if n < 10 then "0" + Decimal.Print(n) else Decimal.Print(n)
  }

  function Pad3(n: nat): string {
    if n < 10 then "00" + Decimal.Print(n) else if n < 100 then "0" + Decimal.Print(n) else Decimal.Print(n)
  }

  function Whole(ms: int): nat {
    if ms < 0 then 0 else ms
  }

  function Timestamp(ms: int): string {
    var total := Whole(ms);
    var rest := total % 3_600_000;
    Pad2(total / 3_600_000) + ":" + Pad2(rest / 60_000) + ":" + Pad2(rest % 60_000 / 1000) + "," + Pad3(rest % 1000)
  }

  function EntryOf(index: nat, segment: Segment): string {
    Decimal.Print(index) + "\n" + Timestamp(segment.startMs) + " --> " + Timestamp(segment.endMs) + "\n"
    + SafeText(segment.text)
  }

  /** The entries from `index` on, with a blank line between them. */
  function JoinEntries(index: nat, segments: seq<Segment>): string
    decreases segments
  {
    if segments == [] then ""
    else if |segments| == 1 then EntryOf(index, segments[0])
    else EntryOf(index, segments[0]) + "\n\n" + JoinEntries(index + 1, segments[1..])
  }

  function Print(segments: seq<Segment>): string {
    JoinEntries(1, segments) + (if segments == [] then "" else "\n")
  }

  // ---------------------------------------------------------------- reading it back

  datatype Entry = Entry(index: nat, startMs: nat, endMs: nat, text: string)

  datatype Line = Line(text: string, rest: string)

  function ReadLine(s: string): (r: Option<Line>)
    ensures r.Some? ==> |r.value.rest| < |s|
  {
    if s == "" then None
    else if s[0] == '\n' then Some(Line("", s[1..]))
    else match ReadLine(s[1..])
      case None => None
      case Some(line) => Some(Line([s[0]] + line.text, line.rest))
  }

  datatype Time = Time(ms: nat, rest: string)

  datatype Part = Part(value: nat, rest: string)

  /** The separator and then exactly `n` digits. */
  function ReadPart(s: string, separator: char, n: nat): Option<Part> {
    if s == "" || s[0] != separator || |s| < n + 1 || !Decimal.AllDigits(s[1..n + 1]) then None
    else Some(Part(Decimal.Value(s[1..n + 1]), s[n + 1..]))
  }

  function ReadClock(hours: nat, s: string): Option<Time> {
    match ReadPart(s, ':', 2)
    case None => None
    case Some(minutes) =>
      match ReadPart(minutes.rest, ':', 2)
      case None => None
      case Some(seconds) =>
        match ReadPart(seconds.rest, ',', 3)
        case None => None
        case Some(millis) =>
          Some(Time(hours * 3_600_000 + minutes.value * 60_000 + seconds.value * 1000 + millis.value, millis.rest))
  }

  function ReadTime(s: string): Option<Time> {
    var k := Decimal.DigitRun(s);
    if k < 2 then None else ReadClock(Decimal.Value(s[..k]), s[k..])
  }

  datatype Times = Times(startMs: nat, endMs: nat)

  function ReadTimes(s: string): Option<Times> {
    match ReadTime(s)
    case None => None
    case Some(start) =>
      if |start.rest| < 5 || start.rest[..5] != " --> " then None
      else match ReadTime(start.rest[5..])
        case None => None
        case Some(end) => if end.rest == "" then Some(Times(start.ms, end.ms)) else None
  }

  function ReadIndex(s: string): Option<nat> {
    if s != "" && Decimal.AllDigits(s) then Some(Decimal.Value(s)) else None
  }

  function Unescaped(s: string): string {
    if s == "" then ""
    else if 5 <= |s| && s[..5] == "&amp;" then "&" + Unescaped(s[5..])
    else if 4 <= |s| && s[..4] == "&lt;" then "<" + Unescaped(s[4..])
    else if 4 <= |s| && s[..4] == "&gt;" then ">" + Unescaped(s[4..])
    else [s[0]] + Unescaped(s[1..])
  }

  datatype ReadEntry = ReadEntry(entry: Entry, rest: string)

  function ReadOne(s: string): (r: Option<ReadEntry>)
    ensures r.Some? ==> |r.value.rest| < |s|
  {
    match ReadLine(s)
    case None => None
    case Some(first) =>
      match ReadLine(first.rest)
      case None => None
      case Some(second) =>
        match ReadLine(second.rest)
        case None => None
        case Some(third) =>
          match (ReadIndex(first.text), ReadTimes(second.text))
          case (Some(index), Some(times)) =>
            Some(ReadEntry(Entry(index, times.startMs, times.endMs, Unescaped(third.text)), third.rest))
          case _ => None
  }

  function Parse(s: string): Option<seq<Entry>>
    decreases |s|
  {
    if s == "" then Some([])
    else match ReadOne(s)
      case None => None
      case Some(read) =>
        if read.rest == "" then Some([read.entry])
        else if read.rest[0] != '\n' then None
        else match Parse(read.rest[1..])
          case None => None
          case Some(more) => Some([read.entry] + more)
  }

  // ---------------------------------------------------------------- text

  predicate OneLine(s: string) {
    forall i :: 0 <= i < |s| ==> s[i] != '\n'
  }

  lemma {:induction false} JoinedIsOneLine(words: seq<string>)
    requires forall i :: 0 <= i < |words| ==> IsWord(words[i])
    ensures OneLine(JoinWords(words))
  {
    if |words| > 1 { JoinedIsOneLine(words[1..]); }
  }

  lemma {:induction false} RunOfWord(w: string, rest: string)
    requires (forall i :: 0 <= i < |w| ==> !IsSpace(w[i])) && (rest != "" ==> IsSpace(rest[0]))
    ensures WordRun(w + rest) == |w| && (w + rest)[..|w|] == w && (w + rest)[|w|..] == rest
  {
    if w == "" {
      assert w + rest == rest;
    } else {
      RunOfWord(w[1..], rest);
      assert (w + rest)[1..] == w[1..] + rest;
    }
  }

  /** Normalising changes no word and is settled after one turn. */
  lemma {:induction false} WordsOfJoined(words: seq<string>)
    requires forall i :: 0 <= i < |words| ==> IsWord(words[i])
    ensures Words(JoinWords(words)) == words
    decreases words
  {
    if |words| == 1 {
      RunOfWord(words[0], "");
      assert words[0] + "" == words[0];
      assert Words(words[0]) == [words[0]];
    } else if words != [] {
      var tail := " " + JoinWords(words[1..]);
      RunOfWord(words[0], tail);
      assert JoinWords(words) == words[0] + tail;
      WordsOfJoined(words[1..]);
      assert tail[1..] == JoinWords(words[1..]);
      assert Words(tail) == words[1..];
    }
  }

  lemma NormalizingKeepsWords(text: string)
    ensures Words(Normalized(text)) == Words(text)
    ensures Normalized(Normalized(text)) == Normalized(text)
  {
    WordsOfJoined(Words(text));
  }

  lemma UnescapeAmp(tail: string)
    ensures Unescaped("&amp;" + tail) == "&" + Unescaped(tail)
  {
    var s := "&amp;" + tail;
    assert s[..5] == "&amp;" && s[5..] == tail;
  }

  lemma UnescapeLt(tail: string)
    ensures Unescaped("&lt;" + tail) == "<" + Unescaped(tail)
  {
    var s := "&lt;" + tail;
    assert s[1] == 'l' && s[..4] == "&lt;" && s[4..] == tail;
    assert 5 <= |s| ==> s[..5][1] == 'l';
  }

  lemma UnescapeGt(tail: string)
    ensures Unescaped("&gt;" + tail) == ">" + Unescaped(tail)
  {
    var s := "&gt;" + tail;
    assert s[1] == 'g' && s[..4] == "&gt;" && s[4..] == tail;
    assert s[..4][1] == 'g' && (5 <= |s| ==> s[..5][1] == 'g');
  }

  lemma UnescapePlain(c: char, tail: string)
    requires c != '&'
    ensures Unescaped([c] + tail) == [c] + Unescaped(tail)
  {
    var s := [c] + tail;
    assert s[0] == c && s[1..] == tail;
    assert (5 <= |s| ==> s[..5][0] == c) && (4 <= |s| ==> s[..4][0] == c);
  }

  lemma {:induction false} UnescapeEscape(s: string)
    ensures Unescaped(EscapeHtml(s)) == s
  {
    if s != "" {
      var tail := EscapeHtml(s[1..]);
      UnescapeEscape(s[1..]);
      match s[0] {
        case '&' => UnescapeAmp(tail);
        case '<' => UnescapeLt(tail);
        case '>' => UnescapeGt(tail);
        case _ => UnescapePlain(s[0], tail);
      }
      assert s == [s[0]] + s[1..];
    }
  }

  /** No text line holds a line break or a greater-than sign, so none holds an arrow. */
  lemma {:induction false} EscapedIsSafe(s: string)
    requires OneLine(s)
    ensures OneLine(EscapeHtml(s)) && forall i :: 0 <= i < |EscapeHtml(s)| ==> EscapeHtml(s)[i] != '>'
  {
    if s != "" { EscapedIsSafe(s[1..]); }
  }

  lemma TextLinesAreSafe(text: string)
    ensures OneLine(SafeText(text)) && forall i :: 0 <= i < |SafeText(text)| ==> SafeText(text)[i] != '>'
  {
    JoinedIsOneLine(Words(text));
    EscapedIsSafe(Normalized(text));
  }

  // ---------------------------------------------------------------- numbers and times

  lemma TwoDigits(n: nat)
    requires n < 100
    ensures |Pad2(n)| == 2 && Decimal.AllDigits(Pad2(n)) && Decimal.Value(Pad2(n)) == n
  {
    Decimal.ParsePrint(n);
    if n < 10 {
      assert Pad2(n)[..1] == "0";
      assert Decimal.Value("0") == 0 by { assert "0"[..0] == ""; }
    } else {
      assert Decimal.Print(n) == Decimal.Print(n / 10) + [Decimal.DigitOf(n % 10)];
    }
  }

  lemma ThreeDigits(n: nat)
    requires n < 1000
    ensures |Pad3(n)| == 3 && Decimal.AllDigits(Pad3(n)) && Decimal.Value(Pad3(n)) == n
  {
    Decimal.ParsePrint(n);
    if n < 100 {
      TwoDigits(n);
      assert Pad3(n) == "0" + Pad2(n);
      LeadingZero(Pad2(n));
    } else {
      assert Decimal.Print(n) == Decimal.Print(n / 10) + [Decimal.DigitOf(n % 10)];
      assert Decimal.Print(n / 10) == Decimal.Print(n / 100) + [Decimal.DigitOf(n / 10 % 10)];
    }
  }

  lemma {:induction false} LeadingZero(s: string)
    requires Decimal.AllDigits(s)
    ensures Decimal.AllDigits("0" + s) && Decimal.Value("0" + s) == Decimal.Value(s)
  {
    var t := "0" + s;
    if s == "" {
      assert t[..0] == "";
    } else {
      LeadingZero(s[..|s| - 1]);
      assert t[..|t| - 1] == "0" + s[..|s| - 1];
    }
  }

  lemma HoursDigits(n: nat)
    ensures |Pad2(n)| >= 2 && Decimal.AllDigits(Pad2(n)) && Decimal.Value(Pad2(n)) == n
  {
    if n < 100 {
      TwoDigits(n);
    } else {
      Decimal.ParsePrint(n);
      Decimal.ParsePrint(n / 10);
    }
  }

  lemma ClockParts(total: nat)
    ensures
      var rest := total % 3_600_000;
      && rest / 60_000 < 60 && rest % 60_000 / 1000 < 60 && rest % 1000 < 1000
      && total == total / 3_600_000 * 3_600_000 + rest / 60_000 * 60_000 + rest % 60_000 / 1000 * 1000 + rest % 1000
  {
    var rest := total % 3_600_000;
    assert rest == rest / 60_000 * 60_000 + rest % 60_000;
    assert rest % 60_000 == rest % 60_000 / 1000 * 1000 + rest % 60_000 % 1000;
    assert rest % 60_000 % 1000 == rest % 1000;
  }

  lemma PartSlices(separator: char, digits: string, rest: string)
    ensures var t := [separator] + (digits + rest);
      |t| >= |digits| + 1 && t[0] == separator && t[1..|digits| + 1] == digits && t[|digits| + 1..] == rest
  {
  }

  lemma ReadPartFrom(s: string, separator: char, digits: string, rest: string)
    requires Decimal.AllDigits(digits)
    requires |s| >= |digits| + 1 && s[0] == separator && s[1..|digits| + 1] == digits && s[|digits| + 1..] == rest
    ensures ReadPart(s, separator, |digits|) == Some(Part(Decimal.Value(digits), rest))
  {
  }

  lemma ReadPartBack(separator: char, digits: string, rest: string)
    requires Decimal.AllDigits(digits)
    ensures ReadPart([separator] + (digits + rest), separator, |digits|) == Some(Part(Decimal.Value(digits), rest))
  {
    PartSlices(separator, digits, rest);
    ReadPartFrom([separator] + (digits + rest), separator, digits, rest);
  }

  lemma ReadClockFrom(hours: nat, s: string, minutes: Part, seconds: Part, millis: Part)
    requires ReadPart(s, ':', 2) == Some(minutes) && ReadPart(minutes.rest, ':', 2) == Some(seconds)
    requires ReadPart(seconds.rest, ',', 3) == Some(millis)
    ensures ReadClock(hours, s) == Some(Time(
      hours * 3_600_000 + minutes.value * 60_000 + seconds.value * 1000 + millis.value, millis.rest))
  {
    hide ReadPart, Decimal.Value, Decimal.AllDigits;
  }

  lemma ReadClockBack(hours: nat, m: string, s: string, milli: string, rest: string)
    requires |m| == |s| == 2 && |milli| == 3
    requires Decimal.AllDigits(m) && Decimal.AllDigits(s) && Decimal.AllDigits(milli)
    ensures ReadClock(hours, ":" + (m + (":" + (s + ("," + (milli + rest)))))) == Some(Time(
      hours * 3_600_000 + Decimal.Value(m) * 60_000 + Decimal.Value(s) * 1000 + Decimal.Value(milli), rest))
  {
    hide *;
    ReadPartBack(':', m, ":" + (s + ("," + (milli + rest))));
    ReadPartBack(':', s, "," + (milli + rest));
    ReadPartBack(',', milli, rest);
    ReadClockFrom(hours, ":" + (m + (":" + (s + ("," + (milli + rest))))),
                  Part(Decimal.Value(m), ":" + (s + ("," + (milli + rest)))),
                  Part(Decimal.Value(s), "," + (milli + rest)), Part(Decimal.Value(milli), rest));
  }

  lemma ClockRegroup(h: string, m: string, s: string, milli: string, rest: string)
    ensures h + ":" + m + ":" + s + "," + milli + rest == h + (":" + (m + (":" + (s + ("," + (milli + rest))))))
  {
  }

  lemma ReadHours(h: string, tail: string)
    requires Decimal.AllDigits(h) && |h| >= 2 && tail != "" && tail[0] == ':'
    ensures ReadTime(h + tail) == ReadClock(Decimal.Value(h), tail)
  {
    Decimal.RunOfPrint(h, tail);
    assert (h + tail)[|h|..] == tail;
  }

  lemma ReadTimestamp(ms: int, rest: string)
    ensures ReadTime(Timestamp(ms) + rest) == Some(Time(Whole(ms), rest))
  {
    var total := Whole(ms);
    var r := total % 3_600_000;
    var h, m, s, milli := Pad2(total / 3_600_000), Pad2(r / 60_000), Pad2(r % 60_000 / 1000), Pad3(r % 1000);
    ClockParts(total);
    HoursDigits(total / 3_600_000);
    TwoDigits(r / 60_000);
    TwoDigits(r % 60_000 / 1000);
    ThreeDigits(r % 1000);
    ClockRegroup(h, m, s, milli, rest);
    ReadHours(h, ":" + (m + (":" + (s + ("," + (milli + rest))))));
    ReadClockBack(total / 3_600_000, m, s, milli, rest);
  }

  lemma ReadTwoTimes(s: string, rest: string, x: nat, y: nat)
    requires ReadTime(s) == Some(Time(x, rest))
    requires 5 <= |rest| && rest[..5] == " --> " && ReadTime(rest[5..]) == Some(Time(y, ""))
    ensures ReadTimes(s) == Some(Times(x, y))
  {
  }

  lemma Arrow(a: string, b: string)
    ensures a + " --> " + b == a + (" --> " + b)
    ensures (" --> " + b)[..5] == " --> " && (" --> " + b)[5..] == b + ""
  {
  }

  lemma ReadTimesBack(startMs: int, endMs: int)
    ensures ReadTimes(Timestamp(startMs) + " --> " + Timestamp(endMs)) == Some(Times(Whole(startMs), Whole(endMs)))
  {
    var a, b := Timestamp(startMs), Timestamp(endMs);
    ReadTimestamp(startMs, " --> " + b);
    ReadTimestamp(endMs, "");
    Arrow(a, b);
    ReadTwoTimes(a + (" --> " + b), " --> " + b, Whole(startMs), Whole(endMs));
  }

  // ---------------------------------------------------------------- entries

  lemma {:induction false} ReadLineBack(line: string, rest: string)
    requires OneLine(line)
    ensures ReadLine(line + ("\n" + rest)) == Some(Line(line, rest))
  {
    var s := line + ("\n" + rest);
    if line == "" {
      assert s == "\n" + rest;
      assert s[1..] == rest;
    } else {
      ReadLineBack(line[1..], rest);
      assert s[1..] == line[1..] + ("\n" + rest);
      assert line == [line[0]] + line[1..];
    }
  }

  lemma DigitsAreOneLine(s: string)
    requires Decimal.AllDigits(s)
    ensures OneLine(s)
  {
    forall i | 0 <= i < |s| ensures s[i] != '\n' { assert Decimal.IsDigit(s[i]); }
  }

  lemma TimestampIsOneLine(ms: int)
    ensures OneLine(Timestamp(ms))
  {
    var total := Whole(ms);
    var r := total % 3_600_000;
    HoursDigits(total / 3_600_000);
    HoursDigits(r / 60_000);
    HoursDigits(r % 60_000 / 1000);
    ThreeDigits(r % 1000);
    DigitsAreOneLine(Pad2(total / 3_600_000));
    DigitsAreOneLine(Pad2(r / 60_000));
    DigitsAreOneLine(Pad2(r % 60_000 / 1000));
    DigitsAreOneLine(Pad3(r % 1000));
  }

  function Expected(index: nat, segment: Segment): Entry {
    Entry(index, Whole(segment.startMs), Whole(segment.endMs), Normalized(segment.text))
  }

  lemma ReadThree(first: string, second: string, third: string, rest: string)
    requires OneLine(first) && OneLine(second) && OneLine(third)
    requires ReadIndex(first).Some? && ReadTimes(second).Some?
    ensures ReadOne(first + ("\n" + (second + ("\n" + (third + ("\n" + rest)))))) == Some(ReadEntry(
      Entry(ReadIndex(first).value, ReadTimes(second).value.startMs, ReadTimes(second).value.endMs, Unescaped(third)),
      rest))
  {
    ReadLineBack(first, second + ("\n" + (third + ("\n" + rest))));
    ReadLineBack(second, third + ("\n" + rest));
    ReadLineBack(third, rest);
  }

  lemma Regroup(first: string, a: string, b: string, third: string, rest: string)
    ensures first + "\n" + a + " --> " + b + "\n" + third + ("\n" + rest)
         == first + ("\n" + ((a + " --> " + b) + ("\n" + (third + ("\n" + rest)))))
  {
  }

  lemma TimesAreOneLine(startMs: int, endMs: int)
    ensures OneLine(Timestamp(startMs) + " --> " + Timestamp(endMs))
  {
    TimestampIsOneLine(startMs);
    TimestampIsOneLine(endMs);
  }

  lemma ReadEntryBack(index: nat, segment: Segment, rest: string)
    ensures ReadOne(EntryOf(index, segment) + ("\n" + rest)) == Some(ReadEntry(Expected(index, segment), rest))
  {
    var a, b := Timestamp(segment.startMs), Timestamp(segment.endMs);
    Decimal.ParsePrint(index);
    DigitsAreOneLine(Decimal.Print(index));
    TimesAreOneLine(segment.startMs, segment.endMs);
    ReadTimesBack(segment.startMs, segment.endMs);
    TextLinesAreSafe(segment.text);
    UnescapeEscape(Normalized(segment.text));
    ReadThree(Decimal.Print(index), a + " --> " + b, SafeText(segment.text), rest);
    Regroup(Decimal.Print(index), a, b, SafeText(segment.text), rest);
  }

  function ExpectedAll(index: nat, segments: seq<Segment>): seq<Entry>
    decreases segments
  {
    if segments == [] then [] else [Expected(index, segments[0])] + ExpectedAll(index + 1, segments[1..])
  }

  lemma ParseLast(s: string, entry: Entry)
    requires ReadOne(s) == Some(ReadEntry(entry, ""))
    ensures Parse(s) == Some([entry])
  {
  }

  lemma ParseMore(s: string, entry: Entry, more: string, entries: seq<Entry>)
    requires ReadOne(s) == Some(ReadEntry(entry, "\n" + more)) && Parse(more) == Some(entries)
    ensures Parse(s) == Some([entry] + entries)
  {
    assert ("\n" + more)[1..] == more;
  }

  lemma EntriesApart(entry: string, more: string)
    ensures entry + "\n\n" + more + "\n" == entry + ("\n" + ("\n" + (more + "\n")))
  {
  }

  lemma {:induction false} ParseJoined(index: nat, segments: seq<Segment>)
    requires segments != []
    ensures Parse(JoinEntries(index, segments) + "\n") == Some(ExpectedAll(index, segments))
    decreases segments
  {
    var entry := EntryOf(index, segments[0]);
    if |segments| == 1 {
      ReadEntryBack(index, segments[0], "");
      assert "\n" + "" == "\n";
      ParseLast(entry + "\n", Expected(index, segments[0]));
      assert ExpectedAll(index, segments) == [Expected(index, segments[0])];
    } else {
      var more := JoinEntries(index + 1, segments[1..]);
      ReadEntryBack(index, segments[0], "\n" + (more + "\n"));
      ParseJoined(index + 1, segments[1..]);
      EntriesApart(entry, more);
      ParseMore(entry + ("\n" + ("\n" + (more + "\n"))), Expected(index, segments[0]), more + "\n",
                ExpectedAll(index + 1, segments[1..]));
    }
  }

  /** Parsing the printed text recovers, for every segment, its number, both times in whole milliseconds and its
      white-space-normalised text; empty texts do not break the split. */
  lemma ParsePrint(segments: seq<Segment>)
    ensures Parse(Print(segments)) == Some(ExpectedAll(1, segments))
  {
    if segments != [] { ParseJoined(1, segments); }
  }

  // ---------------------------------------------------------------- the text itself

  /** The white space of `str.split()`, code point by code point. */
  lemma SpacesAre(c: char)
    ensures IsSpace(c) <==> c as int in {
      9, 10, 11, 12, 13, 28, 29, 30, 31, 32, 133, 160, 5760, 8192, 8193, 8194, 8195, 8196, 8197, 8198, 8199, 8200, 8201, 8202,
      8232, 8233, 8239, 8287, 12288}
  {
  }

  lemma EscapesAre(c: char)
    ensures EscapeChar('&') == "&amp;" && EscapeChar('<') == "&lt;" && EscapeChar('>') == "&gt;"
    ensures c !in {'&', '<', '>'} ==> EscapeChar(c) == [c]
  {
  }

  lemma OneSpaceBetween(word: string, rest: seq<string>)
    ensures JoinWords([]) == "" && JoinWords([word]) == word
    ensures rest != [] ==> JoinWords([word] + rest) == word + " " + JoinWords(rest)
  {
    assert ([word] + rest)[1..] == rest;
  }

  lemma TwoPlaces(n: nat)
    requires n < 100
    ensures Pad2(n) == ["0123456789"[n / 10], "0123456789"[n % 10]]
  {
    Decimal.PrintsDecimally(n);
    Decimal.PrintsDecimally(n / 10);
  }

  lemma ThreePlaces(n: nat)
    requires n < 1000
    ensures Pad3(n) == ["0123456789"[n / 100], "0123456789"[n / 10 % 10], "0123456789"[n % 10]]
  {
    var tens, ones := n / 10, n % 10;
    assert n / 100 == tens / 10;
    Decimal.PrintsDecimally(n);
    Decimal.PrintsDecimally(tens);
    Decimal.PrintsDecimally(tens / 10);
    hide Decimal.Print;
  }

  lemma ManyPlaces(n: nat)
    requires n >= 100
    ensures Pad2(n) == Decimal.Print(n)
  {
  }

  /** A time is its hours, minutes and seconds with two digits each and its milliseconds with three; a negative one is zero. */
  lemma TimestampText(ms: int)
    ensures ms < 0 ==> Timestamp(ms) == Timestamp(0)
    ensures ms >= 0 ==>
      Timestamp(ms) ==
        Pad2(ms / 3_600_000) + ":" + Pad2(ms / 60_000 % 60) + ":" + Pad2(ms / 1000 % 60) + "," + Pad3(ms % 1000)
  {
    if ms >= 0 {
      MinutesOf(ms);
      SecondsOf(ms);
      MillisOf(ms);
    }
  }

  lemma MinutesOf(ms: nat)
    ensures ms % 3_600_000 / 60_000 == ms / 60_000 % 60
  {
    var h, rest := ms / 3_600_000, ms % 3_600_000;
    var m, left := rest / 60_000, rest % 60_000;
    assert ms == 60_000 * (60 * h + m) + left;
    assert ms / 60_000 == 60 * h + m;
  }

  lemma SecondsOf(ms: nat)
    ensures ms % 3_600_000 % 60_000 / 1000 == ms / 1000 % 60
  {
    var h, rest := ms / 3_600_000, ms % 3_600_000;
    var m, left := rest / 60_000, rest % 60_000;
    var s, milli := left / 1000, left % 1000;
    assert ms == 1000 * (60 * (60 * h + m) + s) + milli;
    assert ms / 1000 == 60 * (60 * h + m) + s;
  }

  lemma MillisOf(ms: nat)
    ensures ms % 3_600_000 % 1000 == ms % 1000
  {
    var h, rest := ms / 3_600_000, ms % 3_600_000;
    assert ms == 1000 * (3600 * h) + rest;
  }

  /** An entry is its number, its two times around an arrow, and its text, on a line each; entries have a blank line between them, and a
      line break ends the last one. */
  lemma EntriesText(index: nat, segment: Segment, rest: seq<Segment>)
    ensures Print([]) == "" && (rest != [] ==> Print(rest) == JoinEntries(1, rest) + "\n")
    ensures EntryOf(index, segment) ==
      Decimal.Print(index) + "\n" + Timestamp(segment.startMs) + " --> " + Timestamp(segment.endMs) + "\n" + SafeText(segment.text)
    ensures JoinEntries(index, [segment]) == EntryOf(index, segment)
    ensures rest != [] ==>
      JoinEntries(index, [segment] + rest) == EntryOf(index, segment) + "\n\n" + JoinEntries(index + 1, rest)
  {
    assert ([segment] + rest)[1..] == rest;
  }
}
