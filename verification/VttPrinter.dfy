/** A canonical WebVTT printer and the round trips of `parseVTT` and `parseTimestamp`. */
module VttPrinter {
  import opened Wrappers
  import opened Text
  import opened Digits
  import opened Vtt

  // ---------------------------------------------------------------- clock texts

  /** Characters that occur in a clock text. */
  predicate ClockChar(c: char) {
    IsDigit(c) || c == ':' || c == '.'
  }

  predicate ClockText(s: string) {
    forall i :: 0 <= i < |s| ==> ClockChar(s[i])
  }

  lemma ClockTextFacts(s: string)
    requires ClockText(s)
    ensures Trim(s) == s && FirstField(s) == s
    ensures '\n' !in s && '-' !in s
  {
    FieldOfClock(s);
  }

  lemma ClockHasNoComma(s: string)
    requires ClockText(s)
    ensures Replace(s, ',', '.') == s
  {
  }

  lemma {:induction false} FieldOfClock(s: string)
    requires ClockText(s)
    ensures FirstField(s) == s
  {
    if s != [] {
      FieldOfClock(s[1..]);
      assert [s[0]] + s[1..] == s;
    }
  }

  /** Seconds as the last field of a clock text. */
  predicate SecondsText(secs: string) {
    ClockText(secs) && ':' !in secs && ParseDecimal(secs).Some?
  }

  function Clock2(m: string, secs: string): string {
    m + [':'] + secs
  }

  function Clock3(h: string, m: string, secs: string): string {
    h + [':'] + Clock2(m, secs)
  }

  lemma Split2(m: string, secs: string)
    requires AllDigits(m) && ':' !in secs
    ensures SplitOn(Clock2(m, secs), ':') == [m, secs]
  {
    SplitOnConcat(m, secs, ':');
    NoSeparatorInDigits(m, ':');
    SplitOnAbsent(secs, ':');
  }

  lemma ParseClock2(m: string, secs: string)
    requires ParseNat(m).Some? && SecondsText(secs)
    ensures ClockText(Clock2(m, secs))
    ensures ParseTimestamp(Clock2(m, secs)) == ParseFields([m, secs])
  {
    ClockHasNoComma(Clock2(m, secs));
    Split2(m, secs);
  }

  lemma ParseClock3(h: string, m: string, secs: string)
    requires ParseNat(h).Some? && ParseNat(m).Some? && SecondsText(secs)
    ensures ClockText(Clock3(h, m, secs))
    ensures ParseTimestamp(Clock3(h, m, secs)) == ParseFields([h, m, secs])
  {
    var tail := Clock2(m, secs);
    assert ClockText(tail);
    Split2(m, secs);
    ClockHasNoComma(Clock3(h, m, secs));
    Split3(h, tail);
    assert [h] + [m, secs] == [h, m, secs];
  }

  lemma Split3(h: string, tail: string)
    requires AllDigits(h)
    ensures SplitOn(h + [':'] + tail, ':') == [h] + SplitOn(tail, ':')
  {
    SplitOnConcat(h, tail, ':');
    NoSeparatorInDigits(h, ':');
  }

  lemma WholeSeconds(s: string)
    requires ParseNat(s).Some?
    ensures SecondsText(s) && ParseDecimal(s) == Some(ParseNat(s).value as real)
  {
    NoSeparatorInDigits(s, '.');
  }

  lemma MilliSeconds(s: string, ms: string)
    requires ParseNat(s).Some? && ParseNat(ms).Some? && |ms| == 3
    ensures var t := s + ['.'] + ms;
      SecondsText(t) && ParseDecimal(t) == Some(ParseNat(s).value as real + ParseNat(ms).value as real / 1000.0)
  {
    hide Value, SplitOn;
    var t := s + ['.'] + ms;
    assert Fraction(ParseNat(ms).value, 3) == ParseNat(ms).value as real / 1000.0 by {
      assert Power10(1) == 10 && Power10(2) == 100 && Power10(3) == 1000;
    }
    SplitOnConcat(s, ms, '.');
    NoSeparatorInDigits(s, '.');
    NoSeparatorInDigits(ms, '.');
    assert SplitOn(t, '.') == [s, ms];
    assert ':' !in t;
  }

  // ---------------------------------------------------------------- recording durations

  const NANOS_PER_SECOND := 1_000_000_000

  /** `dvrDuration` for a stream that started `elapsed` nanoseconds ago, or never (`None`). */
  function DvrDuration(elapsed: Option<nat>): string {
    match elapsed
    case None => "00:00"
    case Some(nanos) =>
      var h := nanos / (3600 * NANOS_PER_SECOND);
      var m := nanos / (60 * NANOS_PER_SECOND) % 60;
      var s := nanos / NANOS_PER_SECOND % 60;
      DurationText(h, m, s)
  }

  function DurationText(h: nat, m: nat, s: nat): string {
    if h > 0 then Clock3(Pad(h, 2), Pad(m, 2), Pad(s, 2)) else Clock2(Pad(m, 2), Pad(s, 2))
  }

  lemma DurationTextParses(h: nat, m: nat, s: nat)
    ensures ParseTimestamp(DurationText(h, m, s)) == Some((h * 3600 + m * 60 + s) as real)
  {
    hide Pad, Clock2, Clock3, ParseTimestamp, ParseDecimal, ParseNat;
    PadParses(h, 2);
    PadParses(m, 2);
    PadParses(s, 2);
    WholeSeconds(Pad(s, 2));
    if h > 0 {
      ParseClock3(Pad(h, 2), Pad(m, 2), Pad(s, 2));
    } else {
      ParseClock2(Pad(m, 2), Pad(s, 2));
    }
  }

  lemma ClockSplit(nanos: nat)
    ensures var secs := nanos / NANOS_PER_SECOND;
      secs == nanos / (3600 * NANOS_PER_SECOND) * 3600 + nanos / (60 * NANOS_PER_SECOND) % 60 * 60 + secs % 60
  {
    var secs := nanos / NANOS_PER_SECOND;
    assert nanos / (60 * NANOS_PER_SECOND) == secs / 60;
    assert nanos / (3600 * NANOS_PER_SECOND) == secs / 3600;
    assert secs / 60 / 60 == secs / 3600;
  }

  /** The recorded duration text reads back as the whole number of elapsed seconds. */
  lemma DvrDurationRoundTrip(nanos: nat)
    ensures ParseTimestamp(DvrDuration(Some(nanos))) == Some((nanos / NANOS_PER_SECOND) as real)
  {
    hide DurationText, ParseTimestamp;
    ClockSplit(nanos);
    DurationTextParses(nanos / (3600 * NANOS_PER_SECOND), nanos / (60 * NANOS_PER_SECOND) % 60,
                       nanos / NANOS_PER_SECOND % 60);
  }

  /** Minutes and seconds below an hour, and from then on hours as well, each with two digits. */
  lemma DvrDurationShape(nanos: nat)
    ensures nanos < 3_600_000_000_000 ==> |DvrDuration(Some(nanos))| == 5 && DvrDuration(Some(nanos))[2] == ':'
    ensures 3_600_000_000_000 <= nanos < 360_000_000_000_000 ==>
      var text := DvrDuration(Some(nanos)); |text| == 8 && text[2] == ':' == text[5]
    ensures DvrDuration(None) == "00:00"
  {
    hide DurationText;
    var h, m, s := nanos / (3600 * NANOS_PER_SECOND), nanos / (60 * NANOS_PER_SECOND) % 60,
      nanos / NANOS_PER_SECOND % 60;
    DurationShape(h, m, s);
    assert nanos < 3_600_000_000_000 <==> h == 0;
    assert nanos < 360_000_000_000_000 <==> h < 100;
  }

  lemma TwoDigits(n: nat)
    requires n < 100
    ensures |Pad(n, 2)| == 2
  {
    assert Power10(1) == 10 && Power10(2) == 100;
  }

  lemma DurationShape(h: nat, m: nat, s: nat)
    requires m < 60 && s < 60
    ensures var text := DurationText(h, m, s);
      && (h == 0 ==> |text| == 5 && text[2] == ':')
      && (0 < h < 100 ==> |text| == 8 && text[2] == ':' == text[5])
  {
    hide Pad;
    TwoDigits(m);
    TwoDigits(s);
    if h < 100 {
      TwoDigits(h);
    }
  }

  // ---------------------------------------------------------------- the printer

  /** A cue as an author writes it: an optional identifier line, times in milliseconds, settings, lines of text. */
  datatype Source = Source(id: Option<string>, startMs: nat, endMs: nat, settings: string, text: string)

  predicate Printable(c: Source) {
    && '\n' !in c.settings
    && (c.text != [] ==> TextLines(Lines(c.text)))
    && (c.id.Some? ==>
          && '\n' !in c.id.value
          && !Contains(Trim(c.id.value), ARROW)
          && !(HEADER <= Upper(Trim(c.id.value))))
  }

  /** The text of a cue reads as one line, with a space where a line ended. */
  function Meaning(c: Source): Cue {
    Cue(c.startMs as real / 1000.0, c.endMs as real / 1000.0, Replace(c.text, '\n', ' '))
  }

  function Meanings(cs: seq<Source>): seq<Cue> {
    if cs == [] then [] else [Meaning(cs[0])] + Meanings(cs[1..])
  }

  /** `HH:MM:SS.mmm`, with as many hour digits as needed. */
  function Timestamp(ms: nat): string {
    var secs := ms / 1000;
    Clock3(Pad(secs / 3600, 2), Pad(secs / 60 % 60, 2), Pad(secs % 60, 2) + ['.'] + Pad(ms % 1000, 3))
  }

  function TimingLine(c: Source): string {
    Timestamp(c.startMs) + " " + ARROW + " " + Timestamp(c.endMs)
    + if c.settings == [] then [] else " " + c.settings
  }

  function PrintCue(c: Source): string {
    (if c.id.Some? then c.id.value + ['\n'] else []) + (TimingLine(c) + ['\n'] + c.text)
  }

  function PrintFrom(head: string, cs: seq<Source>): string
    decreases |cs|
  {
    if cs == [] then head else head + "\n\n" + PrintFrom(PrintCue(cs[0]), cs[1..])
  }

  function Print(cs: seq<Source>): string {
    PrintFrom(HEADER, cs)
  }

  lemma TimestampRoundTrip(ms: nat)
    ensures ClockText(Timestamp(ms)) && |Timestamp(ms)| > 0 && IsDigit(Timestamp(ms)[0])
    ensures ParseTimestamp(Timestamp(ms)) == Some(ms as real / 1000.0)
  {
    hide Pad, Clock3, ParseTimestamp;
    var secs := ms / 1000;
    var h, m, s := secs / 3600, secs / 60 % 60, secs % 60;
    PadParses(h, 2);
    PadParses(m, 2);
    PadParses(s, 2);
    PadParses(ms % 1000, 3);
    assert Power10(3) == 1000;
    TimestampFromFields(Pad(h, 2), Pad(m, 2), Pad(s, 2), Pad(ms % 1000, 3));
    assert secs / 60 / 60 == h;
    assert ms == (h * 3600 + m * 60 + s) * 1000 + ms % 1000;
  }

  lemma TimestampFromFields(h: string, m: string, s: string, frac: string)
    requires ParseNat(h).Some? && ParseNat(m).Some? && ParseNat(s).Some? && ParseNat(frac).Some? && |frac| == 3
    ensures var ts := Clock3(h, m, s + ['.'] + frac);
      && ClockText(ts) && |ts| > 0 && IsDigit(ts[0])
      && ParseTimestamp(ts) == Some((ParseNat(h).value * 3600 + ParseNat(m).value * 60) as real
                                    + (ParseNat(s).value as real + ParseNat(frac).value as real / 1000.0))
  {
    MilliSeconds(s, frac);
    ParseClock3(h, m, s + ['.'] + frac);
  }

  // ---------------------------------------------------------------- reading back one timing line

  /** Trimming on the right keeps a prefix that ends in another character than white space. */
  lemma {:induction false} TrimRightKeeps(w: string, z: string) returns (r: string)
    requires w != [] && !IsSpace(w[|w| - 1])
    ensures TrimRight(w + z) == w + r && r <= z
  {
    if z == [] {
      r := [];
      assert w + z == w == w + r;
    } else if IsSpace(z[|z| - 1]) {
      var y := z[..|z| - 1];
      assert (w + z)[..|w + z| - 1] == w + y;
      r := TrimRightKeeps(w, y);
    } else {
      r := z;
    }
  }

  lemma {:induction false} FieldStops(w: string, z: string)
    requires ClockText(w)
    requires z != [] ==> IsSpace(z[0])
    ensures FirstField(w + z) == w
  {
    if w == [] {
      assert w + z == z;
    } else {
      assert (w + z)[1..] == w[1..] + z;
      FieldStops(w[1..], z);
      assert [w[0]] + w[1..] == w;
    }
  }

  /** The arrow of a timing line is the first one in it. */
  lemma {:induction false} FindArrow(w: string, z: string)
    requires '-' !in w
    ensures Find(w + ARROW + z, ARROW) == |w|
  {
    var line := w + ARROW + z;
    if w == [] {
      assert line == ARROW + z;
    } else {
      assert line[0] == w[0] != '-';
      assert line[1..] == w[1..] + ARROW + z;
      FindArrow(w[1..], z);
    }
  }

  /** Two clock texts around an arrow, with anything after white space, read back as the two times. */
  lemma ArrowLine(from: string, to: string, z: string)
    requires ClockText(from) && from != [] && IsDigit(from[0]) && ParseTimestamp(from).Some?
    requires ClockText(to) && to != [] && ParseTimestamp(to).Some?
    requires z != [] ==> IsSpace(z[0])
    ensures var line := Trim(from + " " + ARROW + " " + to + z);
      && line != [] && IsDigit(line[0]) && Contains(line, ARROW)
      && ParseTimingLine(line) == Ok((ParseTimestamp(from).value, ParseTimestamp(to).value))
  {
    hide ParseTimestamp, Find, ParseTimingLine;
    var w := from + " " + ARROW + " " + to;
    assert w[0] == from[0] && w[|w| - 1] == to[|to| - 1];
    var r := TrimRightKeeps(w, z);
    assert (w + z)[0] == from[0];
    assert Trim(w + z) == w + r;
    ArrowFields(from, to, r);
  }

  lemma ArrowFields(from: string, to: string, r: string)
    requires ClockText(from) && ParseTimestamp(from).Some?
    requires ClockText(to) && to != [] && ParseTimestamp(to).Some?
    requires r != [] ==> IsSpace(r[0])
    ensures var line := from + " " + ARROW + " " + to + r;
      && Contains(line, ARROW)
      && ParseTimingLine(line) == Ok((ParseTimestamp(from).value, ParseTimestamp(to).value))
  {
    hide ParseTimestamp, Trim, FirstField, Find;
    var line := from + " " + ARROW + " " + to + r;
    var left, right := from + " ", " " + to + r;
    assert line == left + ARROW + right;
    ClockTextFacts(from);
    assert '-' !in left;
    FindArrow(left, right);
    assert line[..|left|] == left;
    assert line[|left| + 3..] == right;
    TrimStep(from, ' ');
    EndField(to, r);
  }

  /** A trimmed timing line reads back as the two times, whatever settings follow. */
  lemma TimingLineRoundTrip(c: Source)
    ensures var line := Trim(TimingLine(c));
      && line != [] && IsDigit(line[0]) && Contains(line, ARROW)
      && ParseTimingLine(line) == Ok((c.startMs as real / 1000.0, c.endMs as real / 1000.0))
  {
    TimestampRoundTrip(c.startMs);
    TimestampRoundTrip(c.endMs);
    ArrowLine(Timestamp(c.startMs), Timestamp(c.endMs), if c.settings == [] then [] else " " + c.settings);
  }

  lemma EndField(to: string, r: string)
    requires ClockText(to) && to != []
    requires r != [] ==> IsSpace(r[0])
    ensures var field := Trim(" " + to + r);
      field != [] && FirstField(field) == to
  {
    assert " " + to + r == [' '] + (to + r);
    TrimStep(to + r, ' ');
    assert (to + r)[0] == to[0];
    assert !IsSpace(to[0]) && !IsSpace(to[|to| - 1]);
    var q := TrimRightKeeps(to, r);
    FieldStops(to, q);
  }

  // ---------------------------------------------------------------- reading back one block

  /** The non-blank lines of a printed block, as the parser sees them. */
  function CueLines(c: Source): seq<string> {
    (if c.id.Some? then NonBlank([c.id.value]) else []) + [Trim(TimingLine(c))] + TextOf(c)
  }

  lemma ClockNotHeader(line: string)
    requires line != [] && IsDigit(line[0])
    ensures !(HEADER <= Upper(line))
  {
    assert Upper(line)[0] == line[0];
  }

  lemma NonBlankOne(x: string)
    ensures NonBlank([x]) == if Trim(x) == [] then [] else [Trim(x)]
  {
    assert [x][1..] == [];
  }

  lemma CueLinesParse(c: Source)
    requires Printable(c)
    ensures ParseBlock(CueLines(c)) == Ok([Meaning(c)])
  {
    hide TimingLine, ParseTimingLine, ParseBlock, Upper, Find, NonBlank, Trim, JoinWithSpace, SplitOn, Replace;
    TimingLineRoundTrip(c);
    if c.id.Some? {
      NonBlankOne(c.id.value);
    }
    BlockWithTiming(if c.id.Some? then NonBlank([c.id.value]) else [], Trim(TimingLine(c)), TextOf(c));
    TextJoined(c.text);
  }

  /** The lines of a text, none for the empty one. */
  function LinesOfText(text: string): seq<string> {
    if text == [] then [] else Lines(text)
  }

  function TextOf(c: Source): seq<string> {
    LinesOfText(c.text)
  }

  lemma TextJoined(text: string)
    requires TextLines(LinesOfText(text))
    ensures Trim(JoinWithSpace(LinesOfText(text))) == Replace(text, '\n', ' ')
  {
    hide SplitOn, JoinWithSpace, Trim;
    JoinTrimmed(LinesOfText(text));
    if text == [] {
      JoinNothing();
    } else {
      JoinIsReplace(text);
    }
  }

  lemma JoinNothing()
    ensures JoinWithSpace([]) == []
  {
  }

  /** At most one identifier line, a timing line, and any lines of text. */
  lemma BlockWithTiming(id: seq<string>, timing: string, text: seq<string>)
    requires |id| <= 1
    requires |id| == 1 ==> !(HEADER <= Upper(id[0])) && !Contains(id[0], ARROW)
    requires timing != [] && IsDigit(timing[0]) && Contains(timing, ARROW) && ParseTimingLine(timing).Ok?
    ensures var times := ParseTimingLine(timing).value;
      ParseBlock(id + [timing] + text) == Ok([Cue(times.0, times.1, Trim(JoinWithSpace(text)))])
  {
    hide JoinWithSpace, Trim, ParseTimingLine, Find;
    ClockNotHeader(timing);
    var lines := id + [timing] + text;
    assert lines[|id|] == timing;
    assert forall j :: 0 <= j < |id| ==> lines[j] == id[j];
    assert TimingIndex(lines) == |id|;
    assert lines[|id| + 1..] == text;
  }

  lemma TimingLineIsOneLine(c: Source)
    requires '\n' !in c.settings
    ensures '\n' !in TimingLine(c)
  {
    TimestampRoundTrip(c.startMs);
    TimestampRoundTrip(c.endMs);
    OneLine(Timestamp(c.startMs), Timestamp(c.endMs), if c.settings == [] then [] else " " + c.settings);
  }

  lemma OneLine(from: string, to: string, z: string)
    requires ClockText(from) && ClockText(to) && '\n' !in z
    ensures '\n' !in from + " " + ARROW + " " + to + z
  {
    ClockTextFacts(from);
    ClockTextFacts(to);
  }

  lemma LinesOfCue(c: Source)
    requires Printable(c)
    ensures Lines(PrintCue(c)) == (if c.id.Some? then [c.id.value] else []) + ([TimingLine(c)] + Lines(c.text))
  {
    hide TimingLine, SplitOn;
    TimingLineIsOneLine(c);
    var tail := TimingLine(c) + ['\n'] + c.text;
    SplitOnConcat(TimingLine(c), c.text, '\n');
    SplitOnAbsent(TimingLine(c), '\n');
    if c.id.Some? {
      assert PrintCue(c) == c.id.value + ['\n'] + tail;
      SplitOnConcat(c.id.value, tail, '\n');
      SplitOnAbsent(c.id.value, '\n');
    } else {
      assert PrintCue(c) == tail;
    }
  }

  /** The lines of a text make one unfinished block longer. */
  lemma TextGroups(cur: seq<string>, text: string)
    requires TextLines(LinesOfText(text)) && cur != []
    ensures ChopInit(Lines(text)) == Lines(text) && Groups(cur, Lines(text)) == [cur + LinesOfText(text)]
  {
    hide SplitOn, NonBlank, Groups, Trim;
    if text == [] {
      EmptyText();
      GroupsOne(cur, []);
      NonBlankOne([]);
      assert cur + [] == cur;
    } else {
      TextLinesKept(Lines(text));
      GroupsWithoutEmpty(cur, Lines(text));
    }
  }

  lemma EmptyText()
    ensures Lines([]) == [[]] && ChopInit([[]]) == [[]] && Trim([]) == []
  {
  }

  /** Without an identifier the block of a cue is its timing line and its text. */
  lemma BodyGroups(cur: seq<string>, c: Source)
    requires Printable(c)
    ensures Groups(cur, [Chop(TimingLine(c))] + Lines(c.text)) == [cur + [Trim(TimingLine(c))] + TextOf(c)]
  {
    hide TimingLine, Find, ParseTimingLine, SplitOn, NonBlank, Trim, Chop;
    var timing := TimingLine(c);
    TimingLineRoundTrip(c);
    ChopTrims(timing);
    EmptyText();
    NonBlankOne(Chop(timing));
    var lines := [Chop(timing)] + Lines(c.text);
    assert lines[0] == Chop(timing) && lines[1..] == Lines(c.text);
    TextGroups(cur + [Trim(timing)], c.text);
  }

  lemma OneGroup(g: seq<string>)
    ensures ParseGroups([g]) == ParseBlock(g)
  {
    hide ParseBlock;
    assert [g][1..] == [];
    AppendUnit(ParseBlock(g));
  }

  lemma CueParses(c: Source)
    requires Printable(c)
    ensures ParseVtt(PrintCue(c)) == Ok([Meaning(c)])
  {
    hide ParseVtt, ParseBlock, TimingLine, PrintCue, Lines, Trim, NonBlank, Groups, TextOf;
    ParserIsLineReader(PrintCue(c));
    LinesOfCue(c);
    var timing := TimingLine(c);
    var body := [timing] + Lines(c.text);
    ChoppedBody(c);
    var cur := if c.id.Some? then NonBlank([c.id.value]) else [];
    BodyGroups(cur, c);
    if c.id.Some? {
      var all := [c.id.value] + body;
      assert all[1..] == body;
      assert ChopInit(all) == [Chop(c.id.value)] + ChopInit(body);
      ChopTrims(c.id.value);
      NonBlankOne(c.id.value);
      NonBlankOne(Chop(c.id.value));
      GroupsCons(Chop(c.id.value), ChopInit(body));
    } else {
      assert [] + body == body;
    }
    assert Groups([], ChopInit(Lines(PrintCue(c)))) == [CueLines(c)];
    CueLinesParse(c);
    OneGroup(CueLines(c));
  }

  lemma ChoppedBody(c: Source)
    requires Printable(c)
    ensures var body := [TimingLine(c)] + Lines(c.text); ChopInit(body) == [Chop(TimingLine(c))] + Lines(c.text)
  {
    hide TimingLine, SplitOn, Chop;
    var body := [TimingLine(c)] + Lines(c.text);
    assert body[1..] == Lines(c.text);
    TextGroups([[]], c.text);
  }

  lemma HeaderParses()
    ensures ParseVtt(HEADER) == Ok([])
  {
    hide ParseVtt, Find, ParseTimingLine, JoinWithSpace, Trim, Upper;
    OneLineDocument(HEADER);
    UpperFixed(HEADER);
  }

  lemma OneLineDocument(line: string)
    requires '\n' !in line && line != [] && !IsSpace(line[0]) && !IsSpace(line[|line| - 1])
    ensures ParseVtt(line) == ParseBlock([line])
  {
    hide ParseVtt, ParseBlock;
    ParserIsLineReader(line);
    SplitOnAbsent(line, '\n');
    GroupsOne([], line);
    TrimFixed(line);
    NonBlankOne(line);
    assert [] + [line] == [line];
    OneGroup([line]);
  }

  lemma {:induction false} UpperFixed(s: string)
    requires forall i :: 0 <= i < |s| ==> 'A' <= s[i] <= 'Z'
    ensures Upper(s) == s
  {
    if s != [] {
      UpperFixed(s[1..]);
      assert [s[0]] + s[1..] == s;
    }
  }

  lemma {:induction false} PrintFromParses(head: string, cues: seq<Cue>, cs: seq<Source>)
    requires ParseVtt(head) == Ok(cues)
    requires forall c :: c in cs ==> Printable(c)
    ensures ParseVtt(PrintFrom(head, cs)) == Ok(cues + Meanings(cs))
    decreases |cs|
  {
    if cs == [] {
      assert cues + [] == cues;
    } else {
      CueParses(cs[0]);
      PrintFromParses(PrintCue(cs[0]), [Meaning(cs[0])], cs[1..]);
      ParseConcat(head, PrintFrom(PrintCue(cs[0]), cs[1..]));
    }
  }

  /** Parsing undoes printing, for every list of printable cues. */
  lemma PrintParseRoundTrip(cs: seq<Source>)
    requires forall c :: c in cs ==> Printable(c)
    ensures ParseVtt(Print(cs)) == Ok(Meanings(cs))
  {
    HeaderParses();
    PrintFromParses(HEADER, [], cs);
    assert [] + Meanings(cs) == Meanings(cs);
  }

  /** So does parsing the CRLF form of the printed document. */
  lemma PrintParseRoundTripCrlf(cs: seq<Source>)
    requires forall c :: c in cs ==> Printable(c)
    requires '\r' !in Print(cs)
    ensures ParseVtt(ToCrlf(Print(cs))) == Ok(Meanings(cs))
  {
    CrlfInvariantWithoutCr(Print(cs));
    PrintParseRoundTrip(cs);
  }

  // ---------------------------------------------------------------- where LF to CRLF is not harmless

  /** A header, an empty line, and one line of body, with CRLF line ends. */
  function WindowsDocument(body: string): string {
    (HEADER + "\r") + ['\n'] + ("\r" + ['\n'] + body)
  }

  lemma WindowsLines(body: string)
    requires '\n' !in body
    ensures Lines(WindowsDocument(body)) == [HEADER + "\r", "\r", body]
  {
    hide SplitOn;
    SplitOnConcat(HEADER + "\r", "\r" + ['\n'] + body, '\n');
    SplitOnConcat("\r", body, '\n');
    SplitOnAbsent(HEADER + "\r", '\n');
    SplitOnAbsent("\r", '\n');
    SplitOnAbsent(body, '\n');
  }

  /**
   * A document that already has CRLF line ends loses its empty line when every LF becomes CRLF again: the
   * body is then read as part of the header block and dropped.
   */
  lemma CrlfTwiceDropsBody(body: string)
    requires '\n' !in body
    ensures ParseVtt(WindowsDocument(body)) == ParseVtt(body)
    ensures ParseVtt(ToCrlf(WindowsDocument(body))) == Ok([])
  {
    hide ParseVtt, WindowsDocument, ToCrlf, SplitOn;
    var doc := WindowsDocument(body);
    ParserIsLineReader(doc);
    ParserIsLineReader(ToCrlf(doc));
    ParserIsLineReader(body);
    WindowsLines(body);
    SplitOnAbsent(body, '\n');
    WindowsGroups(body);
    WindowsGroupsTwice(body);
    LinesOfToCrlf(doc);
    ChopUndoesAdd(Lines(doc));
    HeaderBlockSkipped([HEADER]);
    HeaderBlockSkipped([HEADER] + NonBlank([body]));
    OneGroup([HEADER]);
    OneGroup([HEADER] + NonBlank([body]));
    ParseGroupsConcat([[HEADER]], Groups([], [body]));
    AppendUnit(ParseGroups(Groups([], [body])));
  }

  lemma HeaderBlockSkipped(lines: seq<string>)
    requires lines != [] && lines[0] == HEADER
    ensures ParseBlock(lines) == Ok([])
  {
    hide Upper, TimingIndex, ParseTimingLine, JoinWithSpace, Trim;
    UpperFixed(HEADER);
  }

  lemma WindowsGroups(body: string)
    ensures Groups([], ChopInit([HEADER + "\r", "\r", body])) == [[HEADER]] + Groups([], [body])
  {
    var lines := [HEADER + "\r", "\r", body];
    assert Chop(HEADER + "\r") == HEADER;
    var tail := ["\r", body];
    assert lines[1..] == tail && tail[1..] == [body];
    assert Chop("\r") == [];
    assert ChopInit(tail) == [[]] + [body];
    assert ChopInit(lines) == [HEADER] + [[]] + [body];
    GroupsSeparated([], [HEADER], [body]);
    TrimFixed(HEADER);
    NonBlankOne(HEADER);
    GroupsOne([], HEADER);
    assert [] + [HEADER] == [HEADER];
  }

  lemma WindowsGroupsTwice(body: string)
    ensures Groups([], [HEADER + "\r", "\r", body]) == [[HEADER] + NonBlank([body])]
  {
    var lines := [HEADER + "\r", "\r", body];
    assert lines == [HEADER + "\r"] + ["\r", body];
    TrimFixed(HEADER);
    TrimStep(HEADER, '\r');
    NonBlankOne(HEADER + "\r");
    GroupsCons(HEADER + "\r", ["\r", body]);
    TrimStep([], '\r');
    assert Trim("\r") == [] by {
      var none: string := [];
      assert none + ['\r'] == "\r";
      assert Trim(none) == [];
    }
    NonBlankOne("\r");
    assert ["\r", body][1..] == [body];
    assert [HEADER] + [] == [HEADER];
    GroupsOne([HEADER], body);
  }
}
