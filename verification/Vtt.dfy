/** The WebVTT reader of internal/usecase/subtitle/vtt_parser.go. */
module Vtt {
  import opened Wrappers
  import opened Text
  import opened Digits

  datatype Cue = Cue(start: real, end: real, text: string)

  datatype TimingError = MissingArrow | BadStart | MissingEnd | BadEnd

  datatype ParseError = BadTiming(line: string, reason: TimingError)

  type Parsed = Result<seq<Cue>, ParseError>

  const ARROW := "-->"
  const HEADER := "WEBVTT"

  // ---------------------------------------------------------------- timing lines

  /** The colon-separated fields of a timestamp: `MM:SS.mmm` or `HH:MM:SS.mmm`. */
  function ParseFields(fields: seq<string>): Option<real> {
    if |fields| == 3 then
      match (ParseNat(fields[0]), ParseNat(fields[1]), ParseDecimal(fields[2]))
      case (Some(h), Some(m), Some(s)) => Some((h * 3600 + m * 60) as real + s)
      case _ => None
    else if |fields| == 2 then
      match (ParseNat(fields[0]), ParseDecimal(fields[1]))
      case (Some(m), Some(s)) => Some((m * 60) as real + s)
      case _ => None
    else None
  }

  /** `parseTimestamp`. */
  function ParseTimestamp(ts: string): Option<real> {
    ParseFields(SplitOn(Replace(ts, ',', '.'), ':'))
  }

  /** `parseTimingLine`: what follows the end timestamp is ignored. */
  function ParseTimingLine(line: string): Result<(real, real), TimingError> {
    var i := Find(line, ARROW);
    if i == |line| then Err(MissingArrow)
    else
      match ParseTimestamp(Trim(line[..i]))
      case None => Err(BadStart)
      case Some(start) =>
        var field := Trim(line[i + 3..]);
        if field == [] then Err(MissingEnd)
        else
          match ParseTimestamp(FirstField(field))
          case None => Err(BadEnd)
          case Some(end) => Ok((start, end))
  }

  // ---------------------------------------------------------------- blocks

  /** The trimmed, non-blank lines among `lines`, in order. */
  function NonBlank(lines: seq<string>): seq<string> {
    if lines == [] then []
    else (if Trim(lines[0]) == [] then [] else [Trim(lines[0])]) + NonBlank(lines[1..])
  }

  /** Index of the first line holding an arrow, or the number of lines. */
  function TimingIndex(lines: seq<string>): (i: nat)
    ensures i <= |lines|
    ensures i < |lines| ==> Contains(lines[i], ARROW)
    ensures forall j :: 0 <= j < i ==> !Contains(lines[j], ARROW)
  {
    if lines == [] || Contains(lines[0], ARROW) then 0 else 1 + TimingIndex(lines[1..])
  }

  /** What one block contributes: nothing for a header or a block without timing line, else one cue. */
  function ParseBlock(lines: seq<string>): Parsed {
    var t := TimingIndex(lines);
    if lines == [] || HEADER <= Upper(lines[0]) || t == |lines| then Ok([])
    else
      match ParseTimingLine(lines[t])
      case Err(e) => Err(BadTiming(lines[t], e))
      case Ok(times) => Ok([Cue(times.0, times.1, Trim(JoinWithSpace(lines[t + 1..])))])
  }

  function ParseBlocks(blocks: seq<string>): Parsed {
    if blocks == [] then Ok([])
    else Append(ParseBlock(NonBlank(Lines(blocks[0]))), ParseBlocks(blocks[1..]))
  }

  /** `parseVTT` as a composition of the passes it makes. */
  function ParseVtt(content: string): Parsed {
    ParseBlocks(SplitBlank(Trim(DropCr(content))))
  }

  // ---------------------------------------------------------------- the loops

  /** `splitNonEmptyLines`. */
  method SplitNonEmptyLines(block: string) returns (lines: seq<string>)
    ensures lines == NonBlank(Lines(block))
    ensures forall l :: l in lines ==> l != [] && Trim(l) == l
  {
    hide Lines, TrimLeft, TrimRight;
    var rawLines := Lines(block);
    lines := [];
    assert rawLines[0..] == rawLines;
    for i := 0 to |rawLines|
      invariant NonBlank(rawLines) == lines + NonBlank(rawLines[i..])
      invariant forall l :: l in lines ==> l != [] && Trim(l) == l
    {
      var trimmed := Trim(rawLines[i]);
      assert rawLines[i..][1..] == rawLines[i + 1..];
      if trimmed != [] {
        TrimIdempotent(rawLines[i]);
        lines := lines + [trimmed];
      }
    }
    assert rawLines[|rawLines|..] == [];
  }

  /** One iteration of the block loop of `parseVTT`. */
  method ParseOneBlock(block: string) returns (r: Parsed)
    ensures r == ParseBlock(NonBlank(Lines(block)))
  {
    hide ParseTimingLine, NonBlank, SplitOn, Trim, JoinWithSpace;
    var lines := SplitNonEmptyLines(block);
    if |lines| == 0 || HEADER <= Upper(lines[0]) {
      return Ok([]);
    }
    var t := 0;
    while t < |lines| && !Contains(lines[t], ARROW)
      invariant t <= |lines|
      invariant forall j :: 0 <= j < t ==> !Contains(lines[j], ARROW)
    {
      t := t + 1;
    }
    if t == |lines| {
      return Ok([]);
    }
    match ParseTimingLine(lines[t]) {
      case Err(e) => return Err(BadTiming(lines[t], e));
      case Ok(times) => return Ok([Cue(times.0, times.1, Trim(JoinWithSpace(lines[t + 1..])))]);
    }
  }

  /** `parseVTT`. */
  method ParseDocument(content: string) returns (r: Parsed)
    ensures r == ParseVtt(content)
  {
    var blocks := SplitBlank(Trim(DropCr(content)));
    r := Ok([]);
    AppendUnit(ParseBlocks(blocks));
    assert blocks[0..] == blocks;
    for n := 0 to |blocks|
      invariant r.Ok?
      invariant Append(r, ParseBlocks(blocks[n..])) == ParseBlocks(blocks)
    {
      assert blocks[n..][1..] == blocks[n + 1..];
      var one := ParseOneBlock(blocks[n]);
      AppendAssociative(r, one, ParseBlocks(blocks[n + 1..]));
      if one.Err? {
        return one;
      }
      r := Append(r, one);
    }
    AppendUnit(r);
  }

  lemma TrimIdempotent(s: string)
    ensures Trim(Trim(s)) == Trim(s)
  {
    TrimLeftOfRight(s);
    TrimLeftIdempotent(s);
    TrimRightIdempotent(TrimLeft(s));
    TrimLeftOfRight(TrimLeft(s));
  }

  lemma TrimLeftIdempotent(s: string)
    ensures TrimLeft(TrimLeft(s)) == TrimLeft(s)
  {
  }

  lemma TrimRightIdempotent(s: string)
    ensures TrimRight(TrimRight(s)) == TrimRight(s)
  {
  }

  // ---------------------------------------------------------------- the line-oriented reference

  function Keep(block: seq<string>): seq<seq<string>> {
    if block == [] then [] else [block]
  }

  /**
   * Reference block structure: one pass over raw lines. An empty line ends the block collected in `cur`
   * (already trimmed, non-blank lines); any other line joins it. Empty blocks are dropped.
   */
  function Groups(cur: seq<string>, lines: seq<string>): seq<seq<string>>
    decreases |lines|
  {
    if lines == [] then Keep(cur)
    else if lines[0] == [] then Keep(cur) + Groups([], lines[1..])
    else Groups(cur + NonBlank([lines[0]]), lines[1..])
  }

  function ParseGroups(groups: seq<seq<string>>): Parsed {
    if groups == [] then Ok([]) else Append(ParseBlock(groups[0]), ParseGroups(groups[1..]))
  }

  function Chop(line: string): string {
    if line != [] && line[|line| - 1] == '\r' then line[..|line| - 1] else line
  }

  /** Lines as a CRLF-aware reader sees them: every line that ends in a newline loses one CR. */
  function ChopInit(lines: seq<string>): (r: seq<string>)
    ensures |r| == |lines|
  {
    if |lines| <= 1 then lines else [Chop(lines[0])] + ChopInit(lines[1..])
  }

  /** The blocks of a document: its lines without CRs at their ends, grouped by empty lines. */
  function Blocks(content: string): seq<seq<string>> {
    Groups([], ChopInit(Lines(content)))
  }

  /** The reference reader: one block after the other. */
  function ReadDocument(content: string): Parsed {
    ParseGroups(Blocks(content))
  }

  lemma {:induction false} ParseGroupsConcat(a: seq<seq<string>>, b: seq<seq<string>>)
    ensures ParseGroups(a + b) == Append(ParseGroups(a), ParseGroups(b))
  {
    if a == [] {
      assert a + b == b;
      AppendUnit(ParseGroups(b));
    } else {
      assert (a + b)[1..] == a[1..] + b;
      ParseGroupsConcat(a[1..], b);
      AppendAssociative(ParseBlock(a[0]), ParseGroups(a[1..]), ParseGroups(b));
    }
  }

  lemma {:induction false} NonBlankConcat(a: seq<string>, b: seq<string>)
    ensures NonBlank(a + b) == NonBlank(a) + NonBlank(b)
  {
    hide NonBlank;
    if a == [] {
      NonBlankNothing(a);
      assert a + b == b;
    } else {
      var head := NonBlankStep(a);
      NonBlankConcat(a[1..], b);
      assert (a + b)[1..] == a[1..] + b && (a + b)[0] == a[0];
      var same := NonBlankStep(a + b);
      Associative(head, NonBlank(a[1..]), NonBlank(b));
    }
  }

  lemma {:induction false} GroupsWithoutEmpty(cur: seq<string>, lines: seq<string>)
    requires forall i :: 0 <= i < |lines| ==> lines[i] != []
    ensures Groups(cur, lines) == Keep(cur + NonBlank(lines))
    decreases |lines|
  {
    hide NonBlank;
    if lines == [] {
      NonBlankNothing(lines);
      assert cur + [] == cur;
    } else {
      GroupsWithoutEmpty(cur + NonBlank([lines[0]]), lines[1..]);
      assert lines == [lines[0]] + lines[1..];
      NonBlankConcat([lines[0]], lines[1..]);
      Associative(cur, NonBlank([lines[0]]), NonBlank(lines[1..]));
    }
  }

  lemma NonBlankNothing(lines: seq<string>)
    requires lines == []
    ensures NonBlank(lines) == []
  {
  }

  lemma NonBlankStep(lines: seq<string>) returns (head: seq<string>)
    requires lines != []
    ensures head == if Trim(lines[0]) == [] then [] else [Trim(lines[0])]
    ensures NonBlank(lines) == head + NonBlank(lines[1..])
  {
    hide Trim;
    head := if Trim(lines[0]) == [] then [] else [Trim(lines[0])];
  }

  lemma Associative<T>(a: seq<T>, b: seq<T>, c: seq<T>)
    ensures a + (b + c) == (a + b) + c
  {
  }

  /** Lines that are trimmed and not empty are all kept, and have no CR to lose. */
  lemma {:induction false} TextLinesKept(lines: seq<string>)
    requires TextLines(lines)
    ensures NonBlank(lines) == lines && ChopInit(lines) == lines
    ensures forall i :: 0 <= i < |lines| ==> lines[i] != []
  {
    hide Trim;
    if lines != [] {
      TextLinesKept(lines[1..]);
      TrimmedEnds(lines[0]);
      assert lines == [lines[0]] + lines[1..];
    }
  }

  lemma NonBlankEmptyLine()
    ensures NonBlank([[]]) == []
  {
    assert Trim([]) == [];
  }

  /** An empty line separates the groups on its two sides. */
  lemma {:induction false} GroupsSeparated(cur: seq<string>, a: seq<string>, b: seq<string>)
    ensures Groups(cur, a + [[]] + b) == Groups(cur, a) + Groups([], b)
    decreases |a|
  {
    var all := a + [[]] + b;
    if a == [] {
      assert all == [[]] + b && all[1..] == b;
    } else {
      assert all[0] == a[0] && all[1..] == a[1..] + [[]] + b;
      GroupsSeparated(if a[0] == [] then [] else cur + NonBlank([a[0]]), a[1..], b);
    }
  }

  /** Only the trimmed content of the last line matters. */
  lemma {:induction false} GroupsLast(cur: seq<string>, a: seq<string>, x: string, y: string)
    requires Trim(x) == Trim(y)
    ensures Groups(cur, a + [x]) == Groups(cur, a + [y])
    decreases |a|
  {
    if a == [] {
      assert a + [x] == [x] && a + [y] == [y];
      GroupsOne(cur, x);
      GroupsOne(cur, y);
    } else {
      assert (a + [x])[1..] == a[1..] + [x] && (a + [y])[1..] == a[1..] + [y];
      GroupsLast(if a[0] == [] then [] else cur + NonBlank([a[0]]), a[1..], x, y);
    }
  }

  lemma GroupsOne(cur: seq<string>, x: string)
    ensures Groups(cur, [x]) == Keep(cur + NonBlank([x]))
  {
    NonBlankEmptyLine();
    assert cur + [] == cur;
  }

  lemma GroupsCons(x: string, a: seq<string>)
    ensures Groups([], [x] + a) == Groups(NonBlank([x]), a)
  {
    assert ([x] + a)[1..] == a;
    NonBlankEmptyLine();
    assert [] + NonBlank([x]) == NonBlank([x]);
  }

  /** Only the trimmed content of the first line matters. */
  lemma GroupsFirst(a: seq<string>, x: string, y: string)
    requires Trim(x) == Trim(y)
    ensures Groups([], [x] + a) == Groups([], [y] + a)
  {
    GroupsCons(x, a);
    GroupsCons(y, a);
  }

  // ---------------------------------------------------------------- block splitting refines line reading

  /** The blocks that `parseVTT` does not skip for being empty. */
  function BlockLines(blocks: seq<string>): seq<seq<string>> {
    if blocks == [] then []
    else Keep(NonBlank(Lines(blocks[0]))) + BlockLines(blocks[1..])
  }

  lemma {:induction false} ParseBlocksIsParseGroups(blocks: seq<string>)
    ensures ParseBlocks(blocks) == ParseGroups(BlockLines(blocks))
  {
    if blocks != [] {
      var lines, rest := NonBlank(Lines(blocks[0])), BlockLines(blocks[1..]);
      ParseBlocksIsParseGroups(blocks[1..]);
      ParseGroupsConcat(Keep(lines), rest);
      AppendUnit(ParseBlock(lines));
      AppendUnit(ParseGroups(rest));
      if lines != [] {
        assert [lines][1..] == [];
      }
    }
  }

  /** The blocks of `p` followed by `s`, when `cur` holds the finished lines of the block `p` is in. */
  function BlocksFrom(cur: seq<string>, p: string, s: string): seq<seq<string>> {
    Keep(cur + NonBlank(Lines(p + SplitBlank(s)[0]))) + BlockLines(SplitBlank(s)[1..])
  }

  function GroupsFrom(cur: seq<string>, p: string, s: string): seq<seq<string>> {
    Groups(cur, [p + Lines(s)[0]] + Lines(s)[1..])
  }

  /** Splitting on blank lines and then into lines finds the groups of the line reader. */
  lemma {:induction false} BlocksAreGroups(cur: seq<string>, p: string, s: string)
    requires '\n' !in p
    requires p == [] ==> cur == []
    ensures BlocksFrom(cur, p, s) == GroupsFrom(cur, p, s)
    decreases |s|, 1
  {
    if s == [] {
      SplitOnAbsent(p, '\n');
      assert p + SplitBlank(s)[0] == p;
      assert [p + Lines(s)[0]] + Lines(s)[1..] == [p];
      GroupsOne(cur, p);
    } else if s[0] != '\n' {
      var q, t := p + [s[0]], s[1..];
      assert s == [s[0]] + t;
      LinesChar(s[0], t);
      assert p + SplitBlank(s)[0] == q + SplitBlank(t)[0];
      assert p + Lines(s)[0] == q + Lines(t)[0];
      BlocksAreGroups(cur, q, t);
    } else if "\n\n" <= s {
      BlankAhead(cur, p, s);
    } else {
      NewlineAhead(cur, p, s);
    }
  }

  lemma BlocksFromStart(cur: seq<string>, p: string, s: string)
    requires cur == [] && p == []
    ensures BlocksFrom(cur, p, s) == BlockLines(SplitBlank(s))
    ensures GroupsFrom(cur, p, s) == Groups(cur, Lines(s))
  {
    var b, ls := SplitBlank(s), Lines(s);
    assert p + b[0] == b[0];
    assert cur + NonBlank(Lines(b[0])) == NonBlank(Lines(b[0]));
    assert p + ls[0] == ls[0];
    assert [ls[0]] + ls[1..] == ls;
  }

  lemma {:induction false} BlankAhead(cur: seq<string>, p: string, s: string)
    requires '\n' !in p && "\n\n" <= s
    requires p == [] ==> cur == []
    ensures BlocksFrom(cur, p, s) == GroupsFrom(cur, p, s)
    decreases |s|, 0
  {
    hide NonBlank, Keep, SplitOn;
    var u := s[2..];
    assert s == ['\n'] + (['\n'] + u);
    LinesNewline(['\n'] + u);
    LinesNewline(u);
    SplitOnAbsent(p, '\n');
    assert p + [] == p;
    BlocksAreGroups([], [], u);
    BlocksFromStart([], [], u);
    assert [p + Lines(s)[0]] + Lines(s)[1..] == [p] + [[]] + Lines(u);
    GroupsSeparated(cur, [p], Lines(u));
    GroupsOne(cur, p);
  }

  lemma {:induction false} NewlineAhead(cur: seq<string>, p: string, s: string)
    requires '\n' !in p && s != [] && s[0] == '\n' && !("\n\n" <= s)
    requires p == [] ==> cur == []
    ensures BlocksFrom(cur, p, s) == GroupsFrom(cur, p, s)
    decreases |s|, 0
  {
    hide NonBlank, Keep, SplitOn;
    var t := s[1..];
    var done := cur + NonBlank([p]);
    LineDoneInBlocks(cur, p, t);
    assert s == ['\n'] + t;
    LinesNewline(t);
    assert [p + Lines(s)[0]] + Lines(s)[1..] == [p] + Lines(t) by {
      assert p + [] == p;
    }
    assert Groups(cur, [p] + Lines(t)) == Groups(done, Lines(t)) by {
      assert ([p] + Lines(t))[1..] == Lines(t);
      if p == [] {
        GroupsCons(p, Lines(t));
        assert [] + NonBlank([p]) == NonBlank([p]);
      }
    }
    if t == [] {
      NonBlankEmptyLine();
      SplitOnAbsent([], '\n');
      GroupsOne(done, []);
    } else {
      var c, r := t[0], t[1..];
      assert c != '\n';
      assert t == [c] + r;
      LinesChar(c, r);
      BlocksAreGroups(done, [c], r);
      assert [c] + SplitBlank(r)[0] == SplitBlank(t)[0];
    }
  }

  /** A single newline moves the line before it into the block. */
  lemma LineDoneInBlocks(cur: seq<string>, p: string, t: string)
    requires '\n' !in p && !("\n\n" <= ['\n'] + t)
    ensures BlocksFrom(cur, p, ['\n'] + t)
         == Keep(cur + NonBlank([p]) + NonBlank(Lines(SplitBlank(t)[0]))) + BlockLines(SplitBlank(t)[1..])
  {
    hide NonBlank, SplitOn, BlockLines, Keep;
    var s := ['\n'] + t;
    var b := SplitBlank(t)[0];
    assert s[1..] == t;
    assert p + SplitBlank(s)[0] == p + ['\n'] + b;
    SplitOnConcat(p, b, '\n');
    SplitOnAbsent(p, '\n');
    NonBlankConcat([p], Lines(b));
    assert cur + (NonBlank([p]) + NonBlank(Lines(b))) == cur + NonBlank([p]) + NonBlank(Lines(b));
  }

  // ---------------------------------------------------------------- trimming the document changes nothing

  lemma TrimFirstChar(s: string, c: char)
    requires IsSpace(c)
    ensures Groups([], Lines([c] + s)) == Groups([], Lines(s))
  {
    assert ([c] + s)[1..] == s;
    var ls := Lines(s);
    if c == '\n' {
      GroupsCons([], ls);
      NonBlankEmptyLine();
    } else {
      assert Lines([c] + s) == [[c] + ls[0]] + ls[1..];
      TrimStep(ls[0], c);
      GroupsFirst(ls[1..], [c] + ls[0], ls[0]);
      assert [ls[0]] + ls[1..] == ls;
    }
  }

  lemma TrimLastChar(s: string, c: char)
    requires IsSpace(c)
    ensures Groups([], Lines(s + [c])) == Groups([], Lines(s))
  {
    var ls := Lines(s);
    if c == '\n' {
      SplitOnConcat(s, [], '\n');
      assert s + [c] + [] == s + [c];
      assert ls + [[]] == ls + [[]] + [];
      GroupsSeparated([], ls, []);
    } else {
      var init, last := ls[..|ls| - 1], ls[|ls| - 1];
      LinesSnoc(s, c);
      TrimStep(last, c);
      GroupsLast([], init, last + [c], last);
      assert init + [last] == ls;
    }
  }

  lemma {:induction false} LinesSnoc(s: string, c: char)
    requires c != '\n'
    ensures var ls := Lines(s);
      Lines(s + [c]) == ls[..|ls| - 1] + [ls[|ls| - 1] + [c]]
  {
    if s == [] {
      assert s + [c] == [c] + [];
      LinesChar(c, []);
    } else {
      var t := s[1..];
      LinesSnoc(t, c);
      assert s + [c] == [s[0]] + (t + [c]) && s == [s[0]] + t;
      var lt := Lines(t);
      if s[0] == '\n' {
        LinesNewline(t);
        LinesNewline(t + [c]);
      } else {
        LinesChar(s[0], t);
        LinesChar(s[0], t + [c]);
        if |lt| == 1 {
          assert [s[0]] + (lt[0] + [c]) == ([s[0]] + lt[0]) + [c];
        }
      }
    }
  }

  lemma {:induction false} TrimLeftInvisible(s: string)
    ensures Groups([], Lines(TrimLeft(s))) == Groups([], Lines(s))
  {
    if s != [] && IsSpace(s[0]) {
      TrimLeftInvisible(s[1..]);
      TrimFirstChar(s[1..], s[0]);
      assert [s[0]] + s[1..] == s;
    }
  }

  lemma {:induction false} TrimRightInvisible(s: string)
    ensures Groups([], Lines(TrimRight(s))) == Groups([], Lines(s))
  {
    hide Groups, Lines, IsSpace;
    if s != [] && IsSpace(s[|s| - 1]) {
      var t := s[..|s| - 1];
      TrimRightInvisible(t);
      TrimLastChar(t, s[|s| - 1]);
      assert t + [s[|s| - 1]] == s;
    }
  }

  // ---------------------------------------------------------------- carriage returns

  lemma {:induction false} LinesOfDropCr(s: string)
    ensures Lines(DropCr(s)) == ChopInit(Lines(s))
  {
    if s == [] {
    } else if "\r\n" <= s {
      var u := s[2..];
      LinesOfDropCr(u);
      assert s == ['\r'] + (['\n'] + u);
      LinesNewline(u);
      LinesChar('\r', ['\n'] + u);
      LinesNewline(DropCr(u));
      var ls := Lines(s);
      assert ls == [['\r'] + []] + Lines(u);
      assert ls[1..] == Lines(u);
      assert Chop(['\r']) == [];
    } else {
      var t := s[1..];
      LinesOfDropCr(t);
      var ls, lt := Lines(s), Lines(t);
      assert ([s[0]] + DropCr(t))[1..] == DropCr(t);
      if s[0] == '\n' {
        assert ls[1..] == lt;
        assert Chop([]) == [];
      } else {
        assert ls[1..] == lt[1..] && ls[0] == [s[0]] + lt[0];
        if |lt| > 1 {
          ChopCons(s, t);
        }
      }
    }
  }

  lemma ChopCons(s: string, t: string)
    requires s != [] && t == s[1..] && s[0] != '\n' && !("\r\n" <= s)
    requires |Lines(t)| > 1
    ensures Chop([s[0]] + Lines(t)[0]) == [s[0]] + Chop(Lines(t)[0])
  {
    var l := Lines(t)[0];
    if l == [] {
      assert t != [] && t[0] == '\n';
      assert s[0] != '\r';
    } else {
      assert ([s[0]] + l)[..|l|] == [s[0]] + l[..|l| - 1];
    }
  }

  /** The four passes of `parseVTT` compute exactly the one-pass line reader. */
  lemma ParserIsLineReader(content: string)
    ensures ParseVtt(content) == ReadDocument(content)
  {
    var s := DropCr(content);
    ParseBlocksIsParseGroups(SplitBlank(Trim(s)));
    BlocksAreGroups([], [], Trim(s));
    BlocksFromStart([], [], Trim(s));
    TrimRightInvisible(TrimLeft(s));
    TrimLeftInvisible(s);
    LinesOfDropCr(content);
  }

  lemma ChopTrims(x: string)
    ensures Trim(Chop(x)) == Trim(x)
  {
    if x != [] && x[|x| - 1] == '\r' {
      TrimStep(x[..|x| - 1], '\r');
      assert x[..|x| - 1] + ['\r'] == x;
    }
  }

  lemma {:induction false} ChopInitConcat(a: seq<string>, b: seq<string>)
    requires |a| >= 1 && |b| >= 1
    ensures ChopInit(a + b) == ChopInit(a)[..|a| - 1] + [Chop(a[|a| - 1])] + ChopInit(b)
  {
    var ab := a + b;
    if |a| == 1 {
      assert ab[1..] == b;
    } else {
      assert ab[1..] == a[1..] + b;
      ChopInitConcat(a[1..], b);
    }
  }

  lemma {:induction false} ChopInitLast(a: seq<string>)
    requires |a| >= 1
    ensures ChopInit(a)[|a| - 1] == a[|a| - 1]
  {
    if |a| > 1 {
      ChopInitLast(a[1..]);
    }
  }

  lemma ChopInitBlank(lines: seq<string>)
    requires |lines| >= 1
    ensures ChopInit([[]] + lines) == [[]] + ChopInit(lines)
  {
    assert ([[]] + lines)[1..] == lines;
  }

  lemma SeparatedLines(a: string, b: string)
    ensures var la := Lines(a);
      ChopInit(Lines(a + "\n\n" + b))
      == (ChopInit(la)[..|la| - 1] + [Chop(la[|la| - 1])]) + [[]] + ChopInit(Lines(b))
  {
    hide SplitOn, Chop, ChopInit;
    var la, lb := Lines(a), Lines(b);
    assert a + "\n\n" + b == a + ['\n'] + (['\n'] + b);
    SplitOnConcat(a, ['\n'] + b, '\n');
    LinesNewline(b);
    var sep := [[]] + lb;
    ChopInitConcat(la, sep);
    ChopInitBlank(lb);
  }

  /**
   * Blank-line concatenation of documents concatenates their cues; the first error wins. It holds for all
   * documents, with or without carriage returns and with any blank lines at either end.
   */
  lemma ParseConcat(a: string, b: string)
    ensures ParseVtt(a + "\n\n" + b) == Append(ParseVtt(a), ParseVtt(b))
  {
    var doc := a + "\n\n" + b;
    hide Lines, ChopInit, ParseVtt, Groups, ParseGroups, Append;
    var la, lb := Lines(a), Lines(b);
    SeparatedLines(a, b);
    var init := ChopInit(la)[..|la| - 1];
    var last := la[|la| - 1];
    GroupsSeparated([], init + [Chop(last)], ChopInit(lb));
    ParseGroupsConcat(Groups([], ChopInit(la)), Groups([], ChopInit(lb)));
    ChopTrims(last);
    GroupsLast([], init, Chop(last), last);
    ChopInitLast(la);
    assert init + [last] == ChopInit(la);
    ParserIsLineReader(a);
    ParserIsLineReader(b);
    ParserIsLineReader(doc);
  }

  // ---------------------------------------------------------------- LF to CRLF

  function AddCr(lines: seq<string>): (r: seq<string>)
    ensures |r| == |lines|
  {
    if |lines| <= 1 then lines else [lines[0] + "\r"] + AddCr(lines[1..])
  }

  lemma {:induction false} LinesOfToCrlf(s: string)
    ensures Lines(ToCrlf(s)) == AddCr(Lines(s))
  {
    if s != [] {
      var t := s[1..];
      LinesOfToCrlf(t);
      var lt := Lines(t);
      if s[0] == '\n' {
        var u := ToCrlf(t);
        assert ToCrlf(s) == ['\r'] + (['\n'] + u) && s == ['\n'] + t;
        LinesNewline(u);
        LinesChar('\r', ['\n'] + u);
        LinesNewline(t);
        assert Lines(s)[1..] == lt;
        assert ['\r'] + [] == [] + "\r";
      } else {
        assert ([s[0]] + ToCrlf(t))[1..] == ToCrlf(t);
        assert Lines(s)[1..] == lt[1..];
        if |lt| > 1 {
          assert [s[0]] + (lt[0] + "\r") == ([s[0]] + lt[0]) + "\r";
        }
      }
    }
  }

  lemma {:induction false} ChopUndoesAdd(lines: seq<string>)
    ensures ChopInit(AddCr(lines)) == lines
  {
    if |lines| > 1 {
      ChopUndoesAdd(lines[1..]);
      assert AddCr(lines)[1..] == AddCr(lines[1..]);
      assert Chop(lines[0] + "\r") == lines[0];
    }
  }

  /** No newline-terminated line consists of a single carriage return. */
  predicate NoLoneCrLine(lines: seq<string>) {
    forall i :: 0 <= i < |lines| - 1 ==> lines[i] != "\r"
  }

  /** Text follows before the next empty line. */
  predicate Continues(lines: seq<string>) {
    lines != [] && lines[0] != [] && (NonBlank([lines[0]]) != [] || Continues(lines[1..]))
  }

  /** A line that is a lone CR stands inside a block, with text before it (`cur` included) and after it. */
  predicate SplitsBlock(cur: seq<string>, lines: seq<string>)
    decreases |lines|
  {
    if |lines| <= 1 then false
    else if lines[0] == [] then SplitsBlock([], lines[1..])
    else if lines[0] == "\r" then (cur != [] && Continues(lines[1..])) || SplitsBlock(cur, lines[1..])
    else SplitsBlock(cur + NonBlank([lines[0]]), lines[1..])
  }

  lemma {:induction false} GroupsOfText(cur: seq<string>, lines: seq<string>)
    requires cur != []
    ensures !Continues(lines) ==> Groups(cur, lines) == [cur] + Groups([], lines)
    ensures !Continues(lines) ==> (SplitsBlock(cur, lines) <==> SplitsBlock([], lines))
    decreases |lines|
  {
    if lines != [] && lines[0] != [] && NonBlank([lines[0]]) == [] {
      assert cur + NonBlank([lines[0]]) == cur;
      GroupsOfText(cur, lines[1..]);
    }
  }

  lemma SamePrefix<T>(p: seq<T>, a: seq<T>, b: seq<T>)
    ensures p + a == p + b <==> a == b
  {
    assert (p + a)[|p|..] == a && (p + b)[|p|..] == b;
  }

  /** Two unfinished blocks with text lead to the same number of groups. */
  lemma {:induction false} SameNumber(cur: seq<string>, other: seq<string>, lines: seq<string>)
    requires cur != [] && other != []
    ensures |Groups(cur, lines)| == |Groups(other, lines)|
    decreases |lines|
  {
    if lines != [] && lines[0] != [] {
      SameNumber(cur + NonBlank([lines[0]]), other + NonBlank([lines[0]]), lines[1..]);
    }
  }

  lemma {:induction false} NumberOfContinued(cur: seq<string>, lines: seq<string>)
    requires cur != [] && Continues(lines)
    ensures |Groups(cur, lines)| == |Groups([], lines)|
  {
    var text := NonBlank([lines[0]]);
    assert [] + text == text;
    if text == [] {
      assert cur + text == cur;
      NumberOfContinued(cur, lines[1..]);
    } else {
      SameNumber(cur + text, text, lines[1..]);
    }
  }

  /** Taking CRs off line ends keeps the groups exactly when no lone CR splits a block; it never loses a group. */
  lemma {:induction false} ChoppedGroupsIff(cur: seq<string>, lines: seq<string>)
    ensures Groups(cur, ChopInit(lines)) == Groups(cur, lines) <==> !SplitsBlock(cur, lines)
    ensures |Groups(cur, lines)| <= |Groups(cur, ChopInit(lines))|
    decreases |lines|
  {
    if |lines| > 1 {
      var rest := lines[1..];
      assert ChopInit(lines)[1..] == ChopInit(rest);
      ChopTrims(lines[0]);
      assert NonBlank([Chop(lines[0])]) == NonBlank([lines[0]]);
      if lines[0] == [] {
        ChoppedGroupsIff([], rest);
        SamePrefix(Keep(cur), Groups([], ChopInit(rest)), Groups([], rest));
      } else if lines[0] == "\r" {
        LoneCr(cur, lines);
      } else {
        assert Chop(lines[0]) != [];
        ChoppedGroupsIff(cur + NonBlank([lines[0]]), rest);
      }
    }
  }

  lemma {:induction false} LoneCr(cur: seq<string>, lines: seq<string>)
    requires |lines| > 1 && lines[0] == "\r"
    ensures Groups(cur, ChopInit(lines)) == Groups(cur, lines) <==> !SplitsBlock(cur, lines)
    ensures |Groups(cur, lines)| <= |Groups(cur, ChopInit(lines))|
    decreases |lines|, 0
  {
    var rest := lines[1..];
    assert ChopInit(lines)[0] == [] && ChopInit(lines)[1..] == ChopInit(rest);
    assert NonBlank(["\r"]) == [] && cur + [] == cur;
    ChoppedGroupsIff([], rest);
    SamePrefix(Keep(cur), Groups([], ChopInit(rest)), Groups([], rest));
    if cur != [] {
      GroupsOfText(cur, rest);
      if Continues(rest) {
        NumberOfContinued(cur, rest);
      }
    }
  }

  /** The blocks of the CRLF form are those of the document if and only if no lone CR stands inside a block. */
  lemma CrlfSameBlocksIff(s: string)
    ensures Blocks(ToCrlf(s)) == Blocks(s) <==> !SplitsBlock([], Lines(s))
  {
    LinesOfToCrlf(s);
    ChopUndoesAdd(Lines(s));
    ChoppedGroupsIff([], Lines(s));
  }

  /** Converting LF to CRLF keeps the result of every document in which no lone CR stands inside a block. */
  lemma CrlfInvariant(s: string)
    requires !SplitsBlock([], Lines(s))
    ensures ParseVtt(ToCrlf(s)) == ParseVtt(s)
  {
    ParserIsLineReader(s);
    ParserIsLineReader(ToCrlf(s));
    CrlfSameBlocksIff(s);
  }

  lemma {:induction false} NoLoneCrNoSplit(cur: seq<string>, lines: seq<string>)
    requires NoLoneCrLine(lines)
    ensures !SplitsBlock(cur, lines)
    decreases |lines|
  {
    if |lines| > 1 {
      var rest := lines[1..];
      assert forall i :: 0 <= i < |rest| - 1 ==> rest[i] == lines[i + 1];
      NoLoneCrNoSplit(if lines[0] == [] then [] else cur + NonBlank([lines[0]]), rest);
    }
  }

  lemma {:induction false} NoCrNoLoneCr(s: string)
    requires '\r' !in s
    ensures NoLoneCrLine(Lines(s))
    ensures forall l :: l in Lines(s) ==> '\r' !in l
  {
    if s != [] {
      NoCrNoLoneCr(s[1..]);
    }
    forall i | 0 <= i < |Lines(s)| - 1
      ensures Lines(s)[i] != "\r"
    {
      assert Lines(s)[i] in Lines(s);
      assert '\r' in "\r";
    }
  }

  /** In particular for carriage-return-free documents. */
  lemma CrlfInvariantWithoutCr(s: string)
    requires '\r' !in s
    ensures ParseVtt(ToCrlf(s)) == ParseVtt(s)
  {
    NoCrNoLoneCr(s);
    NoLoneCrNoSplit([], Lines(s));
    CrlfInvariant(s);
  }

  // ---------------------------------------------------------------- leniency

  /** A comma is as good as a point in a timestamp. */
  lemma CommaIsPoint(s: string)
    ensures ParseTimestamp(Replace(s, '.', ',')) == ParseTimestamp(s)
  {
    assert Replace(Replace(s, '.', ','), ',', '.') == Replace(s, ',', '.');
  }

  lemma {:induction false} UpperAt(s: string, i: nat)
    requires i < |s|
    ensures |Upper(s)| == |s| && Upper(s)[i] == ToUpperAscii(s[i])
  {
    if i > 0 {
      UpperAt(s[1..], i - 1);
    } else if |s| > 1 {
      UpperAt(s[1..], 0);
    }
  }

  /** A block that starts with the header word, in whatever case, is skipped, with all its lines. */
  lemma HeaderAnyCase(line: string, rest: seq<string>)
    requires |line| >= 6
    requires forall i :: 0 <= i < 6 ==> line[i] == "WEBVTT"[i] || line[i] == "webvtt"[i]
    ensures ParseBlock([line] + rest) == Ok([])
  {
    hide ParseTimingLine, TimingIndex, JoinWithSpace, Trim;
    var u := Upper(line);
    forall i | 0 <= i < 6 ensures |u| == |line| && u[i] == HEADER[i] {
      hide Upper;
      UpperAt(line, i);
    }
    assert |u| == |line| by {
      UpperAt(line, 0);
    }
    assert u[..6] == HEADER;
    hide Upper;
    assert HEADER <= u;
  }

  /** No line holds the last character of an arrow. */
  predicate Arrowless(lines: seq<string>) {
    forall i :: 0 <= i < |lines| ==> '>' !in lines[i]
  }

  lemma {:induction false} PartsLack(s: string, sep: char, c: char)
    requires c !in s
    ensures forall i :: 0 <= i < |SplitOn(s, sep)| ==> c !in SplitOn(s, sep)[i]
  {
    if s != [] {
      PartsLack(s[1..], sep, c);
    }
  }

  lemma TrimLacks(s: string, c: char)
    requires c !in s
    ensures c !in Trim(s)
  {
    var w := TrimLeftSplits(s);
    var z := TrimRightSplits(TrimLeft(s));
  }

  lemma {:induction false} NonBlankLacks(lines: seq<string>)
    requires Arrowless(lines)
    ensures Arrowless(NonBlank(lines))
  {
    hide Trim;
    if lines != [] {
      TrimLacks(lines[0], '>');
      NonBlankLacks(lines[1..]);
    }
  }

  lemma {:induction false} ChopInitLacks(lines: seq<string>)
    requires Arrowless(lines)
    ensures Arrowless(ChopInit(lines))
  {
    if |lines| > 1 {
      ChopInitLacks(lines[1..]);
    }
  }

  lemma ArrowlessBlock(lines: seq<string>)
    requires Arrowless(lines)
    ensures ParseBlock(lines) == Ok([])
  {
    hide ParseTimingLine, JoinWithSpace, Trim, Upper;
    var t := TimingIndex(lines);
    if t < |lines| {
      ArrowHasTip(lines[t]);
    }
  }

  lemma ArrowHasTip(line: string)
    requires Contains(line, ARROW)
    ensures '>' in line
  {
    var i := Find(line, ARROW);
    assert line[i..][2] == ARROW[2];
  }

  lemma ArrowlessKept(cur: seq<string>)
    requires Arrowless(cur)
    ensures ParseGroups(Keep(cur)) == Ok([])
  {
    hide ParseBlock;
    ArrowlessBlock(cur);
    assert [cur][1..] == [];
    AppendUnit(ParseBlock(cur));
  }

  lemma {:induction false} ArrowlessGroups(cur: seq<string>, lines: seq<string>)
    requires Arrowless(cur) && Arrowless(lines)
    ensures ParseGroups(Groups(cur, lines)) == Ok([])
    decreases |lines|
  {
    hide ParseGroups, NonBlank, Keep;
    ArrowlessKept(cur);
    if lines != [] {
      if lines[0] == [] {
        ArrowlessGroups([], lines[1..]);
        ParseGroupsConcat(Keep(cur), Groups([], lines[1..]));
        AppendUnit(ParseGroups(Keep(cur)));
      } else {
        NonBlankLacks([lines[0]]);
        ArrowlessGroups(cur + NonBlank([lines[0]]), lines[1..]);
      }
    }
  }

  /** Text without an arrow between two documents, such as a note, changes nothing. */
  lemma NoteIsInvisible(a: string, note: string, b: string)
    requires '>' !in note
    ensures ParseVtt(a + "\n\n" + (note + "\n\n" + b)) == ParseVtt(a + "\n\n" + b)
  {
    hide ParseVtt, Groups, ParseGroups, SplitOn;
    ParserIsLineReader(note);
    PartsLack(note, '\n', '>');
    ChopInitLacks(Lines(note));
    ArrowlessGroups([], ChopInit(Lines(note)));
    ParseConcat(note, b);
    ParseConcat(a, note + "\n\n" + b);
    ParseConcat(a, b);
    AppendUnit(ParseVtt(b));
  }
}
