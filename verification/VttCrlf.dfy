/** What becomes of a cue when a lone carriage return stops separating two blocks. */
module VttCrlf {
  import opened Wrappers
  import opened Text
  import opened Vtt
  import opened VttPrinter

  // ---------------------------------------------------------------- one block read as two

  predicate IsHeader(lines: seq<string>) {
    lines != [] && HEADER <= Upper(lines[0])
  }

  predicate HasTiming(lines: seq<string>) {
    TimingIndex(lines) < |lines|
  }

  lemma {:induction false} TimingIndexConcat(a: seq<string>, b: seq<string>)
    ensures TimingIndex(a + b) == if HasTiming(a) then TimingIndex(a) else |a| + TimingIndex(b)
  {
    hide Contains;
    if a == [] {
      assert a + b == b;
    } else {
      assert (a + b)[0] == a[0] && (a + b)[1..] == a[1..] + b;
      TimingIndexConcat(a[1..], b);
    }
  }

  /**
   * Whether two blocks mean the same read as one: after a header, the second block must hold no cue; a first block
   * with a timing line must be in error at it; otherwise the second block must not be a header with a timing line
   * below it.
   */
  predicate Harmless(a: seq<string>, b: seq<string>) {
    if IsHeader(a) then IsHeader(b) || !HasTiming(b)
    else if HasTiming(a) then ParseTimingLine(a[TimingIndex(a)]).Err?
    else !IsHeader(b) || !HasTiming(b)
  }

  /** A block has the meaning of its two parts if and only if the split is harmless. */
  lemma SplitBlockIff(a: seq<string>, b: seq<string>)
    requires a != [] && b != [] && TextLines(a) && TextLines(b)
    ensures ParseBlock(a + b) == Append(ParseBlock(a), ParseBlock(b)) <==> Harmless(a, b)
  {
    hide Upper, TimingIndex, ParseTimingLine, JoinWithSpace, Trim;
    assert (a + b)[0] == a[0];
    if IsHeader(a) {
      AppendUnit(ParseBlock(b));
    } else if HasTiming(a) {
      CueThenBlock(a, b);
    } else {
      TimingIndexConcat(a, b);
      AppendUnit(ParseBlock(b));
      if HasTiming(b) {
        NoteThenCue(a, b);
      }
    }
  }

  /** Lines that follow a cue become part of its text. */
  lemma CueThenBlock(a: seq<string>, b: seq<string>)
    requires b != [] && TextLines(a) && TextLines(b) && HasTiming(a) && !IsHeader(a)
    ensures ParseBlock(a + b) == Append(ParseBlock(a), ParseBlock(b)) <==> ParseTimingLine(a[TimingIndex(a)]).Err?
  {
    hide Upper, TimingIndex, ParseTimingLine, JoinWithSpace, Trim;
    TimingIndexConcat(a, b);
    var t := TimingIndex(a);
    assert (a + b)[t] == a[t] && (a + b)[0] == a[0];
    var rest := a[t + 1..];
    assert (a + b)[t + 1..] == rest + b;
    if ParseTimingLine(a[t]).Ok? {
      JoinLonger(rest, b);
      JoinTrimmed(rest);
      JoinTrimmed(rest + b);
      var times := ParseTimingLine(a[t]).value;
      FirstCueDiffers(Cue(times.0, times.1, JoinWithSpace(rest + b)), Cue(times.0, times.1, JoinWithSpace(rest)),
                      ParseBlock(b));
    }
  }

  lemma FirstCueDiffers(x: Cue, y: Cue, more: Parsed)
    requires x != y
    ensures Ok([x]) != Append(Ok([y]), more)
  {
    if more.Ok? {
      assert ([y] + more.value)[0] == y;
    }
  }

  /** Lines before a timing line are ignored. */
  lemma NoteThenCue(a: seq<string>, b: seq<string>)
    requires a != [] && !IsHeader(a) && !HasTiming(a) && HasTiming(b)
    ensures !IsHeader(b) ==> ParseBlock(a + b) == ParseBlock(b)
    ensures ParseBlock(a + b) != Ok([])
  {
    hide Upper, TimingIndex, ParseTimingLine, JoinWithSpace, Trim;
    TimingIndexConcat(a, b);
    var t := TimingIndex(b);
    assert (a + b)[|a| + t] == b[t] && (a + b)[0] == a[0];
    assert (a + b)[|a| + t + 1..] == b[t + 1..];
  }

  /** Among blocks that parse, one split changes the cues of the document if and only if it is not harmless. */
  lemma SplitInDocumentIff(pre: seq<seq<string>>, a: seq<string>, b: seq<string>, post: seq<seq<string>>)
    requires a != [] && b != [] && TextLines(a) && TextLines(b)
    requires ParseGroups(pre).Ok? && ParseGroups(post).Ok?
    ensures ParseGroups(pre + [a + b] + post) == ParseGroups(pre + [a, b] + post) <==> Harmless(a, b)
  {
    hide ParseBlock, ParseGroups, Harmless;
    SplitBlockIff(a, b);
    OneGroup(a + b);
    OneGroup(a);
    OneGroup(b);
    assert [a, b] == [a] + [b];
    ParseGroupsConcat([a], [b]);
    ParseGroupsConcat(pre, [a + b]);
    ParseGroupsConcat(pre + [a + b], post);
    ParseGroupsConcat(pre, [a, b]);
    ParseGroupsConcat(pre + [a, b], post);
    Cancel(ParseGroups(pre), ParseBlock(a + b), Append(ParseBlock(a), ParseBlock(b)), ParseGroups(post));
  }

  lemma Cancel(p: Parsed, x: Parsed, y: Parsed, q: Parsed)
    requires p.Ok? && q.Ok?
    ensures Append(Append(p, x), q) == Append(Append(p, y), q) <==> x == y
  {
    if x.Ok? && y.Ok? {
      var l, r := p.value + x.value + q.value, p.value + y.value + q.value;
      if l == r {
        assert x.value == l[|p.value|..|l| - |q.value|];
        assert y.value == r[|p.value|..|r| - |q.value|];
      }
    }
  }

  // ---------------------------------------------------------------- a document with one lone CR

  lemma {:induction false} SameTrimsSameText(a: seq<string>, b: seq<string>)
    requires |a| == |b| && forall i :: 0 <= i < |a| ==> Trim(a[i]) == Trim(b[i])
    ensures NonBlank(a) == NonBlank(b)
  {
    hide Trim;
    if a != [] {
      SameTrimsSameText(a[1..], b[1..]);
    }
  }

  lemma {:induction false} ChopInitAt(lines: seq<string>, i: nat)
    requires i < |lines|
    ensures ChopInit(lines)[i] == if i < |lines| - 1 then Chop(lines[i]) else lines[i]
  {
    hide Chop;
    if |lines| > 1 && i > 0 {
      ChopInitAt(lines[1..], i - 1);
    }
  }

  /** Chopping CRs off lines with text leaves that text. */
  lemma ChoppedText(lines: seq<string>, chopped: seq<string>)
    requires |chopped| == |lines|
    requires forall i :: 0 <= i < |lines| ==> chopped[i] == Chop(lines[i]) || chopped[i] == lines[i]
    requires forall i :: 0 <= i < |lines| ==> Trim(lines[i]) != []
    ensures NonBlank(chopped) == NonBlank(lines) && forall i :: 0 <= i < |lines| ==> chopped[i] != []
  {
    hide Trim, Chop, NonBlank;
    assert Trim([]) == [] by {
      TrimFixed([]);
    }
    forall i | 0 <= i < |lines| ensures Trim(chopped[i]) == Trim(lines[i]) {
      ChopTrims(lines[i]);
    }
    SameTrimsSameText(chopped, lines);
  }

  predicate AllText(lines: seq<string>) {
    forall i :: 0 <= i < |lines| ==> Trim(lines[i]) != []
  }

  /** Read as it is, the lone CR separates; in the CRLF form it does not. */
  lemma LoneCrGroups(a: seq<string>, b: seq<string>)
    requires a != [] && b != [] && AllText(a) && AllText(b)
    ensures Groups([], ChopInit(a + ["\r"] + b)) == Keep(NonBlank(a)) + Keep(NonBlank(b))
    ensures Groups([], a + ["\r"] + b) == Keep(NonBlank(a) + NonBlank(b))
  {
    hide Trim, NonBlank, Keep, Chop, Groups;
    var p := a + ["\r"];
    TextIsNotEmpty(a);
    TextIsNotEmpty(b);
    BareCr();
    GroupsWithoutEmpty([], p + b);
    NonBlankConcat(p, b);
    NonBlankConcat(a, ["\r"]);
    assert NonBlank(a) + [] == NonBlank(a) && [] + NonBlank(p + b) == NonBlank(p + b);
    ChopInitConcat(p, b);
    var ca, cb := ChopInit(p)[..|a|], ChopInit(b);
    forall i | 0 <= i < |a| ensures ca[i] == Chop(a[i]) {
      ChopInitAt(p, i);
    }
    forall i | 0 <= i < |b| ensures cb[i] == Chop(b[i]) || cb[i] == b[i] {
      ChopInitAt(b, i);
    }
    ChoppedText(a, ca);
    ChoppedText(b, cb);
    GroupsSeparated([], ca, cb);
    GroupsWithoutEmpty([], ca);
    GroupsWithoutEmpty([], cb);
    assert [] + NonBlank(ca) == NonBlank(ca) && [] + NonBlank(cb) == NonBlank(cb);
  }

  lemma TextIsNotEmpty(lines: seq<string>)
    requires AllText(lines)
    ensures forall i :: 0 <= i < |lines| ==> lines[i] != []
  {
    TrimFixed([]);
  }

  lemma BareCr()
    ensures NonBlank(["\r"]) == [] && Chop("\r") == []
  {
    assert TrimLeft("\r") == TrimLeft([]) == [];
    NonBlankOne("\r");
  }

  lemma {:induction false} TextRemains(lines: seq<string>)
    ensures TextLines(NonBlank(lines))
    ensures lines != [] && AllText(lines) ==> NonBlank(lines) != []
  {
    hide Trim;
    if lines != [] {
      TrimIdempotent(lines[0]);
      TextRemains(lines[1..]);
    }
  }

  /**
   * A document of two blocks that only a lone CR separates keeps its cues in CRLF form if and only if the split between
   * them is harmless.
   */
  lemma CrlfOneSplitIff(s: string, a: seq<string>, b: seq<string>)
    requires Lines(s) == a + ["\r"] + b && a != [] && b != [] && AllText(a) && AllText(b)
    ensures ParseVtt(ToCrlf(s)) == ParseVtt(s) <==> Harmless(NonBlank(a), NonBlank(b))
  {
    hide ParseVtt, ToCrlf, SplitOn, NonBlank, Groups, Harmless, ParseGroups, ChopInit, AllText, TextLines;
    ParserIsLineReader(s);
    ParserIsLineReader(ToCrlf(s));
    LinesOfToCrlf(s);
    ChopUndoesAdd(Lines(s));
    LoneCrGroups(a, b);
    TextRemains(a);
    TextRemains(b);
    var x, y := NonBlank(a), NonBlank(b);
    NoGroups();
    SplitInDocumentIff([], x, y, []);
    assert [] + [x + y] + [] == [x + y] && [] + [x, y] + [] == [x] + [y];
  }

  lemma NoGroups()
    ensures ParseGroups([]) == Ok([])
  {
  }

  // ---------------------------------------------------------------- a cue that is lost

  lemma TimingOnlyParses(c: Source)
    requires Printable(c) && c.text == []
    ensures ParseVtt(TimingLine(c)) == Ok([Meaning(c)])
  {
    hide ParseVtt, TimingLine, ParseTimingLine, ParseBlock, Trim, SplitOn, Groups, Upper, NonBlank;
    var line := TimingLine(c);
    TimingLineIsOneLine(c);
    SplitOnAbsent(line, '\n');
    ParserIsLineReader(line);
    TimingLineRoundTrip(c);
    GroupsOne([], line);
    NonBlankOne(line);
    NonBlankOne([]);
    assert Trim([]) == [] by {
      TrimFixed([]);
    }
    BlockWithTiming([], Trim(line), []);
    assert [] + [Trim(line)] + [] == [Trim(line)] && [] + [Trim(line)] == [Trim(line)];
    OneGroup([Trim(line)]);
  }

  /** A document with CRLF line ends and one cue loses the cue when every LF becomes CRLF again. */
  lemma CrlfTwiceLosesCue(c: Source)
    requires Printable(c) && c.text == []
    ensures ParseVtt(WindowsDocument(TimingLine(c))) == Ok([Meaning(c)])
    ensures ParseVtt(ToCrlf(WindowsDocument(TimingLine(c)))) == Ok([])
  {
    hide ParseVtt, TimingLine, WindowsDocument, ToCrlf;
    TimingLineIsOneLine(c);
    CrlfTwiceDropsBody(TimingLine(c));
    TimingOnlyParses(c);
  }
}
