/** The string operations of Go's `strings` package that the subtitle parser is built from. */
module Text {

  /** `unicode.IsSpace`. */
  predicate IsSpace(c: char) {
    || '\t' <= c <= '\r' || c == ' ' || c == '\U{85}' || c == '\U{A0}' || c == '\U{1680}'
    || '\U{2000}' <= c <= '\U{200A}' || c == '\U{2028}' || c == '\U{2029}'
    || c == '\U{202F}' || c == '\U{205F}' || c == '\U{3000}'
  }

  function TrimLeft(s: string): string {
    if s != [] && IsSpace(s[0]) then TrimLeft(s[1..]) else s
  }

  function TrimRight(s: string): string {
    if s != [] && IsSpace(s[|s| - 1]) then TrimRight(s[..|s| - 1]) else s
  }

  /** `strings.TrimSpace`. */
  function Trim(s: string): string {
    TrimRight(TrimLeft(s))
  }

  /** `strings.Split` on a one-character separator. */
  function SplitOn(s: string, sep: char): (parts: seq<string>)
    ensures |parts| >= 1
  {
    if s == [] then [[]]
    else
      var rest := SplitOn(s[1..], sep);
      if s[0] == sep then [[]] + rest
      else [[s[0]] + rest[0]] + rest[1..]
  }

  /** `strings.Split(s, "\n")`. */
  function Lines(s: string): (parts: seq<string>)
    ensures |parts| >= 1
  {
    SplitOn(s, '\n')
  }

  /** `strings.Split(s, "\n\n")`: leftmost, non-overlapping separators. */
  function SplitBlank(s: string): (parts: seq<string>)
    ensures |parts| >= 1
  {
    if s == [] then [[]]
    else if "\n\n" <= s then [[]] + SplitBlank(s[2..])
    else
      var rest := SplitBlank(s[1..]);
      [[s[0]] + rest[0]] + rest[1..]
  }

  /** `strings.ReplaceAll(s, "\r\n", "\n")`. */
  function DropCr(s: string): string {
    if s == [] then []
    else if "\r\n" <= s then "\n" + DropCr(s[2..])
    else [s[0]] + DropCr(s[1..])
  }

  /** Every LF replaced by CRLF. */
  function ToCrlf(s: string): string {
    if s == [] then []
    else if s[0] == '\n' then "\r\n" + ToCrlf(s[1..])
    else [s[0]] + ToCrlf(s[1..])
  }

  /** `strings.ReplaceAll` on single characters. */
  function Replace(s: string, from: char, to: char): (r: string)
    ensures |r| == |s|
    ensures forall i :: 0 <= i < |s| ==> r[i] == if s[i] == from then to else s[i]
  {
    if s == [] then [] else [if s[0] == from then to else s[0]] + Replace(s[1..], from, to)
  }

  /** Index of the first occurrence of `pat`, or the length of `s` when there is none. */
  function Find(s: string, pat: string): (i: nat)
    ensures i <= |s|
    ensures i < |s| && pat != [] ==> pat <= s[i..]
    ensures forall j :: 0 <= j < i ==> !(pat <= s[j..])
  {
    if s == [] || pat <= s then 0
    else
      var k := Find(s[1..], pat);
      assert forall j :: 0 < j < k + 1 ==> s[j..] == s[1..][j - 1..];
      assert s[k + 1..] == s[1..][k..];
      k + 1
  }

  /** `strings.Contains` for a non-empty pattern. */
  predicate Contains(s: string, pat: string)
    requires pat != []
  {
    Find(s, pat) < |s|
  }

  /** The characters of `s` before its first white space: `strings.Fields(s)[0]` of a trimmed non-empty `s`. */
  function FirstField(s: string): string {
    if s == [] || IsSpace(s[0]) then [] else [s[0]] + FirstField(s[1..])
  }

  function ToUpperAscii(c: char): char {
    if 'a' <= c <= 'z' then c - 'a' + 'A' else c
  }

  function Upper(s: string): string {
    if s == [] then [] else [ToUpperAscii(s[0])] + Upper(s[1..])
  }

  /** `strings.Join(lines, " ")`. */
  function JoinWithSpace(lines: seq<string>): string {
    if |lines| == 0 then []
    else if |lines| == 1 then lines[0]
    else lines[0] + " " + JoinWithSpace(lines[1..])
  }

  // ---------------------------------------------------------------- splitting and concatenation

  lemma {:induction false} SplitOnConcat(a: string, b: string, sep: char)
    ensures SplitOn(a + [sep] + b, sep) == SplitOn(a, sep) + SplitOn(b, sep)
  {
    var s := a + [sep] + b;
    if a == [] {
      assert s == [sep] + b && s[1..] == b;
    } else {
      assert s[1..] == a[1..] + [sep] + b;
      SplitOnConcat(a[1..], b, sep);
    }
  }

  lemma LinesNewline(t: string)
    ensures Lines(['\n'] + t) == [[]] + Lines(t)
  {
    assert (['\n'] + t)[1..] == t;
  }

  lemma LinesChar(c: char, t: string)
    requires c != '\n'
    ensures Lines([c] + t) == [[c] + Lines(t)[0]] + Lines(t)[1..]
  {
    assert ([c] + t)[1..] == t;
  }

  lemma {:induction false} SplitOnAbsent(a: string, sep: char)
    requires sep !in a
    ensures SplitOn(a, sep) == [a]
  {
    if a != [] {
      SplitOnAbsent(a[1..], sep);
      assert [a[0]] + a[1..] == a;
    }
  }

  // ---------------------------------------------------------------- trimming

  lemma {:induction false} TrimRightStep(s: string, c: char)
    requires IsSpace(c)
    ensures TrimRight(s + [c]) == TrimRight(s)
  {
    assert (s + [c])[..|s|] == s;
  }

  lemma {:induction false} TrimLeftOfRight(s: string)
    ensures TrimLeft(TrimRight(s)) == TrimRight(TrimLeft(s))
  {
    if s == [] {
    } else if IsSpace(s[0]) {
      TrimLeftOfRight(s[1..]);
      TrimRightCons(s);
    } else {
      TrimRightCons(s);
    }
  }

  /** Trimming on the right commutes with a leading character, unless everything is white space. */
  lemma {:induction false} TrimRightCons(s: string)
    requires s != []
    ensures var r := TrimRight(s[1..]);
      TrimRight(s) == if r == [] && IsSpace(s[0]) then [] else [s[0]] + r
  {
    var last := |s| - 1;
    if IsSpace(s[last]) {
      if last == 0 {
        assert s[1..] == [] && s[..last] == [];
      } else {
        var t := s[..last];
        TrimRightCons(t);
        assert s[1..][..last - 1] == t[1..];
        assert s[1..][last - 1] == s[last];
      }
    } else if last > 0 {
      assert s[1..][last - 1] == s[last];
      assert [s[0]] + s[1..] == s;
    }
  }

  lemma {:induction false} TrimStep(s: string, c: char)
    requires IsSpace(c)
    ensures Trim(s + [c]) == Trim(s) == Trim([c] + s)
  {
    TrimLeftOfRight(s + [c]);
    TrimLeftOfRight(s);
    TrimRightStep(s, c);
    assert ([c] + s)[1..] == s;
  }

  /** A string that starts and ends with other characters than white space is its own trimming. */
  lemma TrimFixed(s: string)
    requires s != [] ==> !IsSpace(s[0]) && !IsSpace(s[|s| - 1])
    ensures Trim(s) == s
  {
  }

  lemma {:induction false} TrimLeftSplits(s: string) returns (w: string)
    ensures s == w + TrimLeft(s)
    ensures forall c :: c in w ==> IsSpace(c)
  {
    if s != [] && IsSpace(s[0]) {
      var v := TrimLeftSplits(s[1..]);
      w := [s[0]] + v;
      assert s == [s[0]] + s[1..];
    } else {
      w := [];
    }
  }

  lemma {:induction false} TrimRightSplits(s: string) returns (w: string)
    ensures s == TrimRight(s) + w
    ensures forall c :: c in w ==> IsSpace(c)
  {
    var last := |s| - 1;
    if s != [] && IsSpace(s[last]) {
      var v := TrimRightSplits(s[..last]);
      w := v + [s[last]];
      assert s == s[..last] + [s[last]];
    } else {
      w := [];
    }
  }

  // ---------------------------------------------------------------- joining lines

  /** Lines as the parser keeps them: trimmed and not empty. */
  predicate TextLines(lines: seq<string>) {
    forall i :: 0 <= i < |lines| ==> lines[i] != [] && Trim(lines[i]) == lines[i]
  }

  lemma {:induction false} TrimLeftEnds(s: string)
    ensures TrimLeft(s) != [] ==> !IsSpace(TrimLeft(s)[0])
  {
    if s != [] && IsSpace(s[0]) {
      TrimLeftEnds(s[1..]);
    }
  }

  lemma {:induction false} TrimRightEnds(s: string)
    ensures var r := TrimRight(s); r != [] ==> !IsSpace(r[|r| - 1])
  {
    if s != [] && IsSpace(s[|s| - 1]) {
      TrimRightEnds(s[..|s| - 1]);
    }
  }

  lemma TrimmedEnds(s: string)
    requires s != [] && Trim(s) == s
    ensures !IsSpace(s[0]) && !IsSpace(s[|s| - 1])
  {
    TrimLeftOfRight(s);
    TrimLeftEnds(TrimRight(s));
    TrimRightEnds(TrimLeft(s));
  }

  /** Joined lines start and end with text, so trimming them changes nothing. */
  lemma {:induction false} JoinTrimmed(lines: seq<string>)
    requires TextLines(lines)
    ensures lines != [] ==> JoinWithSpace(lines) != []
    ensures var j := JoinWithSpace(lines); j != [] ==> !IsSpace(j[0]) && !IsSpace(j[|j| - 1])
    ensures Trim(JoinWithSpace(lines)) == JoinWithSpace(lines)
  {
    hide IsSpace, Trim;
    var j := JoinWithSpace(lines);
    if lines != [] {
      TrimmedEnds(lines[0]);
      if |lines| > 1 {
        JoinTrimmed(lines[1..]);
        assert j == lines[0] + " " + JoinWithSpace(lines[1..]);
      }
    }
    TrimFixed(j);
  }

  lemma {:induction false} JoinLonger(a: seq<string>, b: seq<string>)
    requires TextLines(a) && TextLines(b) && b != []
    ensures |JoinWithSpace(a + b)| > |JoinWithSpace(a)|
  {
    hide Trim;
    if a == [] {
      assert a + b == b;
      JoinTrimmed(b);
    } else {
      assert (a + b)[0] == a[0] && (a + b)[1..] == a[1..] + b;
      JoinLonger(a[1..], b);
    }
  }

  /** Joining the lines of a text puts exactly one space where each line ended. */
  lemma {:induction false} JoinIsReplace(s: string)
    ensures JoinWithSpace(SplitOn(s, '\n')) == Replace(s, '\n', ' ')
  {
    if s != [] {
      JoinIsReplace(s[1..]);
      var parts := SplitOn(s[1..], '\n');
      assert s == [s[0]] + s[1..];
      if s[0] == '\n' {
        JoinEmptyFirst(parts);
      } else {
        JoinLongerFirst(s[0], parts);
      }
    }
  }

  lemma JoinEmptyFirst(parts: seq<string>)
    requires parts != []
    ensures JoinWithSpace([[]] + parts) == " " + JoinWithSpace(parts)
  {
    assert ([[]] + parts)[1..] == parts;
  }

  lemma JoinStep(lines: seq<string>)
    requires |lines| > 1
    ensures JoinWithSpace(lines) == lines[0] + " " + JoinWithSpace(lines[1..])
  {
  }

  lemma JoinLongerFirst(c: char, parts: seq<string>)
    requires parts != []
    ensures JoinWithSpace([[c] + parts[0]] + parts[1..]) == [c] + JoinWithSpace(parts)
  {
    hide JoinWithSpace;
    var longer := [[c] + parts[0]] + parts[1..];
    assert longer[0] == [c] + parts[0] && longer[1..] == parts[1..];
    if |parts| == 1 {
      JoinOne(parts);
      JoinOne(longer);
    } else {
      JoinStep(parts);
      JoinStep(longer);
      var rest := JoinWithSpace(parts[1..]);
      assert ([c] + parts[0]) + " " + rest == [c] + (parts[0] + " " + rest);
    }
  }

  lemma JoinOne(lines: seq<string>)
    requires |lines| == 1
    ensures JoinWithSpace(lines) == lines[0]
  {
  }

  /** The white space characters, one by one. */
  lemma SpacesAre(c: char)
    ensures IsSpace(c) <==>
      || c in "\t\n\U{B}\U{C}\r \U{85}\U{A0}\U{1680}"
      || c in "\U{2000}\U{2001}\U{2002}\U{2003}\U{2004}\U{2005}\U{2006}\U{2007}\U{2008}\U{2009}\U{200A}"
      || c in "\U{2028}\U{2029}\U{202F}\U{205F}\U{3000}"
  {
  }
}
