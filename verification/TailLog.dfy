/** The last lines of a log file. */
module TailLog {
  /** `bytes.TrimRight(s, "\n")`. */
  function TrimRight(s: string): string {
    if s == [] || s[|s| - 1] != '\n' then s else TrimRight(s[..|s| - 1])
  }

  /** `bytes.Split(s, "\n")`. */
  function SplitLines(s: string): (lines: seq<string>)
    ensures lines != []
  {
    if s == [] then [[]]
    else
      var rest := SplitLines(s[1..]);
      if s[0] == '\n' then [[]] + rest else [[s[0]] + rest[0]] + rest[1..]
  }

  function JoinLines(lines: seq<string>): string {
    if lines == [] then []
    else if |lines| == 1 then lines[0]
    else lines[0] + "\n" + JoinLines(lines[1..])
  }

  function LastLines(lines: seq<string>, maxLines: int): seq<string> {
    if maxLines > 0 && |lines| > maxLines then lines[|lines| - maxLines..] else lines
  }

  datatype LogFile = Readable(body: string) | Unreadable(path: string, error: string)

  function TailLog(file: LogFile, maxLines: int): string {
    match file
    case Unreadable(path, error) => "(unable to read " + path + ": " + error + ")"
    case Readable(raw) =>
      var body := TrimRight(raw);
      if body == [] then "(empty)"
      else
        TrimRight(JoinLines(LastLines(SplitLines(body), maxLines)))
  }

  predicate OnlyNewlines(s: string) {
    forall i | 0 <= i < |s| :: s[i] == '\n'
  }

  lemma {:induction false} TrimsAwayIffBlank(s: string)
    ensures TrimRight(s) == [] <==> OnlyNewlines(s)
  {
    if s != [] && s[|s| - 1] == '\n' { TrimsAwayIffBlank(s[..|s| - 1]); }
  }

  /** A log of nothing but newlines, or of nothing, is reported as empty. */
  lemma BlankLogIsEmpty(raw: string, maxLines: int)
    requires OnlyNewlines(raw)
    ensures TailLog(Readable(raw), maxLines) == "(empty)"
  {
    TrimsAwayIffBlank(raw);
  }

  /** A log that cannot be read is reported with its path and the error. */
  lemma UnreadableLogSaysWhy(path: string, error: string, maxLines: int)
    ensures var text := TailLog(Unreadable(path, error), maxLines);
            && |text| == 19 + |path| + |error|
            && text[..16] == "(unable to read " && text[16..16 + |path|] == path
            && text[16 + |path|..18 + |path|] == ": " && text[18 + |path|..|text| - 1] == error
            && text[|text| - 1] == ')'
  {}

  function Newlines(s: string): nat {
    if s == [] then 0 else Newlines(s[1..]) + if s[0] == '\n' then 1 else 0
  }

  lemma {:induction false} JoinUndoesSplit(s: string)
    ensures JoinLines(SplitLines(s)) == s
    ensures |SplitLines(s)| == Newlines(s) + 1
  {
    if s != [] {
      JoinUndoesSplit(s[1..]);
      var rest := SplitLines(s[1..]);
      var lines := SplitLines(s);
      if s[0] == '\n' {
        assert lines[1..] == rest;
      } else if |rest| > 1 {
        assert lines[1..] == rest[1..];
      }
    }
  }

  predicate OneLine(s: string) {
    forall i | 0 <= i < |s| :: s[i] != '\n'
  }

  predicate AllOneLine(lines: seq<string>) {
    forall i | 0 <= i < |lines| :: OneLine(lines[i])
  }

  lemma {:induction false} SplitGivesLines(s: string)
    ensures AllOneLine(SplitLines(s))
  {
    if s != [] { SplitGivesLines(s[1..]); }
  }

  lemma {:induction false} SplitOfLine(s: string, rest: string)
    requires OneLine(s)
    ensures SplitLines(s + "\n" + rest) == [s] + SplitLines(rest)
    ensures SplitLines(s) == [s]
  {
    var whole := s + "\n" + rest;
    if s == [] {
      assert whole[0] == '\n' && whole[1..] == rest;
    } else {
      assert whole[0] == s[0] && whole[1..] == s[1..] + "\n" + rest;
      SplitOfLine(s[1..], rest);
      assert SplitLines(whole[1..])[1..] == SplitLines(rest);
      assert SplitLines(s[1..])[1..] == [];
      assert [s[0]] + s[1..] == s;
    }
  }

  lemma {:induction false} SplitUndoesJoin(lines: seq<string>)
    requires lines != [] && AllOneLine(lines)
    ensures SplitLines(JoinLines(lines)) == lines
  {
    if |lines| == 1 {
      SplitOfLine(lines[0], []);
    } else {
      SplitUndoesJoin(lines[1..]);
      SplitOfLine(lines[0], JoinLines(lines[1..]));
    }
  }

  /** Dropping leading lines leaves a suffix that starts right after a newline. */
  lemma {:induction false} DroppedLines(lines: seq<string>, k: nat)
    requires k < |lines|
    ensures var whole, part := JoinLines(lines), JoinLines(lines[k..]);
            && |part| <= |whole| && part == whole[|whole| - |part|..]
            && (k > 0 ==> |part| < |whole| && whole[|whole| - |part| - 1] == '\n')
  {
    if k == 0 {
      assert lines[0..] == lines;
    } else {
      DroppedLines(lines[1..], k - 1);
      assert lines[1..][k - 1..] == lines[k..];
      var rest := JoinLines(lines[1..]);
      assert JoinLines(lines) == lines[0] + "\n" + rest;
    }
  }

  lemma {:induction false} TrimEnds(s: string)
    ensures TrimRight(s) == [] || TrimRight(s)[|TrimRight(s)| - 1] != '\n'
    ensures TrimRight(s) <= s && forall i | |TrimRight(s)| <= i < |s| :: s[i] == '\n'
  {
    if s != [] && s[|s| - 1] == '\n' { TrimEnds(s[..|s| - 1]); }
  }

  function LinesKept(maxLines: int, n: nat): nat {
    if maxLines > 0 && n > maxLines then maxLines else n
  }

  lemma JoinNonEmpty(s: string, lines: seq<string>, k: nat)
    requires lines == SplitLines(s) && k < |lines| && s != [] && s[|s| - 1] != '\n'
    ensures var part := JoinLines(lines[k..]); part != [] && part[|part| - 1] == s[|s| - 1]
  {
    JoinUndoesSplit(s);
    DroppedLines(lines, k);
  }

  /**
    For a log that is not blank: the result is the whole-line suffix of the trimmed body with
    min(maxLines, all) lines, everything when no limit is set, and the last trim removes nothing.
   */
  lemma {:induction false} TailIsLastLines(raw: string, maxLines: int)
    requires TrimRight(raw) != []
    ensures var body, tail := TrimRight(raw), TailLog(Readable(raw), maxLines);
            && tail != [] && |tail| <= |body| && tail == body[|body| - |tail|..]
            && (|tail| < |body| ==> body[|body| - |tail| - 1] == '\n')
            && Newlines(tail) + 1 == LinesKept(maxLines, Newlines(body) + 1)
            && (maxLines <= 0 ==> tail == body)
  {
    var body := TrimRight(raw);
    TrimEnds(raw);
    TailOfBody(body, maxLines);
    TailCount(body, maxLines);
  }

  lemma {:induction false} TailOfBody(body: string, maxLines: int)
    requires body != [] && body[|body| - 1] != '\n'
    ensures var tail := JoinLines(LastLines(SplitLines(body), maxLines));
            && tail != [] && |tail| <= |body| && tail == body[|body| - |tail|..]
            && (|tail| < |body| ==> body[|body| - |tail| - 1] == '\n')
            && TrimRight(tail) == tail
            && (maxLines <= 0 ==> tail == body)
  {
    var lines := SplitLines(body);
    var k := |lines| - LinesKept(maxLines, |lines|);
    assert lines[0..] == lines;
    assert LastLines(lines, maxLines) == lines[k..];
    JoinUndoesSplit(body);
    DroppedLines(lines, k);
    JoinNonEmpty(body, lines, k);
  }

  lemma {:induction false} TailCount(body: string, maxLines: int)
    ensures Newlines(JoinLines(LastLines(SplitLines(body), maxLines))) + 1 == LinesKept(maxLines, Newlines(body) + 1)
  {
    var kept := LastLines(SplitLines(body), maxLines);
    JoinUndoesSplit(body);
    SplitGivesLines(body);
    SplitUndoesJoin(kept);
    JoinUndoesSplit(JoinLines(kept));
  }
}
