/**
  The command line printed in the log, and a reader for it: word splitting and quote removal as in the
  POSIX.1-2017 Shell Command Language, sections 2.2.1 (backslash), 2.2.2 (single quotes), 2.3 (token
  recognition) and 2.6.7 (quote removal).
 */
module Shell {
  import opened Basics

  // ----------------------------------------------------------------- printer

  predicate SafeChar(r: char) {
    || r == '_' || r == '-' || r == '.' || r == '/' || r == ':' || r == '='
    || '0' <= r <= '9' || 'A' <= r <= 'Z' || 'a' <= r <= 'z'
  }

  predicate AllSafe(s: string) {
    forall i | 0 <= i < |s| :: SafeChar(s[i])
  }

  /** `strings.ReplaceAll(s, "'", "'\\''")`. */
  function EscapeQuotes(s: string): string {
    if s == [] then []
    else (if s[0] == '\'' then "'\\''" else [s[0]]) + EscapeQuotes(s[1..])
  }

  function ShellQuote(s: string): string {
    if s == "" then "''"
    else if AllSafe(s) then s
    else "'" + EscapeQuotes(s) + "'"
  }

  /** A word is printed bare exactly when it is made of letters, digits and six marks. */
  lemma BareIffPlain(s: string)
    ensures ShellQuote(s) == s <==>
            s != "" && forall i | 0 <= i < |s| ::
              s[i] in "_-./:=" || '0' <= s[i] <= '9' || 'A' <= s[i] <= 'Z' || 'a' <= s[i] <= 'z'
  {
    if forall i | 0 <= i < |s| :: SafeChar(s[i]) {
      forall i | 0 <= i < |s|
        ensures s[i] in "_-./:=" || '0' <= s[i] <= '9' || 'A' <= s[i] <= 'Z' || 'a' <= s[i] <= 'z'
      {
        MarksAreSafe(s[i]);
      }
    } else {
      var i :| 0 <= i < |s| && !SafeChar(s[i]);
      MarksAreSafe(s[i]);
      EscapeGrows(s);
    }
  }

  lemma MarksAreSafe(x: char)
    ensures SafeChar(x) <==> x in "_-./:=" || '0' <= x <= '9' || 'A' <= x <= 'Z' || 'a' <= x <= 'z'
  {
    var marks := "_-./:=";
    assert marks[0] == '_' && marks[1] == '-' && marks[2] == '.' && marks[3] == '/' && marks[4] == ':' && marks[5] == '=';
  }

  lemma {:induction false} EscapeGrows(s: string)
    ensures |EscapeQuotes(s)| >= |s|
  {
    if s != [] { EscapeGrows(s[1..]); }
  }

  function Join(parts: seq<string>): string {
    if parts == [] then ""
    else if |parts| == 1 then parts[0]
    else parts[0] + " " + Join(parts[1..])
  }

  /** Exactly one blank goes between two parts. */
  lemma {:induction false} JoinAppends(parts: seq<string>, last: string)
    requires parts != []
    ensures Join(parts + [last]) == Join(parts) + " " + last
  {
    if |parts| == 1 {
      assert parts + [last] == [parts[0], last];
      assert [parts[0], last][1..] == [last];
    } else {
      JoinAppends(parts[1..], last);
      assert (parts + [last])[1..] == parts[1..] + [last];
    }
  }

  function Quoted(words: seq<string>): seq<string> {
    seq(|words|, i requires 0 <= i < |words| => ShellQuote(words[i]))
  }

  datatype CommandSpec = CommandSpec(name: string, args: seq<string>) {
    function Words(): seq<string> {
      [name] + args
    }
  }

  method FormatCommand(spec: CommandSpec) returns (line: string)
    ensures line == Join(Quoted(spec.Words()))
    ensures Split(line) == Some(spec.Words())
  {
    var parts := [ShellQuote(spec.name)];
    for i := 0 to |spec.args|
      invariant parts == Quoted(spec.Words()[..i + 1])
    {
      parts := parts + [ShellQuote(spec.args[i])];
    }
    assert spec.Words()[..|spec.args| + 1] == spec.Words();
    line := Join(parts);
    SplitUndoesFormat(spec.Words());
  }

  // ------------------------------------------------------------------ reader

  datatype Mode = Bare | Single | Backslash

  /** `Stuck`: the line uses more of the language than words, blanks, backslashes and single quotes. */
  datatype Lexer = Lexer(words: seq<string>, word: Option<string>, mode: Mode) | Stuck

  /** Characters that mean something when they are not quoted, other than the three above. */
  predicate Special(x: char) {
    x in {'\n', '|', '&', ';', '<', '>', '(', ')', '$', '`', '"', '*', '?', '[', '#', '~', '!', '{', '}'}
  }

  function Grow(word: Option<string>, x: string): Option<string> {
    Some((match word case Some(w) => w case None => "") + x)
  }

  /** An opening quote starts a word even when nothing is between the quotes. */
  function Open(word: Option<string>): Option<string> {
    if word.Some? then word else Some("")
  }

  function EndWord(l: Lexer): Lexer
    requires l.Lexer?
  {
    if l.word.Some? then Lexer(l.words + [l.word.value], None, Bare) else l
  }

  function Feed(l: Lexer, x: char): Lexer {
    match l
    case Stuck => Stuck
    case Lexer(words, word, Single) =>
      if x == '\'' then Lexer(words, word, Bare) else Lexer(words, Grow(word, [x]), Single)
    case Lexer(words, word, Backslash) =>
      if x == '\n' then Lexer(words, word, Bare) else Lexer(words, Grow(word, [x]), Bare)
    case Lexer(words, word, Bare) =>
      if x == '\'' then Lexer(words, Open(word), Single)
      else if x == '\\' then Lexer(words, word, Backslash)
      else if x == ' ' || x == '\t' then EndWord(l)
      else if Special(x) then Stuck
      else Lexer(words, Grow(word, [x]), Bare)
  }

  function FeedAll(l: Lexer, s: string): Lexer
    decreases |s|
  {
    if s == [] then l else FeedAll(Feed(l, s[0]), s[1..])
  }

  /** The words of a line, unless a quote is left open or the line needs more than quoting. */
  function Split(line: string): Option<seq<string>> {
    var l := FeedAll(Lexer([], None, Bare), line);
    if l.Lexer? && l.mode.Bare? then Some(EndWord(l).words) else None
  }

  // -------------------------------------------------------------- round trip

  lemma {:induction false} FeedAppend(l: Lexer, s: string, t: string)
    ensures FeedAll(l, s + t) == FeedAll(FeedAll(l, s), t)
    decreases |s|
  {
    if s == [] {
      assert s + t == t;
    } else {
      assert (s + t)[1..] == s[1..] + t;
      FeedAppend(Feed(l, s[0]), s[1..], t);
    }
  }

  lemma {:induction false} SafeWord(words: seq<string>, w: string, s: string)
    requires AllSafe(s)
    ensures FeedAll(Lexer(words, Some(w), Bare), s) == Lexer(words, Some(w + s), Bare)
    decreases |s|
  {
    if s == [] {
      assert w + s == w;
    } else {
      SafeWord(words, w + [s[0]], s[1..]);
      assert w + [s[0]] + s[1..] == w + s;
    }
  }

  /** Inside single quotes an escaped text stands for the text. */
  lemma {:induction false} EscapedText(words: seq<string>, w: string, s: string)
    ensures FeedAll(Lexer(words, Some(w), Single), EscapeQuotes(s)) == Lexer(words, Some(w + s), Single)
    decreases |s|
  {
    if s == [] {
      assert w + s == w;
    } else {
      var l := Lexer(words, Some(w), Single);
      var first := if s[0] == '\'' then "'\\''" else [s[0]];
      FeedAppend(l, first, EscapeQuotes(s[1..]));
      FirstFed(words, w, s[0]);
      EscapedText(words, w + [s[0]], s[1..]);
      assert w + [s[0]] + s[1..] == w + s;
    }
  }

  lemma FirstFed(words: seq<string>, w: string, x: char)
    ensures FeedAll(Lexer(words, Some(w), Single), if x == '\'' then "'\\''" else [x])
            == Lexer(words, Some(w + [x]), Single)
  {
    if x == '\'' {
      var l := Lexer(words, Some(w), Single);
      assert "'\\''"[1..] == "\\''" && "\\''"[1..] == "''" && "''"[1..] == "'";
      assert Feed(l, '\'') == Lexer(words, Some(w), Bare);
      assert Feed(Lexer(words, Some(w), Bare), '\\') == Lexer(words, Some(w), Backslash);
      assert Feed(Lexer(words, Some(w), Backslash), '\'') == Lexer(words, Some(w + "'"), Bare);
      assert Feed(Lexer(words, Some(w + "'"), Bare), '\'') == Lexer(words, Some(w + "'"), Single);
    }
  }

  /** A quoted word is read back as one word. */
  lemma {:induction false} QuotedWord(words: seq<string>, s: string)
    ensures FeedAll(Lexer(words, None, Bare), ShellQuote(s)) == Lexer(words, Some(s), Bare)
  {
    var l := Lexer(words, None, Bare);
    if s == "" {
      assert "''"[1..] == "'";
      assert FeedAll(Feed(l, '\''), "'") == Feed(Feed(l, '\''), '\'');
    } else if AllSafe(s) {
      assert "" + [s[0]] == [s[0]];
      assert Feed(l, s[0]) == Lexer(words, Some([s[0]]), Bare);
      SafeWord(words, [s[0]], s[1..]);
      assert [s[0]] + s[1..] == s;
    } else {
      var body := EscapeQuotes(s) + "'";
      assert ShellQuote(s)[1..] == body;
      assert Feed(l, '\'') == Lexer(words, Some(""), Single);
      FeedAppend(Feed(l, '\''), EscapeQuotes(s), "'");
      EscapedText(words, "", s);
      assert "" + s == s;
    }
  }

  lemma BlankEndsWord(words: seq<string>, s: string)
    ensures FeedAll(Lexer(words, None, Bare), ShellQuote(s) + " ") == Lexer(words + [s], None, Bare)
  {
    QuotedWord(words, s);
    FeedAppend(Lexer(words, None, Bare), ShellQuote(s), " ");
    var l := Lexer(words, Some(s), Bare);
    assert FeedAll(l, " ") == FeedAll(Feed(l, ' '), []);
  }

  lemma JoinStep(rest: seq<string>)
    requires |rest| > 1
    ensures Join(Quoted(rest)) == (ShellQuote(rest[0]) + " ") + Join(Quoted(rest[1..]))
  {
    assert Quoted(rest)[1..] == Quoted(rest[1..]);
  }

  lemma Regroup(words: seq<string>, rest: seq<string>)
    requires |rest| > 1
    ensures words + [rest[0]] + rest[1..][..|rest| - 2] == words + rest[..|rest| - 1]
  {}

  lemma {:induction false} JoinedWords(words: seq<string>, rest: seq<string>)
    requires rest != []
    ensures FeedAll(Lexer(words, None, Bare), Join(Quoted(rest)))
            == Lexer(words + rest[..|rest| - 1], Some(rest[|rest| - 1]), Bare)
    decreases |rest|
  {
    if |rest| == 1 {
      QuotedWord(words, rest[0]);
      assert words + rest[..0] == words;
    } else {
      var first, tail := ShellQuote(rest[0]) + " ", Join(Quoted(rest[1..]));
      JoinStep(rest);
      BlankEndsWord(words, rest[0]);
      FeedAppend(Lexer(words, None, Bare), first, tail);
      JoinedWords(words + [rest[0]], rest[1..]);
      Regroup(words, rest);
    }
  }

  lemma SplitUndoesFormat(words: seq<string>)
    requires words != []
    ensures Split(Join(Quoted(words))) == Some(words)
  {
    JoinedWords([], words);
    assert [] + words[..|words| - 1] + [words[|words| - 1]] == words;
  }

  /** Two commands print alike only if they are the same command. */
  lemma FormatIsInjective(a: CommandSpec, b: CommandSpec)
    requires Join(Quoted(a.Words())) == Join(Quoted(b.Words()))
    ensures a == b
  {
    SplitUndoesFormat(a.Words());
    SplitUndoesFormat(b.Words());
    assert a.Words()[0] == b.Words()[0];
    assert a.Words()[1..] == a.args && b.Words()[1..] == b.args;
  }
}
