/** Quoting of remote paths, and how a POSIX shell reads the quoted text back (sections 2.2 and 2.3
    of the Shell Command Language, POSIX.1-2017). */
module ShellQuote {
  import opened Common

  // ---- What the editor sends ----

  /** Every quote of the text closes the quoted run, adds an escaped quote and opens a new run. */
  function Escape(s: string): string {
    if s == "" then ""
    else if s[0] == '\'' then "'\\''" + Escape(s[1..])
    else [s[0]] + Escape(s[1..])
  }

  function ShellQuote(s: string): string {
    "'" + Escape(s) + "'"
  }

  function SpaceJoined(parts: seq<string>): string {
    if parts == [] then ""
    else if |parts| == 1 then parts[0]
    else parts[0] + (" " + SpaceJoined(parts[1..]))
  }

  /** The command that writes a file: decode to a temporary file, then rename it. */
  function WriteCommand(b64: string, path: string): string {
    var quoted := ShellQuote(path);
    var tmp := quoted + ".rai_tmp";
    SpaceJoined(["printf", "'%s'", ShellQuote(b64), "|", "base64", "-d", ">", tmp, "&&", "mv", tmp, quoted])
  }

  // ---- How the shell reads it ----

  datatype Token = Word(text: string) | Pipe | Redirect | AndIf

  /** A word's text, and the input from the unquoted character that ends the word. */
  datatype Reading = Reading(text: string, rest: string)

  /** Characters that end a word unless quoted: blanks, newline, and those that begin an operator. */
  predicate Delimiter(c: char) {
    c in " \t\n|&;<>()"
  }

  /** Characters that stand for themselves when unquoted. The reader gives up on the others, such as
      those that begin an expansion or a pattern. */
  predicate Plain(c: char) {
    'a' <= c <= 'z' || 'A' <= c <= 'Z' || '0' <= c <= '9' || c in "._-/"
  }

  function Cons(c: char, r: Option<Reading>): Option<Reading> {
    if r.Some? then Some(Reading([c] + r.value.text, r.value.rest)) else None
  }

  /** Reads one word, in or out of single quotes, with its quoting removed. Within single quotes
      every character is literal; outside them a backslash quotes the next one, or continues the line. */
  function ReadWord(s: string, quoted: bool): (r: Option<Reading>)
    ensures r.Some? ==> |r.value.rest| <= |s|
    ensures r.Some? && s != "" && (quoted || !Delimiter(s[0])) ==> |r.value.rest| < |s|
    decreases |s|
  {
    if s == "" then (if quoted then None else Some(Reading("", "")))
    else if s[0] == '\'' then ReadWord(s[1..], !quoted)
    else if quoted then Cons(s[0], ReadWord(s[1..], true))
    else if Delimiter(s[0]) then Some(Reading("", s))
    else if s[0] == '\\' then
      if |s| == 1 then None
      else if s[1] == '\n' then ReadWord(s[2..], false)
      else Cons(s[1], ReadWord(s[2..], false))
    else if Plain(s[0]) then Cons(s[0], ReadWord(s[1..], false))
    else None
  }

  function ConsToken(t: Token, ts: Option<seq<Token>>): Option<seq<Token>> {
    if ts.Some? then Some([t] + ts.value) else None
  }

  /** The tokens of a command line of words and the operators `|`, `>` and `&&`. */
  function Tokens(s: string): Option<seq<Token>>
    decreases |s|
  {
    if s == "" then Some([])
    else if s[0] == ' ' || s[0] == '\t' then Tokens(s[1..])
    else if s[0] == '&' then
      if |s| > 1 && s[1] == '&' then ConsToken(AndIf, Tokens(s[2..])) else None
    else if s[0] == '|' then
      if |s| > 1 && s[1] == '|' then None else ConsToken(Pipe, Tokens(s[1..]))
    else if s[0] == '>' then
      if |s| > 1 && s[1] in ">&|" then None else ConsToken(Redirect, Tokens(s[1..]))
    else if Delimiter(s[0]) then None
    else
      var r := ReadWord(s, false);
      if r.None? then None else ConsToken(Word(r.value.text), Tokens(r.value.rest))
  }

  // ---- Reading a quoted text back ----

  function Prefixed(p: string, r: Option<Reading>): Option<Reading> {
    if r.Some? then Some(Reading(p + r.value.text, r.value.rest)) else None
  }

  lemma ReadQuote(t: string, quoted: bool)
    ensures ReadWord("'" + t, quoted) == ReadWord(t, !quoted)
  {
    assert ("'" + t)[1..] == t;
  }

  lemma ReadLiteral(c: char, t: string, quoted: bool)
    requires c != '\'' && (quoted || Plain(c))
    ensures ReadWord([c] + t, quoted) == Cons(c, ReadWord(t, quoted))
  {
    assert ([c] + t)[1..] == t;
  }

  lemma ReadEscapedQuote(t: string)
    ensures ReadWord("\\'" + t, false) == Cons('\'', ReadWord(t, false))
  {
    assert ("\\'" + t)[2..] == t;
  }

  lemma PrefixedCons(c: char, p: string, r: Option<Reading>)
    ensures Cons(c, Prefixed(p, r)) == Prefixed([c] + p, r)
  {
    if r.Some? {
      ConcatAssociates([c], p, r.value.text);
    }
  }

  /** The four characters that replace a quote, read within quotes, are a literal quote. */
  lemma ReadReplacedQuote(t: string)
    ensures ReadWord("'\\''" + t, true) == Cons('\'', ReadWord(t, true))
  {
    assert "'\\''" + t == "'" + ("\\'" + ("'" + t));
    ReadQuote("\\'" + ("'" + t), true);
    ReadEscapedQuote("'" + t);
    ReadQuote(t, false);
  }

  lemma {:induction false} ReadEscape(s: string, rest: string)
    ensures ReadWord(Escape(s) + ("'" + rest), true) == Prefixed(s, ReadWord(rest, false))
  {
    var tail := "'" + rest;
    if s == "" {
      ConcatEmpty(tail);
      ReadQuote(rest, true);
      if ReadWord(rest, false).Some? {
        ConcatEmpty(ReadWord(rest, false).value.text);
      }
    } else {
      var c, more := s[0], s[1..];
      ReadEscape(more, rest);
      if c == '\'' {
        ConcatAssociates("'\\''", Escape(more), tail);
        ReadReplacedQuote(Escape(more) + tail);
      } else {
        ConcatAssociates([c], Escape(more), tail);
        ReadLiteral(c, Escape(more) + tail, true);
      }
      PrefixedCons(c, more, ReadWord(rest, false));
      assert s == [c] + more;
    }
  }

  /** Whatever follows a quoted text, the shell reads the text itself and goes on, unquoted, with
      what follows. */
  lemma QuoteReadsBack(s: string, rest: string)
    ensures ReadWord(ShellQuote(s) + rest, false) == Prefixed(s, ReadWord(rest, false))
  {
    assert ShellQuote(s) + rest == "'" + (Escape(s) + ("'" + rest));
    ReadQuote(Escape(s) + ("'" + rest), false);
    ReadEscape(s, rest);
  }

  predicate Ends(rest: string) {
    rest == "" || Delimiter(rest[0])
  }

  /** A quoted text that nothing is glued to is one word, equal to the text. */
  lemma QuoteIsOneWord(s: string, rest: string)
    requires Ends(rest)
    ensures ReadWord(ShellQuote(s) + rest, false) == Some(Reading(s, rest))
  {
    QuoteReadsBack(s, rest);
    ConcatEmpty(s);
  }

  lemma {:induction false} PlainIsOneWord(w: string, rest: string)
    requires Ends(rest)
    requires forall c :: c in w ==> Plain(c)
    ensures ReadWord(w + rest, false) == Some(Reading(w, rest))
  {
    if w == "" {
      ConcatEmpty(rest);
    } else {
      PlainIsOneWord(w[1..], rest);
      assert w[0] in w;
      ReadLiteral(w[0], w[1..] + rest, false);
      ConcatAssociates([w[0]], w[1..], rest);
      assert w == [w[0]] + w[1..];
    }
  }

  /** A plain suffix written after the closing quote belongs to the same word. */
  lemma SuffixedQuoteIsOneWord(s: string, suffix: string, rest: string)
    requires Ends(rest)
    requires forall c :: c in suffix ==> Plain(c)
    ensures ReadWord(ShellQuote(s) + suffix + rest, false) == Some(Reading(s + suffix, rest))
  {
    ConcatAssociates(ShellQuote(s), suffix, rest);
    QuoteReadsBack(s, suffix + rest);
    PlainIsOneWord(suffix, rest);
  }

  /** Different texts are quoted differently. */
  lemma ShellQuoteInjective(s: string, t: string)
    requires ShellQuote(s) == ShellQuote(t)
    ensures s == t
  {
    QuoteIsOneWord(s, "");
    QuoteIsOneWord(t, "");
  }

  // ---- The whole command ----

  lemma SkipBlank(t: string)
    ensures Tokens(" " + t) == Tokens(t)
  {
    assert (" " + t)[1..] == t;
  }

  /** A part of a command line reads as a token in front of a blank and at the end. */
  ghost predicate ReadsAs(part: string, token: Token) {
    match token
    case Word(w) =>
      && part != "" && !Delimiter(part[0])
      && forall rest :: Ends(rest) ==> ReadWord(part + rest, false) == Some(Reading(w, rest))
    case Pipe => part == "|"
    case Redirect => part == ">"
    case AndIf => part == "&&"
  }

  lemma TokenBeforeBlank(part: string, token: Token, t: string)
    requires ReadsAs(part, token)
    ensures Tokens(part + (" " + t)) == ConsToken(token, Tokens(t))
  {
    SkipBlank(t);
    var line := part + (" " + t);
    match token
    case Word(w) =>
      assert ReadWord(part + (" " + t), false) == Some(Reading(w, " " + t));
    case AndIf =>
      assert line[2..] == " " + t;
    case _ =>
      assert line[1..] == " " + t;
  }

  lemma LastToken(part: string, token: Token)
    requires ReadsAs(part, token)
    ensures Tokens(part) == Some([token])
  {
    match token
    case Word(w) =>
      ConcatEmpty(part);
      assert ReadWord(part + "", false) == Some(Reading(w, ""));
      ConcatEmpty([token]);
    case AndIf =>
      assert part[2..] == "";
      ConcatEmpty([token]);
    case _ =>
      assert part[1..] == "";
      ConcatEmpty([token]);
  }

  ghost predicate AllRead(parts: seq<string>, tokens: seq<Token>) {
    |parts| == |tokens| && forall i :: 0 <= i < |parts| ==> ReadsAs(parts[i], tokens[i])
  }

  lemma RestReads(parts: seq<string>, tokens: seq<Token>)
    requires AllRead(parts, tokens) && parts != []
    ensures AllRead(parts[1..], tokens[1..])
  {
  }

  lemma OneMoreToken(part: string, token: Token, rest: string, tokens: seq<Token>)
    requires ReadsAs(part, token) && Tokens(rest) == Some(tokens)
    ensures Tokens(part + (" " + rest)) == Some([token] + tokens)
  {
    TokenBeforeBlank(part, token, rest);
  }

  /** A line of parts that each read as a token has exactly these tokens. */
  lemma {:induction false} JoinedTokens(parts: seq<string>, tokens: seq<Token>)
    requires AllRead(parts, tokens)
    ensures Tokens(SpaceJoined(parts)) == Some(tokens)
  {
    if parts == [] {
      assert tokens == [];
    } else if |parts| == 1 {
      LastToken(parts[0], tokens[0]);
      assert tokens == [tokens[0]];
    } else {
      RestReads(parts, tokens);
      JoinedTokens(parts[1..], tokens[1..]);
      OneMoreToken(parts[0], tokens[0], SpaceJoined(parts[1..]), tokens[1..]);
      assert tokens == [tokens[0]] + tokens[1..];
    }
  }

  lemma PlainReads(w: string)
    requires w != "" && forall c :: c in w ==> Plain(c)
    ensures ReadsAs(w, Word(w))
  {
    assert w[0] in w;
    forall rest | Ends(rest) ensures ReadWord(w + rest, false) == Some(Reading(w, rest)) {
      PlainIsOneWord(w, rest);
    }
  }

  lemma QuotedReads(s: string)
    ensures ReadsAs(ShellQuote(s), Word(s))
  {
    forall rest | Ends(rest) ensures ReadWord(ShellQuote(s) + rest, false) == Some(Reading(s, rest)) {
      QuoteIsOneWord(s, rest);
    }
  }

  lemma TemporaryReads(s: string)
    ensures ReadsAs(ShellQuote(s) + ".rai_tmp", Word(s + ".rai_tmp"))
  {
    forall rest | Ends(rest)
      ensures ReadWord(ShellQuote(s) + ".rai_tmp" + rest, false) == Some(Reading(s + ".rai_tmp", rest))
    {
      SuffixedQuoteIsOneWord(s, ".rai_tmp", rest);
    }
  }

  /** The command as it is meant. */
  function WriteTokens(b64: string, path: string): seq<Token> {
    [Word("printf"), Word("%s"), Word(b64), Pipe, Word("base64"), Word("-d"), Redirect, Word(path + ".rai_tmp"),
     AndIf, Word("mv"), Word(path + ".rai_tmp"), Word(path)]
  }

  /** For every path and content the remote shell sees exactly the intended command: no character
      of the path or of the content ends a word, starts an operator or is expanded. */
  lemma WriteCommandTokens(b64: string, path: string)
    ensures Tokens(WriteCommand(b64, path)) == Some(WriteTokens(b64, path))
  {
    PlainReads("printf");
    PlainReads("base64");
    PlainReads("-d");
    PlainReads("mv");
    QuotedReads("%s");
    assert ShellQuote("%s") == "'%s'";
    QuotedReads(b64);
    QuotedReads(path);
    TemporaryReads(path);
    var tmp := ShellQuote(path) + ".rai_tmp";
    JoinedTokens(
      ["printf", "'%s'", ShellQuote(b64), "|", "base64", "-d", ">", tmp, "&&", "mv", tmp, ShellQuote(path)],
      WriteTokens(b64, path));
  }
}
