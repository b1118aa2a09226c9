/**
 * A simplified model of `shlex.split(s)` in POSIX mode without comments, as
 * core/protocol.py uses it to tokenize a command line: whitespace separates
 * tokens, single quotes protect everything up to the next single quote,
 * double quotes protect everything but a backslash before `"` or `\`, and a
 * backslash outside quotes takes the next character literally.
 */
module Shlex {
  import opened Wrappers
  import Text

  /** The two ways the tokenizer fails. */
  datatype Error = NoClosingQuotation | NoEscapedCharacter

  /** The message `str(e)` carries for each error. */
  function Message(e: Error): string {
    match e
    case NoClosingQuotation => "No closing quotation"
    case NoEscapedCharacter => "No escaped character"
  }

  datatype State = Blank | InWord | InSingle | InDouble | EscapeWord | EscapeDouble

  /** shlex's POSIX whitespace set. */
  predicate IsWhitespace(c: char) {
    c == ' ' || c == '\t' || c == '\r' || c == '\n'
  }

  /** A character with no meaning to the tokenizer. */
  predicate IsPlain(c: char) {
    !IsWhitespace(c) && c != '\'' && c != '"' && c != '\\'
  }

  /** The tokenizer's state machine; `tok` is the token being built, `acc` the tokens emitted. */
  function Lex(s: string, st: State, tok: string, acc: seq<string>): Result<seq<string>, Error>
    decreases |s|
  {
    if s == [] then
      match st
      case Blank => Ok(acc)
      case InWord => Ok(acc + [tok])
      case InSingle => Err(NoClosingQuotation)
      case InDouble => Err(NoClosingQuotation)
      case EscapeWord => Err(NoEscapedCharacter)
      case EscapeDouble => Err(NoEscapedCharacter)
    else
      var c, rest := s[0], s[1..];
      match st
      case Blank =>
        if IsWhitespace(c) then Lex(rest, Blank, "", acc)
        else if c == '\\' then Lex(rest, EscapeWord, "", acc)
        else if c == '\'' then Lex(rest, InSingle, "", acc)
        else if c == '"' then Lex(rest, InDouble, "", acc)
        else Lex(rest, InWord, [c], acc)
      case InWord =>
        if IsWhitespace(c) then Lex(rest, Blank, "", acc + [tok])
        else if c == '\\' then Lex(rest, EscapeWord, tok, acc)
        else if c == '\'' then Lex(rest, InSingle, tok, acc)
        else if c == '"' then Lex(rest, InDouble, tok, acc)
        else Lex(rest, InWord, tok + [c], acc)
      case InSingle =>
        if c == '\'' then Lex(rest, InWord, tok, acc) else Lex(rest, InSingle, tok + [c], acc)
      case InDouble =>
        if c == '"' then Lex(rest, InWord, tok, acc)
        else if c == '\\' then Lex(rest, EscapeDouble, tok, acc)
        else Lex(rest, InDouble, tok + [c], acc)
      case EscapeWord =>
        Lex(rest, InWord, tok + [c], acc)
      case EscapeDouble =>
        Lex(rest, InDouble, if c == '"' || c == '\\' then tok + [c] else tok + ['\\', c], acc)
  }

  /** `shlex.split(s)`. */
  function Split(s: string): Result<seq<string>, Error> {
    Lex(s, Blank, "", [])
  }

  predicate PlainWord(w: string) {
    |w| > 0 && forall k :: 0 <= k < |w| ==> IsPlain(w[k])
  }

  lemma {:induction false} LexPlainRun(w: string, rest: string, tok: string, acc: seq<string>)
    requires forall k :: 0 <= k < |w| ==> IsPlain(w[k])
    ensures Lex(w + rest, InWord, tok, acc) == Lex(rest, InWord, tok + w, acc)
    decreases |w|
  {
    if w == [] {
      assert w + rest == rest && tok + w == tok;
    } else {
      assert (w + rest)[0] == w[0];
      assert (w + rest)[1..] == w[1..] + rest;
      assert IsPlain(w[0]);
      assert Lex(w + rest, InWord, tok, acc) == Lex(w[1..] + rest, InWord, tok + [w[0]], acc);
      LexPlainRun(w[1..], rest, tok + [w[0]], acc);
      assert tok + [w[0]] + w[1..] == tok + w;
    }
  }

  lemma {:induction false} LexPlainWords(ws: seq<string>, acc: seq<string>)
    requires |ws| >= 1
    requires forall k :: 0 <= k < |ws| ==> PlainWord(ws[k])
    ensures Lex(Text.Join(ws, " "), Blank, "", acc) == Ok(acc + ws)
    decreases |ws|
  {
    var w := ws[0];
    var tail := if |ws| == 1 then "" else " " + Text.Join(ws[1..], " ");
    assert Text.Join(ws, " ") == w + tail;
    assert (w + tail)[0] == w[0];
    assert (w + tail)[1..] == w[1..] + tail;
    LexPlainRun(w[1..], tail, [w[0]], acc);
    assert [w[0]] + w[1..] == w;
    if |ws| == 1 {
      assert ws == [w];
    } else {
      assert tail[1..] == Text.Join(ws[1..], " ");
      LexPlainWords(ws[1..], acc + [w]);
      assert acc + [w] + ws[1..] == acc + ws;
    }
  }

  /** A command line written as plain words separated by single spaces tokenizes back to those words. */
  lemma SplitJoinPlain(ws: seq<string>)
    requires |ws| >= 1
    requires forall k :: 0 <= k < |ws| ==> PlainWord(ws[k])
    ensures Split(Text.Join(ws, " ")) == Ok(ws)
  {
    LexPlainWords(ws, []);
    assert [] + ws == ws;
  }

  /** Quotes group words and are removed; an empty pair of quotes is an empty token. */
  lemma QuotingExample()
    ensures Split("a \"b c\"") == Ok(["a", "b c"])
  {
    var emitted: seq<string> := [] + ["a"];
    assert emitted == ["a"];
    assert Split("a \"b c\"") == Lex("\"b c\"", Blank, "", emitted);
    assert Lex("\"b c\"", Blank, "", emitted) == Lex("b c\"", InDouble, "", emitted);
    assert "" + ['b'] == "b" && "b" + [' '] == "b " && "b " + ['c'] == "b c";
    assert Lex("b c\"", InDouble, "", emitted) == Lex(" c\"", InDouble, "b", emitted);
    assert Lex(" c\"", InDouble, "b", emitted) == Lex("c\"", InDouble, "b ", emitted);
    assert Lex("c\"", InDouble, "b ", emitted) == Lex("\"", InDouble, "b c", emitted);
    assert Lex("\"", InDouble, "b c", emitted) == Lex("", InWord, "b c", emitted);
    assert emitted + ["b c"] == ["a", "b c"];
  }

  lemma EmptyQuotesExample()
    ensures Split("''") == Ok([""])
  {
    assert Split("''") == Lex("", InWord, "", []);
    assert [] + [""] == [""];
  }

  /** An unbalanced quote and a trailing backslash are the two failures. */
  lemma ErrorExamples()
    ensures Split("\"a") == Err(NoClosingQuotation)
    ensures Split("a\\") == Err(NoEscapedCharacter)
  {
  }
}
