/** The generated hook command: quoted by the agent (agent/internal/hookrelay/relay.go), split by a POSIX shell,
    parsed by the agent again (agent/cmd/cma/main.go). */
module Shell {
  import opened Wrappers

  // ---- Writing ----

  /** `strings.ReplaceAll(value, "'", "'\"'\"'")` */
  function ReplaceQuotes(value: string): string {
    if value == "" then "" else (if value[0] == '\'' then "'\"'\"'" else [value[0]]) + ReplaceQuotes(value[1..])
  }

  function ShellQuote(value: string): string {
    "'" + ReplaceQuotes(value) + "'"
  }

  const HOOK_FORWARD := "hook-forward"
  const TOKEN_FLAG := "--token"

  function UnixCommand(executable: string, endpoint: string, token: string): string {
    ShellQuote(executable) + " " + HOOK_FORWARD + " " + TOKEN_FLAG + " " + ShellQuote(token) + " " +
        ShellQuote(endpoint)
  }

  // ---- Splitting ----

  datatype Quoting = Plain | Single | Double

  /** Characters that stand for themselves outside quotes, wherever they are in a word. */
  predicate IsLiteral(c: char) {
    'a' <= c <= 'z' || 'A' <= c <= 'Z' || '0' <= c <= '9' || c in "-_./:,+@%"
  }

  function Started(word: Option<string>): string {
    if word.Some? then word.value else ""
  }

  function Finish(word: Option<string>, rest: Option<seq<string>>): Option<seq<string>> {
    match rest
    case None => None
    case Some(words) => Some(if word.Some? then [word.value] + words else words)
  }

  /** Field splitting and quote removal (sections 2.2 and 2.6.7 of the POSIX.1-2017 Shell Command Language). `word`
      is the word under way, if any. None is anything but a plain list of words: an operator, a newline, an
      expansion, a pattern, a comment, an assignment, an open quote, or a NUL. */
  function Words(s: string, quoting: Quoting, word: Option<string>): Option<seq<string>>
    decreases |s|
  {
    if s == "" then
      if quoting == Plain then Finish(word, Some([])) else None
    else
      var c, rest := s[0], s[1..];
      if c == '\0' then None
      else
        match quoting
        case Single =>
          if c == '\'' then Words(rest, Plain, word) else Words(rest, Single, Some(Started(word) + [c]))
        case Double =>
          if c == '"' then Words(rest, Plain, word)
          else if c == '$' || c == '`' then None
          else if c == '\\' && rest != "" && rest[0] == '\n' then Words(rest[1..], Double, word)
          else if c == '\\' && rest != "" && rest[0] in "$`\"\\"
              then Words(rest[1..], Double, Some(Started(word) + [rest[0]]))
          else Words(rest, Double, Some(Started(word) + [c]))
        case Plain =>
          if c == ' ' || c == '\t' then Finish(word, Words(rest, Plain, None))
          else if c == '\'' then Words(rest, Single, Some(Started(word)))
          else if c == '"' then Words(rest, Double, Some(Started(word)))
          else if c == '\\' then
            if rest == "" || rest[0] == '\0' then None
            else if rest[0] == '\n' then Words(rest[1..], Plain, word)
            else Words(rest[1..], Plain, Some(Started(word) + [rest[0]]))
          else if IsLiteral(c) then Words(rest, Plain, Some(Started(word) + [c]))
          else None
  }

  function Split(command: string): Option<seq<string>> {
    Words(command, Plain, None)
  }

  // ---- Parsing the arguments ----

  const DEFAULT_URL := "http://127.0.0.1:8765/api/v1/hooks/codex"

  /** Token and endpoint. */
  function HookArgs(args: seq<string>): Option<(string, string)> {
    if |args| < 2 || args[0] != TOKEN_FLAG || args[1] == "" then None
    else Some((args[1], if |args| > 2 then args[2] else DEFAULT_URL))
  }

  datatype HookCommand = NotAHookCommand | Rejected | Forward(token: string,
                                                              endpoint: string) | PrintConfig(token: string,
                                                                      endpoint: string)

  const PRINT_CONFIG := "print-hook-config"

  function RunHookCommand(args: seq<string>): HookCommand {
    if args == [] then NotAHookCommand
    else if args[0] == HOOK_FORWARD then
      match HookArgs(args[1..])
      case None => Rejected
      case Some((token, endpoint)) => Forward(token, endpoint)
    else if args[0] == PRINT_CONFIG then
      match HookArgs(args[1..])
      case None => Rejected
      case Some((token, endpoint)) => PrintConfig(token, endpoint)
    else NotAHookCommand
  }

  // ---- Reading back what was quoted ----

  predicate NulFree(s: string) {
    forall i :: 0 <= i < |s| ==> s[i] != '\0'
  }

  /** A quote inside quotes: close, a double-quoted quote, open again. */
  lemma QuoteRead(rest: string, w: string)
    ensures Words("'\"'\"'" + rest, Single, Some(w)) == Words(rest, Single, Some(w + "'"))
  {
    var s1, s2, s3, s4 := "\"'\"'" + rest, "'\"'" + rest, "\"'" + rest, "'" + rest;
    var s0 := "'\"'\"'" + rest;
    assert s0[1..] == s1 && s1[1..] == s2 && s2[1..] == s3 && s3[1..] == s4 && s4[1..] == rest;
    assert Words(s0, Single, Some(w)) == Words(s1, Plain, Some(w));
    assert Words(s1, Plain, Some(w)) == Words(s2, Double, Some(w));
    assert Words(s2, Double, Some(w)) == Words(s3, Double, Some(w + "'"));
    assert Words(s3, Double, Some(w + "'")) == Words(s4, Plain, Some(w + "'"));
  }

  lemma {:induction false} InnerRead(value: string, rest: string, w: string)
    requires NulFree(value)
    ensures Words(ReplaceQuotes(value) + "'" + rest, Single, Some(w)) == Words(rest, Plain, Some(w + value))
  {
    var s := ReplaceQuotes(value) + "'" + rest;
    if value == "" {
      assert s == "'" + rest && s[1..] == rest && w + value == w;
    } else {
      var tail := ReplaceQuotes(value[1..]) + "'" + rest;
      assert w + [value[0]] + value[1..] == w + value;
      InnerRead(value[1..], rest, w + [value[0]]);
      if value[0] == '\'' {
        assert s == "'\"'\"'" + tail;
        QuoteRead(tail, w);
      } else {
        assert s[0] == value[0] && s[1..] == tail;
      }
    }
  }

  /** A quoted value is one word, or part of one. */
  lemma QuotedRead(value: string, rest: string, word: Option<string>)
    requires NulFree(value)
    ensures Words(ShellQuote(value) + rest, Plain, word) == Words(rest, Plain, Some(Started(word) + value))
  {
    var s := ShellQuote(value) + rest;
    assert s[1..] == ReplaceQuotes(value) + "'" + rest;
    InnerRead(value, rest, Started(word));
  }

  lemma LiteralStep(c: char, rest: string, word: Option<string>)
    requires IsLiteral(c)
    ensures Words([c] + rest, Plain, word) == Words(rest, Plain, Some(Started(word) + [c]))
  {
    assert ([c] + rest)[1..] == rest;
  }

  lemma {:induction false} LiteralRead(text: string, rest: string, word: Option<string>)
    requires text != "" && forall i :: 0 <= i < |text| ==> IsLiteral(text[i])
    ensures Words(text + rest, Plain, word) == Words(rest, Plain, Some(Started(word) + text))
  {
    hide Words, IsLiteral;
    var c, tail := text[0], text[1..];
    assert text + rest == [c] + (tail + rest);
    LiteralStep(c, tail + rest, word);
    if tail != "" {
      LiteralRead(tail, rest, Some(Started(word) + [c]));
      assert Started(word) + [c] + tail == Started(word) + text;
    } else {
      assert tail + rest == rest && [c] == text;
    }
  }

  lemma BlankRead(rest: string, w: string)
    ensures Words(" " + rest, Plain, Some(w)) == Finish(Some(w), Words(rest, Plain, None))
  {
    assert (" " + rest)[1..] == rest;
  }

  lemma FixedWords()
    ensures HOOK_FORWARD != "" && (forall i :: 0 <= i < |HOOK_FORWARD| ==> IsLiteral(HOOK_FORWARD[i]))
    ensures TOKEN_FLAG != "" && (forall i :: 0 <= i < |TOKEN_FLAG| ==> IsLiteral(TOKEN_FLAG[i]))
  {
  }

  /** The command is exactly five words, whatever quotes, spaces, dollars or newlines its values hold. */
  lemma CommandSplits(executable: string, endpoint: string, token: string)
    requires NulFree(executable) && NulFree(endpoint) && NulFree(token)
    ensures Split(UnixCommand(executable, endpoint, token)) ==
            Some([executable, HOOK_FORWARD, TOKEN_FLAG, token, endpoint])
  {
    FixedWords();
    hide Words, ShellQuote, HOOK_FORWARD, TOKEN_FLAG;
    var r5 := ShellQuote(endpoint) + "";
    var r4 := ShellQuote(token) + (" " + r5);
    var r3 := TOKEN_FLAG + (" " + r4);
    var r2 := HOOK_FORWARD + (" " + r3);
    assert UnixCommand(executable, endpoint, token) == ShellQuote(executable) + (" " + r2);
    LastWord(endpoint);
    QuotedRead(token, " " + r5, None);
    NextWord(ShellQuote(token), r5, token, [endpoint], [token, endpoint]);
    LiteralRead(TOKEN_FLAG, " " + r4, None);
    NextWord(TOKEN_FLAG, r4, TOKEN_FLAG, [token, endpoint], [TOKEN_FLAG, token, endpoint]);
    LiteralRead(HOOK_FORWARD, " " + r3, None);
    NextWord(HOOK_FORWARD, r3, HOOK_FORWARD, [TOKEN_FLAG, token, endpoint],
             [HOOK_FORWARD, TOKEN_FLAG, token, endpoint]);
    QuotedRead(executable, " " + r2, None);
    NextWord(ShellQuote(executable), r2, executable, [HOOK_FORWARD, TOKEN_FLAG, token, endpoint],
             [executable, HOOK_FORWARD, TOKEN_FLAG, token, endpoint]);
  }

  lemma LastWord(value: string)
    requires NulFree(value)
    ensures Words(ShellQuote(value) + "", Plain, None) == Some([value])
  {
    QuotedRead(value, "", None);
    assert "" + value == value && [value] + [] == [value];
    assert Words("", Plain, Some(value)) == Finish(Some(value), Some([]));
  }

  /** A word followed by a blank. */
  lemma NextWord(text: string, rest: string, word: string, words: seq<string>, all: seq<string>)
    requires Words(text + (" " + rest), Plain, None) == Words(" " + rest, Plain, Some(Started(None) + word))
    requires Words(rest, Plain, None) == Some(words) && all == [word] + words
    ensures Words(text + (" " + rest), Plain, None) == Some(all)
  {
    assert Started(None) + word == word;
    BlankRead(rest, word);
  }

  lemma {:induction false} NulRefused(s: string, quoting: Quoting, word: Option<string>)
    requires !NulFree(s)
    ensures Words(s, quoting, word) == None
    decreases |s|
  {
    if s[0] != '\0' {
      assert !NulFree(s[1..]) by {
        var i :| 0 <= i < |s| && s[i] == '\0';
        assert s[1..][i - 1] == '\0';
      }
      forall q, w ensures Words(s[1..], q, w) == None {
        NulRefused(s[1..], q, w);
      }
      if s[1] != '\0' {
        assert !NulFree(s[2..]) by {
          var i :| 0 <= i < |s| && s[i] == '\0';
          assert s[2..][i - 2] == '\0';
        }
        assert s[1..][1..] == s[2..];
        forall q, w ensures Words(s[2..], q, w) == None {
          NulRefused(s[2..], q, w);
        }
      }
    }
  }

  lemma {:induction false} QuotedKeepsNul(value: string)
    ensures NulFree(ReplaceQuotes(value)) ==> NulFree(value)
  {
    if value != "" {
      var tail := ReplaceQuotes(value[1..]);
      QuotedKeepsNul(value[1..]);
      var s := ReplaceQuotes(value);
      if NulFree(s) {
        assert tail == s[|s| - |tail|..];
        assert value[0] == '\'' || value[0] == s[0];
        assert value == [value[0]] + value[1..];
      }
    }
  }

  lemma PartIsNulFree(a: string, b: string, c: string)
    requires NulFree(a + b + c)
    ensures NulFree(b)
  {
    forall i | 0 <= i < |b| ensures b[i] != '\0' {
      assert (a + b + c)[|a| + i] == b[i];
    }
  }

  /** The shell hands over exactly the five words, if and only if none of the values holds a NUL. */
  lemma CommandSplitsExactly(executable: string, endpoint: string, token: string)
    ensures Split(UnixCommand(executable, endpoint, token)) ==
            Some([executable, HOOK_FORWARD, TOKEN_FLAG, token, endpoint]) <==>
            NulFree(executable) && NulFree(endpoint) && NulFree(token)
  {
    hide Words, ReplaceQuotes, NulFree;
    var command := UnixCommand(executable, endpoint, token);
    if NulFree(executable) && NulFree(endpoint) && NulFree(token) {
      CommandSplits(executable, endpoint, token);
    } else if NulFree(command) {
      CommandKeepsNul(executable, endpoint, token);
    } else {
      NulRefused(command, Plain, None);
    }
  }

  lemma CommandKeepsNul(executable: string, endpoint: string, token: string)
    requires NulFree(UnixCommand(executable, endpoint, token))
    ensures NulFree(executable) && NulFree(endpoint) && NulFree(token)
  {
    hide NulFree, ReplaceQuotes, HOOK_FORWARD, TOKEN_FLAG;
    var middle := " " + HOOK_FORWARD + " " + TOKEN_FLAG + " ";
    var e, t, u := ReplaceQuotes(executable), ReplaceQuotes(token), ReplaceQuotes(endpoint);
    var command := UnixCommand(executable, endpoint, token);
    assert command == "'" + e + ("'" + middle + "'" + t + "' '" + u + "'");
    assert command == ("'" + e + "'" + middle + "'") + t + ("' '" + u + "'");
    assert command == ("'" + e + "'" + middle + "'" + t + "' '") + u + "'";
    PartIsNulFree("'", e, "'" + middle + "'" + t + "' '" + u + "'");
    PartIsNulFree("'" + e + "'" + middle + "'", t, "' '" + u + "'");
    PartIsNulFree("'" + e + "'" + middle + "'" + t + "' '", u, "'");
    QuotedKeepsNul(executable);
    QuotedKeepsNul(token);
    QuotedKeepsNul(endpoint);
  }

  /** What the agent, started by that command, does: it forwards with exactly the token and endpoint the command
      was made from, and it does so if and only if the token is not empty. */
  lemma CommandRoundTrip(executable: string, endpoint: string, token: string, words: seq<string>)
    requires NulFree(executable) && NulFree(endpoint) && NulFree(token)
    requires Split(UnixCommand(executable, endpoint, token)) == Some(words)
    ensures |words| == 5 && words[0] == executable
    ensures RunHookCommand(words[1..]) == if token != "" then Forward(token, endpoint) else Rejected
  {
    hide Words, ShellQuote, HOOK_FORWARD, TOKEN_FLAG;
    CommandSplits(executable, endpoint, token);
    assert words[1..] == [HOOK_FORWARD, TOKEN_FLAG, token, endpoint];
    assert words[1..][1..] == [TOKEN_FLAG, token, endpoint];
  }

  /** Whatever print-hook-config accepts, it prints a command that forwards just that. */
  lemma PrintedCommandForwards(args: seq<string>, executable: string, words: seq<string>)
    requires NulFree(executable) && forall i :: 0 <= i < |args| ==> NulFree(args[i])
    requires RunHookCommand(args).PrintConfig?
    requires Split(UnixCommand(executable, RunHookCommand(args).endpoint, RunHookCommand(args).token)) == Some(words)
    ensures |words| == 5 && RunHookCommand(words[1..]) ==
            Forward(RunHookCommand(args).token, RunHookCommand(args).endpoint)
    ensures RunHookCommand(args).token == args[2] && RunHookCommand(args).endpoint == if |args| > 3 then args[3]
            else DEFAULT_URL
  {
    DefaultIsNulFree();
    hide UnixCommand, Words, DEFAULT_URL, NulFree;
    CommandRoundTrip(executable, RunHookCommand(args).endpoint, RunHookCommand(args).token, words);
  }

  lemma DefaultIsNulFree()
    ensures NulFree(DEFAULT_URL)
  {
  }
}
