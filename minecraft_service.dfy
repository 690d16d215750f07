/** The command `send_chat_message` sends over RCON: a `tellraw` to every
    player whose JSON text component is the log line. */
module MinecraftService {
  import opened Wrappers
  import opened ChatRepository

  /** What a JSON reader makes of the characters after an opening quote:
      the decoded text up to the closing quote and what follows that quote,
      or `None` when the literal is not closed or holds an escape neither
      escaper below produces. */
  function DecodeBody(t: string): (r: Option<(string, string)>)
    decreases |t|
  {
    if |t| == 0 then None
    else if t[0] == '"' then Some(("", t[1..]))
    else if t[0] == '\\' then
      if |t| >= 2 && (t[1] == '"' || t[1] == '\\') then
        match DecodeBody(t[2..])
        case None => None
        case Some(p) => Some(([t[1]] + p.0, p.1))
      else None
    else
      match DecodeBody(t[1..])
      case None => None
      case Some(p) => Some(([t[0]] + p.0, p.1))
  }

  /** `message.replace("\"", "\\\"")`: each double quote gets a backslash
      in front of it, and nothing else changes. */
  function EscapeQuotes(s: string): (r: string)
    ensures |r| == |s| + CountChar(s, '"')
  {
    if |s| == 0 then ""
    else EscapeQuotes(s[..|s| - 1]) + (if s[|s| - 1] == '"' then "\\\"" else [s[|s| - 1]])
  }

  /** The escaping a JSON string literal needs: backslashes as well as
      double quotes get a backslash in front of them. */
  function EscapeJson(s: string): (r: string)
    ensures |r| == |s| + CountChar(s, '"') + CountChar(s, '\\')
  {
    if |s| == 0 then ""
    else EscapeJson(s[..|s| - 1]) + EscapeJsonChar(s[|s| - 1])
  }

  function EscapeJsonChar(c: char): string
  {
    if c == '"' || c == '\\' then ['\\', c] else [c]
  }

  lemma {:induction false} EscapeQuotesAppend(a: string, b: string)
    ensures EscapeQuotes(a + b) == EscapeQuotes(a) + EscapeQuotes(b)
    decreases |b|
  {
    if |b| == 0 {
      assert a + b == a;
    } else {
      assert (a + b)[..|a + b| - 1] == a + b[..|b| - 1];
      EscapeQuotesAppend(a, b[..|b| - 1]);
    }
  }

  lemma {:induction false} EscapeJsonAppend(a: string, b: string)
    ensures EscapeJson(a + b) == EscapeJson(a) + EscapeJson(b)
    decreases |b|
  {
    if |b| == 0 {
      assert a + b == a;
    } else {
      assert (a + b)[..|a + b| - 1] == a + b[..|b| - 1];
      EscapeJsonAppend(a, b[..|b| - 1]);
    }
  }

  /** A double quote in the escaped text is always the second half of a
      `\"` pair, so it never ends the string literal on its own. */
  lemma {:induction false} EscapeQuotesGuardsQuotes(s: string)
    ensures forall i :: 0 <= i < |EscapeQuotes(s)| && EscapeQuotes(s)[i] == '"' ==> 0 < i && EscapeQuotes(s)[i - 1] == '\\'
  {
    if |s| > 0 {
      EscapeQuotesGuardsQuotes(s[..|s| - 1]);
    }
  }

  /** Reads escaped text back: each `\"` pair becomes `"`, and every other
      character is copied. */
  function UnescapeQuotes(t: string): string
  {
    if |t| == 0 then ""
    else if |t| >= 2 && t[0] == '\\' && t[1] == '"' then "\"" + UnescapeQuotes(t[2..])
    else [t[0]] + UnescapeQuotes(t[1..])
  }

  lemma EscapeQuotesCons(c: char, tail: string)
    ensures EscapeQuotes([c] + tail) == (if c == '"' then "\\\"" else [c]) + EscapeQuotes(tail)
  {
    EscapeQuotesAppend([c], tail);
    assert [c][..0] == [];
  }

  /** The escaping as written loses nothing: every text, backslashes and
      all, is recovered from its escaped form, so quotes are the only
      characters it changes. */
  lemma {:induction false} UnescapeEscapeQuotes(s: string)
    ensures UnescapeQuotes(EscapeQuotes(s)) == s
    decreases |s|
  {
    if |s| > 0 {
      var c, tail := s[0], s[1..];
      assert s == [c] + tail;
      EscapeQuotesCons(c, tail);
      var e := EscapeQuotes(tail);
      UnescapeEscapeQuotes(tail);
      if c == '"' {
        assert ("\\\"" + e)[2..] == e;
      } else {
        EscapeQuotesGuardsQuotes(tail);
        assert |e| > 0 ==> e[0] != '"';
        assert ([c] + e)[1..] == e;
      }
    }
  }

  /** Both escapers agree on text without backslashes. */
  lemma {:induction false} EscapesAgreeWithoutBackslash(s: string)
    requires '\\' !in s
    ensures EscapeQuotes(s) == EscapeJson(s)
  {
    if |s| > 0 {
      assert forall c :: c in s[..|s| - 1] ==> c in s;
      EscapesAgreeWithoutBackslash(s[..|s| - 1]);
    }
  }

  /** Decoding one escaped character in front of any text. */
  lemma DecodeEscapedChar(c: char, u: string)
    ensures DecodeBody(EscapeJsonChar(c) + u) ==
      match DecodeBody(u)
      case None => None
      case Some(p) => Some(([c] + p.0, p.1))
  {
    var t := EscapeJsonChar(c) + u;
    if c == '"' || c == '\\' {
      assert t[2..] == u;
    } else {
      assert t[1..] == u;
    }
  }

  /** The corrected escaping round-trips: a JSON reader recovers exactly the
      text, and the literal ends at the quote placed after it. */
  lemma {:induction false} DecodeEscapeJson(s: string, rest: string)
    ensures DecodeBody(EscapeJson(s) + "\"" + rest) == Some((s, rest))
    decreases |s|
  {
    if |s| == 0 {
      assert EscapeJson(s) + "\"" + rest == "\"" + rest;
    } else {
      var c, tail := s[0], s[1..];
      var u := EscapeJson(tail) + "\"" + rest;
      EscapeJsonCons(c, tail);
      assert s == [c] + tail;
      assert EscapeJson(s) + "\"" + rest == EscapeJsonChar(c) + u;
      DecodeEscapeJson(tail, rest);
      DecodeEscapedChar(c, u);
    }
  }

  lemma EscapeJsonCons(c: char, tail: string)
    ensures EscapeJson([c] + tail) == EscapeJsonChar(c) + EscapeJson(tail)
  {
    EscapeJsonAppend([c], tail);
    assert [c][..0] == [];
  }

  /** The escaping as written round-trips as long as the text holds no
      backslash. */
  lemma DecodeEscapeQuotes(s: string, rest: string)
    requires '\\' !in s
    ensures DecodeBody(EscapeQuotes(s) + "\"" + rest) == Some((s, rest))
  {
    EscapesAgreeWithoutBackslash(s);
    DecodeEscapeJson(s, rest);
  }

  const TellrawHead: string := "tellraw @a { \"text\": \""
  const TellrawTail: string := " }"

  /** The `tellraw` command as the source builds it, and as the controller
      sends it: only double quotes are escaped, so the text reads back intact
      exactly when it holds no backslash (see `TrailingBackslashBreaksCommand`). */
  function TellrawCommandAsWritten(message: string): (cmd: string)
    ensures |TellrawHead| <= |cmd| && cmd[..|TellrawHead|] == TellrawHead
    ensures cmd[|TellrawHead|..] == EscapeQuotes(message) + "\"" + TellrawTail
    ensures '\\' !in message ==> DecodeBody(cmd[|TellrawHead|..]) == Some((message, TellrawTail))
  {
    var cmd := TellrawHead + EscapeQuotes(message) + "\"" + TellrawTail;
    assert cmd[|TellrawHead|..] == EscapeQuotes(message) + "\"" + TellrawTail;
    if '\\' in message then cmd
    else DecodeEscapeQuotes(message, TellrawTail); cmd
  }

  /** Corrected: the `tellraw` command with the literal escaped as JSON
      requires, so that every message reads back intact. */
  function TellrawCommand(message: string): (cmd: string)
    ensures |TellrawHead| <= |cmd| && cmd[..|TellrawHead|] == TellrawHead
    ensures DecodeBody(cmd[|TellrawHead|..]) == Some((message, TellrawTail))
  {
    var cmd := TellrawHead + EscapeJson(message) + "\"" + TellrawTail;
    assert cmd[|TellrawHead|..] == EscapeJson(message) + "\"" + TellrawTail;
    DecodeEscapeJson(message, TellrawTail);
    cmd
  }

  /** As written, a log line ending in a backslash swallows the closing
      quote: the text component of the command is never terminated. */
  lemma TrailingBackslashBreaksCommand()
    ensures DecodeBody(TellrawCommandAsWritten("a\\")[|TellrawHead|..]) == None
    ensures DecodeBody(TellrawCommand("a\\")[|TellrawHead|..]) == Some(("a\\", TellrawTail))
  {
    var t := TellrawCommandAsWritten("a\\")[|TellrawHead|..];
    assert EscapeQuotes("a\\") == "a\\" by {
      assert "a\\"[..1] == "a";
      assert "a"[..0] == "";
    }
    assert t == "a\\\" }";
    assert DecodeBody("") == None;
    assert DecodeBody("}") == None by { assert "}"[1..] == ""; }
    assert DecodeBody(" }") == None by { assert " }"[1..] == "}"; }
    assert DecodeBody("\\\" }") == None by { assert "\\\" }"[2..] == " }"; }
    assert t[1..] == "\\\" }";
  }
}
