/**
 * How the command line that pipes standard input into a program is quoted
 * (backend/routes/execute.js:109), read the way a POSIX shell reads a
 * double-quoted word (section 2.2.3 of the POSIX Shell Command Language):
 * inside double quotes a backslash escapes only `$`, `` ` ``, `"`, `\` and a
 * newline, and an unescaped `"` ends the word.
 */
module Shell {
  import opened Text

  /** The outcome of reading the body of a double-quoted word, just after its opening quote. */
  datatype Read =
    | Closed(body: string, rest: string)  // the decoded body, and what follows the closing quote
    | Unterminated                        // no closing quote
    | Expands                             // an unescaped `$` or backquote: the shell would expand it

  predicate Escapable(c: char)
  {
    c == '$' || c == '`' || c == '"' || c == '\\' || c == '\n'
  }

  function Prepend(c: char, r: Read): Read
  {
    match r
    case Closed(body, rest) => Closed([c] + body, rest)
    case _ => r
  }

  function PrependAll(p: string, r: Read): Read
  {
    match r
    case Closed(body, rest) => Closed(p + body, rest)
    case _ => r
  }

  function DqRead(s: string): Read
  {
    if s == [] then Unterminated
    else if s[0] == '"' then Closed([], s[1..])
    else if s[0] == '$' || s[0] == '`' then Expands
    else if s[0] == '\\' && |s| >= 2 && Escapable(s[1]) then
      if s[1] == '\n' then DqRead(s[2..]) else Prepend(s[1], DqRead(s[2..]))
    else Prepend(s[0], DqRead(s[1..]))
  }

  /** The characters a backslash must protect inside double quotes (a newline needs none). */
  predicate Special(c: char)
  {
    c == '"' || c == '$' || c == '`' || c == '\\'
  }

  /** Text that means nothing special inside double quotes. */
  predicate Plain(p: string)
  {
    forall i :: 0 <= i < |p| ==> !Special(p[i])
  }

  lemma StepPlain(c: char, v: string)
    requires !Special(c)
    ensures DqRead([c] + v) == Prepend(c, DqRead(v))
  {
    assert ([c] + v)[1..] == v;
  }

  lemma StepEscaped(c: char, v: string)
    requires Special(c)
    ensures DqRead(['\\', c] + v) == Prepend(c, DqRead(v))
  {
    assert (['\\', c] + v)[2..] == v;
  }

  lemma {:induction false} ReadPlain(p: string, t: string)
    requires Plain(p)
    ensures DqRead(p + t) == PrependAll(p, DqRead(t))
  {
    if p != [] {
      assert p + t == [p[0]] + (p[1..] + t);
      StepPlain(p[0], p[1..] + t);
      ReadPlain(p[1..], t);
      assert p == [p[0]] + p[1..];
      match DqRead(t)
      case Closed(body, rest) =>
        assert ([p[0]] + p[1..]) + body == [p[0]] + (p[1..] + body);
      case Unterminated =>
      case Expands =>
    } else {
      assert p + t == t;
      match DqRead(t)
      case Closed(body, rest) =>
        assert p + body == body;
      case Unterminated =>
      case Expands =>
    }
  }

  /** `input.replace(/"/g, '\\"')`: a backslash before every double quote, nothing else. */
  function EscapeQuotes(s: string): string
  {
    if s == [] then []
    else (if s[0] == '"' then "\\\"" else [s[0]]) + EscapeQuotes(s[1..])
  }

  /** Removes the backslash in front of each double quote. */
  function DropQuoteEscapes(t: string): string
  {
    if t == [] then []
    else if |t| >= 2 && t[0] == '\\' && t[1] == '"' then "\"" + DropQuoteEscapes(t[2..])
    else [t[0]] + DropQuoteEscapes(t[1..])
  }

  /** The escaping loses nothing: dropping the added backslashes gives the input back. */
  lemma {:induction false} EscapeQuotesRoundTrip(s: string)
    ensures DropQuoteEscapes(EscapeQuotes(s)) == s
  {
    if s != [] {
      EscapeQuotesRoundTrip(s[1..]);
      var e := EscapeQuotes(s);
      if s[0] == '"' {
        assert e[2..] == EscapeQuotes(s[1..]);
      } else if s[0] == '\\' && s[1..] != [] && s[1] == '"' {
        assert e[0] == '\\' && e[1] == '\\';
        assert e[1..] == EscapeQuotes(s[1..]);
      } else {
        assert e[1..] == EscapeQuotes(s[1..]);
      }
    }
  }

  /** Text without double quotes is left exactly as it is. */
  lemma {:induction false} EscapeQuotesIdentity(s: string)
    requires '"' !in s
    ensures EscapeQuotes(s) == s
  {
    if s != [] {
      EscapeQuotesIdentity(s[1..]);
    }
  }

  /**
   * The piped command as written. The template literal's `\"` is a plain
   * `"`, so the command is `bash -lc "printf %s "` + escaped input + `" | ` + cmd + `"`.
   */
  function PipeInput(input: string, cmd: string): string
  {
    "bash -lc \"printf %s \"" + EscapeQuotes(input) + "\" | " + cmd + "\""
  }

  const BashLc: string := "bash -lc \""

  /** A plain text followed by a quote reads as exactly that text. */
  lemma ReadPlainThenClose(p: string, rest: string)
    requires Plain(p)
    ensures DqRead(p + ("\"" + rest)) == Closed(p, rest)
  {
    var t := "\"" + rest;
    assert t[0] == '"' && t[1..] == rest;
    assert DqRead(t) == Closed([], rest);
    ReadPlain(p, t);
  }

  /**
   * As written, the double-quoted part after `bash -lc` closes right before
   * the input, so the outer shell reads the input unquoted. Plain input
   * only continues the same word, but a blank in it ends that word, and
   * `;`, `|`, `$(...)`, `&` or a newline in it act as outer-shell syntax.
   */
  lemma PipeInputLeavesInputUnquoted(input: string, cmd: string)
    ensures StartsWith(PipeInput(input, cmd), BashLc)
    ensures DqRead(PipeInput(input, cmd)[|BashLc|..]) == Closed("printf %s ", EscapeQuotes(input) + "\" | " + cmd + "\"")
  {
    var rest := EscapeQuotes(input) + "\" | " + cmd + "\"";
    assert PipeInput(input, cmd) == BashLc + ("printf %s " + ("\"" + rest));
    assert Plain("printf %s ");
    ReadPlainThenClose("printf %s ", rest);
  }


  /** Escapes every character that is special inside double quotes. */
  function QuoteBody(s: string): string
  {
    if s == [] then []
    else (if Special(s[0]) then ['\\', s[0]] else [s[0]]) + QuoteBody(s[1..])
  }

  /** `s` as one double-quoted shell word. */
  function Quote(s: string): string
  {
    "\"" + QuoteBody(s) + "\""
  }

  /** Whatever `s` holds, the quoted word reads back as exactly `s` and ends where it was meant to. */
  lemma {:induction false} QuoteRoundTrip(s: string, t: string)
    ensures DqRead(QuoteBody(s) + "\"" + t) == Closed(s, t)
  {
    if s == [] {
    } else {
      QuoteRoundTrip(s[1..], t);
      var u := QuoteBody(s) + "\"" + t;
      var v := QuoteBody(s[1..]) + "\"" + t;
      if Special(s[0]) {
        assert u == ['\\', s[0]] + v;
        StepEscaped(s[0], v);
      } else {
        assert u == [s[0]] + v;
        StepPlain(s[0], v);
      }
    }
  }

  const PrintfQuote: string := "printf %s \""

  /** The script the corrected piping hands to `bash -lc`: print the quoted input into the command. */
  function PipedScript(input: string, cmd: string): string
  {
    "printf %s " + Quote(input) + " | " + cmd
  }

  /** The corrected piping: the script is one quoted word for `bash -lc`, and the input one quoted word inside it. */
  function PipeInputQuoted(input: string, cmd: string): string
  {
    "bash -lc " + Quote(PipedScript(input, cmd))
  }


  /** The outer shell hands `bash -lc` exactly the intended script. */
  lemma PipeInputQuotedOuter(input: string, cmd: string)
    ensures StartsWith(PipeInputQuoted(input, cmd), BashLc)
    ensures DqRead(PipeInputQuoted(input, cmd)[|BashLc|..]) == Closed(PipedScript(input, cmd), "")
  {
    var script := PipedScript(input, cmd);
    var body := QuoteBody(script);
    var s := PipeInputQuoted(input, cmd);
    assert s == BashLc + (body + "\"");
    assert s[|BashLc|..] == body + "\"" + "";
    QuoteRoundTrip(script, "");
  }

  /** Inside that script, the argument printed into the pipe is exactly the input. */
  lemma PipeInputQuotedInner(input: string, cmd: string)
    ensures StartsWith(PipedScript(input, cmd), PrintfQuote)
    ensures DqRead(PipedScript(input, cmd)[|PrintfQuote|..]) == Closed(input, " | " + cmd)
  {
    var script := PipedScript(input, cmd);
    var body := QuoteBody(input);
    assert script == PrintfQuote + (body + "\"" + (" | " + cmd));
    QuoteRoundTrip(input, " | " + cmd);
  }
}
