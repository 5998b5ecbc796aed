/**
 * Shell quoting as the modelled code uses it: `shlex.quote` (applied by the
 * `shell_command` wrapper to directory arguments) and the `'\''` escape that
 * `Dependencies.parse` applies to `-X` regular expressions.  `Unquote` reads
 * one POSIX shell word back, so each quoting form is proved to round-trip.
 */
module Shell {
  import opened Wrappers

  /** The characters `shlex.quote` leaves unquoted: ASCII `\w` and `@%+=:,./-`. */
  predicate IsSafe(c: char)
  {
    ('a' <= c <= 'z') || ('A' <= c <= 'Z') || ('0' <= c <= '9') || c == '_'
    || c == '@' || c == '%' || c == '+' || c == '=' || c == ':' || c == ',' || c == '.' || c == '/' || c == '-'
  }

  predicate AllSafe(s: string)
  {
    forall i :: 0 <= i < |s| ==> IsSafe(s[i])
  }

  /** Inside single quotes, each `'` becomes `'"'"'` (close, double-quoted quote, reopen). */
  function EscapeForQuote(s: string): string
  {
    if s == [] then ""
    else (if s[0] == '\'' then "'\"'\"'" else [s[0]]) + EscapeForQuote(s[1..])
  }

  /** `shlex.quote(s)`. */
  function Quote(s: string): (r: string)
    ensures s == [] ==> r == "''"
    ensures s != [] && AllSafe(s) ==> r == s
  {
    if s == [] then "''"
    else if AllSafe(s) then s
    else "'" + EscapeForQuote(s) + "'"
  }

  /** `pattern.replace("'", r"'\''")`: each `'` becomes `'\''` (close, escaped quote, reopen). */
  function EscapeRegex(s: string): string
  {
    if s == [] then ""
    else (if s[0] == '\'' then "'\\''" else [s[0]]) + EscapeRegex(s[1..])
  }

  datatype Mode = Plain | InSingle | InDouble

  /** Characters a backslash escapes inside double quotes. */
  predicate DoubleEscapable(c: char)
  {
    c == '$' || c == '`' || c == '"' || c == '\\' || c == '\n'
  }

  /** Reads `s` as the rest of one shell word, in quoting mode `mode`, having
      read `acc` so far.  Unquoted characters must be safe ones (anything else
      would end the word or be expanded); an unterminated quote or a trailing
      backslash is `None`. */
  function Unquote(s: string, mode: Mode, acc: string): Option<string>
    decreases |s|
  {
    if s == [] then (if mode == Plain then Some(acc) else None)
    else match mode
      case Plain =>
        if s[0] == '\\' then (if |s| >= 2 then Unquote(s[2..], Plain, acc + [s[1]]) else None)
        else if s[0] == '\'' then Unquote(s[1..], InSingle, acc)
        else if s[0] == '"' then Unquote(s[1..], InDouble, acc)
        else if IsSafe(s[0]) then Unquote(s[1..], Plain, acc + [s[0]])
        else None
      case InSingle =>
        if s[0] == '\'' then Unquote(s[1..], Plain, acc)
        else Unquote(s[1..], InSingle, acc + [s[0]])
      case InDouble =>
        if s[0] == '"' then Unquote(s[1..], Plain, acc)
        else if s[0] == '\\' && |s| >= 2 && DoubleEscapable(s[1]) then Unquote(s[2..], InDouble, acc + [s[1]])
        else Unquote(s[1..], InDouble, acc + [s[0]])
  }

  /** The word a string reads as, from the start. */
  function ReadWord(s: string): Option<string>
  {
    Unquote(s, Plain, "")
  }

  lemma {:induction false} ReadSafe(s: string, rest: string, acc: string)
    requires AllSafe(s)
    ensures Unquote(s + rest, Plain, acc) == Unquote(rest, Plain, acc + s)
  {
    if s == [] {
      assert s + rest == rest && acc + s == acc;
    } else {
      var t := s + rest;
      assert t[0] == s[0] && t[1..] == s[1..] + rest;
      assert IsSafe(s[0]) && s[0] != '\\' && s[0] != '\'' && s[0] != '"';
      assert Unquote(t, Plain, acc) == Unquote(t[1..], Plain, acc + [s[0]]);
      ReadSafe(s[1..], rest, acc + [s[0]]);
      assert acc + [s[0]] + s[1..] == acc + s;
    }
  }

  /** `'"'"'` inside single quotes reads as one quote and stays in single quotes. */
  lemma ReadQuotedQuote(tail: string, acc: string)
    ensures Unquote("'\"'\"'" + tail, InSingle, acc) == Unquote(tail, InSingle, acc + "'")
  {
    var t := "'\"'\"'" + tail;
    assert t[0] == '\'' && t[1] == '"' && t[2] == '\'' && t[3] == '"' && t[4] == '\'';
    assert t[1..][1..] == t[2..] && t[2..][1..] == t[3..] && t[3..][1..] == t[4..] && t[4..][1..] == t[5..];
    assert t[5..] == tail;
    assert Unquote(t, InSingle, acc) == Unquote(t[1..], Plain, acc);
    assert Unquote(t[1..], Plain, acc) == Unquote(t[2..], InDouble, acc);
    assert Unquote(t[2..], InDouble, acc) == Unquote(t[3..], InDouble, acc + "'");
    assert Unquote(t[3..], InDouble, acc + "'") == Unquote(t[4..], Plain, acc + "'");
    assert Unquote(t[4..], Plain, acc + "'") == Unquote(t[5..], InSingle, acc + "'");
  }

  /** `'\''` inside single quotes reads as one quote and stays in single quotes. */
  lemma ReadBackslashQuote(tail: string, acc: string)
    ensures Unquote("'\\''" + tail, InSingle, acc) == Unquote(tail, InSingle, acc + "'")
  {
    var t := "'\\''" + tail;
    assert t[0] == '\'' && t[1] == '\\' && t[2] == '\'' && t[3] == '\'';
    assert t[1..][2..] == t[3..] && t[3..][1..] == t[4..] && t[4..] == tail;
    assert Unquote(t, InSingle, acc) == Unquote(t[1..], Plain, acc);
    assert Unquote(t[1..], Plain, acc) == Unquote(t[3..], Plain, acc + "'");
    assert Unquote(t[3..], Plain, acc + "'") == Unquote(t[4..], InSingle, acc + "'");
  }

  lemma {:induction false} ReadEscapedForQuote(s: string, rest: string, acc: string)
    ensures Unquote(EscapeForQuote(s) + rest, InSingle, acc) == Unquote(rest, InSingle, acc + s)
  {
    if s == [] {
      assert EscapeForQuote(s) + rest == rest && acc + s == acc;
    } else {
      var tail := EscapeForQuote(s[1..]) + rest;
      ReadEscapedForQuote(s[1..], rest, acc + [s[0]]);
      assert acc + [s[0]] + s[1..] == acc + s;
      if s[0] == '\'' {
        assert EscapeForQuote(s) + rest == "'\"'\"'" + tail;
        ReadQuotedQuote(tail, acc);
      } else {
        var t := [s[0]] + tail;
        assert EscapeForQuote(s) + rest == t;
        assert t[0] == s[0] && t[1..] == tail;
      }
    }
  }

  lemma {:induction false} ReadEscapedRegex(s: string, rest: string, acc: string)
    ensures Unquote(EscapeRegex(s) + rest, InSingle, acc) == Unquote(rest, InSingle, acc + s)
  {
    if s == [] {
      assert EscapeRegex(s) + rest == rest && acc + s == acc;
    } else {
      var tail := EscapeRegex(s[1..]) + rest;
      ReadEscapedRegex(s[1..], rest, acc + [s[0]]);
      assert acc + [s[0]] + s[1..] == acc + s;
      if s[0] == '\'' {
        assert EscapeRegex(s) + rest == "'\\''" + tail;
        ReadBackslashQuote(tail, acc);
      } else {
        var t := [s[0]] + tail;
        assert EscapeRegex(s) + rest == t;
        assert t[0] == s[0] && t[1..] == tail;
      }
    }
  }

  /** `shlex.quote` yields one shell word that reads back as its argument. */
  lemma QuoteRoundTrip(s: string)
    ensures ReadWord(Quote(s)) == Some(s)
  {
    if s == [] {
      var q := "''";
      assert q[1..][1..] == [];
      assert Unquote(q, Plain, "") == Unquote(q[1..], InSingle, "");
    } else if AllSafe(s) {
      ReadSafe(s, "", "");
      assert s + "" == s;
    } else {
      var q := Quote(s);
      assert q == "'" + (EscapeForQuote(s) + "'");
      assert q[1..] == EscapeForQuote(s) + "'";
      ReadEscapedForQuote(s, "'", "");
      assert "" + s == s;
    }
  }

  /** A regular expression escaped with `'\''` and wrapped in single quotes, as
      `parse` writes it after `-X`, reads back as the pattern itself. */
  lemma RegexQuoteRoundTrip(pattern: string)
    ensures ReadWord("'" + EscapeRegex(pattern) + "'") == Some(pattern)
  {
    var q := "'" + EscapeRegex(pattern) + "'";
    assert q[1..] == EscapeRegex(pattern) + "'";
    ReadEscapedRegex(pattern, "'", "");
    assert "" + pattern == pattern;
  }
}
