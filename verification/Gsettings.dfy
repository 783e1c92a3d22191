/** How a string is quoted for the gsettings command and how its answer is unquoted. */
module Gsettings {
  import opened Options
  import opened Text

  /** Replaces every c, from left to right. */
  function ReplaceChar(s: string, c: char, text: string): string {
    if s == "" then ""
    else (if s[0] == c then text else [s[0]]) + ReplaceChar(s[1..], c, text)
  }

  /** Replaces every occurrence of the pair that does not overlap an earlier one, from left to right. */
  function ReplacePair(s: string, first: char, second: char, text: char): string {
    if |s| < 2 then s
    else if s[0] == first && s[1] == second then [text] + ReplacePair(s[2..], first, second, text)
    else [s[0]] + ReplacePair(s[1..], first, second, text)
  }

  function Escaped(s: string): string {
    ReplaceChar(ReplaceChar(s, '\\', "\\\\"), '\'', "\\'")
  }

  function Literal(s: string): string {
    "'" + Escaped(s) + "'"
  }

  function Unescaped(s: string): string {
    ReplacePair(ReplacePair(s, '\\', '\'', '\''), '\\', '\\', '\\')
  }

  function Unquoted(s: string): string {
    if |s| >= 2 && s[0] == '\'' && s[|s| - 1] == '\'' then s[1..|s| - 1] else s
  }

  function Value(s: string): string {
    Unescaped(Unquoted(TrimSpace(s)))
  }

  /** The text a character of the value becomes in a literal. */
  function Token(c: char): string {
    if c == '\\' then "\\\\" else if c == '\'' then "\\'" else [c]
  }

  function Tokens(s: string): string {
    if s == "" then "" else Token(s[0]) + Tokens(s[1..])
  }

  /** The literal with its quotes unescaped already, its backslashes still doubled. */
  function Doubled(s: string): string {
    ReplaceChar(s, '\\', "\\\\")
  }

  lemma ReplaceCharOverConcat(s: string, t: string, c: char, text: string)
    ensures ReplaceChar(s + t, c, text) == ReplaceChar(s, c, text) + ReplaceChar(t, c, text)
  {
    if s == "" {
      assert s + t == t;
    } else {
      assert (s + t)[1..] == s[1..] + t;
      ReplaceCharOverConcat(s[1..], t, c, text);
    }
  }

  /** The two escaping passes, one after the other, work character by character. */
  lemma {:induction false} EscapedIsTokens(s: string)
    ensures Escaped(s) == Tokens(s)
  {
    if s != "" {
      var head := if s[0] == '\\' then "\\\\" else [s[0]];
      ReplaceCharOverConcat(head, Doubled(s[1..]), '\'', "\\'");
      assert ReplaceChar(head, '\'', "\\'") == Token(s[0]) by {
        assert head[1..] == "" || head[1..] == "\\";
        assert ReplaceChar("\\", '\'', "\\'") == "\\";
        assert ReplaceChar("", '\'', "\\'") == "";
      }
      EscapedIsTokens(s[1..]);
    }
  }

  /** Nothing in escaped text starts with a bare quote, so no pass can join two neighbouring tokens. */
  lemma TokensStart(s: string)
    ensures Tokens(s) == "" || Tokens(s)[0] != '\''
  {
  }

  lemma {:induction false} QuotesFirst(s: string)
    ensures ReplacePair(Tokens(s), '\\', '\'', '\'') == Doubled(s)
  {
    if s != "" {
      var c, rest := s[0], Tokens(s[1..]);
      QuotesFirst(s[1..]);
      TokensStart(s[1..]);
      var all := Tokens(s);
      assert all == Token(c) + rest;
      if c == '\\' {
        assert all[1..] == ['\\'] + rest && all[1..][1..] == rest;
      } else if c == '\'' {
        assert all[2..] == rest;
      } else {
        assert all[1..] == rest;
      }
    }
  }

  lemma {:induction false} BackslashesSecond(s: string)
    ensures ReplacePair(Doubled(s), '\\', '\\', '\\') == s
  {
    if s != "" {
      BackslashesSecond(s[1..]);
      var all, rest := Doubled(s), Doubled(s[1..]);
      if s[0] == '\\' {
        assert all[2..] == rest;
      } else {
        assert all[1..] == rest;
      }
    }
  }

  lemma UnquotedLiteral(s: string)
    ensures TrimSpace(Literal(s)) == Literal(s) && Unquoted(Literal(s)) == Escaped(s)
  {
  }

  /** Reading a quoted string gives the string, whatever backslashes and quotes it holds. */
  lemma LiteralRoundTrip(s: string)
    ensures Value(Literal(s)) == s
  {
    UnquotedLiteral(s);
    EscapedIsTokens(s);
    QuotesFirst(s);
    BackslashesSecond(s);
  }

  function Prepended(c: char, rest: Option<string>): Option<string> {
    match rest
    case None => None
    case Some(s) => Some([c] + s)
  }

  /**
    A quoted text behind its opening quote, read in one pass as gsettings reads it: a backslash stands for the
    backslash or quote after it, and a bare quote is the end.
   */
  function ReadQuoted(s: string): Option<string> {
    if s == "" then None
    else if s[0] == '\'' then if |s| == 1 then Some("") else None
    else if s[0] == '\\' then
      if |s| >= 2 && (s[1] == '\\' || s[1] == '\'') then Prepended(s[1], ReadQuoted(s[2..])) else None
    else Prepended(s[0], ReadQuoted(s[1..]))
  }

  lemma {:induction false} TokensAreRead(s: string)
    ensures ReadQuoted(Tokens(s) + "'") == Some(s)
  {
    if s != "" {
      TokensAreRead(s[1..]);
      var rest := Tokens(s[1..]) + "'";
      var all := Tokens(s) + "'";
      assert all == Token(s[0]) + rest;
      assert s == [s[0]] + s[1..];
      if s[0] == '\\' || s[0] == '\'' {
        assert all[2..] == rest;
      } else {
        assert all[1..] == rest;
      }
    }
  }

  /** What gsettings is given is one quoted text, and it is the string. */
  lemma LiteralIsRead(s: string)
    ensures Literal(s)[0] == '\'' && ReadQuoted(Literal(s)[1..]) == Some(s)
  {
    EscapedIsTokens(s);
    TokensAreRead(s);
    assert Literal(s)[1..] == Tokens(s) + "'";
  }

  lemma {:induction false} TrimSurrounded(before: string, core: string, after: string)
    requires forall c <- before + after :: IsSpace(c)
    requires core != "" && !IsSpace(core[0]) && !IsSpace(core[|core| - 1])
    ensures TrimSpace(before + core + after) == core
    decreases |before| + |after|
  {
    var all := before + core + after;
    if before != "" {
      assert all[0] in before + after;
      assert all[1..] == before[1..] + core + after;
      TrimSurrounded(before[1..], core, after);
    } else if after != "" {
      assert all == core + after && all[0] == core[0];
      assert all[|all| - 1] == after[|after| - 1] && after[|after| - 1] in before + after;
      assert all[..|all| - 1] == before + core + after[..|after| - 1];
      TrimSurrounded(before, core, after[..|after| - 1]);
    } else {
      assert all == core;
    }
  }

  /** The line end and any other space the command prints around a literal do not reach the value. */
  lemma SurroundedLiteral(s: string, before: string, after: string)
    requires forall c <- before + after :: IsSpace(c)
    ensures Value(before + Literal(s) + after) == s
  {
    UnquotedLiteral(s);
    TrimSurrounded(before, Literal(s), after);
    LiteralRoundTrip(s);
  }
}
