/** The string functions of the standard library that the import pipeline leans on. */
module Text {

  /** unicode.IsSpace. */
  predicate IsSpace(c: char) {
    || c in {'\t', '\n', '\U{0B}', '\U{0C}', '\r', ' ', '\U{85}', '\U{A0}', '\U{1680}'}
    || '\U{2000}' <= c <= '\U{200A}'
    || c in {'\U{2028}', '\U{2029}', '\U{202F}', '\U{205F}', '\U{3000}'}
  }

  function TrimLeft(s: string): string {
    if s != [] && IsSpace(s[0]) then TrimLeft(s[1..]) else s
  }

  function TrimRight(s: string): string {
    if s != [] && IsSpace(s[|s| - 1]) then TrimRight(s[..|s| - 1]) else s
  }

  function TrimSpace(s: string): string {
    TrimRight(TrimLeft(s))
  }

  predicate AllSpace(s: string) {
    forall c <- s :: IsSpace(c)
  }

  /** What is left begins and ends with no space, and what is cut off holds nothing else. */
  lemma TrimSpaceCuts(s: string) returns (before: string, after: string)
    ensures s == before + TrimSpace(s) + after && AllSpace(before) && AllSpace(after)
    ensures var t := TrimSpace(s); t == "" || (!IsSpace(t[0]) && !IsSpace(t[|t| - 1]))
  {
    before := LeftCuts(s);
    after := RightCuts(TrimLeft(s));
    var t := TrimSpace(s);
    assert s == before + (t + after) == before + t + after;
    assert t != "" ==> TrimLeft(s)[0] == t[0];
  }

  lemma {:induction false} LeftCuts(s: string) returns (before: string)
    ensures s == before + TrimLeft(s) && AllSpace(before)
    ensures TrimLeft(s) == "" || !IsSpace(TrimLeft(s)[0])
  {
    before := "";
    if s != [] && IsSpace(s[0]) {
      var rest := LeftCuts(s[1..]);
      before := [s[0]] + rest;
      assert s == [s[0]] + (rest + TrimLeft(s)) == before + TrimLeft(s);
    }
  }

  lemma {:induction false} RightCuts(s: string) returns (after: string)
    ensures s == TrimRight(s) + after && AllSpace(after)
    ensures TrimRight(s) == "" || !IsSpace(TrimRight(s)[|TrimRight(s)| - 1])
  {
    after := "";
    if s != [] && IsSpace(s[|s| - 1]) {
      var rest := RightCuts(s[..|s| - 1]);
      after := rest + [s[|s| - 1]];
      assert s == (TrimRight(s) + rest) + [s[|s| - 1]] == TrimRight(s) + after;
    }
  }

  predicate HasPrefix(s: string, prefix: string) {
    prefix <= s
  }

  /** strings.Split at newlines: the parts joined again by newlines are the text. */
  function SplitLines(text: string): (lines: seq<string>)
    ensures |lines| > 0
  {
    if text == [] then [[]]
    else if text[0] == '\n' then [[]] + SplitLines(text[1..])
    else
      var rest := SplitLines(text[1..]);
      [[text[0]] + rest[0]] + rest[1..]
  }

  function JoinLines(lines: seq<string>): string {
    if lines == [] then []
    else if |lines| == 1 then lines[0]
    else lines[0] + ['\n'] + JoinLines(lines[1..])
  }

  lemma {:induction false} SplitThenJoin(text: string)
    ensures JoinLines(SplitLines(text)) == text
    ensures forall line <- SplitLines(text) :: '\n' !in line
  {
    if text != [] {
      SplitThenJoin(text[1..]);
      var rest := SplitLines(text[1..]);
      if text[0] == '\n' {
        assert SplitLines(text)[1..] == rest;
      } else {
        assert SplitLines(text)[1..] == rest[1..];
        assert JoinLines(SplitLines(text)) == [text[0]] + JoinLines(rest);
      }
    }
  }

  function Digit(d: nat): char
    requires d < 10
  {
    ['0', '1', '2', '3', '4', '5', '6', '7', '8', '9'][d]
  }

  function Decimal(n: nat): string {
    if n < 10 then [Digit(n)] else Decimal(n / 10) + [Digit(n % 10)]
  }

  /** A number read from its digits. */
  function NumberOf(digits: string): int {
    if digits == [] then 0
    else NumberOf(digits[..|digits| - 1]) * 10 + (digits[|digits| - 1] as int - '0' as int)
  }

  /** What is printed is the number, in digits, with no zero in front. */
  lemma {:induction false} DecimalReadsBack(n: nat)
    ensures NumberOf(Decimal(n)) == n
    ensures forall c <- Decimal(n) :: '0' <= c <= '9'
    ensures Decimal(n) != "" && (n > 0 ==> Decimal(n)[0] != '0')
  {
    assert forall d: nat | d < 10 :: Digit(d) as int == '0' as int + d;
    if n < 10 {
      assert Decimal(n)[..0] == [];
    } else {
      DecimalReadsBack(n / 10);
      assert Decimal(n)[..|Decimal(n)| - 1] == Decimal(n / 10);
    }
  }

  lemma DecimalShape(n: nat)
    ensures |Decimal(n)| >= 1
    ensures |Decimal(n)| == 1 <==> n < 10
    ensures Decimal(n)[|Decimal(n)| - 1] == Digit(n % 10)
  {
  }

  lemma {:induction false} DecimalIsInjective(a: nat, b: nat)
    requires Decimal(a) == Decimal(b)
    ensures a == b
    decreases a
  {
    DecimalShape(a);
    DecimalShape(b);
    var x, y := Decimal(a), Decimal(b);
    assert a % 10 == b % 10;
    if a >= 10 {
      assert Decimal(a / 10) == x[..|x| - 1] && Decimal(b / 10) == y[..|y| - 1];
      DecimalIsInjective(a / 10, b / 10);
    }
  }
}
