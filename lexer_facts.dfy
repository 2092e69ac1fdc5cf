/**
 * What the token sequence `Lex` says about each kind of input: blanks and
 * line breaks, the one-character operators, strings, identifiers, numbers,
 * comments and the characters the lexer rejects; and that every token it
 * yields has the form its kind promises.
 */
module LexingFacts {
  import opened Utils
  import opened Lexing

  /** Space, `\r` and `\t` produce nothing; the input goes on at the same line. */
  lemma BlankSkipped(c: char, rest: string, line: nat)
    requires c == ' ' || c == '\r' || c == '\t'
    ensures Lex([c] + rest, line) == Lex(rest, line)
  {
    assert ([c] + rest)[1..] == rest;
  }

  /** A line break produces nothing and moves on to the next line. */
  lemma NewlineCounted(rest: string, line: nat)
    ensures Lex("\n" + rest, line) == Lex(rest, line + 1)
  {
    assert ("\n" + rest)[1..] == rest;
  }

  /** `{`, `}` and `=` each give one token holding that character. */
  lemma OperatorToken(c: char, rest: string, line: nat)
    requires c == '{' || c == '}' || c == '='
    ensures var kind := if c == '{' then BraceLeft else if c == '}' then BraceRight else Equals;
      Lex([c] + rest, line) == Cons(Token([c], kind, line), Lex(rest, line))
  {
    assert ([c] + rest)[1..] == rest;
  }

  /** A string token is the text between the quotes, as it stands; the closing quote is consumed. */
  lemma StringToken(body: string, rest: string, line: nat)
    requires forall i :: 0 <= i < |body| ==> body[i] != '"' && body[i] != '\n'
    ensures Lex("\"" + body + "\"" + rest, line) == Cons(Token(body, String, line), Lex(rest, line))
  {
    var s := "\"" + body + "\"" + rest;
    assert s[0] == '"' && s[|body| + 1] == '"';
    forall j | 0 < j <= |body|
      ensures s[j] != '"' && s[j] != '\n'
    {
      assert s[j] == body[j - 1];
    }
    QuotedToken(s, 0, |body|, line);
    assert s[0..] == s && s[1..|body| + 1] == body && s[|body| + 2..] == rest;
    assert Scan(s, line) == Quoted(s, line);
  }

  /** A line break before the closing quote is an error. */
  lemma StringLineBreak(body: string, rest: string, line: nat)
    requires forall i :: 0 <= i < |body| ==> body[i] != '"' && body[i] != '\n'
    ensures Lex("\"" + body + "\n" + rest, line) == Stream([], Fail(IllegalLineBreak))
  {
    var s := "\"" + body + "\n" + rest;
    QuotedEnds(s, 0, |body|, line);
    assert s[0..] == s;
  }

  /** Input that ends inside a string is an error. */
  lemma StringUnterminated(body: string, line: nat)
    requires forall i :: 0 <= i < |body| ==> body[i] != '"' && body[i] != '\n'
    ensures Lex("\"" + body, line) == Stream([], Fail(UnterminatedString))
  {
    var s := "\"" + body;
    QuotedEnds(s, 0, |body|, line);
    assert s[0..] == s;
  }

  /**
   * `c` and the run `body` that passes `test`, followed by `rest` whose first
   * character fails it (or nothing), give the token `[c] + body`; the first
   * character of `rest` is dropped.
   */
  lemma CollectedRun(c: char, body: string, rest: string, test: string -> bool, kind: Kind, line: nat)
    requires forall i :: 0 <= i < |body| ==> test([body[i]])
    requires rest != [] ==> !test([rest[0]])
    ensures Collected([c] + body + rest, test, kind, line)
      == Emit(Token([c] + body, kind, line), if rest == [] then [] else rest[1..])
  {
    var s := [c] + body + rest;
    assert s[1..] == body + rest;
    SpanUnique(body + rest, test, |body|);
    assert s[..|body| + 1] == [c] + body;
    if rest != [] {
      assert s[|body| + 2..] == rest[1..];
    }
  }

  /**
   * An identifier token is a letter or `_` and the longest run of letters,
   * digits and `_` after it.  The character after the run is dropped: not
   * tokenised, and not counted when it is a line break.
   */
  lemma IdentifierToken(c: char, body: string, rest: string, line: nat)
    requires IsAsciiLetter(c) || c == '_'
    requires forall i :: 0 <= i < |body| ==> IsAsciiLetter(body[i]) || IsDigit(body[i]) || body[i] == '_'
    requires rest != [] ==> !(IsAsciiLetter(rest[0]) || IsDigit(rest[0]) || rest[0] == '_')
    ensures Lex([c] + body + rest, line)
      == Cons(Token([c] + body, Identifier, line), Lex(if rest == [] then [] else rest[1..], line))
  {
    AlphaUnderscoreChar(c);
    forall i | 0 <= i < |body|
      ensures IsAlphaNumericUnderscore([body[i]])
    {
      AlphaNumericUnderscoreChar(body[i]);
    }
    if rest != [] {
      AlphaNumericUnderscoreChar(rest[0]);
    }
    CollectedRun(c, body, rest, IsAlphaNumericUnderscore, Identifier, line);
    assert ([c] + body + rest)[0] == c;
  }

  /**
   * A number token starts with a digit, `+`, `-` or `.` and is the longest
   * run of such characters after it, whatever their order.  The character
   * after the run is dropped.
   */
  lemma NumberToken(c: char, body: string, rest: string, line: nat)
    requires IsNumberChar(c)
    requires forall i :: 0 <= i < |body| ==> IsNumberChar(body[i])
    requires rest != [] ==> !IsNumberChar(rest[0])
    ensures Lex([c] + body + rest, line)
      == Cons(Token([c] + body, Number, line), Lex(if rest == [] then [] else rest[1..], line))
  {
    AlphaUnderscoreChar(c);
    NumberChar(c);
    forall i | 0 <= i < |body|
      ensures IsNumber([body[i]])
    {
      NumberChar(body[i]);
    }
    if rest != [] {
      NumberChar(rest[0]);
    }
    CollectedRun(c, body, rest, IsNumber, Number, line);
    assert ([c] + body + rest)[0] == c;
  }

  /** A comment runs up to the line break, which is then read as usual. */
  lemma CommentSkipped(text: string, rest: string, line: nat)
    requires forall i :: 0 <= i < |text| ==> text[i] != '\n'
    ensures Lex("#" + text + "\n" + rest, line) == Lex(rest, line + 1)
  {
    var tail := "\n" + rest;
    var s := "#" + text + tail;
    assert s == "#" + text + "\n" + rest;
    forall j | 0 < j <= |text| ensures s[j] != '\n' {
      assert s[j] == text[j - 1];
    }
    CommentEnds(s, 0, |text|, line);
    assert s[0..] == s && s[|text| + 1..] == tail;
    LexSkip(s, line);
    NewlineCounted(rest, line);
  }

  /** A comment that no line break follows is never left. */
  lemma CommentHangs(text: string, line: nat)
    requires forall i :: 0 <= i < |text| ==> text[i] != '\n'
    ensures Lex("#" + text, line) == Stream([], Hang)
  {
    var s := "#" + text;
    CommentEnds(s, 0, |text|, line);
    assert s[0..] == s;
  }

  /** Any other character stops the sequence with an error naming it and the current line. */
  lemma UnexpectedCharacterFails(c: char, rest: string, line: nat)
    requires c !in " \r\t\n{}=#\"" && !IsAsciiLetter(c) && c != '_' && !IsNumberChar(c)
    ensures Lex([c] + rest, line) == Stream([], Fail(UnexpectedCharacter(c, line)))
  {
    AlphaUnderscoreChar(c);
    NumberChar(c);
  }

  // ---------------------------------------------------------------------
  // The form of every token.

  /** The lexeme of a token has the form its kind stands for. */
  predicate WellFormed(t: Token) {
    match t.kind
    case Equals => t.val == "="
    case BraceLeft => t.val == "{"
    case BraceRight => t.val == "}"
    case Identifier => IsIdentifier(t.val)
    case Number => |t.val| > 0 && forall i :: 0 <= i < |t.val| ==> IsNumberChar(t.val[i])
    case String => forall i :: 0 <= i < |t.val| ==> t.val[i] != '"' && t.val[i] != '\n'
  }

  lemma ScanWellFormed(s: string, line: nat)
    ensures Scan(s, line).Emit? ==> WellFormed(Scan(s, line).token) && Scan(s, line).token.line == line
  {
    if s != [] && Scan(s, line).Emit? {
      var c := s[0];
      if c == '"' {
        QuotedWellFormed(s, line);
      } else if c !in " \r\t\n{}=#" {
        assert Scan(s, line) == Other(s, line);
        if IsAlphaUnderscore([c]) {
          IdentifierWellFormed(s, line);
        } else if IsNumber([c]) {
          NumberWellFormed(s, line);
        }
      }
    }
  }

  lemma QuotedWellFormed(s: string, line: nat)
    requires |s| > 0
    ensures Quoted(s, line).Emit? ==> WellFormed(Quoted(s, line).token) && Quoted(s, line).token.line == line
  {
    var n := Span(s[1..], InString);
    if Quoted(s, line).Emit? {
      var t := Quoted(s, line).token;
      assert t.val == s[1..][..n];
      forall i | 0 <= i < n
        ensures t.val[i] != '"' && t.val[i] != '\n'
      {
        InStringChar(s[1..][i]);
      }
    }
  }

  lemma IdentifierWellFormed(s: string, line: nat)
    requires |s| > 0 && IsAlphaUnderscore([s[0]])
    ensures WellFormed(Collected(s, IsAlphaNumericUnderscore, Identifier, line).token)
  {
    var t := Collected(s, IsAlphaNumericUnderscore, Identifier, line).token;
    var n := 1 + Span(s[1..], IsAlphaNumericUnderscore);
    assert t.val == s[..n];
    assert t.val[..1] == [s[0]];
    forall i | 0 <= i < n - 1
      ensures IsAsciiLetter(t.val[1..][i]) || IsDigit(t.val[1..][i]) || t.val[1..][i] == '_'
    {
      assert t.val[1..][i] == s[1..][i];
      AlphaNumericUnderscoreChar(s[1..][i]);
    }
  }

  lemma NumberWellFormed(s: string, line: nat)
    requires |s| > 0 && IsNumber([s[0]])
    ensures WellFormed(Collected(s, IsNumber, Number, line).token)
  {
    var t := Collected(s, IsNumber, Number, line).token;
    var n := 1 + Span(s[1..], IsNumber);
    assert t.val == s[..n];
    forall i | 0 <= i < n
      ensures IsNumberChar(t.val[i])
    {
      if i == 0 {
        NumberChar(s[0]);
      } else {
        assert t.val[i] == s[1..][i - 1];
        NumberChar(s[1..][i - 1]);
      }
    }
  }

  /** Every token of the sequence is well formed and lies at or after the starting line,
      and the lines of the tokens never decrease. */
  lemma {:induction false} LexWellFormed(s: string, line: nat)
    ensures forall t <- Lex(s, line).tokens :: WellFormed(t) && t.line >= line
    ensures var ts := Lex(s, line).tokens;
      forall i, j :: 0 <= i < j < |ts| ==> ts[i].line <= ts[j].line
    decreases |s|
  {
    ScanWellFormed(s, line);
    match Scan(s, line)
    case Skip(rest, l) =>
      LexWellFormed(rest, l);
      assert Lex(s, line) == Lex(rest, l);
      var ts := Lex(s, line).tokens;
      forall i, j | 0 <= i < j < |ts|
        ensures ts[i].line <= ts[j].line
      {
      }
    case Emit(t, rest) =>
      LexWellFormed(rest, line);
      var ts := Lex(s, line).tokens;
      assert ts == [t] + Lex(rest, line).tokens;
      forall i, j | 0 <= i < j < |ts|
        ensures ts[i].line <= ts[j].line
      {
        assert ts[j] in Lex(rest, line).tokens;
      }
    case Halt(_) =>
  }

  // ---------------------------------------------------------------------
  // The dropped character, in whole inputs.

  /** A number lexeme: one or more number characters. */
  predicate IsNumberRun(s: string) {
    |s| > 0 && forall i :: 0 <= i < |s| ==> IsNumberChar(s[i])
  }

  /** `IdentifierToken` for a whole identifier followed by `rest`. */
  lemma IdentifierThen(key: string, rest: string, line: nat)
    requires IsIdentifier(key)
    requires rest != [] ==> !(IsAsciiLetter(rest[0]) || IsDigit(rest[0]) || rest[0] == '_')
    ensures Lex(key + rest, line) == Cons(Token(key, Identifier, line), Lex(if rest == [] then [] else rest[1..], line))
  {
    AlphaUnderscoreChar(key[0]);
    assert key[..1] == [key[0]];
    var body := key[1..];
    forall i | 0 <= i < |body|
      ensures IsAsciiLetter(body[i]) || IsDigit(body[i]) || body[i] == '_'
    {
      assert body[i] == key[1..][i];
    }
    assert [key[0]] + body == key;
    IdentifierToken(key[0], body, rest, line);
  }

  /** `NumberToken` for a whole number lexeme followed by `rest`. */
  lemma NumberThen(num: string, rest: string, line: nat)
    requires IsNumberRun(num)
    requires rest != [] ==> !IsNumberChar(rest[0])
    ensures Lex(num + rest, line) == Cons(Token(num, Number, line), Lex(if rest == [] then [] else rest[1..], line))
  {
    assert [num[0]] + num[1..] == num;
    NumberToken(num[0], num[1..], rest, line);
  }

  /** `key=1`: the `=` right after the key is dropped, so only the key and the number are yielded. */
  lemma EqualsLostAfterKey(key: string, num: string, line: nat)
    requires IsIdentifier(key) && IsNumberRun(num)
    ensures Lex(key + "=" + num, line) == Stream([Token(key, Identifier, line), Token(num, Number, line)], Eof)
  {
    NumberThen(num, [], line);
    assert num + [] == num;
    IdentifierThen(key, "=" + num, line);
    assert key + "=" + num == key + ("=" + num);
    assert ("=" + num)[1..] == num;
  }

  /** `key = 1}`: the `}` right after the number is dropped. */
  lemma BraceLostAfterNumber(key: string, num: string, line: nat)
    requires IsIdentifier(key) && IsNumberRun(num)
    ensures Lex(key + " = " + num + "}", line)
      == Stream([Token(key, Identifier, line), Token("=", Equals, line), Token(num, Number, line)], Eof)
  {
    var s2 := "= " + num + "}";
    var s3 := " " + s2;
    SplitAfterKey(key, num);
    IdentifierThen(key, s3, line);
    assert s3[1..] == s2;
    AssignedNumber(num, line);
  }

  lemma SplitAfterKey(key: string, num: string)
    ensures key + " = " + num + "}" == key + (" " + ("= " + num + "}"))
  {
  }

  /** The part `= 1}` of `BraceLostAfterNumber`. */
  lemma AssignedNumber(num: string, line: nat)
    requires IsNumberRun(num)
    ensures Lex("= " + num + "}", line) == Stream([Token("=", Equals, line), Token(num, Number, line)], Eof)
  {
    NumberThen(num, "}", line);
    assert "}"[1..] == [];
    var s1 := " " + num + "}";
    BlankSkipped(' ', num + "}", line);
    assert [' '] + (num + "}") == s1;
    OperatorToken('=', s1, line);
    assert ['='] + s1 == "= " + num + "}";
  }

  /** A line break right after an identifier is dropped and not counted: the next token is on the same line. */
  lemma LineBreakLostAfterKey(a: string, b: string, line: nat)
    requires IsIdentifier(a) && IsIdentifier(b)
    ensures Lex(a + "\n" + b, line) == Stream([Token(a, Identifier, line), Token(b, Identifier, line)], Eof)
  {
    IdentifierThen(b, [], line);
    assert b + [] == b;
    IdentifierThen(a, "\n" + b, line);
    assert a + "\n" + b == a + ("\n" + b);
    assert ("\n" + b)[1..] == b;
  }
}
