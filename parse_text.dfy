/**
 * `parse` on text: the examples of its test suite (src/__test__/parse.spec.ts)
 * stated for every key and value of the same form, and the errors it
 * reports, with the lexer's dropped character where it decides the outcome.
 */
module ParsingText {
  import opened Utils
  import opened Types
  import opened Contexts
  import opened Lexing
  import opened LexingFacts
  import opened Parsing
  import opened ParsingFacts

  /** `key = ` followed by `rest`: the blank after the key is the character the lexer drops. */
  lemma AssignmentLexes(key: string, rest: string, line: nat)
    requires IsIdentifier(key)
    ensures Lex(key + " = " + rest, line)
      == Cons(Token(key, Identifier, line), Cons(Token("=", Equals, line), Lex(rest, line)))
  {
    var r1 := " = " + rest;
    IdentifierThen(key, r1, line);
    assert key + " = " + rest == key + r1;
    assert r1[1..] == ['='] + (" " + rest);
    OperatorToken('=', " " + rest, line);
    assert [' '] + rest == " " + rest;
    BlankSkipped(' ', rest, line);
  }

  /** One `key = value` entry and nothing else. */
  lemma OneEntry(st: Stream, key: Token, op: Token, right: Token)
    requires st == Stream([key, op, right], Eof)
    requires key.kind == Identifier && op.kind == Equals && RightValue(right).Some?
    ensures ParseTokens(st) == Ok([(key.val, RightValue(right).value)])
  {
    var e := Put(key, op, right);
    assert EntryAt(st, 0, e) && EntriesAt(st, Width(e), []);
    assert [e][0] == e && [e][1..] == [];
    assert EntriesAt(st, 0, [e]);
    Document(st, [e]);
    assert ApplyAll([], [e]) == ApplyAll(Apply([], e), []);
  }

  /** `key = value` for an identifier value: `yes` and `no` in any letter case are booleans, anything else is the text. */
  lemma IdentifierValue(key: string, value: string)
    requires IsIdentifier(key) && IsIdentifier(value)
    ensures Parsed(key + " = " + value) == Ok([(key, ParseIdentifier(value))])
  {
    IdentifierThen(value, [], 0);
    assert value + [] == value;
    AssignmentLexes(key, value, 0);
    OneEntry(Lex(key + " = " + value, 0), Token(key, Identifier, 0), Token("=", Equals, 0), Token(value, Identifier, 0));
  }

  /** `key = 100`, `key = .5`: the number keeps its lexeme. */
  lemma NumberValue(key: string, num: string)
    requires IsIdentifier(key) && IsNumberRun(num)
    ensures Parsed(key + " = " + num) == Ok([(key, Num(num))])
  {
    NumberThen(num, [], 0);
    assert num + [] == num;
    AssignmentLexes(key, num, 0);
    OneEntry(Lex(key + " = " + num, 0), Token(key, Identifier, 0), Token("=", Equals, 0), Token(num, Number, 0));
  }

  /** `key = "text"`: the text between the quotes, as it stands. */
  lemma StringValue(key: string, body: string)
    requires IsIdentifier(key)
    requires forall i :: 0 <= i < |body| ==> body[i] != '"' && body[i] != '\n'
    ensures Parsed(key + " = \"" + body + "\"") == Ok([(key, Str(body))])
  {
    StringToken(body, [], 0);
    assert "\"" + body + "\"" + [] == "\"" + body + "\"";
    AssignmentLexes(key, "\"" + body + "\"", 0);
    assert key + " = \"" + body + "\"" == key + " = " + ("\"" + body + "\"");
    OneEntry(Lex(key + " = \"" + body + "\"", 0), Token(key, Identifier, 0), Token("=", Equals, 0), Token(body, String, 0));
  }

  /** A string value that the input ends in fails with the lexer's error. */
  lemma UnterminatedStringFails(key: string, body: string)
    requires IsIdentifier(key)
    requires forall i :: 0 <= i < |body| ==> body[i] != '"' && body[i] != '\n'
    ensures Parsed(key + " = \"" + body) == Err(Lexical(UnterminatedString))
  {
    StringUnterminated(body, 0);
    AssignmentLexes(key, "\"" + body, 0);
    assert key + " = \"" + body == key + " = " + ("\"" + body);
    var st := Lex(key + " = \"" + body, 0);
    assert st == Stream([Token(key, Identifier, 0), Token("=", Equals, 0)], Fail(UnterminatedString));
    assert AfterKey(st, 0) == Bad(Lexical(UnterminatedString));
  }

  /** A line break inside a string value fails with the lexer's error, whatever follows. */
  lemma MultilineStringFails(key: string, body: string, rest: string)
    requires IsIdentifier(key)
    requires forall i :: 0 <= i < |body| ==> body[i] != '"' && body[i] != '\n'
    ensures Parsed(key + " = \"" + body + "\n" + rest) == Err(Lexical(IllegalLineBreak))
  {
    StringLineBreak(body, rest, 0);
    AssignmentLexes(key, "\"" + body + "\n" + rest, 0);
    assert key + " = \"" + body + "\n" + rest == key + " = " + ("\"" + body + "\n" + rest);
    var st := Lex(key + " = \"" + body + "\n" + rest, 0);
    assert st == Stream([Token(key, Identifier, 0), Token("=", Equals, 0)], Fail(IllegalLineBreak));
    assert AfterKey(st, 0) == Bad(Lexical(IllegalLineBreak));
  }

  /**
   * A leading `}` fails at once: the rest of the input is never scanned, so
   * a lexical error or a comment that never ends after it makes no difference.
   */
  lemma LeadingBraceFails(rest: string)
    ensures Parsed("}" + rest) == Err(UnexpectedToken(Token("}", BraceRight, 0)))
  {
    OperatorToken('}', rest, 0);
    assert ['}'] + rest == "}" + rest;
  }

  /** `key=1`: the `=` right after the key is dropped, so the number stands where `=` is due. */
  lemma EqualsAgainstKeyFails(key: string, num: string)
    requires IsIdentifier(key) && IsNumberRun(num)
    ensures Parsed(key + "=" + num) == Err(UnexpectedToken(Token(num, Number, 0)))
  {
    EqualsLostAfterKey(key, num, 0);
  }

  /** `key = 1}`: the `}` right after the number is dropped, so the extra brace goes unnoticed. */
  lemma BraceAgainstNumberIgnored(key: string, num: string)
    requires IsIdentifier(key) && IsNumberRun(num)
    ensures Parsed(key + " = " + num + "}") == Ok([(key, Num(num))])
  {
    BraceLostAfterNumber(key, num, 0);
    OneEntry(Lex(key + " = " + num + "}", 0), Token(key, Identifier, 0), Token("=", Equals, 0), Token(num, Number, 0));
  }
}
