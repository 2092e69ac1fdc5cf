/**
 * The tokenizer (src/lexer.ts).
 *
 * `Scan` is one turn of the `tokenize` loop on the unread input: it skips a
 * blank, a line break or a comment, emits one token, or stops the token
 * sequence.  `Lex` runs it to the end and gives the whole token sequence
 * together with the way it stops (end of input, a lexical error, or a
 * comment that never ends, on which the source loops forever).  The class
 * `Lexer` is the cursor itself, with the source's `index` and `line`, and
 * `NextToken` (one resumption of the `tokenize` generator) is proved to hand
 * out the sequence `Lex` describes, one token per call.
 */
module Lexing {
  import opened Types
  import opened Utils

  datatype Kind = Equals | BraceLeft | BraceRight | Identifier | Number | String

  datatype Token = Token(val: string, kind: Kind, line: nat)

  datatype LexError =
    | UnexpectedCharacter(found: char, line: nat)
    | IllegalLineBreak
    | UnterminatedString

  /** How the token sequence ends. */
  datatype Stop = Eof | Fail(error: LexError) | Hang

  /** One turn of the `tokenize` loop on the unread input. */
  datatype Step = Skip(rest: string, newLine: nat) | Emit(token: Token, rest: string) | Halt(stop: Stop)

  /** Every token `tokenize` yields, then how it stops. */
  datatype Stream = Stream(tokens: seq<Token>, stop: Stop)

  /** What one call of the generator's `next()` gives the parser. */
  datatype Pull = Got(token: Token) | Done | Failed(error: LexError) | Diverged

  // ---------------------------------------------------------------------
  // The scanning functions.

  /** The number of leading characters `c` of `s` for which `test([c])` holds. */
  function Span(s: string, test: string -> bool): (n: nat)
    ensures n <= |s|
    ensures forall i :: 0 <= i < n ==> test([s[i]])
    ensures n < |s| ==> !test([s[n]])
  {
    if s == [] || !test([s[0]]) then 0 else 1 + Span(s[1..], test)
  }

  /** A run of matching characters followed by a mismatch (or the end) has the length `Span` gives. */
  lemma SpanUnique(s: string, test: string -> bool, n: nat)
    requires n <= |s| && forall i :: 0 <= i < n ==> test([s[i]])
    requires n < |s| ==> !test([s[n]])
    ensures Span(s, test) == n
  {
  }

  /** `SpanUnique` for the run that follows the first character of `s`. */
  lemma SpanRun(s: string, test: string -> bool, n: nat)
    requires 0 < |s| && n < |s| && forall i :: 1 <= i <= n ==> test([s[i]])
    requires n + 1 < |s| ==> !test([s[n + 1]])
    ensures Span(s[1..], test) == n
  {
    SpanUnique(s[1..], test, n);
  }

  predicate NotNewline(x: string) {
    x != "\n"
  }

  predicate InString(x: string) {
    x != "\"" && x != "\n"
  }

  lemma NotNewlineChar(c: char)
    ensures NotNewline([c]) <==> c != '\n'
  {
    if c != '\n' {
      assert [c][0] != "\n"[0];
    }
  }

  lemma InStringChar(c: char)
    ensures InString([c]) <==> c != '"' && c != '\n'
  {
    if c != '"' && c != '\n' {
      assert [c][0] != "\""[0] && [c][0] != "\n"[0];
    }
  }

  /**
   * The token `collect` builds from the character `s[0]` that started it:
   * `s[0]` and the longest following run that passes `test`.  `collect`
   * stops ON the first character that fails, and the next turn of
   * `tokenize` moves past it, so that character is dropped.
   */
  function Collected(s: string, test: string -> bool, kind: Kind, line: nat): (r: Step)
    requires |s| > 0
    ensures r.Emit? && |r.rest| < |s|
  {
    var n := 1 + Span(s[1..], test);
    Emit(Token(s[..n], kind, line), if n < |s| then s[n + 1..] else [])
  }

  /** `string()` on input `s` whose first character is the opening quote. */
  function Quoted(s: string, line: nat): (r: Step)
    requires |s| > 0
    ensures r.Emit? ==> |r.rest| < |s|
    ensures r.Skip? == false
  {
    var n := Span(s[1..], InString);
    if 1 + n == |s| then Halt(Fail(UnterminatedString))
    else if s[1 + n] == '\n' then Halt(Fail(IllegalLineBreak))
    else Emit(Token(s[1..1 + n], String, line), s[2 + n..])
  }

  /** One turn of the `tokenize` loop on the unread input `s` at line `line`. */
  function Scan(s: string, line: nat): (r: Step)
    ensures r.Skip? || r.Emit? ==> |r.rest| < |s|
    ensures r.Skip? ==> r.newLine >= line
  {
    if s == [] then Halt(Eof)
    else
      var c := s[0];
      if c == ' ' || c == '\r' || c == '\t' then Skip(s[1..], line)
      else if c == '\n' then Skip(s[1..], line + 1)
      else if c == '{' then Emit(Token("{", BraceLeft, line), s[1..])
      else if c == '}' then Emit(Token("}", BraceRight, line), s[1..])
      else if c == '=' then Emit(Token("=", Equals, line), s[1..])
      else if c == '#' then Comment(s, line)
      else if c == '"' then Quoted(s, line)
      else Other(s, line)
  }

  /** The `#` case: the comment runs up to the next line break, which the
      next turn reads; with no line break after it, the loop never ends. */
  function Comment(s: string, line: nat): (r: Step)
    requires |s| > 0
    ensures r.Skip? ==> |r.rest| < |s| && r.newLine == line
    ensures r.Emit? == false
  {
    var n := Span(s[1..], NotNewline);
    if 1 + n == |s| then Halt(Hang) else Skip(s[1 + n..], line)
  }

  /** The `default` case: an identifier, a number, or a character the lexer rejects. */
  function Other(s: string, line: nat): (r: Step)
    requires |s| > 0
    ensures r.Emit? ==> |r.rest| < |s|
    ensures r.Skip? == false
  {
    var c := s[0];
    if IsAlphaUnderscore([c]) then Collected(s, IsAlphaNumericUnderscore, Identifier, line)
    else if IsNumber([c]) then Collected(s, IsNumber, Number, line)
    else Halt(Fail(UnexpectedCharacter(c, line)))
  }

  /** The whole token sequence of the unread input `s`, starting at line `line`. */
  function Lex(s: string, line: nat): Stream
    decreases |s|
  {
    match Scan(s, line)
    case Skip(rest, l) => Lex(rest, l)
    case Emit(t, rest) => Cons(t, Lex(rest, line))
    case Halt(stop) => Stream([], stop)
  }

  /** `t`, then the tokens of `st`. */
  function Cons(t: Token, st: Stream): Stream {
    Stream([t] + st.tokens, st.stop)
  }

  function First(st: Stream): Pull {
    if st.tokens != [] then Got(st.tokens[0])
    else match st.stop
      case Eof => Done
      case Fail(e) => Failed(e)
      case Hang => Diverged
  }

  /** The sequence after one pull; a generator that has stopped stays done. */
  function Rest(st: Stream): Stream {
    if st.tokens != [] then Stream(st.tokens[1..], st.stop) else Stream([], Eof)
  }

  /** The string token, or the error, once the run of string characters after
      the quote at `start` is known to end at `stop`. */
  lemma QuotedEnds(input: string, start: nat, stop: nat, line: nat)
    requires start <= stop < |input|
    requires forall j :: start < j <= stop ==> input[j] != '"' && input[j] != '\n'
    requires stop + 1 < |input| ==> input[stop + 1] == '"' || input[stop + 1] == '\n'
    ensures Quoted(input[start..], line) ==
      if stop + 1 == |input| then Halt(Fail(UnterminatedString))
      else if input[stop + 1] == '\n' then Halt(Fail(IllegalLineBreak))
      else Emit(Token(input[start + 1..stop + 1], String, line), input[stop + 2..])
  {
    var s := input[start..];
    forall i | 1 <= i <= stop - start
      ensures InString([s[i]])
    {
      assert s[i] == input[start + i];
      InStringChar(s[i]);
    }
    if stop + 1 < |input| {
      InStringChar(input[stop + 1]);
      assert s[stop - start + 1] == input[stop + 1];
    }
    SpanRun(s, InString, stop - start);
    var n := stop - start;
    assert 1 + n == |s| <==> stop + 1 == |input|;
    assert s[1..1 + n] == input[start + 1..stop + 1];
    if stop + 1 < |input| {
      assert s[2 + n..] == input[stop + 2..];
    }
  }

  /** `QuotedEnds` when the closing quote is there. */
  lemma QuotedToken(input: string, start: nat, stop: nat, line: nat)
    requires start <= stop && stop + 1 < |input| && input[stop + 1] == '"'
    requires forall j :: start < j <= stop ==> input[j] != '"' && input[j] != '\n'
    ensures Quoted(input[start..], line) == Emit(Token(input[start + 1..stop + 1], String, line), input[stop + 2..])
  {
    QuotedEnds(input, start, stop, line);
  }

  /** A comment at `start` whose text runs to `stop`: skipped up to the line
      break, or never left when there is none. */
  lemma CommentEnds(input: string, start: nat, stop: nat, line: nat)
    requires start <= stop < |input| && input[start] == '#'
    requires forall j :: start < j <= stop ==> input[j] != '\n'
    requires stop + 1 < |input| ==> input[stop + 1] == '\n'
    ensures Comment(input[start..], line) ==
      if stop + 1 == |input| then Halt(Hang) else Skip(input[stop + 1..], line)
  {
    var s := input[start..];
    forall i | 1 <= i <= stop - start
      ensures NotNewline([s[i]])
    {
      assert s[i] == input[start + i];
      NotNewlineChar(s[i]);
    }
    SpanRun(s, NotNewline, stop - start);
  }

  lemma LexEmit(s: string, line: nat)
    requires Scan(s, line).Emit?
    ensures First(Lex(s, line)) == Got(Scan(s, line).token)
    ensures Rest(Lex(s, line)) == Lex(Scan(s, line).rest, line)
  {
    var r := Lex(Scan(s, line).rest, line);
    assert ([Scan(s, line).token] + r.tokens)[1..] == r.tokens;
  }

  lemma LexSkip(s: string, line: nat)
    requires Scan(s, line).Skip?
    ensures Lex(s, line) == Lex(Scan(s, line).rest, Scan(s, line).newLine)
  {
  }

  lemma LexHalt(s: string, line: nat)
    requires Scan(s, line).Halt?
    ensures First(Lex(s, line)) == First(Stream([], Scan(s, line).stop))
    ensures Rest(Lex(s, line)) == Stream([], Eof)
  {
  }

  // ---------------------------------------------------------------------
  // The cursor.

  class Lexer {
    const input: string
    /** The index of the character being processed; starts before the input. */
    var index: int
    /** The line being processed; starts at 0. */
    var line: nat
    /** The `tokenize` generator has returned or thrown. */
    var finished: bool

    ghost predicate Valid()
      reads this
    {
      -1 <= index <= |input| + 1 && (!finished ==> index <= |input|)
    }

    /** The characters not read yet. */
    ghost function Remaining(): string
      reads this
      requires Valid()
    {
      if index + 1 <= |input| then input[index + 1..] else []
    }

    /** The tokens the generator will still yield, and how it will stop. */
    ghost function Tokens(): Stream
      reads this
      requires Valid()
    {
      if finished then Stream([], Eof) else Lex(Remaining(), line)
    }

    constructor (input: string)
      ensures Valid() && this.input == input && Remaining() == input && line == 0
      ensures Tokens() == Lex(input, 0)
    {
      this.input := input;
      index := -1;
      line := 0;
      finished := false;
    }

    /** The next character, not consumed. */
    method Peek() returns (c: Option<char>)
      requires Valid()
      ensures c == if index + 1 < |input| then Some(input[index + 1]) else None
    {
      c := if index + 1 < |input| then Some(input[index + 1]) else None;
    }

    /** The character the cursor is on. */
    method Curr() returns (c: Option<char>)
      requires Valid()
      ensures c == if 0 <= index < |input| then Some(input[index]) else None
    {
      c := if 0 <= index < |input| then Some(input[index]) else None;
    }

    /** Advances the cursor and returns the character it lands on. */
    method Next() returns (c: Option<char>)
      requires -1 <= index <= |input|
      modifies this`index
      ensures index == old(index) + 1
      ensures c == if index < |input| then Some(input[index]) else None
    {
      index := index + 1;
      c := if index < |input| then Some(input[index]) else None;
    }

    /** Nothing is left to read. */
    method IsEnd() returns (e: bool)
      requires Valid()
      ensures e <==> Remaining() == []
    {
      e := index >= |input| - 1;
    }

    /**
     * Reads the token that starts with the current character: that
     * character and every following one that passes `test`.  The cursor
     * is left on the first character that fails.
     */
    method Collect(test: string -> bool) returns (lexeme: string)
      requires Valid() && !finished && 0 <= index < |input|
      modifies this`index
      ensures Valid() && !finished
      ensures var s := old(input[index..]); var n := 1 + Span(s[1..], test);
        lexeme == s[..n] && Remaining() == if n < |s| then s[n + 1..] else []
    {
      ghost var start := index;
      ghost var s := input[index..];
      var first := Curr();
      lexeme := [first.value];
      var c := Next();
      while c.Some?
        invariant Valid() && !finished && start < index <= |input|
        invariant lexeme == input[start..index]
        invariant forall j :: start < j < index ==> test([input[j]])
        invariant c == if index < |input| then Some(input[index]) else None
        decreases |input| - index
      {
        if test([c.value]) {
          lexeme := lexeme + [c.value];
        } else {
          break;
        }
        c := Next();
      }
      assert lexeme == s[..index - start];
      forall j | 0 <= j < index - start - 1 ensures test([s[1..][j]]) {
        assert s[1..][j] == input[start + 1 + j];
      }
      SpanUnique(s[1..], test, index - start - 1);
    }

    /**
     * Reads a quoted string; the cursor is on the opening quote.  The
     * string characters run up to `stop`; the character after them is the
     * closing quote, a line break, or the end of the input.
     */
    method ScanString() returns (p: Pull, ghost stop: nat)
      requires Valid() && !finished && 0 <= index < |input| && input[index] == '"'
      modifies this`index
      ensures Valid() && !finished
      ensures old(index) <= stop < |input|
      ensures forall j :: old(index) < j <= stop ==> input[j] != '"' && input[j] != '\n'
      ensures stop + 1 < |input| ==> input[stop + 1] == '"' || input[stop + 1] == '\n'
      ensures p == if stop + 1 == |input| then Failed(UnterminatedString)
        else if input[stop + 1] == '\n' then Failed(IllegalLineBreak)
        else Got(Token(input[old(index) + 1..stop + 1], String, line))
      ensures p.Got? ==> index == stop + 1
    {
      ghost var start := index;
      var lexeme := "";
      var next := Peek();
      while next.Some?
        invariant Valid() && !finished && start <= index < |input|
        invariant lexeme == input[start + 1..index + 1]
        invariant forall j :: start < j <= index ==> input[j] != '"' && input[j] != '\n'
        invariant next == if index + 1 < |input| then Some(input[index + 1]) else None
        decreases |input| - index
      {
        // Prevent multiline strings.
        if next.value == '\n' {
          return Failed(IllegalLineBreak), index;
        }
        if next.value == '"' {
          break;
        }
        var c := Next();
        lexeme := lexeme + [c.value];
        next := Peek();
      }
      stop := index;
      var end := IsEnd();
      if end {
        return Failed(UnterminatedString), stop;
      }
      // Skip the closing quote.
      var _ := Next();
      var token := CreateToken(lexeme, String);
      p := Got(token);
    }

    /** A token of the given kind at the current line. */
    method CreateToken(val: string, kind: Kind) returns (t: Token)
      ensures t == Token(val, kind, line)
    {
      t := Token(val, kind, line);
    }

    /** Reads an identifier; the cursor is on its first character. */
    method ReadIdentifier() returns (t: Token)
      requires Valid() && !finished && 0 <= index < |input|
      modifies this`index
      ensures Valid() && !finished
      ensures var s := old(input[index..]); var n := 1 + Span(s[1..], IsAlphaNumericUnderscore);
        t == Token(s[..n], Kind.Identifier, line) && Remaining() == if n < |s| then s[n + 1..] else []
    {
      var lexeme := Collect(IsAlphaNumericUnderscore);
      t := CreateToken(lexeme, Kind.Identifier);
    }

    /**
     * The `'#'` case of `tokenize`: moves the cursor over the comment text up
     * to the line break that ends it, which the next turn reads.  Returns
     * `false` when no line break follows, where the source loop never ends.
     */
    method SkipComment() returns (closed: bool)
      requires Valid() && !finished && 0 <= index < |input| && input[index] == '#'
      modifies this`index
      ensures Valid() && !finished && old(index) <= index < |input|
      ensures forall j :: old(index) < j <= index ==> input[j] != '\n'
      ensures closed <==> index + 1 < |input|
      ensures closed ==> input[index + 1] == '\n'
    {
      var q := Peek();
      while q != Some('\n')
        invariant Valid() && !finished && old(index) <= index < |input|
        invariant forall j :: old(index) < j <= index ==> input[j] != '\n'
        invariant q == if index + 1 < |input| then Some(input[index + 1]) else None
        decreases |input| - index
      {
        if q.None? {
          return false;
        }
        var _ := Next();
        q := Peek();
      }
      return true;
    }

    /**
     * The `switch` of `tokenize` on the character `ch` the cursor has just
     * moved onto, `s` being the input from there on.  Returns `None` when
     * the loop goes on to the next character, and otherwise what the
     * generator yields, returns or throws.
     */
    method Dispatch(ghost s: string, ch: char) returns (r: Option<Pull>)
      requires Valid() && !finished && 0 <= index < |input| && input[index] == ch && s == input[index..]
      modifies this
      ensures Valid()
      ensures match Scan(s, old(line))
        case Skip(rest, l) => r == None && !finished && Remaining() == rest && line == l
        case Emit(t, rest) => r == Some(Got(t)) && !finished && Remaining() == rest && line == old(line)
        case Halt(stop) => r == Some(First(Stream([], stop))) && finished
    {
      assert s[0] == ch;
      if ch == ' ' || ch == '\r' || ch == '\t' {
        return None;
      } else if ch == '\n' {
        line := line + 1;
        return None;
      } else if ch == '{' {
        var t := CreateToken([ch], BraceLeft);
        return Some(Got(t));
      } else if ch == '}' {
        var t := CreateToken([ch], BraceRight);
        return Some(Got(t));
      } else if ch == '=' {
        var t := CreateToken([ch], Equals);
        return Some(Got(t));
      } else if ch == '#' {
        r := CommentArm(s);
      } else if ch == '"' {
        r := StringArm(s);
      } else {
        var p := Default(s, ch);
        return Some(p);
      }
    }

    /** The `'#'` case of the `switch` in `tokenize`. */
    method CommentArm(ghost s: string) returns (r: Option<Pull>)
      requires Valid() && !finished && 0 <= index < |input| && input[index] == '#' && s == input[index..]
      modifies this
      ensures Valid() && line == old(line)
      ensures var c := Comment(s, line);
        if c.Skip? then r == None && !finished && Remaining() == c.rest && c.newLine == line
        else c == Halt(Hang) && r == Some(Diverged) && finished
    {
      // Ignore comments.
      ghost var start := index;
      var closed := SkipComment();
      CommentEnds(input, start, index, line);
      if !closed {
        finished := true;
        return Some(Diverged);
      }
      return None;
    }

    /** The `'"'` case of the `switch` in `tokenize`. */
    method StringArm(ghost s: string) returns (r: Option<Pull>)
      requires Valid() && !finished && 0 <= index < |input| && input[index] == '"' && s == input[index..]
      modifies this
      ensures Valid() && line == old(line)
      ensures var q := Quoted(s, line);
        if q.Emit? then r == Some(Got(q.token)) && !finished && Remaining() == q.rest
        else q.Halt? && r == Some(First(Stream([], q.stop))) && finished
    {
      ghost var start := index;
      var p, stop := ScanString();
      QuotedEnds(input, start, stop, line);
      if p.Failed? {
        finished := true;
      }
      return Some(p);
    }

    /** The `default` case of the `switch` in `tokenize`. */
    method Default(ghost s: string, ch: char) returns (p: Pull)
      requires Valid() && !finished && 0 <= index < |input| && input[index] == ch && s == input[index..]
      modifies this
      ensures Valid() && line == old(line)
      ensures var r := Other(s, line);
        if r.Emit? then p == Got(r.token) && !finished && Remaining() == r.rest
        else r.Halt? && p == First(Stream([], r.stop)) && finished
    {
      assert s[0] == ch;
      if IsAlphaUnderscore([ch]) {
        // Identifiers can start with a letter or `_`.
        var t := ReadIdentifier();
        return Got(t);
      } else if IsNumber([ch]) {
        var lexeme := Collect(IsNumber);
        var t := CreateToken(lexeme, Number);
        return Got(t);
      } else {
        finished := true;
        return Failed(UnexpectedCharacter(ch, line));
      }
    }

    /** One resumption of the `tokenize` generator: runs until it yields, returns or throws. */
    method NextToken() returns (p: Pull)
      requires Valid()
      modifies this
      ensures Valid()
      ensures p == First(old(Tokens())) && Tokens() == Rest(old(Tokens()))
    {
      if finished {
        return Done;
      }
      while true
        invariant Valid() && !finished
        invariant Lex(Remaining(), line) == old(Tokens())
        decreases |input| - index
      {
        ghost var s := Remaining();
        ghost var l := line;
        var c := Next();
        if c.None? {
          finished := true;
          return Done;
        }
        var r := Dispatch(s, c.value);
        if r.None? {
          LexSkip(s, l);
        } else {
          if Scan(s, l).Emit? {
            LexEmit(s, l);
          } else {
            LexHalt(s, l);
          }
          return r.value;
        }
      }
    }
  }
}
