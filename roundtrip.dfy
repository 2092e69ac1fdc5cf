/**
 * Compact `stringify` followed by `parse` (src/stringify.ts, src/parse.ts).
 *
 * The one-line text `stringify` writes lexes to the tokens that spell the
 * object as entries of the parser's grammar (`ToEntries`): a blank follows
 * every key, value and closing brace, so the character the lexer drops after
 * an identifier or a number is always a blank.  For objects whose keys are
 * identifiers, each used once per object, and whose values are numbers,
 * identifiers other than `yes`/`no`, strings holding whitespace (with no
 * quote, line break or tab and no two whitespace characters in a row) or
 * such objects, `parse` gives the object back.
 * Booleans are written as `true`/`false` and come back as strings.
 */
module RoundTrip {
  import opened Utils
  import opened Types
  import opened Contexts
  import opened Lexing
  import opened LexingFacts
  import opened Parsing
  import opened ParsingFacts
  import opened Stringifying
  import opened FlatForm

  // ---------------------------------------------------------------------
  // What can be written and read back.

  /** A value whose one-line text lexes into the tokens that spell it. */
  predicate Readable(v: Value)
    decreases v
  {
    match v
    case Bool(_) => true
    case Num(lexeme) => IsNumberRun(lexeme)
    case Str(s) => if HasSpace(s) then PlainText(s) && '"' !in s else IsIdentifier(s)
    case Obj(fields) => forall i :: 0 <= i < |fields| ==> IsIdentifier(fields[i].0) && Readable(fields[i].1)
    case Arr(_) => false
  }

  /** A value `parse` stores as it stands: no boolean, no bare `yes` or `no`, no key twice in one object. */
  predicate Faithful(v: Value)
    decreases v
  {
    match v
    case Bool(_) => false
    case Num(_) => true
    case Str(s) => HasSpace(s) || (Lower(s) != "yes" && Lower(s) != "no")
    case Obj(fields) => UniqueKeys(fields) && forall i :: 0 <= i < |fields| ==> Faithful(fields[i].1)
    case Arr(_) => false
  }

  lemma IdentifierPlain(s: string)
    requires IsIdentifier(s)
    ensures !HasSpace(s) && PlainKey(s) && PlainText(s)
  {
    forall i | 0 <= i < |s|
      ensures IsAsciiLetter(s[i]) || IsDigit(s[i]) || s[i] == '_'
    {
      if i == 0 {
        assert s[..1][0] == s[0];
      } else {
        assert s[1..][i - 1] == s[i];
      }
    }
  }

  lemma NumberPlain(s: string)
    requires IsNumberRun(s)
    ensures !HasSpace(s) && PlainText(s)
  {
  }

  /** What can be read back is written without repairs. */
  lemma {:induction false} ReadablePlain(v: Value)
    requires Readable(v)
    ensures Plain(v)
    decreases v
  {
    match v
    case Bool(_) =>
    case Num(lexeme) => NumberPlain(lexeme);
    case Str(s) =>
      if !HasSpace(s) {
        IdentifierPlain(s);
      }
    case Obj(fields) =>
      forall i | 0 <= i < |fields|
        ensures PlainKey(fields[i].0) && Plain(fields[i].1)
      {
        IdentifierPlain(fields[i].0);
        ReadablePlain(fields[i].1);
      }
  }

  lemma ReadableParts(obj: Fields)
    requires obj != [] && Readable(Obj(obj))
    ensures IsIdentifier(obj[0].0) && Readable(obj[0].1) && Readable(Obj(obj[1..]))
  {
    forall i | 0 <= i < |obj| - 1
      ensures IsIdentifier(obj[1..][i].0) && Readable(obj[1..][i].1)
    {
      assert obj[1..][i] == obj[i + 1];
    }
  }

  lemma FaithfulParts(obj: Fields)
    requires obj != [] && Faithful(Obj(obj))
    ensures Faithful(obj[0].1) && Faithful(Obj(obj[1..]))
    ensures forall j :: 0 < j < |obj| ==> obj[j].0 != obj[0].0
  {
    forall i | 0 <= i < |obj| - 1
      ensures Faithful(obj[1..][i].1)
    {
      assert obj[1..][i] == obj[i + 1];
    }
    assert UniqueKeys(obj[1..]) by {
      forall i, j | 0 <= i < j < |obj| - 1
        ensures obj[1..][i].0 != obj[1..][j].0
      {
        assert obj[1..][i] == obj[i + 1] && obj[1..][j] == obj[j + 1];
      }
    }
  }

  // ---------------------------------------------------------------------
  // The entries an object is written as.

  function KeyToken(k: string): Token {
    Token(k, Identifier, 0)
  }

  const EqualsToken := Token("=", Equals, 0)
  const OpenToken := Token("{", BraceLeft, 0)
  const CloseToken := Token("}", BraceRight, 0)

  /** The token the lexer makes of a scalar's text: a string holding whitespace is quoted, anything else is bare. */
  function RightToken(v: Value): (t: Token)
    requires !v.Obj? && !v.Arr?
    ensures t.kind == String <==> v.Str? && HasSpace(v.s)
    ensures t.kind != Equals && t.kind != BraceLeft && t.kind != BraceRight
  {
    match v
    case Bool(b) => Token(ScalarText(v), Identifier, 0)
    case Num(lexeme) => Token(lexeme, Number, 0)
    case Str(s) => Token(s, if HasSpace(s) then String else Identifier, 0)
  }

  /** The entry `key = value` or `key = { ... }` of one field. */
  function ToEntry(entry: (string, Value)): (e: Entry)
    requires !entry.1.Arr?
    ensures Sound(e) && e.key == KeyToken(entry.0) && e.Nest? == entry.1.Obj?
    decreases entry, 1
  {
    if entry.1.Obj? then Nest(KeyToken(entry.0), EqualsToken, OpenToken, ToEntries(entry.1.fields), CloseToken)
    else Put(KeyToken(entry.0), EqualsToken, RightToken(entry.1))
  }

  /** The entries of the fields, arrays left out as `stringify` leaves them out. */
  function ToEntries(obj: Fields): (es: seq<Entry>)
    ensures forall i :: 0 <= i < |es| ==> Sound(es[i])
    ensures |es| <= |obj|
    decreases obj, 1
  {
    if obj == [] then []
    else (if obj[0].1.Arr? then [] else [ToEntry(obj[0])]) + ToEntries(obj[1..])
  }

  /** The tokens of a value after `key =`. */
  function ValueTokens(v: Value): seq<Token>
    requires !v.Arr?
  {
    if v.Obj? then [OpenToken] + Spell(ToEntries(v.fields)) + [CloseToken] else [RightToken(v)]
  }

  /** The tokens `ts`, then those of `st`. */
  function Then(ts: seq<Token>, st: Stream): Stream {
    Stream(ts + st.tokens, st.stop)
  }

  lemma ThenThen(a: seq<Token>, b: seq<Token>, st: Stream)
    ensures Then(a, Then(b, st)) == Then(a + b, st)
  {
    assert a + (b + st.tokens) == (a + b) + st.tokens;
  }

  lemma SpellCons(e: Entry, es: seq<Entry>)
    ensures Spell([e] + es) == EntryTokens(e) + Spell(es)
  {
    assert ([e] + es)[1..] == es;
  }

  lemma EntryTokensOf(entry: (string, Value))
    requires !entry.1.Arr?
    ensures EntryTokens(ToEntry(entry)) == [KeyToken(entry.0), EqualsToken] + ValueTokens(entry.1)
  {
  }

  // ---------------------------------------------------------------------
  // Lexing the one-line form.

  // The texts below are rearranged by the lemmas in the next section, apart
  // from `Lex`, so that each lexing step applies to its input as it stands.

  /** `key = ` gives the key and `=`; the blank after the key is the character dropped after an identifier. */
  lemma LexKeyed(k: string, tail: string)
    requires IsIdentifier(k)
    ensures Lex(k + " = " + tail, 0) == Then([KeyToken(k), EqualsToken], Lex(tail, 0))
  {
    calc {
      Lex(k + " = " + tail, 0);
      { KeyedSplit(k, tail); }
      Lex(k + " " + ("= " + tail), 0);
      { LexBare(k, Identifier, "= " + tail); }
      Then([KeyToken(k)], Lex("= " + tail, 0));
      { LexEquals(tail); }
      Then([KeyToken(k)], Then([EqualsToken], Lex(tail, 0)));
      { ThenThen([KeyToken(k)], [EqualsToken], Lex(tail, 0)); TokenPair(KeyToken(k), EqualsToken); }
      Then([KeyToken(k), EqualsToken], Lex(tail, 0));
    }
  }

  lemma TokenPair(a: Token, b: Token)
    ensures [a] + [b] == [a, b]
  {
  }

  lemma LexEquals(tail: string)
    ensures Lex("= " + tail, 0) == Then([EqualsToken], Lex(tail, 0))
  {
    OperatorText('=', tail);
    OperatorToken('=', " " + tail, 0);
    BlankText(tail);
    BlankSkipped(' ', tail, 0);
  }

  /** A bare scalar followed by a blank: the blank is the dropped character. */
  lemma LexBare(t: string, kind: Kind, rest: string)
    requires kind == Identifier ==> IsIdentifier(t)
    requires kind == Number ==> IsNumberRun(t)
    requires kind == Identifier || kind == Number
    ensures Lex(t + " " + rest, 0) == Then([Token(t, kind, 0)], Lex(rest, 0))
  {
    Assoc(t, " ", rest);
    BlankText(rest);
    if kind == Identifier {
      IdentifierThen(t, " " + rest, 0);
    } else {
      NumberThen(t, " " + rest, 0);
    }
  }

  /** A quoted string followed by a blank. */
  lemma LexQuoted(s: string, rest: string)
    requires '"' !in s && '\n' !in s
    ensures Lex("\"" + s + "\"" + " " + rest, 0) == Then([Token(s, String, 0)], Lex(rest, 0))
  {
    Assoc("\"" + s + "\"", " ", rest);
    StringToken(s, " " + rest, 0);
    BlankText(rest);
    BlankSkipped(' ', rest, 0);
  }

  lemma LexScalar(v: Value, rest: string)
    requires Readable(v) && !v.Obj?
    ensures Lex(FlatText(v) + " " + rest, 0) == Then([RightToken(v)], Lex(rest, 0))
  {
    match v
    case Bool(b) =>
      assert IsIdentifier(ScalarText(v));
      IdentifierPlain(ScalarText(v));
      LexBare(ScalarText(v), Identifier, rest);
    case Num(lexeme) =>
      NumberPlain(lexeme);
      LexBare(lexeme, Number, rest);
    case Str(s) =>
      if HasSpace(s) {
        LexQuoted(s, rest);
      } else {
        LexBare(s, Identifier, rest);
      }
  }

  /** `{` and the blank after it. */
  lemma LexOpen(x: string)
    ensures Lex("{ " + x, 0) == Then([OpenToken], Lex(x, 0))
  {
    OperatorText('{', x);
    OperatorToken('{', " " + x, 0);
    BlankText(x);
    BlankSkipped(' ', x, 0);
  }

  /** `}` and the blank after it. */
  lemma LexClose(rest: string)
    ensures Lex("}" + " " + rest, 0) == Then([CloseToken], Lex(rest, 0))
  {
    Assoc("}", " ", rest);
    OperatorToken('}', " " + rest, 0);
    BlankText(rest);
    BlankSkipped(' ', rest, 0);
  }

  /** `{ entries }` followed by a blank, given what the entries lex to. */
  lemma LexBraced(f: string, ts: seq<Token>, rest: string)
    requires Lex(f + ("}" + " " + rest), 0) == Then(ts, Lex("}" + " " + rest, 0))
    ensures Lex("{ " + f + "}" + " " + rest, 0) == Then([OpenToken] + ts + [CloseToken], Lex(rest, 0))
  {
    BracedText(f, rest);
    LexOpen(f + ("}" + " " + rest));
    LexClose(rest);
    ThenThen(ts, [CloseToken], Lex(rest, 0));
    ThenThen([OpenToken], ts + [CloseToken], Lex(rest, 0));
    TokensAssoc([OpenToken], ts, [CloseToken]);
  }

  /** The one-line form of readable entries lexes to the tokens that spell them. */
  lemma {:induction false} LexFlat(obj: Fields, rest: string)
    requires Readable(Obj(obj))
    ensures Lex(Flat(obj) + rest, 0) == Then(Spell(ToEntries(obj)), Lex(rest, 0))
    decreases obj, 2
  {
    if obj == [] {
      assert Flat(obj) + rest == rest;
    } else {
      ReadableParts(obj);
      LexFlat(obj[1..], rest);
      LexEntry(obj[0], Flat(obj[1..]) + rest);
      FlatCons(obj);
      LexConcat(FlatEntry(obj[0]), Flat(obj[1..]), rest, EntryTokens(ToEntry(obj[0])), Spell(ToEntries(obj[1..])));
    }
  }

  lemma FlatCons(obj: Fields)
    requires obj != [] && !obj[0].1.Arr?
    ensures Flat(obj) == FlatEntry(obj[0]) + Flat(obj[1..])
    ensures Spell(ToEntries(obj)) == EntryTokens(ToEntry(obj[0])) + Spell(ToEntries(obj[1..]))
  {
    assert ToEntries(obj) == [ToEntry(obj[0])] + ToEntries(obj[1..]);
    SpellCons(ToEntry(obj[0]), ToEntries(obj[1..]));
  }

  /** Lexing `a` then `b`, each known on its own. */
  lemma LexConcat(a: string, b: string, rest: string, ta: seq<Token>, tb: seq<Token>)
    requires Lex(a + (b + rest), 0) == Then(ta, Lex(b + rest, 0))
    requires Lex(b + rest, 0) == Then(tb, Lex(rest, 0))
    ensures Lex(a + b + rest, 0) == Then(ta + tb, Lex(rest, 0))
  {
    Assoc(a, b, rest);
    ThenThen(ta, tb, Lex(rest, 0));
  }

  lemma {:induction false} LexEntry(entry: (string, Value), rest: string)
    requires IsIdentifier(entry.0) && Readable(entry.1)
    ensures !entry.1.Arr? && Lex(FlatEntry(entry) + rest, 0) == Then(EntryTokens(ToEntry(entry)), Lex(rest, 0))
    decreases entry, 1
  {
    var tail := FlatText(entry.1) + " " + rest;
    LexValue(entry.1, rest);
    LexKeyed(entry.0, tail);
    EntryText(entry, rest);
    EntryTokensOf(entry);
    ThenThen([KeyToken(entry.0), EqualsToken], ValueTokens(entry.1), Lex(rest, 0));
  }

  lemma {:induction false} LexValue(v: Value, rest: string)
    requires Readable(v)
    ensures !v.Arr? && Lex(FlatText(v) + " " + rest, 0) == Then(ValueTokens(v), Lex(rest, 0))
    decreases v, 0
  {
    if v.Obj? {
      LexFlat(v.fields, "}" + " " + rest);
      LexBraced(Flat(v.fields), Spell(ToEntries(v.fields)), rest);
    } else {
      LexScalar(v, rest);
    }
  }

  // ---------------------------------------------------------------------
  // Rearranging texts.

  lemma Assoc(a: string, b: string, c: string)
    ensures a + b + c == a + (b + c)
  {
  }

  lemma TokensAssoc(a: seq<Token>, b: seq<Token>, c: seq<Token>)
    ensures a + (b + c) == a + b + c
  {
  }

  lemma BlankText(x: string)
    ensures [' '] + x == " " + x && (" " + x)[0] == ' ' && (" " + x)[1..] == x
  {
  }

  /** An operator character followed by a blank. */
  lemma OperatorText(c: char, x: string)
    ensures [c] + (" " + x) == [c, ' '] + x
  {
  }

  lemma BracedText(f: string, rest: string)
    ensures "{ " + f + "}" + " " + rest == "{ " + (f + ("}" + " " + rest))
  {
  }

  lemma EntryText(entry: (string, Value), rest: string)
    requires !entry.1.Arr?
    ensures FlatEntry(entry) + rest == entry.0 + " = " + (FlatText(entry.1) + " " + rest)
  {
  }

  // ---------------------------------------------------------------------
  // Reading the entries back.

  /** A faithful value's entry means the value itself. */
  lemma {:induction false} MeaningBack(entry: (string, Value))
    requires Faithful(entry.1)
    ensures !entry.1.Arr? && Meaning(ToEntry(entry)) == entry.1
    decreases entry, 1
  {
    if entry.1.Obj? {
      ApplyBack([], entry.1.fields);
      assert [] + entry.1.fields == entry.1.fields;
    }
  }

  /** Faithful fields with keys new to `f` are appended to it, in order. */
  lemma {:induction false} ApplyBack(f: Fields, obj: Fields)
    requires Faithful(Obj(obj))
    requires forall i, j :: 0 <= i < |f| && 0 <= j < |obj| ==> f[i].0 != obj[j].0
    ensures ApplyAll(f, ToEntries(obj)) == f + obj
    decreases obj, 2
  {
    if obj == [] {
      assert f + obj == f;
    } else {
      FaithfulParts(obj);
      MeaningBack(obj[0]);
      var g := f + [obj[0]];
      DisjointStep(f, obj);
      calc {
        ApplyAll(f, ToEntries(obj));
        { ApplyFirst(f, obj); }
        ApplyAll(Assign(f, obj[0].0, obj[0].1), ToEntries(obj[1..]));
        { AssignAbsent(f, obj[0].0, obj[0].1); }
        ApplyAll(g, ToEntries(obj[1..]));
        { ApplyBack(g, obj[1..]); }
        g + obj[1..];
        { FieldsAssoc(f, obj); }
        f + obj;
      }
    }
  }

  /** The first entry is new to `f`, and `f` with it is still disjoint from the others. */
  lemma DisjointStep(f: Fields, obj: Fields)
    requires obj != [] && UniqueKeys(obj)
    requires forall i, j :: 0 <= i < |f| && 0 <= j < |obj| ==> f[i].0 != obj[j].0
    ensures Lookup(f, obj[0].0) == None
    ensures forall i, j :: 0 <= i < |f| + 1 && 0 <= j < |obj| - 1 ==> (f + [obj[0]])[i].0 != obj[1..][j].0
  {
    forall i | 0 <= i < |f| ensures f[i].0 != obj[0].0 { }
    forall i, j | 0 <= i < |f| + 1 && 0 <= j < |obj| - 1
      ensures (f + [obj[0]])[i].0 != obj[1..][j].0
    {
      assert obj[1..][j] == obj[j + 1];
    }
  }

  lemma FieldsAssoc(f: Fields, obj: Fields)
    requires obj != []
    ensures f + [obj[0]] + obj[1..] == f + obj
  {
    assert [obj[0]] + obj[1..] == obj;
  }

  /** The first entry of `ApplyBack` assigns the first field. */
  lemma ApplyFirst(f: Fields, obj: Fields)
    requires obj != [] && !obj[0].1.Arr? && Meaning(ToEntry(obj[0])) == obj[0].1
    ensures ApplyAll(f, ToEntries(obj)) == ApplyAll(Assign(f, obj[0].0, obj[0].1), ToEntries(obj[1..]))
  {
    var e, es := ToEntry(obj[0]), ToEntries(obj[1..]);
    assert ToEntries(obj) == [e] + es;
    assert ([e] + es)[0] == e && ([e] + es)[1..] == es;
  }

  // ---------------------------------------------------------------------
  // The round trip.

  /** `parse(stringify(obj))` gives `obj` back for what can be written and read faithfully. */
  lemma CompactRoundTrip(obj: Fields)
    requires Readable(Obj(obj)) && Faithful(Obj(obj))
    ensures Parsed(Stringified(obj, 0, false)) == Ok(obj)
  {
    ReadablePlain(Obj(obj));
    calc {
      Parsed(Stringified(obj, 0, false));
      { TopForm(obj); }
      ParseTokens(Lex(Flat(obj), 0));
      { LexWhole(obj); }
      ParseTokens(Stream(Spell(ToEntries(obj)), Eof));
      { SpelledDocument(ToEntries(obj)); }
      Ok(ApplyAll([], ToEntries(obj)));
      { ApplyBack([], obj); assert [] + obj == obj; }
      Ok(obj);
    }
  }

  /**
   * A boolean is written as `true` or `false`, which the parser reads back as
   * an identifier that is neither `yes` nor `no`: a string.
   */
  lemma BooleanReadBack(k: string, b: bool)
    requires IsIdentifier(k)
    ensures Parsed(Stringified([(k, Bool(b))], 0, false)) == Ok([(k, Str(if b then "true" else "false"))])
  {
    var obj := [(k, Bool(b))];
    IdentifierPlain(k);
    assert Readable(Obj(obj));
    ReadablePlain(Obj(obj));
    calc {
      Parsed(Stringified(obj, 0, false));
      { TopForm(obj); }
      ParseTokens(Lex(Flat(obj), 0));
      { LexWhole(obj); }
      ParseTokens(Stream(Spell(ToEntries(obj)), Eof));
      { SpelledDocument(ToEntries(obj)); }
      Ok(ApplyAll([], ToEntries(obj)));
      { BooleanEntry(k, b); }
      Ok([(k, Str(if b then "true" else "false"))]);
    }
  }

  lemma BooleanEntry(k: string, b: bool)
    ensures ApplyAll([], ToEntries([(k, Bool(b))])) == [(k, Str(if b then "true" else "false"))]
  {
    var text := if b then "true" else "false";
    LowerLength(text);
    assert ParseIdentifier(text) == Str(text);
    var e := ToEntry((k, Bool(b)));
    assert [(k, Bool(b))][1..] == [];
    assert ToEntries([(k, Bool(b))]) == [e];
    assert Meaning(e) == Str(text);
    assert [e][1..] == [];
  }

  /** The whole one-line text lexes to the spelled entries and then ends. */
  lemma LexWhole(obj: Fields)
    requires Readable(Obj(obj))
    ensures Lex(Flat(obj), 0) == Stream(Spell(ToEntries(obj)), Eof)
  {
    LexFlat(obj, "");
    assert Flat(obj) + "" == Flat(obj);
    assert Spell(ToEntries(obj)) + [] == Spell(ToEntries(obj));
  }
}
