/**
 * The serializer on concrete objects: the compact text of small objects of
 * plain values, as `text.trim()` compares it (the one trailing blank left
 * after the last entry is what `trim` removes).
 */
module StringifyText {
  import opened Types
  import opened Utils
  import opened Stringifying
  import opened FlatForm
  import opened LexingFacts
  import opened RoundTrip
  import opened Parsing

  lemma Word(s: string)
    requires IsIdentifier(s)
    ensures !HasSpace(s) && PlainKey(s) && PlainText(s) && Shown(s) == s
  {
    IdentifierPlain(s);
  }

  /** Scalars: an identifier-like string is written bare, a number as its lexeme. */
  lemma PrimitivesWritten()
    ensures Stringified([("a", Str("Foobar")), ("b", Num("10"))], 0, false) == "a = Foobar b = 10 "
  {
    var obj := [("a", Str("Foobar")), ("b", Num("10"))];
    PrimitivesPlain();
    assert obj[1..] == [("b", Num("10"))];
    calc {
      Stringified(obj, 0, false);
      { TopForm(obj); }
      Flat(obj);
      { FlatFirst(obj); FlatOne("b", Num("10")); }
      "a" + " = " + FlatText(Str("Foobar")) + " " + ("b" + " = " + FlatText(Num("10")) + " ");
      "a" + " = " + "Foobar" + " " + ("b" + " = " + "10" + " ");
      { Glue("a" + " = " + "Foobar" + " ", "a = Foobar ", "b" + " = " + "10" + " ", "b = 10 "); }
      "a = Foobar " + "b = 10 ";
      { PrimitivesGlue(); }
      "a = Foobar b = 10 ";
    }
  }

  lemma PrimitivesGlue()
    ensures "a = Foobar " + "b = 10 " == "a = Foobar b = 10 "
  {
  }

  /** The text of the primitives test parses back to the object it was written from. */
  lemma PrimitivesReadBack()
    ensures Parsed("a = Foobar b = 10 ") == Ok([("a", Str("Foobar")), ("b", Num("10"))])
  {
    var obj := [("a", Str("Foobar")), ("b", Num("10"))];
    PrimitivesReadable();
    CompactRoundTrip(obj);
    PrimitivesWritten();
  }

  lemma PrimitivesReadable()
    ensures Readable(Obj([("a", Str("Foobar")), ("b", Num("10"))]))
    ensures Faithful(Obj([("a", Str("Foobar")), ("b", Num("10"))]))
  {
    PrimitivesWords();
    Word("Foobar");
    PrimitivesFaithful();
  }

  lemma PrimitivesFaithful()
    ensures Faithful(Obj([("a", Str("Foobar")), ("b", Num("10"))]))
  {
    LowerLength("Foobar");
    assert "a" != "b";
  }

  lemma PrimitivesWords()
    ensures IsIdentifier("a") && IsIdentifier("b") && IsIdentifier("Foobar") && IsNumberRun("10")
  {
  }

  lemma PrimitivesPlain()
    ensures Plain(Obj([("a", Str("Foobar")), ("b", Num("10"))]))
    ensures FlatText(Str("Foobar")) == "Foobar" && FlatText(Num("10")) == "10"
  {
    PrimitivesWords();
    Word("a");
    Word("b");
    Word("Foobar");
    NumberPlain("10");
  }

  /** Two texts known piece by piece, joined. */
  lemma Glue(a: string, a': string, b: string, b': string)
    requires a == a' && b == b'
    ensures a + b == a' + b'
  {
  }

  /** `Flat` of a single entry. */
  lemma FlatOne(k: string, v: Value)
    requires !v.Arr?
    ensures Flat([(k, v)]) == k + " = " + FlatText(v) + " "
  {
    assert [(k, v)][1..] == [];
  }

  /** `Flat` of one entry followed by others. */
  lemma FlatFirst(obj: Fields)
    requires obj != [] && !obj[0].1.Arr?
    ensures Flat(obj) == obj[0].0 + " = " + FlatText(obj[0].1) + " " + Flat(obj[1..])
  {
  }

  /** A string holding whitespace is quoted. */
  lemma SpacedStringQuoted()
    ensures Stringified([("test", Str("Hello World"))], 0, false) == "test = \"Hello World\" "
  {
    var obj := [("test", Str("Hello World"))];
    SpacedPlain();
    calc {
      Stringified(obj, 0, false);
      { TopForm(obj); }
      Flat(obj);
      { FlatOne("test", Str("Hello World")); }
      "test" + " = " + FlatText(Str("Hello World")) + " ";
      "test" + " = " + ("\"" + "Hello World" + "\"") + " ";
      { QuotedGlue(); }
      "test = \"Hello World\" ";
    }
  }

  lemma QuotedGlue()
    ensures "test" + " = " + ("\"" + "Hello World" + "\"") + " " == "test = \"Hello World\" "
  {
  }

  /** Two words with a blank between them: whitespace, but compact mode leaves the text as it is. */
  lemma TwoWords(a: string, b: string)
    requires IsIdentifier(a) && IsIdentifier(b)
    ensures HasSpace(a + " " + b) && PlainText(a + " " + b)
  {
    IdentifierPlain(a);
    IdentifierPlain(b);
    var s := a + " " + b;
    assert s[|a|] == ' ';
    forall i | 0 <= i < |s| && i != |a|
      ensures !IsSpace(s[i])
    {
      if i < |a| {
        assert s[i] == a[i];
      } else {
        assert s[i] == b[i - |a| - 1];
      }
    }
  }

  lemma SpacedPlain()
    ensures Plain(Obj([("test", Str("Hello World"))]))
    ensures FlatText(Str("Hello World")) == "\"" + "Hello World" + "\""
  {
    NestedWords();
    Word("test");
    TwoWords("Hello", "World");
    HelloWorld();
  }

  lemma HelloWorld()
    ensures "Hello" + " " + "World" == "Hello World"
  {
  }

  /** A one-word object inside another is written inline as `{ key = word }`. */
  lemma WordObject(k: string, w: string)
    requires IsIdentifier(k) && IsIdentifier(w)
    ensures Plain(Obj([(k, Str(w))]))
    ensures FlatText(Obj([(k, Str(w))])) == "{ " + (k + " = " + w + " ") + "}"
  {
    Word(k);
    Word(w);
    FlatOne(k, Str(w));
  }

  /** Nested objects are written inline between `{ ` and `}`. */
  lemma ObjectsInline()
    ensures Stringified([("test", Obj([("prop1", Str("Foo")), ("prop2", Obj([("test", Str("Hello"))])), ("prop3", Obj([("test", Str("World"))]))]))], 0, false)
         == "test = { " + ("prop1 = Foo " + "prop2 = { test = Hello } " + "prop3 = { test = World } ") + "} "
  {
    var hello, world := [("test", Str("Hello"))], [("test", Str("World"))];
    var inner := [("prop1", Str("Foo")), ("prop2", Obj(hello)), ("prop3", Obj(world))];
    var obj := [("test", Obj(inner))];
    NestedPlain();
    calc {
      Stringified(obj, 0, false);
      { TopForm(obj); }
      Flat(obj);
      { FlatOne("test", Obj(inner)); }
      "test" + " = " + ("{ " + Flat(inner) + "}") + " ";
      { InnerFlat(); }
      "test" + " = " + ("{ " + ("prop1 = Foo " + "prop2 = { test = Hello } " + "prop3 = { test = World } ") + "}") + " ";
      { NestedGlue("prop1 = Foo " + "prop2 = { test = Hello } " + "prop3 = { test = World } "); }
      "test = { " + ("prop1 = Foo " + "prop2 = { test = Hello } " + "prop3 = { test = World } ") + "} ";
    }
  }

  lemma NestedGlue(x: string)
    ensures "test" + " = " + ("{ " + x + "}") + " " == "test = { " + x + "} "
  {
  }

  lemma NestedPlain()
    ensures Plain(Obj([("test", Obj([("prop1", Str("Foo")), ("prop2", Obj([("test", Str("Hello"))])), ("prop3", Obj([("test", Str("World"))]))]))]))
  {
    NestedWords();
    Word("test");
    InnerPlain();
  }

  lemma InnerPlain()
    ensures Plain(Obj([("prop1", Str("Foo")), ("prop2", Obj([("test", Str("Hello"))])), ("prop3", Obj([("test", Str("World"))]))]))
  {
    NestedWords();
    NestedKeys();
    Word("prop1");
    Word("prop2");
    Word("prop3");
    Word("Foo");
    WordObject("test", "Hello");
    WordObject("test", "World");
  }

  lemma NestedWords()
    ensures IsIdentifier("test") && IsIdentifier("Foo") && IsIdentifier("Hello") && IsIdentifier("World")
  {
  }

  lemma NestedKeys()
    ensures IsIdentifier("prop1") && IsIdentifier("prop2") && IsIdentifier("prop3")
  {
  }

  lemma InnerFlat()
    ensures Flat([("prop1", Str("Foo")), ("prop2", Obj([("test", Str("Hello"))])), ("prop3", Obj([("test", Str("World"))]))])
         == "prop1 = Foo " + "prop2 = { test = Hello } " + "prop3 = { test = World } "
  {
    var hello, world := [("test", Str("Hello"))], [("test", Str("World"))];
    var inner := [("prop1", Str("Foo")), ("prop2", Obj(hello)), ("prop3", Obj(world))];
    NestedWords();
    Word("Foo");
    WordObject("test", "Hello");
    WordObject("test", "World");
    assert inner[1..][1..] == [("prop3", Obj(world))];
    calc {
      Flat(inner);
      { FlatFirst(inner); FlatFirst(inner[1..]); FlatOne("prop3", Obj(world)); }
      "prop1" + " = " + "Foo" + " "
        + ("prop2" + " = " + ("{ " + ("test" + " = " + "Hello" + " ") + "}") + " "
        + ("prop3" + " = " + ("{ " + ("test" + " = " + "World" + " ") + "}") + " "));
      { InnerGlue(); }
      "prop1 = Foo " + "prop2 = { test = Hello } " + "prop3 = { test = World } ";
    }
  }

  lemma InnerGlue()
    ensures "prop1" + " = " + "Foo" + " "
        + ("prop2" + " = " + ("{ " + ("test" + " = " + "Hello" + " ") + "}") + " "
        + ("prop3" + " = " + ("{ " + ("test" + " = " + "World" + " ") + "}") + " "))
      == "prop1 = Foo " + "prop2 = { test = Hello } " + "prop3 = { test = World } "
  {
    assert "prop1" + " = " + "Foo" + " " == "prop1 = Foo ";
    assert "prop2" + " = " + ("{ " + ("test" + " = " + "Hello" + " ") + "}") + " " == "prop2 = { test = Hello } ";
    assert "prop3" + " = " + ("{ " + ("test" + " = " + "World" + " ") + "}") + " " == "prop3 = { test = World } ";
  }
}
