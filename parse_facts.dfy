/**
 * What `parse` (src/parse.ts) promises about its results: the shape of the
 * objects it builds, the entries of the examples in its test suite, and the
 * error it reports first.
 */
module ParsingFacts {
  import opened Types
  import opened Contexts
  import opened Lexing
  import opened Parsing

  // ---------------------------------------------------------------------
  // The shape of a parsed object.

  /**
   * A value the parser can build: every object has unique keys, and every
   * array collects two or more values, none of them an array itself.
   */
  predicate Proper(v: Value) {
    match v
    case Obj(fs) => UniqueKeys(fs) && forall i :: 0 <= i < |fs| ==> Proper(fs[i].1)
    case Arr(vs) => |vs| >= 2 && forall i :: 0 <= i < |vs| ==> !vs[i].Arr? && Proper(vs[i])
    case _ => true
  }

  /** `setData` keeps an object proper when it stores a proper value that is not an array. */
  lemma AssignProper(f: Fields, key: string, value: Value)
    requires Proper(Obj(f)) && Proper(value) && !value.Arr?
    ensures Proper(Obj(Assign(f, key, value)))
  {
    AssignKeepsUniqueKeys(f, key, value);
    var g := Assign(f, key, value);
    match Find(f, key)
    case None =>
      assert forall i :: 0 <= i < |g| ==> g[i] == if i < |f| then f[i] else (key, value);
    case Some(i) =>
      var current := f[i].1;
      assert Proper(current);
      var stored := g[i].1;
      if Truthy(current) && current.Arr? {
        var es := current.elems + [value];
        assert forall j :: 0 <= j < |es| ==> es[j] == if j < |current.elems| then current.elems[j] else value;
        assert Proper(Arr(es));
      } else if Truthy(current) {
        assert Proper(Arr([current, value]));
      }
      assert Proper(stored);
      StoredProper(f, i, g);
  }

  /** Replacing one field's value by a proper one keeps an object proper, if its keys stay unique. */
  lemma StoredProper(f: Fields, i: nat, g: Fields)
    requires Proper(Obj(f)) && i < |f| && |g| == |f| && UniqueKeys(g)
    requires Proper(g[i].1) && forall j :: 0 <= j < |f| && j != i ==> g[j] == f[j]
    ensures Proper(Obj(g))
  {
    assert forall j :: 0 <= j < |g| ==> Proper(g[j].1) by {
      forall j | 0 <= j < |g| ensures Proper(g[j].1) {
        if j != i { assert Proper(f[j].1); }
      }
    }
  }

  /** What a scalar right-hand side stores is proper and not an array. */
  lemma RightValueProper(right: Token)
    requires RightValue(right).Some?
    ensures Proper(RightValue(right).value) && !RightValue(right).value.Arr?
  {
  }

  /** The recursive descent builds proper objects from a proper one. */
  lemma {:induction false} BlockProper(st: Stream, pos: nat, nested: bool, f: Fields)
    requires Proper(Obj(f))
    ensures Block(st, pos, nested, f).Closed? || Block(st, pos, nested, f).Ended? ==>
      Proper(Obj(Block(st, pos, nested, f).fields))
    decreases |st.tokens| - pos
  {
    match Item(st, pos)
    case Done =>
    case Failed(e) =>
    case Diverged =>
    case Got(t) =>
      if t.kind == Identifier {
        match AfterKey(st, pos)
        case Bad(e) =>
        case Hangs =>
        case Scalar(v) =>
          assert RightValue(st.tokens[pos + 2]) == Some(v);
          RightValueProper(st.tokens[pos + 2]);
          AssignProper(f, t.val, v);
          BlockProper(st, pos + 3, nested, Assign(f, t.val, v));
        case Opens =>
          BlockProper(st, pos + 3, true, []);
          BlockOpens(st, pos, nested, f, t);
          var b := Block(st, pos + 3, true, []);
          if b.Closed? || b.Ended? {
            AssignProper(f, t.val, Obj(b.fields));
            if b.Closed? {
              BlockProper(st, b.next, nested, Assign(f, t.val, Obj(b.fields)));
            }
          }
      }
  }

  /**
   * Whatever `parse` returns is a proper object: repeated keys have been
   * collected into arrays of two or more values, never into nested arrays.
   */
  lemma ParsedProper(input: string)
    ensures Parsed(input).Ok? ==> Proper(Obj(Parsed(input).data))
  {
    var st := Lex(input, 0);
    ParseIsTree(st);
    BlockProper(st, 0, false, []);
  }

  // ---------------------------------------------------------------------
  // Documents: well-nested sequences of entries.

  /** An entry as the tokens that spell it: `key = value` or `key = { body }`. */
  datatype Entry =
    | Put(key: Token, op: Token, right: Token)
    | Nest(key: Token, op: Token, open: Token, body: seq<Entry>, close: Token)

  /** Every entry has an identifier key and `=`, a value `parse` accepts, and matching braces. */
  predicate Sound(e: Entry) {
    match e
    case Put(key, op, right) =>
      key.kind == Identifier && op.kind == Equals && RightValue(right).Some?
    case Nest(key, op, open, body, close) =>
      key.kind == Identifier && op.kind == Equals && open.kind == BraceLeft && close.kind == BraceRight
      && forall i :: 0 <= i < |body| ==> Sound(body[i])
  }

  function EntryTokens(e: Entry): seq<Token> {
    match e
    case Put(key, op, right) => [key, op, right]
    case Nest(key, op, open, body, close) => [key, op, open] + Spell(body) + [close]
  }

  /** The token sequence of a list of entries. */
  function Spell(es: seq<Entry>): seq<Token> {
    if es == [] then [] else EntryTokens(es[0]) + Spell(es[1..])
  }

  /** The value an entry stores: its scalar, or the object its body builds. */
  function Meaning(e: Entry): Value
    requires Sound(e)
    decreases e, 0
  {
    match e
    case Put(_, _, right) => RightValue(right).value
    case Nest(_, _, _, body, _) => Obj(ApplyAll([], body))
  }

  /** The meaning of one entry: `setData` of its value under its key. */
  function Apply(f: Fields, e: Entry): Fields
    requires Sound(e)
    decreases e, 1
  {
    Assign(f, e.key.val, Meaning(e))
  }

  function ApplyAll(f: Fields, es: seq<Entry>): Fields
    requires forall i :: 0 <= i < |es| ==> Sound(es[i])
    decreases es, 2
  {
    if es == [] then f else ApplyAll(Apply(f, es[0]), es[1..])
  }

  /** The number of tokens of an entry. */
  function Width(e: Entry): nat {
    match e
    case Put(_, _, _) => 3
    case Nest(_, _, _, body, _) => 4 + WidthAll(body)
  }

  function WidthAll(es: seq<Entry>): nat {
    if es == [] then 0 else Width(es[0]) + WidthAll(es[1..])
  }

  /** The tokens of `e` stand in `st` from the `pos`-th token on. */
  predicate EntryAt(st: Stream, pos: nat, e: Entry)
    decreases e
  {
    match e
    case Put(key, op, right) =>
      pos + 2 < |st.tokens| && st.tokens[pos] == key && st.tokens[pos + 1] == op && st.tokens[pos + 2] == right
    case Nest(key, op, open, body, close) =>
      && pos + 2 < |st.tokens| && st.tokens[pos] == key && st.tokens[pos + 1] == op && st.tokens[pos + 2] == open
      && EntriesAt(st, pos + 3, body)
      && pos + 3 + WidthAll(body) < |st.tokens| && st.tokens[pos + 3 + WidthAll(body)] == close
  }

  predicate EntriesAt(st: Stream, pos: nat, es: seq<Entry>)
    decreases es
  {
    es == [] || (EntryAt(st, pos, es[0]) && EntriesAt(st, pos + Width(es[0]), es[1..]))
  }

  /** The recursive descent reads the tokens of a list of sound entries as their meaning. */
  lemma BlockReads(st: Stream, pos: nat, nested: bool, f: Fields, es: seq<Entry>)
    requires forall i :: 0 <= i < |es| ==> Sound(es[i])
    requires EntriesAt(st, pos, es)
    ensures Block(st, pos, nested, f) == Block(st, pos + WidthAll(es), nested, ApplyAll(f, es))
  {
    ReadsTo(st, pos, nested, f, es, pos + WidthAll(es), ApplyAll(f, es));
  }

  lemma {:induction false} ReadsTo(st: Stream, pos: nat, nested: bool, f: Fields, es: seq<Entry>, end: nat, h: Fields)
    requires forall i :: 0 <= i < |es| ==> Sound(es[i])
    requires EntriesAt(st, pos, es) && end == pos + WidthAll(es) && h == ApplyAll(f, es)
    ensures Block(st, pos, nested, f) == Block(st, end, nested, h)
    decreases es
  {
    if es != [] {
      var e, rest := es[0], es[1..];
      var g := Apply(f, e);
      var mid := pos + Width(e);
      assert end == mid + WidthAll(rest) && h == ApplyAll(g, rest);
      ReadsTo(st, mid, nested, g, rest, end, h);
      EntryRead(st, pos, nested, f, e);
    }
  }

  lemma {:induction false} EntryRead(st: Stream, pos: nat, nested: bool, f: Fields, e: Entry)
    requires Sound(e) && EntryAt(st, pos, e)
    ensures Block(st, pos, nested, f) == Block(st, pos + Width(e), nested, Apply(f, e))
    decreases e
  {
    match e
    case Put(key, op, right) =>
      assert AfterKey(st, pos) == Scalar(RightValue(right).value);
    case Nest(key, op, open, body, close) =>
      var child, next := ApplyAll([], body), pos + Width(e);
      assert AfterKey(st, pos) == Opens;
      ReadsTo(st, pos + 3, true, [], body, pos + 3 + WidthAll(body), child);
      assert Block(st, pos + 3, true, []) == Closed(child, next);
      BlockNested(st, pos, nested, f, key, child, next);
      assert Apply(f, e) == Assign(f, key.val, Obj(child));
  }

  /** A nested object closed at `next` is stored under its key, and the level goes on after it. */
  lemma BlockNested(st: Stream, pos: nat, nested: bool, f: Fields, t: Token, child: Fields, next: nat)
    requires Item(st, pos) == Got(t) && t.kind == Identifier && AfterKey(st, pos) == Opens
    requires Block(st, pos + 3, true, []) == Closed(child, next)
    ensures Block(st, pos, nested, f) == Block(st, next, nested, Assign(f, t.val, Obj(child)))
  {
    BlockOpens(st, pos, nested, f, t);
  }

  /** The tokens `Spell(es)` stand where they are put, and are as many as the entries' width. */
  lemma {:induction false} SpellAt(ts: seq<Token>, pre: seq<Token>, es: seq<Entry>, post: seq<Token>, stop: Stop)
    requires ts == pre + Spell(es) + post
    ensures EntriesAt(Stream(ts, stop), |pre|, es) && WidthAll(es) == |Spell(es)|
    decreases es
  {
    if es != [] {
      var e, rest := es[0], es[1..];
      assert ts == pre + EntryTokens(e) + (Spell(rest) + post);
      EntrySpellAt(ts, pre, e, Spell(rest) + post, stop);
      assert ts == (pre + EntryTokens(e)) + Spell(rest) + post;
      SpellAt(ts, pre + EntryTokens(e), rest, post, stop);
    }
  }

  lemma {:induction false} EntrySpellAt(ts: seq<Token>, pre: seq<Token>, e: Entry, post: seq<Token>, stop: Stop)
    requires ts == pre + EntryTokens(e) + post
    ensures EntryAt(Stream(ts, stop), |pre|, e) && Width(e) == |EntryTokens(e)|
    decreases e
  {
    var p := |pre|;
    assert ts[p] == EntryTokens(e)[0] && ts[p + 1] == EntryTokens(e)[1] && ts[p + 2] == EntryTokens(e)[2];
    match e
    case Put(key, op, right) =>
    case Nest(key, op, open, body, close) =>
      assert ts == (pre + [key, op, open]) + Spell(body) + ([close] + post);
      SpellAt(ts, pre + [key, op, open], body, [close] + post, stop);
      assert ts[p + 3 + |Spell(body)|] == close;
  }

  /** The token sequence of sound entries parses to what they assign. */
  lemma SpelledDocument(es: seq<Entry>)
    requires forall i :: 0 <= i < |es| ==> Sound(es[i])
    ensures ParseTokens(Stream(Spell(es), Eof)) == Ok(ApplyAll([], es))
  {
    SpelledAlone(es);
    Document(Stream(Spell(es), Eof), es);
  }

  lemma SpelledAlone(es: seq<Entry>)
    ensures EntriesAt(Stream(Spell(es), Eof), 0, es) && WidthAll(es) == |Spell(es)|
  {
    assert Spell(es) == [] + Spell(es) + [];
    SpellAt(Spell(es), [], es, [], Eof);
  }

  // ---------------------------------------------------------------------
  // Repeated keys.

  /** The values of a list of entries, in order. */
  function Meanings(es: seq<Entry>): (vs: seq<Value>)
    requires forall i :: 0 <= i < |es| ==> Sound(es[i])
    ensures |vs| == |es| && forall i :: 0 <= i < |es| ==> vs[i] == Meaning(es[i])
  {
    if es == [] then [] else [Meaning(es[0])] + Meanings(es[1..])
  }

  /** An entry never means an array: arrays only come from repeated keys. */
  lemma MeaningNotArray(e: Entry)
    requires Sound(e)
    ensures !Meaning(e).Arr?
  {
    if e.Put? {
      RightValueProper(e.right);
    }
  }

  /** Entries that all have the same key assign their values to it one after another. */
  lemma {:induction false} SameKeyApplies(f: Fields, key: string, es: seq<Entry>)
    requires forall i :: 0 <= i < |es| ==> Sound(es[i]) && es[i].key.val == key
    ensures ApplyAll(f, es) == AssignEach(f, key, Meanings(es))
    decreases es
  {
    if es != [] {
      SameKeyApplies(Apply(f, es[0]), key, es[1..]);
      assert Meanings(es)[1..] == Meanings(es[1..]);
    }
  }

  /**
   * Two or more entries with the same key, the first of them truthy, give
   * that key an array of their values in source order (`a = 1 a = 2` is
   * `{ a: [1, 2] }`, and the same with objects).
   */
  lemma RepeatedKeyArray(es: seq<Entry>, key: string)
    requires forall i :: 0 <= i < |es| ==> Sound(es[i]) && es[i].key.val == key
    requires |es| >= 2 && Truthy(Meaning(es[0]))
    ensures Lookup(ApplyAll([], es), key) == Some(Arr(Meanings(es)))
  {
    SameKeyApplies([], key, es);
    MeaningNotArray(es[0]);
    RepeatedKeyCollects([], key, Meanings(es));
  }

  /** Assigning only to the key of a one-field object keeps it a one-field object. */
  lemma {:induction false} OneField(f: Fields, key: string, vs: seq<Value>)
    requires |f| == 1 && f[0].0 == key
    ensures |AssignEach(f, key, vs)| == 1 && AssignEach(f, key, vs)[0].0 == key
    decreases |vs|
  {
    if vs != [] {
      OneField(Assign(f, key, vs[0]), key, vs[1..]);
    }
  }

  /** Repeated assignments to one key of an empty object leave it holding just the array. */
  lemma SingleKey(key: string, vs: seq<Value>)
    requires |vs| >= 2 && Truthy(vs[0]) && !vs[0].Arr?
    ensures AssignEach([], key, vs) == [(key, Arr(vs))]
  {
    RepeatedKeyCollects([], key, vs);
    assert Assign([], key, vs[0]) == [] + [(key, vs[0])] == [(key, vs[0])];
    assert AssignEach([], key, vs) == AssignEach([(key, vs[0])], key, vs[1..]);
    OneField([(key, vs[0])], key, vs[1..]);
  }

  /** The tokens of such entries parse to an object whose only key holds that array. */
  lemma RepeatedKeyParsed(es: seq<Entry>, key: string)
    requires forall i :: 0 <= i < |es| ==> Sound(es[i]) && es[i].key.val == key
    requires |es| >= 2 && Truthy(Meaning(es[0]))
    ensures ParseTokens(Stream(Spell(es), Eof)) == Ok([(key, Arr(Meanings(es)))])
  {
    RepeatedKeyArray(es, key);
    SameKeyApplies([], key, es);
    SingleKey(key, Meanings(es));
    SpelledDocument(es);
  }

  // ---------------------------------------------------------------------
  // What `parse` returns after a run of sound entries.

  /** `parse` on a token sequence that starts with the entries `es` goes on from their meaning. */
  lemma ParseAfter(st: Stream, es: seq<Entry>)
    requires forall i :: 0 <= i < |es| ==> Sound(es[i])
    requires EntriesAt(st, 0, es)
    ensures ParseTokens(st) == Returned(Block(st, WidthAll(es), false, ApplyAll([], es)))
  {
    TreeAfter(st, es);
    ParseIsTree(st);
  }

  lemma TreeAfter(st: Stream, es: seq<Entry>)
    requires forall i :: 0 <= i < |es| ==> Sound(es[i])
    requires EntriesAt(st, 0, es)
    ensures Tree(st) == Returned(Block(st, WidthAll(es), false, ApplyAll([], es)))
  {
    BlockReads(st, 0, false, [], es);
  }

  /**
   * A token sequence made of sound entries parses to what its entries
   * assign, in order; when the lexer fails, or hangs on a comment, after the
   * last entry, that is what `parse` reports instead.
   */
  lemma Document(st: Stream, es: seq<Entry>)
    requires forall i :: 0 <= i < |es| ==> Sound(es[i])
    requires EntriesAt(st, 0, es) && WidthAll(es) == |st.tokens|
    ensures ParseTokens(st) == match st.stop
      case Eof => Ok(ApplyAll([], es))
      case Fail(e) => Err(Lexical(e))
      case Hang => Diverges
  {
    ParseAfter(st, es);
  }

  /**
   * Input that ends inside an object opened after the entries `es` parses
   * without error, to the same object as if the object had been closed: the
   * entries read so far are in it.
   */
  lemma UnclosedObject(st: Stream, es: seq<Entry>, key: Token, op: Token, open: Token, body: seq<Entry>)
    requires forall i :: 0 <= i < |es| ==> Sound(es[i])
    requires forall i :: 0 <= i < |body| ==> Sound(body[i])
    requires key.kind == Identifier && op.kind == Equals && open.kind == BraceLeft
    requires EntriesAt(st, 0, es)
    requires var p := WidthAll(es);
      p + 2 < |st.tokens| && st.tokens[p] == key && st.tokens[p + 1] == op && st.tokens[p + 2] == open
      && EntriesAt(st, p + 3, body) && p + 3 + WidthAll(body) == |st.tokens|
    requires st.stop == Eof
    ensures ParseTokens(st) == Ok(Assign(ApplyAll([], es), key.val, Obj(ApplyAll([], body))))
  {
    BlockUnclosed(st, WidthAll(es), false, ApplyAll([], es), key, op, open, body);
    ParseAfter(st, es);
  }

  lemma BlockUnclosed(st: Stream, p: nat, nested: bool, f: Fields, key: Token, op: Token, open: Token, body: seq<Entry>)
    requires forall i :: 0 <= i < |body| ==> Sound(body[i])
    requires key.kind == Identifier && op.kind == Equals && open.kind == BraceLeft
    requires p + 2 < |st.tokens| && st.tokens[p] == key && st.tokens[p + 1] == op && st.tokens[p + 2] == open
    requires EntriesAt(st, p + 3, body) && p + 3 + WidthAll(body) == |st.tokens| && st.stop == Eof
    ensures Block(st, p, nested, f) == Ended(Assign(f, key.val, Obj(ApplyAll([], body))))
  {
    assert Item(st, p) == Got(key) && AfterKey(st, p) == Opens;
    BlockReads(st, p + 3, true, [], body);
    BlockOpens(st, p, nested, f, key);
  }

  /** A `}` where a key of the root object is due fails, whatever input follows it. */
  lemma RootBraceFails(st: Stream, es: seq<Entry>, t: Token)
    requires forall i :: 0 <= i < |es| ==> Sound(es[i])
    requires EntriesAt(st, 0, es) && Item(st, WidthAll(es)) == Got(t) && t.kind == BraceRight
    ensures ParseTokens(st) == Err(UnexpectedToken(t))
  {
    BlockNonKey(st, WidthAll(es), ApplyAll([], es), t);
    ParseAfter(st, es);
  }

  /** An `=`, `{`, number or string where a key is due fails. */
  lemma NonKeyFails(st: Stream, es: seq<Entry>, t: Token)
    requires forall i :: 0 <= i < |es| ==> Sound(es[i])
    requires EntriesAt(st, 0, es) && Item(st, WidthAll(es)) == Got(t)
    requires t.kind == Equals || t.kind == BraceLeft || t.kind == Number || t.kind == String
    ensures ParseTokens(st) == Err(UnexpectedToken(t))
  {
    BlockNonKey(st, WidthAll(es), ApplyAll([], es), t);
    ParseAfter(st, es);
  }

  lemma BlockNonKey(st: Stream, p: nat, f: Fields, t: Token)
    requires Item(st, p) == Got(t) && t.kind != Identifier
    ensures Block(st, p, false, f) == Error(UnexpectedToken(t))
  {
  }

  /** A key must be followed by `=`. */
  lemma MissingEqualsFails(st: Stream, es: seq<Entry>, key: Token, t: Token)
    requires forall i :: 0 <= i < |es| ==> Sound(es[i])
    requires EntriesAt(st, 0, es) && Item(st, WidthAll(es)) == Got(key) && key.kind == Identifier
    requires Item(st, WidthAll(es) + 1) == Got(t) && t.kind != Equals
    ensures ParseTokens(st) == Err(UnexpectedToken(t))
  {
    BlockMissingEquals(st, WidthAll(es), false, ApplyAll([], es), key, t);
    ParseAfter(st, es);
  }

  lemma BlockMissingEquals(st: Stream, p: nat, nested: bool, f: Fields, key: Token, t: Token)
    requires Item(st, p) == Got(key) && key.kind == Identifier
    requires Item(st, p + 1) == Got(t) && t.kind != Equals
    ensures Block(st, p, nested, f) == Error(UnexpectedToken(t))
  {
    assert AfterKey(st, p) == Bad(UnexpectedToken(t));
  }

  /** `key =` must be followed by an identifier, a string, a number or `{`. */
  lemma BadValueFails(st: Stream, es: seq<Entry>, key: Token, op: Token, t: Token)
    requires forall i :: 0 <= i < |es| ==> Sound(es[i])
    requires EntriesAt(st, 0, es) && Item(st, WidthAll(es)) == Got(key) && key.kind == Identifier
    requires Item(st, WidthAll(es) + 1) == Got(op) && op.kind == Equals
    requires Item(st, WidthAll(es) + 2) == Got(t) && (t.kind == Equals || t.kind == BraceRight)
    ensures ParseTokens(st) == Err(UnexpectedToken(t))
  {
    BlockBadValue(st, WidthAll(es), false, ApplyAll([], es), key, op, t);
    ParseAfter(st, es);
  }

  lemma BlockBadValue(st: Stream, p: nat, nested: bool, f: Fields, key: Token, op: Token, t: Token)
    requires Item(st, p) == Got(key) && key.kind == Identifier
    requires Item(st, p + 1) == Got(op) && op.kind == Equals
    requires Item(st, p + 2) == Got(t) && (t.kind == Equals || t.kind == BraceRight)
    ensures Block(st, p, nested, f) == Error(UnexpectedToken(t))
  {
    assert RightValue(t) == None;
    assert AfterKey(st, p) == Bad(UnexpectedToken(t));
  }

  /** Input that ends after a key, or after `key =`, fails. */
  lemma EndAfterKeyFails(st: Stream, es: seq<Entry>, n: nat)
    requires forall i :: 0 <= i < |es| ==> Sound(es[i])
    requires EntriesAt(st, 0, es) && st.stop == Eof
    requires var p := WidthAll(es);
      (n == 1 || n == 2) && p + n == |st.tokens| && st.tokens[p].kind == Identifier
      && (n == 2 ==> st.tokens[p + 1].kind == Equals)
    ensures ParseTokens(st) == Err(UnexpectedEnd)
  {
    BlockEndAfterKey(st, WidthAll(es), ApplyAll([], es), n);
    ParseAfter(st, es);
  }

  lemma BlockEndAfterKey(st: Stream, p: nat, f: Fields, n: nat)
    requires st.stop == Eof && (n == 1 || n == 2) && p + n == |st.tokens| && st.tokens[p].kind == Identifier
    requires n == 2 ==> st.tokens[p + 1].kind == Equals
    ensures Block(st, p, false, f) == Error(UnexpectedEnd)
  {
    assert AfterKey(st, p) == Bad(UnexpectedEnd);
  }
}
