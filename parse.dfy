/**
 * The parser (src/parse.ts): reads `key = value` entries from the token
 * sequence, opening a nested level on `key = {` and leaving it on `}`.
 *
 * Tokens are pulled one at a time as the generator hands them out, so an
 * error (or a comment that never ends) after the point where parsing fails
 * is never reached.  `Item(st, i)` is what the `i`-th pull gives.
 *
 * Two descriptions of the same parse are given and proved equal:
 *  - `Block`, a recursive descent over one nesting level, which is the
 *    reference meaning of the format;
 *  - `Loop`, the flat loop of the source over a stack of open levels, in
 *    which a level is copied into its parent's placeholder when it is closed
 *    (or when the input ends inside it).  The method `Parse` runs this loop
 *    over `Context` objects and is proved to compute it.
 */
module Parsing {
  import opened Types
  import opened Contexts
  import opened Lexing

  datatype ParseError =
    | Lexical(error: LexError)
    | UnexpectedToken(token: Token)
    /** The input ended after a key or its `=`: the source reads `.type` of
        an `undefined` token there and fails with a `TypeError`. */
    | UnexpectedEnd

  /** What `parse` does: return the root object, throw, or never return. */
  datatype Outcome = Ok(data: Fields) | Err(error: ParseError) | Diverges

  // ---------------------------------------------------------------------
  // Identifier values.

  function LowerChar(c: char): char {
    if 'A' <= c <= 'Z' then (c as int + 32) as char else c
  }

  /** `toLowerCase` on the ASCII strings identifiers are made of. */
  function Lower(s: string): string {
    if s == [] then [] else [LowerChar(s[0])] + Lower(s[1..])
  }

  /** `parseIdentifier`: `yes` and `no` in any letter case are booleans; any other identifier is its text. */
  function ParseIdentifier(val: string): Value {
    var l := Lower(val);
    if l == "yes" then Bool(true)
    else if l == "no" then Bool(false)
    else Str(val)
  }

  lemma LowerLength(s: string)
    ensures |Lower(s)| == |s|
    ensures forall i :: 0 <= i < |s| ==> Lower(s)[i] == LowerChar(s[i])
  {
    if s != [] {
      LowerLength(s[1..]);
    }
  }

  /** The letters of `yes` and `no` in either case, and nothing else, lower to the lower-case letter. */
  lemma LowerCharTo(c: char, low: char, up: char)
    requires 'a' <= low <= 'z' && up as int == low as int - 32
    ensures LowerChar(c) == low <==> c == low || c == up
  {
  }

  lemma ParseIdentifierCases(val: string)
    ensures ParseIdentifier(val) == Bool(true) <==>
      |val| == 3 && (val[0] == 'y' || val[0] == 'Y') && (val[1] == 'e' || val[1] == 'E') && (val[2] == 's' || val[2] == 'S')
    ensures ParseIdentifier(val) == Bool(false) <==>
      |val| == 2 && (val[0] == 'n' || val[0] == 'N') && (val[1] == 'o' || val[1] == 'O')
    ensures !ParseIdentifier(val).Bool? ==> ParseIdentifier(val) == Str(val)
  {
    LowerLength(val);
    var l := Lower(val);
    if |val| == 3 {
      LowerCharTo(val[0], 'y', 'Y');
      LowerCharTo(val[1], 'e', 'E');
      LowerCharTo(val[2], 's', 'S');
      assert l == "yes" <==> l[0] == 'y' && l[1] == 'e' && l[2] == 's';
    }
    if |val| == 2 {
      LowerCharTo(val[0], 'n', 'N');
      LowerCharTo(val[1], 'o', 'O');
      assert l == "no" <==> l[0] == 'n' && l[1] == 'o';
    }
  }

  // ---------------------------------------------------------------------
  // Pulling tokens.

  /** What the `pos`-th pull from the generator gives. */
  function Item(st: Stream, pos: nat): Pull {
    if pos < |st.tokens| then Got(st.tokens[pos]) else First(Stream([], st.stop))
  }

  /** What `key = right` stores, for a right-hand token other than `{`. */
  function RightValue(right: Token): Option<Value> {
    match right.kind
    case Identifier => Some(ParseIdentifier(right.val))
    case String => Some(Str(right.val))
    case Number => Some(Num(right.val))
    case _ => None
  }

  /** The right-hand side of the entry whose key is the `pos`-th token. */
  datatype Rhs = Scalar(value: Value) | Opens | Bad(error: ParseError) | Hangs

  /** Pulls the `=` and the right-hand side after the key at `pos`. */
  function AfterKey(st: Stream, pos: nat): (r: Rhs)
    ensures r.Scalar? || r.Opens? ==> pos + 2 < |st.tokens|
  {
    match Item(st, pos + 1)
    case Done => Bad(UnexpectedEnd)
    case Failed(e) => Bad(Lexical(e))
    case Diverged => Hangs
    case Got(op) =>
      if op.kind != Equals then Bad(UnexpectedToken(op))
      else match Item(st, pos + 2)
        case Done => Bad(UnexpectedEnd)
        case Failed(e) => Bad(Lexical(e))
        case Diverged => Hangs
        case Got(right) =>
          if right.kind == BraceLeft then Opens
          else match RightValue(right)
            case Some(v) => Scalar(v)
            case None => Bad(UnexpectedToken(right))
  }

  // ---------------------------------------------------------------------
  // The reference parse: recursive descent.

  datatype BlockResult =
    | Closed(fields: Fields, next: nat)
    | Ended(fields: Fields)
    | Error(error: ParseError)
    | Stuck

  /**
   * The entries of one level from the `pos`-th token on, added to `f`: the
   * level is closed by `}` (only when `nested`), or runs to the end of the
   * input, which leaves every open level as it stands.
   */
  function Block(st: Stream, pos: nat, nested: bool, f: Fields): (r: BlockResult)
    ensures r.Closed? ==> nested && pos < r.next <= |st.tokens|
    decreases |st.tokens| - pos
  {
    match Item(st, pos)
    case Done => Ended(f)
    case Failed(e) => Error(Lexical(e))
    case Diverged => Stuck
    case Got(t) =>
      if t.kind == BraceRight then
        if nested then Closed(f, pos + 1) else Error(UnexpectedToken(t))
      else if t.kind != Identifier then Error(UnexpectedToken(t))
      else match AfterKey(st, pos)
        case Bad(e) => Error(e)
        case Hangs => Stuck
        case Scalar(v) => Block(st, pos + 3, nested, Assign(f, t.val, v))
        case Opens =>
          match Block(st, pos + 3, true, [])
          case Closed(child, next) => Block(st, next, nested, Assign(f, t.val, Obj(child)))
          case Ended(child) => Ended(Assign(f, t.val, Obj(child)))
          case Error(e) => Error(e)
          case Stuck => Stuck
  }

  /** The parse of a whole token sequence by recursive descent. */
  function Tree(st: Stream): Outcome {
    Returned(Block(st, 0, false, []))
  }

  /** What `parse` returns once the root level has been read to `r`. */
  function Returned(r: BlockResult): Outcome {
    match r
    case Ended(f) => Ok(f)
    case Error(e) => Err(e)
    case _ => Diverges
  }

  // ---------------------------------------------------------------------
  // The source's loop, on values.

  /** An open level: the key it hangs under in the level below, and its entries. */
  datatype Level = Level(slot: string, data: Fields)

  /** `ctx.setData(key, v)` on the innermost level. */
  function SetTop(levels: seq<Level>, key: string, v: Value): (r: seq<Level>)
    requires |levels| > 0
    ensures |r| == |levels|
  {
    var top := levels[|levels| - 1];
    levels[..|levels| - 1] + [Level(top.slot, Assign(top.data, key, v))]
  }

  /** `ctx = ctx.setChild(key)`. */
  function Open(levels: seq<Level>, key: string): (r: seq<Level>)
    requires |levels| > 0
    ensures |r| == |levels| + 1
  {
    SetTop(levels, key, Obj([])) + [Level(key, [])]
  }

  /** `ctx = ctx.parent`, with the closed level copied into its placeholder. */
  function Close(levels: seq<Level>): (r: seq<Level>)
    requires |levels| > 1
    ensures |r| == |levels| - 1
  {
    var top := levels[|levels| - 1];
    var below := levels[|levels| - 2];
    levels[..|levels| - 2] + [Level(below.slot, Attach(below.data, top.slot, top.data))]
  }

  /** The root object once every open level has been copied into the one below. */
  function Unwind(levels: seq<Level>): Fields
    requires |levels| > 0
    decreases |levels|
  {
    if |levels| == 1 then levels[0].data else Unwind(Close(levels))
  }

  /** The `for` loop of `parse` from the `pos`-th pull on, with the open levels `levels`. */
  function Loop(st: Stream, pos: nat, levels: seq<Level>): Outcome
    requires |levels| > 0
    decreases |st.tokens| - pos
  {
    match Item(st, pos)
    case Done => Ok(Unwind(levels))
    case Failed(e) => Err(Lexical(e))
    case Diverged => Diverges
    case Got(t) =>
      if t.kind == BraceRight then
        // A `}` at the root level is one too many.
        if |levels| == 1 then Err(UnexpectedToken(t)) else Loop(st, pos + 1, Close(levels))
      else if t.kind != Identifier then Err(UnexpectedToken(t))
      else match AfterKey(st, pos)
        case Bad(e) => Err(e)
        case Hangs => Diverges
        case Scalar(v) => Loop(st, pos + 3, SetTop(levels, t.val, v))
        case Opens => Loop(st, pos + 3, Open(levels, t.val))
  }

  /** `parse` on the token sequence `st`. */
  function ParseTokens(st: Stream): Outcome {
    Loop(st, 0, [Level("", [])])
  }

  /** `parse(input)`. */
  function Parsed(input: string): Outcome {
    ParseTokens(Lex(input, 0))
  }

  // ---------------------------------------------------------------------
  // The loop follows the recursive descent.

  /** How the loop goes on once the level on top of `below` has been parsed to `r`. */
  function Resume(st: Stream, r: BlockResult, below: seq<Level>, slot: string): Outcome
    requires r.Closed? ==> below != []
  {
    match r
    case Closed(g, next) => Loop(st, next, Close(below + [Level(slot, g)]))
    case Ended(g) => Ok(Unwind(below + [Level(slot, g)]))
    case Error(e) => Err(e)
    case Stuck => Diverges
  }

  lemma {:induction false} LoopFollowsBlock(st: Stream, pos: nat, below: seq<Level>, slot: string, f: Fields)
    ensures Loop(st, pos, below + [Level(slot, f)]) == Resume(st, Block(st, pos, below != [], f), below, slot)
    decreases |st.tokens| - pos, 2
  {
    var levels := below + [Level(slot, f)];
    var nested := below != [];
    match Item(st, pos)
    case Done =>
    case Failed(e) =>
    case Diverged =>
    case Got(t) =>
      if t.kind == BraceRight {
        if nested {
          assert Close(levels) == Close(below + [Level(slot, f)]);
        }
      } else if t.kind == Identifier {
        match AfterKey(st, pos)
        case Bad(e) =>
        case Hangs =>
        case Scalar(v) =>
          var g := Assign(f, t.val, v);
          assert SetTop(levels, t.val, v) == below + [Level(slot, g)];
          LoopFollowsBlock(st, pos + 3, below, slot, g);
        case Opens =>
          OpenFollowsBlock(st, pos, below, slot, f, t);
      }
  }

  /** The loop on a key whose value opens a nested object. */
  lemma LoopOpens(st: Stream, pos: nat, levels: seq<Level>, t: Token)
    requires |levels| > 0
    requires Item(st, pos) == Got(t) && t.kind == Identifier && AfterKey(st, pos) == Opens
    ensures Loop(st, pos, levels) == Loop(st, pos + 3, Open(levels, t.val))
  {
  }

  /** The recursive descent on a key whose value opens a nested object. */
  lemma BlockOpens(st: Stream, pos: nat, nested: bool, f: Fields, t: Token)
    requires Item(st, pos) == Got(t) && t.kind == Identifier && AfterKey(st, pos) == Opens
    ensures Block(st, pos + 3, true, []).Closed? ==>
      var b := Block(st, pos + 3, true, []);
      Block(st, pos, nested, f) == Block(st, b.next, nested, Assign(f, t.val, Obj(b.fields)))
    ensures Block(st, pos + 3, true, []).Ended? ==>
      Block(st, pos, nested, f) == Ended(Assign(f, t.val, Obj(Block(st, pos + 3, true, []).fields)))
    ensures Block(st, pos + 3, true, []).Error? || Block(st, pos + 3, true, []).Stuck? ==>
      Block(st, pos, nested, f) == Block(st, pos + 3, true, [])
  {
  }

  /** `LoopFollowsBlock` for an entry whose value is a nested object. */
  lemma {:induction false} OpenFollowsBlock(st: Stream, pos: nat, below: seq<Level>, slot: string, f: Fields, t: Token)
    requires Item(st, pos) == Got(t) && t.kind == Identifier && AfterKey(st, pos) == Opens
    ensures Loop(st, pos, below + [Level(slot, f)]) == Resume(st, Block(st, pos, below != [], f), below, slot)
    decreases |st.tokens| - pos, 1
  {
    var levels := below + [Level(slot, f)];
    var outer := below + [Level(slot, Assign(f, t.val, Obj([])))];
    match Block(st, pos + 3, true, [])
    case Closed(child, next) =>
      ChildClosed(st, pos, below, slot, f, t);
    case Ended(child) =>
      ChildEnded(st, pos, below, slot, f, t);
    case Error(e) =>
      LoopOpens(st, pos, levels, t);
      assert Open(levels, t.val) == outer + [Level(t.val, [])];
      LoopFollowsBlock(st, pos + 3, outer, t.val, []);
      BlockOpens(st, pos, below != [], f, t);
    case Stuck =>
      LoopOpens(st, pos, levels, t);
      assert Open(levels, t.val) == outer + [Level(t.val, [])];
      LoopFollowsBlock(st, pos + 3, outer, t.val, []);
      BlockOpens(st, pos, below != [], f, t);
  }

  /** The nested object is closed by its `}`, and the parse goes on after it. */
  lemma {:induction false} ChildClosed(st: Stream, pos: nat, below: seq<Level>, slot: string, f: Fields, t: Token)
    requires Item(st, pos) == Got(t) && t.kind == Identifier && AfterKey(st, pos) == Opens
    requires Block(st, pos + 3, true, []).Closed?
    ensures Loop(st, pos, below + [Level(slot, f)]) == Resume(st, Block(st, pos, below != [], f), below, slot)
    decreases |st.tokens| - pos, 0
  {
    var levels := below + [Level(slot, f)];
    var outer := below + [Level(slot, Assign(f, t.val, Obj([])))];
    var child, next := Block(st, pos + 3, true, []).fields, Block(st, pos + 3, true, []).next;
    var g := Assign(f, t.val, Obj(child));
    calc {
      Loop(st, pos, levels);
      { LoopOpens(st, pos, levels, t);
        assert Open(levels, t.val) == outer + [Level(t.val, [])]; }
      Loop(st, pos + 3, outer + [Level(t.val, [])]);
      { LoopFollowsBlock(st, pos + 3, outer, t.val, []); }
      Loop(st, next, Close(outer + [Level(t.val, child)]));
      { AttachAfterPlaceholder(f, t.val, child);
        assert Close(outer + [Level(t.val, child)]) == below + [Level(slot, g)]; }
      Loop(st, next, below + [Level(slot, g)]);
      { LoopFollowsBlock(st, next, below, slot, g); }
      Resume(st, Block(st, next, below != [], g), below, slot);
      { BlockOpens(st, pos, below != [], f, t); }
      Resume(st, Block(st, pos, below != [], f), below, slot);
    }
  }

  /** The input ends inside the nested object. */
  lemma {:induction false} ChildEnded(st: Stream, pos: nat, below: seq<Level>, slot: string, f: Fields, t: Token)
    requires Item(st, pos) == Got(t) && t.kind == Identifier && AfterKey(st, pos) == Opens
    requires Block(st, pos + 3, true, []).Ended?
    ensures Loop(st, pos, below + [Level(slot, f)]) == Resume(st, Block(st, pos, below != [], f), below, slot)
    decreases |st.tokens| - pos, 0
  {
    var levels := below + [Level(slot, f)];
    var outer := below + [Level(slot, Assign(f, t.val, Obj([])))];
    var child := Block(st, pos + 3, true, []).fields;
    var g := Assign(f, t.val, Obj(child));
    calc {
      Loop(st, pos, levels);
      { LoopOpens(st, pos, levels, t);
        assert Open(levels, t.val) == outer + [Level(t.val, [])]; }
      Loop(st, pos + 3, outer + [Level(t.val, [])]);
      { LoopFollowsBlock(st, pos + 3, outer, t.val, []); }
      Ok(Unwind(outer + [Level(t.val, child)]));
      { assert Close(outer + [Level(t.val, child)]) == below + [Level(slot, Attach(Assign(f, t.val, Obj([])), t.val, child))]; }
      Ok(Unwind(below + [Level(slot, Attach(Assign(f, t.val, Obj([])), t.val, child))]));
      { AttachAfterPlaceholder(f, t.val, child); }
      Ok(Unwind(below + [Level(slot, g)]));
      { BlockOpens(st, pos, below != [], f, t); }
      Resume(st, Block(st, pos, below != [], f), below, slot);
    }
  }

  /** The source's loop and the recursive descent parse every token sequence alike. */
  lemma ParseIsTree(st: Stream)
    ensures ParseTokens(st) == Tree(st)
  {
    LoopFollowsBlock(st, 0, [], "", []);
    assert [] + [Level("", [])] == [Level("", [])];
  }

  // ---------------------------------------------------------------------
  // The parser on objects.

  /** What the lexer still holds after handing out `pos` tokens. */
  lemma PullAt(st: Stream, pos: nat)
    requires pos <= |st.tokens|
    ensures First(Stream(st.tokens[pos..], st.stop)) == Item(st, pos)
    ensures pos < |st.tokens| ==> Rest(Stream(st.tokens[pos..], st.stop)) == Stream(st.tokens[pos + 1..], st.stop)
  {
  }

  /** `lexer` has handed out the first `pos` tokens of `st`. */
  ghost predicate At(lexer: Lexer, st: Stream, pos: nat)
    reads lexer
  {
    lexer.Valid() && pos <= |st.tokens| && lexer.Tokens() == Stream(st.tokens[pos..], st.stop)
  }

  /** One `next()` on the token generator. */
  method Pull(lexer: Lexer, ghost st: Stream, ghost pos: nat) returns (p: Lexing.Pull)
    requires At(lexer, st, pos)
    modifies lexer
    ensures lexer.Valid() && p == Item(st, pos)
    ensures p.Got? ==> At(lexer, st, pos + 1)
  {
    PullAt(st, pos);
    p := lexer.NextToken();
  }

  /** `chain` is the path of contexts from the root to the current one, each the parent of the next. */
  ghost predicate Linked(chain: seq<Context>)
    decreases |chain|
  {
    if |chain| <= 1 then |chain| == 1 && chain[0].parent == null
    else
      var n := |chain| - 1;
      chain[n].parent == chain[n - 1] && chain[n] !in chain[..n] && Linked(chain[..n])
  }

  /**
   * The contexts of `chain`, from `root` to the current context `ctx`, are
   * among `made` and hold the open levels `levels`.
   */
  ghost predicate Tracks(root: Context, ctx: Context, chain: seq<Context>, levels: seq<Level>, made: set<Context>)
    reads chain
  {
    && Linked(chain) && chain[0] == root && ctx == chain[|chain| - 1]
    && (forall i :: 0 <= i < |chain| ==> chain[i] in made)
    && |levels| == |chain|
    && forall i :: 0 <= i < |chain| ==> levels[i] == Level(chain[i].slot, chain[i].data)
  }

  /** `ctx.setData(key, value)` on the current context. */
  method Store(root: Context, ctx: Context, key: string, value: Value, ghost chain: seq<Context>, ghost levels: seq<Level>, ghost made: set<Context>)
      returns (ghost levels': seq<Level>)
    requires Tracks(root, ctx, chain, levels, made)
    modifies ctx
    ensures Tracks(root, ctx, chain, levels', made) && levels' == SetTop(levels, key, value)
  {
    ctx.SetData(key, value);
    levels' := SetTop(levels, key, value);
  }

  /** `ctx = ctx.setChild(key)`. */
  method Descend(root: Context, ctx: Context, key: string, ghost chain: seq<Context>, ghost levels: seq<Level>, ghost made: set<Context>)
      returns (child: Context, ghost chain': seq<Context>, ghost levels': seq<Level>)
    requires Tracks(root, ctx, chain, levels, made)
    modifies ctx
    ensures fresh(child) && chain' == chain + [child]
    ensures Tracks(root, child, chain', levels', made + {child}) && levels' == Open(levels, key)
  {
    child := ctx.SetChild(key);
    chain' := chain + [child];
    levels' := Open(levels, key);
    assert chain'[..|chain|] == chain;
  }

  /** `ctx = ctx.parent`, the context left being written back into its placeholder. */
  method Ascend(root: Context, ctx: Context, ghost chain: seq<Context>, ghost levels: seq<Level>, ghost made: set<Context>)
      returns (parent: Context, ghost chain': seq<Context>, ghost levels': seq<Level>)
    requires Tracks(root, ctx, chain, levels, made) && |chain| > 1
    modifies ctx.parent
    ensures chain' == chain[..|chain| - 1]
    ensures Tracks(root, parent, chain', levels', made) && levels' == Close(levels)
  {
    assert ctx.parent == chain[|chain| - 2];
    ctx.WriteBack();
    parent := ctx.parent;
    chain' := chain[..|chain| - 1];
    levels' := Close(levels);
  }

  /** Pulls the `=` and the right-hand side after the key at `pos` (lines 73-98). */
  method ReadRight(lexer: Lexer, ghost st: Stream, ghost pos: nat) returns (rhs: Rhs)
    requires At(lexer, st, pos + 1)
    modifies lexer
    ensures lexer.Valid() && rhs == AfterKey(st, pos)
    ensures rhs.Scalar? || rhs.Opens? ==> At(lexer, st, pos + 3)
  {
    var op := Pull(lexer, st, pos + 1);
    if op.Done? {
      return Bad(UnexpectedEnd);
    } else if op.Failed? {
      return Bad(Lexical(op.error));
    } else if op.Diverged? {
      return Hangs;
    } else if op.token.kind != Equals {
      return Bad(UnexpectedToken(op.token));
    }
    var right := Pull(lexer, st, pos + 2);
    if right.Done? {
      return Bad(UnexpectedEnd);
    } else if right.Failed? {
      return Bad(Lexical(right.error));
    } else if right.Diverged? {
      return Hangs;
    } else if right.token.kind == BraceLeft {
      return Opens;
    }
    match RightValue(right.token)
    case Some(v) =>
      rhs := Scalar(v);
    case None =>
      rhs := Bad(UnexpectedToken(right.token));
  }

  /**
   * The entry whose key is the `pos`-th token, `key` (lines 72-98): its
   * value is stored in the current context, or it opens a child context, or
   * the parse stops with `stop`.
   */
  method Entry(lexer: Lexer, root: Context, ctx: Context, key: Token, ghost st: Stream, ghost pos: nat,
               ghost chain: seq<Context>, ghost levels: seq<Level>, ghost made: set<Context>)
      returns (stop: Option<Outcome>, ctx': Context, ghost chain': seq<Context>, ghost levels': seq<Level>)
    requires At(lexer, st, pos + 1) && Item(st, pos) == Got(key) && key.kind == Identifier
    requires Tracks(root, ctx, chain, levels, made)
    modifies lexer, ctx
    ensures Tracks(root, ctx', chain', levels', made + {ctx'}) && (ctx' in made || fresh(ctx'))
    ensures stop.Some? ==> stop.value == Loop(st, pos, levels)
    ensures stop.None? ==> At(lexer, st, pos + 3) && Loop(st, pos + 3, levels') == Loop(st, pos, levels)
  {
    stop, ctx', chain', levels' := None, ctx, chain, levels;
    var rhs := ReadRight(lexer, st, pos);
    match rhs
    case Bad(e) =>
      stop := Some(Err(e));
    case Hangs =>
      stop := Some(Diverges);
    case Scalar(v) =>
      levels' := Store(root, ctx, key.val, v, chain, levels, made);
    case Opens =>
      ctx', chain', levels' := Descend(root, ctx, key.val, chain, levels, made);
  }

  /** A `}` (lines 100-107): an error at the root, else the current context is left. */
  method Leave(root: Context, ctx: Context, token: Token, ghost st: Stream, ghost pos: nat,
               ghost chain: seq<Context>, ghost levels: seq<Level>, ghost made: set<Context>)
      returns (stop: Option<Outcome>, ctx': Context, ghost chain': seq<Context>, ghost levels': seq<Level>)
    requires Item(st, pos) == Got(token) && token.kind == BraceRight
    requires Tracks(root, ctx, chain, levels, made)
    modifies ctx.parent
    ensures Tracks(root, ctx', chain', levels', made)
    ensures stop.Some? ==> stop.value == Loop(st, pos, levels)
    ensures stop.None? ==> Loop(st, pos + 1, levels') == Loop(st, pos, levels)
  {
    stop, ctx', chain', levels' := None, ctx, chain, levels;
    if ctx.parent == null {
      stop := Some(Err(UnexpectedToken(token)));
    } else {
      ctx', chain', levels' := Ascend(root, ctx, chain, levels, made);
    }
  }

  /** Acts on the `pos`-th token, `token` (lines 71-110). */
  method Act(lexer: Lexer, root: Context, ctx: Context, token: Token, ghost st: Stream, ghost pos: nat,
             ghost chain: seq<Context>, ghost levels: seq<Level>, ghost made: set<Context>)
      returns (stop: Option<Outcome>, ctx': Context, ghost pos': nat, ghost chain': seq<Context>, ghost levels': seq<Level>)
    requires At(lexer, st, pos + 1) && Item(st, pos) == Got(token)
    requires Tracks(root, ctx, chain, levels, made)
    modifies lexer, made
    ensures Tracks(root, ctx', chain', levels', made + {ctx'}) && (ctx' in made || fresh(ctx'))
    ensures stop.Some? ==> stop.value == Loop(st, pos, levels)
    ensures stop.None? ==> At(lexer, st, pos') && pos < pos' && Loop(st, pos', levels') == Loop(st, pos, levels)
  {
    pos' := pos;
    if token.kind == BraceRight {
      stop, ctx', chain', levels' := Leave(root, ctx, token, st, pos, chain, levels, made);
      pos' := pos + 1;
    } else if token.kind != Identifier {
      stop, ctx', chain', levels' := Some(Err(UnexpectedToken(token))), ctx, chain, levels;
    } else {
      stop, ctx', chain', levels' := Entry(lexer, root, ctx, token, st, pos, chain, levels, made);
      pos' := pos + 3;
    }
  }

  /** The input has ended: the contexts still open are written back into their parents, innermost first. */
  method Finish(root: Context, ctx: Context, ghost chain: seq<Context>, ghost levels: seq<Level>, ghost made: set<Context>)
    requires Tracks(root, ctx, chain, levels, made)
    modifies made
    ensures root.data == Unwind(levels)
  {
    var ctx := ctx;
    ghost var open, levels' := chain, levels;
    while ctx.parent != null
      invariant Tracks(root, ctx, open, levels', made)
      invariant Unwind(levels') == Unwind(levels)
      decreases |open|
    {
      ctx, open, levels' := Ascend(root, ctx, open, levels', made);
    }
  }

  /** How the loop of `parse` goes on after one turn. */
  datatype Turn = Continue | Finished | Stop(outcome: Outcome)

  /** One turn of the loop of `parse` (lines 70-110): pulls a token and acts on it. */
  method Step(lexer: Lexer, root: Context, ctx: Context, ghost st: Stream, ghost pos: nat,
              ghost chain: seq<Context>, ghost levels: seq<Level>, ghost made: set<Context>)
      returns (turn: Turn, ctx': Context, ghost pos': nat, ghost chain': seq<Context>, ghost levels': seq<Level>)
    requires At(lexer, st, pos) && Tracks(root, ctx, chain, levels, made)
    modifies lexer, made
    ensures Tracks(root, ctx', chain', levels', made + {ctx'}) && (ctx' in made || fresh(ctx'))
    ensures turn.Finished? ==> Loop(st, pos, levels) == Ok(Unwind(levels)) && levels' == levels
    ensures turn.Stop? ==> turn.outcome == Loop(st, pos, levels)
    ensures turn.Continue? ==> At(lexer, st, pos') && pos < pos' && Loop(st, pos', levels') == Loop(st, pos, levels)
  {
    ctx', pos', chain', levels' := ctx, pos, chain, levels;
    var p := Pull(lexer, st, pos);
    if p.Done? {
      turn := Finished;
    } else if p.Failed? {
      turn := Stop(Err(Lexical(p.error)));
    } else if p.Diverged? {
      turn := Stop(Diverges);
    } else {
      var stop;
      stop, ctx', pos', chain', levels' := Act(lexer, root, ctx, p.token, st, pos, chain, levels, made);
      turn := if stop.Some? then Stop(stop.value) else Continue;
    }
  }

  /**
   * The body of `parse` once the lexer exists: pulls tokens from `lexer`
   * and stores entries through a chain of `Context` objects.
   */
  method ParseFrom(lexer: Lexer, ghost st: Stream) returns (r: Outcome)
    requires lexer.Valid() && lexer.Tokens() == st
    modifies lexer
    ensures r == ParseTokens(st)
  {
    var root := new Context.Root();
    var ctx: Context := root;
    ghost var pos: nat := 0;
    ghost var chain: seq<Context> := [root];
    ghost var levels := [Level("", [])];
    ghost var made := {root};
    assert st.tokens[0..] == st.tokens;
    var turn := Continue;
    while turn.Continue?
      invariant fresh(made) && Tracks(root, ctx, chain, levels, made)
      invariant turn.Continue? ==> At(lexer, st, pos) && Loop(st, pos, levels) == ParseTokens(st)
      invariant turn.Finished? ==> Ok(Unwind(levels)) == ParseTokens(st)
      invariant turn.Stop? ==> turn.outcome == ParseTokens(st)
      decreases if turn.Continue? then |st.tokens| - pos + 1 else 0
    {
      turn, ctx, pos, chain, levels := Step(lexer, root, ctx, st, pos, chain, levels, made);
      made := made + {ctx};
    }
    if turn.Stop? {
      return turn.outcome;
    }
    Finish(root, ctx, chain, levels, made);
    return Ok(root.data);
  }

  /** `parse(input)`. */
  method Parse(input: string) returns (r: Outcome)
    ensures r == Parsed(input)
  {
    var lexer := new Lexer(input);
    r := ParseFrom(lexer, Lex(input, 0));
  }
}
