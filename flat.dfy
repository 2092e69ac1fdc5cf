/**
 * The one-line form of `stringify` in compact mode (src/stringify.ts).
 *
 * `Flat` writes every entry as `key = value ` and a nested object as
 * `{ entries }`.  For objects whose keys and texts need no quoting
 * repairs (`Plain`), `Stringified(obj, 0, false)` is exactly `Flat(obj)`,
 * and a nested level `L` differs only by a lead `Lead(L)`: what is left
 * of the `L` tabs of its first line once one tab is dropped and runs are
 * collapsed.
 */
module FlatForm {
  import opened Types
  import opened Stringifying

  // ---------------------------------------------------------------------
  // Collapsing whitespace runs piece by piece.

  predicate AllSpace(w: string) {
    forall i :: 0 <= i < |w| ==> IsSpace(w[i])
  }

  /** What `.replace(/\s{2,}/g, ' ')` makes of one whole whitespace run. */
  function Squash(w: string): string {
    if |w| >= 2 then " " else w
  }

  lemma {:induction false} SpaceRunIs(s: string, n: nat)
    requires n <= |s| && (forall i :: 0 <= i < n ==> IsSpace(s[i])) && (n < |s| ==> !IsSpace(s[n]))
    ensures SpaceRun(s) == n
    decreases n
  {
    if n > 0 {
      assert IsSpace(s[0]);
      forall i | 0 <= i < n - 1 ensures IsSpace(s[1..][i]) {
        assert s[1..][i] == s[i + 1];
      }
      SpaceRunIs(s[1..], n - 1);
    }
  }

  /** `s` is empty or ends in a character that is not whitespace. */
  predicate EndsVisible(s: string) {
    s == [] || !IsSpace(s[|s| - 1])
  }

  /** `s` is empty or starts with a character that is not whitespace. */
  predicate StartsVisible(s: string) {
    s == [] || !IsSpace(s[0])
  }

  /** A whitespace run that stops inside `a` does not see what follows `a`. */
  lemma {:induction false} SpaceRunPrefix(a: string, b: string)
    requires a != [] && EndsVisible(a)
    ensures SpaceRun(a + b) == SpaceRun(a)
    decreases |a|
  {
    var ab := a + b;
    assert ab[0] == a[0];
    if IsSpace(a[0]) {
      assert ab[1..] == a[1..] + b;
      SpaceRunPrefix(a[1..], b);
    }
  }

  /** One step of `CollapseAppend` over a run of two or more whitespace characters. */
  lemma AppendLong(a: string, b: string)
    requires a != [] && EndsVisible(a) && SpaceRun(a) >= 2
    requires Collapse((a + b)[SpaceRun(a)..]) == Collapse(a[SpaceRun(a)..]) + Collapse(b)
    ensures Collapse(a + b) == Collapse(a) + Collapse(b)
  {
    SpaceRunPrefix(a, b);
  }

  /** One step of `CollapseAppend` over a single character. */
  lemma AppendShort(a: string, b: string)
    requires a != [] && EndsVisible(a) && SpaceRun(a) < 2
    requires Collapse((a + b)[1..]) == Collapse(a[1..]) + Collapse(b)
    ensures Collapse(a + b) == Collapse(a) + Collapse(b)
  {
    SpaceRunPrefix(a, b);
    assert (a + b)[0] == a[0];
  }

  /** Collapsing splits after a character that is not whitespace. */
  lemma {:induction false} CollapseAppend(a: string, b: string)
    requires EndsVisible(a)
    ensures Collapse(a + b) == Collapse(a) + Collapse(b)
    decreases |a|
  {
    var ab := a + b;
    if a == [] {
      assert ab == b;
    } else {
      var n := SpaceRun(a);
      var m := if n >= 2 then n else 1;
      assert !IsSpace(a[|a| - 1]);
      assert m <= |a| && (n >= 2 ==> n < |a|);
      var a' := a[m..];
      assert ab[m..] == a' + b;
      assert a' == [] || a'[|a'| - 1] == a[|a| - 1];
      CollapseAppend(a', b);
      if n >= 2 {
        AppendLong(a, b);
      } else {
        AppendShort(a, b);
      }
    }
  }

  /** A whitespace run before a character that is not whitespace is squashed on its own. */
  lemma CollapseRun(w: string, y: string)
    requires AllSpace(w) && StartsVisible(y)
    ensures Collapse(w + y) == Squash(w) + Collapse(y)
  {
    var s := w + y;
    SpaceRunIs(s, |w|);
    if |w| >= 2 {
      assert s[|w|..] == y;
    } else if |w| == 1 {
      assert s[0] == w[0] && s[1..] == y && w == [w[0]];
    } else {
      assert s == y;
    }
  }

  /** Text, a whitespace run, text: the run is squashed and the two sides collapse apart. */
  lemma CollapseJoin(x: string, w: string, y: string)
    requires EndsVisible(x) && AllSpace(w) && StartsVisible(y)
    ensures Collapse(x + w + y) == Collapse(x) + Squash(w) + Collapse(y)
  {
    assert x + w + y == x + (w + y);
    CollapseAppend(x, w + y);
    CollapseRun(w, y);
  }

  // ---------------------------------------------------------------------
  // Line breaks and tabs.

  lemma NewlinesAppend(a: string, b: string)
    ensures Newlines(a + b) == Newlines(a) + Newlines(b)
  {
  }

  lemma NewlinesNone(s: string)
    requires '\n' !in s
    ensures Newlines(s) == s
  {
  }

  lemma DropFirstTabNone(s: string)
    requires '\t' !in s
    ensures DropFirstTab(s) == s
  {
    DropFirstTabSpec(s);
  }

  lemma TabsCons(level: nat)
    requires level >= 1
    ensures Tabs(level) == "\t" + Tabs(level - 1)
  {
  }

  lemma NewlinesJoin(a: string, b: string)
    ensures Newlines(a + "\n" + b) == Newlines(a) + " " + Newlines(b)
  {
    NewlinesAppend(a + "\n", b);
    NewlinesAppend(a, "\n");
  }

  // ---------------------------------------------------------------------
  // The one-line form.

  /** A key written as it stands: not empty, no whitespace. */
  predicate PlainKey(k: string) {
    k != [] && !HasSpace(k)
  }

  /** A text compact mode leaves as it is: not empty, no line break or tab, no two whitespace characters in a row. */
  predicate PlainText(s: string) {
    s != [] && '\n' !in s && '\t' !in s && Spaced(s)
  }

  /** A value that compact mode writes without touching its texts: no arrays, plain keys and plain texts. */
  predicate Plain(v: Value)
    decreases v
  {
    match v
    case Bool(_) => true
    case Num(lexeme) => PlainText(lexeme)
    case Str(s) => PlainText(s)
    case Obj(fields) => forall i :: 0 <= i < |fields| ==> PlainKey(fields[i].0) && Plain(fields[i].1)
    case Arr(_) => false
  }

  /** A value on one line: a scalar as `stringify` shows it, an object as `{ entries }`. */
  function FlatText(v: Value): string
    requires !v.Arr?
    decreases v, 0
  {
    match v
    case Obj(fields) => "{ " + Flat(fields) + "}"
    case Bool(_) => Shown(ScalarText(v))
    case Num(_) => Shown(ScalarText(v))
    case Str(_) => Shown(ScalarText(v))
  }

  /** The entries on one line, each as `key = value ` (arrays left out). */
  function Flat(obj: Fields): string
    decreases obj, 1
  {
    if obj == [] then "" else FlatEntry(obj[0]) + Flat(obj[1..])
  }

  function FlatEntry(entry: (string, Value)): string
    decreases entry, 1
  {
    if entry.1.Arr? then "" else entry.0 + " = " + FlatText(entry.1) + " "
  }

  /** What compact mode leaves of the `level` tabs that start a nested level: one is dropped, the rest squashed. */
  function Lead(level: nat): string
    requires level >= 1
  {
    Squash(Tabs(level - 1))
  }

  lemma LeadCases(level: nat)
    requires level >= 1
    ensures Lead(level) == if level == 1 then "" else if level == 2 then "\t" else " "
  {
  }

  lemma PlainParts(obj: Fields)
    requires obj != [] && Plain(Obj(obj))
    ensures PlainKey(obj[0].0) && Plain(obj[0].1) && Plain(Obj(obj[1..]))
  {
    forall i | 0 <= i < |obj| - 1
      ensures PlainKey(obj[1..][i].0) && Plain(obj[1..][i].1)
    {
      assert obj[1..][i] == obj[i + 1];
    }
  }

  lemma KeyPlain(k: string)
    requires PlainKey(k)
    ensures !IsSpace(k[0]) && !IsSpace(k[|k| - 1]) && Spaced(k) && '\n' !in k && '\t' !in k
  {
  }

  /** A plain scalar's text: no whitespace at either end, no line break or tab, nothing to collapse. */
  lemma ShownPlain(v: Value)
    requires Plain(v) && !v.Obj?
    ensures var t := Shown(ScalarText(v));
      t != [] && !IsSpace(t[0]) && !IsSpace(t[|t| - 1]) && '\n' !in t && '\t' !in t && Spaced(t)
  {
    var s := ScalarText(v);
    assert PlainText(s);
    if HasSpace(s) {
      var t := "\"" + s + "\"";
      forall i | 0 <= i < |t| - 1
        ensures !IsSpace(t[i]) || !IsSpace(t[i + 1])
      {
        if 1 <= i < |t| - 2 {
          assert t[i] == s[i - 1] && t[i + 1] == s[i];
        }
      }
    }
  }

  // ---------------------------------------------------------------------
  // The text between the replacements.

  /** A value's text after `.replace(/\n/g, ' ')`. */
  function RawText(v: Value, level: nat): string
    requires !v.Arr?
  {
    if v.Obj? then "{ " + Stringified(v.fields, level + 1, false) + Tabs(level) + "}" else Shown(ScalarText(v))
  }

  /** The lines of `obj` after `.replace(/\n/g, ' ')`. */
  function RawBody(obj: Fields, level: nat): string {
    if obj == [] then ""
    else (if obj[0].1.Arr? then "" else Tabs(level) + obj[0].0 + " = " + RawText(obj[0].1, level) + " ") + RawBody(obj[1..], level)
  }

  /** `RawBody` from the first key on, the padding of the first line left out. */
  function Chain(obj: Fields, level: nat): string
    requires obj != [] && !obj[0].1.Arr?
  {
    obj[0].0 + " = " + RawText(obj[0].1, level) + " " + RawBody(obj[1..], level)
  }

  lemma NewlinesLine(k: string, v: Value, level: nat)
    requires PlainKey(k) && Plain(v)
    ensures Newlines(Line((k, v), level)) == Tabs(level) + k + " = " + RawText(v, level) + " "
  {
    var pre := Tabs(level) + k + " = ";
    KeyPlain(k);
    assert '\n' !in pre;
    if v.Obj? {
      ObjectLine(pre, k, v.fields, level);
    } else {
      ShownPlain(v);
      ScalarLine(pre, k, v, level);
    }
  }

  lemma ScalarLine(pre: string, k: string, v: Value, level: nat)
    requires pre == Tabs(level) + k + " = " && '\n' !in pre
    requires !v.Obj? && !v.Arr? && '\n' !in Shown(ScalarText(v))
    ensures Newlines(Line((k, v), level)) == pre + RawText(v, level) + " "
  {
    var t := Shown(ScalarText(v));
    assert Line((k, v), level) == (pre + t) + "\n" + "";
    NewlinesNone(pre + t);
    NewlinesJoin(pre + t, "");
  }

  lemma ObjectLine(pre: string, k: string, fields: Fields, level: nat)
    requires pre == Tabs(level) + k + " = " && '\n' !in pre
    ensures Newlines(Line((k, Obj(fields)), level)) == pre + RawText(Obj(fields), level) + " "
  {
    CompactOutput(fields, level + 1);
    NewlinesObject(Tabs(level), k, Stringified(fields, level + 1, false));
  }

  /** The line of a nested object, `key = {`, its entries and the padded `}`, with line breaks made blanks. */
  lemma NewlinesObject(t: string, k: string, s: string)
    requires '\n' !in t && '\n' !in k && '\n' !in s
    ensures Newlines(t + (k + " = " + ("{\n" + s + (t + "}")) + "\n")) == t + k + " = " + ("{ " + s + t + "}") + " "
  {
    var open, close := "{\n" + s, t + "}";
    var text := open + close;
    var x := k + " = " + text + "\n";
    NewlinesAppend(t, x);
    NewlinesAppend(k + " = " + text, "\n");
    NewlinesAppend(k + " = ", text);
    NewlinesAppend(open, close);
    NewlinesAppend("{\n", s);
    NewlinesNone(t);
    NewlinesNone(k + " = ");
    NewlinesNone(s);
    NewlinesNone(close);
    assert Newlines("{\n") == "{ ";
    assert Newlines("\n") == " ";
  }

  lemma {:induction false} NewlinesBody(obj: Fields, level: nat)
    requires Plain(Obj(obj))
    ensures Newlines(Body(obj, level)) == RawBody(obj, level)
    decreases obj
  {
    if obj != [] {
      PlainParts(obj);
      NewlinesAppend(Line(obj[0], level), Body(obj[1..], level));
      NewlinesBody(obj[1..], level);
      NewlinesLine(obj[0].0, obj[0].1, level);
    }
  }

  // ---------------------------------------------------------------------
  // Ends of the one-line form.

  /** A plain value on one line has no tab and no whitespace at either end. */
  lemma {:induction false} FlatTextEnds(v: Value)
    requires Plain(v)
    ensures var t := FlatText(v); t != [] && !IsSpace(t[0]) && !IsSpace(t[|t| - 1]) && '\t' !in t
    decreases v, 0
  {
    if v.Obj? {
      FlatEnds(v.fields);
    } else {
      ShownPlain(v);
    }
  }

  /** Plain entries on one line: no tab, a visible first character, and a single blank at the end. */
  lemma {:induction false} FlatEnds(obj: Fields)
    requires Plain(Obj(obj))
    ensures var t := Flat(obj);
      '\t' !in t && (obj != [] ==> |t| >= 2 && !IsSpace(t[0]) && t[|t| - 1] == ' ' && !IsSpace(t[|t| - 2]))
    decreases obj, 1
  {
    if obj != [] {
      PlainParts(obj);
      FlatEntryEnds(obj[0]);
      FlatEnds(obj[1..]);
    }
  }

  lemma {:induction false} FlatEntryEnds(entry: (string, Value))
    requires PlainKey(entry.0) && Plain(entry.1)
    ensures var t := FlatEntry(entry);
      '\t' !in t && |t| >= 2 && !IsSpace(t[0]) && t[|t| - 1] == ' ' && !IsSpace(t[|t| - 2])
    decreases entry, 1
  {
    KeyPlain(entry.0);
    FlatTextEnds(entry.1);
  }

  // ---------------------------------------------------------------------
  // Collapsing the pieces.

  lemma TabsSpace(level: nat)
    ensures AllSpace(Tabs(level)) && '\n' !in Tabs(level)
  {
  }

  lemma LeadSpace(level: nat)
    requires level >= 1
    ensures AllSpace(Lead(level))
  {
  }

  lemma SquashBlank(w: string)
    ensures Squash(" " + w) == " "
  {
  }

  lemma SpacedSuffix(a: string, b: string)
    requires Spaced(a + b)
    ensures Spaced(b)
  {
    var s := a + b;
    forall i | 0 <= i < |b| - 1
      ensures !IsSpace(b[i]) || !IsSpace(b[i + 1])
    {
      assert b[i] == s[|a| + i] && b[i + 1] == s[|a| + i + 1];
    }
  }

  lemma SpacedPrefix(s: string, n: nat)
    requires Spaced(s) && n <= |s|
    ensures Spaced(s[..n])
  {
    forall i | 0 <= i < n - 1
      ensures !IsSpace(s[..n][i]) || !IsSpace(s[..n][i + 1])
    {
      assert s[..n][i] == s[i] && s[..n][i + 1] == s[i + 1];
    }
  }

  lemma CollapseVisibleChar(c: char)
    requires !IsSpace(c)
    ensures Collapse([c]) == [c]
  {
  }

  lemma KeyedSplit(k: string, r: string)
    ensures k + " = " + r == k + " " + ("= " + r)
  {
  }

  /** `= value`: the blank stays and the value collapses on its own. */
  lemma AssignCollapse(r: string, fr: string)
    requires StartsVisible(r) && Collapse(r) == fr
    ensures Collapse("= " + r) == "= " + fr
  {
    assert "= " + r == "=" + " " + r;
    CollapseJoin("=", " ", r);
    CollapseVisibleChar('=');
  }

  /** `key = value`: the single blanks stay and the value collapses on its own. */
  lemma KeyedCollapse(k: string, r: string, fr: string)
    requires PlainKey(k)
    requires r != [] && !IsSpace(r[0]) && Collapse(r) == fr
    ensures Collapse(k + " = " + r) == k + " = " + fr
  {
    KeyPlain(k);
    assert EndsVisible(k) && Spaced(k);
    CollapseKeepsSpaced(k);
    AssignCollapse(r, fr);
    KeyedJoin(k, r, fr);
  }

  lemma KeyedJoin(k: string, r: string, fr: string)
    requires EndsVisible(k) && Collapse(k) == k && Collapse("= " + r) == "= " + fr
    ensures Collapse(k + " = " + r) == k + " = " + fr
  {
    KeyedSplit(k, r);
    CollapseJoin(k, " ", "= " + r);
    KeyedSplit(k, fr);
  }

  /** An empty nested object: `{ ` and the padding before `}` collapse to one blank. */
  lemma BracedEmpty(tabs: string)
    requires AllSpace(tabs)
    ensures Collapse("{ " + "" + tabs + "}") == "{ }"
  {
    CollapseVisibleChar('{');
    CollapseVisibleChar('}');
    assert "{ " + "" + tabs + "}" == "{" + (" " + tabs) + "}";
    CollapseJoin("{", " " + tabs, "}");
    SquashBlank(tabs);
  }

  lemma BracedSplit(lead: string, f: string, c: string, tabs: string)
    requires f == c + " "
    ensures "{ " + (lead + f) + tabs + "}" == "{" + (" " + lead) + (c + (" " + tabs) + "}")
  {
  }

  lemma BracedJoin(f: string, c: string)
    requires f == c + " "
    ensures "{" + " " + (c + " " + "}") == "{ " + f + "}"
  {
  }

  /** A nested object with entries: the lead after `{ ` and the padding before `}` collapse to one blank each. */
  lemma BracedCollapse(lead: string, f: string, tabs: string)
    requires AllSpace(lead) && AllSpace(tabs)
    requires |f| >= 2 && !IsSpace(f[0]) && f[|f| - 1] == ' ' && !IsSpace(f[|f| - 2]) && Spaced(f)
    ensures Collapse("{ " + (lead + f) + tabs + "}") == "{ " + f + "}"
  {
    var c := f[..|f| - 1];
    assert f == c + " ";
    SpacedPrefix(f, |f| - 1);
    var inner := c + (" " + tabs) + "}";
    assert inner[0] == c[0];
    calc {
      Collapse("{ " + (lead + f) + tabs + "}");
      { BracedSplit(lead, f, c, tabs); }
      Collapse("{" + (" " + lead) + inner);
      { CollapseJoin("{", " " + lead, inner); }
      Collapse("{") + Squash(" " + lead) + Collapse(inner);
      { CollapseJoin(c, " " + tabs, "}"); }
      Collapse("{") + Squash(" " + lead) + (Collapse(c) + Squash(" " + tabs) + Collapse("}"));
      { CollapseVisibleChar('{'); CollapseVisibleChar('}'); SquashBlank(lead); SquashBlank(tabs); CollapseKeepsSpaced(c); }
      "{" + " " + (c + " " + "}");
      { BracedJoin(f, c); }
      "{ " + f + "}";
    }
  }

  /** The first line's `level` tabs: one is dropped, the rest squash to `Lead(level)`. */
  lemma DropLead(level: nat, chain: string)
    requires level >= 1 && chain != [] && !IsSpace(chain[0])
    ensures Collapse(DropFirstTab(Tabs(level) + chain)) == Lead(level) + Collapse(chain)
  {
    TabsCons(level);
    assert Tabs(level) + chain == "\t" + (Tabs(level - 1) + chain);
    assert DropFirstTab("\t" + (Tabs(level - 1) + chain)) == Tabs(level - 1) + chain;
    TabsSpace(level - 1);
    assert Tabs(level - 1) + chain == [] + Tabs(level - 1) + chain;
    CollapseJoin([], Tabs(level - 1), chain);
  }

  // ---------------------------------------------------------------------
  // Compact mode is the one-line form.

  /** The raw lines of plain entries: the first line's padding, then `Chain`, which starts with a key. */
  lemma RawBodyChain(obj: Fields, level: nat)
    requires obj != [] && Plain(Obj(obj))
    ensures !obj[0].1.Arr? && RawBody(obj, level) == Tabs(level) + Chain(obj, level)
    ensures Chain(obj, level) != [] && !IsSpace(Chain(obj, level)[0])
  {
    PlainParts(obj);
    KeyPlain(obj[0].0);
  }

  /** `Chain` of two or more entries: the first entry, the blank and padding between lines, the rest. */
  lemma ChainStep(obj: Fields, level: nat)
    requires |obj| >= 2 && Plain(Obj(obj))
    ensures !obj[0].1.Arr? && !obj[1].1.Arr?
    ensures Chain(obj, level) == (obj[0].0 + " = " + RawText(obj[0].1, level)) + (" " + Tabs(level)) + Chain(obj[1..], level)
    ensures Chain(obj[1..], level) != [] && !IsSpace(Chain(obj[1..], level)[0])
  {
    PlainParts(obj);
    RawBodyChain(obj[1..], level);
  }

  /** At a nested level, compact mode writes the entries on one line after the lead. */
  lemma {:induction false} LevelForm(obj: Fields, level: nat)
    requires level >= 1 && Plain(Obj(obj))
    ensures Stringified(obj, level, false) == if obj == [] then "" else Lead(level) + Flat(obj)
    decreases obj, 3
  {
    if obj != [] {
      RawBodyChain(obj, level);
      calc {
        Stringified(obj, level, false);
        Collapse(DropFirstTab(Newlines(Body(obj, level))));
        { NewlinesBody(obj, level); }
        Collapse(DropFirstTab(RawBody(obj, level)));
        Collapse(DropFirstTab(Tabs(level) + Chain(obj, level)));
        { DropLead(level, Chain(obj, level)); }
        Lead(level) + Collapse(Chain(obj, level));
        { Tail(obj, level); }
        Lead(level) + Flat(obj);
      }
    }
  }

  /** From the first key on, compact mode makes `Flat` of the raw lines. */
  lemma {:induction false} Tail(obj: Fields, level: nat)
    requires obj != [] && Plain(Obj(obj))
    ensures !obj[0].1.Arr? && Collapse(Chain(obj, level)) == Flat(obj)
    decreases obj, 2
  {
    PlainParts(obj);
    ItemCollapse(obj[0], level);
    if |obj| == 1 {
      TailLast(obj, level);
    } else {
      Tail(obj[1..], level);
      TailStep(obj, level);
    }
  }

  /** `Tail` of a single entry. */
  lemma TailLast(obj: Fields, level: nat)
    requires |obj| == 1 && PlainKey(obj[0].0) && Plain(obj[0].1)
    requires var x := obj[0].0 + " = " + RawText(obj[0].1, level);
      EndsVisible(x) && Collapse(x) == obj[0].0 + " = " + FlatText(obj[0].1)
    ensures !obj[0].1.Arr? && Collapse(Chain(obj, level)) == Flat(obj)
  {
    var e := obj[0];
    var x := e.0 + " = " + RawText(e.1, level);
    calc {
      Collapse(Chain(obj, level));
      { assert Chain(obj, level) == x + " " + ""; }
      Collapse(x + " " + "");
      { CollapseJoin(x, " ", ""); }
      Collapse(x) + Squash(" ") + Collapse("");
      e.0 + " = " + FlatText(e.1) + " ";
      { assert obj[1..] == []; }
      Flat(obj);
    }
  }

  /** `Tail` of two or more entries, given `Tail` of all but the first. */
  lemma TailStep(obj: Fields, level: nat)
    requires |obj| >= 2 && Plain(Obj(obj)) && PlainKey(obj[0].0) && Plain(obj[0].1)
    requires var x := obj[0].0 + " = " + RawText(obj[0].1, level);
      EndsVisible(x) && Collapse(x) == obj[0].0 + " = " + FlatText(obj[0].1)
    requires !obj[1].1.Arr? && Collapse(Chain(obj[1..], level)) == Flat(obj[1..])
    ensures !obj[0].1.Arr? && Collapse(Chain(obj, level)) == Flat(obj)
  {
    var e := obj[0];
    ChainStep(obj, level);
    TabsSpace(level);
    JoinLines(e.0 + " = " + RawText(e.1, level), e.0 + " = " + FlatText(e.1), Tabs(level), Chain(obj[1..], level), Flat(obj[1..]));
  }

  /** Two collapsed pieces joined by a blank and padding. */
  lemma JoinLines(x: string, fx: string, tabs: string, c: string, fc: string)
    requires EndsVisible(x) && Collapse(x) == fx && AllSpace(tabs) && StartsVisible(c) && Collapse(c) == fc
    ensures Collapse(x + (" " + tabs) + c) == fx + " " + fc
  {
    CollapseJoin(x, " " + tabs, c);
    SquashBlank(tabs);
  }

  /** One entry `key = value` collapses to its one-line form and ends in a visible character. */
  lemma {:induction false} ItemCollapse(entry: (string, Value), level: nat)
    requires PlainKey(entry.0) && Plain(entry.1)
    ensures var x := entry.0 + " = " + RawText(entry.1, level);
      EndsVisible(x) && Collapse(x) == entry.0 + " = " + FlatText(entry.1)
    decreases entry, 1
  {
    ValueCollapse(entry.1, level);
    KeyedCollapse(entry.0, RawText(entry.1, level), FlatText(entry.1));
  }

  /** A value's raw text has visible ends and collapses to its one-line form. */
  lemma {:induction false} ValueCollapse(v: Value, level: nat)
    requires Plain(v)
    ensures var r := RawText(v, level);
      r != [] && !IsSpace(r[0]) && !IsSpace(r[|r| - 1]) && Collapse(r) == FlatText(v)
    decreases v, 0
  {
    if v.Obj? {
      LevelForm(v.fields, level + 1);
      ObjectCollapse(v.fields, level);
    } else {
      ShownPlain(v);
      CollapseKeepsSpaced(Shown(ScalarText(v)));
    }
  }

  /** `ValueCollapse` of a nested object, given `LevelForm` of its entries. */
  lemma ObjectCollapse(f: Fields, level: nat)
    requires Plain(Obj(f))
    requires Stringified(f, level + 1, false) == if f == [] then "" else Lead(level + 1) + Flat(f)
    ensures var r := RawText(Obj(f), level);
      r != [] && !IsSpace(r[0]) && !IsSpace(r[|r| - 1]) && Collapse(r) == FlatText(Obj(f))
  {
    TabsSpace(level);
    if f == [] {
      EmptyObjectCollapse(level);
    } else {
      FlatEnds(f);
      CompactOutput(f, level + 1);
      SpacedSuffix(Lead(level + 1), Flat(f));
      LeadSpace(level + 1);
      BracedCollapse(Lead(level + 1), Flat(f), Tabs(level));
    }
  }

  lemma EmptyObjectCollapse(level: nat)
    ensures Collapse(RawText(Obj([]), level)) == FlatText(Obj([]))
  {
    TabsSpace(level);
    calc {
      Collapse(RawText(Obj([]), level));
      Collapse("{ " + "" + Tabs(level) + "}");
      { BracedEmpty(Tabs(level)); }
      "{ }";
      FlatText(Obj([]));
    }
  }

  lemma RawTextNoTab(v: Value)
    requires Plain(v)
    ensures '\t' !in RawText(v, 0)
  {
    if v.Obj? {
      LevelForm(v.fields, 1);
      FlatEnds(v.fields);
      assert Lead(1) == "";
    } else {
      ShownPlain(v);
    }
  }

  /** At the top level no tab is written, so nothing is dropped. */
  lemma {:induction false} RawNoTab(obj: Fields)
    requires Plain(Obj(obj))
    ensures '\t' !in RawBody(obj, 0)
    decreases obj
  {
    if obj != [] {
      PlainParts(obj);
      KeyPlain(obj[0].0);
      RawNoTab(obj[1..]);
      RawTextNoTab(obj[0].1);
    }
  }

  /** `stringify(obj)` in compact mode is the one-line form of `obj`. */
  lemma TopForm(obj: Fields)
    requires Plain(Obj(obj))
    ensures Stringified(obj, 0, false) == Flat(obj)
  {
    if obj != [] {
      RawBodyChain(obj, 0);
      RawNoTab(obj);
      calc {
        Stringified(obj, 0, false);
        Collapse(DropFirstTab(Newlines(Body(obj, 0))));
        { NewlinesBody(obj, 0); }
        Collapse(DropFirstTab(RawBody(obj, 0)));
        { assert RawBody(obj, 0) == Chain(obj, 0); }
        Collapse(DropFirstTab(Chain(obj, 0)));
        { DropFirstTabNone(Chain(obj, 0)); }
        Collapse(Chain(obj, 0));
        { Tail(obj, 0); }
        Flat(obj);
      }
    }
  }
}
