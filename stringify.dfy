/**
 * The serializer (src/stringify.ts).
 *
 * `Stringified` is what `stringify(obj, level, pretty)` returns: every
 * entry whose value is not an array becomes one line `key = value`,
 * indented by `level` tabs, a nested object is written between `{` and `}`
 * by a recursive call that always runs in compact mode, and compact mode
 * post-processes the whole text with three replacements.  The methods `Pad`
 * and `Stringify` are the source's accumulator loops, proved to build exactly
 * that text.
 */
module Stringifying {
  import opened Types

  // ---------------------------------------------------------------------
  // Characters.

  /** The characters of the regular-expression class `\s`. */
  predicate IsSpace(c: char) {
    c == ' ' || c == '\t' || c == '\n' || c == '\U{000B}' || c == '\U{000C}' || c == '\r'
    || c == '\U{00A0}' || c == '\U{1680}' || ('\U{2000}' <= c <= '\U{200A}')
    || c == '\U{2028}' || c == '\U{2029}' || c == '\U{202F}' || c == '\U{205F}'
    || c == '\U{3000}' || c == '\U{FEFF}'
  }

  /** `/\s/.test(s)`. */
  predicate HasSpace(s: string) {
    exists i :: 0 <= i < |s| && IsSpace(s[i])
  }

  // ---------------------------------------------------------------------
  // `pad`.

  /** `level` tab characters. */
  function Tabs(level: nat): (t: string)
    ensures |t| == level && forall i :: 0 <= i < level ==> t[i] == '\t'
  {
    if level == 0 then "" else Tabs(level - 1) + "\t"
  }

  /** `pad(str, level)`: `str` indented by `level` tabs. */
  function Padded(str: string, level: nat): string {
    Tabs(level) + str
  }

  /** The loop of `pad`. */
  method Pad(str: string, level: nat) returns (r: string)
    ensures r == Padded(str, level)
  {
    r := "";
    var i := 0;
    while i < level
      invariant 0 <= i <= level && r == Tabs(i)
    {
      r := r + "\t";
      i := i + 1;
    }
    r := r + str;
  }

  // ---------------------------------------------------------------------
  // Compact mode: `.replace(/\n/g, ' ').replace('\t', '').replace(/\s{2,}/g, ' ')`.

  /** `.replace(/\n/g, ' ')`: every line break becomes a blank. */
  function Newlines(s: string): string {
    seq(|s|, i requires 0 <= i < |s| => if s[i] == '\n' then ' ' else s[i])
  }

  /** `.replace('\t', '')`: a string pattern replaces its first occurrence only. */
  function DropFirstTab(s: string): string {
    if s == [] then []
    else if s[0] == '\t' then s[1..]
    else [s[0]] + DropFirstTab(s[1..])
  }

  /** The number of whitespace characters `s` starts with. */
  function SpaceRun(s: string): (n: nat)
    ensures n <= |s| && forall i :: 0 <= i < n ==> IsSpace(s[i])
    ensures n < |s| ==> !IsSpace(s[n])
  {
    if s != [] && IsSpace(s[0]) then 1 + SpaceRun(s[1..]) else 0
  }

  /**
   * `.replace(/\s{2,}/g, ' ')`: scanning from the left, every run of two or
   * more whitespace characters, taken as long as it goes, becomes one blank;
   * a single whitespace character stays as it is.
   */
  function Collapse(s: string): string
    decreases |s|
  {
    if s == [] then []
    else if SpaceRun(s) >= 2 then " " + Collapse(s[SpaceRun(s)..])
    else [s[0]] + Collapse(s[1..])
  }

  function Compact(s: string): string {
    Collapse(DropFirstTab(Newlines(s)))
  }

  /** No two whitespace characters stand next to each other. */
  predicate Spaced(s: string) {
    forall i :: 0 <= i < |s| - 1 ==> !IsSpace(s[i]) || !IsSpace(s[i + 1])
  }

  /** The characters of `s` that are not whitespace, in order. */
  function Visible(s: string): string {
    if s == [] then [] else (if IsSpace(s[0]) then [] else [s[0]]) + Visible(s[1..])
  }

  lemma {:induction false} VisibleAppend(a: string, b: string)
    ensures Visible(a + b) == Visible(a) + Visible(b)
    decreases |a|
  {
    if a != [] {
      assert (a + b)[0] == a[0] && (a + b)[1..] == a[1..] + b;
      VisibleAppend(a[1..], b);
    } else {
      assert a + b == b;
    }
  }

  lemma {:induction false} VisibleOfSpaces(s: string)
    requires forall i :: 0 <= i < |s| ==> IsSpace(s[i])
    ensures Visible(s) == []
    decreases |s|
  {
    if s != [] {
      VisibleOfSpaces(s[1..]);
    }
  }

  /** Every line break becomes a blank and nothing else changes but whitespace. */
  lemma NewlinesSpec(s: string)
    ensures '\n' !in Newlines(s) && Visible(Newlines(s)) == Visible(s)
  {
    NewlinesVisible(s);
  }

  lemma {:induction false} NewlinesVisible(s: string)
    ensures Visible(Newlines(s)) == Visible(s)
    decreases |s|
  {
    if s != [] {
      NewlinesVisible(s[1..]);
      assert Newlines(s)[1..] == Newlines(s[1..]);
    }
  }

  /** The position of the first tab in `s`, or `|s|` when there is none. */
  function FirstTab(s: string): (k: nat)
    ensures k <= |s| && (forall i :: 0 <= i < k ==> s[i] != '\t') && (k < |s| ==> s[k] == '\t')
  {
    if s == [] || s[0] == '\t' then 0 else 1 + FirstTab(s[1..])
  }

  /** `DropFirstTab` removes the first tab, if any, and keeps everything else in order. */
  lemma {:induction false} DropFirstTabSpec(s: string)
    ensures |DropFirstTab(s)| == if FirstTab(s) < |s| then |s| - 1 else |s|
    ensures forall i {:trigger DropFirstTab(s)[i]} :: 0 <= i < |DropFirstTab(s)| ==>
      DropFirstTab(s)[i] == if i < FirstTab(s) then s[i] else s[i + 1]
    decreases |s|
  {
    if s != [] && s[0] != '\t' {
      var t := s[1..];
      DropFirstTabSpec(t);
      var r, rt, k := DropFirstTab(s), DropFirstTab(t), FirstTab(t);
      assert r == [s[0]] + rt && FirstTab(s) == k + 1;
      forall i | 0 <= i < |r|
        ensures r[i] == if i < k + 1 then s[i] else s[i + 1]
      {
        if i > 0 {
          assert r[i] == rt[i - 1];
        }
      }
    }
  }

  /** Dropping the first tab keeps the visible characters and brings in no line break. */
  lemma {:induction false} DropFirstTabVisible(s: string)
    ensures Visible(DropFirstTab(s)) == Visible(s)
    ensures '\n' !in s ==> '\n' !in DropFirstTab(s)
    decreases |s|
  {
    if s != [] {
      DropFirstTabVisible(s[1..]);
      if s[0] != '\t' {
        VisibleAppend([s[0]], DropFirstTab(s[1..]));
      }
    }
  }

  /** Collapsing keeps the visible characters and writes no character `s` does not have but a blank. */
  lemma {:induction false} CollapseVisible(s: string)
    ensures Visible(Collapse(s)) == Visible(s)
    ensures forall c :: c in Collapse(s) ==> c == ' ' || c in s
    decreases |s|
  {
    if s != [] {
      var k := SpaceRun(s);
      if k >= 2 {
        CollapseVisible(s[k..]);
        assert s == s[..k] + s[k..];
        VisibleAppend(s[..k], s[k..]);
        VisibleOfSpaces(s[..k]);
        VisibleAppend(" ", Collapse(s[k..]));
      } else {
        CollapseVisible(s[1..]);
        VisibleAppend([s[0]], Collapse(s[1..]));
      }
    }
  }

  /** The first character of `Collapse(s)` is whitespace exactly when that of `s` is. */
  lemma CollapseHead(s: string)
    requires s != []
    ensures Collapse(s) != [] && (IsSpace(Collapse(s)[0]) <==> IsSpace(s[0]))
  {
  }

  lemma SpacedCons(c: char, t: string)
    requires Spaced(t) && (t == [] || !IsSpace(c) || !IsSpace(t[0]))
    ensures Spaced([c] + t)
  {
    var s := [c] + t;
    forall i | 0 <= i < |s| - 1
      ensures !IsSpace(s[i]) || !IsSpace(s[i + 1])
    {
      if i > 0 {
        assert s[i] == t[i - 1] && s[i + 1] == t[i];
      }
    }
  }

  /** After collapsing, no two whitespace characters are adjacent. */
  lemma {:induction false} CollapseSpaced(s: string)
    ensures Spaced(Collapse(s))
    decreases |s|
  {
    if s != [] {
      var k := SpaceRun(s);
      if k >= 2 {
        CollapseSpaced(s[k..]);
        if s[k..] != [] {
          CollapseHead(s[k..]);
        }
        SpacedCons(' ', Collapse(s[k..]));
      } else {
        CollapseSpaced(s[1..]);
        if s[1..] != [] {
          CollapseHead(s[1..]);
        }
        SpacedCons(s[0], Collapse(s[1..]));
      }
    }
  }

  /** Text without adjacent whitespace is left as it is. */
  lemma {:induction false} CollapseKeepsSpaced(s: string)
    requires Spaced(s)
    ensures Collapse(s) == s
    decreases |s|
  {
    if s != [] {
      assert SpaceRun(s) < 2 by {
        if IsSpace(s[0]) && |s| > 1 {
          assert !IsSpace(s[1]);
        }
      }
      assert Spaced(s[1..]) by {
        forall i | 0 <= i < |s[1..]| - 1
          ensures !IsSpace(s[1..][i]) || !IsSpace(s[1..][i + 1])
        {
          assert s[1..][i] == s[i + 1] && s[1..][i + 1] == s[i + 2];
        }
      }
      CollapseKeepsSpaced(s[1..]);
    }
  }

  /** Collapsing twice is collapsing once. */
  lemma CollapseIdempotent(s: string)
    ensures Collapse(Collapse(s)) == Collapse(s)
  {
    CollapseSpaced(s);
    CollapseKeepsSpaced(Collapse(s));
  }

  /**
   * Compact mode leaves no line break and no two adjacent whitespace
   * characters, and keeps every character that is not whitespace, in order.
   */
  lemma CompactSpec(s: string)
    ensures '\n' !in Compact(s) && Spaced(Compact(s)) && Visible(Compact(s)) == Visible(s)
  {
    NewlinesSpec(s);
    DropFirstTabVisible(Newlines(s));
    CollapseVisible(DropFirstTab(Newlines(s)));
    CollapseSpaced(DropFirstTab(Newlines(s)));
  }

  // ---------------------------------------------------------------------
  // `stringify`.

  /** The text of a scalar: `${val}` (a number keeps its lexeme). */
  function ScalarText(v: Value): string
    requires !v.Obj? && !v.Arr?
  {
    match v
    case Bool(b) => if b then "true" else "false"
    case Num(lexeme) => lexeme
    case Str(s) => s
  }

  /** A scalar's text, in quotes when it holds whitespace. */
  function Shown(text: string): string {
    if HasSpace(text) then "\"" + text + "\"" else text
  }

  /** What `stringify(obj, level, pretty)` returns. */
  function Stringified(obj: Fields, level: nat, pretty: bool): string
    decreases obj, 2
  {
    if pretty then Body(obj, level) else Compact(Body(obj, level))
  }

  /** The text the loop over the keys of `obj` accumulates in `data`. */
  function Body(obj: Fields, level: nat): string
    decreases obj, 1
  {
    if obj == [] then "" else Line(obj[0], level) + Body(obj[1..], level)
  }

  /** What one entry adds: nothing for an array, one padded line `key = value` otherwise. */
  function Line(entry: (string, Value), level: nat): string
    decreases entry, 1
  {
    if entry.1.Arr? then "" else Padded(entry.0 + " = " + Text(entry.1, level) + "\n", level)
  }

  /** How a value that is not an array is written at `level`. */
  function Text(v: Value, level: nat): string
    requires !v.Arr?
    decreases v, 0
  {
    match v
    case Obj(fields) => "{\n" + Stringified(fields, level + 1, false) + Padded("}", level)
    case Bool(_) => Shown(ScalarText(v))
    case Num(_) => Shown(ScalarText(v))
    case Str(_) => Shown(ScalarText(v))
  }

  /** Splitting the entries splits the text. */
  lemma {:induction false} BodyAppend(a: Fields, b: Fields, level: nat)
    ensures Body(a + b, level) == Body(a, level) + Body(b, level)
    decreases a
  {
    if a != [] {
      assert (a + b)[0] == a[0] && (a + b)[1..] == a[1..] + b;
      BodyAppend(a[1..], b, level);
      assert Body(a + b, level) == Line(a[0], level) + (Body(a[1..], level) + Body(b, level));
    } else {
      assert a + b == b;
    }
  }

  /** The text of the first `i + 1` entries: what the loop has after its `i`-th turn. */
  lemma BodyStep(obj: Fields, i: nat, level: nat, line: string)
    requires i < |obj| && line == Line(obj[i], level)
    ensures Body(obj[..i + 1], level) == Body(obj[..i], level) + line
    ensures obj[i].1.Arr? ==> line == ""
    ensures !obj[i].1.Arr? ==> line == Padded(obj[i].0 + " = " + Text(obj[i].1, level) + "\n", level)
  {
    BodyAppend(obj[..i], [obj[i]], level);
    assert obj[..i + 1] == obj[..i] + [obj[i]];
  }


  /** Compact mode leaves the whole text on one line, with no run of whitespace. */
  lemma CompactOutput(obj: Fields, level: nat)
    ensures '\n' !in Stringified(obj, level, false) && Spaced(Stringified(obj, level, false))
  {
    CompactSpec(Body(obj, level));
  }

  /**
   * Even in pretty mode a nested object takes two lines: `key = {`, then its
   * entries on one line, followed by the closing brace indented like the key.
   */
  lemma NestedOnOneLine(key: string, fields: Fields, level: nat)
    ensures exists inner ::
      '\n' !in inner && Line((key, Obj(fields)), level) == Tabs(level) + key + " = {\n" + inner + Tabs(level) + "}\n"
  {
    var inner := Stringified(fields, level + 1, false);
    CompactOutput(fields, level + 1);
    assert Line((key, Obj(fields)), level) == Tabs(level) + key + " = {\n" + inner + Tabs(level) + "}\n";
  }

  /** The entries whose values are not arrays. */
  function WithoutArrays(obj: Fields): (r: Fields)
    ensures forall i :: 0 <= i < |r| ==> !r[i].1.Arr?
  {
    if obj == [] then []
    else if obj[0].1.Arr? then WithoutArrays(obj[1..])
    else [obj[0]] + WithoutArrays(obj[1..])
  }

  /** A key whose value is an array is left out of the text altogether. */
  lemma ArraysSkipped(obj: Fields, level: nat, pretty: bool)
    ensures Stringified(obj, level, pretty) == Stringified(WithoutArrays(obj), level, pretty)
  {
    ArraysSkippedBody(obj, level);
  }

  lemma {:induction false} ArraysSkippedBody(obj: Fields, level: nat)
    ensures Body(obj, level) == Body(WithoutArrays(obj), level)
    decreases |obj|
  {
    if obj != [] {
      ArraysSkippedBody(obj[1..], level);
      var w := WithoutArrays(obj[1..]);
      assert Body(obj, level) == Line(obj[0], level) + Body(obj[1..], level);
      if obj[0].1.Arr? {
        assert WithoutArrays(obj) == w && Line(obj[0], level) == "";
      } else {
        var r := [obj[0]] + w;
        assert WithoutArrays(obj) == r && r[0] == obj[0] && r[1..] == w;
      }
    }
  }

  lemma VisibleEquals(pre: string, key: string, rest: string)
    ensures '=' in Visible(pre + (key + (" = " + rest)))
  {
    VisibleAppend(pre, key + (" = " + rest));
    VisibleAppend(key, " = " + rest);
    VisibleAppend(" = ", rest);
    assert Visible(" = ") == "=";
  }

  /** The line of a value that is not an array holds an `=`. */
  lemma LineShows(entry: (string, Value), level: nat)
    requires !entry.1.Arr?
    ensures '=' in Visible(Line(entry, level))
  {
    var rest := Text(entry.1, level) + "\n";
    assert Line(entry, level) == Tabs(level) + (entry.0 + (" = " + rest));
    VisibleEquals(Tabs(level), entry.0, rest);
  }

  /** The text holds an `=` as soon as one value is not an array. */
  lemma {:induction false} EntryShows(obj: Fields, j: nat, level: nat)
    requires j < |obj| && !obj[j].1.Arr?
    ensures '=' in Visible(Body(obj, level))
    decreases j
  {
    assert Body(obj, level) == Line(obj[0], level) + Body(obj[1..], level);
    VisibleAppend(Line(obj[0], level), Body(obj[1..], level));
    if j == 0 {
      LineShows(obj[0], level);
    } else {
      EntryShows(obj[1..], j - 1, level);
    }
  }

  /** Only arrays, or no entries at all, give the empty text. */
  lemma {:induction false} OnlyArraysEmpty(obj: Fields, level: nat)
    requires forall i :: 0 <= i < |obj| ==> obj[i].1.Arr?
    ensures Body(obj, level) == ""
    decreases |obj|
  {
    if obj != [] {
      OnlyArraysEmpty(obj[1..], level);
    }
  }

  /** `stringify` returns the empty text exactly when every value is an array (an empty object included). */
  lemma EmptyExactlyForArrays(obj: Fields, level: nat, pretty: bool)
    ensures Stringified(obj, level, pretty) == "" <==> forall i :: 0 <= i < |obj| ==> obj[i].1.Arr?
  {
    if forall i :: 0 <= i < |obj| ==> obj[i].1.Arr? {
      OnlyArraysEmpty(obj, level);
      assert Newlines("") == "";
    } else {
      var j :| 0 <= j < |obj| && !obj[j].1.Arr?;
      EntryShows(obj, j, level);
      CompactSpec(Body(obj, level));
    }
  }

  /** `stringify`: the lines of the entries, then compact mode unless `pretty`. */
  method Stringify(obj: Fields, level: nat, pretty: bool) returns (data: string)
    ensures data == Stringified(obj, level, pretty)
    decreases Obj(obj), 1
  {
    data := Entries(obj, level);
    if !pretty {
      data := Compact(data);
    }
  }

  /** The loop over the keys of `stringify`: one line per entry whose value is not an array, in key order. */
  method Entries(obj: Fields, level: nat) returns (data: string)
    ensures data == Body(obj, level)
    decreases Obj(obj), 0
  {
    data := "";
    var i := 0;
    while i < |obj|
      invariant 0 <= i <= |obj| && data == Body(obj[..i], level)
    {
      var key, val := obj[i].0, obj[i].1;
      BodyStep(obj, i, level, Line(obj[i], level));
      if !val.Arr? {
        var text := Write(val, level);
        var line := Pad(key + " = " + text + "\n", level);
        data := data + line;
      }
      i := i + 1;
    }
    assert obj[..i] == obj;
  }

  /** The value part of a line: a nested object by the recursive call, a scalar quoted when it holds whitespace. */
  method Write(val: Value, level: nat) returns (text: string)
    requires !val.Arr?
    ensures text == Text(val, level)
    decreases val, 2
  {
    if val.Obj? {
      var inner := Stringify(val.fields, level + 1, false);
      var close := Pad("}", level);
      text := "{\n" + inner + close;
    } else if HasSpace(ScalarText(val)) {
      text := "\"" + ScalarText(val) + "\"";
    } else {
      text := ScalarText(val);
    }
  }
}
