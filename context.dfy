/**
 * One nesting level of parsed data (src/context.ts): a map from keys to
 * values with the rule that a key assigned again at the same level turns
 * into an array of its values.
 *
 * `Assign` is the value-level meaning of `setData`; class `Context` holds
 * the mutable `data` and the `parent` link, and its methods are proved to
 * change `data` as `Assign` says.  In the source a child context and its
 * parent share the child's object, so keys added to the child are visible in
 * the parent at once.  Here a child remembers the key it hangs under
 * (`slot`) and `WriteBack` copies its data into the parent; lemma
 * `AttachAfterPlaceholder` shows that doing so gives the same parent as
 * installing the finished child object in the first place.
 */
module Contexts {
  import opened Types
  import opened Utils

  // ---------------------------------------------------------------------
  // Truthiness of stored values (the `if (data)` test of setData).

  /** Length of the run of decimal digits at the start of `s`. */
  function DigitRun(s: string): (n: nat)
    ensures n <= |s| && AllDigits(s[..n])
    ensures n < |s| ==> !IsDigit(s[n])
  {
    if s == [] || !IsDigit(s[0]) then 0
    else
      var n := DigitRun(s[1..]);
      assert s[..n + 1] == [s[0]] + s[1..][..n];
      n + 1
  }

  /**
   * The digits that `parseFloat` reads from a number lexeme: those of the
   * longest prefix of the form `[+-]?[0-9]*(.[0-9]*)?`.  (The lexeme holds
   * only digits, signs and dots, so there is no exponent and no `Infinity`.)
   */
  function ValueDigits(lexeme: string): (d: string)
    ensures AllDigits(d)
  {
    var body := if |lexeme| > 0 && (lexeme[0] == '+' || lexeme[0] == '-') then lexeme[1..] else lexeme;
    var whole := body[..DigitRun(body)];
    var after := body[|whole|..];
    if |after| > 0 && after[0] == '.' then
      var frac := after[1..][..DigitRun(after[1..])];
      whole + frac
    else whole
  }

  /**
   * `parseFloat(lexeme)` is `0`, `-0` or `NaN`: every digit it reads is `0`
   * (with no digit read at all, the result is `NaN`).
   */
  predicate IsZeroOrNaN(lexeme: string) {
    var d := ValueDigits(lexeme);
    forall i :: 0 <= i < |d| ==> d[i] == '0'
  }

  /** JavaScript truthiness of a stored value: `false`, `0`, `NaN` and `''` are falsy. */
  predicate Truthy(v: Value) {
    match v
    case Bool(b) => b
    case Num(lexeme) => !IsZeroOrNaN(lexeme)
    case Str(s) => s != ""
    case Obj(_) => true
    case Arr(_) => true
  }

  /** `0`, `-0` and `NaN` are falsy. */
  lemma FalsyNumbers()
    ensures !Truthy(Num("0")) && !Truthy(Num("-0.00")) && !Truthy(Num(".")) && !Truthy(Num("+-1"))
  {
    assert DigitRun("0") == 1;
    assert DigitRun("0.00") == 1;
    assert DigitRun("00") == 2;
    assert DigitRun(".") == 0;
    assert DigitRun("-1") == 0;
  }

  /** Every other number is truthy, whatever follows the digits `parseFloat` reads. */
  lemma TruthyNumbers()
    ensures Truthy(Num(".5")) && Truthy(Num("1-2"))
  {
    assert DigitRun(".5") == 0;
    assert DigitRun("5") == 1;
    assert ValueDigits(".5")[0] == '5';
    assert DigitRun("1-2") == 1;
    assert ValueDigits("1-2")[0] == '1';
  }

  /** Leading zeros do not make a number falsy when a later digit is not zero. */
  lemma TruthyFraction()
    ensures Truthy(Num("00.01"))
  {
    assert DigitRun("00.01") == 2;
    assert DigitRun("01") == 2;
    assert ValueDigits("00.01")[3] == '1';
  }

  // ---------------------------------------------------------------------
  // setData on values.

  /** `setData(key, value)` applied to the entries `f` of a level. */
  function Assign(f: Fields, key: string, value: Value): Fields {
    match Find(f, key)
    case None => f + [(key, value)]
    case Some(i) =>
      var current := f[i].1;
      if !Truthy(current) then f[i := (key, value)]
      else if current.Arr? then f[i := (key, Arr(current.elems + [value]))]
      else f[i := (key, Arr([current, value]))]
  }

  /** An absent key is added at the end, holding the value itself. */
  lemma AssignAbsent(f: Fields, key: string, value: Value)
    requires Lookup(f, key) == None
    ensures Assign(f, key, value) == f + [(key, value)]
    ensures Lookup(Assign(f, key, value), key) == Some(value)
  {
    assert (f + [(key, value)])[|f|] == (key, value);
  }

  /** A key holding a truthy value that is not an array now holds `[old, value]`. */
  lemma AssignMerges(f: Fields, key: string, current: Value, value: Value)
    requires Lookup(f, key) == Some(current) && Truthy(current) && !current.Arr?
    ensures Lookup(Assign(f, key, value), key) == Some(Arr([current, value]))
  {
  }

  /** A key holding an array gets `value` appended; earlier elements keep their order. */
  lemma AssignAppends(f: Fields, key: string, elems: seq<Value>, value: Value)
    requires Lookup(f, key) == Some(Arr(elems))
    ensures Lookup(Assign(f, key, value), key) == Some(Arr(elems + [value]))
  {
  }

  /** A key holding a falsy value is overwritten, not merged. */
  lemma AssignOverwritesFalsy(f: Fields, key: string, current: Value, value: Value)
    requires Lookup(f, key) == Some(current) && !Truthy(current)
    ensures Lookup(Assign(f, key, value), key) == Some(value)
  {
  }

  /** Only the entry for `key` changes: every other key keeps its value, and
      the keys keep their order (a new key goes last). */
  lemma {:induction false} AssignFrame(f: Fields, key: string, value: Value)
    ensures forall k :: k != key ==> Lookup(Assign(f, key, value), k) == Lookup(f, k)
    ensures Keys(Assign(f, key, value)) == if Lookup(f, key).None? then Keys(f) + [key] else Keys(f)
  {
    var g := Assign(f, key, value);
    forall k | k != key
      ensures Lookup(g, k) == Lookup(f, k)
    {
      var r := Find(f, k);
      match r
      case None =>
        assert forall j :: 0 <= j < |g| ==> g[j].0 != k;
      case Some(i) =>
        assert g[i] == f[i];
        assert forall j :: 0 <= j < i ==> g[j].0 != k;
        assert Find(g, k) == Some(i);
    }
    if Lookup(f, key).None? {
      assert Keys(g) == Keys(f) + [key];
    } else {
      assert Keys(g) == Keys(f);
    }
  }

  lemma AssignKeepsUniqueKeys(f: Fields, key: string, value: Value)
    requires UniqueKeys(f)
    ensures UniqueKeys(Assign(f, key, value))
  {
  }

  /** Assigning `vs` one after another to the same key. */
  function AssignEach(f: Fields, key: string, vs: seq<Value>): Fields
    decreases |vs|
  {
    if vs == [] then f else AssignEach(Assign(f, key, vs[0]), key, vs[1..])
  }

  /**
   * A key assigned repeatedly at one level collects its values in source
   * order, provided the first one is truthy (all later ones then go into the
   * array whatever their truthiness).
   */
  lemma {:induction false} RepeatedKeyCollects(f: Fields, key: string, vs: seq<Value>)
    requires Lookup(f, key) == None
    requires |vs| >= 2 && Truthy(vs[0]) && !vs[0].Arr?
    ensures Lookup(AssignEach(f, key, vs), key) == Some(Arr(vs))
  {
    var f1 := Assign(f, key, vs[0]);
    AssignAbsent(f, key, vs[0]);
    var f2 := Assign(f1, key, vs[1]);
    AssignMerges(f1, key, vs[0], vs[1]);
    assert vs[..2] == [vs[0], vs[1]];
    CollectsFrom(f2, key, vs, 2);
    assert AssignEach(f, key, vs) == AssignEach(f2, key, vs[2..]);
  }

  lemma {:induction false} CollectsFrom(f: Fields, key: string, vs: seq<Value>, n: nat)
    requires n <= |vs| && Lookup(f, key) == Some(Arr(vs[..n]))
    ensures Lookup(AssignEach(f, key, vs[n..]), key) == Some(Arr(vs))
    decreases |vs| - n
  {
    if n == |vs| {
      assert vs[..n] == vs;
    } else {
      var g := Assign(f, key, vs[n]);
      AssignAppends(f, key, vs[..n], vs[n]);
      assert vs[..n] + [vs[n]] == vs[..n + 1];
      CollectsFrom(g, key, vs, n + 1);
      assert vs[n..][1..] == vs[n + 1..];
    }
  }

  // ---------------------------------------------------------------------
  // Children: the placeholder object and its write-back.

  /**
   * Puts the finished child entries `child` where `setChild(key)` installed
   * its (then empty) object: the key's value itself, or the last element
   * when the key holds an array.
   */
  function Attach(f: Fields, key: string, child: Fields): Fields {
    match Find(f, key)
    case None => f
    case Some(i) =>
      var current := f[i].1;
      if current.Arr? && |current.elems| > 0 then
        f[i := (key, Arr(current.elems[..|current.elems| - 1] + [Obj(child)]))]
      else f[i := (key, Obj(child))]
  }

  /**
   * Writing the child back into the placeholder that `setChild` installed
   * gives the same entries as installing the finished child directly: the
   * shared-object behaviour of the source.
   */
  lemma AttachAfterPlaceholder(f: Fields, key: string, child: Fields)
    ensures Attach(Assign(f, key, Obj([])), key, child) == Assign(f, key, Obj(child))
  {
    var g := Assign(f, key, Obj([]));
    match Find(f, key)
    case None =>
      assert g[|f|].0 == key;
      assert Find(g, key) == Some(|f|);
    case Some(i) =>
      assert g[i].0 == key && forall j :: 0 <= j < i ==> g[j] == f[j];
      assert Find(g, key) == Some(i);
      var current := f[i].1;
      if !Truthy(current) {
        assert g == f[i := (key, Obj([]))];
      } else if current.Arr? {
        var es := current.elems;
        assert g == f[i := (key, Arr(es + [Obj([])]))];
        assert (es + [Obj([])])[..|es|] == es;
      } else {
        assert g == f[i := (key, Arr([current, Obj([])]))];
        assert [current, Obj([])][..1] + [Obj(child)] == [current, Obj(child)];
      }
  }

  lemma AttachKeepsUniqueKeys(f: Fields, key: string, child: Fields)
    requires UniqueKeys(f)
    ensures UniqueKeys(Attach(f, key, child))
  {
  }

  // ---------------------------------------------------------------------
  // The mutable context.

  class Context {
    /** The entries of this level. */
    var data: Fields
    /** The enclosing level; `null` for the root. */
    const parent: Context?
    /** The key under which this level's object hangs in `parent`. */
    const slot: string

    constructor Root()
      ensures data == [] && parent == null && slot == ""
    {
      data := [];
      parent := null;
      slot := "";
    }

    constructor Nested(parent: Context, slot: string)
      ensures data == [] && this.parent == parent && this.slot == slot
    {
      data := [];
      this.parent := parent;
      this.slot := slot;
    }

    method SetData(key: string, value: Value)
      modifies this
      ensures data == Assign(old(data), key, value)
    {
      var found := Find(data, key);
      match found
      case None =>
        data := data + [(key, value)];
      case Some(i) =>
        var current := data[i].1;
        if Truthy(current) {
          if current.Arr? {
            data := data[i := (key, Arr(current.elems + [value]))];
          } else {
            data := data[i := (key, Arr([current, value]))];
          }
        } else {
          data := data[i := (key, value)];
        }
    }

    /** Installs an empty object under `key` and returns the context for it. */
    method SetChild(key: string) returns (child: Context)
      modifies this
      ensures data == Assign(old(data), key, Obj([]))
      ensures fresh(child) && child.data == [] && child.parent == this && child.slot == key
    {
      SetData(key, Obj([]));
      child := new Context.Nested(this, key);
    }

    /** Copies this level's entries into the parent's placeholder for it. */
    method WriteBack()
      requires parent != null && parent != this
      modifies parent
      ensures parent.data == Attach(old(parent.data), slot, data)
    {
      parent.data := Attach(parent.data, slot, data);
    }
  }
}
