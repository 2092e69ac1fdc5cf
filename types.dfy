/**
 * The data the converter produces and consumes: a nested structure of
 * booleans, numbers, strings, objects and arrays (the `Struct` type of the
 * source, whose definition src/types.ts is not part of this model).
 *
 * An object is an association list in insertion order: the keys the parser
 * stores are identifiers, for which JavaScript's own-property order is the
 * insertion order.  A number keeps the lexeme it was read from.
 */
module Types {

  datatype Option<T> = None | Some(value: T)

  datatype Value =
    | Bool(b: bool)
    | Num(lexeme: string)
    | Str(s: string)
    | Obj(fields: seq<(string, Value)>)
    | Arr(elems: seq<Value>)

  type Fields = seq<(string, Value)>

  /** The position of `key` in `f`: the property lookup `obj[key]`. */
  function Find(f: Fields, key: string): (r: Option<nat>)
    ensures r.Some? ==> r.value < |f| && f[r.value].0 == key
    ensures r.Some? ==> forall j :: 0 <= j < r.value ==> f[j].0 != key
    ensures r.None? <==> forall j :: 0 <= j < |f| ==> f[j].0 != key
  {
    if f == [] then None
    else if f[0].0 == key then Some(0)
    else match Find(f[1..], key)
      case None => None
      case Some(i) => Some(i + 1)
  }

  function Lookup(f: Fields, key: string): Option<Value> {
    match Find(f, key)
    case None => None
    case Some(i) => Some(f[i].1)
  }

  function Keys(f: Fields): seq<string> {
    seq(|f|, i requires 0 <= i < |f| => f[i].0)
  }

  /** No key occurs twice: `f` describes an object. */
  predicate UniqueKeys(f: Fields) {
    forall i, j :: 0 <= i < j < |f| ==> f[i].0 != f[j].0
  }

  /** In an object with unique keys, the lookup finds the one entry holding the key. */
  lemma {:induction false} LookupUnique(f: Fields, i: nat)
    requires UniqueKeys(f) && i < |f|
    ensures Lookup(f, f[i].0) == Some(f[i].1)
  {
    var r := Find(f, f[i].0);
    assert r.Some? && r.value <= i;
  }
}
