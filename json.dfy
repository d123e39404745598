/**
 * JSON-like values as Python's json/yaml loaders produce them: dicts, lists,
 * strings and scalars.  A dict is the sequence of its (key, value) pairs in
 * insertion order; a Python dict never holds a key twice, and lookups read the
 * first binding of a key.
 */
module JsonValue {
  import opened Wrappers
  import Strings

  datatype Json =
    | Null
    | Bool(b: bool)
    | Num(n: int)
    | Str(s: string)
    | Arr(items: seq<Json>)
    | Obj(fields: seq<(string, Json)>)

  /** `d.get(key)` on the pairs of a dict: the first binding of `key`, if any. */
  function Lookup(fields: seq<(string, Json)>, key: string): (r: Option<Json>) {
    if |fields| == 0 then None
    else if fields[0].0 == key then Some(fields[0].1)
    else Lookup(fields[1..], key)
  }

  /** The binding `d.get` reads is the first one with the key. */
  lemma {:induction false} LookupAt(fields: seq<(string, Json)>, i: nat)
    requires i < |fields| && forall j | 0 <= j < i :: fields[j].0 != fields[i].0
    ensures Lookup(fields, fields[i].0) == Some(fields[i].1)
  {
    if i > 0 {
      LookupAt(fields[1..], i - 1);
    }
  }

  /** A key no pair binds reads as absent. */
  lemma {:induction false} LookupAbsent(fields: seq<(string, Json)>, key: string)
    requires forall j | 0 <= j < |fields| :: fields[j].0 != key
    ensures Lookup(fields, key).None?
  {
    if |fields| > 0 {
      LookupAbsent(fields[1..], key);
    }
  }

  /** `j.get(key)` when `j` is a dict; a non-dict has no keys. */
  function Get(j: Json, key: string): Option<Json> {
    if j.Obj? then Lookup(j.fields, key) else None
  }

  /** `key in j` for a dict `j`. */
  predicate HasKey(j: Json, key: string) {
    Get(j, key).Some?
  }

  /** `d[key] = v`: rebinds `key` in place, or adds it at the end. */
  function Assign(fields: seq<(string, Json)>, key: string, v: Json): (r: seq<(string, Json)>)
    ensures Lookup(r, key) == Some(v)
    ensures forall k | k != key :: Lookup(r, k) == Lookup(fields, k)
  {
    if |fields| == 0 then [(key, v)]
    else if fields[0].0 == key then [(key, v)] + fields[1..]
    else [fields[0]] + Assign(fields[1..], key, v)
  }

  /** Python truthiness: empty containers, "", 0, False and None are false. */
  predicate Truthy(j: Json) {
    match j
    case Null => false
    case Bool(b) => b
    case Num(n) => n != 0
    case Str(s) => |s| > 0
    case Arr(items) => |items| > 0
    case Obj(fields) => |fields| > 0
  }

  /** Python's `str()` of a value, as an f-string shows it: a string as itself, anything else as its `repr()`. */
  function PyStr(j: Json): (r: string)
    ensures j.Str? ==> r == j.s
    ensures j.Null? ==> r == "None"
  {
    if j.Str? then j.s else Repr(j)
  }

  /** Python's `repr()` of a value; strings are single-quoted, with no escaping. */
  function Repr(j: Json): string {
    match j
    case Null => "None"
    case Bool(b) => if b then "True" else "False"
    case Num(n) => if n < 0 then "-" + Strings.NatToString(-n) else Strings.NatToString(n)
    case Str(s) => "'" + s + "'"
    case Arr(items) => "[" + JoinWith(seq(|items|, i requires 0 <= i < |items| => Repr(items[i])), ", ") + "]"
    case Obj(fields) =>
      "{" + JoinWith(seq(|fields|, i requires 0 <= i < |fields| => "'" + fields[i].0 + "': " + Repr(fields[i].1)), ", ") + "}"
  }

  /** `sep.join(parts)`. */
  function JoinWith(parts: seq<string>, sep: string): string {
    if |parts| == 0 then ""
    else if |parts| == 1 then parts[0]
    else parts[0] + sep + JoinWith(parts[1..], sep)
  }
}
