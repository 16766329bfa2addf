/**
 * The structured values that `json.loads` yields and that the chat server
 * receives: Python's None, bool, int, str, list and dict.
 */
module JsonData {
  import opened Wrappers
  import PyText

  /** A dict is the list of its key/value pairs in insertion order. */
  datatype Json =
    | Null
    | Bool(b: bool)
    | Int(i: int)
    | Str(s: string)
    | Arr(items: seq<Json>)
    | Obj(fields: seq<(string, Json)>)

  /** `d.get(key)` on a dict built from `fields`: the last pair with that key decides. */
  function Lookup(fields: seq<(string, Json)>, key: string): (r: Option<Json>)
    ensures r.None? <==> forall i :: 0 <= i < |fields| ==> fields[i].0 != key
  {
    if fields == [] then None
    else
      var last := fields[|fields| - 1];
      if last.0 == key then Some(last.1) else Lookup(fields[..|fields| - 1], key)
  }

  /** The last pair with `key` is the one a lookup finds. */
  lemma {:induction false} LookupAt(fields: seq<(string, Json)>, key: string, i: nat)
    requires i < |fields| && fields[i].0 == key
    requires forall j :: i < j < |fields| ==> fields[j].0 != key
    ensures Lookup(fields, key) == Some(fields[i].1)
  {
    if i < |fields| - 1 {
      LookupAt(fields[..|fields| - 1], key, i);
    }
  }

  /** The value under `key` when `j` is a dict holding it. */
  function Field(j: Json, key: string): Option<Json> {
    if j.Obj? then Lookup(j.fields, key) else None
  }

  /** Python truthiness: `bool(j)`. */
  predicate Truthy(j: Json) {
    match j
    case Null => false
    case Bool(b) => b
    case Int(i) => i != 0
    case Str(s) => s != ""
    case Arr(items) => items != []
    case Obj(fields) => fields != []
  }

  /** `repr(j)`; strings are quoted with `'` and are not escaped. */
  function Repr(j: Json): string
    decreases j, 1
  {
    match j
    case Null => "None"
    case Bool(b) => if b then "True" else "False"
    case Int(i) => PyText.IntToString(i)
    case Str(s) => "'" + s + "'"
    case Arr(items) => "[" + ReprItems(items) + "]"
    case Obj(fields) => "{" + ReprFields(fields) + "}"
  }

  /** The items of a list, each as its `repr`, separated by ", ". */
  function ReprItems(items: seq<Json>): string
    decreases items, 0
  {
    if items == [] then ""
    else if |items| == 1 then Repr(items[0])
    else Repr(items[0]) + ", " + ReprItems(items[1..])
  }

  /** The pairs of a dict as `'key': value`, separated by ", ". */
  function ReprFields(fields: seq<(string, Json)>): string
    decreases fields, 0
  {
    if fields == [] then ""
    else
      assert fields[0] in fields && fields[0].1 < fields[0];
      var pair := "'" + fields[0].0 + "': " + Repr(fields[0].1);
      if |fields| == 1 then pair else pair + ", " + ReprFields(fields[1..])
  }

  /** `str(j)`: a string is itself, everything else its `repr`. */
  function PyStr(j: Json): string {
    if j.Str? then j.s else Repr(j)
  }
}
