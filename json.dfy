/**
 * The Python values the core handles: decoded JSON payloads, the errors that
 * indexing them can raise, and a mutable dictionary object.
 */
module Json {
  import opened Wrappers

  /** A decoded JSON value. `Null` is Python's None. Numbers are kept only as far as
      they are "not a string"; no arithmetic is done on them. */
  datatype Value =
    | Null
    | Bool(b: bool)
    | Num(n: real)
    | Str(s: string)
    | Arr(items: seq<Value>)
    | Obj(fields: map<string, Value>)

  /** The exceptions the modelled code can raise. A key is None when the code
      indexes a dictionary with None. */
  datatype PyError = KeyError(key: Option<string>) | TypeError

  /** `d.get(key)` on a decoded JSON object: None (Null) when the key is None,
      absent, or bound to null. A decoded object never has None as a key. */
  function Get(d: map<string, Value>, key: Option<string>): (v: Value)
    ensures v != Null ==> key.Some? && key.value in d && d[key.value] == v
    ensures key.Some? && key.value in d ==> v == d[key.value]
  {
    if key.Some? && key.value in d then d[key.value] else Null
  }

  /** `x[key]` for a string or None key: only an object can be indexed so;
      a missing key raises KeyError, any other value raises TypeError. */
  function Index(x: Value, key: Option<string>): (r: Result<Value, PyError>)
    ensures r.Ok? <==> x.Obj? && key.Some? && key.value in x.fields
    ensures r.Ok? ==> r.value == x.fields[key.value]
    ensures r.Err? && x.Obj? ==> r.error == KeyError(key)
    ensures !x.Obj? ==> r == Err(TypeError)
  {
    match x
    case Obj(fields) =>
      if key.Some? && key.value in fields then Ok(fields[key.value]) else Err(KeyError(key))
    case _ => Err(TypeError)
  }

  /** `map(lambda x: x[key], items)` drained into a list, left to right: the first failing
      element's error is the result. */
  function PluckItems(items: seq<Value>, key: Option<string>): (r: Result<seq<Value>, PyError>)
    ensures r.Ok? <==> forall i :: 0 <= i < |items| ==> Index(items[i], key).Ok?
    ensures r.Ok? ==> |r.value| == |items|
    ensures r.Ok? ==> forall i :: 0 <= i < |items| ==> r.value[i] == Index(items[i], key).value
    ensures r.Err? ==>
      exists i :: 0 <= i < |items| && Index(items[i], key) == Err(r.error) &&
        forall j :: 0 <= j < i ==> Index(items[j], key).Ok?
  {
    if |items| == 0 then Ok([])
    else
      match Index(items[0], key)
      case Err(e) => Err(e)
      case Ok(v) =>
        match PluckItems(items[1..], key)
        case Err(e) => Err(e)
        case Ok(vs) => Ok([v] + vs)
  }

  /** `list(map(lambda x: x[key], values))`. Iterating a string yields its
      characters and iterating an object yields its keys, both strings, so
      anything but a list fails unless it is empty; null and scalars are not
      iterable at all. */
  function PluckAll(values: Value, key: Option<string>): (r: Result<Value, PyError>)
    ensures values.Arr? ==>
      (r.Ok? <==> forall i :: 0 <= i < |values.items| ==> Index(values.items[i], key).Ok?)
    ensures r.Ok? ==> r.value.Arr?
    ensures r.Ok? && values.Arr? ==>
      |r.value.items| == |values.items| &&
      forall i :: 0 <= i < |values.items| ==> r.value.items[i] == Index(values.items[i], key).value
    ensures !values.Arr? ==> (r.Ok? <==> values == Str("") || values == Obj(map[]))
    ensures r.Ok? && !values.Arr? ==> r.value == Arr([])
    ensures r.Err? && values.Arr? ==>
      exists i :: 0 <= i < |values.items| && Index(values.items[i], key) == Err(r.error) &&
        forall j :: 0 <= j < i ==> Index(values.items[j], key).Ok?
    ensures r.Err? && !values.Arr? ==> r.error == TypeError
  {
    match values
    case Arr(items) =>
      (match PluckItems(items, key)
       case Ok(vs) => Ok(Arr(vs))
       case Err(e) => Err(e))
    case Str(s) => if s == "" then Ok(Arr([])) else Err(TypeError)
    case Obj(fields) => if fields == map[] then Ok(Arr([])) else Err(TypeError)
    case _ => Err(TypeError)
  }

  /** A list of objects each holding `key` maps to the list of those fields:
      same length, same order. */
  lemma PluckObjects(items: seq<Value>, key: string)
    requires forall i :: 0 <= i < |items| ==> items[i].Obj? && key in items[i].fields
    ensures PluckAll(Arr(items), Some(key)).Ok?
    ensures PluckAll(Arr(items), Some(key)).value
      == Arr(seq(|items|, i requires 0 <= i < |items| => items[i].fields[key]))
  {
    var r := PluckAll(Arr(items), Some(key));
    assert r.Ok?;
    var expected := seq(|items|, i requires 0 <= i < |items| => items[i].fields[key]);
    assert r.value.items == expected;
  }

  /** An object lacking `key`, preceded only by objects, makes the whole call
      fail with KeyError: whatever fails first is an object lacking `key`. */
  lemma PluckMissingKey(items: seq<Value>, key: string, j: int)
    requires 0 <= j < |items| && items[j].Obj? && key !in items[j].fields
    requires forall i :: 0 <= i < j ==> items[i].Obj?
    ensures PluckAll(Arr(items), Some(key)) == Err(KeyError(Some(key)))
  {
    assert !Index(items[j], Some(key)).Ok?;
    var r := PluckItems(items, Some(key));
    assert r.Err?;
    var i :| 0 <= i < |items| && Index(items[i], Some(key)) == Err(r.error) &&
      forall k :: 0 <= k < i ==> Index(items[k], Some(key)).Ok?;
    assert i <= j;
  }

  /** A mutable Python dictionary whose keys are strings. */
  class Dict {
    var entries: map<string, Value>

    constructor (entries: map<string, Value>)
      ensures this.entries == entries
    {
      this.entries := entries;
    }
  }
}
