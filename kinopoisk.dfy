/**
 * `KPScraper.unpack` of scrapers/kinopoisk.py: rewrites, in the caller's
 * dictionary, the `genres` and `countries` lists of objects into lists of
 * their `genre` and `country` fields.
 */
module Kinopoisk {
  import opened Wrappers
  import opened Json

  /** The `packs` table: outer key and the field each element holds, in
      iteration order. */
  const Packs: seq<(string, string)> := [("genres", "genre"), ("countries", "country")]

  /** One round of the loop: an absent key is skipped; a present one is replaced
      by the list of its elements' inner fields, or the round raises. */
  function UnpackKey(m: map<string, Value>, key: string, inner: string): (r: Result<map<string, Value>, PyError>)
    ensures key !in m ==> r == Ok(m)
    ensures r.Ok? ==> r.value.Keys == m.Keys
    ensures r.Ok? ==> forall k :: k in m && k != key ==> r.value[k] == m[k]
    ensures key in m ==> (r.Ok? <==> PluckAll(m[key], Some(inner)).Ok?)
    ensures key in m && r.Ok? ==> r.value[key] == PluckAll(m[key], Some(inner)).value
  {
    if key !in m then Ok(m)
    else
      match PluckAll(m[key], Some(inner))
      case Ok(values) => Ok(m[key := values])
      case Err(e) => Err(e)
  }

  /** The loop over `packs`: the dictionary after the rounds that ran, and the
      error that stopped it, if any. A failed round leaves the earlier rounds'
      rewrites in place. */
  function Run(m: map<string, Value>, packs: seq<(string, string)>): (r: (map<string, Value>, Option<PyError>))
    ensures r.0.Keys == m.Keys
    ensures forall k :: k in m && (forall j :: 0 <= j < |packs| ==> packs[j].0 != k) ==> r.0[k] == m[k]
  {
    if |packs| == 0 then (m, None)
    else
      match UnpackKey(m, packs[0].0, packs[0].1)
      case Err(e) => (m, Some(e))
      case Ok(m') => Run(m', packs[1..])
  }

  /** Run takes one round at a time. */
  lemma RunStep(m: map<string, Value>, packs: seq<(string, string)>)
    requires |packs| > 0
    ensures UnpackKey(m, packs[0].0, packs[0].1).Err? ==>
      Run(m, packs) == (m, Some(UnpackKey(m, packs[0].0, packs[0].1).error))
    ensures UnpackKey(m, packs[0].0, packs[0].1).Ok? ==>
      Run(m, packs) == Run(UnpackKey(m, packs[0].0, packs[0].1).value, packs[1..])
  {
  }

  /** `unpack(data)`: rewrites `data` in place and returns that same object,
      or raises with the rounds before the failing one already applied. */
  method Unpack(data: Dict) returns (r: Result<Dict, PyError>)
    modifies data
    ensures data.entries == Run(old(data.entries), Packs).0
    ensures r.Ok? <==> Run(old(data.entries), Packs).1.None?
    ensures r.Ok? ==> r.value == data
    ensures r.Err? ==> Some(r.error) == Run(old(data.entries), Packs).1
  {
    ghost var start := data.entries;
    var i := 0;
    while i < |Packs|
      invariant 0 <= i <= |Packs|
      invariant Run(start, Packs) == Run(data.entries, Packs[i..])
    {
      var key, inner := Packs[i].0, Packs[i].1;
      RunStep(data.entries, Packs[i..]);
      assert Packs[i..][1..] == Packs[i + 1..];
      if key in data.entries {
        var values := PluckAll(data.entries[key], Some(inner));
        if values.Err? {
          return Err(values.error);
        }
        data.entries := data.entries[key := values.value];
      }
      i := i + 1;
    }
    assert Packs[i..] == [];
    r := Ok(data);
  }

  /** Keys other than `genres` and `countries` are untouched and no key is
      added or removed, whether or not the call raises. */
  lemma OtherKeysUnchanged(m: map<string, Value>, k: string)
    requires k != "genres" && k != "countries"
    ensures Run(m, Packs).0.Keys == m.Keys
    ensures k in m ==> Run(m, Packs).0[k] == m[k]
  {
  }

  /** A present `genres` list of objects that all hold `genre` becomes the list
      of those fields, same length and order; likewise for `countries`. */
  lemma {:induction false} GenresFlattened(m: map<string, Value>, items: seq<Value>)
    requires "genres" in m && m["genres"] == Arr(items)
    requires forall i :: 0 <= i < |items| ==> items[i].Obj? && "genre" in items[i].fields
    ensures "genres" in Run(m, Packs).0
    ensures Run(m, Packs).0["genres"] == Arr(seq(|items|, i requires 0 <= i < |items| => items[i].fields["genre"]))
  {
    PluckObjects(items, "genre");
    var m1 := UnpackKey(m, "genres", "genre").value;
    assert Run(m, Packs) == Run(m1, Packs[1..]);
    assert Packs[1..] == [("countries", "country")];
    assert Run(m1, Packs[1..]).0["genres"] == m1["genres"];
  }

  /** Once the `genres` round has gone through, a `countries` list of objects
      that all hold `country` is flattened the same way. */
  lemma {:induction false} CountriesFlattened(m: map<string, Value>, items: seq<Value>)
    requires "countries" in m && m["countries"] == Arr(items)
    requires forall i :: 0 <= i < |items| ==> items[i].Obj? && "country" in items[i].fields
    requires UnpackKey(m, "genres", "genre").Ok?
    ensures "countries" in Run(m, Packs).0
    ensures Run(m, Packs).0["countries"] == Arr(seq(|items|, i requires 0 <= i < |items| => items[i].fields["country"]))
  {
    PluckObjects(items, "country");
    var g := UnpackKey(m, "genres", "genre");
    assert Packs[1..] == [("countries", "country")];
    assert Run(m, Packs) == Run(g.value, Packs[1..]);
    assert g.value["countries"] == m["countries"];
  }

  /** An element of `genres` lacking `genre` makes the call raise KeyError
      before anything is written, when the elements before it are objects. */
  lemma {:induction false} MissingGenreRaises(m: map<string, Value>, items: seq<Value>, j: int)
    requires "genres" in m && m["genres"] == Arr(items)
    requires 0 <= j < |items| && items[j].Obj? && "genre" !in items[j].fields
    requires forall i :: 0 <= i < j ==> items[i].Obj?
    ensures Run(m, Packs).1 == Some(KeyError(Some("genre")))
    ensures Run(m, Packs).0 == m
  {
    PluckMissingKey(items, "genre", j);
  }

  /** Likewise for `countries`, once the `genres` round has gone through; the
      dictionary then keeps that round's rewrite. */
  lemma {:induction false} MissingCountryRaises(m: map<string, Value>, items: seq<Value>, j: int)
    requires "countries" in m && m["countries"] == Arr(items)
    requires 0 <= j < |items| && items[j].Obj? && "country" !in items[j].fields
    requires forall i :: 0 <= i < j ==> items[i].Obj?
    requires UnpackKey(m, "genres", "genre").Ok?
    ensures Run(m, Packs).1 == Some(KeyError(Some("country")))
    ensures Run(m, Packs).0 == UnpackKey(m, "genres", "genre").value
  {
    PluckMissingKey(items, "country", j);
    var g := UnpackKey(m, "genres", "genre");
    assert Packs[1..] == [("countries", "country")];
    assert Run(m, Packs) == Run(g.value, Packs[1..]);
    assert g.value["countries"] == m["countries"];
  }

  /** Without either key the dictionary comes back as it was. */
  lemma NothingToUnpack(m: map<string, Value>)
    requires "genres" !in m && "countries" !in m
    ensures Run(m, Packs) == (m, None)
  {
    assert UnpackKey(m, "genres", "genre") == Ok(m);
    assert Run(m, Packs) == Run(m, Packs[1..]);
    assert UnpackKey(m, "countries", "country") == Ok(m);
    assert Run(m, Packs[1..]) == Run(m, Packs[1..][1..]);
    assert Packs[1..][1..] == [];
  }
}
