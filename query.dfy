/**
 * The INSERT builder of filmsearch/src/db.py (`Query.insert_allocate` and
 * `Query.insert_film_query`): keep the columns whose API field is present and
 * not null in the payload, in column order, and render
 * `prefix(col,...) VALUES(val,...)` by plain string concatenation.
 */
module Query {
  import opened Wrappers
  import opened Json
  import opened Text
  import Notation

  /** The dictionary the comprehension builds, as its entries in insertion order. */
  type Entries = seq<(string, Value)>

  function Keys(e: Entries): (ks: seq<string>)
    ensures |ks| == |e| && forall i :: 0 <= i < |e| ==> ks[i] == e[i].0
  {
    seq(|e|, i requires 0 <= i < |e| => e[i].0)
  }

  function Vals(e: Entries): (vs: seq<Value>)
    ensures |vs| == |e| && forall i :: 0 <= i < |e| ==> vs[i] == e[i].1
  {
    seq(|e|, i requires 0 <= i < |e| => e[i].1)
  }

  ghost predicate DistinctKeys(e: Entries) {
    forall i, j :: 0 <= i < j < |e| ==> e[i].0 != e[j].0
  }

  /** `d[k] = v` on a Python dictionary: a new key goes last, an existing key
      keeps its place and takes the new value. */
  function Put(e: Entries, k: string, v: Value): (r: Entries)
    requires DistinctKeys(e)
    ensures k !in Keys(e) ==> r == e + [(k, v)]
    ensures k in Keys(e) ==> (|r| == |e| &&
      forall i :: 0 <= i < |e| ==> r[i] == if e[i].0 == k then (k, v) else e[i])
    ensures DistinctKeys(r)
  {
    if |e| == 0 then [(k, v)]
    else if e[0].0 == k then [(k, v)] + e[1..]
    else
      assert k in Keys(e) <==> k in Keys(e[1..]) by {
        if k in Keys(e) {
          var i :| 0 <= i < |e| && Keys(e)[i] == k;
          assert Keys(e[1..])[i - 1] == k;
        }
        if k in Keys(e[1..]) {
          var i :| 0 <= i < |e| - 1 && Keys(e[1..])[i] == k;
          assert Keys(e)[i + 1] == k;
        }
      }
      [e[0]] + Put(e[1..], k, v)
  }

  /** What `json_data.get(note_obj.api_mapper(col))` yields for a column. */
  function ApiValue(t: Notation.Table, payload: map<string, Value>, column: string): Value {
    Get(payload, Notation.ApiMapper(t, column, false, None))
  }

  /** Whether the comprehension keeps a column. */
  predicate Included(t: Notation.Table, payload: map<string, Value>, column: string) {
    ApiValue(t, payload, column) != Null
  }

  /** The comprehension `{col: get(col) for col in columns if get(col) is not None}`
      run over `columns`, one column after the other. */
  function Collect(t: Notation.Table, columns: seq<string>, payload: map<string, Value>): (e: Entries)
    ensures forall c :: c in Keys(e) <==> c in columns && Included(t, payload, c)
    ensures DistinctKeys(e)
    ensures forall i :: 0 <= i < |e| ==> e[i].1 == ApiValue(t, payload, e[i].0)
  {
    if |columns| == 0 then []
    else
      var e := Collect(t, columns[..|columns| - 1], payload);
      var c := columns[|columns| - 1];
      assert columns == columns[..|columns| - 1] + [c];
      var v := ApiValue(t, payload, c);
      if v != Null then
        var r := Put(e, c, v);
        assert forall x :: x in Keys(r) <==> x in Keys(e) || x == c by {
          if c !in Keys(e) {
            assert Keys(r) == Keys(e) + [c];
          } else {
            assert Keys(r) == Keys(e);
          }
        }
        r
      else e
  }

  /** The columns of `columns` the comprehension keeps, in order. */
  function Kept(t: Notation.Table, columns: seq<string>, payload: map<string, Value>): seq<string> {
    if |columns| == 0 then []
    else (if Included(t, payload, columns[0]) then [columns[0]] else []) + Kept(t, columns[1..], payload)
  }

  lemma {:induction false} KeptSnoc(t: Notation.Table, columns: seq<string>, c: string, payload: map<string, Value>)
    ensures Kept(t, columns + [c], payload) == Kept(t, columns, payload) + Kept(t, [c], payload)
  {
    if |columns| > 0 {
      assert (columns + [c])[1..] == columns[1..] + [c];
      KeptSnoc(t, columns[1..], c, payload);
    }
  }

  /** With each column listed once, the kept columns appear exactly in the
      order of the column list. */
  lemma {:induction false} CollectOrder(t: Notation.Table, columns: seq<string>, payload: map<string, Value>)
    requires Notation.Distinct(columns)
    ensures Keys(Collect(t, columns, payload)) == Kept(t, columns, payload)
  {
    if |columns| > 0 {
      var init := columns[..|columns| - 1];
      var c := columns[|columns| - 1];
      assert columns == init + [c];
      assert Notation.Distinct(init);
      CollectOrder(t, init, payload);
      KeptSnoc(t, init, c, payload);
      var e := Collect(t, init, payload);
      assert c !in init;
      assert c !in Keys(e);
      if Included(t, payload, c) {
        assert Keys(Put(e, c, ApiValue(t, payload, c))) == Keys(e) + [c];
      }
    }
  }

  /** The entries `insert_allocate` selects for a table. */
  function Selected(t: Notation.Table, payload: map<string, Value>): Entries {
    Collect(t, t.columns, payload)
  }

  predicate AllStrings(vs: seq<Value>) {
    forall i :: 0 <= i < |vs| ==> vs[i].Str?
  }

  function Strings(vs: seq<Value>): (ss: seq<string>)
    requires AllStrings(vs)
    ensures |ss| == |vs| && forall i :: 0 <= i < |vs| ==> vs[i] == Str(ss[i])
  {
    seq(|vs|, i requires 0 <= i < |vs| => vs[i].s)
  }

  /** `query + "(" + ",".join(cols) + ")" + " VALUES" + "(" + ",".join(vals) + ")"`. */
  function Render(query: string, columns: seq<string>, values: seq<string>): string {
    query + "(" + Join(',', columns) + ")" + " VALUES" + "(" + Join(',', values) + ")"
  }

  /** `insert_allocate(query, note_obj, json_data)`. The values are joined as
      they are, so a selected value that is not a string raises TypeError. */
  function InsertAllocate(query: string, t: Notation.Table, payload: map<string, Value>): (r: Result<string, PyError>)
    ensures r.Ok? <==> AllStrings(Vals(Selected(t, payload)))
    ensures r.Err? ==> r.error == TypeError
    ensures r.Ok? ==> r.value == Render(query, Keys(Selected(t, payload)), Strings(Vals(Selected(t, payload))))
  {
    var e := Selected(t, payload);
    if AllStrings(Vals(e)) then Ok(Render(query, Keys(e), Strings(Vals(e)))) else Err(TypeError)
  }

  /** `insert_film_query(json_data)`: the builder applied to the film table.
      It fails only when a selected film value is not a string, and a built
      statement is an INSERT into `film` whose column list follows at once. */
  function InsertFilmQuery(payload: map<string, Value>): (r: Result<string, PyError>)
    ensures r.Ok? <==> AllStrings(Vals(Selected(Notation.FilmTable, payload)))
    ensures r.Err? ==> r.error == TypeError
    ensures r.Ok? ==> |r.value| > 17 && r.value[..17] == "INSERT INTO film(" && r.value[|r.value| - 1] == ')'
  {
    FilmPrefix();
    InsertAllocate("INSERT INTO " + Notation.FilmTable.tableName, Notation.FilmTable, payload)
  }

  // Properties of the selection

  /** A column is inserted exactly when it has an API name and the payload holds
      a non-null value under that name. */
  lemma SelectedExactly(t: Notation.Table, payload: map<string, Value>, c: string)
    ensures c in Keys(Selected(t, payload)) <==>
      && c in t.columns
      && Notation.ApiMapper(t, c, false, None).Some?
      && Notation.ApiMapper(t, c, false, None).value in payload
      && payload[Notation.ApiMapper(t, c, false, None).value] != Null
  {
  }

  /** As many values as columns, the i-th value being the payload's value for
      the i-th column's API name, each column at most once. */
  lemma SelectedValues(t: Notation.Table, payload: map<string, Value>)
    ensures |Keys(Selected(t, payload))| == |Vals(Selected(t, payload))|
    ensures forall i :: 0 <= i < |Selected(t, payload)| ==>
      var api := Notation.ApiMapper(t, Keys(Selected(t, payload))[i], false, None);
      api.Some? && api.value in payload && Vals(Selected(t, payload))[i] == payload[api.value]
    ensures DistinctKeys(Selected(t, payload))
  {
    var e := Selected(t, payload);
    forall i | 0 <= i < |e|
      ensures var api := Notation.ApiMapper(t, Keys(e)[i], false, None);
        api.Some? && api.value in payload && Vals(e)[i] == payload[api.value]
    {
      assert e[i].0 in Keys(e);
    }
  }

  /** For the film table the inserted columns keep the declared column order. */
  lemma FilmSelectionOrder(payload: map<string, Value>)
    ensures Keys(Selected(Notation.FilmTable, payload)) == Kept(Notation.FilmTable, Notation.FilmTable.columns, payload)
  {
    Notation.FilmTableKeys();
    CollectOrder(Notation.FilmTable, Notation.FilmTable.columns, payload);
  }

  /** The server-side columns `id` and `slug` never reach the statement. */
  lemma ServerColumnsNeverInserted(payload: map<string, Value>)
    ensures "id" !in Keys(Selected(Notation.FilmTable, payload))
    ensures "slug" !in Keys(Selected(Notation.FilmTable, payload))
  {
    Notation.ServerColumnsUnmapped();
  }

  /** No included column, nothing kept. */
  lemma {:induction false} KeptNone(t: Notation.Table, columns: seq<string>, payload: map<string, Value>)
    requires forall d :: d in columns ==> !Included(t, payload, d)
    ensures Kept(t, columns, payload) == []
  {
    if |columns| > 0 {
      assert columns[0] in columns;
      KeptNone(t, columns[1..], payload);
    }
  }

  /** One included column, listed once: exactly that column is kept. */
  lemma {:induction false} KeptSingle(t: Notation.Table, columns: seq<string>, payload: map<string, Value>, c: string)
    requires Notation.Distinct(columns) && c in columns
    requires forall d :: d in columns ==> (Included(t, payload, d) <==> d == c)
    ensures Kept(t, columns, payload) == [c]
  {
    if columns[0] == c {
      assert c !in columns[1..];
      KeptNone(t, columns[1..], payload);
    } else {
      assert Notation.Distinct(columns[1..]);
      KeptSingle(t, columns[1..], payload, c);
    }
  }

  /** A payload holding a single mapped API field selects exactly that field's
      column. */
  lemma SingleField(t: Notation.Table, api: string, x: Value, column: string)
    requires Notation.Consistent(t) && Notation.Distinct(t.columns)
    requires api in t.reversedMapper && t.reversedMapper[api] == Some(column) && x != Null
    ensures Selected(t, map[api := x]) == [(column, x)]
  {
    var p := map[api := x];
    var e := Selected(t, p);
    assert column in t.columns;
    forall d | d in t.columns ensures Included(t, p, d) <==> d == column {
      if Included(t, p, d) {
        assert Notation.ApiMapper(t, d, false, None) == Some(api);
      }
    }
    KeptSingle(t, t.columns, p, column);
    CollectOrder(t, t.columns, p);
    assert Keys(e) == [column];
  }

  /** The film table's statement prefix, spelled out. */
  lemma FilmPrefix()
    ensures "INSERT INTO " + Notation.FilmTable.tableName == "INSERT INTO film"
  {
  }

  /** SingleField for the film table. */
  lemma FilmSingleField(api: string, x: Value, column: string)
    requires api in Notation.FilmTable.reversedMapper && Notation.FilmTable.reversedMapper[api] == Some(column)
    requires x != Null
    ensures Selected(Notation.FilmTable, map[api := x]) == [(column, x)]
  {
    Notation.FilmTableWellFormed();
    SingleField(Notation.FilmTable, api, x, column);
  }

  /** Only null and absent values are dropped, and values are spliced in
      unquoted: any title, the empty one included, is written as it is. */
  lemma TitleRendered(v: string)
    ensures InsertFilmQuery(map["nameRu" := Str(v)]) == Ok("INSERT INTO film(name_ru) VALUES(" + v + ")")
  {
    FilmPrefix();
    FilmSingleField("nameRu", Str(v), "name_ru");
    var e := Selected(Notation.FilmTable, map["nameRu" := Str(v)]);
    assert Keys(e) == ["name_ru"] && Strings(Vals(e)) == [v];
    RenderedText("name_ru", v, "INSERT INTO film(name_ru) VALUES(" + v + ")");
  }

  /** A zero year is selected too, and then makes the join raise TypeError. */
  lemma ZeroYearKept()
    ensures Selected(Notation.FilmTable, map["year" := Num(0.0)]) == [("year", Num(0.0))]
    ensures InsertFilmQuery(map["year" := Num(0.0)]) == Err(TypeError)
  {
    FilmSingleField("year", Num(0.0), "year");
  }

  /** The film statement for one column and one value, spelled out. */
  lemma RenderedText(k: string, v: string, text: string)
    requires text == "INSERT INTO film(" + k + ") VALUES(" + v + ")"
    ensures Render("INSERT INTO film", [k], [v]) == text
  {
  }

  /** With nothing to insert the statement still has both empty lists. */
  lemma EmptySelection(payload: map<string, Value>)
    requires forall c :: c in Notation.FilmTable.columns ==> !Included(Notation.FilmTable, payload, c)
    ensures InsertFilmQuery(payload) == Ok("INSERT INTO film() VALUES()")
  {
    NothingSelected(Notation.FilmTable, payload);
    FilmPrefix();
    assert Render("INSERT INTO film", [], []) == "INSERT INTO film() VALUES()";
  }

  /** No column whose API value is present selects nothing. */
  lemma NothingSelected(t: Notation.Table, payload: map<string, Value>)
    requires forall c :: c in t.columns ==> !Included(t, payload, c)
    ensures Selected(t, payload) == []
  {
    var e := Selected(t, payload);
    assert |e| > 0 ==> e[0].0 in Keys(e);
  }

  // Reading a statement back

  const ValuesMarker: string := ") VALUES("

  /** Recovers the column and value lists from `prefix(cols) VALUES(vals)`. */
  function ParseInsert(query: string, sql: string): Option<(seq<string>, seq<string>)> {
    if |sql| < |query| + 1 || sql[..|query|] != query || sql[|query|] != '(' then None
    else ParseBody(sql[|query| + 1..])
  }

  /** `cols) VALUES(vals)`: the column list ends at the first `)`. */
  function ParseBody(body: string): Option<(seq<string>, seq<string>)> {
    var i := IndexOf(')', body);
    ParseTail(body[..i], body[i..])
  }

  /** `) VALUES(vals)` after the column list. */
  function ParseTail(columnsText: string, tail: string): Option<(seq<string>, seq<string>)> {
    if |tail| < |ValuesMarker| + 1 || tail[..|ValuesMarker|] != ValuesMarker || tail[|tail| - 1] != ')' then None
    else ParseLists(columnsText, tail[|ValuesMarker|..|tail| - 1])
  }

  /** Both lists split at commas; an empty column list must have an empty value list. */
  function ParseLists(columnsText: string, valuesText: string): Option<(seq<string>, seq<string>)> {
    if columnsText == "" then (if valuesText == "" then Some(([], [])) else None)
    else Some((Split(',', columnsText), Split(',', valuesText)))
  }

  /** The shape `prefix(k) VALUES(v)` is read back as `k` and `v` split at
      commas, as long as `k` has no closing parenthesis. */
  lemma ParseShape(query: string, k: string, v: string)
    requires ')' !in k
    ensures ParseInsert(query, query + "(" + k + ")" + " VALUES" + "(" + v + ")") == ParseLists(k, v)
  {
    var sql := query + "(" + k + ")" + " VALUES" + "(" + v + ")";
    var body := k + ")" + " VALUES" + "(" + v + ")";
    assert sql == query + ("(" + body);
    assert sql[..|query|] == query;
    assert sql[|query| + 1..] == body;
    BodyShape(k, v);
  }

  lemma BodyShape(k: string, v: string)
    requires ')' !in k
    ensures ParseBody(k + ")" + " VALUES" + "(" + v + ")") == ParseLists(k, v)
  {
    var rest := " VALUES" + "(" + v + ")";
    var body := k + ")" + " VALUES" + "(" + v + ")";
    assert body == k + [')'] + rest;
    IndexOfAfter(')', k, rest);
    assert body[..|k|] == k;
    var tail := body[|k|..];
    assert tail == ValuesMarker + v + ")";
    TailShape(k, v);
  }

  lemma TailShape(k: string, v: string)
    ensures ParseTail(k, ValuesMarker + v + ")") == ParseLists(k, v)
  {
    var tail := ValuesMarker + v + ")";
    assert tail[..|ValuesMarker|] == ValuesMarker;
    assert tail[|ValuesMarker|..|tail| - 1] == v;
  }

  /** Rendering loses nothing when names are non-empty and free of `,` and `)`
      and values are free of `,`. */
  lemma RenderParse(query: string, columns: seq<string>, values: seq<string>)
    requires |columns| == |values|
    requires forall i :: 0 <= i < |columns| ==> columns[i] != "" && ',' !in columns[i] && ')' !in columns[i]
    requires forall i :: 0 <= i < |values| ==> ',' !in values[i]
    ensures ParseInsert(query, Render(query, columns, values)) == Some((columns, values))
  {
    JoinChars(',', columns, ')');
    ParseShape(query, Join(',', columns), Join(',', values));
    assert Render(query, columns, values)
      == query + "(" + Join(',', columns) + ")" + " VALUES" + "(" + Join(',', values) + ")";
    if |columns| > 0 {
      SplitJoin(',', columns);
      SplitJoin(',', values);
    }
  }

  /** An INSERT built from a well-formed table reads back as exactly the selected
      columns and their values, as long as no value contains a comma. */
  lemma InsertReadsBack(query: string, t: Notation.Table, payload: map<string, Value>)
    requires forall c :: c in t.columns ==> c != "" && ',' !in c && ')' !in c
    requires InsertAllocate(query, t, payload).Ok?
    requires forall i :: 0 <= i < |Selected(t, payload)| ==> ',' !in Vals(Selected(t, payload))[i].s
    ensures ParseInsert(query, InsertAllocate(query, t, payload).value)
      == Some((Keys(Selected(t, payload)), Strings(Vals(Selected(t, payload)))))
  {
    var e := Selected(t, payload);
    forall i | 0 <= i < |e| ensures Keys(e)[i] in t.columns {
      assert Keys(e)[i] in Keys(e);
    }
    RenderParse(query, Keys(e), Strings(Vals(e)));
  }

  /** Values are spliced in unquoted: one title containing a comma reads back as
      two values for one column. */
  lemma CommaValueSplits()
    ensures InsertFilmQuery(map["nameRu" := Str("a,b")]).Ok?
    ensures ParseInsert("INSERT INTO film", InsertFilmQuery(map["nameRu" := Str("a,b")]).value)
      == Some((["name_ru"], ["a", "b"]))
  {
    TitleRendered("a,b");
    CommaText();
    CommaValueReadBack();
  }

  lemma CommaText()
    ensures "INSERT INTO film(name_ru) VALUES(" + "a,b" + ")" == "INSERT INTO film(name_ru) VALUES(a,b)"
  {
  }

  lemma CommaValueReadBack()
    ensures ParseInsert("INSERT INTO film", "INSERT INTO film(name_ru) VALUES(a,b)") == Some((["name_ru"], ["a", "b"]))
  {
    var sql := "INSERT INTO film(name_ru) VALUES(a,b)";
    assert sql == "INSERT INTO film" + "(" + "name_ru" + ")" + " VALUES" + "(" + "a,b" + ")";
    assert ')' !in "name_ru";
    ParseShape("INSERT INTO film", "name_ru", "a,b");
    assert ParseInsert("INSERT INTO film", sql) == ParseLists("name_ru", "a,b");
    SplitSamples();
  }

  lemma SplitSamples()
    ensures Split(',', "name_ru") == ["name_ru"]
    ensures Split(',', "a,b") == ["a", "b"]
  {
    assert Join(',', ["name_ru"]) == "name_ru";
    SplitJoin(',', ["name_ru"]);
    assert Join(',', ["a", "b"]) == "a,b";
    SplitJoin(',', ["a", "b"]);
  }
}
