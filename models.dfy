/**
 * The attribute descriptors of filmsearch/src/models.py: each relation as an
 * ordered list of attributes carrying a storage name, an optional API name, a
 * storage type and an optional generated-column expression.
 */
module Models {
  import opened Wrappers
  import opened Json
  import Notation

  /** The storage types of `Type`. */
  datatype DType = Integer | Float | Varchar | Text | Serial | ArrayVarchar | ArrayInteger | TsVector

  /** The SQL spelling of each type. */
  function TypeName(t: DType): string {
    match t
    case Integer => "INTEGER"
    case Float => "FLOAT"
    case Varchar => "VARCHAR"
    case Text => "TEXT"
    case Serial => "SERIAL"
    case ArrayVarchar => "VARCHAR[]"
    case ArrayInteger => "INTEGER[]"
    case TsVector => "tsvector"
  }

  /** `Type.default`, `Type.strings` and `Type.arrays`. */
  const DefaultTypes: set<DType> := {Float, Integer}
  const StringTypes: set<DType> := {Varchar, Text}
  const ArrayTypes: set<DType> := {ArrayVarchar}

  /** A storage-computed column expression. */
  datatype Generated = Generated(query: string)

  datatype Attribute = Attribute(
    name: string,
    api: Option<string>,
    dtype: DType,
    unpack: Option<string>,
    generated: Option<Generated>)

  /** `Attribute.conv(value)`: a list-of-strings column takes the `unpack` field
      of every element; every other column passes the value through. */
  function Conv(a: Attribute, value: Value): (r: Result<Value, PyError>)
    ensures a.dtype !in ArrayTypes ==> r == Ok(value)
    ensures a.dtype in ArrayTypes && value.Arr? ==>
      (r.Ok? <==> forall i :: 0 <= i < |value.items| ==> Index(value.items[i], a.unpack).Ok?)
    ensures a.dtype in ArrayTypes && value.Arr? && r.Ok? ==>
      r.value.Arr? && |r.value.items| == |value.items| &&
      forall i :: 0 <= i < |value.items| ==> r.value.items[i] == Index(value.items[i], a.unpack).value
    ensures a.dtype in ArrayTypes && !value.Arr? ==>
      (r.Ok? <==> value == Str("") || value == Obj(map[])) && (r.Err? ==> r.error == TypeError)
  {
    if a.dtype in ArrayTypes then PluckAll(value, a.unpack) else Ok(value)
  }

  /** `Attribute.db`: the column's DDL fragment. It opens with the column name
      and a space, and runs past the type exactly when the column is generated. */
  function Db(a: Attribute): (r: string)
    ensures |r| > |a.name| && r[..|a.name|] == a.name && r[|a.name|] == ' '
    ensures |r| > |a.name| + 1 + |TypeName(a.dtype)| <==> a.generated.Some?
  {
    var head := a.name + " " + TypeName(a.dtype);
    if a.generated.Some? then head + " " + a.generated.value.query else head
  }

  /** The fragment is `name type`, followed by ` expression` exactly when the
      column is generated. */
  lemma DbShape(a: Attribute)
    ensures Db(a)[..|a.name| + 1 + |TypeName(a.dtype)|] == a.name + " " + TypeName(a.dtype)
    ensures Db(a) == a.name + " " + TypeName(a.dtype) <==> a.generated.None?
    ensures a.generated.Some? ==>
      Db(a)[|a.name| + 1 + |TypeName(a.dtype)|..] == " " + a.generated.value.query
  {
    var head := a.name + " " + TypeName(a.dtype);
    if a.generated.Some? {
      assert |Db(a)| > |head|;
      assert Db(a)[..|head|] == head;
    }
  }

  /** One `Model` subclass: `_set_up_attributes` yields `attributes`, the
      upper-case class attributes in declaration order. */
  datatype Model = Model(tableName: string, attributes: seq<Attribute>)

  /** `Model.mapper` and `Model.reversed_mapper`: empty, and no subclass
      overrides them. */
  const ModelMapper: map<string, Option<string>> := map[]
  const ModelReversedMapper: map<string, Option<string>> := map[]

  /** `Model.api_mapper(column, reverse, default)`: with both maps empty it
      always falls back to `default`. */
  function ApiMapper(column: string, reverse: bool, default: Option<string>): (r: Option<string>)
    ensures r == default
  {
    Notation.DictGet(if reverse then ModelReversedMapper else ModelMapper, column, default)
  }

  // Film

  const FilmId := Attribute("id", None, Serial, None, None)
  const FilmKpId := Attribute("kp_id", Some("kinopoiskId"), Integer, None, None)
  const FilmImdbId := Attribute("imdb_id", Some("imdbId"), Varchar, None, None)
  const FilmNameRu := Attribute("name_ru", Some("nameRu"), Varchar, None, None)
  const FilmNameEng := Attribute("name_eng", Some("nameEn"), Varchar, None, None)
  const FilmNameOriginal := Attribute("name_original", Some("nameOriginal"), Varchar, None, None)
  const FilmYear := Attribute("year", Some("year"), Integer, None, None)
  const FilmType := Attribute("type", Some("type"), Varchar, None, None)
  const FilmLength := Attribute("lenght", Some("filmLength"), Integer, None, None)
  const FilmMpaa := Attribute("mpaa", Some("ratingMpaa"), Varchar, None, None)
  const FilmAgeLimit := Attribute("age_limit", Some("ratingAgeLimits"), Varchar, None, None)
  const FilmSlug := Attribute("slug", None, Varchar, None, None)
  const FilmTextSearchRu := Attribute(
    "txtsrch_ru", None, TsVector, None,
    Some(Generated("GENERATED ALWAYS AS (to_tsvector('russian', " + FilmNameRu.name + ")) STORED")))

  const FilmModel := Model("film", [
    FilmId, FilmKpId, FilmImdbId, FilmNameRu, FilmNameEng, FilmNameOriginal,
    FilmYear, FilmType, FilmLength, FilmMpaa, FilmAgeLimit, FilmSlug, FilmTextSearchRu])

  // FilmStat

  const FilmStatModel := Model("film_stat", [
    Attribute("id", None, Integer, None, None),
    Attribute("kp_reviews_count", Some("reviewsCount"), Integer, None, None),
    Attribute("kp_good_reviews_count", Some("ratingGoodReviewVoteCount"), Integer, None, None),
    Attribute("kp_reviews_rate", Some("ratingGoodReview"), Float, None, None),
    Attribute("kp_rate", Some("ratingKinopoisk"), Float, None, None),
    Attribute("imdb_rate", Some("ratingImdb"), Float, None, None),
    Attribute("world_critics_rate", Some("ratingFilmCritics"), Float, None, None),
    Attribute("rf_critics_rate", Some("ratingRfCritics"), Float, None, None),
    Attribute("kp_votes", Some("ratingKinopoiskVoteCount"), Integer, None, None),
    Attribute("imdb_votes", Some("ratingImdbVoteCount"), Integer, None, None),
    Attribute("world_critics_votes", Some("ratingFilmCriticsVoteCount"), Integer, None, None),
    Attribute("rf_critics_votes", Some("ratingRfCriticsVoteCount"), Integer, None, None)])

  // FilmData

  const FilmDataModel := Model("film_data", [
    Attribute("id", None, Integer, None, None),
    Attribute("slogan", Some("slogan"), Text, None, None),
    Attribute("description", Some("description"), Text, None, None),
    Attribute("short_description", Some("shortDescription"), Text, None, None)])

  // FilmPoster, FilmGenre, FilmCountry

  const FilmPosterModel := Model("film_poster", [
    Attribute("id", None, Integer, None, None),
    Attribute("img_path", None, Varchar, None, None)])

  const FilmGenreModel := Model("film_genre", [
    Attribute("id", None, Integer, None, None),
    Attribute("genre", Some("genres"), Varchar, None, None)])

  const FilmCountryModel := Model("film_country", [
    Attribute("id", None, Integer, None, None),
    Attribute("country", Some("countries"), Varchar, None, None)])

  const AllModels := [FilmModel, FilmStatModel, FilmDataModel, FilmPosterModel, FilmGenreModel, FilmCountryModel]

  /** `Type.arrays` holds only `VARCHAR[]`: an `INTEGER[]` column is not unpacked. */
  lemma OnlyVarcharArraysUnpacked(a: Attribute, value: Value)
    requires a.dtype != ArrayVarchar
    ensures Conv(a, value) == Ok(value)
  {
  }

  /** A `VARCHAR[]` column turns a list of objects into the list of their
      `unpack` fields, same length and order. */
  lemma ConvUnpacksObjects(a: Attribute, items: seq<Value>)
    requires a.dtype == ArrayVarchar && a.unpack.Some?
    requires forall i :: 0 <= i < |items| ==> items[i].Obj? && a.unpack.value in items[i].fields
    ensures Conv(a, Arr(items))
      == Ok(Arr(seq(|items|, i requires 0 <= i < |items| => items[i].fields[a.unpack.value])))
  {
    PluckObjects(items, a.unpack.value);
  }

  /** No declared attribute is a `VARCHAR[]` column, so `conv` passes every
      value through for all six relations. */
  lemma DeclaredConvIsIdentity(k: nat, i: nat, value: Value)
    requires k < |AllModels| && i < |AllModels[k].attributes|
    ensures Conv(AllModels[k].attributes[i], value) == Ok(value)
  {
    assert k in {0, 1, 2, 3, 4, 5};
    var m := AllModels[k];
    assert forall j :: 0 <= j < |m.attributes| ==> m.attributes[j].dtype != ArrayVarchar;
  }

  /** The full-text column is a generated tsvector column whose expression
      applies `to_tsvector('russian', ...)` to the `name_ru` column. */
  lemma TextSearchColumn()
    ensures FilmTextSearchRu.dtype == TsVector && FilmTextSearchRu.api == None
    ensures Db(FilmTextSearchRu)[..20] == "txtsrch_ru tsvector "
    ensures Db(FilmTextSearchRu)[20..64] == "GENERATED ALWAYS AS (to_tsvector('russian', "
    ensures Db(FilmTextSearchRu)[64..71] == FilmNameRu.name
    ensures Db(FilmTextSearchRu)[71..] == ")) STORED"
  {
    var head := "txtsrch_ru tsvector ";
    var open := "GENERATED ALWAYS AS (to_tsvector('russian', ";
    var close := ")) STORED";
    assert "txtsrch_ru" + " " + "tsvector" + " " == head;
    var db := head + open + FilmNameRu.name + close;
    assert Db(FilmTextSearchRu) == db;
    assert |head| == 20 && |open| == 44 && |FilmNameRu.name| == 7;
    assert db[..20] == head;
    assert db[20..64] == open;
    assert db[64..71] == FilmNameRu.name;
    assert db[71..] == close;
  }

  /** Every relation is keyed by `id`, which has no API name. */
  lemma IdFirst(k: nat)
    requires k < |AllModels|
    ensures |AllModels[k].attributes| > 0
    ensures AllModels[k].attributes[0].name == "id" && AllModels[k].attributes[0].api == None
  {
    assert k in {0, 1, 2, 3, 4, 5};
  }

  /** The film model declares every column of the film notation table with the
      same API name. */
  lemma FilmModelCoversNotation(i: nat)
    requires i < |Notation.FilmTable.columns|
    ensures exists j :: (0 <= j < |FilmModel.attributes| &&
      FilmModel.attributes[j].name == Notation.FilmTable.columns[i] &&
      FilmModel.attributes[j].api == Notation.FilmTable.mapper[Notation.FilmTable.columns[i]])
  {
    assert i in {0, 1, 2, 3, 4, 5, 6, 7, 8, 9};
    var j := if i == 9 then 11 else i;
    assert FilmModel.attributes[j].name == Notation.FilmTable.columns[i];
  }

  /** So does the film-stat model for its notation table, column for column. */
  lemma FilmStatModelMatchesNotation(i: nat)
    requires i < |Notation.FilmStatTable.columns|
    ensures |FilmStatModel.attributes| == |Notation.FilmStatTable.columns|
    ensures FilmStatModel.attributes[i].name == Notation.FilmStatTable.columns[i]
    ensures FilmStatModel.attributes[i].api == Notation.FilmStatTable.mapper[Notation.FilmStatTable.columns[i]]
  {
    assert i in {0, 1, 2, 3, 4, 5, 6, 7, 8, 9, 10, 11};
  }
}
