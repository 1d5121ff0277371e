/**
 * The column tables of filmsearch/src/notation.py: for each relation its
 * storage columns in declaration order, a map from column to external API
 * field name (None for server-side columns) and the reverse map.
 */
module Notation {
  import opened Wrappers

  /** One `Notation` subclass. `columns` is what `_set_up_columns` collects:
      the upper-case class attributes other than TABLE_NAME and EXCLUDE, in
      declaration order. The reverse map's values are always present. */
  datatype Table = Table(
    tableName: string,
    columns: seq<string>,
    mapper: map<string, Option<string>>,
    reversedMapper: map<string, Option<string>>)

  /** `m.get(key, default)`. */
  function DictGet(m: map<string, Option<string>>, key: string, default: Option<string>): (r: Option<string>)
    ensures key in m ==> r == m[key]
    ensures key !in m ==> r == default
  {
    if key in m then m[key] else default
  }

  /** `api_mapper(column, reverse, default)`: the API name of a column, or with
      `reverse` the column of an API name; `default` when the table has no entry. */
  function ApiMapper(t: Table, column: string, reverse: bool, default: Option<string>): (r: Option<string>)
    ensures !reverse ==> r == if column in t.mapper then t.mapper[column] else default
    ensures reverse ==> r == if column in t.reversedMapper then t.reversedMapper[column] else default
  {
    DictGet(if reverse then t.reversedMapper else t.mapper, column, default)
  }

  /** No column is listed twice. */
  ghost predicate Distinct(s: seq<string>) {
    forall i, j :: 0 <= i < j < |s| ==> s[i] != s[j]
  }

  /** The column list is the key set of the forward map. */
  ghost predicate KeysMatch(t: Table) {
    forall c :: c in t.columns <==> c in t.mapper
  }

  /** Every non-null API name has a reverse entry pointing back at its column. */
  ghost predicate ForwardInverted(t: Table) {
    forall c :: c in t.mapper && t.mapper[c].Some? ==>
      t.mapper[c].value in t.reversedMapper && t.reversedMapper[t.mapper[c].value] == Some(c)
  }

  /** Every reverse entry names a column whose API name is that entry's key. */
  ghost predicate ReverseInverted(t: Table) {
    forall a :: a in t.reversedMapper ==>
      t.reversedMapper[a].Some? && t.reversedMapper[a].value in t.mapper &&
      t.mapper[t.reversedMapper[a].value] == Some(a)
  }

  /** The reverse map has exactly one entry per non-null API name, pointing back
      at its column, and the column list is the key set of the forward map. */
  ghost predicate Consistent(t: Table) {
    KeysMatch(t) && ForwardInverted(t) && ReverseInverted(t)
  }

  /** A consistent table maps columns and API names both ways. */
  lemma RoundTrip(t: Table, column: string, api: string)
    requires Consistent(t)
    ensures ApiMapper(t, column, false, None) == Some(api) <==>
            (column in t.columns && ApiMapper(t, api, true, None) == Some(column))
  {
  }

  /** So the non-null API names of a consistent table are pairwise distinct. */
  lemma ApiNamesDistinct(t: Table, c1: string, c2: string)
    requires Consistent(t)
    requires c1 in t.mapper && c2 in t.mapper && t.mapper[c1].Some? && t.mapper[c1] == t.mapper[c2]
    ensures c1 == c2
  {
    assert t.reversedMapper[t.mapper[c1].value] == Some(c1);
  }

  // Film

  const FilmTable := Table(
    "film",
    ["id", "kp_id", "imdb_id", "name_ru", "name_eng", "name_original", "year", "type", "lenght", "slug"],
    map[
      "id" := None,
      "kp_id" := Some("kinopoiskId"),
      "imdb_id" := Some("imdbId"),
      "name_ru" := Some("nameRu"),
      "name_eng" := Some("nameEn"),
      "name_original" := Some("nameOriginal"),
      "year" := Some("year"),
      "type" := Some("type"),
      "lenght" := Some("filmLength"),
      "slug" := None],
    map[
      "kinopoiskId" := Some("kp_id"),
      "imdbId" := Some("imdb_id"),
      "nameRu" := Some("name_ru"),
      "nameEn" := Some("name_eng"),
      "nameOriginal" := Some("name_original"),
      "year" := Some("year"),
      "type" := Some("type"),
      "filmLength" := Some("lenght")])

  // FilmStat

  const FilmStatTable := Table(
    "film_stat",
    ["id", "kp_reviews_count", "kp_good_reviews_count", "kp_reviews_rate",
     "kp_rate", "imdb_rate", "world_critics_rate", "rf_critics_rate",
     "kp_votes", "imdb_votes", "world_critics_votes", "rf_critics_votes"],
    map[
      "id" := None,
      "kp_reviews_count" := Some("reviewsCount"),
      "kp_good_reviews_count" := Some("ratingGoodReviewVoteCount"),
      "kp_reviews_rate" := Some("ratingGoodReview"),
      "kp_rate" := Some("ratingKinopoisk"),
      "imdb_rate" := Some("ratingImdb"),
      "world_critics_rate" := Some("ratingFilmCritics"),
      "rf_critics_rate" := Some("ratingRfCritics"),
      "kp_votes" := Some("ratingKinopoiskVoteCount"),
      "imdb_votes" := Some("ratingImdbVoteCount"),
      "world_critics_votes" := Some("ratingFilmCriticsVoteCount"),
      "rf_critics_votes" := Some("ratingRfCriticsVoteCount")],
    map[
      "reviewsCount" := Some("kp_reviews_count"),
      "ratingGoodReviewVoteCount" := Some("kp_good_reviews_count"),
      "ratingGoodReview" := Some("kp_reviews_rate"),
      "ratingKinopoisk" := Some("kp_rate"),
      "ratingImdb" := Some("imdb_rate"),
      "ratingFilmCritics" := Some("world_critics_rate"),
      "ratingRfCritics" := Some("rf_critics_rate"),
      "ratingKinopoiskVoteCount" := Some("kp_votes"),
      "ratingImdbVoteCount" := Some("imdb_votes"),
      "ratingFilmCriticsVoteCount" := Some("world_critics_votes"),
      "ratingRfCriticsVoteCount" := Some("rf_critics_votes")])

  // FilmData

  const FilmDataTable := Table(
    "film_data",
    ["id", "slogan", "description", "short_description", "mpaa", "age_limit", "countries", "genres"],
    map[
      "id" := None,
      "slogan" := Some("slogan"),
      "description" := Some("description"),
      "short_description" := Some("shortDescription"),
      "mpaa" := Some("ratingMpaa"),
      "age_limit" := Some("ratingAgeLimits"),
      "countries" := Some("countries"),
      "genres" := Some("genres")],
    map[
      "slogan" := Some("slogan"),
      "description" := Some("description"),
      "shortDescription" := Some("short_description"),
      "ratingMpaa" := Some("mpaa"),
      "ratingAgeLimits" := Some("age_limit"),
      "countries" := Some("countries"),
      "genres" := Some("genres")])

  /** The forward map of `t` inverts at column `c`. */
  ghost predicate ForwardAt(t: Table, c: string) {
    c in t.mapper && t.mapper[c].Some? ==>
      t.mapper[c].value in t.reversedMapper && t.reversedMapper[t.mapper[c].value] == Some(c)
  }

  /** The reverse map of `t` inverts at API name `a`. */
  ghost predicate ReverseAt(t: Table, a: string) {
    a in t.reversedMapper ==>
      t.reversedMapper[a].Some? && t.reversedMapper[a].value in t.mapper &&
      t.mapper[t.reversedMapper[a].value] == Some(a)
  }

  /** A table is consistent once each listed column and each reverse entry is
      checked on its own. */
  lemma ConsistentByEntries(t: Table)
    requires KeysMatch(t)
    requires forall c :: c in t.columns ==> ForwardAt(t, c)
    requires forall a :: a in t.reversedMapper ==> ReverseAt(t, a)
    ensures Consistent(t)
  {
  }

  // Each table is checked a few entries at a time, which keeps every proof
  // obligation about the literal maps small.

  /** The film table is consistent and lists each column once. */
  lemma FilmTableWellFormed()
    ensures Consistent(FilmTable) && Distinct(FilmTable.columns)
  {
    FilmTableKeys();
    FilmTableForward();
    FilmTableReverse();
    ConsistentByEntries(FilmTable);
  }

  lemma FilmTableKeys()
    ensures KeysMatch(FilmTable) && Distinct(FilmTable.columns)
  {
  }

  lemma FilmTableForward()
    ensures forall c :: c in FilmTable.columns ==> ForwardAt(FilmTable, c)
  {
    FilmTableForward1(); FilmTableForward2(); FilmTableForward3(); FilmTableForward4();
  }

  lemma FilmTableReverse()
    ensures forall a :: a in FilmTable.reversedMapper ==> ReverseAt(FilmTable, a)
  {
    FilmTableReverse1(); FilmTableReverse2(); FilmTableReverse3();
  }

  lemma FilmTableForward1()
    ensures ForwardAt(FilmTable, "id") && ForwardAt(FilmTable, "kp_id") && ForwardAt(FilmTable, "imdb_id")
  {
  }

  lemma FilmTableForward2()
    ensures ForwardAt(FilmTable, "name_ru") && ForwardAt(FilmTable, "name_eng") && ForwardAt(FilmTable, "name_original")
  {
  }

  lemma FilmTableForward3()
    ensures ForwardAt(FilmTable, "year") && ForwardAt(FilmTable, "type") && ForwardAt(FilmTable, "lenght")
  {
  }

  lemma FilmTableForward4()
    ensures ForwardAt(FilmTable, "slug")
  {
  }

  lemma FilmTableReverse1()
    ensures ReverseAt(FilmTable, "kinopoiskId") && ReverseAt(FilmTable, "imdbId") && ReverseAt(FilmTable, "nameRu")
  {
  }

  lemma FilmTableReverse2()
    ensures ReverseAt(FilmTable, "nameEn") && ReverseAt(FilmTable, "nameOriginal") && ReverseAt(FilmTable, "year")
  {
  }

  lemma FilmTableReverse3()
    ensures ReverseAt(FilmTable, "type") && ReverseAt(FilmTable, "filmLength")
  {
  }


  /** The film_stat table is consistent and lists each column once. */
  lemma FilmStatTableWellFormed()
    ensures Consistent(FilmStatTable) && Distinct(FilmStatTable.columns)
  {
    FilmStatTableKeys();
    FilmStatTableForward();
    FilmStatTableReverse();
    ConsistentByEntries(FilmStatTable);
  }

  lemma FilmStatTableKeys()
    ensures KeysMatch(FilmStatTable) && Distinct(FilmStatTable.columns)
  {
  }

  lemma FilmStatTableForward()
    ensures forall c :: c in FilmStatTable.columns ==> ForwardAt(FilmStatTable, c)
  {
    FilmStatTableForward1(); FilmStatTableForward2(); FilmStatTableForward3(); FilmStatTableForward4();
  }

  lemma FilmStatTableReverse()
    ensures forall a :: a in FilmStatTable.reversedMapper ==> ReverseAt(FilmStatTable, a)
  {
    FilmStatTableReverse1(); FilmStatTableReverse2(); FilmStatTableReverse3(); FilmStatTableReverse4();
  }

  lemma FilmStatTableForward1()
    ensures ForwardAt(FilmStatTable, "id") && ForwardAt(FilmStatTable, "kp_reviews_count") && ForwardAt(FilmStatTable, "kp_good_reviews_count")
  {
  }

  lemma FilmStatTableForward2()
    ensures ForwardAt(FilmStatTable, "kp_reviews_rate") && ForwardAt(FilmStatTable, "kp_rate") && ForwardAt(FilmStatTable, "imdb_rate")
  {
  }

  lemma FilmStatTableForward3()
    ensures ForwardAt(FilmStatTable, "world_critics_rate") && ForwardAt(FilmStatTable, "rf_critics_rate") && ForwardAt(FilmStatTable, "kp_votes")
  {
  }

  lemma FilmStatTableForward4()
    ensures ForwardAt(FilmStatTable, "imdb_votes") && ForwardAt(FilmStatTable, "world_critics_votes") && ForwardAt(FilmStatTable, "rf_critics_votes")
  {
  }

  lemma FilmStatTableReverse1()
    ensures ReverseAt(FilmStatTable, "reviewsCount") && ReverseAt(FilmStatTable, "ratingGoodReviewVoteCount") && ReverseAt(FilmStatTable, "ratingGoodReview")
  {
  }

  lemma FilmStatTableReverse2()
    ensures ReverseAt(FilmStatTable, "ratingKinopoisk") && ReverseAt(FilmStatTable, "ratingImdb") && ReverseAt(FilmStatTable, "ratingFilmCritics")
  {
  }

  lemma FilmStatTableReverse3()
    ensures ReverseAt(FilmStatTable, "ratingRfCritics") && ReverseAt(FilmStatTable, "ratingKinopoiskVoteCount") && ReverseAt(FilmStatTable, "ratingImdbVoteCount")
  {
  }

  lemma FilmStatTableReverse4()
    ensures ReverseAt(FilmStatTable, "ratingFilmCriticsVoteCount") && ReverseAt(FilmStatTable, "ratingRfCriticsVoteCount")
  {
  }


  /** The film_data table is consistent and lists each column once. */
  lemma FilmDataTableWellFormed()
    ensures Consistent(FilmDataTable) && Distinct(FilmDataTable.columns)
  {
    FilmDataTableKeys();
    FilmDataTableForward();
    FilmDataTableReverse();
    ConsistentByEntries(FilmDataTable);
  }

  lemma FilmDataTableKeys()
    ensures KeysMatch(FilmDataTable) && Distinct(FilmDataTable.columns)
  {
  }

  lemma FilmDataTableForward()
    ensures forall c :: c in FilmDataTable.columns ==> ForwardAt(FilmDataTable, c)
  {
    FilmDataTableForward1(); FilmDataTableForward2(); FilmDataTableForward3();
  }

  lemma FilmDataTableReverse()
    ensures forall a :: a in FilmDataTable.reversedMapper ==> ReverseAt(FilmDataTable, a)
  {
    FilmDataTableReverse1(); FilmDataTableReverse2(); FilmDataTableReverse3();
  }

  lemma FilmDataTableForward1()
    ensures ForwardAt(FilmDataTable, "id") && ForwardAt(FilmDataTable, "slogan") && ForwardAt(FilmDataTable, "description")
  {
  }

  lemma FilmDataTableForward2()
    ensures ForwardAt(FilmDataTable, "short_description") && ForwardAt(FilmDataTable, "mpaa") && ForwardAt(FilmDataTable, "age_limit")
  {
  }

  lemma FilmDataTableForward3()
    ensures ForwardAt(FilmDataTable, "countries") && ForwardAt(FilmDataTable, "genres")
  {
  }

  lemma FilmDataTableReverse1()
    ensures ReverseAt(FilmDataTable, "slogan") && ReverseAt(FilmDataTable, "description") && ReverseAt(FilmDataTable, "shortDescription")
  {
  }

  lemma FilmDataTableReverse2()
    ensures ReverseAt(FilmDataTable, "ratingMpaa") && ReverseAt(FilmDataTable, "ratingAgeLimits") && ReverseAt(FilmDataTable, "countries")
  {
  }

  lemma FilmDataTableReverse3()
    ensures ReverseAt(FilmDataTable, "genres")
  {
  }

  /** `id` and `slug` are filled in by the server: they have no API name and no
      reverse entry. */
  lemma ServerColumnsUnmapped()
    ensures ApiMapper(FilmTable, "id", false, None) == None
    ensures ApiMapper(FilmTable, "slug", false, None) == None
    ensures forall a :: a in FilmTable.reversedMapper ==> FilmTable.reversedMapper[a] !in {Some("id"), Some("slug")}
  {
  }
}
