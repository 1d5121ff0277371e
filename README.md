# filmsearch core in Dafny

This project models the pure and in-place core of the filmsearch service. The
service scrapes film records from a Kinopoisk-style JSON API, stores them in
PostgreSQL and serves them to a small web UI. The model covers five parts:

- **Column notation** (`Notation`): for the `film`, `film_stat` and `film_data`
  relations, the ordered storage columns, the map from each column to its API
  field name (null for server-filled columns), the reverse map, and
  `api_mapper`.
- **INSERT builder** (`Query`): `insert_allocate` keeps the columns whose API
  field is present and not null in the payload, in column order. It then
  renders `prefix(col,...) VALUES(val,...)` by string concatenation.
  `insert_film_query` applies it to the film table.
- **Attribute descriptors** (`Models`): the storage types and the `Type` sets,
  `Attribute.conv`, `Attribute.db` and `Model.api_mapper`. Also the attribute
  lists of the six relations.
- **Scraper flattener** (`Kinopoisk`): `KPScraper.unpack` rewrites the
  `genres` and `countries` lists of objects, in the caller's dictionary, into
  lists of their `genre` and `country` fields.
- **Genre catalogue** (`Genres`):
  - `Genre` objects compare by priority only.
  - `Genres._setup` sorts the fourteen declared genres in place with
    `list.sort()`.
  - `Genres.__init__` builds the url lookup table, which `map` reads;
    `default` returns THRILLER directly.

Supporting modules:

- `Wrappers` holds `Option` and `Result`.
- `Json` models decoded JSON values, Python's `dict.get` and `x[key]`, and a
  mutable dictionary object.
- `Text` models `sep.join` and `str.split` for one-character separators.

Python's `None` is `Json.Null`. Exceptions are `Err` results: `KeyError`,
`TypeError`, and `ValueError` for the genre comparisons.

The statement builder splices the values into the text unquoted; it does
not pass them as bind parameters. A text value therefore yields SQL that a
database would not read as intended. `Query.CommaValueSplits` shows one
consequence with this model's own reader of the statement: a title
containing a comma reads back as two values.

## Model

| member | source | states |
|---|---|---|
| Json.Get | filmsearch/src/db.py:209-213 | `json_data.get(api)` gives the bound value when the API name is present, and null when the name is None, absent or bound to null |
| Json.Index | scrapers/kinopoisk.py:62 | `x[key]` succeeds exactly on an object holding the key; an object without it raises KeyError; any other value raises TypeError |
| Json.PluckItems | scrapers/kinopoisk.py:62 | `list(map(lambda x: x[key], items))` succeeds iff every element can be indexed; the result has the same length, with element i equal to `items[i][key]`; a failure carries the error of the first element that cannot be indexed, all earlier ones having succeeded |
| Json.PluckAll | scrapers/kinopoisk.py:61-62 | `list(map(lambda x: x[key], values))`: on a list it behaves as PluckItems, raising the first failing element's error; on anything else it succeeds only for an empty string or empty object, giving an empty list, and otherwise raises TypeError |
| Json.PluckObjects | scrapers/kinopoisk.py:62 | a list of objects that all hold the key becomes the list of those fields, same length and order |
| Json.PluckMissingKey | scrapers/kinopoisk.py:62 | an object lacking the key, with only objects before it, makes the whole call raise KeyError for that key, whatever follows it |
| Text.Join | filmsearch/src/db.py:215-216 | `",".join` of no elements is empty; of one element free of the separator, the result is free of it too |
| Text.JoinChars | filmsearch/src/db.py:215-216 | a character that is not the separator and occurs in no element does not occur in the joined text |
| Text.SplitJoin | filmsearch/src/db.py:215-216 | splitting the joined text at the separator gives back the elements, when no element contains the separator |
| Notation.DictGet | filmsearch/src/notation.py:19-21 | `m.get(key, default)`: the entry when the key is present, `default` otherwise |
| Notation.ApiMapper | filmsearch/src/notation.py:11-21 | `api_mapper` looks the column up in the forward map, or in the reverse map when `reverse` is set, falling back to `default` |
| Notation.RoundTrip | filmsearch/src/notation.py:48-70 | in a consistent table a column maps to an API name iff it is a listed column and the reverse map sends that API name back to it |
| Notation.ApiNamesDistinct | filmsearch/src/notation.py:48-70 | in a consistent table no two columns share an API name |
| Notation.FilmTableWellFormed | filmsearch/src/notation.py:31-70 | the film table lists each column once, its forward map has exactly the listed columns, and the forward and reverse maps invert each other |
| Notation.FilmStatTableWellFormed | filmsearch/src/notation.py:73-119 | the same for the film_stat table |
| Notation.FilmDataTableWellFormed | filmsearch/src/notation.py:122-156 | the same for the film_data table |
| Notation.ServerColumnsUnmapped | filmsearch/src/notation.py:48-70 | `id` and `slug` have no API name, and no reverse entry points at them |
| Query.Put | filmsearch/src/db.py:209-213 | dictionary assignment: a new key is appended; an existing key keeps its slot and takes the new value; keys stay distinct |
| Query.Collect | filmsearch/src/db.py:208-213 | the comprehension's dictionary holds a column iff it is listed and its API value is not null; keys are distinct; each value is the payload's value for that column's API name |
| Query.CollectOrder | filmsearch/src/db.py:208-213 | with each column listed once, the dictionary's keys are the kept columns in column-list order |
| Query.InsertAllocate | filmsearch/src/db.py:202-219 | the statement is built iff every selected value is a string; otherwise the join raises TypeError; on success it is the prefix, the selected columns and their values in the two parenthesised lists |
| Query.InsertFilmQuery | filmsearch/src/db.py:221-227 | `insert_film_query` fails, with TypeError, exactly when a selected film value is not a string; a built statement begins `INSERT INTO film(` and ends with `)` |
| Query.SelectedExactly | filmsearch/src/db.py:209-213 | a column is inserted iff it has an API name and the payload holds a non-null value under that name |
| Query.SelectedValues | filmsearch/src/db.py:209-216 | as many values as columns; the i-th value is the payload's value for the i-th column's API name; no column twice |
| Query.FilmSelectionOrder | filmsearch/src/db.py:221-223 | for the film table the inserted columns keep the declared column order |
| Query.ServerColumnsNeverInserted | filmsearch/src/db.py:210-212 | `id` and `slug` never appear in the film INSERT |
| Query.SingleField | filmsearch/src/db.py:208-213 | a payload with a single mapped, non-null API field selects exactly that field's column with that value |
| Query.FilmSingleField | filmsearch/src/db.py:221-223 | SingleField for the film table |
| Query.TitleRendered | filmsearch/src/db.py:209-223 | only null is dropped and values are spliced in unquoted: any title `v`, the empty one included, gives `INSERT INTO film(name_ru) VALUES(v)` |
| Query.ZeroYearKept | filmsearch/src/db.py:212-218 | a year of 0 is not dropped: it is selected and then makes the join raise TypeError |
| Query.EmptySelection | filmsearch/src/db.py:215-218 | with nothing selected the film statement is `INSERT INTO film() VALUES()` |
| Query.NothingSelected | filmsearch/src/db.py:209-213 | when no listed column has a non-null API value, nothing is selected |
| Query.RenderParse | filmsearch/src/db.py:215-218 | the rendered statement reads back as its column and value lists, when names are non-empty and free of `,` and `)` and values are free of `,` |
| Query.InsertReadsBack | filmsearch/src/db.py:202-219 | a built INSERT reads back as exactly the selected columns and their values, when the table's column names are non-empty and free of `,` and `)` and no value holds a comma |
| Query.CommaValueSplits | filmsearch/src/db.py:215-223 | the statement built for the title `a,b` reads back, under this model's reader, as one column and two values |
| Query.CommaValueReadBack | filmsearch/src/db.py:215-218 | the text `INSERT INTO film(name_ru) VALUES(a,b)` reads back as one column and the two values `a` and `b` |
| Models.Conv | filmsearch/src/models.py:55-60 | `conv` passes the value of a column whose type is not `VARCHAR[]` through unchanged; for a `VARCHAR[]` column, a list succeeds iff every element can be indexed by `unpack`, giving the list of those fields, an empty string or empty object succeeds, and any other non-list value raises TypeError |
| Models.Db | filmsearch/src/models.py:62-69 | `db` opens with the column name and a space, and runs past the type exactly when the column is generated |
| Models.OnlyVarcharArraysUnpacked | filmsearch/src/models.py:29-31 | `Type.arrays` holds only `VARCHAR[]`, so every other type, `INTEGER[]` included, is passed through |
| Models.ConvUnpacksObjects | filmsearch/src/models.py:55-60 | a `VARCHAR[]` column turns a list of objects into the list of their `unpack` fields, same length and order |
| Models.DeclaredConvIsIdentity | filmsearch/src/models.py:102-231 | no declared attribute is an array column, so `conv` is the identity for all six relations |
| Models.DbShape | filmsearch/src/models.py:62-69 | `db` is `name type`, followed by a space and the expression exactly when the column is generated |
| Models.TextSearchColumn | filmsearch/src/models.py:122-129 | the full-text column is a generated tsvector column with no API name, computed as `to_tsvector('russian', name_ru)` |
| Models.ApiMapper | filmsearch/src/models.py:76-92 | both model maps are empty, so `api_mapper` always returns `default` |
| Models.IdFirst | filmsearch/src/models.py:102-231 | every relation starts with an `id` attribute that has no API name |
| Models.FilmModelCoversNotation | filmsearch/src/models.py:102-129 | every column of the film notation table is a film attribute with the same API name |
| Models.FilmStatModelMatchesNotation | filmsearch/src/models.py:132-197 | the film_stat model has exactly as many attributes as the film_stat notation has columns, and attribute i is column i with the same API name |
| Kinopoisk.UnpackKey | scrapers/kinopoisk.py:60-63 | one round: an absent key changes nothing; a present key is replaced by the plucked list or raises; no other key changes |
| Kinopoisk.Run | scrapers/kinopoisk.py:59-63 | the rounds in order keep the key set, leave keys outside the table untouched, and stop at the first error |
| Kinopoisk.Unpack | scrapers/kinopoisk.py:53-65 | the caller's dictionary is updated in place to the outcome of the rounds; on success that same object is returned; on failure the error of the failing round is raised, with earlier rounds already applied |
| Kinopoisk.OtherKeysUnchanged | scrapers/kinopoisk.py:59-63 | no key is added or removed, and keys other than `genres`/`countries` keep their values, even when the call raises |
| Kinopoisk.GenresFlattened | scrapers/kinopoisk.py:54-63 | a `genres` list of objects holding `genre` becomes the list of those fields, same length and order |
| Kinopoisk.CountriesFlattened | scrapers/kinopoisk.py:54-63 | once the genres round succeeds, a `countries` list of objects holding `country` becomes the list of those fields |
| Kinopoisk.MissingGenreRaises | scrapers/kinopoisk.py:60-62 | a genres element lacking `genre`, preceded only by objects, raises KeyError before anything is written |
| Kinopoisk.MissingCountryRaises | scrapers/kinopoisk.py:60-62 | once the genres round succeeds, a countries element lacking `country`, preceded only by objects, raises KeyError and the genres rewrite stays |
| Kinopoisk.NothingToUnpack | scrapers/kinopoisk.py:60 | without either key the dictionary is returned as it was |
| Genres.Eq | web_ui/src/filmsearch_api.py:18-23 | `__eq__` raises for a non-genre; otherwise true iff the priorities are equal |
| Genres.Gt | web_ui/src/filmsearch_api.py:25-30 | `__gt__` raises for a non-genre; otherwise true iff this priority is greater |
| Genres.Lt | web_ui/src/filmsearch_api.py:25-30 | the `<` that `list.sort` evaluates through the reflected `__gt__` holds iff the priority is smaller |
| Genres.EqEquivalence | web_ui/src/filmsearch_api.py:18-23 | genre equality is reflexive, symmetric and transitive |
| Genres.GtStrictOrder | web_ui/src/filmsearch_api.py:18-30 | `>` is irreflexive and transitive, and exactly one of `==`, `a > b`, `b > a` holds |
| Genres.PriorityOnly | web_ui/src/filmsearch_api.py:18-30 | two genres of equal priority compare alike on either side and are equal |
| Genres.InsertPermutes | web_ui/src/filmsearch_api.py:60 | one insertion step adds the element and loses none |
| Genres.InsertSorted | web_ui/src/filmsearch_api.py:60 | one insertion step into a priority-ordered list keeps it ordered |
| Genres.InsertOfPriority | web_ui/src/filmsearch_api.py:60 | one insertion step appends the new genre at the end of its own priority class and changes no other class |
| Genres.InsertPosition | web_ui/src/filmsearch_api.py:60 | the new genre lands right after the last genre of no higher priority and before every genre of higher priority |
| Genres.StableSortSorted | web_ui/src/filmsearch_api.py:60 | the sorted list is in non-decreasing priority order |
| Genres.StableSortPermutes | web_ui/src/filmsearch_api.py:59-60 | the sorted list is a permutation of the input |
| Genres.StableSortStable | web_ui/src/filmsearch_api.py:60 | the genres of each priority keep their input order |
| Genres.StableSortOfSorted | web_ui/src/filmsearch_api.py:60 | a list already in priority order is left unchanged |
| Genres.SortedUnique | web_ui/src/filmsearch_api.py:60 | two sorted lists whose priority classes agree are equal |
| Genres.StableSortIsTheStableSort | web_ui/src/filmsearch_api.py:60 | any sorted list keeping each priority class of the input in order equals StableSort, so a stable `list.sort` gives exactly that list |
| Genres.InsertAt | web_ui/src/filmsearch_api.py:60 | the inner pass moves `a[i]` into place within the sorted prefix and leaves the rest of the array alone |
| Genres.SortByPriority | web_ui/src/filmsearch_api.py:60 | `_all.sort()` in place: the array ends as the stable priority sort of its old contents |
| Genres.DeclaredSorted | web_ui/src/filmsearch_api.py:34-47 | the declared genres are already in priority order |
| Genres.DeclaredUrlsDistinct | web_ui/src/filmsearch_api.py:34-47 | no two declared genres share a url |
| Genres.SetUp | web_ui/src/filmsearch_api.py:57-61 | `_setup` returns the stable priority sort of the declared genres |
| Genres.SetUpKeepsDeclared | web_ui/src/filmsearch_api.py:34-61 | sorting leaves the declared list unchanged |
| Genres.ThrillerUniqueMinimum | web_ui/src/filmsearch_api.py:34-47 | THRILLER comes first, has priority 1, and every other genre has a strictly greater priority |
| Genres.DeclaredPriority100 | web_ui/src/filmsearch_api.py:45-47 | the genres of priority 100 are ANIME, MELODRAMA, FAMILY, in that order |
| Genres.UrlIndex | web_ui/src/filmsearch_api.py:52 | the url table has exactly the genres' urls as keys, each bound to a genre with that url |
| Genres.UrlIndexFinds | web_ui/src/filmsearch_api.py:52 | with distinct urls every genre is stored under its own url |
| Genres.Genres.constructor | web_ui/src/filmsearch_api.py:49-52 | `all` is the sorted catalogue and `mapper` is its url table |
| Genres.Genres.Map | web_ui/src/filmsearch_api.py:54-55 | `map(url)` gives a catalogue genre with that url, and None iff no genre has it |
| Genres.Genres.Default | web_ui/src/filmsearch_api.py:63-65 | `default` is the first genre of `all`, with priority strictly below every other |
| Genres.MapFindsEvery | web_ui/src/filmsearch_api.py:52-55 | `map(g.url)` returns `g` for every genre in the catalogue |
| Genres.CatalogueOrder | web_ui/src/filmsearch_api.py:34-65 | `all` holds the fourteen declared genres, sorted by priority; the priority-100 genres keep declaration order; `default` is THRILLER, with priority 1 |

## Left out

- Database setup, the connection pool and DDL execution are I/O and are not part of this model. So are the HTTP scraping methods, the web routes and `FilmSearchAPI`.
- The `print(query)` in `insert_film_query` is console output. It does not affect the result and is left out.
- The `Query` object that holds `Film()`, `FilmStat()` and `FilmData()` instances is replaced by the constant tables; `Query.InsertFilmQuery` reads `Notation.FilmTable` directly. Each instance's `columns` is its class's column list.
- Reflection over the class `__dict__` in `_set_up_columns`, `_set_up_attributes` and `_setup` is replaced by the constant lists in declaration order. These are `Notation.FilmTable.columns`, `Models.FilmModel.attributes` and `Genres.Declared`.
- Numbers in payloads are `Json.Num` values. No arithmetic is done on them, so float rounding and integer width do not arise.
- Genres.SortByPriority: CPython's timsort is modelled by a stable insertion sort. `Genres.StableSortIsTheStableSort` shows that any stable sort by priority yields the same list. Timsort's comparison count and its run detection are not modelled.
- Kinopoisk.Unpack is a free method on a `Json.Dict`. The `KPScraper` object it belongs to is never read by `unpack`. A `data` argument that is not a dictionary is not modelled.
- `Genre.__eq__` without `__hash__` makes genres unhashable in Python. Nothing hashes them, so this is not modelled. The `isinstance` check is modelled as "a genre or not", because `Genre` has no subclasses.
- `db.py` has no builder that takes extra attributes or a `RETURNING` clause, and no slug allocation or child-table inserts, so none of these is modelled.
