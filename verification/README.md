# findIMDbID: resolving a watchlist of titles to IMDb ids

`get_trakt_ids.py` reads a TOML file with a list of movie titles and a list of
TV-show titles, searches the OMDb API for each title, and writes a CSV file for
a Trakt watchlist import with one row per title: `id`, `media_type`,
`watchlisted_at`, `original_title`. This project models the script's core in
Dafny and proves what it does.

- `wrappers.dfy` (module `Wrappers`): `Option` for absent keys, `Result` for a
  call that returns or raises.
- `omdb.dfy` (module `Omdb`): `get_imdb_id_from_omdb`. The media kind is mapped
  to OMDb's search type, and the reply is classified into one of four strings.
  These are a bare IMDb id, `No IMDb ID found for <title>`,
  `Not Found: <Error or "Unknown error for <title>">` and
  `API Error: <exception text>`. The HTTP request, its status check and the
  JSON decoding are an abstract function `omdb` from (search title, OMDb type)
  to a `Reply`. A `Reply` is either a request exception's message or the decoded
  body: an optional `Response`, an optional `Search` list of hits with an
  optional `imdbID`, and an optional `Error`. The outcome is a tagged union
  `Resolution` rendered into the string. `Unrender` reads the string back, as a
  person reviewing the CSV does.
- `export.dfy` (module `Export`): the writer as a class `CsvWriter` holding the
  written lines, `process_titles` as the method `ProcessTitles` with a loop
  proved against the function `Processed`, the title lists read from the parsed
  TOML document with their defaults, and the top level (`ExportWatchlist`):
  header, movies, then shows.

Two exceptions escape the lookup when `Response` is `"True"`: a `KeyError`
when the body has no `Search` key, and an `IndexError` when `Search` is empty.
Neither is caught, so the model returns them as `Err` faults. The run then stops
at that title, and the rows already written stay in the file. A run in which no
lookup raises writes exactly one row per title.

A decoded body with no keys at all fails the script's `if data` test, and it
also has no `Response`; either way it takes the "Not Found" branch, so the
model needs no separate case for it.

Three behaviours of the code that its messages (such as the closing advice at
get_trakt_ids.py:107 to look for rows marked 'Not Found' or 'API Error') do
not suggest, all modelled as written:
- A first hit without an `imdbID`, or with an empty one, gives
  `No IMDb ID found for <title>` with no `Not Found: ` prefix.
- An empty `Search` list raises; it does not give a "not found" result.
- An `Error` that is present is used as it is, even when it is empty.

## Model

| member | source | states |
|---|---|---|
| `Omdb.OmdbType` | get_trakt_ids.py:33 | `"show"` becomes `"series"`; every other kind, `"movie"` included, becomes `"movie"` |
| `Omdb.Classify` | get_trakt_ids.py:48-58 | the lookup's decision on one reply. A request failure never escapes and becomes `ApiError` of its message. Only a `"True"` Response can raise. An identifier is always the first hit's non-empty `imdbID`. The full case split is `LookupOutcome` |
| `Omdb.Render` | get_trakt_ids.py:51-58 | an identifier is written bare. Every other outcome is written as its own prefix (`No IMDb ID found for `, `Not Found: `, `API Error: `) followed by its payload: the title, the reason or the message. `Unrender` is its right inverse |
| `Omdb.GetImdbId` | get_trakt_ids.py:28-58 | `get_imdb_id_from_omdb`: one request for the title with the mapped OMDb type, whose reply is classified and rendered. Its contract is stated by the lemma `LookupOutcome`, which keeps the case split out of every proof that uses the lookup |
| `Omdb.LookupOutcome` | get_trakt_ids.py:28-58 | The request is for the title with the mapped OMDb type. A request failure never escapes and gives `"API Error: " + message`. A non-`"True"` Response gives `"Not Found: "` + Error, or + `"Unknown error for " + title` when Error is absent. With `"True"`, only the first hit decides: its truthy imdbID bare, else `"No IMDb ID found for " + title`. It raises exactly when a `"True"` reply has no first hit, and raises KeyError exactly when `Search` is absent |
| `Omdb.OnlyFirstHitMatters` | get_trakt_ids.py:49-51 | hits after the first never change the classification |
| `Omdb.Unrender` | get_trakt_ids.py:106-107 | reading an `id` cell by its prefixes always yields an outcome that renders back to that cell |
| `Omdb.RenderRoundTrip` | get_trakt_ids.py:51-58 | every outcome whose identifier is IMDb-shaped (`tt` + digits) is recovered exactly from its rendered string |
| `Omdb.LookupReadBack` | get_trakt_ids.py:28-58 | the `id` string of a lookup that returns reads back as the lookup's own classification, for IMDb-shaped ids |
| `Export.Titles` | get_trakt_ids.py:87-88 | `doc[section]["titles"]` when both exist; a missing section or `titles` key gives the empty list |
| `Export.CsvWriter.constructor` | get_trakt_ids.py:94-96 | a new writer has the given column names and nothing written |
| `Export.CsvWriter.WriteHeader` | get_trakt_ids.py:98 | appends one header line of the column names and changes nothing else |
| `Export.CsvWriter.WriteRow` | get_trakt_ids.py:69 | appends one data line and changes nothing else |
| `Export.DataLines` | get_trakt_ids.py:69 | the data lines for a row sequence: one line per row, in order |
| `Export.Processed` | get_trakt_ids.py:61-70 | a run over a title list writes at most one row per title; exactly one per title when nothing raises, fewer when something does |
| `Export.ProcessedRows` | get_trakt_ids.py:66-69 | row i is the row for title i: the lookup's string, the caller's kind, the shared timestamp and the title. A fault is the exception of the title right after the last row. The run completes iff every title's lookup returns |
| `Export.ProcessedNext` | get_trakt_ids.py:66-69 | the loop step of `Processed`, stated at index i for the loop of `ProcessTitles`: after a prefix that did not raise, title i either adds exactly its row or stops the run with its lookup's exception |
| `Export.ProcessedStops` | get_trakt_ids.py:66-68 | once a prefix of the titles has raised, the later titles add nothing |
| `Export.ProcessTitles` | get_trakt_ids.py:61-70 | appends exactly the rows of `Processed` to the writer, after what was there, and returns its fault. An empty title list appends nothing |
| `Export.Exported` | get_trakt_ids.py:87-104 | the rows and fault of the whole run, movies then shows. It never writes more than `\|movies\| + \|shows\|` rows, and writes exactly that many when no lookup raises |
| `Export.ExportedRows` | get_trakt_ids.py:87-104 | a completed run has `\|movies\| + \|shows\|` rows. The movie rows come first and then the show rows, each group in input order. Each row holds its title's lookup, its kind and the one timestamp |
| `Export.ExportWatchlist` | get_trakt_ids.py:87-104 | the written file is one header with the columns `id, media_type, watchlisted_at, original_title`, then the rows of the run over movies then shows. A fault is reported as the run's fault |

## Left out

- The HTTP request, `raise_for_status` and `response.json()` (get_trakt_ids.py:43-46) are a network client and a library. They are the `omdb` parameter. A failure of any of them is a `RequestException`, whose text is an opaque message. For `response.json()` this holds with requests 2.27 or later, where its decode error is a `RequestException`; with older releases it is a `ValueError` that escapes the lookup, and the model does not cover that.
- `omdb` is a function, so two lookups of the same title and type in one run see the same reply. The real service need not behave that way.
- A JSON body that is not an object, a `Search` that is not a list, a hit that is not an object, and non-string `Response`, `Error` or `imdbID` values are not modelled. Each key is a present-or-absent string.
- The docstring of `get_imdb_id_from_omdb` (get_trakt_ids.py:31) says `media_type` may be `'series'`. The code, and `OmdbType`, send `'series'` as a movie search; only `'show'` becomes `series`.
- The default `media_type="movie"` (get_trakt_ids.py:28) is dropped: every caller passes the kind, and the model takes it as a required argument.
- Opening and parsing the TOML file, and its not-found and decode-error exits (get_trakt_ids.py:73-84), are file I/O and a foreign parser. The model starts from the parsed document, which holds tables of string lists.
- `csv.DictWriter` quoting and the file itself (get_trakt_ids.py:94-98) are not modelled. The writer is an in-memory list of lines, and the column order exists only as the header's data.
- `load_dotenv`, `os.getenv` and the missing-key exit (get_trakt_ids.py:13-21) are environment and process control. The API key is not part of the `omdb` arguments.
- `time.sleep(0.5)` (get_trakt_ids.py:70) is a timing side effect only.
- The clock and its ISO formatting (get_trakt_ids.py:90) are not modelled. The timestamp is an opaque input string.
- Every `print` is left out.
