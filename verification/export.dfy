/**
  * The export run: reading the two title lists out of the TOML document,
  * then looking up every movie and then every show, and appending one CSV row
  * per title to the writer.
  *
  * The clock is replaced by the `timestamp` string, the OMDb service by the
  * `omdb` function, the TOML parser by the already-parsed document `doc`, and
  * the CSV file by the `lines` buffer of a `CsvWriter`.
  */
module Export {
  import opened Wrappers
  import opened Omdb

  /** One data row of the export, one field per column. */
  datatype Row = Row(id: string, mediaType: string, watchlistedAt: string, originalTitle: string)

  /** One line of the CSV output: the header row or a data row. */
  datatype Line = Header(fields: seq<string>) | Data(row: Row)

  /** The columns of the export, in the order they are written. */
  const Fieldnames: seq<string> := ["id", "media_type", "watchlisted_at", "original_title"]

  /** A parsed TOML document, as far as the script reads it: tables of string lists. */
  type Toml = map<string, map<string, seq<string>>>

  /** Python's `dict.get(key, default)`. */
  function Get<K, V>(m: map<K, V>, key: K, default: V): V {
    if key in m then m[key] else default
  }

  /** `doc.get(section, {}).get('titles', [])`: a missing table or key is an empty list. */
  function Titles(doc: Toml, section: string): (r: seq<string>)
    ensures section in doc && "titles" in doc[section] ==> r == doc[section]["titles"]
    ensures section !in doc || "titles" !in doc[section] ==> r == []
  {
    Get(Get(doc, section, map[]), "titles", [])
  }

  /** The output file, written line by line. */
  class CsvWriter {
    const fieldnames: seq<string>
    var lines: seq<Line>

    constructor (fieldnames: seq<string>)
      ensures this.fieldnames == fieldnames
      ensures lines == []
    {
      this.fieldnames := fieldnames;
      lines := [];
    }

    method WriteHeader()
      modifies this`lines
      ensures lines == old(lines) + [Header(fieldnames)]
    {
      lines := lines + [Header(fieldnames)];
    }

    method WriteRow(row: Row)
      modifies this`lines
      ensures lines == old(lines) + [Data(row)]
    {
      lines := lines + [Data(row)];
    }
  }

  /** The data lines written for `rows`, in order. */
  function DataLines(rows: seq<Row>): (ls: seq<Line>)
    ensures |ls| == |rows|
    ensures forall i :: 0 <= i < |rows| ==> ls[i] == Data(rows[i])
  {
    if rows == [] then [] else DataLines(rows[..|rows| - 1]) + [Data(rows[|rows| - 1])]
  }

  /** `row` is the row written for `title`: its lookup's string, the kind, the run's timestamp and the title itself. */
  predicate RowFor(row: Row, title: string, mediaType: string, timestamp: string, omdb: (string, string) -> Reply) {
    GetImdbId(title, mediaType, omdb) == Ok(row.id) &&
    row.mediaType == mediaType && row.watchlistedAt == timestamp && row.originalTitle == title
  }

  /** Writing two row sequences one after the other writes their concatenation. */
  lemma DataLinesAppend(a: seq<Row>, b: seq<Row>)
    ensures DataLines(a + b) == DataLines(a) + DataLines(b)
  {
  }

  /** Concatenation regroups; used to line up the writer's buffer with `DataLines`. */
  lemma AppendAssociates<T>(a: seq<T>, b: seq<T>, c: seq<T>)
    ensures (a + b) + c == a + (b + c)
  {
  }

  /** How far a run over a title list got: the rows written, and the exception that stopped it, if any. */
  datatype Progress = Progress(rows: seq<Row>, fault: Option<Fault>)

  /**
    * The rows `process_titles` writes for `titles`, title by title, up to the
    * first lookup that raises.
    */
  function Processed(titles: seq<string>, mediaType: string, timestamp: string, omdb: (string, string) -> Reply): (p: Progress)
    ensures |p.rows| <= |titles|
    ensures p.fault.None? ==> |p.rows| == |titles|
    ensures p.fault.Some? ==> |p.rows| < |titles|
  {
    if titles == [] then Progress([], None)
    else
      var before := Processed(titles[..|titles| - 1], mediaType, timestamp, omdb);
      var title := titles[|titles| - 1];
      if before.fault.Some? then before
      else match GetImdbId(title, mediaType, omdb)
        case Ok(id) => Progress(before.rows + [Row(id, mediaType, timestamp, title)], None)
        case Err(fault) => Progress(before.rows, Some(fault))
  }

  /**
    * Row i is the lookup of title i, with the caller's media type and
    * timestamp; the run stops exactly at the first title whose lookup raises.
    */
  lemma {:induction false} ProcessedRows(titles: seq<string>, mediaType: string, timestamp: string, omdb: (string, string) -> Reply)
    ensures var p := Processed(titles, mediaType, timestamp, omdb);
      forall i :: 0 <= i < |p.rows| ==> RowFor(p.rows[i], titles[i], mediaType, timestamp, omdb)
    ensures var p := Processed(titles, mediaType, timestamp, omdb);
      p.fault.Some? ==> GetImdbId(titles[|p.rows|], mediaType, omdb) == Err(p.fault.value)
    ensures Processed(titles, mediaType, timestamp, omdb).fault.None? <==>
      forall i :: 0 <= i < |titles| ==> GetImdbId(titles[i], mediaType, omdb).Ok?
  {
    if titles != [] {
      var init := titles[..|titles| - 1];
      ProcessedRows(init, mediaType, timestamp, omdb);
      assert forall i :: 0 <= i < |init| ==> init[i] == titles[i];
    }
  }

  /** One more title: what `Processed` does with the title after a prefix that did not raise. */
  lemma ProcessedNext(titles: seq<string>, i: nat, mediaType: string, timestamp: string, omdb: (string, string) -> Reply)
    requires i < |titles|
    requires Processed(titles[..i], mediaType, timestamp, omdb).fault.None?
    ensures var before, r := Processed(titles[..i], mediaType, timestamp, omdb).rows, GetImdbId(titles[i], mediaType, omdb);
      Processed(titles[..i + 1], mediaType, timestamp, omdb) ==
        if r.Ok? then Progress(before + [Row(r.value, mediaType, timestamp, titles[i])], None)
        else Progress(before, Some(r.error))
  {
    assert titles[..i + 1][..i] == titles[..i];
  }

  /** Once a run has raised, later titles change nothing. */
  lemma {:induction false} ProcessedStops(titles: seq<string>, k: nat, mediaType: string, timestamp: string, omdb: (string, string) -> Reply)
    requires k <= |titles|
    requires Processed(titles[..k], mediaType, timestamp, omdb).fault.Some?
    ensures Processed(titles, mediaType, timestamp, omdb) == Processed(titles[..k], mediaType, timestamp, omdb)
  {
    if k < |titles| {
      var init := titles[..|titles| - 1];
      assert init[..k] == titles[..k];
      ProcessedStops(init, k, mediaType, timestamp, omdb);
    } else {
      assert titles[..k] == titles;
    }
  }

  /**
    * `process_titles`: look up every title in order and append its row to
    * `writer`; an exception from a lookup stops the loop and is returned.
    */
  method ProcessTitles(titles: seq<string>, mediaType: string, writer: CsvWriter, timestamp: string, omdb: (string, string) -> Reply)
    returns (fault: Option<Fault>)
    modifies writer
    ensures writer.lines == old(writer.lines) + DataLines(Processed(titles, mediaType, timestamp, omdb).rows)
    ensures fault == Processed(titles, mediaType, timestamp, omdb).fault
    ensures titles == [] ==> writer.lines == old(writer.lines) && fault.None?
  {
    if titles == [] {
      return None;
    }
    var i := 0;
    ghost var written: seq<Row> := [];
    while i < |titles|
      invariant 0 <= i <= |titles|
      invariant Processed(titles[..i], mediaType, timestamp, omdb) == Progress(written, None)
      invariant writer.lines == old(writer.lines) + DataLines(written)
    {
      var title := titles[i];
      ProcessedNext(titles, i, mediaType, timestamp, omdb);
      var outcome := GetImdbId(title, mediaType, omdb);
      if outcome.Err? {
        ProcessedStops(titles, i + 1, mediaType, timestamp, omdb);
        return Some(outcome.error);
      }
      var row := Row(outcome.value, mediaType, timestamp, title);
      DataLinesAppend(written, [row]);
      AppendAssociates(old(writer.lines), DataLines(written), [Data(row)]);
      writer.WriteRow(row);
      written := written + [row];
      i := i + 1;
    }
    assert titles[..i] == titles;
    return None;
  }

  /** The whole run: the header, the movie rows, then (if no movie lookup raised) the show rows. */
  function Exported(doc: Toml, timestamp: string, omdb: (string, string) -> Reply): (p: Progress)
    ensures |p.rows| <= |Titles(doc, "movies")| + |Titles(doc, "tv_shows")|
    ensures p.fault.None? ==> |p.rows| == |Titles(doc, "movies")| + |Titles(doc, "tv_shows")|
  {
    var movies := Processed(Titles(doc, "movies"), "movie", timestamp, omdb);
    if movies.fault.Some? then movies
    else
      var shows := Processed(Titles(doc, "tv_shows"), "show", timestamp, omdb);
      Progress(movies.rows + shows.rows, shows.fault)
  }

  /**
    * A run that completes writes one row per title: all movies first, in order,
    * then all shows, in order, each with its title's lookup, its kind and the
    * run's single timestamp.
    */
  lemma ExportedRows(doc: Toml, timestamp: string, omdb: (string, string) -> Reply)
    ensures var movies, shows, e := Titles(doc, "movies"), Titles(doc, "tv_shows"), Exported(doc, timestamp, omdb);
      e.fault.None? ==>
        |e.rows| == |movies| + |shows| &&
        (forall i :: 0 <= i < |movies| ==>
          RowFor(e.rows[i], movies[i], "movie", timestamp, omdb)) &&
        (forall j :: 0 <= j < |shows| ==>
          RowFor(e.rows[|movies| + j], shows[j], "show", timestamp, omdb))
    ensures forall row :: row in Exported(doc, timestamp, omdb).rows ==> row.watchlistedAt == timestamp
  {
    var movies, shows := Titles(doc, "movies"), Titles(doc, "tv_shows");
    var m := Processed(movies, "movie", timestamp, omdb);
    ProcessedRows(movies, "movie", timestamp, omdb);
    ProcessedRows(shows, "show", timestamp, omdb);
    var s := Processed(shows, "show", timestamp, omdb);
    if m.fault.None? && s.fault.None? {
      var rows := m.rows + s.rows;
      assert Exported(doc, timestamp, omdb).rows == rows;
      forall i | 0 <= i < |movies|
        ensures RowFor(rows[i], movies[i], "movie", timestamp, omdb)
      {
        assert rows[i] == m.rows[i];
      }
      forall j | 0 <= j < |shows|
        ensures RowFor(rows[|movies| + j], shows[j], "show", timestamp, omdb)
      {
        assert rows[|movies| + j] == s.rows[j];
      }
    }
  }

  /**
    * The script's top level: open the writer, write the header, process the
    * movies, then the shows. A raised exception ends the run where it happened.
    */
  method ExportWatchlist(doc: Toml, timestamp: string, omdb: (string, string) -> Reply)
    returns (csv: CsvWriter, fault: Option<Fault>)
    ensures fresh(csv)
    ensures csv.fieldnames == Fieldnames
    ensures csv.lines == [Header(Fieldnames)] + DataLines(Exported(doc, timestamp, omdb).rows)
    ensures fault == Exported(doc, timestamp, omdb).fault
  {
    var movieTitles := Titles(doc, "movies");
    var showTitles := Titles(doc, "tv_shows");
    ghost var movies := Processed(movieTitles, "movie", timestamp, omdb);
    ghost var shows := Processed(showTitles, "show", timestamp, omdb);
    csv := new CsvWriter(Fieldnames);
    csv.WriteHeader();
    assert csv.lines == [Header(Fieldnames)];
    fault := ProcessTitles(movieTitles, "movie", csv, timestamp, omdb);
    if fault.None? {
      fault := ProcessTitles(showTitles, "show", csv, timestamp, omdb);
      DataLinesAppend(movies.rows, shows.rows);
      AppendAssociates([Header(Fieldnames)], DataLines(movies.rows), DataLines(shows.rows));
    }
  }
}
