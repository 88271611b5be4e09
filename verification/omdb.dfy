/**
  * Looking up one title in the OMDb search API and turning the reply into the
  * single string that ends up in the `id` column of the export.
  *
  * The HTTP request, the status check and the JSON decoding are not modelled;
  * they are replaced by `omdb`, a function from the request's search title and
  * OMDb type to what the HTTP layer hands back: either a request failure with
  * its message, or the decoded JSON body.
  */
module Omdb {
  import opened Wrappers

  /** One element of the `Search` array; only its `imdbID` key is ever read. */
  datatype SearchHit = SearchHit(imdbID: Option<string>)

  /** The decoded JSON body of a search reply: the three keys the lookup reads. */
  datatype Body = Body(response: Option<string>, search: Option<seq<SearchHit>>, error: Option<string>)

  /** What the HTTP layer delivers: a request exception's text, or a decoded body. */
  datatype Reply = RequestFailed(message: string) | Decoded(body: Body)

  /** The exceptions that escape the lookup when `Response` is "True". */
  datatype Fault =
    | KeyErrorSearch    // the body has no `Search` key
    | IndexErrorSearch  // `Search` is an empty array

  /** The three-way outcome of a lookup, before it is rendered into a string. */
  datatype Resolution =
    | Identifier(id: string)
    | NoIdentifier
    | NotFound(reason: string)
    | ApiError(message: string)

  const ApiErrorPrefix: string := "API Error: "
  const NotFoundPrefix: string := "Not Found: "
  const NoIdPrefix: string := "No IMDb ID found for "
  const UnknownErrorPrefix: string := "Unknown error for "

  /** The script's media kind mapped to OMDb's `type` parameter. */
  function OmdbType(mediaType: string): (t: string)
    ensures t == "series" || t == "movie"
    ensures t == "series" <==> mediaType == "show"
  {
    if mediaType == "show" then "series" else "movie"
  }

  /** Python truthiness of an optional string: present and non-empty. */
  predicate Truthy(s: Option<string>) {
    s.Some? && s.value != ""
  }

  /** The decision the lookup makes on one reply. */
  function Classify(title: string, reply: Reply): (r: Result<Resolution, Fault>)
    // a request failure never escapes
    ensures reply.RequestFailed? ==> r == Ok(ApiError(reply.message))
    // only a "True" Response can raise
    ensures r.Err? ==> reply.Decoded? && reply.body.response == Some("True")
    // an identifier is the first hit's non-empty imdbID
    ensures r.Ok? && r.value.Identifier? ==>
      r.value.id != "" && reply.Decoded? && reply.body.search.Some? && reply.body.search.value != [] &&
      reply.body.search.value[0].imdbID == Some(r.value.id)
  {
    match reply
    case RequestFailed(message) => Ok(ApiError(message))
    case Decoded(body) =>
      if body.response == Some("True") then
        match body.search
        case None => Err(KeyErrorSearch)
        case Some(hits) =>
          if hits == [] then Err(IndexErrorSearch)
          else if Truthy(hits[0].imdbID) then Ok(Identifier(hits[0].imdbID.value))
          else Ok(NoIdentifier)
      else
        Ok(NotFound(match body.error case Some(e) => e case None => UnknownErrorPrefix + title))
  }

  predicate HasPrefix(s: string, prefix: string) {
    |prefix| <= |s| && s[..|prefix|] == prefix
  }

  /** The string a resolution is written as in the `id` column. */
  function Render(title: string, res: Resolution): (r: string)
    ensures res.Identifier? ==> r == res.id
    ensures res.NoIdentifier? ==> HasPrefix(r, NoIdPrefix) && r[|NoIdPrefix|..] == title
    ensures res.NotFound? ==> HasPrefix(r, NotFoundPrefix) && r[|NotFoundPrefix|..] == res.reason
    ensures res.ApiError? ==> HasPrefix(r, ApiErrorPrefix) && r[|ApiErrorPrefix|..] == res.message
  {
    match res
    case Identifier(id) => id
    case NoIdentifier => NoIdPrefix + title
    case NotFound(reason) => NotFoundPrefix + reason
    case ApiError(message) => ApiErrorPrefix + message
  }

  /**
    * How a reader of the export tells the outcomes apart: by the prefixes.
    * Every string is read back as something that renders to it.
    */
  function Unrender(title: string, text: string): (res: Resolution)
    ensures Render(title, res) == text
    ensures res.Identifier? ==> !HasPrefix(text, ApiErrorPrefix) && !HasPrefix(text, NotFoundPrefix)
  {
    if HasPrefix(text, ApiErrorPrefix) then ApiError(text[|ApiErrorPrefix|..])
    else if HasPrefix(text, NotFoundPrefix) then NotFound(text[|NotFoundPrefix|..])
    else if text == NoIdPrefix + title then NoIdentifier
    else Identifier(text)
  }

  /** An IMDb title identifier: "tt" followed by digits. */
  predicate IsImdbTitleId(id: string) {
    |id| > 2 && id[..2] == "tt" && forall k :: 2 <= k < |id| ==> '0' <= id[k] <= '9'
  }

  /**
    * The rendered string loses nothing: as long as identifiers look like IMDb
    * title ids, the outcome is recovered from the `id` column alone.
    */
  lemma RenderRoundTrip(title: string, res: Resolution)
    requires res.Identifier? ==> IsImdbTitleId(res.id)
    ensures Unrender(title, Render(title, res)) == res
  {
    var text := Render(title, res);
    match res
    case Identifier(id) =>
      assert text[0] == 't';
      assert !HasPrefix(text, ApiErrorPrefix) by { assert ApiErrorPrefix[0] == 'A'; }
      assert !HasPrefix(text, NotFoundPrefix) by { assert NotFoundPrefix[0] == 'N'; }
      assert text != NoIdPrefix + title by { assert (NoIdPrefix + title)[0] == 'N'; }
    case NoIdentifier =>
      assert !HasPrefix(text, ApiErrorPrefix) by { assert text[0] == 'N'; }
      assert !HasPrefix(text, NotFoundPrefix) by { assert text[2] == ' ' && NotFoundPrefix[2] == 't'; }
    case NotFound(reason) =>
      assert !HasPrefix(text, ApiErrorPrefix) by { assert text[0] == 'N'; }
      assert text[..|NotFoundPrefix|] == NotFoundPrefix;
      assert text[|NotFoundPrefix|..] == reason;
    case ApiError(message) =>
      assert text[..|ApiErrorPrefix|] == ApiErrorPrefix;
      assert text[|ApiErrorPrefix|..] == message;
  }

  /**
    * `get_imdb_id_from_omdb`: one search request for `title` with the OMDb type
    * of `mediaType`, classified into the string written to the export; `Err` is
    * an exception that escapes to the caller.
    */
  function GetImdbId(title: string, mediaType: string, omdb: (string, string) -> Reply): Result<string, Fault> {
    match Classify(title, omdb(title, OmdbType(mediaType)))
    case Ok(res) => Ok(Render(title, res))
    case Err(fault) => Err(fault)
  }

  /** What the lookup returns or raises, case by case on the reply to its request. */
  lemma LookupOutcome(title: string, mediaType: string, omdb: (string, string) -> Reply)
    // a request failure never escapes
    ensures var reply, r := omdb(title, OmdbType(mediaType)), GetImdbId(title, mediaType, omdb);
      reply.RequestFailed? ==> r == Ok(ApiErrorPrefix + reply.message)
    // anything but a "True" Response is "Not Found", with the API's Error if it gave one
    ensures var reply, r := omdb(title, OmdbType(mediaType)), GetImdbId(title, mediaType, omdb);
      reply.Decoded? && reply.body.response != Some("True") ==>
        r == Ok(NotFoundPrefix + if reply.body.error.Some? then reply.body.error.value else UnknownErrorPrefix + title)
    // a "True" Response: only the first hit decides
    ensures var reply, r := omdb(title, OmdbType(mediaType)), GetImdbId(title, mediaType, omdb);
      reply.Decoded? && reply.body.response == Some("True") && reply.body.search.Some? && reply.body.search.value != [] ==>
        var first := reply.body.search.value[0];
        r == Ok(if Truthy(first.imdbID) then first.imdbID.value else NoIdPrefix + title)
    // the lookup raises exactly when a "True" Response has no first hit
    ensures var reply, r := omdb(title, OmdbType(mediaType)), GetImdbId(title, mediaType, omdb);
      r.Err? <==> reply.Decoded? && reply.body.response == Some("True") && (reply.body.search.None? || reply.body.search.value == [])
    ensures var reply, r := omdb(title, OmdbType(mediaType)), GetImdbId(title, mediaType, omdb);
      r == Err(KeyErrorSearch) <==> reply.Decoded? && reply.body.response == Some("True") && reply.body.search.None?
  {
  }

  /** Hits after the first never affect the lookup. */
  lemma OnlyFirstHitMatters(title: string, body: Body, first: SearchHit, rest1: seq<SearchHit>, rest2: seq<SearchHit>)
    ensures Classify(title, Decoded(body.(search := Some([first] + rest1))))
         == Classify(title, Decoded(body.(search := Some([first] + rest2))))
  {
  }

  /**
    * What the `id` column says is what the lookup decided: reading the written
    * string back gives the classification, provided a found identifier is
    * IMDb-shaped.
    */
  lemma LookupReadBack(title: string, mediaType: string, omdb: (string, string) -> Reply)
    requires var c := Classify(title, omdb(title, OmdbType(mediaType)));
      c.Ok? && (c.value.Identifier? ==> IsImdbTitleId(c.value.id))
    ensures GetImdbId(title, mediaType, omdb).Ok?
    ensures Unrender(title, GetImdbId(title, mediaType, omdb).value) == Classify(title, omdb(title, OmdbType(mediaType))).value
  {
    RenderRoundTrip(title, Classify(title, omdb(title, OmdbType(mediaType))).value);
  }
}
